/** Decimal printing and parsing of integers and splitting a line at a separator:
    what reading an OBJ face line back needs. */
module Text {
  import opened Results

  // ---------------------------------------------------------------------------
  // Decimal integers.

  function Digit(d: nat): (c: char)
    requires d < 10
    ensures '0' <= c <= '9' && (c as int) - ('0' as int) == d
  {
    ('0' as int + d) as char
  }

  predicate IsDigits(s: string)
  {
    forall i :: 0 <= i < |s| ==> '0' <= s[i] <= '9'
  }

  /** The decimal digits of n, without leading zeros. */
  function NatToString(n: nat): (s: string)
    ensures |s| > 0
    decreases n
  {
    if n < 10 then [Digit(n)] else NatToString(n / 10) + [Digit(n % 10)]
  }

  /** How `operator<<` prints an integer. */
  function IntToString(i: int): (s: string)
    ensures |s| > 0
  {
    if i < 0 then "-" + NatToString(-i) else NatToString(i)
  }

  lemma {:induction false} NatToStringDigits(n: nat)
    ensures IsDigits(NatToString(n))
    decreases n
  {
    if n >= 10 {
      NatToStringDigits(n / 10);
      var s := NatToString(n);
      forall i | 0 <= i < |s|
        ensures '0' <= s[i] <= '9'
      {
        if i < |s| - 1 {
          assert s[i] == NatToString(n / 10)[i];
        }
      }
    }
  }

  /** A printed integer has no space in it, so a line splits back at its spaces. */
  lemma {:induction false} IntToStringNoSpace(i: int)
    ensures ' ' !in IntToString(i)
  {
    var n: nat := if i < 0 then -i else i;
    NatToStringDigits(n);
    var s := IntToString(i);
    forall k | 0 <= k < |s|
      ensures s[k] != ' '
    {
      if i < 0 && k > 0 {
        assert s[k] == NatToString(n)[k - 1];
      } else if i >= 0 {
        assert s[k] == NatToString(n)[k];
      }
    }
  }

  function ParseNat(s: string): nat
    requires IsDigits(s)
  {
    if s == [] then 0 else ParseNat(s[..|s| - 1]) * 10 + ((s[|s| - 1] as int) - ('0' as int))
  }

  /** A decimal integer with an optional minus sign; anything else is not one. */
  function ParseInt(s: string): (r: Option<int>)
    ensures r.Some? ==> |s| > 0
  {
    if |s| > 1 && s[0] == '-' && IsDigits(s[1..]) then Some(0 - ParseNat(s[1..]))
    else if |s| > 0 && IsDigits(s) then Some(ParseNat(s))
    else None
  }

  lemma {:induction false} ParseNatToString(n: nat)
    ensures IsDigits(NatToString(n)) && ParseNat(NatToString(n)) == n
    decreases n
  {
    NatToStringDigits(n);
    if n >= 10 {
      var s := NatToString(n);
      assert s[..|s| - 1] == NatToString(n / 10);
      ParseNatToString(n / 10);
    }
  }

  /** Printed integers read back as themselves. */
  lemma {:induction false} ParseIntToString(i: int)
    ensures ParseInt(IntToString(i)) == Some(i)
  {
    if i < 0 {
      var s := NatToString(-i);
      ParseNatToString(-i);
      assert IntToString(i) == "-" + s;
      assert ("-" + s)[1..] == s;
    } else {
      ParseNatToString(i);
    }
  }

  // ---------------------------------------------------------------------------
  // Splitting a line at spaces.

  function Split(s: string, sep: char): (r: seq<string>)
    ensures |r| >= 1
  {
    if s == [] then [""]
    else
      var rest := Split(s[1..], sep);
      if s[0] == sep then [""] + rest else [[s[0]] + rest[0]] + rest[1..]
  }

  lemma {:induction false} SplitNone(s: string, sep: char)
    requires sep !in s
    ensures Split(s, sep) == [s]
  {
    if s != [] {
      SplitNone(s[1..], sep);
      assert [s[0]] + s[1..] == s;
    }
  }

  lemma {:induction false} SplitAppend(a: string, sep: char, rest: string)
    requires sep !in a
    ensures Split(a + [sep] + rest, sep) == [a] + Split(rest, sep)
  {
    if a == [] {
      assert (a + [sep] + rest)[1..] == rest;
    } else {
      assert (a + [sep] + rest)[1..] == a[1..] + [sep] + rest;
      SplitAppend(a[1..], sep, rest);
      assert [a[0]] + a[1..] == a;
    }
  }

  lemma {:induction false} SplitThree(a: string, b: string, c: string)
    requires ' ' !in a && ' ' !in b && ' ' !in c
    ensures Split(a + [' '] + (b + [' '] + c), ' ') == [a, b, c]
  {
    SplitAppend(a, ' ', b + [' '] + c);
    SplitAppend(b, ' ', c);
    SplitNone(c, ' ');
  }

  lemma {:induction false} TakeAppend(a: string, b: string)
    ensures (a + b)[..|a|] == a
  {
  }
}
