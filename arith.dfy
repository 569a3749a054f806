/** Facts about row-major index arithmetic that the solver does not find on its own.
    Quotient and remainder are defined by repeated subtraction so that the solver
    only unfolds them when a lemma asks it to. */
module Arith {

  lemma {:induction false} MulAtLeast(a: int, n: nat)
    requires a >= 1
    ensures a * n >= n
  {
    if a > 1 {
      MulAtLeast(a - 1, n);
      assert a * n == (a - 1) * n + n;
    }
  }

  lemma {:induction false} MulMono(a: nat, b: nat, n: nat)
    requires a <= b
    ensures a * n <= b * n
  {
    if a < b {
      MulAtLeast(b - a, n);
      assert b * n == a * n + (b - a) * n;
    }
  }

  lemma {:induction false} MulMonoWhen(a: nat, b: nat, n: nat)
    ensures a <= b ==> a * n <= b * n
  {
    if a <= b { MulMono(a, b, n); }
  }

  /** One more row of `n` elements. */
  lemma {:induction false} MulSucc(a: nat, n: nat)
    ensures a * n + n == (a + 1) * n
  {
  }

  lemma {:induction false} MulAssoc(a: nat, b: nat, c: nat)
    ensures a * b * c == a * (b * c)
  {
  }

  /** `a * m` as `a` blocks of `m`, so that walking over blocks needs no multiplication. */
  function Times(a: nat, m: nat): nat
  {
    if a == 0 then 0 else Times(a - 1, m) + m
  }

  lemma {:induction false} TimesIsProduct(a: nat, m: nat)
    ensures Times(a, m) == a * m
  {
    if a > 0 {
      TimesIsProduct(a - 1, m);
      MulSucc(a - 1, m);
    }
  }

  /** A box has the same number of cells whichever way round its sides are listed. */
  lemma {:induction false} ProductReversed(a: nat, b: nat, c: nat)
    ensures c * (b * a) == a * (b * c)
  {
    MulAssoc(c, b, a);
  }

  /** A row-major position `j * rows + i` lies inside a rows x cols block. */
  lemma {:induction false} BelowProduct(j: nat, i: nat, rows: nat, cols: nat)
    requires i < rows && j < cols
    ensures j * rows + i < rows * cols
  {
    MulMono(j + 1, cols, rows);
    assert (j + 1) * rows == j * rows + rows;
  }

  function Quot(t: nat, n: nat): nat
    requires n > 0
    decreases t
  {
    if t < n then 0 else 1 + Quot(t - n, n)
  }

  function Rem(t: nat, n: nat): nat
    requires n > 0
    decreases t
  {
    if t < n then t else Rem(t - n, n)
  }

  /** Quotient and remainder of `q * n + r` are `q` and `r` when `r < n`. */
  lemma {:induction false} QuotRemOf(q: nat, r: nat, n: nat)
    requires r < n
    ensures Quot(q * n + r, n) == q && Rem(q * n + r, n) == r
  {
    if q > 0 {
      assert q * n + r - n == (q - 1) * n + r;
      QuotRemOf(q - 1, r, n);
    }
  }

  /** Every position splits into a quotient and a remainder. */
  lemma {:induction false} QuotRemSplit(t: nat, n: nat)
    requires n > 0
    ensures t == Quot(t, n) * n + Rem(t, n) && Rem(t, n) < n
  {
    if t >= n {
      QuotRemSplit(t - n, n);
      assert (Quot(t - n, n) + 1) * n == Quot(t - n, n) * n + n;
    }
  }

  /** A position below `rows * cols` has a row below `rows` and a column below `cols`. */
  lemma {:induction false} SplitBelow(t: nat, rows: nat, cols: nat)
    requires t < rows * cols
    ensures cols > 0 && Quot(t, cols) < rows && Rem(t, cols) < cols
    ensures t == Quot(t, cols) * cols + Rem(t, cols)
  {
    assert cols != 0;
    QuotRemSplit(t, cols);
    MulMonoWhen(rows, Quot(t, cols), cols);
  }
}
