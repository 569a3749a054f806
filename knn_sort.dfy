/** Sorting the K neighbour slots of one query point by distance, as `Tensor::sort`
    along the last dimension does: the distances are reordered non-decreasingly and the
    permutation that does it is returned, to be applied to the neighbour indices with
    `gather`. INFINITY, the marker for an invalid slot, sorts after every finite
    distance. Ties keep their slot order. */
module KnnSort {

  /** A squared distance, or the INFINITY marker. */
  datatype Dist = Fin(v: real) | Inf

  predicate Le(a: Dist, b: Dist)
  {
    b.Inf? || (a.Fin? && a.v <= b.v)
  }

  predicate Lt(a: Dist, b: Dist)
  {
    !Le(b, a)
  }

  lemma {:induction false} LeTotal(a: Dist, b: Dist)
    ensures Le(a, b) || Le(b, a)
  {
  }

  lemma {:induction false} LeTrans(a: Dist, b: Dist, c: Dist)
    requires Le(a, b) && Le(b, c)
    ensures Le(a, c)
  {
  }

  /** lo, lo + 1, ..., hi - 1. */
  function Range(lo: nat, hi: nat): (r: seq<nat>)
    requires lo <= hi
    ensures |r| == hi - lo && forall i :: 0 <= i < |r| ==> r[i] == lo + i
  {
    seq(hi - lo, i requires 0 <= i < hi - lo => lo + i)
  }

  lemma {:induction false} RangeSnoc(lo: nat, hi: nat)
    requires lo <= hi
    ensures Range(lo, hi + 1) == Range(lo, hi) + [hi]
  {
    var a, b := Range(lo, hi + 1), Range(lo, hi) + [hi];
    assert |a| == |b|;
    forall k | 0 <= k < |a| ensures a[k] == b[k] {
      if k < hi - lo {
        assert b[k] == Range(lo, hi)[k];
      }
    }
  }

  predicate IndicesBelow(s: seq<nat>, n: nat)
  {
    forall i :: 0 <= i < |s| ==> s[i] < n
  }

  /** `s` lists slots of `row` in non-decreasing order of distance. */
  predicate SortedBy(row: seq<Dist>, s: seq<nat>)
    requires IndicesBelow(s, |row|)
  {
    forall a, b :: 0 <= a < b < |s| ==> Le(row[s[a]], row[s[b]])
  }

  /** The slots `row[s[0]], row[s[1]], ...`: what `gather` along the last dimension reads. */
  function Gather<T>(row: seq<T>, s: seq<nat>): (r: seq<T>)
    requires IndicesBelow(s, |row|)
    ensures |r| == |s| && forall k :: 0 <= k < |s| ==> r[k] == row[s[k]]
  {
    seq(|s|, k requires 0 <= k < |s| => row[s[k]])
  }

  /** Puts slot `i` in front of the first slot of `acc` that is strictly farther. */
  function Insert(row: seq<Dist>, acc: seq<nat>, i: nat): (r: seq<nat>)
    requires i < |row| && IndicesBelow(acc, |row|)
    ensures |r| == |acc| + 1 && IndicesBelow(r, |row|)
  {
    if acc == [] then [i]
    else if Lt(row[i], row[acc[0]]) then [i] + acc
    else [acc[0]] + Insert(row, acc[1..], i)
  }

  lemma {:induction false} InsertMultiset(row: seq<Dist>, acc: seq<nat>, i: nat)
    requires i < |row| && IndicesBelow(acc, |row|)
    ensures multiset(Insert(row, acc, i)) == multiset(acc) + multiset{i}
  {
    if acc != [] && !Lt(row[i], row[acc[0]]) {
      InsertMultiset(row, acc[1..], i);
      assert acc == [acc[0]] + acc[1..];
    }
  }

  /** The sort permutation of the first `n` slots. */
  function SortPermUpTo(row: seq<Dist>, n: nat): (r: seq<nat>)
    requires n <= |row|
    ensures |r| == n && IndicesBelow(r, |row|)
  {
    if n == 0 then [] else Insert(row, SortPermUpTo(row, n - 1), n - 1)
  }

  lemma {:induction false} SortPermUpToMultiset(row: seq<Dist>, n: nat)
    requires n <= |row|
    ensures multiset(SortPermUpTo(row, n)) == multiset(Range(0, n))
  {
    if n > 0 {
      SortPermUpToMultiset(row, n - 1);
      InsertMultiset(row, SortPermUpTo(row, n - 1), n - 1);
      RangeSnoc(0, n - 1);
    }
  }

  /** The index tensor `sort` returns for one row. */
  function SortPerm(row: seq<Dist>): (r: seq<nat>)
    ensures |r| == |row| && IndicesBelow(r, |row|)
  {
    SortPermUpTo(row, |row|)
  }

  /** The distances `sort` returns for one row. */
  function Sorted(row: seq<Dist>): seq<Dist>
  {
    Gather(row, SortPerm(row))
  }

  // ---------------------------------------------------------------------------
  // The permutation sorts.

  lemma {:induction false} InsertKeepsOthers(row: seq<Dist>, acc: seq<nat>, i: nat, x: nat)
    requires i < |row| && IndicesBelow(acc, |row|)
    ensures x in Insert(row, acc, i) <==> x in acc || x == i
  {
    InsertMultiset(row, acc, i);
    assert x in Insert(row, acc, i) <==> x in multiset(Insert(row, acc, i));
  }

  lemma {:induction false} InsertSorted(row: seq<Dist>, acc: seq<nat>, i: nat)
    requires i < |row| && IndicesBelow(acc, |row|) && SortedBy(row, acc)
    ensures SortedBy(row, Insert(row, acc, i))
  {
    var r := Insert(row, acc, i);
    if acc == [] {
    } else if Lt(row[i], row[acc[0]]) {
      forall a, b | 0 <= a < b < |r| ensures Le(row[r[a]], row[r[b]]) {
        if a == 0 {
          LeTotal(row[i], row[acc[0]]);
          if b > 1 {
            LeTrans(row[i], row[acc[0]], row[acc[b - 1]]);
          }
        }
      }
    } else {
      var rest := Insert(row, acc[1..], i);
      InsertSorted(row, acc[1..], i);
      LeTotal(row[i], row[acc[0]]);
      forall a, b | 0 <= a < b < |r| ensures Le(row[r[a]], row[r[b]]) {
        if a == 0 {
          var y := rest[b - 1];
          InsertKeepsOthers(row, acc[1..], i, y);
          if y != i {
            var c :| 0 <= c < |acc[1..]| && acc[1..][c] == y;
            assert acc[c + 1] == y;
          }
        } else {
          assert r[a] == rest[a - 1] && r[b] == rest[b - 1];
        }
      }
    }
  }

  lemma {:induction false} SortPermUpToSorted(row: seq<Dist>, n: nat)
    requires n <= |row|
    ensures SortedBy(row, SortPermUpTo(row, n))
  {
    if n > 0 {
      SortPermUpToSorted(row, n - 1);
      InsertSorted(row, SortPermUpTo(row, n - 1), n - 1);
    }
  }

  /** `sort` returns the distances in non-decreasing order. */
  lemma {:induction false} SortedIsSorted(row: seq<Dist>)
    ensures forall a, b :: 0 <= a < b < |row| ==> Le(Sorted(row)[a], Sorted(row)[b])
  {
    SortPermUpToSorted(row, |row|);
  }

  /** The first sorted slot is the nearest. */
  lemma {:induction false} SortedFirstIsMin(row: seq<Dist>, j: nat)
    requires j < |row|
    ensures Le(Sorted(row)[0], row[j])
  {
    var p := SortPerm(row);
    SortPermUpToSorted(row, |row|);
    SortPermUpToMultiset(row, |row|);
    assert j in multiset(Range(0, |row|)) by { assert Range(0, |row|)[j] == j; }
    assert j in multiset(p);
    var a :| 0 <= a < |p| && p[a] == j;
    if a > 0 {
      assert Le(row[p[0]], row[p[a]]);
    }
  }

  // ---------------------------------------------------------------------------
  // Gathering with a permutation keeps the multiset.

  lemma {:induction false} GatherCons<T>(row: seq<T>, p: seq<nat>)
    requires IndicesBelow(p, |row|) && p != []
    ensures Gather(row, p) == [row[p[0]]] + Gather(row, p[1..])
  {
    var a, b := Gather(row, p), [row[p[0]]] + Gather(row, p[1..]);
    forall k | 0 <= k < |a| ensures a[k] == b[k] {
      if k > 0 {
        assert b[k] == Gather(row, p[1..])[k - 1];
      }
    }
  }

  /** Taking slot `j` out of `q` takes one `row[q[j]]` out of what `q` gathers. */
  lemma {:induction false} RemoveOne<T>(row: seq<T>, q: seq<nat>, j: nat)
    requires IndicesBelow(q, |row|) && j < |q|
    ensures multiset(q) == multiset{q[j]} + multiset(q[..j] + q[j + 1..])
    ensures multiset(Gather(row, q)) == multiset{row[q[j]]} + multiset(Gather(row, q[..j] + q[j + 1..]))
  {
    assert q == q[..j] + [q[j]] + q[j + 1..];
    var before, after := Gather(row, q[..j]), Gather(row, q[j + 1..]);
    assert Gather(row, q) == before + [row[q[j]]] + after;
    assert Gather(row, q[..j] + q[j + 1..]) == before + after;
  }

  lemma {:induction false} MultisetCancel<T>(x: T, a: multiset<T>, b: multiset<T>)
    requires multiset{x} + a == multiset{x} + b
    ensures a == b
  {
    forall v ensures a[v] == b[v] {
      assert (multiset{x} + a)[v] == (multiset{x} + b)[v];
    }
  }

  lemma {:induction false} GatherSameMultiset<T>(row: seq<T>, p: seq<nat>, q: seq<nat>)
    requires IndicesBelow(p, |row|) && IndicesBelow(q, |row|)
    requires multiset(p) == multiset(q)
    ensures multiset(Gather(row, p)) == multiset(Gather(row, q))
  {
    if p != [] {
      var j := FindSlot(p, q);
      var q' := q[..j] + q[j + 1..];
      RemoveOne(row, q, j);
      RemoveFirst(row, p);
      MultisetCancel(p[0], multiset(p[1..]), multiset(q'));
      GatherSameMultiset(row, p[1..], q');
    }
  }

  /** Where the first element of `p` sits in its rearrangement `q`. */
  lemma {:induction false} FindSlot(p: seq<nat>, q: seq<nat>) returns (j: nat)
    requires p != [] && multiset(p) == multiset(q)
    ensures j < |q| && q[j] == p[0]
  {
    assert p[0] in multiset(q) by { assert p[0] in multiset(p); }
    j :| 0 <= j < |q| && q[j] == p[0];
  }

  lemma {:induction false} RemoveFirst<T>(row: seq<T>, p: seq<nat>)
    requires IndicesBelow(p, |row|) && p != []
    ensures multiset(p) == multiset{p[0]} + multiset(p[1..])
    ensures multiset(Gather(row, p)) == multiset{row[p[0]]} + multiset(Gather(row, p[1..]))
  {
    assert p == [p[0]] + p[1..];
    GatherCons(row, p);
  }

  /** Gathering with any rearrangement of all slots keeps every element exactly once. */
  lemma {:induction false} GatherPermutation<T>(row: seq<T>, p: seq<nat>)
    requires IndicesBelow(p, |row|) && multiset(p) == multiset(Range(0, |row|))
    ensures multiset(Gather(row, p)) == multiset(row)
  {
    GatherSameMultiset(row, p, Range(0, |row|));
    assert Gather(row, Range(0, |row|)) == row;
  }

  /** A (distance, index) pair per slot. */
  function Pairs<T>(ds: seq<Dist>, ix: seq<T>): (r: seq<(Dist, T)>)
    requires |ds| == |ix|
    ensures |r| == |ds|
  {
    seq(|ds|, k requires 0 <= k < |ds| => (ds[k], ix[k]))
  }

  /** Sorting the distances and gathering the indices with the same permutation
      rearranges the (distance, index) pairs and changes none of them. */
  lemma {:induction false} SortKeepsPairs<T>(ds: seq<Dist>, ix: seq<T>)
    requires |ds| == |ix|
    ensures multiset(Pairs(Sorted(ds), Gather(ix, SortPerm(ds)))) == multiset(Pairs(ds, ix))
  {
    var p := SortPerm(ds);
    assert Pairs(Sorted(ds), Gather(ix, p)) == Gather(Pairs(ds, ix), p);
    SortPermUpToMultiset(ds, |ds|);
    GatherPermutation(Pairs(ds, ix), p);
  }

  // ---------------------------------------------------------------------------
  // INFINITY slots stay at the end, in slot order.

  lemma {:induction false} InsertInf(row: seq<Dist>, acc: seq<nat>, i: nat)
    requires i < |row| && IndicesBelow(acc, |row|) && row[i] == Inf
    ensures Insert(row, acc, i) == acc + [i]
  {
    if acc != [] {
      assert !Lt(row[i], row[acc[0]]);
      assert Insert(row, acc, i) == [acc[0]] + Insert(row, acc[1..], i);
      InsertInf(row, acc[1..], i);
      assert acc == [acc[0]] + acc[1..];
    }
  }

  /** When the slots from `m` on hold INFINITY, they follow the sorted first `m` slots. */
  lemma {:induction false} InfTail(row: seq<Dist>, m: nat, n: nat)
    requires m <= n <= |row|
    requires forall j :: m <= j < n ==> row[j] == Inf
    ensures SortPermUpTo(row, n) == SortPermUpTo(row, m) + Range(m, n)
  {
    if n > m {
      var prev := SortPermUpTo(row, n - 1);
      InfTail(row, m, n - 1);
      assert SortPermUpTo(row, n) == Insert(row, prev, n - 1);
      InsertInf(row, prev, n - 1);
      RangeSnoc(m, n - 1);
      var head, tail := SortPermUpTo(row, m), Range(m, n - 1);
      assert (head + tail) + [n - 1] == head + (tail + [n - 1]);
    }
  }

  /** Insertion only looks at the slots it is given. */
  lemma {:induction false} InsertLocal(r1: seq<Dist>, r2: seq<Dist>, acc: seq<nat>, i: nat, n: nat)
    requires n <= |r1| && n <= |r2| && r1[..n] == r2[..n]
    requires i < n && IndicesBelow(acc, n)
    ensures Insert(r1, acc, i) == Insert(r2, acc, i)
  {
    assert r1[i] == r1[..n][i] && r2[i] == r2[..n][i];
    if acc != [] {
      assert r1[acc[0]] == r1[..n][acc[0]] && r2[acc[0]] == r2[..n][acc[0]];
      InsertLocal(r1, r2, acc[1..], i, n);
    }
  }

  lemma {:induction false} SortPermUpToLocal(r1: seq<Dist>, r2: seq<Dist>, n: nat)
    requires n <= |r1| && n <= |r2| && r1[..n] == r2[..n]
    ensures SortPermUpTo(r1, n) == SortPermUpTo(r2, n)
  {
    if n > 0 {
      assert r1[..n - 1] == r2[..n - 1] by {
        assert r1[..n - 1] == r1[..n][..n - 1] && r2[..n - 1] == r2[..n][..n - 1];
      }
      SortPermUpToLocal(r1, r2, n - 1);
      assert IndicesBelow(SortPermUpTo(r1, n - 1), n - 1) by {
        var s := SortPermUpTo(r1, n - 1);
        SortPermUpToMultiset(r1, n - 1);
        forall k | 0 <= k < |s| ensures s[k] < n - 1 {
          assert s[k] in multiset(Range(0, n - 1));
        }
      }
      InsertLocal(r1, r2, SortPermUpTo(r1, n - 1), n - 1, n);
    }
  }

  /** The first `m` slots sorted among themselves, then the INFINITY slots in order. */
  lemma {:induction false} SortPermInfTail(row: seq<Dist>, m: nat)
    requires m <= |row| && forall j :: m <= j < |row| ==> row[j] == Inf
    ensures SortPerm(row) == SortPermUpTo(row, m) + Range(m, |row|)
    ensures IndicesBelow(SortPermUpTo(row, m), m)
  {
    InfTail(row, m, |row|);
    SortPermUpToMultiset(row, m);
    forall k | 0 <= k < m ensures SortPermUpTo(row, m)[k] < m {
      assert SortPermUpTo(row, m)[k] in multiset(Range(0, m));
    }
  }
}
