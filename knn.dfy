/** The K-nearest-neighbour part of thirdparty/chamferdist/chamfer.h:
    `KNNPointsFunction::forward` with its `mask_invalid_dists` helper, `backward`'s
    output list, `knn_gather` and `knn_points`. The KNN backend itself
    (`KNearestNeighborIdx`) is foreign code; its output is an input to `Forward`, and
    `KnnPoints` uses the brute-force reference `BackendRow` for it. */
module Knn {
  import opened Results
  import opened KnnSort

  // ---------------------------------------------------------------------------
  // Rows of (N, P, K) tensors.

  /** Row (b, p) of an (N, P, K) tensor: its K slots. */
  function Row3<T>(a: array3<T>, b: nat, p: nat): (r: seq<T>)
    reads a
    requires b < a.Length0 && p < a.Length1
    ensures |r| == a.Length2 && forall k :: 0 <= k < a.Length2 ==> r[k] == a[b, p, k]
  {
    seq(a.Length2, k requires 0 <= k < a.Length2 reads a => a[b, p, k])
  }

  /** Slot k of a row of batch b is invalid exactly when `lengths2[b] <= k`. */
  predicate Invalid(len2: int, k: nat)
  {
    len2 <= k
  }

  /** A row with every invalid slot replaced by `v`: `masked_fill_` restricted to one row. */
  function Masked<T>(row: seq<T>, len2: int, v: T): (r: seq<T>)
    ensures |r| == |row|
    ensures forall k :: 0 <= k < |row| ==> r[k] == if Invalid(len2, k) then v else row[k]
  {
    seq(|row|, k requires 0 <= k < |row| => if Invalid(len2, k) then v else row[k])
  }

  function MinOf(s: seq<int>): (m: int)
    requires s != []
    ensures (forall i :: 0 <= i < |s| ==> m <= s[i]) && m in s
  {
    if |s| == 1 then s[0]
    else
      var rest := MinOf(s[1..]);
      assert rest in s;
      if s[0] <= rest then s[0] else rest
  }

  const EmptyMinError := "min(): cannot reduce an empty tensor"

  // ---------------------------------------------------------------------------
  // The tensor operations `forward` uses.

  /** `t.masked_fill_(mask, v)` with the mask `lengths2[b] <= k` expanded over (N, P, K). */
  method MaskFill(t: array3<Dist>, lengths2: seq<int>, v: Dist)
    requires t.Length0 == |lengths2|
    modifies t
    ensures forall b, p :: 0 <= b < t.Length0 && 0 <= p < t.Length1 ==>
      Row3(t, b, p) == Masked(old(Row3(t, b, p)), lengths2[b], v)
  {
    forall b, p, k | 0 <= b < t.Length0 && 0 <= p < t.Length1 && 0 <= k < t.Length2 && Invalid(lengths2[b], k) {
      t[b, p, k] := v;
    }
  }

  /** `t.sort(2)`: the sorted values and the permutation, row by row. */
  method SortLastDim(t: array3<Dist>) returns (values: array3<Dist>, indices: array3<nat>)
    ensures fresh(values) && fresh(indices)
    ensures values.Length0 == indices.Length0 == t.Length0
    ensures values.Length1 == indices.Length1 == t.Length1
    ensures values.Length2 == indices.Length2 == t.Length2
    ensures forall b, p :: 0 <= b < t.Length0 && 0 <= p < t.Length1 ==>
      Row3(values, b, p) == Sorted(Row3(t, b, p)) && Row3(indices, b, p) == SortPerm(Row3(t, b, p))
  {
    values := new Dist[t.Length0, t.Length1, t.Length2]((b, p, k)
      requires 0 <= b < t.Length0 && 0 <= p < t.Length1 && 0 <= k < t.Length2 reads t =>
      Sorted(Row3(t, b, p))[k]);
    indices := new nat[t.Length0, t.Length1, t.Length2]((b, p, k)
      requires 0 <= b < t.Length0 && 0 <= p < t.Length1 && 0 <= k < t.Length2 reads t =>
      SortPerm(Row3(t, b, p))[k]);
  }

  /** `src.gather(2, index)`: slot k of row (b, p) reads slot `index[b, p, k]`. */
  method GatherLastDim(src: array3<int>, index: array3<nat>) returns (out: array3<int>)
    requires index.Length0 == src.Length0 && index.Length1 == src.Length1
    requires forall b, p :: 0 <= b < index.Length0 && 0 <= p < index.Length1 ==>
      IndicesBelow(Row3(index, b, p), src.Length2)
    ensures fresh(out)
    ensures out.Length0 == index.Length0 && out.Length1 == index.Length1 && out.Length2 == index.Length2
    ensures forall b, p :: 0 <= b < index.Length0 && 0 <= p < index.Length1 ==>
      Row3(out, b, p) == Gather(Row3(src, b, p), Row3(index, b, p))
  {
    out := new int[index.Length0, index.Length1, index.Length2]((b, p, k)
      requires 0 <= b < index.Length0 && 0 <= p < index.Length1 && 0 <= k < index.Length2
      requires IndicesBelow(Row3(index, b, p), src.Length2)
      reads src, index =>
      src[b, p, index[b, p, k]]);
  }

  // ---------------------------------------------------------------------------
  // mask_invalid_dists and forward.

  /** mask_invalid_dists: fills the invalid slots of the caller's `dists` with INFINITY
      in place, sorts a copy and zeroes that copy's invalid slots. The C++ function
      returns only the sort permutation; `maskedCopy` is its local sorted, zeroed
      tensor, returned here so that the corrected caller can use it. */
  method MaskInvalidDists(dists: array3<Dist>, lengths2: seq<int>, K: nat, P1: nat)
    returns (sortIdx: array3<nat>, maskedCopy: array3<Dist>)
    requires dists.Length0 == |lengths2| && dists.Length1 == P1 && dists.Length2 == K
    modifies dists
    ensures fresh(sortIdx) && fresh(maskedCopy)
    ensures sortIdx.Length0 == maskedCopy.Length0 == |lengths2|
    ensures sortIdx.Length1 == maskedCopy.Length1 == P1
    ensures sortIdx.Length2 == maskedCopy.Length2 == K
    ensures forall b, p :: 0 <= b < |lengths2| && 0 <= p < P1 ==>
      var filled := Masked(old(Row3(dists, b, p)), lengths2[b], Inf);
      Row3(dists, b, p) == filled &&
      Row3(sortIdx, b, p) == SortPerm(filled) &&
      Row3(maskedCopy, b, p) == Masked(Sorted(filled), lengths2[b], Fin(0.0))
  {
    MaskFill(dists, lengths2, Inf);
    var sorted;
    sorted, sortIdx := SortLastDim(dists);
    MaskFill(sorted, lengths2, Fin(0.0));
    maskedCopy := sorted;
  }

  /** The pair of tensors `forward` returns. */
  datatype KnnOut = KnnOut(dists: array3<Dist>, idx: array3<int>)

  /** What `forward` returns for one (b, p) row, as written: unsorted rows pass through;
      in the short-batch branch the row keeps its INFINITY-filled, unsorted distances
      while the indices are reordered; otherwise both are sorted together. */
  function ForwardRow(row: seq<Dist>, irow: seq<int>, len2: int, minLen2: int, returnSorted: bool)
    : (r: (seq<Dist>, seq<int>))
    requires |row| == |irow|
    ensures |r.0| == |row| && |r.1| == |row|
  {
    var K := |row|;
    if !(K > 1 && returnSorted) then (row, irow)
    else if minLen2 < K then
      var filled := Masked(row, len2, Inf);
      (filled, Gather(irow, SortPerm(filled)))
    else (Sorted(row), Gather(irow, SortPerm(row)))
  }

  /** What `forward` returns for one row once the short-batch branch keeps the sorted,
      zeroed distances that `mask_invalid_dists` computes. */
  function ForwardRowCorrected(row: seq<Dist>, irow: seq<int>, len2: int, minLen2: int, returnSorted: bool)
    : (r: (seq<Dist>, seq<int>))
    requires |row| == |irow|
    ensures |r.0| == |row| && |r.1| == |row|
  {
    var K := |row|;
    if !(K > 1 && returnSorted) then (row, irow)
    else if minLen2 < K then
      var filled := Masked(row, len2, Inf);
      (Masked(Sorted(filled), len2, Fin(0.0)), Gather(irow, SortPerm(filled)))
    else (Sorted(row), Gather(irow, SortPerm(row)))
  }

  predicate ForwardShapes(dists: array3<Dist>, idx: array3<int>, lengths2: seq<int>, K: nat)
    reads dists, idx
  {
    dists.Length0 == idx.Length0 == |lengths2| && dists.Length1 == idx.Length1 &&
    dists.Length2 == idx.Length2 == K
  }

  /** KNNPointsFunction::forward as written, given the backend's `dists` and `idx`. */
  method Forward(dists: array3<Dist>, idx: array3<int>, lengths2: seq<int>, K: nat, returnSorted: bool)
    returns (r: Result<KnnOut>)
    requires ForwardShapes(dists, idx, lengths2, K)
    modifies dists
    ensures r.Err? <==> K > 1 && returnSorted && lengths2 == []
    ensures r.Ok? ==> r.value.dists.Length0 == r.value.idx.Length0 == |lengths2|
    ensures r.Ok? ==> r.value.dists.Length1 == r.value.idx.Length1 == dists.Length1
    ensures r.Ok? ==> r.value.dists.Length2 == r.value.idx.Length2 == K
    ensures r.Ok? ==> forall b, p :: 0 <= b < |lengths2| && 0 <= p < dists.Length1 ==>
      (Row3(r.value.dists, b, p), Row3(r.value.idx, b, p))
        == ForwardRow(old(Row3(dists, b, p)), old(Row3(idx, b, p)), lengths2[b], MinOf(lengths2), returnSorted)
    ensures r.Ok? && K > 1 && returnSorted && MinOf(lengths2) < K ==> r.value.dists == dists
    ensures !(K > 1 && returnSorted && lengths2 != [] && MinOf(lengths2) < K) ==> unchanged(dists)
  {
    if !(K > 1 && returnSorted) {
      return Ok(KnnOut(dists, idx));
    }
    if |lengths2| == 0 {
      return Err(EmptyMinError);
    }
    if MinOf(lengths2) < K {
      var sortIdx, _ := MaskInvalidDists(dists, lengths2, K, dists.Length1);
      var newIdx := GatherLastDim(idx, sortIdx);
      r := Ok(KnnOut(dists, newIdx));
    } else {
      var sorted, sortIdx := SortLastDim(dists);
      var newIdx := GatherLastDim(idx, sortIdx);
      r := Ok(KnnOut(sorted, newIdx));
    }
  }

  /** KNNPointsFunction::forward with the short-batch branch returning the sorted,
      zeroed distances. */
  method ForwardCorrected(dists: array3<Dist>, idx: array3<int>, lengths2: seq<int>, K: nat, returnSorted: bool)
    returns (r: Result<KnnOut>)
    requires ForwardShapes(dists, idx, lengths2, K)
    modifies dists
    ensures r.Err? <==> K > 1 && returnSorted && lengths2 == []
    ensures r.Ok? ==> r.value.dists.Length0 == r.value.idx.Length0 == |lengths2|
    ensures r.Ok? ==> r.value.dists.Length1 == r.value.idx.Length1 == dists.Length1
    ensures r.Ok? ==> r.value.dists.Length2 == r.value.idx.Length2 == K
    ensures r.Ok? ==> forall b, p :: 0 <= b < |lengths2| && 0 <= p < dists.Length1 ==>
      (Row3(r.value.dists, b, p), Row3(r.value.idx, b, p))
        == ForwardRowCorrected(old(Row3(dists, b, p)), old(Row3(idx, b, p)), lengths2[b], MinOf(lengths2), returnSorted)
  {
    if !(K > 1 && returnSorted) {
      return Ok(KnnOut(dists, idx));
    }
    if |lengths2| == 0 {
      return Err(EmptyMinError);
    }
    if MinOf(lengths2) < K {
      var sortIdx, maskedCopy := MaskInvalidDists(dists, lengths2, K, dists.Length1);
      var newIdx := GatherLastDim(idx, sortIdx);
      r := Ok(KnnOut(maskedCopy, newIdx));
    } else {
      var sorted, sortIdx := SortLastDim(dists);
      var newIdx := GatherLastDim(idx, sortIdx);
      r := Ok(KnnOut(sorted, newIdx));
    }
  }

  // ---------------------------------------------------------------------------
  // What one row of `forward`'s result satisfies.

  /** Full-length branch: each row comes back non-decreasing, with the indices permuted
      alongside, so the multiset of (distance, index) pairs is that of the backend. */
  lemma {:induction false} FullBranchSorts(row: seq<Dist>, irow: seq<int>, len2: int, minLen2: int)
    requires |row| == |irow| && |row| > 1 && |row| <= minLen2
    ensures var r := ForwardRow(row, irow, len2, minLen2, true);
      (forall a, b :: 0 <= a < b < |row| ==> Le(r.0[a], r.0[b])) &&
      multiset(Pairs(r.0, r.1)) == multiset(Pairs(row, irow))
  {
    SortedIsSorted(row);
    SortKeepsPairs(row, irow);
  }

  /** Short-batch branch as written: the distances are not reordered (valid slots keep
      the backend's values, invalid ones hold INFINITY), while the indices are. */
  lemma {:induction false} ShortBranchKeepsOrder(row: seq<Dist>, irow: seq<int>, len2: int, minLen2: int)
    requires |row| == |irow| && |row| > 1 && minLen2 < |row|
    ensures var r := ForwardRow(row, irow, len2, minLen2, true);
      (forall k :: 0 <= k < |row| ==> r.0[k] == if len2 <= k then Inf else row[k]) &&
      multiset(r.1) == multiset(irow)
  {
    var filled := Masked(row, len2, Inf);
    SortPermUpToMultiset(filled, |filled|);
    GatherPermutation(irow, SortPerm(filled));
  }

  /** Number of valid slots in a row of K slots. */
  function ValidCount(len2: int, K: nat): (n: nat)
    ensures n <= K && forall k :: 0 <= k < K ==> (k < n <==> !Invalid(len2, k))
  {
    if len2 <= 0 then 0 else if len2 < K then len2 else K
  }

  lemma {:induction false} MaskedPrefix<T>(row: seq<T>, len2: int, v: T)
    ensures var n := ValidCount(len2, |row|);
      Masked(row, len2, v)[..n] == row[..n] &&
      forall j :: n <= j < |row| ==> Masked(row, len2, v)[j] == v
  {
  }

  /** In the short-batch branch `sort` orders the valid slots among themselves and
      leaves the INFINITY slots after them, in order. */
  lemma {:induction false} ShortBranchPerm(row: seq<Dist>, len2: int)
    ensures var n := ValidCount(len2, |row|);
      SortPerm(Masked(row, len2, Inf)) == SortPerm(row[..n]) + Range(n, |row|) &&
      IndicesBelow(SortPerm(row[..n]), n)
  {
    var n := ValidCount(len2, |row|);
    var filled := Masked(row, len2, Inf);
    MaskedPrefix(row, len2, Inf);
    SortPermInfTail(filled, n);
    assert row[..n][..n] == row[..n];
    SortPermUpToLocal(filled, row[..n], n);
  }

  lemma {:induction false} ShortBranchPrefix(row: seq<Dist>, irow: seq<int>, len2: int, minLen2: int)
    requires |row| == |irow| && |row| > 1 && minLen2 < |row|
    ensures var r := ForwardRowCorrected(row, irow, len2, minLen2, true);
      var n := ValidCount(len2, |row|);
      r.0[..n] == Sorted(row[..n]) && r.1[..n] == Gather(irow[..n], SortPerm(row[..n]))
  {
    var n := ValidCount(len2, |row|);
    ShortBranchPerm(row, len2);
    var q := SortPerm(row[..n]);
    var perm := SortPerm(Masked(row, len2, Inf));
    var r := ForwardRowCorrected(row, irow, len2, minLen2, true);
    forall k | 0 <= k < n
      ensures r.0[k] == Sorted(row[..n])[k] && r.1[k] == Gather(irow[..n], q)[k]
    {
      assert perm[k] == q[k] < n;
    }
  }

  lemma {:induction false} ShortBranchTail(row: seq<Dist>, irow: seq<int>, len2: int, minLen2: int)
    requires |row| == |irow| && |row| > 1 && minLen2 < |row|
    ensures var r := ForwardRowCorrected(row, irow, len2, minLen2, true);
      forall k :: ValidCount(len2, |row|) <= k < |row| ==> r.0[k] == Fin(0.0) && r.1[k] == irow[k]
  {
    var n := ValidCount(len2, |row|);
    ShortBranchPerm(row, len2);
    var perm := SortPerm(Masked(row, len2, Inf));
    var r := ForwardRowCorrected(row, irow, len2, minLen2, true);
    forall k | n <= k < |row|
      ensures r.0[k] == Fin(0.0) && r.1[k] == irow[k]
    {
      assert perm[k] == Range(n, |row|)[k - n] == k;
    }
  }

  /** The corrected short-batch branch: the valid slots hold the valid candidates sorted,
      each with its own index, and every invalid slot holds distance 0 and keeps its
      index. */
  lemma {:induction false} ShortBranchCorrected(row: seq<Dist>, irow: seq<int>, len2: int, minLen2: int)
    requires |row| == |irow| && |row| > 1 && minLen2 < |row|
    ensures var r := ForwardRowCorrected(row, irow, len2, minLen2, true);
      var n := ValidCount(len2, |row|);
      r.0[..n] == Sorted(row[..n]) && r.1[..n] == Gather(irow[..n], SortPerm(row[..n])) &&
      (forall k :: n <= k < |row| ==> r.0[k] == Fin(0.0) && r.1[k] == irow[k])
  {
    ShortBranchPrefix(row, irow, len2, minLen2);
    ShortBranchTail(row, irow, len2, minLen2);
  }

  /** Hence the corrected valid prefix is sorted and keeps every (distance, index) pair
      of the valid candidates. */
  lemma {:induction false} ShortBranchCorrectedSorts(row: seq<Dist>, irow: seq<int>, len2: int, minLen2: int)
    requires |row| == |irow| && |row| > 1 && minLen2 < |row|
    ensures var r := ForwardRowCorrected(row, irow, len2, minLen2, true);
      var n := ValidCount(len2, |row|);
      (forall a, b :: 0 <= a < b < n ==> Le(r.0[a], r.0[b])) &&
      multiset(Pairs(r.0[..n], r.1[..n])) == multiset(Pairs(row[..n], irow[..n]))
  {
    var n := ValidCount(len2, |row|);
    var r := ForwardRowCorrected(row, irow, len2, minLen2, true);
    ShortBranchCorrected(row, irow, len2, minLen2);
    SortedIsSorted(row[..n]);
    SortKeepsPairs(row[..n], irow[..n]);
    forall a, b | 0 <= a < b < n ensures Le(r.0[a], r.0[b]) {
      assert r.0[a] == r.0[..n][a] && r.0[b] == r.0[..n][b];
    }
  }

  /** Outside the short-batch branch the two versions agree. */
  lemma {:induction false} CorrectionOnlyShortBranch(row: seq<Dist>, irow: seq<int>, len2: int, minLen2: int, returnSorted: bool)
    requires |row| == |irow| && !(|row| > 1 && returnSorted && minLen2 < |row|)
    ensures ForwardRowCorrected(row, irow, len2, minLen2, returnSorted)
      == ForwardRow(row, irow, len2, minLen2, returnSorted)
  {
  }

  /** A row with three candidates of which two are valid: as written, the distances
      stay (3, 1, INFINITY) while the indices become (11, 10, 12), so distance 3 is
      reported with the index of the candidate at distance 1; the corrected branch
      returns (1, 3, 0) with the same indices. */
  lemma {:induction false} ShortBranchMisaligns()
    ensures var row, irow := [Fin(3.0), Fin(1.0), Fin(7.0)], [10, 11, 12];
      ForwardRow(row, irow, 2, 2, true) == ([Fin(3.0), Fin(1.0), Inf], [11, 10, 12]) &&
      ForwardRowCorrected(row, irow, 2, 2, true) == ([Fin(1.0), Fin(3.0), Fin(0.0)], [11, 10, 12]) &&
      multiset(Pairs(ForwardRow(row, irow, 2, 2, true).0[..2], ForwardRow(row, irow, 2, 2, true).1[..2]))
        != multiset(Pairs(row[..2], irow[..2]))
  {
    var row, irow := [Fin(3.0), Fin(1.0), Fin(7.0)], [10, 11, 12];
    var filled := Masked(row, 2, Inf);
    assert filled == [Fin(3.0), Fin(1.0), Inf];
    assert SortPermUpTo(filled, 1) == [0] by {
      assert SortPermUpTo(filled, 0) == [];
    }
    assert SortPermUpTo(filled, 2) == [1, 0] by {
      assert Lt(filled[1], filled[0]);
    }
    assert SortPerm(filled) == [1, 0, 2] by {
      InsertInf(filled, [1, 0], 2);
    }
    var asWritten := ForwardRow(row, irow, 2, 2, true);
    assert asWritten.1 == [11, 10, 12];
    assert Sorted(filled) == [Fin(1.0), Fin(3.0), Inf];
    assert Masked(Sorted(filled), 2, Fin(0.0)) == [Fin(1.0), Fin(3.0), Fin(0.0)];
    var pw := Pairs(asWritten.0[..2], asWritten.1[..2]);
    assert pw[0] == (Fin(3.0), 11);
    assert (Fin(3.0), 11) in multiset(pw);
    assert (Fin(3.0), 11) !in multiset(Pairs(row[..2], irow[..2]));
  }

  // ---------------------------------------------------------------------------
  // backward's output list.

  /** The inputs of KNNPointsFunction::forward, in order. */
  const ForwardInputs: seq<string> := ["p1", "p2", "lengths1", "lengths2", "K", "version", "return_sorted"]

  /** What `backward` returns: the two point-cloud gradients from the backend, then an
      undefined tensor for each of the five remaining inputs. */
  function Backward<G>(gradP1: G, gradP2: G): (r: seq<Option<G>>)
    ensures |r| == |ForwardInputs| == 7
    ensures forall i :: 0 <= i < |r| ==> (r[i].Some? <==> ForwardInputs[i] in {"p1", "p2"})
    ensures r[0] == Some(gradP1) && r[1] == Some(gradP2)
  {
    [Some(gradP1), Some(gradP2), None, None, None, None, None]
  }

  // ---------------------------------------------------------------------------
  // Point clouds and the nearest-neighbour backend.

  /** An (N, P, D) batch of point clouds. */
  datatype Points = Points(n: nat, p: nat, d: nat, xs: seq<seq<seq<real>>>)
  {
    predicate Valid()
    {
      |xs| == n &&
      (forall b :: 0 <= b < n ==> |xs[b]| == p) &&
      (forall b, i :: 0 <= b < n && 0 <= i < p ==> |xs[b][i]| == d)
    }
  }

  /** Squared Euclidean distance. */
  function SqDist(x: seq<real>, y: seq<real>): (r: real)
    requires |x| == |y|
    ensures r >= 0.0
  {
    if x == [] then 0.0 else (x[0] - y[0]) * (x[0] - y[0]) + SqDist(x[1..], y[1..])
  }

  lemma {:induction false} SqDistSymmetric(x: seq<real>, y: seq<real>)
    requires |x| == |y|
    ensures SqDist(x, y) == SqDist(y, x)
  {
    if x != [] {
      SqDistSymmetric(x[1..], y[1..]);
    }
  }

  /** A point is at distance zero from itself. */
  lemma {:induction false} SqDistSelf(x: seq<real>)
    ensures SqDist(x, x) == 0.0
  {
    if x != [] {
      SqDistSelf(x[1..]);
    }
  }

  predicate SameDim(q: seq<real>, cloud: seq<seq<real>>)
  {
    forall j :: 0 <= j < |cloud| ==> |cloud[j]| == |q|
  }

  /** The squared distance from `q` to its nearest point of `cloud`. */
  function NearestSq(q: seq<real>, cloud: seq<seq<real>>): (r: real)
    requires cloud != [] && SameDim(q, cloud)
    ensures r >= 0.0
    ensures forall j :: 0 <= j < |cloud| ==> r <= SqDist(q, cloud[j])
    ensures exists j :: 0 <= j < |cloud| && r == SqDist(q, cloud[j])
  {
    var here := SqDist(q, cloud[0]);
    if |cloud| == 1 then here
    else
      var rest := NearestSq(q, cloud[1..]);
      assert forall j :: 1 <= j < |cloud| ==> cloud[j] == cloud[1..][j - 1];
      if here <= rest then here else rest
  }

  /** The squared distances from `q` to the first `len2` points of `cloud`. */
  function Candidates(q: seq<real>, cloud: seq<seq<real>>, len2: nat): (r: seq<Dist>)
    requires len2 <= |cloud| && SameDim(q, cloud)
    ensures |r| == len2 && forall j :: 0 <= j < len2 ==> r[j] == Fin(SqDist(q, cloud[j]))
  {
    seq(len2, j requires 0 <= j < len2 => Fin(SqDist(q, cloud[j])))
  }

  /** The reference backend for one query point: its K nearest valid candidates in
      ascending order, then (0, 0) in every slot beyond the number of candidates. */
  function BackendRow(q: seq<real>, cloud: seq<seq<real>>, len2: nat, K: nat): (r: (seq<Dist>, seq<int>))
    requires len2 <= |cloud| && SameDim(q, cloud)
    ensures |r.0| == K && |r.1| == K
  {
    var ds := Candidates(q, cloud, len2);
    var s := SortPerm(ds);
    (seq(K, k requires 0 <= k < K => if k < len2 then Sorted(ds)[k] else Fin(0.0)),
     seq(K, k requires 0 <= k < K => if k < len2 then s[k] as int else 0))
  }

  /** Slot 0 of the backend's row holds the distance to the nearest valid candidate and
      the index of a candidate at that distance. */
  lemma {:induction false} BackendFirstIsNearest(q: seq<real>, cloud: seq<seq<real>>, len2: nat, K: nat)
    requires 0 < len2 <= |cloud| && SameDim(q, cloud) && K > 0
    ensures var r := BackendRow(q, cloud, len2, K);
      r.0[0] == Fin(NearestSq(q, cloud[..len2])) &&
      0 <= r.1[0] < len2 && NearestSq(q, cloud[..len2]) == SqDist(q, cloud[r.1[0]])
  {
    var ds := Candidates(q, cloud, len2);
    var c := cloud[..len2];
    var m := NearestSq(q, c);
    var j0 :| 0 <= j0 < len2 && m == SqDist(q, c[j0]);
    SortedFirstIsMin(ds, j0);
    var s0 := SortPerm(ds)[0];
    assert Sorted(ds)[0] == ds[s0] == Fin(SqDist(q, c[s0]));
  }

  /** The backend's candidates for every (b, i) query: rows past `lengths1[b]` and slots
      past the number of candidates are zero. */
  predicate BackendLengths(p1: Points, p2: Points, l1: seq<int>, l2: seq<int>)
  {
    p1.Valid() && p2.Valid() && p1.n == p2.n && p1.d == p2.d &&
    |l1| == |l2| == p1.n &&
    (forall b :: 0 <= b < |l1| ==> 0 <= l1[b] <= p1.p) &&
    (forall b :: 0 <= b < |l2| ==> 0 <= l2[b] <= p2.p)
  }

  function Backend(p1: Points, p2: Points, l1: seq<int>, l2: seq<int>, K: nat, b: nat, i: nat): (r: (seq<Dist>, seq<int>))
    requires BackendLengths(p1, p2, l1, l2) && b < p1.n && i < p1.p
    ensures |r.0| == K && |r.1| == K
  {
    if i < l1[b] then BackendRow(p1.xs[b][i], p2.xs[b], l2[b], K)
    else (seq(K, _ => Fin(0.0)), seq(K, _ => 0))
  }

  // ---------------------------------------------------------------------------
  // knn_gather.

  const GatherBatchError := "x and idx must have the same batch dimension."
  const GatherIndexError := "gather(): index out of bounds"
  const ExpandError := "expand(): the mask's batch size does not match"

  /** `lengths`, or every batch at `full` points when it is absent. */
  function LengthsOr(lengths: Option<seq<int>>, n: nat, full: nat): (r: seq<int>)
    ensures lengths.Some? ==> r == lengths.value
    ensures lengths.None? ==> |r| == n && forall b :: 0 <= b < n ==> r[b] == full
  {
    match lengths
    case Some(l) => l
    case None => seq(n, _ => full)
  }

  /** The length that batch n sees once `lengths` is broadcast against the batch
      dimension: a single length applies to every batch. */
  function LengthAt(lens: seq<int>, n: nat): int
    requires |lens| == 1 || n < |lens|
  {
    if |lens| == 1 then lens[0] else lens[n]
  }

  predicate IndicesIn(idx: array3<int>, M: nat)
    reads idx
  {
    forall n, l, k :: 0 <= n < idx.Length0 && 0 <= l < idx.Length1 && 0 <= k < idx.Length2 ==>
      0 <= idx[n, l, k] < M
  }

  /** When `knn_gather` fails: a batch mismatch, an index outside the M points, no
      lengths to take the minimum of, or a mask that cannot be expanded over the batch. */
  predicate GatherFails(x: Points, idx: array3<int>, lens: seq<int>)
    reads idx
  {
    x.n != idx.Length0 || !IndicesIn(idx, x.p) || lens == [] ||
    (MinOf(lens) < idx.Length2 && |lens| != x.n && |lens| != 1)
  }

  /** knn_gather: `out[n, l, k, u] = x[n, idx[n, l, k], u]`, and when some length is
      below K every slot k at or past its batch's length is zeroed. */
  method KnnGather(x: Points, idx: array3<int>, lengths: Option<seq<int>>) returns (r: Result<array4<real>>)
    requires x.Valid()
    ensures var lens := LengthsOr(lengths, x.n, x.p);
      r.Err? <==> GatherFails(x, idx, lens)
    ensures x.n != idx.Length0 ==> r == Err(GatherBatchError)
    ensures r.Ok? ==> var out := r.value; var lens := LengthsOr(lengths, x.n, x.p);
      fresh(out) &&
      out.Length0 == x.n && out.Length1 == idx.Length1 && out.Length2 == idx.Length2 && out.Length3 == x.d &&
      forall n, l, k, u :: 0 <= n < x.n && 0 <= l < idx.Length1 && 0 <= k < idx.Length2 && 0 <= u < x.d ==>
        out[n, l, k, u] ==
          if MinOf(lens) < idx.Length2 && LengthAt(lens, n) <= k then 0.0 else x.xs[n][idx[n, l, k]][u]
  {
    var N, M, U := x.n, x.p, x.d;
    var L, K := idx.Length1, idx.Length2;
    if N != idx.Length0 {
      return Err(GatherBatchError);
    }
    var lens := LengthsOr(lengths, N, M);
    if !IndicesIn(idx, M) {
      return Err(GatherIndexError);
    }
    var out := new real[N, L, K, U]((n, l, k, u)
      requires 0 <= n < N && 0 <= l < L && 0 <= k < K && 0 <= u < U
      requires N == x.n && U == x.d && x.Valid() && idx.Length0 == N && IndicesIn(idx, x.p)
      reads idx =>
      x.xs[n][idx[n, l, k]][u]);
    if lens == [] {
      return Err(EmptyMinError);
    }
    if MinOf(lens) < K {
      if |lens| != N && |lens| != 1 {
        return Err(ExpandError);
      }
      forall n, l, k, u | 0 <= n < N && 0 <= l < L && 0 <= k < K && 0 <= u < U && LengthAt(lens, n) <= k {
        out[n, l, k, u] := 0.0;
      }
    }
    return Ok(out);
  }

  // ---------------------------------------------------------------------------
  // knn_points.

  /** What knn_points returns; `knn` is the undefined tensor unless `return_nn` is set. */
  datatype KnnResult = KnnResult(dists: array3<Dist>, idx: array3<int>, knn: Option<array4<real>>)

  const BatchSizeError := "p1 and p2 must have the same batch size"
  const DimError := "p1 and p2 must have the same point dimensionality"

  /** Lengths the backend accepts: one per batch, none past the cloud's size. */
  predicate LengthsFit(lengths: Option<seq<int>>, n: nat, P: nat)
  {
    lengths.Some? ==> |lengths.value| == n && forall b :: 0 <= b < n ==> 0 <= lengths.value[b] <= P
  }

  predicate AllIn(s: seq<int>, M: nat)
  {
    forall k :: 0 <= k < |s| ==> 0 <= s[k] < M
  }

  lemma {:induction false} BackendIndicesIn(p1: Points, p2: Points, l1: seq<int>, l2: seq<int>, K: nat, b: nat, i: nat)
    requires BackendLengths(p1, p2, l1, l2) && b < p1.n && i < p1.p && p2.p > 0
    ensures AllIn(Backend(p1, p2, l1, l2, K, b, i).1, p2.p)
  {
  }

  /** Sorting only reorders a row's indices, so they stay in range. */
  lemma {:induction false} ForwardRowIndicesIn(row: seq<Dist>, irow: seq<int>, len2: int, minLen2: int, returnSorted: bool, M: nat)
    requires |row| == |irow| && AllIn(irow, M)
    ensures AllIn(ForwardRow(row, irow, len2, minLen2, returnSorted).1, M)
  {
  }

  /** The backend's answer for every query, laid out as two (N, P1, K) arrays. */
  method BackendArrays(p1: Points, p2: Points, l1: seq<int>, l2: seq<int>, K: nat)
    returns (dists: array3<Dist>, idx: array3<int>)
    requires BackendLengths(p1, p2, l1, l2)
    ensures fresh(dists) && fresh(idx)
    ensures dists.Length0 == idx.Length0 == p1.n && dists.Length1 == idx.Length1 == p1.p
    ensures dists.Length2 == idx.Length2 == K
    ensures forall b, i :: 0 <= b < p1.n && 0 <= i < p1.p ==>
      Row3(dists, b, i) == Backend(p1, p2, l1, l2, K, b, i).0 &&
      Row3(idx, b, i) == Backend(p1, p2, l1, l2, K, b, i).1
  {
    var N, P1 := p1.n, p1.p;
    dists := new Dist[N, P1, K]((b, i, k)
      requires 0 <= b < N && 0 <= i < P1 && 0 <= k < K
      requires N == p1.n && P1 == p1.p && BackendLengths(p1, p2, l1, l2) =>
      Backend(p1, p2, l1, l2, K, b, i).0[k]);
    idx := new int[N, P1, K]((b, i, k)
      requires 0 <= b < N && 0 <= i < P1 && 0 <= k < K
      requires N == p1.n && P1 == p1.p && BackendLengths(p1, p2, l1, l2) =>
      Backend(p1, p2, l1, l2, K, b, i).1[k]);
  }

  /** The backend's answer run through `forward` as written. */
  method ForwardOnBackend(p1: Points, p2: Points, l1: seq<int>, l2: seq<int>, K: nat, returnSorted: bool)
    returns (r: Result<KnnOut>)
    requires BackendLengths(p1, p2, l1, l2)
    ensures r.Err? <==> K > 1 && returnSorted && p1.n == 0
    ensures r.Ok? ==> var d, ix := r.value.dists, r.value.idx;
      d.Length0 == ix.Length0 == p1.n && d.Length1 == ix.Length1 == p1.p && d.Length2 == ix.Length2 == K
    ensures r.Ok? ==>
      forall b, i :: 0 <= b < p1.n && 0 <= i < p1.p ==>
        var back := Backend(p1, p2, l1, l2, K, b, i);
        (Row3(r.value.dists, b, i), Row3(r.value.idx, b, i))
          == ForwardRow(back.0, back.1, l2[b], MinOf(l2), returnSorted)
  {
    var dists, idx := BackendArrays(p1, p2, l1, l2, K);
    r := Forward(dists, idx, l2, K, returnSorted);
  }

  /** The indices `forward` returns over the backend name points of the second cloud. */
  lemma {:induction false} ForwardIndicesIn(idx: array3<int>, p1: Points, p2: Points, l1: seq<int>, l2: seq<int>, K: nat, returnSorted: bool)
    requires BackendLengths(p1, p2, l1, l2) && p1.n > 0 && p2.p > 0
    requires idx.Length0 == p1.n && idx.Length1 == p1.p && idx.Length2 == K
    requires forall b, i :: 0 <= b < p1.n && 0 <= i < p1.p ==>
      var back := Backend(p1, p2, l1, l2, K, b, i);
      Row3(idx, b, i) == ForwardRow(back.0, back.1, l2[b], MinOf(l2), returnSorted).1
    ensures IndicesIn(idx, p2.p)
  {
    forall b, i, k | 0 <= b < p1.n && 0 <= i < p1.p && 0 <= k < K
      ensures 0 <= idx[b, i, k] < p2.p
    {
      var back := Backend(p1, p2, l1, l2, K, b, i);
      BackendIndicesIn(p1, p2, l1, l2, K, b, i);
      ForwardRowIndicesIn(back.0, back.1, l2[b], MinOf(l2), returnSorted, p2.p);
      assert Row3(idx, b, i)[k] == idx[b, i, k];
    }
  }

  /** knn_points: the input checks, the default lengths, the backend, `forward` as
      written (short-batch branch included), and `knn_gather` when `return_nn` is set. */
  method KnnPoints(p1: Points, p2: Points, lengths1: Option<seq<int>>, lengths2: Option<seq<int>>,
                   K: nat, returnNN: bool, returnSorted: bool) returns (r: Result<KnnResult>)
    requires p1.Valid() && p2.Valid()
    requires LengthsFit(lengths1, p1.n, p1.p) && LengthsFit(lengths2, p1.n, p2.p)
    ensures p1.n != p2.n ==> r == Err(BatchSizeError)
    ensures p1.n == p2.n && p1.d != p2.d ==> r == Err(DimError)
    ensures (p1.n == p2.n && p1.d == p2.d && (K <= 1 || !returnSorted || p1.n > 0) &&
             (!returnNN || (p1.n > 0 && p2.p > 0))) ==> r.Ok?
    ensures r.Ok? ==> p1.n == p2.n && p1.d == p2.d && (r.value.knn.Some? <==> returnNN)
    ensures r.Ok? ==> var d, ix := r.value.dists, r.value.idx;
      d.Length0 == ix.Length0 == p1.n && d.Length1 == ix.Length1 == p1.p && d.Length2 == ix.Length2 == K
    ensures r.Ok? ==>
      var l1, l2 := LengthsOr(lengths1, p1.n, p1.p), LengthsOr(lengths2, p1.n, p2.p);
      forall b, i :: 0 <= b < p1.n && 0 <= i < p1.p ==>
        var back := Backend(p1, p2, l1, l2, K, b, i);
        (Row3(r.value.dists, b, i), Row3(r.value.idx, b, i))
          == ForwardRow(back.0, back.1, l2[b], MinOf(l2), returnSorted)
    ensures r.Ok? && returnNN ==> IndicesIn(r.value.idx, p2.p)
    ensures r.Ok? && returnNN ==>
      var l2, ix, out := LengthsOr(lengths2, p1.n, p2.p), r.value.idx, r.value.knn.value;
      out.Length0 == p1.n && out.Length1 == p1.p && out.Length2 == K && out.Length3 == p2.d &&
      forall n, l, k, u :: 0 <= n < p1.n && 0 <= l < p1.p && 0 <= k < K && 0 <= u < p2.d ==>
        out[n, l, k, u] == if MinOf(l2) < K && l2[n] <= k then 0.0 else p2.xs[n][ix[n, l, k]][u]
  {
    if p1.n != p2.n {
      return Err(BatchSizeError);
    }
    if p1.d != p2.d {
      return Err(DimError);
    }
    var N, P1, P2 := p1.n, p1.p, p2.p;
    var l1 := LengthsOr(lengths1, N, P1);
    var l2 := LengthsOr(lengths2, N, P2);
    assert BackendLengths(p1, p2, l1, l2);
    var out := ForwardOnBackend(p1, p2, l1, l2, K, returnSorted);
    if out.Err? {
      return Err(out.msg);
    }
    var knn := None;
    if returnNN {
      if N > 0 && P2 > 0 {
        ForwardIndicesIn(out.value.idx, p1, p2, l1, l2, K, returnSorted);
      }
      var g := KnnGather(p2, out.value.idx, Some(l2));
      if g.Err? {
        return Err(g.msg);
      }
      knn := Some(g.value);
    }
    return Ok(KnnResult(out.value.dists, out.value.idx, knn));
  }
}
