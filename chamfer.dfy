/** `ChamferDistance::forward` from thirdparty/chamferdist/chamfer.h: input validation,
    one nearest-neighbour query per direction through `knn_points` with K = 1, the
    point and batch reductions, and the choice between the forward, reverse and
    bidirectional result. Values follow torch's float semantics as far as they matter
    here: a sum over nothing is 0, a mean over nothing is NaN. */
module Chamfer {
  import opened Results
  import opened KnnSort
  import opened Knn

  // ---------------------------------------------------------------------------
  // Numbers and reduced values.

  /** A float as the reductions see it. */
  datatype Num = Real(v: real) | Infinite | NaN

  function Plus(a: Num, b: Num): Num
  {
    if a.NaN? || b.NaN? then NaN
    else if a.Infinite? || b.Infinite? then Infinite
    else Real(a.v + b.v)
  }

  lemma {:induction false} PlusCommutes(a: Num, b: Num)
    ensures Plus(a, b) == Plus(b, a)
  {
  }

  predicate NonNegative(xs: seq<Num>)
  {
    forall i :: 0 <= i < |xs| ==> xs[i].Real? && xs[i].v >= 0.0
  }

  /** `sum`: 0 for no elements. */
  function SumNums(xs: seq<Num>): (r: Num)
    ensures NonNegative(xs) ==> r.Real? && r.v >= 0.0
    ensures (forall i :: 0 <= i < |xs| ==> xs[i] == Real(0.0)) ==> r == Real(0.0)
  {
    if xs == [] then Real(0.0) else Plus(SumNums(xs[..|xs| - 1]), xs[|xs| - 1])
  }

  /** `mean`: NaN for no elements. */
  function MeanNums(xs: seq<Num>): (r: Num)
    ensures xs == [] ==> r.NaN?
    ensures xs != [] && NonNegative(xs) ==> r.Real? && r.v >= 0.0
    ensures xs != [] && (forall i :: 0 <= i < |xs| ==> xs[i] == Real(0.0)) ==> r == Real(0.0)
  {
    if xs == [] then NaN
    else match SumNums(xs)
      case Real(s) => DivNonNegative(s, |xs| as real); Real(s / |xs| as real)
      case other => other
  }

  lemma {:induction false} DivNonNegative(s: real, k: real)
    requires k > 0.0
    ensures s >= 0.0 ==> s / k >= 0.0
    ensures s == 0.0 ==> s / k == 0.0
  {
  }

  /** A tensor of rank 0, 1 or 2: what the reductions produce. */
  datatype Value = Scalar(x: Num) | Vec(xs: seq<Num>) | Mat(cols: nat, rows: seq<seq<Num>>)
  {
    predicate Valid()
    {
      Mat? ==> forall n :: 0 <= n < |rows| ==> |rows[n]| == cols
    }
  }

  function Concat(rows: seq<seq<Num>>): (r: seq<Num>)
    ensures (forall n :: 0 <= n < |rows| ==> NonNegative(rows[n])) ==> NonNegative(r)
  {
    if rows == [] then [] else Concat(rows[..|rows| - 1]) + rows[|rows| - 1]
  }

  /** Every element of a value, in row-major order. */
  function Elements(v: Value): seq<Num>
  {
    match v
    case Scalar(x) => [x]
    case Vec(xs) => xs
    case Mat(_, rows) => Concat(rows)
  }

  const PointReductionError := "point_reduction must be 'sum', 'mean' or 'none'"
  const BatchReductionError := "batch_reduction must be 'sum', 'mean' or 'none'"
  const BroadcastError := "The size of tensor a must match the size of tensor b at non-singleton dimension 1"

  predicate IsReduction(name: string)
  {
    name == "sum" || name == "mean" || name == "none"
  }

  /** Reduction over the points (dimension 1) of an (N, P) matrix. */
  function PointReduce(m: Value, reduction: string): (r: Value)
    requires m.Mat? && m.Valid()
    ensures r.Valid()
    ensures reduction == "sum" || reduction == "mean" ==> r.Vec? && |r.xs| == |m.rows|
    ensures !(reduction == "sum" || reduction == "mean") ==> r == m
  {
    if reduction == "sum" then Vec(seq(|m.rows|, n requires 0 <= n < |m.rows| => SumNums(m.rows[n])))
    else if reduction == "mean" then Vec(seq(|m.rows|, n requires 0 <= n < |m.rows| => MeanNums(m.rows[n])))
    else m
  }

  /** Reduction over every remaining element. */
  function BatchReduce(v: Value, reduction: string): (r: Value)
    requires v.Valid()
    ensures r.Valid()
    ensures reduction == "sum" || reduction == "mean" ==> r.Scalar?
    ensures !(reduction == "sum" || reduction == "mean") ==> r == v
  {
    if reduction == "sum" then Scalar(SumNums(Elements(v)))
    else if reduction == "mean" then Scalar(MeanNums(Elements(v)))
    else v
  }

  /** Column j of a row with `cols` columns, broadcasting a single column. */
  function Pick(row: seq<Num>, cols: nat, j: nat): Num
    requires |row| == cols && (cols == 1 || j < cols)
  {
    if cols == 1 then row[0] else row[j]
  }

  /** `a + b` for the shapes the two directions can have: equal shapes add element by
      element, and a matrix with one column broadcasts against any column count. */
  function Add(a: Value, b: Value): (r: Result<Value>)
    requires a.Valid() && b.Valid()
    ensures r.Ok? ==> r.value.Valid()
  {
    match (a, b)
    case (Scalar(x), Scalar(y)) => Ok(Scalar(Plus(x, y)))
    case (Vec(xs), Vec(ys)) =>
      if |xs| == |ys| then Ok(Vec(seq(|xs|, i requires 0 <= i < |xs| => Plus(xs[i], ys[i]))))
      else Err(BroadcastError)
    case (Mat(c1, r1), Mat(c2, r2)) =>
      if |r1| != |r2| || !(c1 == c2 || c1 == 1 || c2 == 1) then Err(BroadcastError)
      else
        var c := if c1 == 1 then c2 else c1;
        Ok(Mat(c, seq(|r1|, n requires 0 <= n < |r1| =>
          seq(c, j requires 0 <= j < c => Plus(Pick(r1[n], c1, j), Pick(r2[n], c2, j))))))
    case _ => Err(BroadcastError)
  }

  lemma {:induction false} AddCommutes(a: Value, b: Value)
    requires a.Valid() && b.Valid()
    ensures Add(a, b) == Add(b, a)
  {
    match (a, b)
    case (Scalar(x), Scalar(y)) =>
      PlusCommutes(x, y);
    case (Vec(xs), Vec(ys)) =>
      if |xs| == |ys| {
        var s1 := seq(|xs|, i requires 0 <= i < |xs| => Plus(xs[i], ys[i]));
        var s2 := seq(|ys|, i requires 0 <= i < |ys| => Plus(ys[i], xs[i]));
        forall i | 0 <= i < |xs| ensures s1[i] == s2[i] {
          PlusCommutes(xs[i], ys[i]);
        }
        assert s1 == s2;
      }
    case (Mat(c1, r1), Mat(c2, r2)) =>
      if |r1| == |r2| && (c1 == c2 || c1 == 1 || c2 == 1) {
        var c := if c1 == 1 then c2 else c1;
        assert c == if c2 == 1 then c1 else c2;
        var m1 := seq(|r1|, n requires 0 <= n < |r1| =>
          seq(c, j requires 0 <= j < c => Plus(Pick(r1[n], c1, j), Pick(r2[n], c2, j))));
        var m2 := seq(|r2|, n requires 0 <= n < |r2| =>
          seq(c, j requires 0 <= j < c => Plus(Pick(r2[n], c2, j), Pick(r1[n], c1, j))));
        forall n | 0 <= n < |r1| ensures m1[n] == m2[n] {
          forall j | 0 <= j < c ensures m1[n][j] == m2[n][j] {
            PlusCommutes(Pick(r1[n], c1, j), Pick(r2[n], c2, j));
          }
        }
        assert m1 == m2;
      }
    case _ =>
  }

  // ---------------------------------------------------------------------------
  // The specification: nearest squared distances, reduced and combined.

  /** A point-cloud tensor: its device, its rank, and its points when the rank is 3. */
  datatype Cloud = Cloud(device: string, rank: nat, pts: Points)
  {
    predicate Valid()
    {
      rank == 3 ==> pts.Valid()
    }
  }

  const DeviceError := "Source and target clouds must be on the same device."
  const RankError := "Input point clouds must be 3D tensors (N, P, D)."
  const BatchError := "Source and target pointclouds must have the same batchsize."
  const DimensionError := "Source and target pointclouds must have the same dimensionality."

  /** The shape checks, in the order `forward` makes them. */
  function ShapeCheck(source: Cloud, target: Cloud): (r: Outcome)
    ensures r.Pass? <==> (source.device == target.device && source.rank == 3 && target.rank == 3 &&
                          source.pts.n == target.pts.n && source.pts.d == target.pts.d)
  {
    if source.device != target.device then Fail(DeviceError)
    else if source.rank != 3 || target.rank != 3 then Fail(RankError)
    else if source.pts.n != target.pts.n then Fail(BatchError)
    else if source.pts.d != target.pts.d then Fail(DimensionError)
    else Pass
  }

  /** Every check `forward` makes before its first nearest-neighbour query. */
  function ChamferCheck(source: Cloud, target: Cloud, batchReduction: string, pointReduction: string): (r: Outcome)
    ensures r.Pass? <==> ShapeCheck(source, target).Pass? && IsReduction(pointReduction) && IsReduction(batchReduction)
    ensures ShapeCheck(source, target).Fail? ==> r == ShapeCheck(source, target)
  {
    var shape := ShapeCheck(source, target);
    if shape.Fail? then shape
    else if !IsReduction(pointReduction) then Fail(PointReductionError)
    else if !IsReduction(batchReduction) then Fail(BatchReductionError)
    else Pass
  }

  /** The squared distance from `q` to its nearest point of `cloud`; 0 (the backend's
      padding) when the cloud has no points. */
  function NearestOrZero(q: seq<real>, cloud: seq<seq<real>>): (r: real)
    requires SameDim(q, cloud)
    ensures r >= 0.0
    ensures cloud != [] ==> r == NearestSq(q, cloud)
  {
    if cloud == [] then 0.0 else NearestSq(q, cloud)
  }

  predicate Comparable(a: Points, b: Points)
  {
    a.Valid() && b.Valid() && a.n == b.n && a.d == b.d
  }

  /** For each point of `a`, the squared distance to its nearest point of `b` in the
      same batch: slot 0 of the K = 1 query. */
  function NearestAll(a: Points, b: Points): (m: Value)
    requires Comparable(a, b)
    ensures m.Mat? && m.Valid() && m.cols == a.p && |m.rows| == a.n
    ensures forall n :: 0 <= n < a.n ==> NonNegative(m.rows[n])
  {
    Mat(a.p, seq(a.n, n requires 0 <= n < a.n =>
      seq(a.p, p requires 0 <= p < a.p => Real(NearestOrZero(a.xs[n][p], b.xs[n])))))
  }

  /** One direction, reduced over points and then over the batch. */
  function Reduced(a: Points, b: Points, batchReduction: string, pointReduction: string): (r: Value)
    requires Comparable(a, b)
    ensures r.Valid()
  {
    BatchReduce(PointReduce(NearestAll(a, b), pointReduction), batchReduction)
  }

  /** What ChamferDistance::forward returns. */
  function ChamferSpec(source: Cloud, target: Cloud, bidirectional: bool, reverse: bool,
                       batchReduction: string, pointReduction: string): Result<Value>
    requires source.Valid() && target.Valid()
  {
    match ChamferCheck(source, target, batchReduction, pointReduction)
    case Fail(msg) => Err(msg)
    case Pass =>
      var fwd := Reduced(source.pts, target.pts, batchReduction, pointReduction);
      var bwd := Reduced(target.pts, source.pts, batchReduction, pointReduction);
      if bidirectional then Add(fwd, bwd)
      else if reverse then Ok(bwd)
      else Ok(fwd)
  }

  // ---------------------------------------------------------------------------
  // Properties of the specification.

  /** The bidirectional distance does not depend on which cloud is the source. */
  lemma {:induction false} BidirectionalSymmetric(source: Cloud, target: Cloud, reverse1: bool, reverse2: bool,
                               batchReduction: string, pointReduction: string)
    requires source.Valid() && target.Valid()
    ensures ChamferSpec(source, target, true, reverse1, batchReduction, pointReduction)
         == ChamferSpec(target, source, true, reverse2, batchReduction, pointReduction)
  {
    if ChamferCheck(source, target, batchReduction, pointReduction).Pass? {
      AddCommutes(Reduced(source.pts, target.pts, batchReduction, pointReduction),
                  Reduced(target.pts, source.pts, batchReduction, pointReduction));
    }
  }

  /** With both flags set, `bidirectional` takes precedence: the result is that of
      `bidirectional` alone. */
  lemma {:induction false} BidirectionalTakesPrecedence(source: Cloud, target: Cloud, batchReduction: string, pointReduction: string)
    requires source.Valid() && target.Valid()
    ensures ChamferSpec(source, target, true, true, batchReduction, pointReduction)
         == ChamferSpec(source, target, true, false, batchReduction, pointReduction)
  {
  }

  /** `reverse` alone is the forward distance with the clouds swapped. */
  lemma {:induction false} ReverseIsSwappedForward(source: Cloud, target: Cloud, batchReduction: string, pointReduction: string)
    requires source.Valid() && target.Valid()
    ensures ChamferSpec(source, target, false, true, batchReduction, pointReduction)
         == ChamferSpec(target, source, false, false, batchReduction, pointReduction)
  {
  }

  /** Every point of a cloud is at distance 0 from that same cloud. */
  lemma {:induction false} NearestAllSelf(c: Points)
    requires c.Valid()
    ensures forall n, p :: 0 <= n < c.n && 0 <= p < c.p ==> NearestAll(c, c).rows[n][p] == Real(0.0)
  {
    forall n, p | 0 <= n < c.n && 0 <= p < c.p
      ensures NearestOrZero(c.xs[n][p], c.xs[n]) == 0.0
    {
      SqDistSelf(c.xs[n][p]);
      assert c.xs[n][p] == c.xs[n][p];
    }
  }

  lemma {:induction false} ConcatZeros(rows: seq<seq<Num>>)
    requires forall n, p :: 0 <= n < |rows| && 0 <= p < |rows[n]| ==> rows[n][p] == Real(0.0)
    ensures forall i :: 0 <= i < |Concat(rows)| ==> Concat(rows)[i] == Real(0.0)
  {
    if rows != [] {
      ConcatZeros(rows[..|rows| - 1]);
    }
  }

  /** Reducing a matrix of zeros over its points gives a vector of zeros. */
  lemma {:induction false} PointReduceZeros(m: Value, pointReduction: string)
    requires m.Mat? && m.Valid() && m.cols > 0
    requires pointReduction == "sum" || pointReduction == "mean"
    requires forall n, p :: 0 <= n < |m.rows| && 0 <= p < m.cols ==> m.rows[n][p] == Real(0.0)
    ensures var v := PointReduce(m, pointReduction);
      v.Vec? && |v.xs| == |m.rows| && forall n :: 0 <= n < |v.xs| ==> v.xs[n] == Real(0.0)
  {
    var v := PointReduce(m, pointReduction);
    forall n | 0 <= n < |v.xs| ensures v.xs[n] == Real(0.0) {
      assert |m.rows[n]| == m.cols;
      if pointReduction == "sum" {
        assert v.xs[n] == SumNums(m.rows[n]);
      } else {
        assert v.xs[n] == MeanNums(m.rows[n]);
      }
    }
  }

  /** One direction from a cloud to itself reduces to 0. */
  lemma {:induction false} SelfReducedZero(c: Points, batchReduction: string, pointReduction: string)
    requires c.Valid()
    requires pointReduction == "sum" || (pointReduction == "mean" && c.p > 0)
    requires batchReduction == "sum" || (batchReduction == "mean" && c.n > 0)
    ensures Reduced(c, c, batchReduction, pointReduction) == Scalar(Real(0.0))
  {
    NearestAllSelf(c);
    var m := NearestAll(c, c);
    var v := PointReduce(m, pointReduction);
    if c.p > 0 {
      PointReduceZeros(m, pointReduction);
    } else {
      forall n | 0 <= n < |v.xs| ensures v.xs[n] == Real(0.0) {
        assert m.rows[n] == [];
      }
    }
    assert Elements(v) == v.xs;
    if batchReduction == "sum" {
      assert BatchReduce(v, batchReduction) == Scalar(SumNums(v.xs));
    } else {
      assert BatchReduce(v, batchReduction) == Scalar(MeanNums(v.xs));
    }
  }

  /** A cloud is at Chamfer distance 0 from itself, in every direction, under any
      mix of sum and mean reductions; a mean needs something to average (points for the
      point reduction, batches for the batch reduction), since an empty mean is NaN. */
  lemma {:induction false} SelfDistanceZero(c: Cloud, bidirectional: bool, reverse: bool,
                                            batchReduction: string, pointReduction: string)
    requires c.Valid() && c.rank == 3
    requires pointReduction == "sum" || (pointReduction == "mean" && c.pts.p > 0)
    requires batchReduction == "sum" || (batchReduction == "mean" && c.pts.n > 0)
    ensures ChamferSpec(c, c, bidirectional, reverse, batchReduction, pointReduction) == Ok(Scalar(Real(0.0)))
  {
    SelfReducedZero(c.pts, batchReduction, pointReduction);
  }

  /** The distance never goes below zero: with sum or mean reductions over a non-empty
      batch of non-empty clouds, the result is a non-negative real. */
  lemma {:induction false} ChamferNonNegative(source: Cloud, target: Cloud, bidirectional: bool, reverse: bool,
                           batchReduction: string, pointReduction: string)
    requires source.Valid() && target.Valid()
    requires ChamferCheck(source, target, batchReduction, pointReduction).Pass?
    requires batchReduction == "sum" || batchReduction == "mean"
    requires pointReduction == "sum" || pointReduction == "mean"
    requires source.pts.n > 0 && source.pts.p > 0 && target.pts.p > 0
    ensures var r := ChamferSpec(source, target, bidirectional, reverse, batchReduction, pointReduction);
      r.Ok? && r.value.Scalar? && r.value.x.Real? && r.value.x.v >= 0.0
  {
    var fwd := Reduced(source.pts, target.pts, batchReduction, pointReduction);
    var bwd := Reduced(target.pts, source.pts, batchReduction, pointReduction);
    ReducedNonNegative(source.pts, target.pts, batchReduction, pointReduction);
    ReducedNonNegative(target.pts, source.pts, batchReduction, pointReduction);
    SpecOnPass(source, target, bidirectional, reverse, batchReduction, pointReduction);
    CombineNonNegative(fwd, bwd, bidirectional, reverse);
  }

  lemma {:induction false} CombineNonNegative(fwd: Value, bwd: Value, bidirectional: bool, reverse: bool)
    requires fwd.Scalar? && fwd.x.Real? && fwd.x.v >= 0.0
    requires bwd.Scalar? && bwd.x.Real? && bwd.x.v >= 0.0
    ensures var r := if bidirectional then Add(fwd, bwd) else if reverse then Ok(bwd) else Ok(fwd);
      r.Ok? && r.value.Scalar? && r.value.x.Real? && r.value.x.v >= 0.0
  {
    AddScalars(fwd.x, bwd.x);
  }

  lemma {:induction false} SpecOnPass(source: Cloud, target: Cloud, bidirectional: bool, reverse: bool,
                   batchReduction: string, pointReduction: string)
    requires source.Valid() && target.Valid()
    requires ChamferCheck(source, target, batchReduction, pointReduction).Pass?
    ensures var fwd := Reduced(source.pts, target.pts, batchReduction, pointReduction);
      var bwd := Reduced(target.pts, source.pts, batchReduction, pointReduction);
      ChamferSpec(source, target, bidirectional, reverse, batchReduction, pointReduction)
        == if bidirectional then Add(fwd, bwd) else if reverse then Ok(bwd) else Ok(fwd)
  {
  }

  lemma {:induction false} AddScalars(x: Num, y: Num)
    ensures Add(Scalar(x), Scalar(y)) == Ok(Scalar(Plus(x, y)))
  {
  }

  lemma {:induction false} ReducedNonNegative(a: Points, b: Points, batchReduction: string, pointReduction: string)
    requires Comparable(a, b) && a.n > 0 && a.p > 0
    requires batchReduction == "sum" || batchReduction == "mean"
    requires pointReduction == "sum" || pointReduction == "mean"
    ensures var r := Reduced(a, b, batchReduction, pointReduction);
      r.Scalar? && r.x.Real? && r.x.v >= 0.0
  {
    var m := NearestAll(a, b);
    var v := PointReduce(m, pointReduction);
    assert NonNegative(v.xs) by {
      forall n | 0 <= n < |v.xs| ensures v.xs[n].Real? && v.xs[n].v >= 0.0 {
        assert NonNegative(m.rows[n]) && m.rows[n] != [];
      }
    }
    assert Elements(v) == v.xs;
  }

  // ---------------------------------------------------------------------------
  // ChamferDistance::forward.

  function ToNum(x: Dist): Num
  {
    match x
    case Fin(v) => Real(v)
    case Inf => Infinite
  }

  /** `dists.select(-1, 0)`: slot 0 of every row, as an (N, P) matrix. */
  function FirstSlot(d: array3<Dist>): (m: Value)
    reads d
    requires d.Length2 >= 1
    ensures m.Mat? && m.Valid() && m.cols == d.Length1 && |m.rows| == d.Length0
    ensures forall n, p :: 0 <= n < d.Length0 && 0 <= p < d.Length1 ==> m.rows[n][p] == ToNum(d[n, p, 0])
  {
    Mat(d.Length1, seq(d.Length0, n requires 0 <= n < d.Length0 reads d =>
      seq(d.Length1, p requires 0 <= p < d.Length1 reads d => ToNum(d[n, p, 0]))))
  }

  /** With full lengths and K = 1, the backend's slot 0 is the nearest distance. */
  lemma {:induction false} BackendSlotZero(p1: Points, p2: Points, l1: seq<int>, l2: seq<int>, b: nat, i: nat)
    requires BackendLengths(p1, p2, l1, l2) && b < p1.n && i < p1.p
    requires l1[b] == p1.p && l2[b] == p2.p
    ensures Backend(p1, p2, l1, l2, 1, b, i).0[0] == Fin(NearestOrZero(p1.xs[b][i], p2.xs[b]))
  {
    if p2.p > 0 {
      BackendFirstIsNearest(p1.xs[b][i], p2.xs[b], p2.p, 1);
      assert p2.xs[b][..p2.p] == p2.xs[b];
    }
  }

  /** One direction's query: `knn_points` with full lengths and K = 1, then slot 0 of
      its distances. */
  method NearestQuery(a: Points, b: Points) returns (m: Value)
    requires Comparable(a, b)
    ensures m == NearestAll(a, b)
  {
    var la: seq<int> := seq(a.n, _ => a.p);
    var lb: seq<int> := seq(a.n, _ => b.p);
    var res := KnnPoints(a, b, Some(la), Some(lb), 1, false, true);
    var d := res.value.dists;
    forall n, p | 0 <= n < a.n && 0 <= p < a.p
      ensures d[n, p, 0] == Fin(NearestOrZero(a.xs[n][p], b.xs[n]))
    {
      var back := Backend(a, b, la, lb, 1, n, p);
      assert Row3(d, n, p) == back.0;
      BackendSlotZero(a, b, la, lb, n, p);
    }
    m := FirstSlot(d);
    var spec := NearestAll(a, b);
    forall n | 0 <= n < a.n ensures m.rows[n] == spec.rows[n] {
      assert |m.rows[n]| == |spec.rows[n]|;
    }
  }

  /** ChamferDistance::forward. `warned` says whether the bidirectional-and-reverse
      warning was printed and `knnCalls` how many nearest-neighbour queries ran. */
  method ChamferForward(source: Cloud, target: Cloud, bidirectional: bool, reverse: bool,
                        batchReduction: string, pointReduction: string)
    returns (r: Result<Value>, warned: bool, knnCalls: nat)
    requires source.Valid() && target.Valid()
    ensures r == ChamferSpec(source, target, bidirectional, reverse, batchReduction, pointReduction)
    ensures warned <==> ShapeCheck(source, target).Pass? && bidirectional && reverse
    ensures knnCalls == if ChamferCheck(source, target, batchReduction, pointReduction).Fail? then 0
                        else if reverse || bidirectional then 2 else 1
  {
    warned, knnCalls := false, 0;
    if source.device != target.device {
      return Err(DeviceError), warned, knnCalls;
    }
    if source.rank != 3 || target.rank != 3 {
      return Err(RankError), warned, knnCalls;
    }
    if source.pts.n != target.pts.n {
      return Err(BatchError), warned, knnCalls;
    }
    if source.pts.d != target.pts.d {
      return Err(DimensionError), warned, knnCalls;
    }
    if bidirectional && reverse {
      warned := true;
    }
    if !IsReduction(pointReduction) {
      return Err(PointReductionError), warned, knnCalls;
    }
    if !IsReduction(batchReduction) {
      return Err(BatchReductionError), warned, knnCalls;
    }

    var chamferForward := NearestQuery(source.pts, target.pts);
    knnCalls := 1;
    // Undefined unless the reverse query runs.
    var chamferBackward := Vec([]);
    if reverse || bidirectional {
      chamferBackward := NearestQuery(target.pts, source.pts);
      knnCalls := 2;
    }

    if pointReduction == "sum" {
      chamferForward := PointReduce(chamferForward, "sum");
      if reverse || bidirectional {
        chamferBackward := PointReduce(chamferBackward, "sum");
      }
    } else if pointReduction == "mean" {
      chamferForward := PointReduce(chamferForward, "mean");
      if reverse || bidirectional {
        chamferBackward := PointReduce(chamferBackward, "mean");
      }
    }

    if batchReduction == "sum" {
      chamferForward := BatchReduce(chamferForward, "sum");
      if reverse || bidirectional {
        chamferBackward := BatchReduce(chamferBackward, "sum");
      }
    } else if batchReduction == "mean" {
      chamferForward := BatchReduce(chamferForward, "mean");
      if reverse || bidirectional {
        chamferBackward := BatchReduce(chamferBackward, "mean");
      }
    }

    SpecOnPass(source, target, bidirectional, reverse, batchReduction, pointReduction);
    if bidirectional {
      r := Add(chamferForward, chamferBackward);
    } else if reverse {
      r := Ok(chamferBackward);
    } else {
      r := Ok(chamferForward);
    }
  }
}
