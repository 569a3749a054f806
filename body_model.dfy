/** The shape and parameter bookkeeping that src/model/smplx.cpp and its JSON-loading
    twin body_models.cpp share: the number of shape coefficients and the kid-template
    column, zero defaults for absent parameters, the template override and the `posedirs`
    reshape; and, around the `lbs::lbs` call (a parameter here), the full pose, the batch
    size, the `betas` expansion, the translation and the optional outputs. Tensors are nested
    sequences that carry their dimensions, so that an empty tensor keeps its shape. */
module BodyModel {
  import opened Results
  import opened Arith

  /** SMPL's body joints besides the root. */
  const NUM_BODY_JOINTS: nat := 23

  /** A (rows, cols) matrix. */
  datatype Mat = Mat(rows: nat, cols: nat, xs: seq<seq<real>>)
  {
    predicate Valid()
    {
      |xs| == rows && forall i :: 0 <= i < rows ==> |xs[i]| == cols
    }
  }

  /** A (d0, d1, d2) tensor. */
  datatype Cube = Cube(d0: nat, d1: nat, d2: nat, xs: seq<seq<seq<real>>>)
  {
    predicate Valid()
    {
      |xs| == d0 &&
      (forall i :: 0 <= i < d0 ==> |xs[i]| == d1) &&
      (forall i, j :: 0 <= i < d0 && 0 <= j < d1 ==> |xs[i][j]| == d2)
    }
  }

  /** A tensor as a model file provides it. */
  datatype NdArray = Array2(m: Mat) | Array3(c: Cube) | IntArray2(f: seq<seq<int>>)
  {
    predicate Valid()
    {
      (Array2? ==> m.Valid()) && (Array3? ==> c.Valid())
    }
  }

  function AsMat(name: string, x: NdArray): (r: Result<Mat>)
    requires x.Valid()
    ensures r.Ok? <==> x.Array2?
    ensures r.Ok? ==> r.value == x.m && r.value.Valid()
  {
    if x.Array2? then Ok(x.m) else Err("expected a 2-D tensor for '" + name + "'")
  }

  function AsCube(name: string, x: NdArray): (r: Result<Cube>)
    requires x.Valid()
    ensures r.Ok? <==> x.Array3?
    ensures r.Ok? ==> r.value == x.c && r.value.Valid()
  {
    if x.Array3? then Ok(x.c) else Err("expected a 3-D tensor for '" + name + "'")
  }

  function AsInts(name: string, x: NdArray): (r: Result<seq<seq<int>>>)
    ensures r.Ok? <==> x.IntArray2?
  {
    if x.IntArray2? then Ok(x.f) else Err("expected an integer tensor for '" + name + "'")
  }

  /** `torch::zeros({rows, cols})`. */
  function Zeros(rows: nat, cols: nat): (m: Mat)
    ensures m.Valid() && m.rows == rows && m.cols == cols
    ensures forall i, j :: 0 <= i < rows && 0 <= j < cols ==> m.xs[i][j] == 0.0
  {
    Mat(rows, cols, seq(rows, _ => seq(cols, _ => 0.0)))
  }

  /** The row a broadcast dimension of size n reads for index i. */
  function Bcast(n: nat, i: nat): nat
  {
    if n == 1 then 0 else i
  }

  // ---------------------------------------------------------------------------
  // Shape coefficients and the kid template.

  function ColumnSum(xs: seq<seq<real>>, c: nat): real
    requires forall i :: 0 <= i < |xs| ==> c < |xs[i]|
  {
    if xs == [] then 0.0 else ColumnSum(xs[..|xs| - 1], c) + xs[|xs| - 1][c]
  }

  /** `torch::mean(m, 0)` at column c; it is only read when the matrix has rows. */
  function ColumnMean(m: Mat, c: nat): real
    requires m.Valid() && c < m.cols
  {
    if m.rows == 0 then 0.0 else ColumnSum(m.xs, c) / m.rows as real
  }

  /** Two sizes broadcast when they agree or one of them is 1. */
  predicate Broadcasts(a: nat, b: nat)
  {
    a == b || a == 1 || b == 1
  }

  /** The broadcast size of `a` against `b`. */
  function BroadcastSize(a: nat, b: nat): nat
  {
    if a == 1 then b else a
  }

  /** `(kid - mean(kid, 0)) - adult`, broadcasting a single row or a single column of
      either matrix against the other. */
  function KidDiff(adult: Mat, kid: Mat): (r: Result<Mat>)
    requires adult.Valid() && kid.Valid()
    ensures r.Ok? <==> Broadcasts(kid.rows, adult.rows) && Broadcasts(kid.cols, adult.cols)
    ensures !Broadcasts(kid.cols, adult.cols) ==> r == Err(BroadcastColError)
    ensures r.Ok? ==>
      r.value.Valid() && r.value.rows == BroadcastSize(adult.rows, kid.rows) &&
      r.value.cols == BroadcastSize(adult.cols, kid.cols)
  {
    if !Broadcasts(kid.cols, adult.cols) then Err(BroadcastColError)
    else if !Broadcasts(kid.rows, adult.rows) then Err(BroadcastError)
    else
      var rows, cols := BroadcastSize(adult.rows, kid.rows), BroadcastSize(adult.cols, kid.cols);
      Ok(Mat(rows, cols, seq(rows, v requires 0 <= v < rows =>
        seq(cols, c requires 0 <= c < cols =>
          (kid.xs[Bcast(kid.rows, v)][Bcast(kid.cols, c)] - ColumnMean(kid, Bcast(kid.cols, c)))
          - adult.xs[Bcast(adult.rows, v)][Bcast(adult.cols, c)]))))
  }

  const BroadcastError := "The size of tensor a must match the size of tensor b at non-singleton dimension 0"
  const BroadcastColError := "The size of tensor a must match the size of tensor b at non-singleton dimension 1"
  const CatError := "Sizes of tensors must match except in dimension 2"

  /** `torch::cat({shapedirs, diff.unsqueeze(2)}, 2)`: one more shape column. */
  function AppendColumn(sd: Cube, diff: Mat): (r: Result<Cube>)
    requires sd.Valid() && diff.Valid()
    ensures r.Ok? <==> diff.rows == sd.d0 && diff.cols == sd.d1
    ensures r.Ok? ==> r.value.Valid() && r.value.d0 == sd.d0 && r.value.d1 == sd.d1 && r.value.d2 == sd.d2 + 1
  {
    if diff.rows != sd.d0 || diff.cols != sd.d1 then Err(CatError)
    else Ok(Cube(sd.d0, sd.d1, sd.d2 + 1, seq(sd.d0, v requires 0 <= v < sd.d0 =>
      seq(sd.d1, c requires 0 <= c < sd.d1 => sd.xs[v][c] + [diff.xs[v][c]]))))
  }

  /** The kid shape basis keeps every adult shape column and adds, as the last one, the
      centred kid template minus the adult template. */
  lemma {:induction false} KidColumn(sd: Cube, adult: Mat, kid: Mat, v: nat, c: nat)
    requires sd.Valid() && adult.Valid() && kid.Valid()
    requires KidDiff(adult, kid).Ok? && AppendColumn(sd, KidDiff(adult, kid).value).Ok?
    requires v < sd.d0 && c < sd.d1
    ensures var r := AppendColumn(sd, KidDiff(adult, kid).value).value;
      r.xs[v][c][..sd.d2] == sd.xs[v][c] &&
      Bcast(kid.rows, v) < kid.rows && Bcast(kid.cols, c) < kid.cols &&
      Bcast(adult.rows, v) < adult.rows && Bcast(adult.cols, c) < adult.cols &&
      r.xs[v][c][sd.d2] == (kid.xs[Bcast(kid.rows, v)][Bcast(kid.cols, c)] - ColumnMean(kid, Bcast(kid.cols, c)))
                           - adult.xs[Bcast(adult.rows, v)][Bcast(adult.cols, c)]
  {
    var r := AppendColumn(sd, KidDiff(adult, kid).value).value;
    assert r.xs[v][c] == sd.xs[v][c] + [KidDiff(adult, kid).value.xs[v][c]];
  }

  // ---------------------------------------------------------------------------
  // posedirs.

  const ReshapeError := "cannot reshape tensor of 0 elements into shape [-1, 0] because the unspecified dimension size -1 can be any value and is ambiguous"

  /** `posedirs.reshape({-1, P}).transpose(0, 1)`: (V, C, P) becomes (P, V * C). */
  function ReshapePosedirs(p: Cube): (r: Result<Mat>)
    requires p.Valid()
    ensures r.Ok? <==> p.d2 > 0
    ensures r.Ok? ==> r.value.Valid() && r.value.rows == p.d2 && r.value.cols == p.d0 * p.d1
  {
    if p.d2 == 0 then Err(ReshapeError)
    else Ok(Mat(p.d2, p.d0 * p.d1, seq(p.d2, q requires 0 <= q < p.d2 =>
      seq(p.d0 * p.d1, k requires 0 <= k < p.d0 * p.d1 =>
        SplitBelow(k, p.d0, p.d1); p.xs[Quot(k, p.d1)][Rem(k, p.d1)][q]))))
  }

  /** Entry [q][v * C + c] of the reshaped basis is entry [v][c][q] of the loaded one. */
  lemma {:induction false} ReshapeAt(p: Cube, v: nat, c: nat, q: nat)
    requires p.Valid() && v < p.d0 && c < p.d1 && q < p.d2
    ensures ReshapePosedirs(p).Ok?
    ensures v * p.d1 + c < p.d0 * p.d1 && ReshapePosedirs(p).value.xs[q][v * p.d1 + c] == p.xs[v][c][q]
  {
    BelowProduct(v, c, p.d1, p.d0);
    QuotRemOf(v, c, p.d1);
  }

  // ---------------------------------------------------------------------------
  // Parameters and their defaults.

  /** The body-model parameters (`vars_`): each may be absent until construction. */
  datatype Params = Params(betas: Option<Mat>, globalOrient: Option<Mat>, bodyPose: Option<Mat>, transl: Option<Mat>)
  {
    predicate Valid()
    {
      (betas.Some? ==> betas.value.Valid()) && (globalOrient.Some? ==> globalOrient.value.Valid()) &&
      (bodyPose.Some? ==> bodyPose.value.Valid()) && (transl.Some? ==> transl.value.Valid())
    }

    predicate Complete()
    {
      Valid() && betas.Some? && globalOrient.Some? && bodyPose.Some? && transl.Some?
    }
  }

  function OrZeros(p: Option<Mat>, rows: nat, cols: nat): (r: Mat)
    ensures p.Some? ==> r == p.value
    ensures p.None? ==> r == Zeros(rows, cols)
  {
    if p.Some? then p.value else Zeros(rows, cols)
  }

  /** The parameters after construction: every absent one is zeros of its shape. */
  function WithDefaults(p: Params, batchSize: nat, numBetas: nat): (r: Params)
    requires p.Valid()
    ensures r.Complete()
  {
    Params(Some(OrZeros(p.betas, batchSize, numBetas)), Some(OrZeros(p.globalOrient, batchSize, 3)),
           Some(OrZeros(p.bodyPose, batchSize, NUM_BODY_JOINTS * 3)), Some(OrZeros(p.transl, batchSize, 3)))
  }

  /** Supplied parameters are left as given; absent ones get zeros of shape (batch,
      num_betas), (batch, 3), (batch, NUM_BODY_JOINTS * 3) and (batch, 3). */
  lemma {:induction false} DefaultShapes(p: Params, batchSize: nat, numBetas: nat)
    requires p.Valid()
    ensures var r := WithDefaults(p, batchSize, numBetas);
      (p.betas.Some? ==> r.betas == p.betas) && (p.globalOrient.Some? ==> r.globalOrient == p.globalOrient) &&
      (p.bodyPose.Some? ==> r.bodyPose == p.bodyPose) && (p.transl.Some? ==> r.transl == p.transl) &&
      (p.betas.None? ==> r.betas.value.rows == batchSize && r.betas.value.cols == numBetas) &&
      (p.globalOrient.None? ==> r.globalOrient.value.rows == batchSize && r.globalOrient.value.cols == 3) &&
      (p.bodyPose.None? ==> r.bodyPose.value.rows == batchSize && r.bodyPose.value.cols == NUM_BODY_JOINTS * 3) &&
      (p.transl.None? ==> r.transl.value.rows == batchSize && r.transl.value.cols == 3)
  {
  }

  // ---------------------------------------------------------------------------
  // Construction.

  /** The buffers `construct` fills. */
  datatype Buffers = Buffers(shapedirs: Cube, faces: seq<seq<int>>, vTemplate: Mat, jRegressor: Mat,
                             posedirs: Mat, lbsWeights: Mat, parents: seq<int>)
  {
    predicate Valid()
    {
      shapedirs.Valid() && vTemplate.Valid() && jRegressor.Valid() && posedirs.Valid() && lbsWeights.Valid()
    }
  }

  /** The configuration `construct` reads. */
  datatype Config = Config(batchSize: nat, age: string, kidTemplatePath: Option<string>, userVTemplate: Option<Mat>,
                           returnVerts: bool, returnFullPose: bool, pose2rot: bool)
  {
    predicate Valid()
    {
      userVTemplate.Some? ==> userVTemplate.value.Valid()
    }

    predicate KidMode()
    {
      age == "kid" && kidTemplatePath.Some?
    }
  }

  /** The kid template as its file provides it: the outcome of opening the file, then
      that of reading its `v_template`. */
  datatype KidInput = KidInput(file: Outcome, template: Result<Mat>)
  {
    predicate Valid()
    {
      template.Ok? ==> template.value.Valid()
    }
  }

  /** What construction produces: the number of shape coefficients, the buffers and the
      completed parameters. */
  datatype Model = Model(numBetas: nat, buffers: Buffers, params: Params)

  /** The shape basis and the number of coefficients: the loaded basis, with the kid
      column appended in kid mode. */
  function ShapeBasis(cfg: Config, load: string -> Result<NdArray>, sd: Cube, kid: KidInput): (r: Result<Cube>)
    requires sd.Valid() && WellFormed(load) && kid.Valid()
    ensures r.Ok? ==> r.value.Valid() && r.value.d0 == sd.d0 && r.value.d1 == sd.d1
    ensures r.Ok? ==> r.value.d2 == if cfg.KidMode() then sd.d2 + 1 else sd.d2
    ensures r.Ok? && !cfg.KidMode() ==> r.value == sd
  {
    if !cfg.KidMode() then Ok(sd)
    else if kid.file.Fail? then Err(kid.file.msg)
    else match LoadMat(load, "v_template")
      case Err(e) => Err(e)
      case Ok(adult) =>
        if kid.template.Err? then Err(kid.template.msg)
        else match KidDiff(adult, kid.template.value)
          case Err(e) => Err(e)
          case Ok(diff) => AppendColumn(sd, diff)
  }

  /** A loader whose every tensor is well formed. */
  ghost predicate WellFormed(load: string -> Result<NdArray>)
  {
    forall n :: load(n).Ok? ==> load(n).value.Valid()
  }

  function LoadMat(load: string -> Result<NdArray>, name: string): (r: Result<Mat>)
    requires WellFormed(load)
    ensures r.Ok? <==> load(name).Ok? && load(name).value.Array2?
    ensures r.Ok? ==> r.value == load(name).value.m && r.value.Valid()
    ensures load(name).Err? ==> r == Err(load(name).msg)
  {
    match load(name)
    case Err(e) => Err(e)
    case Ok(x) => AsMat(name, x)
  }

  function LoadCube(load: string -> Result<NdArray>, name: string): (r: Result<Cube>)
    requires WellFormed(load)
    ensures r.Ok? <==> load(name).Ok? && load(name).value.Array3?
    ensures r.Ok? ==> r.value == load(name).value.c && r.value.Valid()
    ensures load(name).Err? ==> r == Err(load(name).msg)
  {
    match load(name)
    case Err(e) => Err(e)
    case Ok(x) => AsCube(name, x)
  }

  function LoadInts(load: string -> Result<NdArray>, name: string): (r: Result<seq<seq<int>>>)
    ensures r.Ok? <==> load(name).Ok? && load(name).value.IntArray2?
    ensures load(name).Err? ==> r == Err(load(name).msg)
  {
    match load(name)
    case Err(e) => Err(e)
    case Ok(x) => AsInts(name, x)
  }

  /** The first stage of construct: shapedirs, f and, in kid mode, the kid column. */
  function ShapeStage(cfg: Config, load: string -> Result<NdArray>, kid: KidInput): (r: Result<(Cube, seq<seq<int>>)>)
    requires WellFormed(load) && kid.Valid()
    ensures r.Ok? ==> r.value.0.Valid() && LoadCube(load, "shapedirs").Ok?
    ensures r.Ok? ==> r.value.0.d2 == LoadCube(load, "shapedirs").value.d2 + (if cfg.KidMode() then 1 else 0)
  {
    match LoadCube(load, "shapedirs")
    case Err(e) => Err(e)
    case Ok(sd0) =>
      match LoadInts(load, "f")
      case Err(e) => Err(e)
      case Ok(faces) =>
        match ShapeBasis(cfg, load, sd0, kid)
        case Err(e) => Err(e)
        case Ok(sd) => Ok((sd, faces))
  }

  /** The buffers construct loads after the parameter defaults: the template, which the
      caller's may replace, J_regressor, the reshaped posedirs and the weights. */
  function BufferStage(cfg: Config, load: string -> Result<NdArray>): (r: Result<(Mat, Mat, Mat, Mat)>)
    requires cfg.Valid() && WellFormed(load)
    ensures r.Ok? ==> r.value.0.Valid() && r.value.1.Valid() && r.value.2.Valid() && r.value.3.Valid()
    ensures r.Ok? ==> LoadMat(load, "v_template").Ok? && LoadCube(load, "posedirs").Ok?
    ensures r.Ok? ==> r.value.0 == (if cfg.userVTemplate.Some? then cfg.userVTemplate.value else LoadMat(load, "v_template").value)
    ensures r.Ok? ==> Ok(r.value.2) == ReshapePosedirs(LoadCube(load, "posedirs").value)
  {
    match LoadMat(load, "v_template")
    case Err(e) => Err(e)
    case Ok(vt0) =>
      var vt := if cfg.userVTemplate.Some? then cfg.userVTemplate.value else vt0;
      match LoadMat(load, "J_regressor")
      case Err(e) => Err(e)
      case Ok(jr) =>
        match LoadCube(load, "posedirs")
        case Err(e) => Err(e)
        case Ok(pd0) =>
          match ReshapePosedirs(pd0)
          case Err(e) => Err(e)
          case Ok(pd) =>
            match LoadMat(load, "weights")
            case Err(e) => Err(e)
            case Ok(w) => Ok((vt, jr, pd, w))
  }

  /** Everything `construct` does after the model file is open, in its order: shapedirs,
      f, the kid column, num_betas, the parameter defaults, v_template and its override,
      J_regressor, posedirs, weights and parents. */
  function BuildSpec(cfg: Config, p: Params, load: string -> Result<NdArray>, kid: KidInput, parents: seq<int>)
    : (r: Result<Model>)
    requires cfg.Valid() && p.Valid() && WellFormed(load) && kid.Valid()
    ensures r.Ok? ==> r.value.numBetas == r.value.buffers.shapedirs.d2 && r.value.params.Complete()
    ensures r.Ok? ==> r.value.buffers.Valid()
  {
    match ShapeStage(cfg, load, kid)
    case Err(e) => Err(e)
    case Ok(shapes) =>
      var numBetas := shapes.0.d2;
      match BufferStage(cfg, load)
      case Err(e) => Err(e)
      case Ok(bufs) =>
        Ok(Model(numBetas, Buffers(shapes.0, shapes.1, bufs.0, bufs.1, bufs.2, bufs.3, parents),
                 WithDefaults(p, cfg.batchSize, numBetas)))
  }

  /** A model built in kid mode has one more shape coefficient than its file's basis,
      and num_betas is always the last dimension of the shape basis. */
  lemma {:induction false} KidModeAddsCoefficient(cfg: Config, p: Params, load: string -> Result<NdArray>, kid: KidInput, parents: seq<int>)
    requires cfg.Valid() && p.Valid() && WellFormed(load) && kid.Valid()
    requires BuildSpec(cfg, p, load, kid, parents).Ok?
    ensures LoadCube(load, "shapedirs").Ok?
    ensures var m := BuildSpec(cfg, p, load, kid, parents).value;
      m.numBetas == LoadCube(load, "shapedirs").value.d2 + (if cfg.KidMode() then 1 else 0)
  {
  }

  /** A template passed by the caller replaces the file's, which must still be present;
      the pose basis is the reshaped file basis, and supplied parameters are kept. */
  lemma {:induction false} BuiltBuffers(cfg: Config, p: Params, load: string -> Result<NdArray>, kid: KidInput, parents: seq<int>)
    requires cfg.Valid() && p.Valid() && WellFormed(load) && kid.Valid()
    requires BuildSpec(cfg, p, load, kid, parents).Ok?
    ensures LoadMat(load, "v_template").Ok? && LoadCube(load, "posedirs").Ok?
    ensures var m := BuildSpec(cfg, p, load, kid, parents).value;
      m.buffers.vTemplate == (if cfg.userVTemplate.Some? then cfg.userVTemplate.value else LoadMat(load, "v_template").value) &&
      Ok(m.buffers.posedirs) == ReshapePosedirs(LoadCube(load, "posedirs").value) &&
      m.buffers.parents == parents &&
      m.params == WithDefaults(p, cfg.batchSize, m.numBetas)
  {
  }

  /** The first missing tensor is the error construction reports, in load order. */
  lemma {:induction false} FirstLoadFailureReported(cfg: Config, p: Params, load: string -> Result<NdArray>, kid: KidInput, parents: seq<int>)
    requires cfg.Valid() && p.Valid() && WellFormed(load) && kid.Valid()
    ensures load("shapedirs").Err? ==> BuildSpec(cfg, p, load, kid, parents) == Err(load("shapedirs").msg)
    ensures load("shapedirs").Ok? && load("shapedirs").value.Array3? && load("f").Err? ==>
      BuildSpec(cfg, p, load, kid, parents) == Err(load("f").msg)
    ensures (forall n :: load(n).Err?) ==> BuildSpec(cfg, p, load, kid, parents).Err?
  {
  }

  // ---------------------------------------------------------------------------
  // The forward pass.

  /** `torch::cat({global_orient, body_pose}, 1)`. */
  function FullPose(go: Mat, bp: Mat): (r: Result<Mat>)
    requires go.Valid() && bp.Valid()
    ensures r.Ok? <==> go.rows == bp.rows
    ensures r.Ok? ==> r.value.Valid() && r.value.rows == go.rows && r.value.cols == go.cols + bp.cols
    ensures r.Ok? ==> forall b :: 0 <= b < go.rows ==> r.value.xs[b][..go.cols] == go.xs[b] && r.value.xs[b][go.cols..] == bp.xs[b]
  {
    if go.rows != bp.rows then Err("Sizes of tensors must match except in dimension 1")
    else Ok(Mat(go.rows, go.cols + bp.cols, seq(go.rows, b requires 0 <= b < go.rows => go.xs[b] + bp.xs[b])))
  }

  /** `mmax` of the three batch sizes. */
  function BatchSize(a: nat, b: nat, c: nat): (r: nat)
    ensures r >= a && r >= b && r >= c
    ensures r == a || r == b || r == c
  {
    if a >= b && a >= c then a else if b >= c then b else c
  }

  const DivisionByZero := "integer division by zero"
  const ExpandError := "The expanded size of the tensor must match the existing size at non-singleton dimension 0"

  /** `betas.expand({batch / betas.size(0), -1})`, done only when betas' batch differs. */
  function ExpandBetas(betas: Mat, batch: nat): (r: Result<Mat>)
    requires betas.Valid()
  {
    if betas.rows == batch then Ok(betas)
    else if betas.rows == 0 then Err(DivisionByZero)
    else
      var target := batch / betas.rows;
      if target == betas.rows then Ok(betas)
      else if betas.rows == 1 then Ok(Mat(target, betas.cols, seq(target, _ => betas.xs[0])))
      else Err(ExpandError)
  }

  /** A single row of betas is repeated for every element of the batch; betas that
      already match are left alone; any other size is either left as it is or refused. */
  lemma {:induction false} ExpandBetasCases(betas: Mat, batch: nat)
    requires betas.Valid()
    ensures betas.rows == batch ==> ExpandBetas(betas, batch) == Ok(betas)
    ensures betas.rows == 1 ==> ExpandBetas(betas, batch).Ok?
    ensures betas.rows == 1 ==>
      var e := ExpandBetas(betas, batch).value;
      e.Valid() && e.rows == batch && e.cols == betas.cols && forall b :: 0 <= b < batch ==> e.xs[b] == betas.xs[0]
    ensures betas.rows != 1 && ExpandBetas(betas, batch).Ok? ==> ExpandBetas(betas, batch) == Ok(betas)
    ensures betas.rows == 0 && batch > 0 ==> ExpandBetas(betas, batch) == Err(DivisionByZero)
  {
  }

  /** `x += t.unsqueeze(1)`: every point of batch element b moves by row b of t, where t
      may broadcast a single row or a single column. */
  function AddTransl(x: Cube, t: Mat): (r: Result<Cube>)
    requires x.Valid() && t.Valid()
    ensures r.Ok? <==> (t.rows == x.d0 || t.rows == 1) && (t.cols == x.d2 || t.cols == 1)
    ensures r.Ok? ==> r.value.Valid() && r.value.d0 == x.d0 && r.value.d1 == x.d1 && r.value.d2 == x.d2
  {
    if !((t.rows == x.d0 || t.rows == 1) && (t.cols == x.d2 || t.cols == 1)) then Err(BroadcastError)
    else Ok(Cube(x.d0, x.d1, x.d2, seq(x.d0, b requires 0 <= b < x.d0 =>
      seq(x.d1, i requires 0 <= i < x.d1 =>
        seq(x.d2, c requires 0 <= c < x.d2 => x.xs[b][i][c] + t.xs[Bcast(t.rows, b)][Bcast(t.cols, c)])))))
  }

  /** Translating and then subtracting the translation gives back every point. */
  lemma {:induction false} TranslationShifts(x: Cube, t: Mat, b: nat, i: nat, c: nat)
    requires x.Valid() && t.Valid() && AddTransl(x, t).Ok?
    requires b < x.d0 && i < x.d1 && c < x.d2
    ensures AddTransl(x, t).value.xs[b][i][c] - t.xs[Bcast(t.rows, b)][Bcast(t.cols, c)] == x.xs[b][i][c]
  {
  }

  /** The default translation, zeros, moves nothing. */
  lemma {:induction false} ZeroTranslation(x: Cube, rows: nat)
    requires x.Valid() && (rows == x.d0 || rows == 1)
    ensures AddTransl(x, Zeros(rows, x.d2)) == Ok(x)
  {
    var r := AddTransl(x, Zeros(rows, x.d2)).value;
    forall b, i, c | 0 <= b < x.d0 && 0 <= i < x.d1 && 0 <= c < x.d2
      ensures r.xs[b][i][c] == x.xs[b][i][c]
    {
      var z := Zeros(rows, x.d2);
      assert Bcast(rows, b) < rows && Bcast(x.d2, c) < x.d2;
      assert z.xs[Bcast(rows, b)][Bcast(x.d2, c)] == 0.0;
      assert r.xs[b][i][c] == x.xs[b][i][c] + z.xs[Bcast(rows, b)][Bcast(x.d2, c)];
    }
    forall b, i | 0 <= b < x.d0 && 0 <= i < x.d1
      ensures r.xs[b][i] == x.xs[b][i]
    {
    }
    forall b | 0 <= b < x.d0
      ensures r.xs[b] == x.xs[b]
    {
    }
    assert r.xs == x.xs;
  }

  /** What `lbs::lbs` is given. */
  datatype LbsInputs = LbsInputs(betas: Mat, fullPose: Mat, vTemplate: Mat, shapedirs: Cube, posedirs: Mat,
                                 jRegressor: Mat, parents: seq<int>, lbsWeights: Mat, pose2rot: bool)

  /** What forward_impl returns. */
  datatype Output = Output(vertices: Option<Cube>, joints: Cube, fullPose: Option<Mat>,
                           globalOrient: Mat, betas: Mat, bodyPose: Mat)

  /** Linear blend skinning, returning (vertices, joints). */
  type Lbs = LbsInputs -> (Cube, Cube)
  /** The vertex-joint selector, adding joints picked from the vertices. */
  type Selector = (Cube, Cube) -> Cube
  /** A user joint mapper. */
  type Mapper = Cube -> Cube

  ghost predicate Skinning(lbs: Lbs, selector: Selector, mapper: Option<Mapper>)
  {
    (forall i :: lbs(i).0.Valid() && lbs(i).1.Valid()) &&
    (forall v, j :: selector(v, j).Valid()) &&
    (mapper.Some? ==> forall j :: mapper.value(j).Valid())
  }

  /** forward_impl on parameters p: the betas it leaves in the parameters and its
      result. */
  function PoseSpec(cfg: Config, p: Params, bufs: Buffers, lbs: Lbs, selector: Selector, mapper: Option<Mapper>)
    : (r: (Mat, Result<Output>))
    requires p.Complete() && Skinning(lbs, selector, mapper)
    ensures r.1.Ok? ==> r.1.value.betas == r.0
  {
    var go, bp, betas, t := p.globalOrient.value, p.bodyPose.value, p.betas.value, p.transl.value;
    match FullPose(go, bp)
    case Err(e) => (betas, Err(e))
    case Ok(fp) =>
      match ExpandBetas(betas, BatchSize(betas.rows, go.rows, bp.rows))
      case Err(e) => (betas, Err(e))
      case Ok(nb) =>
        var skinned := lbs(LbsInputs(nb, fp, bufs.vTemplate, bufs.shapedirs, bufs.posedirs, bufs.jRegressor,
                                     bufs.parents, bufs.lbsWeights, cfg.pose2rot));
        var selected := selector(skinned.0, skinned.1);
        var joints := if mapper.Some? then mapper.value(selected) else selected;
        match AddTransl(joints, t)
        case Err(e) => (nb, Err(e))
        case Ok(j) =>
          match AddTransl(skinned.0, t)
          case Err(e) => (nb, Err(e))
          case Ok(v) =>
            (nb, Ok(Output(if cfg.returnVerts then Some(v) else None, j,
                           if cfg.returnFullPose then Some(fp) else None, go, nb, bp)))
  }

  /** The optional outputs are present exactly when asked for; the returned pose
      parameters are the stored ones and the full pose joins them. */
  lemma {:induction false} OutputPresence(cfg: Config, p: Params, bufs: Buffers, lbs: Lbs, selector: Selector, mapper: Option<Mapper>)
    requires p.Complete() && Skinning(lbs, selector, mapper)
    requires PoseSpec(cfg, p, bufs, lbs, selector, mapper).1.Ok?
    ensures var o := PoseSpec(cfg, p, bufs, lbs, selector, mapper).1.value;
      (o.vertices.Some? <==> cfg.returnVerts) && (o.fullPose.Some? <==> cfg.returnFullPose) &&
      o.globalOrient == p.globalOrient.value && o.bodyPose == p.bodyPose.value &&
      (o.fullPose.Some? ==> Ok(o.fullPose.value) == FullPose(p.globalOrient.value, p.bodyPose.value))
  {
  }

  /** With a single row of betas, the forward pass stores and returns it repeated over
      the whole batch. */
  lemma {:induction false} SingleBetasBroadcast(cfg: Config, p: Params, bufs: Buffers, lbs: Lbs, selector: Selector, mapper: Option<Mapper>)
    requires p.Complete() && Skinning(lbs, selector, mapper)
    requires p.betas.value.rows == 1 && FullPose(p.globalOrient.value, p.bodyPose.value).Ok?
    ensures var nb := PoseSpec(cfg, p, bufs, lbs, selector, mapper).0;
      var batch := BatchSize(1, p.globalOrient.value.rows, p.bodyPose.value.rows);
      nb.rows == batch && forall b :: 0 <= b < batch ==> nb.xs[b] == p.betas.value.xs[0]
  {
    ExpandBetasCases(p.betas.value, BatchSize(1, p.globalOrient.value.rows, p.bodyPose.value.rows));
  }

  /** A joint mapper changes the joints and nothing else: the stored betas, the vertices
      and the other outputs are those of a model without one. */
  lemma {:induction false} MapperOnlyChangesJoints(cfg: Config, p: Params, bufs: Buffers, lbs: Lbs, selector: Selector, m: Mapper)
    requires p.Complete() && Skinning(lbs, selector, Some(m))
    ensures var with, without := PoseSpec(cfg, p, bufs, lbs, selector, Some(m)), PoseSpec(cfg, p, bufs, lbs, selector, None);
      with.0 == without.0 &&
      (with.1.Ok? && without.1.Ok? ==>
        with.1.value.vertices == without.1.value.vertices && with.1.value.fullPose == without.1.value.fullPose &&
        with.1.value.globalOrient == without.1.value.globalOrient && with.1.value.betas == without.1.value.betas &&
        with.1.value.bodyPose == without.1.value.bodyPose)
  {
  }

  // ---------------------------------------------------------------------------
  // The model object.

  /** The fields of the C++ `SMPL` module that construct and forward_impl update. */
  class Smpl {
    const cfg: Config
    var numBetas: nat
    var params: Params
    var shapedirs: Cube
    var faces: seq<seq<int>>
    var vTemplate: Mat
    var jRegressor: Mat
    var posedirs: Mat
    var lbsWeights: Mat
    var parents: seq<int>

    /** A model holding the caller's configuration and parameters, before construct. */
    constructor(cfg: Config, p: Params)
      ensures this.cfg == cfg && params == p && numBetas == 0
      ensures shapedirs == Cube(0, 0, 0, []) && faces == [] && vTemplate == Mat(0, 0, []) && parents == []
    {
      this.cfg := cfg;
      params := p;
      numBetas := 0;
      shapedirs := Cube(0, 0, 0, []);
      faces := [];
      vTemplate := Mat(0, 0, []);
      jRegressor := Mat(0, 0, []);
      posedirs := Mat(0, 0, []);
      lbsWeights := Mat(0, 0, []);
      parents := [];
    }

    /** The model's buffers as one value. */
    function Store(): (b: Buffers)
      reads this
      ensures b.shapedirs == shapedirs && b.vTemplate == vTemplate && b.parents == parents
    {
      Buffers(shapedirs, faces, vTemplate, jRegressor, posedirs, lbsWeights, parents)
    }

    /** The emplace block: each absent parameter becomes zeros of its shape. */
    method InitParameters()
      requires params.Valid()
      modifies this
      ensures params == WithDefaults(old(params), cfg.batchSize, numBetas)
      ensures numBetas == old(numBetas) && Store() == old(Store())
    {
      if params.betas.None? {
        params := params.(betas := Some(Zeros(cfg.batchSize, numBetas)));
      }
      if params.globalOrient.None? {
        params := params.(globalOrient := Some(Zeros(cfg.batchSize, 3)));
      }
      if params.bodyPose.None? {
        params := params.(bodyPose := Some(Zeros(cfg.batchSize, NUM_BODY_JOINTS * 3)));
      }
      if params.transl.None? {
        params := params.(transl := Some(Zeros(cfg.batchSize, 3)));
      }
    }

    /** The first stage of construct; shapedirs and faces may be assigned before a
        later step fails. */
    method LoadShapes(load: string -> Result<NdArray>, kid: KidInput) returns (r: Outcome)
      requires WellFormed(load) && kid.Valid()
      modifies this
      ensures var s := ShapeStage(cfg, load, kid);
        (r.Pass? <==> s.Ok?) && (s.Err? ==> r == Fail(s.msg)) &&
        (s.Ok? ==> shapedirs == s.value.0 && faces == s.value.1)
      ensures params == old(params) && vTemplate == old(vTemplate) && jRegressor == old(jRegressor) &&
        posedirs == old(posedirs) && lbsWeights == old(lbsWeights) && parents == old(parents)
    {
      var sd := LoadCube(load, "shapedirs");
      if sd.Err? {
        return Fail(sd.msg);
      }
      shapedirs := sd.value;
      var f := LoadInts(load, "f");
      if f.Err? {
        return Fail(f.msg);
      }
      faces := f.value;
      var basis := ShapeBasis(cfg, load, shapedirs, kid);
      if basis.Err? {
        return Fail(basis.msg);
      }
      shapedirs := basis.value;
      r := Pass;
    }

    /** The buffers loaded after the parameter defaults. */
    method LoadBuffers(load: string -> Result<NdArray>) returns (r: Outcome)
      requires cfg.Valid() && WellFormed(load)
      modifies this
      ensures var s := BufferStage(cfg, load);
        (r.Pass? <==> s.Ok?) && (s.Err? ==> r == Fail(s.msg)) &&
        (s.Ok? ==> vTemplate == s.value.0 && jRegressor == s.value.1 && posedirs == s.value.2 && lbsWeights == s.value.3)
      ensures params == old(params) && numBetas == old(numBetas) && shapedirs == old(shapedirs) &&
        faces == old(faces) && parents == old(parents)
    {
      var vt := LoadMat(load, "v_template");
      if vt.Err? {
        return Fail(vt.msg);
      }
      vTemplate := vt.value;
      if cfg.userVTemplate.Some? {
        vTemplate := cfg.userVTemplate.value;
      }
      var jr := LoadMat(load, "J_regressor");
      if jr.Err? {
        return Fail(jr.msg);
      }
      jRegressor := jr.value;
      var pd := LoadCube(load, "posedirs");
      if pd.Err? {
        return Fail(pd.msg);
      }
      var reshaped := ReshapePosedirs(pd.value);
      if reshaped.Err? {
        return Fail(reshaped.msg);
      }
      posedirs := reshaped.value;
      var w := LoadMat(load, "weights");
      if w.Err? {
        return Fail(w.msg);
      }
      lbsWeights := w.value;
      r := Pass;
    }

    /** The body of construct once the model file is open: the fields end as BuildSpec
        says, or the first failing step's message is reported. */
    method Build(load: string -> Result<NdArray>, kid: KidInput, parentsTable: seq<int>) returns (r: Outcome)
      requires cfg.Valid() && params.Valid() && WellFormed(load) && kid.Valid()
      modifies this
      ensures var s := BuildSpec(cfg, old(params), load, kid, parentsTable);
        (r.Pass? <==> s.Ok?) && (s.Err? ==> r == Fail(s.msg)) &&
        (s.Ok? ==> numBetas == s.value.numBetas && Store() == s.value.buffers && params == s.value.params)
    {
      r := LoadShapes(load, kid);
      if r.Fail? {
        return;
      }
      numBetas := shapedirs.d2;
      InitParameters();
      r := LoadBuffers(load);
      if r.Fail? {
        return;
      }
      parents := parentsTable;
    }

    /** forward_impl: the stored betas become the expanded ones and the result is
        PoseSpec's. */
    method Pose(lbs: Lbs, selector: Selector, mapper: Option<Mapper>) returns (r: Result<Output>)
      requires params.Complete() && Skinning(lbs, selector, mapper)
      modifies this
      ensures var s := PoseSpec(cfg, old(params), old(Store()), lbs, selector, mapper);
        r == s.1 && params == old(params).(betas := Some(s.0))
      ensures numBetas == old(numBetas) && Store() == old(Store())
    {
      var go, bp, t := params.globalOrient.value, params.bodyPose.value, params.transl.value;
      var bufs := Store();
      ghost var spec := PoseSpec(cfg, params, bufs, lbs, selector, mapper);
      var fullPose := FullPose(go, bp);
      if fullPose.Err? {
        assert spec == (params.betas.value, Err(fullPose.msg));
        return Err(fullPose.msg);
      }
      var batch := BatchSize(params.betas.value.rows, go.rows, bp.rows);
      ExpandBetasCases(params.betas.value, batch);
      if params.betas.value.rows != batch {
        var expanded := ExpandBetas(params.betas.value, batch);
        if expanded.Err? {
          assert spec == (params.betas.value, Err(expanded.msg));
          return Err(expanded.msg);
        }
        params := params.(betas := Some(expanded.value));
      }
      var nb := params.betas.value;
      assert spec.0 == nb;
      var skinned := lbs(LbsInputs(nb, fullPose.value, bufs.vTemplate, bufs.shapedirs, bufs.posedirs,
                                   bufs.jRegressor, bufs.parents, bufs.lbsWeights, cfg.pose2rot));
      var joints := selector(skinned.0, skinned.1);
      if mapper.Some? {
        joints := mapper.value(joints);
      }
      var movedJoints := AddTransl(joints, t);
      if movedJoints.Err? {
        return Err(movedJoints.msg);
      }
      var movedVertices := AddTransl(skinned.0, t);
      if movedVertices.Err? {
        return Err(movedVertices.msg);
      }
      r := Ok(Output(if cfg.returnVerts then Some(movedVertices.value) else None, movedJoints.value,
                     if cfg.returnFullPose then Some(fullPose.value) else None, go, nb, bp));
    }
  }
}
