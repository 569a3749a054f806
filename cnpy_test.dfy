/** tests/cnpy/test_cnpy_smplx.cpp: converts every array of an SMPL `.npz` archive that
    it knows with the dtype it expects, keeps the converted tensors by name, and checks
    each one's shape against a table of expected shapes. */
module CnpyTest {
  import opened Results
  import opened Tensors
  import opened Converter

  /** shapeMatches: compares the ranks, then the dimensions one by one, returning at the
      first difference. */
  method ShapeMatches(actual: seq<nat>, expected: seq<nat>) returns (b: bool)
    ensures b <==> |actual| == |expected| && forall i :: 0 <= i < |expected| ==> actual[i] == expected[i]
    ensures b <==> actual == expected
  {
    if |actual| != |expected| {
      return false;
    }
    var i := 0;
    while i < |expected|
      invariant 0 <= i <= |expected|
      invariant forall k :: 0 <= k < i ==> actual[k] == expected[k]
    {
      if actual[i] != expected[i] {
        return false;
      }
      i := i + 1;
    }
    assert actual == expected;
    return true;
  }

  /** What the test expects of an array: its shape and the dtype it converts it to. */
  datatype Expected = Expected(shape: seq<nat>, dtype: Dtype)

  /** The table of expected arrays of the SMPL male model. */
  const ExpectedTable: map<string, Expected> := map[
    "J_regressor_prior" := Expected([24, 6890], Float64),
    "J" := Expected([24, 3], Float64),
    "J_regressor" := Expected([24, 6890], Float64),
    "weights_prior" := Expected([6890, 24], Float64),
    "weights" := Expected([6890, 24], Float64),
    "vert_sym_idxs" := Expected([6890], Int64),
    "posedirs" := Expected([6890, 3, 207], Float64),
    "v_template" := Expected([6890, 3], Float64),
    "shapedirs" := Expected([6890, 3, 10], Float64),
    "f" := Expected([13776, 3], UInt32),
    "kintree_table" := Expected([2, 24], UInt32)
  ]

  /** What the test reports for one array of the archive. */
  datatype Report =
    | Unknown(name: string)                  // not in the table: skipped with a warning
    | ConvertFailed(name: string, msg: string) // conversion threw: reported and skipped
    | Checked(name: string, shapeOk: bool)   // converted, kept, and its shape compared

  /** The report on one array. */
  function ReportOn<T>(name: string, arr: NpyArray<T>): Report
    requires arr.Valid()
  {
    if name !in ExpectedTable then Unknown(name)
    else match CnpyToTensor(arr, ExpectedTable[name].dtype)
      case Err(msg) => ConvertFailed(name, msg)
      case Ok(t) => Checked(name, t.shape == ExpectedTable[name].shape)
  }

  predicate AllValid<T>(npz: seq<(string, NpyArray<T>)>)
  {
    forall i :: 0 <= i < |npz| ==> npz[i].1.Valid()
  }

  /** The tensors kept after the arrays of `npz`, in the archive's iteration order: each
      known array that converts is stored under its name. */
  function Kept<T>(npz: seq<(string, NpyArray<T>)>): map<string, Tensor<T>>
    requires AllValid(npz)
  {
    if npz == [] then map[]
    else
      var n := |npz| - 1;
      var (name, arr) := npz[n];
      var prev := Kept(npz[..n]);
      if name in ExpectedTable && CnpyToTensor(arr, ExpectedTable[name].dtype).Ok? then
        prev[name := CnpyToTensor(arr, ExpectedTable[name].dtype).value]
      else prev
  }

  /** The reports, one per array in iteration order. */
  function Reports<T>(npz: seq<(string, NpyArray<T>)>): (rs: seq<Report>)
    requires AllValid(npz)
    ensures |rs| == |npz|
  {
    if npz == [] then [] else Reports(npz[..|npz| - 1]) + [ReportOn(npz[|npz| - 1].0, npz[|npz| - 1].1)]
  }

  lemma {:induction false} ReportsAt<T>(npz: seq<(string, NpyArray<T>)>, i: nat)
    requires AllValid(npz) && i < |npz|
    ensures Reports(npz)[i] == ReportOn(npz[i].0, npz[i].1)
  {
    var n := |npz| - 1;
    if i < n {
      assert npz[..n][i] == npz[i];
      ReportsAt(npz[..n], i);
    }
  }

  /** The test's main loop over the archive. */
  method RunTest<T>(npz: seq<(string, NpyArray<T>)>) returns (tensors: map<string, Tensor<T>>, reports: seq<Report>)
    requires AllValid(npz)
    ensures tensors == Kept(npz)
    ensures reports == Reports(npz)
  {
    tensors, reports := map[], [];
    var i := 0;
    while i < |npz|
      invariant 0 <= i <= |npz|
      invariant AllValid(npz[..i])
      invariant tensors == Kept(npz[..i]) && reports == Reports(npz[..i])
    {
      var (name, arr) := npz[i];
      assert npz[..i + 1][..i] == npz[..i];
      assert npz[..i + 1][i] == npz[i];
      if name !in ExpectedTable {
        reports := reports + [Unknown(name)];
        i := i + 1;
        continue;
      }
      var dtype := ExpectedTable[name].dtype;
      var converted := CnpyToTensor(arr, dtype);
      if converted.Err? {
        reports := reports + [ConvertFailed(name, converted.msg)];
        i := i + 1;
        continue;
      }
      tensors := tensors[name := converted.value];
      var ok := ShapeMatches(converted.value.shape, ExpectedTable[name].shape);
      reports := reports + [Checked(name, ok)];
      i := i + 1;
    }
    assert npz[..i] == npz;
  }

  /** The whole test: `npz_load` first. An archive that cannot be loaded throws out of
      `main` before anything is converted or reported; otherwise the loop runs. */
  method LoadAndRun<T>(archive: Result<seq<(string, NpyArray<T>)>>)
    returns (r: Result<(map<string, Tensor<T>>, seq<Report>)>)
    requires archive.Ok? ==> AllValid(archive.value)
    ensures archive.Err? ==> r == Err(archive.msg)
    ensures archive.Ok? ==> r == Ok((Kept(archive.value), Reports(archive.value)))
  {
    if archive.Err? {
      return Err(archive.msg);
    }
    var tensors, reports := RunTest(archive.value);
    r := Ok((tensors, reports));
  }

  /** A name is kept exactly when some array of that name is known and converts, and
      what is kept under it has the dtype the table expects. */
  lemma {:induction false} KeptNames<T>(npz: seq<(string, NpyArray<T>)>, name: string)
    requires AllValid(npz)
    ensures name in Kept(npz) <==>
      exists i :: 0 <= i < |npz| && npz[i].0 == name && name in ExpectedTable &&
        CnpyToTensor(npz[i].1, ExpectedTable[name].dtype).Ok?
    ensures name in Kept(npz) ==> Kept(npz)[name].dtype == ExpectedTable[name].dtype
  {
    if npz != [] {
      var n := |npz| - 1;
      assert forall i :: 0 <= i < n ==> npz[..n][i] == npz[i];
      KeptNames(npz[..n], name);
    }
  }

  /** With distinct names, the tensor kept under a name is the conversion of the array
      of that name, so it has the array's own shape. */
  lemma {:induction false} KeptTensor<T>(npz: seq<(string, NpyArray<T>)>, i: nat)
    requires AllValid(npz) && i < |npz| && npz[i].0 in ExpectedTable
    requires forall j :: 0 <= j < |npz| && j != i ==> npz[j].0 != npz[i].0
    requires CnpyToTensor(npz[i].1, ExpectedTable[npz[i].0].dtype).Ok?
    ensures npz[i].0 in Kept(npz)
    ensures Kept(npz)[npz[i].0] == CnpyToTensor(npz[i].1, ExpectedTable[npz[i].0].dtype).value
    ensures Kept(npz)[npz[i].0].shape == npz[i].1.shape
  {
    var n := |npz| - 1;
    if i < n {
      assert forall j :: 0 <= j < n ==> npz[..n][j] == npz[j];
      KeptTensor(npz[..n], i);
    }
  }

  /** With distinct names, an array of a known name whose conversion fails is not
      kept. */
  lemma {:induction false} FailedNotKept<T>(npz: seq<(string, NpyArray<T>)>, i: nat)
    requires AllValid(npz) && i < |npz|
    requires forall j :: 0 <= j < |npz| && j != i ==> npz[j].0 != npz[i].0
    requires ReportOn(npz[i].0, npz[i].1).ConvertFailed?
    ensures npz[i].0 !in Kept(npz)
  {
    KeptNames(npz, npz[i].0);
  }

  /** An array with a name outside the table is reported as unknown and not kept. */
  lemma {:induction false} UnknownSkipped<T>(npz: seq<(string, NpyArray<T>)>, i: nat)
    requires AllValid(npz) && i < |npz| && npz[i].0 !in ExpectedTable
    ensures Reports(npz)[i] == Unknown(npz[i].0)
    ensures npz[i].0 !in Kept(npz)
  {
    ReportsAt(npz, i);
    KeptNames(npz, npz[i].0);
  }

  /** `vert_sym_idxs` is one-dimensional: an array of the expected shape takes the rank
      error of the conversion, so it is reported as a failure and never kept. */
  lemma {:induction false} VertSymIdxsRejected<T>(arr: NpyArray<T>)
    requires arr.Valid() && arr.shape == ExpectedTable["vert_sym_idxs"].shape
    ensures ReportOn("vert_sym_idxs", arr) == ConvertFailed("vert_sym_idxs", RankError)
  {
  }

  /** Every other entry of the table has a supported dtype and two or three dimensions,
      so an array of the expected shape converts and passes the shape check. */
  lemma {:induction false} ExpectedShapeAccepted<T>(name: string, arr: NpyArray<T>)
    requires name in ExpectedTable && name != "vert_sym_idxs"
    requires arr.Valid() && arr.shape == ExpectedTable[name].shape
    ensures ReportOn(name, arr) == Checked(name, true)
  {
  }

  /** An array of a known name with the wrong shape, but two or three dimensions, is
      kept and reported as a mismatch. */
  lemma {:induction false} WrongShapeReported<T>(name: string, arr: NpyArray<T>)
    requires name in ExpectedTable && arr.Valid() && 2 <= |arr.shape| <= 3
    requires arr.shape != ExpectedTable[name].shape
    ensures ReportOn(name, arr) == Checked(name, false)
  {
    assert Supported(ExpectedTable[name].dtype);
  }
}
