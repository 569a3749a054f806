/** src/model/smplx.cpp: the body model read from a NumPy `.npz` archive. Its forward
    pass is `Smpl.Pose` with the configured joint mapper. */
module SmplNpz {
  import opened Results
  import opened Utils
  import opened BodyModel

  /** An opened archive: for each array name, the outcome of converting it to a tensor
      (cnpyToTensor, modelled in the Converter module). */
  type Npz = map<string, Result<NdArray>>

  ghost predicate WellFormedNpz(data: Npz)
  {
    forall n :: n in data && data[n].Ok? ==> data[n].value.Valid()
  }

  /** `load_required_tensor`: a missing array and a failed conversion are reported with
      the array's name. */
  function LoadRequired(data: Npz, name: string): (r: Result<NdArray>)
    ensures name !in data ==> r == Err("Missing tensor in npz: '" + name + "'")
    ensures name in data && data[name].Err? ==> r == Err("Failed to load tensor '" + name + "': " + data[name].msg)
    ensures name in data && data[name].Ok? ==> r == data[name]
  {
    if name !in data then Err("Missing tensor in npz: '" + name + "'")
    else if data[name].Err? then Err("Failed to load tensor '" + name + "': " + data[name].msg)
    else data[name]
  }

  lemma {:induction false} LoaderWellFormed(data: Npz)
    requires WellFormedNpz(data)
    ensures WellFormed(name => LoadRequired(data, name))
  {
  }

  /** The kid template: the existence check and the archive load come first; its
      `v_template` is read with `at` and converted without the name being added. */
  function KidFromNpz(kidExists: bool, kidData: Result<Npz>): (k: KidInput)
    requires kidData.Ok? ==> WellFormedNpz(kidData.value)
    ensures k.Valid()
    ensures !kidExists ==> k.file == Fail("Kid template path does not exist")
    ensures kidExists && kidData.Err? ==> k.file == Fail(kidData.msg)
    ensures kidData.Ok? && "v_template" !in kidData.value ==> k.template == Err("map::at")
  {
    var file := if !kidExists then Fail("Kid template path does not exist")
                else if kidData.Err? then Fail(kidData.msg) else Pass;
    var template :=
      if kidData.Err? then Err(kidData.msg)
      else if "v_template" !in kidData.value then Err("map::at")
      else match kidData.value["v_template"]
        case Err(e) => Err(e)
        case Ok(x) => AsMat("v_template", x);
    KidInput(file, template)
  }

  /** What construct reports before it opens the archive. */
  function PreChecks(modelPath: string, pathExists: bool, data: Result<Npz>): (r: Outcome)
    ensures !pathExists ==> r == Fail(modelPath + " not exist")
    ensures r.Pass? <==> pathExists && ExtMatches(modelPath, "npz") && data.Ok?
  {
    if !pathExists then Fail(modelPath + " not exist")
    else if !ExtMatches(modelPath, "npz") then Fail("invalid extension " + Extension(modelPath))
    else if data.Err? then Fail("Failed to load npz file: " + data.msg)
    else Pass
  }

  /** construct: the path must exist and end in `.npz` (in any letter case), the archive
      must open, and then the model is built from its arrays. Every failure inside the
      build is reported with its message unchanged. */
  method Construct(m: Smpl, modelPath: string, pathExists: bool, data: Result<Npz>,
                   kidExists: bool, kidData: Result<Npz>, parentsTable: seq<int>) returns (r: Outcome)
    requires m.cfg.Valid() && m.params.Valid()
    requires data.Ok? ==> WellFormedNpz(data.value)
    requires kidData.Ok? ==> WellFormedNpz(kidData.value)
    modifies m
    ensures PreChecks(modelPath, pathExists, data).Fail? ==> r == PreChecks(modelPath, pathExists, data)
    ensures PreChecks(modelPath, pathExists, data).Pass? ==>
      var s := BuildSpec(m.cfg, old(m.params), name => LoadRequired(data.value, name), KidFromNpz(kidExists, kidData), parentsTable);
      (r.Pass? <==> s.Ok?) && (s.Err? ==> r == Fail(s.msg)) &&
      (s.Ok? ==> m.numBetas == s.value.numBetas && m.Store() == s.value.buffers && m.params == s.value.params)
  {
    if !pathExists {
      return Fail(modelPath + " not exist");
    }
    var extOk := CheckFileExt(modelPath, "npz");
    if !extOk {
      return Fail("invalid extension " + Extension(modelPath));
    }
    if data.Err? {
      return Fail("Failed to load npz file: " + data.msg);
    }
    LoaderWellFormed(data.value);
    r := m.Build(name => LoadRequired(data.value, name), KidFromNpz(kidExists, kidData), parentsTable);
  }

  /** A missing array is reported by name once the checks before the archive pass. */
  lemma {:induction false} MissingShapedirsReported(cfg: Config, p: Params, data: Npz, kid: KidInput, parents: seq<int>)
    requires cfg.Valid() && p.Valid() && WellFormedNpz(data) && kid.Valid()
    requires "shapedirs" !in data
    ensures WellFormed(name => LoadRequired(data, name))
    ensures BuildSpec(cfg, p, name => LoadRequired(data, name), kid, parents) == Err("Missing tensor in npz: 'shapedirs'")
  {
    LoaderWellFormed(data);
  }
}
