/** body_models.cpp: the body model read from a JSON document through nlohmann::json
    and utils::load_tensor, and its forward pass, in which the joint mapper is never
    applied. */
module SmplJson {
  import opened Results
  import opened Arith
  import opened Utils
  import opened BodyModel

  /** A JSON value. */
  datatype Json = Null | Bool(b: bool) | Int(i: int) | Real(x: real) | Str(s: string) | Arr(elems: seq<Json>) | Obj(fields: map<string, Json>)

  function TypeName(j: Json): string
  {
    match j
    case Null => "null"
    case Bool(_) => "boolean"
    case Int(_) => "number"
    case Real(_) => "number"
    case Str(_) => "string"
    case Arr(_) => "array"
    case Obj(_) => "object"
  }

  const SubscriptError := "[json.exception.type_error.305] cannot use operator[] with a string argument with "

  /** `data[name]` on a mutable document: a missing key reads as null, and null itself
      behaves as an empty object; any other value refuses a string subscript. */
  function Lookup(doc: Json, name: string): (r: Result<Json>)
    ensures doc.Obj? && name in doc.fields ==> r == Ok(doc.fields[name])
    ensures doc.Obj? && name !in doc.fields ==> r == Ok(Null)
    ensures r.Err? <==> !doc.Obj? && !doc.Null?
  {
    match doc
    case Obj(fields) => if name in fields then Ok(fields[name]) else Ok(Null)
    case Null => Ok(Null)
    case _ => Err(SubscriptError + TypeName(doc))
  }

  function TypeError(expected: string, j: Json): string
  {
    "[json.exception.type_error.302] type must be " + expected + ", but is " + TypeName(j)
  }

  /** `get<float>()`: an arithmetic read, so integers and booleans convert. */
  function GetReal(j: Json): (r: Result<real>)
    ensures r.Ok? <==> j.Bool? || j.Int? || j.Real?
    ensures j.Real? ==> r == Ok(j.x)
    ensures j.Bool? ==> r.Ok? && (r.value == 1.0 <==> j.b) && (r.value == 0.0 <==> !j.b)
  {
    match j
    case Bool(b) => Ok(if b then 1.0 else 0.0)
    case Int(i) => Ok(i as real)
    case Real(x) => Ok(x)
    case _ => Err(TypeError("number", j))
  }

  /** A real truncated toward zero, as a C++ conversion to int does. */
  function Trunc(x: real): (r: int)
    ensures x >= 0.0 ==> r == x.Floor
    ensures x < 0.0 ==> r == -((-x).Floor)
  {
    if x >= 0.0 then x.Floor else -((-x).Floor)
  }

  /** `get<int>()`: an arithmetic read, so reals are truncated and booleans are 0 or 1. */
  function GetInt(j: Json): (r: Result<int>)
    ensures r.Ok? <==> j.Bool? || j.Int? || j.Real?
    ensures j.Int? ==> r == Ok(j.i)
    ensures j.Bool? ==> r.Ok? && (r.value == 1 <==> j.b) && (r.value == 0 <==> !j.b)
  {
    match j
    case Bool(b) => Ok(if b then 1 else 0)
    case Int(i) => Ok(i)
    case Real(x) => Ok(Trunc(x))
    case _ => Err(TypeError("number", j))
  }

  /** Reads every element with `get`, failing with the first element's error. */
  function GetList<T>(es: seq<Json>, get: Json -> Result<T>): (r: Result<seq<T>>)
  {
    if es == [] then Ok([])
    else match get(es[0])
      case Err(e) => Err(e)
      case Ok(v) =>
        match GetList(es[1..], get)
        case Err(e) => Err(e)
        case Ok(vs) => Ok([v] + vs)
  }

  /** The list read succeeds exactly when every element does, and keeps their order. */
  lemma {:induction false} GetListAll<T>(es: seq<Json>, get: Json -> Result<T>)
    ensures GetList(es, get).Ok? <==> forall i :: 0 <= i < |es| ==> get(es[i]).Ok?
    ensures GetList(es, get).Ok? ==>
      |GetList(es, get).value| == |es| && forall i :: 0 <= i < |es| ==> GetList(es, get).value[i] == get(es[i]).value
  {
    if es != [] {
      GetListAll(es[1..], get);
      if get(es[0]).Ok? && GetList(es[1..], get).Ok? {
        var vs := GetList(es, get).value;
        forall i | 0 <= i < |es|
          ensures vs[i] == get(es[i]).value
        {
          if i > 0 {
            assert es[i] == es[1..][i - 1];
          }
        }
      } else if get(es[0]).Ok? {
        var i :| 0 <= i < |es[1..]| && !get(es[1..][i]).Ok?;
        assert es[1..][i] == es[i + 1];
      }
    }
  }

  function GetArray(j: Json): (r: Result<seq<Json>>)
    ensures r.Ok? <==> j.Arr?
  {
    if j.Arr? then Ok(j.elems) else Err(TypeError("array", j))
  }

  function GetRealRow(j: Json): Result<seq<real>>
  {
    match GetArray(j)
    case Err(e) => Err(e)
    case Ok(es) => GetList(es, GetReal)
  }

  function GetIntRow(j: Json): Result<seq<int>>
  {
    match GetArray(j)
    case Err(e) => Err(e)
    case Ok(es) => GetList(es, GetInt)
  }

  /** `get<std::vector<std::vector<float>>>()`. */
  function GetReals2(j: Json): Result<seq<seq<real>>>
  {
    match GetArray(j)
    case Err(e) => Err(e)
    case Ok(es) => GetList(es, GetRealRow)
  }

  /** `get<std::vector<std::vector<std::vector<float>>>>()`. */
  function GetReals3(j: Json): Result<seq<seq<seq<real>>>>
  {
    match GetArray(j)
    case Err(e) => Err(e)
    case Ok(es) => GetList(es, GetReals2)
  }

  /** `get<std::vector<std::vector<int>>>()`. */
  function GetInts2(j: Json): Result<seq<seq<int>>>
  {
    match GetArray(j)
    case Err(e) => Err(e)
    case Ok(es) => GetList(es, GetIntRow)
  }

  /** A matrix of reals written as JSON. */
  function Encode2(d: seq<seq<real>>): (j: Json)
    ensures j.Arr? && |j.elems| == |d|
  {
    Arr(seq(|d|, i requires 0 <= i < |d| => Arr(seq(|d[i]|, k requires 0 <= k < |d[i]| => Real(d[i][k])))))
  }

  /** Reading back a written matrix gives it unchanged. */
  lemma {:induction false} GetReals2Encode2(d: seq<seq<real>>)
    ensures GetReals2(Encode2(d)) == Ok(d)
  {
    var rows := Encode2(d).elems;
    forall i | 0 <= i < |d|
      ensures GetRealRow(rows[i]) == Ok(d[i])
    {
      GetListAll(rows[i].elems, GetReal);
      assert GetList(rows[i].elems, GetReal).value == d[i];
    }
    GetListAll(rows, GetRealRow);
    assert GetList(rows, GetRealRow).value == d;
  }

  const EmptyArrayError := "load_tensor: the outer array is empty"
  const ShortArrayError := "load_tensor: fewer elements than the shape taken from the first row"

  /** The 2-D `load_tensor`: the rows are concatenated and viewed with the shape taken
      from the array and its first row. The source reads out of bounds for an empty
      array or one with too few elements; the model reports an error instead. */
  function LoadMat2(d: seq<seq<real>>): (r: Result<Mat>)
    ensures r.Ok? <==> |d| > 0 && |d| * |d[0]| <= |Flatten(d)|
    ensures r.Ok? ==> r.value.Valid() && r.value.rows == |d| && r.value.cols == |d[0]|
  {
    if |d| == 0 then Err(EmptyArrayError)
    else if |d| * |d[0]| > |Flatten(d)| then Err(ShortArrayError)
    else Ok(Mat(|d|, |d[0]|, Unflatten(Flatten(d)[..|d| * |d[0]|], |d|, |d[0]|)))
  }

  /** For a rectangular array the loaded matrix is the array itself. */
  lemma {:induction false} LoadMat2Rectangular(d: seq<seq<real>>)
    requires |d| > 0 && Rectangular(d, |d[0]|)
    ensures LoadMat2(d) == Ok(Mat(|d|, |d[0]|, d))
  {
    LoadTensor2Exact(d);
  }

  /** Writing a non-empty rectangular matrix as JSON and loading it gives it back. */
  lemma {:induction false} JsonMatRoundTrip(d: seq<seq<real>>)
    requires |d| > 0 && Rectangular(d, |d[0]|)
    ensures GetReals2(Encode2(d)) == Ok(d) && LoadMat2(d) == Ok(Mat(|d|, |d[0]|, d))
  {
    GetReals2Encode2(d);
    LoadMat2Rectangular(d);
  }

  function Size3(d0: nat, d1: nat, d2: nat): (n: nat)
    ensures n == d0 * (d1 * d2)
  {
    d0 * (d1 * d2)
  }

  /** Element (a, b, c) of a flat buffer viewed with shape (d0, d1, d2). */
  function At3(flat: seq<real>, d0: nat, d1: nat, d2: nat, a: nat, b: nat, c: nat): real
    requires |flat| == Size3(d0, d1, d2) && a < d0 && b < d1 && c < d2
  {
    Flatten3Step(a, b, c, d1, d2);
    MulMono(a + 1, d0, d1 * d2);
    flat[(a * d1 + b) * d2 + c]
  }

  /** The 3-D `load_tensor`, with the shape taken from the array, its first matrix and
      that matrix's first row; out-of-bounds reads of the source become errors. */
  function LoadCube3(d: seq<seq<seq<real>>>): (r: Result<Cube>)
    ensures r.Ok? <==> |d| > 0 && |d[0]| > 0 && Size3(|d|, |d[0]|, |d[0][0]|) <= |Flatten3(d)|
    ensures r.Ok? ==> r.value.Valid() && r.value.d0 == |d| && r.value.d1 == |d[0]| && r.value.d2 == |d[0][0]|
  {
    if |d| == 0 || |d[0]| == 0 then Err(EmptyArrayError)
    else
      var d0, d1, d2 := |d|, |d[0]|, |d[0][0]|;
      if Size3(d0, d1, d2) > |Flatten3(d)| then Err(ShortArrayError)
      else
        var flat := Flatten3(d)[..Size3(d0, d1, d2)];
        Ok(Cube(d0, d1, d2, seq(d0, a requires 0 <= a < d0 =>
          seq(d1, b requires 0 <= b < d1 =>
            seq(d2, c requires 0 <= c < d2 => At3(flat, d0, d1, d2, a, b, c))))))
  }

  /** For a cuboid array the loaded tensor is the array itself. */
  lemma {:induction false} LoadCube3Cuboid(d: seq<seq<seq<real>>>)
    requires |d| > 0 && |d[0]| > 0 && Cuboid(d, |d[0]|, |d[0][0]|)
    ensures LoadCube3(d).Ok? && LoadCube3(d).value.xs == d
  {
    var d0, d1, d2 := |d|, |d[0]|, |d[0][0]|;
    Flatten3Length(d, d1, d2);
    var r := LoadCube3(d).value;
    forall a, b | 0 <= a < d0 && 0 <= b < d1
      ensures r.xs[a][b] == d[a][b]
    {
      forall c | 0 <= c < d2
        ensures r.xs[a][b][c] == d[a][b][c]
      {
        LoadTensor3At(d, a, b, c);
      }
    }
    forall a | 0 <= a < d0
      ensures r.xs[a] == d[a]
    {
    }
  }

  /** The integer 2-D `load_tensor` for the faces. */
  function LoadInts2(d: seq<seq<int>>): (r: Result<seq<seq<int>>>)
    ensures r.Ok? <==> |d| > 0 && |d| * |d[0]| <= |Flatten(d)|
  {
    if |d| == 0 then Err(EmptyArrayError)
    else if |d| * |d[0]| > |Flatten(d)| then Err(ShortArrayError)
    else Ok(Unflatten(Flatten(d)[..|d| * |d[0]|], |d|, |d[0]|))
  }

  /** The nesting each body-model array is read with. */
  function IsCubeName(name: string): bool
  {
    name == "shapedirs" || name == "posedirs"
  }

  /** Reads a body-model array from the document: `data[name].get<...>()` with the
      nesting its call site asks for, then `load_tensor`. */
  function JsonLoad(doc: Json, name: string): (r: Result<NdArray>)
    ensures r.Ok? ==> r.value.Valid()
    ensures r.Ok? && IsCubeName(name) ==> r.value.Array3?
    ensures r.Ok? && name == "f" ==> r.value.IntArray2?
    ensures r.Ok? && !IsCubeName(name) && name != "f" ==> r.value.Array2?
    ensures doc.Obj? && name !in doc.fields ==> r == Err(TypeError("array", Null))
  {
    match Lookup(doc, name)
    case Err(e) => Err(e)
    case Ok(j) =>
      if IsCubeName(name) then
        match GetReals3(j)
        case Err(e) => Err(e)
        case Ok(d) =>
          match LoadCube3(d)
          case Err(e) => Err(e)
          case Ok(c) => Ok(Array3(c))
      else if name == "f" then
        match GetInts2(j)
        case Err(e) => Err(e)
        case Ok(d) =>
          match LoadInts2(d)
          case Err(e) => Err(e)
          case Ok(f) => Ok(IntArray2(f))
      else
        match GetReals2(j)
        case Err(e) => Err(e)
        case Ok(d) =>
          match LoadMat2(d)
          case Err(e) => Err(e)
          case Ok(m) => Ok(Array2(m))
  }

  lemma {:induction false} JsonLoaderWellFormed(doc: Json)
    ensures WellFormed(name => JsonLoad(doc, name))
  {
  }

  /** A template stored as a rectangular matrix is loaded unchanged. */
  lemma {:induction false} TemplateLoaded(fields: map<string, Json>, d: seq<seq<real>>)
    requires |d| > 0 && Rectangular(d, |d[0]|)
    requires "v_template" in fields && fields["v_template"] == Encode2(d)
    ensures JsonLoad(Obj(fields), "v_template") == Ok(Array2(Mat(|d|, |d[0]|, d)))
  {
    JsonMatRoundTrip(d);
  }

  /** The kid template: the existence check, opening and parsing come first; its
      `v_template` is read like the adult one. */
  function KidFromJson(kidExists: bool, kidOpened: bool, kidDoc: Result<Json>): (k: KidInput)
    ensures k.Valid()
    ensures !kidExists ==> k.file == Fail("Kid template path does not exist")
    ensures kidExists && !kidOpened ==> k.file == Fail("Could not open kid template JSON file")
    ensures kidExists && kidOpened && kidDoc.Err? ==> k.file == Fail(kidDoc.msg)
  {
    var file := if !kidExists then Fail("Kid template path does not exist")
                else if !kidOpened then Fail("Could not open kid template JSON file")
                else if kidDoc.Err? then Fail(kidDoc.msg) else Pass;
    var template :=
      if kidDoc.Err? then Err(kidDoc.msg)
      else match JsonLoad(kidDoc.value, "v_template")
        case Err(e) => Err(e)
        case Ok(x) => AsMat("v_template", x);
    KidInput(file, template)
  }

  /** What construct reports before it reads the document. */
  function PreChecks(modelPath: string, pathExists: bool, isOpen: bool, doc: Result<Json>): (r: Outcome)
    ensures !pathExists ==> r == Fail(modelPath + " not exist")
    ensures pathExists && ExtMatches(modelPath, "json") && !isOpen ==> r == Fail("Could not open model file")
    ensures r.Pass? <==> pathExists && ExtMatches(modelPath, "json") && isOpen && doc.Ok?
  {
    if !pathExists then Fail(modelPath + " not exist")
    else if !ExtMatches(modelPath, "json") then Fail("invalid extension " + Extension(modelPath))
    else if !isOpen then Fail("Could not open model file")
    else if doc.Err? then Fail(doc.msg)
    else Pass
  }

  /** construct: the path must exist and end in `.json`, the file must open and parse,
      and then the model is built from the document's arrays. */
  method Construct(m: Smpl, modelPath: string, pathExists: bool, isOpen: bool, doc: Result<Json>,
                   kidExists: bool, kidOpened: bool, kidDoc: Result<Json>, parentsTable: seq<int>) returns (r: Outcome)
    requires m.cfg.Valid() && m.params.Valid()
    modifies m
    ensures PreChecks(modelPath, pathExists, isOpen, doc).Fail? ==> r == PreChecks(modelPath, pathExists, isOpen, doc)
    ensures PreChecks(modelPath, pathExists, isOpen, doc).Pass? ==>
      var s := BuildSpec(m.cfg, old(m.params), name => JsonLoad(doc.value, name), KidFromJson(kidExists, kidOpened, kidDoc), parentsTable);
      (r.Pass? <==> s.Ok?) && (s.Err? ==> r == Fail(s.msg)) &&
      (s.Ok? ==> m.numBetas == s.value.numBetas && m.Store() == s.value.buffers && m.params == s.value.params)
  {
    if !pathExists {
      return Fail(modelPath + " not exist");
    }
    var extOk := CheckFileExt(modelPath, "json");
    if !extOk {
      return Fail("invalid extension " + Extension(modelPath));
    }
    if !isOpen {
      return Fail("Could not open model file");
    }
    if doc.Err? {
      return Fail(doc.msg);
    }
    JsonLoaderWellFormed(doc.value);
    r := m.Build(name => JsonLoad(doc.value, name), KidFromJson(kidExists, kidOpened, kidDoc), parentsTable);
  }

  /** forward_impl of this variant: there is no joint mapper to apply. */
  method ForwardImpl(m: Smpl, lbs: Lbs, selector: Selector) returns (r: Result<Output>)
    requires m.params.Complete() && Skinning(lbs, selector, None)
    modifies m
    ensures var s := PoseSpec(m.cfg, old(m.params), old(m.Store()), lbs, selector, None);
      r == s.1 && m.params == old(m.params).(betas := Some(s.0))
    ensures m.numBetas == old(m.numBetas) && m.Store() == old(m.Store())
  {
    r := m.Pose(lbs, selector, None);
  }
}
