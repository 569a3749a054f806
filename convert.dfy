/** convert.py: turns each pickled SMPL model named on the command line into a JSON
    document. Every entry of the pickled dictionary is converted to nested lists; an
    entry of an unrecognised type whose conversion raises is skipped, and the document
    is written to `SMPL_<GENDER>.json` in the current directory, the gender being read
    from one character of the model's file name. */
module Convert {
  import opened Results
  import opened Utils

  // ---------------------------------------------------------------------------
  // The output file.

  /** The gender rule: character 11 of the file name, 'f' or 'm', when the name is long
      enough to have one. */
  function Gender(fname: string): (g: string)
    ensures g == "FEMALE" || g == "MALE" || g == "NEUTRAL"
  {
    if |fname| > 11 && fname[11] == 'f' then "FEMALE"
    else if |fname| > 11 && fname[11] == 'm' then "MALE"
    else "NEUTRAL"
  }

  /** The gender of a model path, read from its last component (`path.split(...)[1]`). */
  function GenderOf(modelPath: string): string
  {
    Gender(FileName(modelPath))
  }

  /** `posixpath.join` of two components: an absolute second component replaces the
      first; otherwise a '/' is inserted unless the first is empty or already ends in
      one. */
  function Join(a: string, b: string): (r: string)
    ensures |b| > 0 && b[0] == '/' ==> r == b
  {
    if |b| > 0 && b[0] == '/' then b
    else if a == [] || a[|a| - 1] == '/' then a + b
    else a + "/" + b
  }

  /** Where the document of `modelPath` is written. */
  function OutputPath(outputDir: string, modelPath: string): string
  {
    Join(outputDir, "SMPL_" + GenderOf(modelPath) + ".json")
  }

  /** The last component after a directory that ends in '/' is the slash-free name. */
  lemma {:induction false} FileNameAfterDir(dir: string, name: string)
    requires dir == [] || dir[|dir| - 1] == '/'
    requires '/' !in name
    ensures FileName(dir + name) == name
  {
    if name == [] {
      assert dir + name == dir;
    } else {
      var init := name[..|name| - 1];
      FileNameAfterDir(dir, init);
      assert dir + name == (dir + init) + [name[|name| - 1]];
      assert init + [name[|name| - 1]] == name;
    }
  }

  /** Only the file name decides the gender: any directory in front of it is ignored. */
  lemma {:induction false} GenderIgnoresDirectory(dir: string, name: string)
    requires '/' !in name
    ensures GenderOf(dir + "/" + name) == Gender(name)
  {
    FileNameAfterDir(dir + "/", name);
    assert dir + "/" + name == (dir + "/") + name;
  }

  /** The gender is FEMALE exactly when character 11 of the file name is 'f', MALE
      exactly when it is 'm', and NEUTRAL otherwise, short names included. */
  lemma {:induction false} GenderCases(modelPath: string)
    ensures var n := FileName(modelPath);
      (GenderOf(modelPath) == "FEMALE" <==> |n| > 11 && n[11] == 'f') &&
      (GenderOf(modelPath) == "MALE" <==> |n| > 11 && n[11] == 'm') &&
      (GenderOf(modelPath) == "NEUTRAL" <==> |n| <= 11 || (n[11] != 'f' && n[11] != 'm'))
  {
  }

  /** Whatever the output directory, the file written is named `SMPL_<GENDER>.json`, so
      two models of the same gender are written to the same file. */
  lemma {:induction false} OutputFileName(outputDir: string, modelPath: string)
    ensures FileName(OutputPath(outputDir, modelPath)) == "SMPL_" + GenderOf(modelPath) + ".json"
  {
    var name := "SMPL_" + GenderOf(modelPath) + ".json";
    assert name[0] == 'S';
    assert '/' !in name;
    if outputDir == [] || outputDir[|outputDir| - 1] == '/' {
      FileNameAfterDir(outputDir, name);
    } else {
      FileNameAfterDir(outputDir + "/", name);
      assert outputDir + "/" + name == (outputDir + "/") + name;
    }
  }

  /** With the current directory as output directory, as the script uses it. */
  lemma {:induction false} CurrentDirOutput(modelPath: string)
    ensures OutputPath(".", modelPath) == "./SMPL_" + GenderOf(modelPath) + ".json"
  {
  }

  // ---------------------------------------------------------------------------
  // The key loop.

  /** The branch an entry takes, by its type: chumpy arrays and scipy sparse matrices
      have their own conversion, NumPy arrays are listed directly, and anything else
      goes through a generic conversion inside a `try`. */
  datatype Kind = Chumpy | Sparse | NdArray | OtherKind

  /** A dictionary entry: its key, its kind, and the outcome of its branch's
      conversion to nested lists of type `J`. */
  datatype Entry<J> = Entry(key: string, kind: Kind, converted: Result<J>)

  /** The keys of a dictionary are distinct. */
  predicate DistinctKeys<J>(entries: seq<Entry<J>>)
  {
    forall i, j :: 0 <= i < j < |entries| ==> entries[i].key != entries[j].key
  }

  /** Only the generic conversion is guarded; a failure in any other branch escapes
      and ends the script. */
  predicate Skipped<J>(e: Entry<J>)
  {
    e.converted.Err? && e.kind == OtherKind
  }

  predicate Aborts<J>(e: Entry<J>)
  {
    e.converted.Err? && e.kind != OtherKind
  }

  /** The document built from `entries` in order: each converted entry is added under its
      key, a skipped one is left out, and the first escaping failure ends the loop. */
  function Document<J>(entries: seq<Entry<J>>): Result<seq<(string, J)>>
  {
    if entries == [] then Ok([])
    else
      var e := entries[|entries| - 1];
      match Document(entries[..|entries| - 1])
      case Err(msg) => Err(msg)
      case Ok(doc) =>
        if e.converted.Ok? then Ok(doc + [(e.key, e.converted.value)])
        else if e.kind == OtherKind then Ok(doc)
        else Err(e.converted.msg)
  }

  /** The entries kept: those whose conversion succeeded, in dictionary order. */
  function Kept<J>(entries: seq<Entry<J>>): seq<(string, J)>
  {
    if entries == [] then []
    else
      var e := entries[|entries| - 1];
      Kept(entries[..|entries| - 1]) + (if e.converted.Ok? then [(e.key, e.converted.value)] else [])
  }

  /** The loop fails exactly when some entry's unguarded conversion fails, and then with
      the first such failure; otherwise the document is the kept entries. */
  lemma {:induction false} DocumentIsKept<J>(entries: seq<Entry<J>>)
    ensures Document(entries).Ok? <==> forall i :: 0 <= i < |entries| ==> !Aborts(entries[i])
    ensures Document(entries).Ok? ==> Document(entries).value == Kept(entries)
    ensures Document(entries).Err? ==>
      (exists i :: 0 <= i < |entries| && Aborts(entries[i]) &&
         (forall j :: 0 <= j < i ==> !Aborts(entries[j])) && Document(entries) == Err(entries[i].converted.msg))
  {
    if entries != [] {
      var init := entries[..|entries| - 1];
      var n := |entries| - 1;
      DocumentIsKept(init);
      assert forall i :: 0 <= i < n ==> init[i] == entries[i];
      if Document(init).Err? {
        var i :| 0 <= i < n && Aborts(init[i]) && (forall j :: 0 <= j < i ==> !Aborts(init[j])) &&
          Document(init) == Err(init[i].converted.msg);
        assert Aborts(entries[i]);
      }
    }
  }

  /** A key is in the document exactly when its entry converted, and then with its
      converted value. */
  lemma {:induction false} KeptEntries<J>(entries: seq<Entry<J>>, key: string, value: J)
    requires DistinctKeys(entries)
    ensures (key, value) in Kept(entries) <==>
      exists i :: 0 <= i < |entries| && entries[i].key == key && entries[i].converted == Ok(value)
  {
    if entries != [] {
      var init := entries[..|entries| - 1];
      var n := |entries| - 1;
      assert forall i :: 0 <= i < n ==> init[i] == entries[i];
      KeptEntries(init, key, value);
      if exists i :: 0 <= i < |entries| && entries[i].key == key && entries[i].converted == Ok(value) {
        var i :| 0 <= i < |entries| && entries[i].key == key && entries[i].converted == Ok(value);
        if i < n {
          assert init[i] == entries[i];
        }
      }
    }
  }

  /** A skipped entry's key is absent from the document. */
  lemma {:induction false} SkippedAbsent<J>(entries: seq<Entry<J>>, i: nat, value: J)
    requires DistinctKeys(entries) && i < |entries| && Skipped(entries[i])
    ensures (entries[i].key, value) !in Kept(entries)
  {
    KeptEntries(entries, entries[i].key, value);
  }

  /** Once the loop has failed, later entries change nothing. */
  lemma {:induction false} FailureSticks<J>(entries: seq<Entry<J>>, i: nat)
    requires i <= |entries| && Document(entries[..i]).Err?
    ensures Document(entries) == Document(entries[..i])
  {
    if i < |entries| {
      var init := entries[..|entries| - 1];
      assert init[..i] == entries[..i];
      FailureSticks(init, i);
    } else {
      assert entries[..i] == entries;
    }
  }

  /** The key loop: converts each entry in dictionary order and collects the results. */
  method ConvertEntries<J>(entries: seq<Entry<J>>) returns (r: Result<seq<(string, J)>>)
    ensures r == Document(entries)
  {
    var doc := [];
    var i := 0;
    while i < |entries|
      invariant 0 <= i <= |entries|
      invariant Document(entries[..i]) == Ok(doc)
    {
      var e := entries[i];
      assert entries[..i + 1][..i] == entries[..i];
      if e.converted.Ok? {
        doc := doc + [(e.key, e.converted.value)];
      } else if e.kind != OtherKind {
        FailureSticks(entries, i + 1);
        return Err(e.converted.msg);
      }
      i := i + 1;
    }
    assert entries[..i] == entries;
    r := Ok(doc);
  }

  /** One model as the script reads it: the entries of its unpickled dictionary, or the
      exception that opening the file or unpickling it (both `pickle.load` attempts)
      raised. */
  type Loaded<J> = Result<seq<Entry<J>>>

  /** The document one model yields: a failed load ends it before any entry is read. */
  function ModelDocument<J>(loaded: Loaded<J>): (r: Result<seq<(string, J)>>)
    ensures loaded.Err? ==> r == Err(loaded.msg)
    ensures loaded.Ok? ==> r == Document(loaded.value)
  {
    if loaded.Err? then Err(loaded.msg) else Document(loaded.value)
  }

  /** One model of the command line: its document and where it goes. */
  method ConvertModel<J>(outputDir: string, modelPath: string, loaded: Loaded<J>)
    returns (r: Result<(string, seq<(string, J)>)>)
    ensures loaded.Err? ==> r == Err(loaded.msg)
    ensures loaded.Ok? && Document(loaded.value).Err? ==> r == Err(Document(loaded.value).msg)
    ensures loaded.Ok? && Document(loaded.value).Ok? ==>
      r == Ok((OutputPath(outputDir, modelPath), Document(loaded.value).value))
  {
    if loaded.Err? {
      return Err(loaded.msg);
    }
    var doc := ConvertEntries(loaded.value);
    if doc.Err? {
      return Err(doc.msg);
    }
    var fname := FileName(modelPath);
    var gender := Gender(fname);
    r := Ok((Join(outputDir, "SMPL_" + gender + ".json"), doc.value));
  }

  // ---------------------------------------------------------------------------
  // The command line.

  /** The script's argument check when no model path is given. */
  const UsageError := "AssertionError"

  /** The output directory after converting `paths` in order, each with its loaded
      entries, and how the run ends: each document is written to its gender's file,
      replacing what an earlier model of that gender wrote, and the first escaping
      failure (a failed load or an entry conversion outside the guarded branch) ends
      the run with the files written so far. */
  function Run<J>(outputDir: string, paths: seq<string>, models: seq<Loaded<J>>): (map<string, seq<(string, J)>>, Outcome)
    requires |paths| == |models|
  {
    if paths == [] then (map[], Pass)
    else
      var n := |paths| - 1;
      var prev := Run(outputDir, paths[..n], models[..n]);
      if prev.1.Fail? then prev
      else match ModelDocument(models[n])
        case Err(msg) => (prev.0, Fail(msg))
        case Ok(doc) => (prev.0[OutputPath(outputDir, paths[n]) := doc], Pass)
  }

  /** Every file written is the output file of one of the models. */
  lemma {:induction false} RunWritesOutputPaths<J>(outputDir: string, paths: seq<string>, models: seq<Loaded<J>>)
    requires |paths| == |models|
    ensures forall f :: f in Run(outputDir, paths, models).0 ==>
      exists i :: 0 <= i < |paths| && f == OutputPath(outputDir, paths[i])
  {
    if paths != [] {
      var n := |paths| - 1;
      RunWritesOutputPaths(outputDir, paths[..n], models[..n]);
      assert forall i :: 0 <= i < n ==> paths[..n][i] == paths[i];
    }
  }

  /** In a run that ends normally, every model loaded and converted, and the file of a
      model holds its document unless a later model has the same output file: a later
      model of the same gender overwrites an earlier one. */
  lemma {:induction false} LastModelWins<J>(outputDir: string, paths: seq<string>, models: seq<Loaded<J>>, i: nat)
    requires |paths| == |models| && i < |paths|
    requires Run(outputDir, paths, models).1.Pass?
    requires forall j :: i < j < |paths| ==> OutputPath(outputDir, paths[j]) != OutputPath(outputDir, paths[i])
    ensures models[i].Ok? && Document(models[i].value).Ok?
    ensures OutputPath(outputDir, paths[i]) in Run(outputDir, paths, models).0
    ensures Run(outputDir, paths, models).0[OutputPath(outputDir, paths[i])] == Document(models[i].value).value
  {
    var n := |paths| - 1;
    var prev := Run(outputDir, paths[..n], models[..n]);
    if i < n {
      assert paths[..n][i] == paths[i] && models[..n][i] == models[i];
      forall j | i < j < n
        ensures OutputPath(outputDir, paths[..n][j]) != OutputPath(outputDir, paths[..n][i])
      {
        assert paths[..n][j] == paths[j];
      }
      LastModelWins(outputDir, paths[..n], models[..n], i);
    }
  }

  /** The script: at least one model path, then the models in order. */
  method ConvertAll<J>(outputDir: string, paths: seq<string>, models: seq<Loaded<J>>)
    returns (files: map<string, seq<(string, J)>>, r: Outcome)
    requires |paths| == |models|
    ensures paths == [] ==> files == map[] && r == Fail(UsageError)
    ensures paths != [] ==> (files, r) == Run(outputDir, paths, models)
  {
    if paths == [] {
      return map[], Fail(UsageError);
    }
    files, r := map[], Pass;
    var i := 0;
    while i < |paths|
      invariant 0 <= i <= |paths|
      invariant (files, r) == Run(outputDir, paths[..i], models[..i]) && r.Pass?
    {
      assert paths[..i + 1][..i] == paths[..i] && models[..i + 1][..i] == models[..i];
      var out := ConvertModel(outputDir, paths[i], models[i]);
      if out.Err? {
        r := Fail(out.msg);
        RunFailureSticks(outputDir, paths, models, i + 1);
        return;
      }
      files := files[out.value.0 := out.value.1];
      i := i + 1;
    }
    assert paths[..i] == paths && models[..i] == models;
  }

  /** Once a model has failed, later models write nothing and change nothing. */
  lemma {:induction false} RunFailureSticks<J>(outputDir: string, paths: seq<string>, models: seq<Loaded<J>>, i: nat)
    requires |paths| == |models| && i <= |paths|
    requires Run(outputDir, paths[..i], models[..i]).1.Fail?
    ensures Run(outputDir, paths, models) == Run(outputDir, paths[..i], models[..i])
  {
    if i < |paths| {
      var n := |paths| - 1;
      assert paths[..n][..i] == paths[..i] && models[..n][..i] == models[..i];
      RunFailureSticks(outputDir, paths[..n], models[..n], i);
    } else {
      assert paths[..i] == paths && models[..i] == models;
    }
  }

  /** A model whose file cannot be opened or unpickled ends the run with that error:
      the files are those the earlier models wrote, and no later model is converted. */
  lemma {:induction false} LoadFailureEndsRun<J>(outputDir: string, paths: seq<string>, models: seq<Loaded<J>>, i: nat)
    requires |paths| == |models| && i < |paths|
    requires Run(outputDir, paths[..i], models[..i]).1.Pass? && models[i].Err?
    ensures Run(outputDir, paths, models) == (Run(outputDir, paths[..i], models[..i]).0, Fail(models[i].msg))
  {
    assert paths[..i + 1][..i] == paths[..i] && models[..i + 1][..i] == models[..i];
    assert models[..i + 1][i] == models[i];
    RunFailureSticks(outputDir, paths, models, i + 1);
  }
}
