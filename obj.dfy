/** `save_obj` of fitting.cpp and benchmark.cpp: a mesh written as Wavefront OBJ text,
    one `v x y z` line per vertex row followed by one `f a b c` line per face, with the
    stored 0-based vertex indices written 1-based. The two copies differ only in how a
    coordinate is printed (fixed with 8 decimals, or the stream's default), so the
    coordinate printer is a parameter; so is the integer printer, whose decimal form
    is in the Text module.

    The file is modelled as the sequence of its lines without their line breaks. A row
    with fewer than three entries throws when its missing entry is selected; the
    stream operators run left to right, so the start of that row's line is already in
    the file, unterminated, and is the last element of the sequence. */
module Obj {
  import opened Results
  import opened Text

  // ---------------------------------------------------------------------------
  // Lines.

  /** `v x y z` with the row's first three coordinates. */
  function VertexLine(format: real -> string, v: seq<real>): (line: string)
    requires |v| >= 3
    ensures |line| >= 2
  {
    "v " + format(v[0]) + " " + format(v[1]) + " " + format(v[2])
  }

  /** What a vertex row too short for three coordinates leaves in the file: the tag and
      each coordinate it has, each followed by its separator. */
  function VertexFragment(format: real -> string, v: seq<real>): (text: string)
    requires |v| < 3
    ensures |text| >= 2
  {
    "v " + (if |v| >= 1 then format(v[0]) + " " else "") + (if |v| >= 2 then format(v[1]) + " " else "")
  }

  /** `f a b c` with the row's first three indices plus one, each printed by `show`. */
  function FaceLine(show: int -> string, f: seq<int>): (line: string)
    requires |f| >= 3
    ensures |line| >= 2
  {
    "f " + show(f[0] + 1) + " " + show(f[1] + 1) + " " + show(f[2] + 1)
  }

  /** What a face row too short for three indices leaves in the file. */
  function FaceFragment(show: int -> string, f: seq<int>): (text: string)
    requires |f| < 3
    ensures |text| >= 2
  {
    "f " + (if |f| >= 1 then show(f[0] + 1) + " " else "") + (if |f| >= 2 then show(f[1] + 1) + " " else "")
  }

  /** Every vertex line, complete or not, starts with the `v` tag. */
  lemma {:induction false} VertexTag(format: real -> string, v: seq<real>)
    ensures |v| >= 3 ==> VertexLine(format, v)[..2] == "v "
    ensures |v| < 3 ==> VertexFragment(format, v)[..2] == "v "
  {
    if |v| >= 3 {
      TakeAppend("v ", format(v[0]) + " " + format(v[1]) + " " + format(v[2]));
    } else {
      TakeAppend("v ", (if |v| >= 1 then format(v[0]) + " " else "") + (if |v| >= 2 then format(v[1]) + " " else ""));
    }
  }

  /** Every face line, complete or not, starts with the `f` tag. */
  lemma {:induction false} FaceTag(show: int -> string, f: seq<int>)
    ensures |f| >= 3 ==> FaceLine(show, f)[..2] == "f "
    ensures |f| < 3 ==> FaceFragment(show, f)[..2] == "f "
  {
    if |f| >= 3 {
      TakeAppend("f ", show(f[0] + 1) + " " + show(f[1] + 1) + " " + show(f[2] + 1));
    } else {
      TakeAppend("f ", (if |f| >= 1 then show(f[0] + 1) + " " else "") + (if |f| >= 2 then show(f[1] + 1) + " " else ""));
    }
  }

  /** The indices of an `f` line, if it is one. */
  function ParseFace(line: string): (r: Option<seq<int>>)
    ensures r.Some? ==> |r.value| == 3 && |line| >= 2 && line[..2] == "f "
  {
    if |line| < 2 || line[..2] != "f " then None
    else
      var parts := Split(line[2..], ' ');
      if |parts| == 3 && ParseInt(parts[0]).Some? && ParseInt(parts[1]).Some? && ParseInt(parts[2]).Some? then
        Some([ParseInt(parts[0]).value, ParseInt(parts[1]).value, ParseInt(parts[2]).value])
      else None
  }

  /** A line made of `f` and three space-free integers parses back to them. */
  lemma {:induction false} ParseFaceOf(a: string, b: string, c: string)
    requires ' ' !in a && ' ' !in b && ' ' !in c
    requires ParseInt(a).Some? && ParseInt(b).Some? && ParseInt(c).Some?
    ensures ParseFace("f " + a + " " + b + " " + c) == Some([ParseInt(a).value, ParseInt(b).value, ParseInt(c).value])
  {
    var line := "f " + a + " " + b + " " + c;
    assert line[..2] == "f ";
    assert line[2..] == a + [' '] + (b + [' '] + c);
    SplitThree(a, b, c);
  }

  /** With decimal printing, a face line reads back as the stored 0-based indices plus
      one. */
  lemma {:induction false} FaceLineRoundTrip(f: seq<int>)
    requires |f| >= 3
    ensures ParseFace(FaceLine(IntToString, f)) == Some([f[0] + 1, f[1] + 1, f[2] + 1])
  {
    IntToStringNoSpace(f[0] + 1);
    IntToStringNoSpace(f[1] + 1);
    IntToStringNoSpace(f[2] + 1);
    ParseIntToString(f[0] + 1);
    ParseIntToString(f[1] + 1);
    ParseIntToString(f[2] + 1);
    ParseFaceOf(IntToString(f[0] + 1), IntToString(f[1] + 1), IntToString(f[2] + 1));
  }

  // ---------------------------------------------------------------------------
  // Rows.

  /** Every row has at least three entries. */
  predicate Wide<T>(rows: seq<seq<T>>)
  {
    forall i :: 0 <= i < |rows| ==> |rows[i]| >= 3
  }

  /** The index of the first row with fewer than three entries, or the row count. */
  function FirstShort<T>(rows: seq<seq<T>>): (k: nat)
    ensures k <= |rows|
    ensures Wide(rows[..k])
    ensures k < |rows| ==> |rows[k]| < 3
  {
    if rows == [] then 0
    else if |rows[0]| < 3 then 0
    else 1 + FirstShort(rows[1..])
  }

  /** The first short row is the only index with wide rows before it and a short row
      (or the end) at it. */
  lemma {:induction false} FirstShortAt<T>(rows: seq<seq<T>>, i: nat)
    requires i <= |rows| && Wide(rows[..i])
    requires i < |rows| ==> |rows[i]| < 3
    ensures FirstShort(rows) == i
  {
    var k := FirstShort(rows);
    assert forall j :: 0 <= j < i ==> rows[..i][j] == rows[j];
    assert forall j :: 0 <= j < k ==> rows[..k][j] == rows[j];
  }

  /** No row is short exactly when every row is wide. */
  lemma {:induction false} FirstShortWide<T>(rows: seq<seq<T>>)
    ensures FirstShort(rows) == |rows| <==> Wide(rows)
  {
    assert rows[..|rows|] == rows;
  }

  function VertexLines(format: real -> string, vs: seq<seq<real>>): (ls: seq<string>)
    requires Wide(vs)
    ensures |ls| == |vs|
  {
    if vs == [] then [] else VertexLines(format, vs[..|vs| - 1]) + [VertexLine(format, vs[|vs| - 1])]
  }

  lemma {:induction false} VertexLinesAt(format: real -> string, vs: seq<seq<real>>, i: nat)
    requires Wide(vs)
    requires i < |vs|
    ensures VertexLines(format, vs)[i] == VertexLine(format, vs[i])
  {
    if i < |vs| - 1 {
      VertexLinesAt(format, vs[..|vs| - 1], i);
    }
  }

  lemma {:induction false} VertexLinesSnoc(format: real -> string, vs: seq<seq<real>>, v: seq<real>)
    requires Wide(vs) && |v| >= 3
    ensures Wide(vs + [v])
    ensures VertexLines(format, vs + [v]) == VertexLines(format, vs) + [VertexLine(format, v)]
  {
    assert (vs + [v])[..|vs|] == vs;
  }

  function FaceLines(show: int -> string, fs: seq<seq<int>>): (ls: seq<string>)
    requires Wide(fs)
    ensures |ls| == |fs|
  {
    if fs == [] then [] else FaceLines(show, fs[..|fs| - 1]) + [FaceLine(show, fs[|fs| - 1])]
  }

  lemma {:induction false} FaceLinesAt(show: int -> string, fs: seq<seq<int>>, i: nat)
    requires Wide(fs)
    requires i < |fs|
    ensures FaceLines(show, fs)[i] == FaceLine(show, fs[i])
  {
    if i < |fs| - 1 {
      FaceLinesAt(show, fs[..|fs| - 1], i);
    }
  }

  lemma {:induction false} FaceLinesSnoc(show: int -> string, fs: seq<seq<int>>, f: seq<int>)
    requires Wide(fs) && |f| >= 3
    ensures Wide(fs + [f])
    ensures FaceLines(show, fs + [f]) == FaceLines(show, fs) + [FaceLine(show, f)]
  {
    assert (fs + [f])[..|fs|] == fs;
  }

  lemma {:induction false} AppendAssoc<T>(a: seq<T>, b: seq<T>, c: seq<T>)
    ensures (a + b) + c == a + (b + c)
  {
  }

  // ---------------------------------------------------------------------------
  // What save_obj writes and reports.

  const OpenError := "Could not open OBJ file for writing."

  /** The message of selecting entry `size` of a row that has only `size` entries; a
      short row has fewer than three, so its size is a single digit. */
  function OutOfBounds(size: nat): (msg: string)
    requires size < 3
    ensures |msg| > 0
  {
    "index " + [Digit(size)] + " is out of bounds for dimension 0 with size " + [Digit(size)]
  }

  /** How a loop over rows ends: it throws at the first short row. */
  function RowsOutcome<T>(rows: seq<seq<T>>): (r: Outcome)
    ensures r.Pass? <==> Wide(rows)
  {
    FirstShortWide(rows);
    var k := FirstShort(rows);
    if k < |rows| then Fail(OutOfBounds(|rows[k]|)) else Pass
  }

  /** The vertex loop's lines: one per row up to the first short row, then that row's
      fragment. */
  function VertexPart(format: real -> string, vs: seq<seq<real>>): seq<string>
  {
    var k := FirstShort(vs);
    VertexLines(format, vs[..k]) + (if k < |vs| then [VertexFragment(format, vs[k])] else [])
  }

  /** The face loop's lines, in the same way. */
  function FacePart(show: int -> string, fs: seq<seq<int>>): seq<string>
  {
    var k := FirstShort(fs);
    FaceLines(show, fs[..k]) + (if k < |fs| then [FaceFragment(show, fs[k])] else [])
  }

  /** Everything an opened file receives: the face loop runs only when the vertex loop
      did not throw. */
  function Written(format: real -> string, show: int -> string, vs: seq<seq<real>>, fs: seq<seq<int>>): seq<string>
  {
    VertexPart(format, vs) + (if RowsOutcome(vs).Pass? then FacePart(show, fs) else [])
  }

  /** What save_obj reports on an opened file: the first failure, if any. */
  function SaveOutcome(vs: seq<seq<real>>, fs: seq<seq<int>>): Outcome
  {
    if RowsOutcome(vs).Fail? then RowsOutcome(vs) else RowsOutcome(fs)
  }

  /** A write that does not throw holds the line of every vertex and then of every
      face. */
  lemma {:induction false} WrittenComplete(format: real -> string, show: int -> string, vs: seq<seq<real>>, fs: seq<seq<int>>)
    requires SaveOutcome(vs, fs).Pass?
    ensures Wide(vs) && Wide(fs)
    ensures Written(format, show, vs, fs) == VertexLines(format, vs) + FaceLines(show, fs)
  {
    FirstShortWide(vs);
    FirstShortWide(fs);
    assert vs[..|vs|] == vs && fs[..|fs|] == fs;
  }

  /** A vertex row too short for its three coordinates stops the write inside that row's
      line, with an error naming the row's size: the file holds the lines of the rows
      before it, then that row's unterminated start, and no face line. */
  lemma {:induction false} ShortVertexStops(format: real -> string, show: int -> string, vs: seq<seq<real>>, fs: seq<seq<int>>)
    requires !Wide(vs)
    ensures SaveOutcome(vs, fs) == Fail(OutOfBounds(|vs[FirstShort(vs)]|))
    ensures Written(format, show, vs, fs) == VertexLines(format, vs[..FirstShort(vs)]) + [VertexFragment(format, vs[FirstShort(vs)])]
  {
    FirstShortWide(vs);
  }

  /** A face row too short for its three indices stops the write inside that face's
      line, with an error naming the row's size: the file holds every vertex line, the
      lines of the faces before it and that face's unterminated start. */
  lemma {:induction false} ShortFaceStops(format: real -> string, show: int -> string, vs: seq<seq<real>>, fs: seq<seq<int>>)
    requires Wide(vs) && !Wide(fs)
    ensures SaveOutcome(vs, fs) == Fail(OutOfBounds(|fs[FirstShort(fs)]|))
    ensures Written(format, show, vs, fs) ==
      VertexLines(format, vs) + (FaceLines(show, fs[..FirstShort(fs)]) + [FaceFragment(show, fs[FirstShort(fs)])])
  {
    FirstShortWide(vs);
    FirstShortWide(fs);
    assert vs[..|vs|] == vs;
  }

  /** The vertex lines come first, in row order, each tagged `v`; the face lines follow
      in row order. */
  lemma {:induction false} ObjLayout(format: real -> string, show: int -> string, vs: seq<seq<real>>, fs: seq<seq<int>>)
    requires Wide(vs) && Wide(fs)
    ensures var ls := VertexLines(format, vs) + FaceLines(show, fs);
      |ls| == |vs| + |fs| &&
      (forall i :: 0 <= i < |vs| ==> ls[i] == VertexLine(format, vs[i]) && ls[i][..2] == "v ") &&
      (forall i :: |vs| <= i < |ls| ==> ls[i] == FaceLine(show, fs[i - |vs|]) && ls[i][..2] == "f ")
  {
    var vl, fl := VertexLines(format, vs), FaceLines(show, fs);
    forall i | 0 <= i < |vs|
      ensures (vl + fl)[i] == VertexLine(format, vs[i]) && (vl + fl)[i][..2] == "v "
    {
      VertexLinesAt(format, vs, i);
      VertexTag(format, vs[i]);
    }
    forall i | |vs| <= i < |vs| + |fs|
      ensures (vl + fl)[i] == FaceLine(show, fs[i - |vs|]) && (vl + fl)[i][..2] == "f "
    {
      FaceLinesAt(show, fs, i - |vs|);
      FaceTag(show, fs[i - |vs|]);
    }
  }

  /** Up to a short vertex row every line is tagged `v`, its unterminated start
      included: no face line precedes or follows it. */
  lemma {:induction false} ShortVertexTagged(format: real -> string, vs: seq<seq<real>>, k: nat)
    requires k < |vs| && Wide(vs[..k]) && |vs[k]| < 3
    ensures var ls := VertexLines(format, vs[..k]) + [VertexFragment(format, vs[k])];
      forall i :: 0 <= i < |ls| ==> |ls[i]| >= 2 && ls[i][..2] == "v "
  {
    var vl := VertexLines(format, vs[..k]);
    forall i | 0 <= i < |vl| + 1
      ensures |(vl + [VertexFragment(format, vs[k])])[i]| >= 2 && (vl + [VertexFragment(format, vs[k])])[i][..2] == "v "
    {
      VertexTag(format, vs[i]);
      if i < k {
        VertexLinesAt(format, vs[..k], i);
      }
    }
  }

  /** The output file: the lines written to it so far. */
  class ObjFile {
    var lines: seq<string>

    constructor()
      ensures lines == []
    {
      lines := [];
    }

    /** The vertex loop: one line per row until a row without three coordinates. */
    method WriteVertices(format: real -> string, vertices: seq<seq<real>>) returns (r: Outcome)
      modifies this
      ensures r == RowsOutcome(vertices)
      ensures lines == old(lines) + VertexPart(format, vertices)
    {
      ghost var start := lines;
      var i := 0;
      while i < |vertices|
        invariant 0 <= i <= |vertices| && Wide(vertices[..i])
        invariant lines == start + VertexLines(format, vertices[..i])
      {
        var v := vertices[i];
        if |v| < 3 {
          FirstShortAt(vertices, i);
          AppendAssoc(start, VertexLines(format, vertices[..i]), [VertexFragment(format, v)]);
          lines := lines + [VertexFragment(format, v)];
          return Fail(OutOfBounds(|v|));
        }
        VertexLinesSnoc(format, vertices[..i], v);
        assert vertices[..i + 1] == vertices[..i] + [v];
        AppendAssoc(start, VertexLines(format, vertices[..i]), [VertexLine(format, v)]);
        lines := lines + [VertexLine(format, v)];
        i := i + 1;
      }
      FirstShortAt(vertices, i);
      r := Pass;
    }

    /** The face loop: one line per face until a row without three indices. */
    method WriteFaces(show: int -> string, faces: seq<seq<int>>) returns (r: Outcome)
      modifies this
      ensures r == RowsOutcome(faces)
      ensures lines == old(lines) + FacePart(show, faces)
    {
      ghost var start := lines;
      var j := 0;
      while j < |faces|
        invariant 0 <= j <= |faces| && Wide(faces[..j])
        invariant lines == start + FaceLines(show, faces[..j])
      {
        var f := faces[j];
        if |f| < 3 {
          FirstShortAt(faces, j);
          AppendAssoc(start, FaceLines(show, faces[..j]), [FaceFragment(show, f)]);
          lines := lines + [FaceFragment(show, f)];
          return Fail(OutOfBounds(|f|));
        }
        FaceLinesSnoc(show, faces[..j], f);
        assert faces[..j + 1] == faces[..j] + [f];
        AppendAssoc(start, FaceLines(show, faces[..j]), [FaceLine(show, f)]);
        lines := lines + [FaceLine(show, f)];
        j := j + 1;
      }
      FirstShortAt(faces, j);
      r := Pass;
    }

    /** save_obj: nothing is written when the file cannot be opened; otherwise opening
        empties the file, which then receives the vertex lines, then the face lines,
        stopping inside the first row without three entries. */
    method SaveObj(isOpen: bool, format: real -> string, show: int -> string, vertices: seq<seq<real>>, faces: seq<seq<int>>)
      returns (r: Outcome)
      modifies this
      ensures !isOpen ==> r == Fail(OpenError) && lines == old(lines)
      ensures isOpen ==> r == SaveOutcome(vertices, faces)
      ensures isOpen ==> lines == Written(format, show, vertices, faces)
    {
      if !isOpen {
        return Fail(OpenError);
      }
      lines := [];
      r := WriteVertices(format, vertices);
      ghost var vp := VertexPart(format, vertices);
      if r.Fail? {
        assert vp + [] == vp;
        return;
      }
      r := WriteFaces(show, faces);
      assert [] + vp == vp;
    }
  }
}
