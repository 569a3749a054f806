/** include/utils.hpp: the file-extension check used before loading a model file, and
    the two `load_tensor` overloads that flatten nested vectors into a tensor. */
module Utils {
  import opened Tensors
  import opened Arith

  // ---------------------------------------------------------------------------
  // check_file_ext

  /** The last component of a path: everything after the last '/'. */
  function FileName(path: string): (r: string)
    ensures '/' !in r
    ensures |r| <= |path|
  {
    if |path| == 0 then []
    else if path[|path| - 1] == '/' then []
    else FileName(path[..|path| - 1]) + [path[|path| - 1]]
  }

  lemma {:induction false} FileNameIsSuffix(path: string)
    ensures FileName(path) == path[|path| - |FileName(path)|..]
  {
    if |path| > 0 && path[|path| - 1] != '/' {
      var p := path[..|path| - 1];
      FileNameIsSuffix(p);
      assert path[|path| - |FileName(path)|..] == p[|p| - |FileName(p)|..] + [path[|path| - 1]];
    }
  }

  /** Position of the last '.' in `name`, or -1 when there is none. */
  function LastDot(name: string): (k: int)
    ensures -1 <= k < |name|
    ensures k >= 0 ==> name[k] == '.' && '.' !in name[k + 1..]
    ensures k == -1 ==> '.' !in name
  {
    if |name| == 0 then -1
    else if name[|name| - 1] == '.' then |name| - 1
    else LastDot(name[..|name| - 1])
  }

  /** The extension of a path as `std::filesystem::path::extension` gives it: from the
      last '.' of the file name on, and empty for "." and "..", for a file name without
      a '.', and for a name whose only '.' is its first character. */
  function Extension(path: string): string
  {
    var name := FileName(path);
    if name == "." || name == ".." then ""
    else
      var k := LastDot(name);
      if k <= 0 then "" else name[k..]
  }

  /** An extension is empty or a '.' followed by dot-free, slash-free text ending the path. */
  lemma {:induction false} ExtensionShape(path: string)
    ensures var e := Extension(path);
      (e == [] || (e[0] == '.' && '.' !in e[1..] && '/' !in e)) &&
      |e| <= |path| && e == path[|path| - |e|..]
  {
    var name := FileName(path);
    FileNameIsSuffix(path);
    var k := LastDot(name);
    if !(name == "." || name == "..") && k > 0 {
      assert name[k..][1..] == name[k + 1..];
      assert forall c :: c in name[k..] ==> c in name;
    }
  }

  /** `std::tolower` in the "C" locale: only the ASCII capitals change. */
  function Lower(c: char): (r: char)
    ensures 'A' <= c <= 'Z' ==> r as int == c as int + 32
    ensures !('A' <= c <= 'Z') ==> r == c
  {
    if 'A' <= c <= 'Z' then (c as int + 32) as char else c
  }

  /** The four-iterator `std::equal` with a case-folding comparison. */
  predicate EqualIgnoringCase(a: string, b: string)
  {
    if a == [] || b == [] then a == [] && b == []
    else Lower(a[0]) == Lower(b[0]) && EqualIgnoringCase(a[1..], b[1..])
  }

  lemma {:induction false} EqualIgnoringCaseIff(a: string, b: string)
    ensures EqualIgnoringCase(a, b) <==>
      |a| == |b| && forall i :: 0 <= i < |a| ==> Lower(a[i]) == Lower(b[i])
  {
    if a != [] && b != [] {
      EqualIgnoringCaseIff(a[1..], b[1..]);
      if |a| == |b| && forall i :: 0 <= i < |a| ==> Lower(a[i]) == Lower(b[i]) {
        forall i | 0 <= i < |a| - 1 ensures Lower(a[1..][i]) == Lower(b[1..][i]) {
          assert a[1..][i] == a[i + 1] && b[1..][i] == b[i + 1];
        }
      }
    }
  }

  /** What `check_file_ext` accepts: the path's extension, with its leading '.' removed,
      has the length of `ext` and agrees with it letter by letter up to case. */
  predicate ExtMatches(path: string, ext: string)
  {
    var e := Extension(path);
    if e == [] then ext == []
    else |e| == |ext| + 1 && forall i :: 0 <= i < |ext| ==> Lower(e[i + 1]) == Lower(ext[i])
  }

  /** check_file_ext: strip one leading '.' from the extension of `path` in place,
      then compare it with `ext` ignoring case. */
  method CheckFileExt(path: string, ext: string) returns (b: bool)
    ensures b <==> ExtMatches(path, ext)
  {
    var fileExt := Extension(path);
    ExtensionShape(path);
    if |fileExt| > 0 && fileExt[0] == '.' {
      fileExt := fileExt[1..];
    }
    b := EqualIgnoringCase(fileExt, ext);
    EqualIgnoringCaseIff(fileExt, ext);
    if Extension(path) != [] {
      forall i | 0 <= i < |fileExt| ensures fileExt[i] == Extension(path)[i + 1] { }
    }
  }

  /** Only one '.' is ever removed, and it is the extension's own: an `ext` that still
      contains a '.' (".npz", "tar.gz") matches no path. */
  lemma {:induction false} DottedExtNeverMatches(path: string, ext: string)
    requires '.' in ext
    ensures !ExtMatches(path, ext)
  {
    ExtensionShape(path);
  }

  /** The comparison ignores case on either side. */
  lemma {:induction false} MatchIgnoresCase(path: string, ext: string, ext2: string)
    requires |ext| == |ext2| && forall i :: 0 <= i < |ext| ==> Lower(ext[i]) == Lower(ext2[i])
    ensures ExtMatches(path, ext) <==> ExtMatches(path, ext2)
  {
  }

  lemma {:induction false} FileNameWithoutSlash(p: string)
    requires '/' !in p
    ensures FileName(p) == p
  {
    if p != [] {
      FileNameWithoutSlash(p[..|p| - 1]);
      assert p == p[..|p| - 1] + [p[|p| - 1]];
    }
  }

  lemma {:induction false} LastDotBefore(stem: string, x: string)
    requires '.' !in x
    ensures LastDot(stem + "." + x) == |stem|
  {
    var n := stem + "." + x;
    if x != [] {
      assert n[..|n| - 1] == stem + "." + x[..|x| - 1];
      LastDotBefore(stem, x[..|x| - 1]);
    }
  }

  /** The extension of a slash-free file name `stem.x` whose `x` has no '.' is ".x"
      whenever `stem` is a non-empty dot-free stem. */
  lemma {:induction false} ExtensionOfName(stem: string, x: string)
    requires stem != [] && '.' !in stem && '.' !in x && '/' !in stem && '/' !in x
    ensures Extension(stem + "." + x) == "." + x
  {
    var n := stem + "." + x;
    assert FileName(n) == n by {
      assert '/' !in n;
      FileNameWithoutSlash(n);
    }
    assert LastDot(n) == |stem| by { LastDotBefore(stem, x); }
    assert n != "." && n != ".." by { assert n[0] == stem[0] != '.'; }
    assert n[|stem|..] == "." + x;
  }

  /** For such a name, `check_file_ext` compares `x` with `ext` ignoring case. */
  lemma {:induction false} NameMatches(stem: string, x: string, ext: string)
    requires stem != [] && '.' !in stem && '.' !in x && '/' !in stem && '/' !in x
    ensures ExtMatches(stem + "." + x, ext) <==>
      |x| == |ext| && forall i :: 0 <= i < |x| ==> Lower(x[i]) == Lower(ext[i])
  {
    var e := Extension(stem + "." + x);
    ExtensionOfName(stem, x);
    assert e != [] && |e| == |x| + 1;
    assert forall i :: 0 <= i < |x| ==> e[i + 1] == x[i];
  }

  /** An upper-case extension matches its lower-case spelling. */
  lemma {:induction false} UpperCaseExtMatches(stem: string)
    requires stem != [] && '.' !in stem && '/' !in stem
    ensures ExtMatches(stem + ".NPZ", "npz")
  {
    var x: string, ext: string := "NPZ", "npz";
    assert forall i :: 0 <= i < |x| ==> Lower(x[i]) == Lower(ext[i]) by {
      assert Lower(x[0]) == 'n' && Lower(x[1]) == 'p' && Lower(x[2]) == 'z';
    }
    NameMatches(stem, x, ext);
    assert stem + "." + x == stem + ".NPZ";
  }

  /** Lengths must agree: a prefix of the extension does not match. */
  lemma {:induction false} ShorterExtFails(stem: string)
    requires stem != [] && '.' !in stem && '/' !in stem
    ensures !ExtMatches(stem + ".npz", "np")
  {
    NameMatches(stem, "npz", "np");
    assert stem + "." + "npz" == stem + ".npz";
  }

  /** A file name without a '.' has the empty extension, which only "" matches. */
  lemma {:induction false} NoExtMatchesOnlyEmpty(name: string, ext: string)
    requires '.' !in name && '/' !in name
    ensures ExtMatches(name, ext) <==> ext == []
  {
    FileNameWithoutSlash(name);
  }

  /** A name whose only '.' is its first character (".npz") has no extension. */
  lemma {:induction false} DotFileHasNoExt(x: string, ext: string)
    requires x != [] && '.' !in x && '/' !in x
    ensures ExtMatches("." + x, ext) <==> ext == []
  {
    FileNameWithoutSlash("." + x);
    LastDotBefore([], x);
    assert [] + "." + x == "." + x;
    assert ("." + x)[1] == x[0];
  }

  // ---------------------------------------------------------------------------
  // load_tensor

  /** The rows one after the other. */
  function Flatten<T>(rows: seq<seq<T>>): seq<T>
  {
    if rows == [] then [] else rows[0] + Flatten(rows[1..])
  }

  lemma {:induction false} FlattenSnoc<T>(rows: seq<seq<T>>, row: seq<T>)
    ensures Flatten(rows + [row]) == Flatten(rows) + row
  {
    if rows == [] {
      assert [row][1..] == [];
    } else {
      assert (rows + [row])[1..] == rows[1..] + [row];
      FlattenSnoc(rows[1..], row);
    }
  }

  /** Every row has `cols` elements. */
  predicate Rectangular<T>(rows: seq<seq<T>>, cols: nat)
  {
    forall i :: 0 <= i < |rows| ==> |rows[i]| == cols
  }

  /** Flattening rectangular rows gives `rows * cols` elements. */
  lemma {:induction false} FlattenLength<T>(rows: seq<seq<T>>, cols: nat)
    requires Rectangular(rows, cols)
    ensures |Flatten(rows)| == |rows| * cols
  {
    if rows != [] {
      FlattenLength(rows[1..], cols);
      MulSucc(|rows| - 1, cols);
    }
  }

  /** Element (i, j) of rectangular rows lands at `i * cols + j`. */
  lemma {:induction false} FlattenAtOne<T>(rows: seq<seq<T>>, cols: nat, i: nat, j: nat)
    requires Rectangular(rows, cols) && i < |rows| && j < cols
    ensures i * cols + j < |Flatten(rows)| && Flatten(rows)[i * cols + j] == rows[i][j]
  {
    FlattenLength(rows, cols);
    BelowProduct(i, j, cols, |rows|);
    if i > 0 {
      FlattenAtOne(rows[1..], cols, i - 1, j);
      MulSucc(i - 1, cols);
      assert rows[1..][i - 1] == rows[i];
      assert i * cols + j == cols + ((i - 1) * cols + j);
    }
  }

  /** The flat vector cut back into `rows` rows of `cols`: the inverse of `Flatten`. */
  function Unflatten<T>(flat: seq<T>, rows: nat, cols: nat): (r: seq<seq<T>>)
    requires |flat| == rows * cols
    ensures |r| == rows && Rectangular(r, cols)
  {
    if rows == 0 then []
    else
      MulSucc(rows - 1, cols);
      [flat[..cols]] + Unflatten(flat[cols..], rows - 1, cols)
  }

  lemma {:induction false} UnflattenFlatten<T>(rows: seq<seq<T>>, cols: nat)
    requires Rectangular(rows, cols)
    ensures |Flatten(rows)| == |rows| * cols
    ensures Unflatten(Flatten(rows), |rows|, cols) == rows
  {
    FlattenLength(rows, cols);
    if rows != [] {
      UnflattenFlatten(rows[1..], cols);
      assert Flatten(rows)[..cols] == rows[0];
      assert Flatten(rows)[cols..] == Flatten(rows[1..]);
    }
  }

  lemma {:induction false} FlattenUnflatten<T>(flat: seq<T>, rows: nat, cols: nat)
    requires |flat| == rows * cols
    ensures Flatten(Unflatten(flat, rows, cols)) == flat
  {
    if rows > 0 {
      MulSucc(rows - 1, cols);
      FlattenUnflatten(flat[cols..], rows - 1, cols);
      assert flat == flat[..cols] + flat[cols..];
      assert ([flat[..cols]] + Unflatten(flat[cols..], rows - 1, cols))[1..]
          == Unflatten(flat[cols..], rows - 1, cols);
    }
  }

  /** The 2-D `load_tensor`: appends every row to `flat`, then views its first
      rows * cols elements with shape (rows, cols) where rows and cols are the sizes of
      `data` and of `data[0]`. Reading past the end of `flat` is undefined, so the
      caller must provide at least that many elements. */
  method LoadTensor2<T>(data: seq<seq<T>>, dtype: Dtype) returns (t: Tensor<T>)
    requires |data| > 0
    requires |data| * |data[0]| <= |Flatten(data)|
    ensures t.Valid() && t.dtype == dtype
    ensures t.shape == [|data|, |data[0]|]
    ensures t.data == Flatten(data)[..|data| * |data[0]|]
  {
    var rows, cols := |data|, |data[0]|;
    var flat: seq<T> := [];
    for i := 0 to |data|
      invariant flat == Flatten(data[..i])
    {
      FlattenSnoc(data[..i], data[i]);
      assert data[..i + 1] == data[..i] + [data[i]];
      flat := flat + data[i];
    }
    assert data[..|data|] == data;
    Product2(rows, cols);
    t := Tensor(dtype, [rows, cols], flat[..rows * cols]);
  }

  /** For rectangular input the 2-D `load_tensor` keeps every element, and cutting
      the tensor back into rows gives `data`. */
  lemma {:induction false} LoadTensor2Exact<T>(data: seq<seq<T>>)
    requires |data| > 0 && Rectangular(data, |data[0]|)
    ensures |Flatten(data)| == |data| * |data[0]|
    ensures Unflatten(Flatten(data)[..|data| * |data[0]|], |data|, |data[0]|) == data
  {
    UnflattenFlatten(data, |data[0]|);
    assert Flatten(data)[..|data| * |data[0]|] == Flatten(data);
  }

  /** For rectangular input element (i, j) of the 2-D `load_tensor` result is `data[i][j]`. */
  lemma {:induction false} LoadTensor2At<T>(data: seq<seq<T>>, i: nat, j: nat)
    requires |data| > 0 && Rectangular(data, |data[0]|)
    requires i < |data| && j < |data[0]|
    ensures i * |data[0]| + j < |data| * |data[0]| <= |Flatten(data)|
    ensures Flatten(data)[..|data| * |data[0]|][i * |data[0]| + j] == data[i][j]
  {
    FlattenLength(data, |data[0]|);
    FlattenAtOne(data, |data[0]|, i, j);
  }

  /** The matrices one after the other, each flattened row by row. */
  function Flatten3<T>(data: seq<seq<seq<T>>>): seq<T>
  {
    if data == [] then [] else Flatten(data[0]) + Flatten3(data[1..])
  }

  lemma {:induction false} Flatten3Snoc<T>(data: seq<seq<seq<T>>>, mat: seq<seq<T>>)
    ensures Flatten3(data + [mat]) == Flatten3(data) + Flatten(mat)
  {
    if data == [] {
      assert [mat][1..] == [];
    } else {
      assert (data + [mat])[1..] == data[1..] + [mat];
      Flatten3Snoc(data[1..], mat);
    }
  }

  /** Every matrix is d1 x d2. */
  predicate Cuboid<T>(data: seq<seq<seq<T>>>, d1: nat, d2: nat)
  {
    forall a :: 0 <= a < |data| ==> |data[a]| == d1 && Rectangular(data[a], d2)
  }

  lemma {:induction false} Flatten3Length<T>(data: seq<seq<seq<T>>>, d1: nat, d2: nat)
    requires Cuboid(data, d1, d2)
    ensures |Flatten3(data)| == |data| * (d1 * d2)
  {
    if data != [] {
      Flatten3Length(data[1..], d1, d2);
      FlattenLength(data[0], d2);
      MulSucc(|data| - 1, d1 * d2);
    }
  }

  /** Matrix `a` of a cuboid occupies the `m = d1 * d2` slots from `a * m` on. */
  lemma {:induction false} Flatten3Block<T>(data: seq<seq<seq<T>>>, d1: nat, d2: nat, m: nat, a: nat, off: nat)
    requires Cuboid(data, d1, d2) && m == d1 * d2 && a < |data| && off < m
    ensures |Flatten(data[a])| == m
    ensures Times(a, m) + off < |Flatten3(data)|
    ensures Flatten3(data)[Times(a, m) + off] == Flatten(data[a])[off]
  {
    FlattenLength(data[a], d2);
    FlattenLength(data[0], d2);
    var rest := data[1..];
    assert Flatten3(data) == Flatten(data[0]) + Flatten3(rest);
    if a > 0 {
      assert Cuboid(rest, d1, d2) by {
        forall x | 0 <= x < |rest| ensures |rest[x]| == d1 && Rectangular(rest[x], d2) {
          assert rest[x] == data[x + 1];
        }
      }
      assert rest[a - 1] == data[a];
      Flatten3Block(rest, d1, d2, m, a - 1, off);
      assert Times(a, m) + off == m + (Times(a - 1, m) + off);
    }
  }

  /** Element (a, b, c) of a cuboid lands at `(a * d1 + b) * d2 + c`. */
  lemma {:induction false} Flatten3AtOne<T>(data: seq<seq<seq<T>>>, d1: nat, d2: nat, a: nat, b: nat, c: nat)
    requires Cuboid(data, d1, d2) && a < |data| && b < d1 && c < d2
    ensures (a * d1 + b) * d2 + c < |Flatten3(data)|
    ensures Flatten3(data)[(a * d1 + b) * d2 + c] == data[a][b][c]
  {
    Flatten3Step(a, b, c, d1, d2);
    Flatten3Block(data, d1, d2, d1 * d2, a, b * d2 + c);
    TimesIsProduct(a, d1 * d2);
    FlattenAtOne(data[a], d2, b, c);
  }

  /** Position arithmetic behind `Flatten3At`: the first matrix takes d1 * d2 slots. */
  lemma {:induction false} Flatten3Step(a: nat, b: nat, c: nat, d1: nat, d2: nat)
    requires b < d1 && c < d2
    ensures (a * d1 + b) * d2 + c < (a + 1) * (d1 * d2)
    ensures (a * d1 + b) * d2 + c == a * (d1 * d2) + (b * d2 + c) && b * d2 + c < d1 * d2
  {
    BelowProduct(b, c, d2, d1);
    assert (a * d1 + b) * d2 + c == a * (d1 * d2) + (b * d2 + c);
    MulSucc(a, d1 * d2);
  }

  /** The 3-D `load_tensor`: appends every row of every matrix to `flat`, then views
      it with shape (d0, d1, d2) taken from `data`, `data[0]` and `data[0][0]`. */
  method LoadTensor3<T>(data: seq<seq<seq<T>>>, dtype: Dtype) returns (t: Tensor<T>)
    requires |data| > 0 && |data[0]| > 0
    requires |data| * (|data[0]| * |data[0][0]|) <= |Flatten3(data)|
    ensures t.Valid() && t.dtype == dtype
    ensures t.shape == [|data|, |data[0]|, |data[0][0]|]
    ensures t.data == Flatten3(data)[..|data| * (|data[0]| * |data[0][0]|)]
  {
    var d0, d1, d2 := |data|, |data[0]|, |data[0][0]|;
    var flat: seq<T> := [];
    for a := 0 to |data|
      invariant flat == Flatten3(data[..a])
    {
      ghost var before := flat;
      for b := 0 to |data[a]|
        invariant flat == before + Flatten(data[a][..b])
      {
        FlattenSnoc(data[a][..b], data[a][b]);
        assert data[a][..b + 1] == data[a][..b] + [data[a][b]];
        flat := flat + data[a][b];
      }
      assert data[a][..|data[a]|] == data[a];
      Flatten3Snoc(data[..a], data[a]);
      assert data[..a + 1] == data[..a] + [data[a]];
    }
    assert data[..|data|] == data;
    Product3(d0, d1, d2);
    t := Tensor(dtype, [d0, d1, d2], flat[..d0 * (d1 * d2)]);
  }

  /** For cuboid input the 3-D `load_tensor` keeps every element, element (a, b, c)
      at `(a * d1 + b) * d2 + c`. */
  lemma {:induction false} LoadTensor3At<T>(data: seq<seq<seq<T>>>, a: nat, b: nat, c: nat)
    requires |data| > 0 && |data[0]| > 0 && Cuboid(data, |data[0]|, |data[0][0]|)
    requires a < |data| && b < |data[0]| && c < |data[0][0]|
    ensures |Flatten3(data)| == |data| * (|data[0]| * |data[0][0]|)
    ensures (a * |data[0]| + b) * |data[0][0]| + c < |Flatten3(data)|
    ensures Flatten3(data)[(a * |data[0]| + b) * |data[0][0]| + c] == data[a][b][c]
  {
    Flatten3Length(data, |data[0]|, |data[0][0]|);
    Flatten3AtOne(data, |data[0]|, |data[0][0]|, a, b, c);
  }
}
