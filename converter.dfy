/** The .npy-to-tensor conversion of include/smplx/converter.hpp: a 2-D or 3-D array
    stored in C (row-major) or Fortran (column-major, the `fortran_order` flag of
    NumPy's .npy format) order is copied into a row-major tensor of the same shape. */
module Converter {
  import opened Results
  import opened Tensors
  import opened Arith

  /** A .npy array as the loader hands it over: its shape, its `fortran_order`
      flag and its elements in storage order. */
  datatype NpyArray<T> = NpyArray(shape: seq<nat>, fortranOrder: bool, data: seq<T>)
  {
    predicate Valid() { |data| == Product(shape) }
  }

  const RankError := "Only 2D or 3D arrays are supported."
  const DtypeError := "Unsupported dtype in cnpyToTensor."

  /** Storage position read for row-major output position `t` of a rows x cols array. */
  function Src2(rows: nat, cols: nat, fortran: bool, t: nat): nat
  {
    if fortran && cols > 0 then Rem(t, cols) * rows + Quot(t, cols) else t
  }

  /** Storage position read for row-major output position `t` of a d0 x d1 x d2 array. */
  function Src3(d0: nat, d1: nat, d2: nat, fortran: bool, t: nat): nat
  {
    if fortran && d1 > 0 && d2 > 0 then
      Rem(t, d2) * d1 * d0 + Rem(Quot(t, d2), d1) * d0 + Quot(Quot(t, d2), d1)
    else t
  }

  function SrcIndex<T>(arr: NpyArray<T>, t: nat): nat
    requires |arr.shape| == 2 || |arr.shape| == 3
  {
    if |arr.shape| == 2 then Src2(arr.shape[0], arr.shape[1], arr.fortranOrder, t)
    else Src3(arr.shape[0], arr.shape[1], arr.shape[2], arr.fortranOrder, t)
  }

  /** Element (i, j) of a rows x cols array: where it goes and where it is read from. */
  lemma {:induction false} Src2At(i: nat, j: nat, rows: nat, cols: nat)
    requires i < rows && j < cols
    ensures i * cols + j < rows * cols && j * rows + i < rows * cols
    ensures Src2(rows, cols, false, i * cols + j) == i * cols + j
    ensures Src2(rows, cols, true, i * cols + j) == j * rows + i
  {
    BelowProduct(i, j, cols, rows);
    BelowProduct(j, i, rows, cols);
    QuotRemOf(i, j, cols);
  }

  /** Element (i, j, k) of a d0 x d1 x d2 array lies inside the array, both at its
      row-major position and at its column-major one. */
  lemma {:induction false} Pos3Bounds(i: nat, j: nat, k: nat, d0: nat, d1: nat, d2: nat)
    requires i < d0 && j < d1 && k < d2
    ensures (i * d1 + j) * d2 + k < d0 * (d1 * d2)
    ensures (k * d1 + j) * d0 + i < d0 * (d1 * d2)
  {
    BelowProduct(i, j, d1, d0);
    BelowProduct(i * d1 + j, k, d2, d1 * d0);
    assert d2 * (d1 * d0) == d0 * (d1 * d2);
    BelowProduct(k, j, d1, d2);
    BelowProduct(k * d1 + j, i, d0, d1 * d2);
  }

  /** Element (i, j, k) of a d0 x d1 x d2 array: where it goes and where it is read from. */
  lemma {:induction false} Src3At(i: nat, j: nat, k: nat, d0: nat, d1: nat, d2: nat)
    requires i < d0 && j < d1 && k < d2
    ensures Src3(d0, d1, d2, false, (i * d1 + j) * d2 + k) == (i * d1 + j) * d2 + k
    ensures Src3(d0, d1, d2, true, (i * d1 + j) * d2 + k) == (k * d1 + j) * d0 + i
  {
    QuotRemOf(i * d1 + j, k, d2);
    QuotRemOf(i, j, d1);
    assert k * d1 * d0 + j * d0 == (k * d1 + j) * d0;
  }

  /** Every position of a d0 x d1 x d2 array is the position of some element (i, j, k). */
  lemma {:induction false} Split3(t: nat, d0: nat, d1: nat, d2: nat)
    requires t < d0 * (d1 * d2)
    ensures d1 > 0 && d2 > 0
    ensures Quot(Quot(t, d2), d1) < d0 && Rem(Quot(t, d2), d1) < d1 && Rem(t, d2) < d2
    ensures t == (Quot(Quot(t, d2), d1) * d1 + Rem(Quot(t, d2), d1)) * d2 + Rem(t, d2)
  {
    assert (d0 * d1) * d2 == d0 * (d1 * d2);
    SplitBelow(t, d0 * d1, d2);
    SplitBelow(Quot(t, d2), d0, d1);
  }

  /** The row-major and column-major positions written out as the source writes them. */
  lemma {:induction false} Pos3Forms(i: nat, j: nat, k: nat, d0: nat, d1: nat, d2: nat)
    ensures i * d1 * d2 + j * d2 + k == (i * d1 + j) * d2 + k
    ensures k * d1 * d0 + j * d0 + i == (k * d1 + j) * d0 + i
  {
  }

  lemma {:induction false} SrcInRange<T>(arr: NpyArray<T>, t: nat)
    requires arr.Valid() && (|arr.shape| == 2 || |arr.shape| == 3) && t < |arr.data|
    ensures SrcIndex(arr, t) < |arr.data|
  {
    if |arr.shape| == 2 {
      var rows, cols := arr.shape[0], arr.shape[1];
      assert arr.shape == [rows, cols];
      Product2(rows, cols);
      SplitBelow(t, rows, cols);
      Src2At(Quot(t, cols), Rem(t, cols), rows, cols);
    } else {
      var d0, d1, d2 := arr.shape[0], arr.shape[1], arr.shape[2];
      assert arr.shape == [d0, d1, d2];
      Product3(d0, d1, d2);
      Split3(t, d0, d1, d2);
      var i, j, k := Quot(Quot(t, d2), d1), Rem(Quot(t, d2), d1), Rem(t, d2);
      Pos3Bounds(i, j, k, d0, d1, d2);
      Src3At(i, j, k, d0, d1, d2);
    }
  }

  /** The tensor `convertTensor` builds: same shape, elements gathered in row-major order. */
  function Converted<T>(arr: NpyArray<T>, dtype: Dtype): Tensor<T>
    requires arr.Valid() && (|arr.shape| == 2 || |arr.shape| == 3)
  {
    Tensor(dtype, arr.shape,
      seq(|arr.data|, t requires 0 <= t < |arr.data| =>
        SrcInRange(arr, t); arr.data[SrcIndex(arr, t)]))
  }

  /** The outcome of `convertTensor`: the rank error, or the converted tensor. */
  function ConvertResult<T>(arr: NpyArray<T>, dtype: Dtype): Result<Tensor<T>>
    requires arr.Valid()
  {
    if |arr.shape| < 2 || |arr.shape| > 3 then Err(RankError) else Ok(Converted(arr, dtype))
  }

  /** The storage position `convertTensor` reads for element (i, j) of a 2-D array. */
  lemma {:induction false} Read2At(i: nat, j: nat, rows: nat, cols: nat, f: bool)
    requires i < rows && j < cols
    ensures i * cols + j < rows * cols
    ensures (if f then j * rows + i else i * cols + j) < rows * cols
    ensures Src2(rows, cols, f, i * cols + j) == if f then j * rows + i else i * cols + j
  {
    Src2At(i, j, rows, cols);
  }

  /** The storage position `convertTensor` reads for element (i, j, k) of a 3-D array. */
  lemma {:induction false} Read3At(i: nat, j: nat, k: nat, d0: nat, d1: nat, d2: nat, f: bool)
    requires i < d0 && j < d1 && k < d2
    ensures (i * d1 + j) * d2 + k < d0 * (d1 * d2)
    ensures (if f then k * d1 * d0 + j * d0 + i else i * d1 * d2 + j * d2 + k) < d0 * (d1 * d2)
    ensures Src3(d0, d1, d2, f, (i * d1 + j) * d2 + k)
         == if f then k * d1 * d0 + j * d0 + i else i * d1 * d2 + j * d2 + k
  {
    Pos3Bounds(i, j, k, d0, d1, d2);
    Pos3Forms(i, j, k, d0, d1, d2);
    Src3At(i, j, k, d0, d1, d2);
  }

  /** The 2-D branch of convertTensor: two nested loops pushing element (i, j). */
  method Gather2<T>(arr: NpyArray<T>) returns (flat: seq<T>)
    requires arr.Valid() && |arr.shape| == 2
    ensures |flat| == |arr.data|
    ensures forall t :: 0 <= t < |flat| ==>
      Src2(arr.shape[0], arr.shape[1], arr.fortranOrder, t) < |arr.data| &&
      flat[t] == arr.data[Src2(arr.shape[0], arr.shape[1], arr.fortranOrder, t)]
  {
    var nrows, ncols := arr.shape[0], arr.shape[1];
    var f := arr.fortranOrder;
    assert arr.shape == [nrows, ncols];
    Product2(nrows, ncols);
    flat := [];
    for i := 0 to nrows
      invariant |flat| == i * ncols
      invariant forall t :: 0 <= t < |flat| ==>
        Src2(nrows, ncols, f, t) < |arr.data| && flat[t] == arr.data[Src2(nrows, ncols, f, t)]
    {
      for j := 0 to ncols
        invariant |flat| == i * ncols + j
        invariant forall t :: 0 <= t < |flat| ==>
          Src2(nrows, ncols, f, t) < |arr.data| && flat[t] == arr.data[Src2(nrows, ncols, f, t)]
      {
        Read2At(i, j, nrows, ncols, f);
        if f {
          flat := flat + [arr.data[j * nrows + i]];
        } else {
          flat := flat + [arr.data[i * ncols + j]];
        }
      }
      MulSucc(i, ncols);
    }
  }

  /** The 3-D branch of convertTensor: three nested loops pushing element (i, j, k). */
  method Gather3<T>(arr: NpyArray<T>) returns (flat: seq<T>)
    requires arr.Valid() && |arr.shape| == 3
    ensures |flat| == |arr.data|
    ensures forall t :: 0 <= t < |flat| ==>
      Src3(arr.shape[0], arr.shape[1], arr.shape[2], arr.fortranOrder, t) < |arr.data| &&
      flat[t] == arr.data[Src3(arr.shape[0], arr.shape[1], arr.shape[2], arr.fortranOrder, t)]
  {
    var dim0, dim1, dim2 := arr.shape[0], arr.shape[1], arr.shape[2];
    var f := arr.fortranOrder;
    assert arr.shape == [dim0, dim1, dim2];
    Product3(dim0, dim1, dim2);
    flat := [];
    for i := 0 to dim0
      invariant |flat| == i * dim1 * dim2
      invariant forall t :: 0 <= t < |flat| ==>
        Src3(dim0, dim1, dim2, f, t) < |arr.data| && flat[t] == arr.data[Src3(dim0, dim1, dim2, f, t)]
    {
      for j := 0 to dim1
        invariant |flat| == (i * dim1 + j) * dim2
        invariant forall t :: 0 <= t < |flat| ==>
          Src3(dim0, dim1, dim2, f, t) < |arr.data| && flat[t] == arr.data[Src3(dim0, dim1, dim2, f, t)]
      {
        for k := 0 to dim2
          invariant |flat| == (i * dim1 + j) * dim2 + k
          invariant forall t :: 0 <= t < |flat| ==>
            Src3(dim0, dim1, dim2, f, t) < |arr.data| && flat[t] == arr.data[Src3(dim0, dim1, dim2, f, t)]
        {
          Read3At(i, j, k, dim0, dim1, dim2, f);
          if f {
            flat := flat + [arr.data[k * dim1 * dim0 + j * dim0 + i]];
          } else {
            flat := flat + [arr.data[i * dim1 * dim2 + j * dim2 + k]];
          }
        }
        MulSucc(i * dim1 + j, dim2);
      }
      MulSucc(i, dim1);
    }
    MulAssoc(dim0, dim1, dim2);
  }

  /** convertTensor<T>: rejects ranks other than 2 and 3, then pushes the elements one by
      one in row-major output order, reading each from its storage position. */
  method ConvertTensor<T>(arr: NpyArray<T>, dtype: Dtype) returns (r: Result<Tensor<T>>)
    requires arr.Valid()
    ensures r == ConvertResult(arr, dtype)
  {
    if |arr.shape| < 2 || |arr.shape| > 3 {
      return Err(RankError);
    }
    var flat;
    if |arr.shape| == 2 {
      flat := Gather2(arr);
    } else {
      flat := Gather3(arr);
    }
    r := Ok(Tensor(dtype, arr.shape, flat));
    assert flat == Converted(arr, dtype).data;
  }

  predicate Supported(dtype: Dtype)
  {
    dtype.Float32? || dtype.Float64? || dtype.Int32? || dtype.Int64? || dtype.UInt32?
  }

  /** cnpyToTensor: the dtype switch in front of convertTensor. */
  function CnpyToTensor<T>(arr: NpyArray<T>, dtype: Dtype): (r: Result<Tensor<T>>)
    requires arr.Valid()
    ensures r.Ok? <==> Supported(dtype) && 2 <= |arr.shape| <= 3
    ensures !Supported(dtype) ==> r == Err(DtypeError)
    ensures Supported(dtype) && !(2 <= |arr.shape| <= 3) ==> r == Err(RankError)
    ensures r.Ok? ==> r.value.dtype == dtype && r.value.shape == arr.shape && r.value.Valid()
  {
    match dtype
    case Float32 => ConvertResult(arr, dtype)
    case Float64 => ConvertResult(arr, dtype)
    case Int32 => ConvertResult(arr, dtype)
    case Int64 => ConvertResult(arr, dtype)
    case UInt32 => ConvertResult(arr, dtype)
    case OtherDtype(_) => Err(DtypeError)
  }

  // ---------------------------------------------------------------------------
  // What the conversion promises, element by element.

  /** C order, 2-D: the storage is already row-major and is copied unchanged. */
  lemma {:induction false} COrder2<T>(arr: NpyArray<T>, dtype: Dtype, i: nat, j: nat)
    requires arr.Valid() && |arr.shape| == 2 && !arr.fortranOrder
    requires i < arr.shape[0] && j < arr.shape[1]
    ensures i * arr.shape[1] + j < |arr.data|
    ensures Converted(arr, dtype).data[i * arr.shape[1] + j] == arr.data[i * arr.shape[1] + j]
  {
    assert arr.shape == [arr.shape[0], arr.shape[1]];
    Product2(arr.shape[0], arr.shape[1]);
    Src2At(i, j, arr.shape[0], arr.shape[1]);
  }

  /** Fortran order, 2-D: the column-major storage is transposed into row-major. */
  lemma {:induction false} FortranOrder2<T>(arr: NpyArray<T>, dtype: Dtype, i: nat, j: nat)
    requires arr.Valid() && |arr.shape| == 2 && arr.fortranOrder
    requires i < arr.shape[0] && j < arr.shape[1]
    ensures i * arr.shape[1] + j < |arr.data| && j * arr.shape[0] + i < |arr.data|
    ensures Converted(arr, dtype).data[i * arr.shape[1] + j] == arr.data[j * arr.shape[0] + i]
  {
    assert arr.shape == [arr.shape[0], arr.shape[1]];
    Product2(arr.shape[0], arr.shape[1]);
    Src2At(i, j, arr.shape[0], arr.shape[1]);
  }

  /** C order, 3-D: copied unchanged. */
  lemma {:induction false} COrder3<T>(arr: NpyArray<T>, dtype: Dtype, i: nat, j: nat, k: nat)
    requires arr.Valid() && |arr.shape| == 3 && !arr.fortranOrder
    requires i < arr.shape[0] && j < arr.shape[1] && k < arr.shape[2]
    ensures i * arr.shape[1] * arr.shape[2] + j * arr.shape[2] + k < |arr.data|
    ensures Converted(arr, dtype).data[i * arr.shape[1] * arr.shape[2] + j * arr.shape[2] + k]
         == arr.data[i * arr.shape[1] * arr.shape[2] + j * arr.shape[2] + k]
  {
    var d0, d1, d2 := arr.shape[0], arr.shape[1], arr.shape[2];
    assert arr.shape == [d0, d1, d2];
    Product3(d0, d1, d2);
    Pos3Bounds(i, j, k, d0, d1, d2);
    Pos3Forms(i, j, k, d0, d1, d2);
    Src3At(i, j, k, d0, d1, d2);
  }

  /** Fortran order, 3-D: out[i*d1*d2 + j*d2 + k] = data[k*d1*d0 + j*d0 + i]. */
  lemma {:induction false} FortranOrder3<T>(arr: NpyArray<T>, dtype: Dtype, i: nat, j: nat, k: nat)
    requires arr.Valid() && |arr.shape| == 3 && arr.fortranOrder
    requires i < arr.shape[0] && j < arr.shape[1] && k < arr.shape[2]
    ensures i * arr.shape[1] * arr.shape[2] + j * arr.shape[2] + k < |arr.data|
    ensures k * arr.shape[1] * arr.shape[0] + j * arr.shape[0] + i < |arr.data|
    ensures Converted(arr, dtype).data[i * arr.shape[1] * arr.shape[2] + j * arr.shape[2] + k]
         == arr.data[k * arr.shape[1] * arr.shape[0] + j * arr.shape[0] + i]
  {
    var d0, d1, d2 := arr.shape[0], arr.shape[1], arr.shape[2];
    assert arr.shape == [d0, d1, d2];
    Product3(d0, d1, d2);
    Pos3Bounds(i, j, k, d0, d1, d2);
    Pos3Forms(i, j, k, d0, d1, d2);
    Src3At(i, j, k, d0, d1, d2);
  }

  // ---------------------------------------------------------------------------
  // Each stored element is read exactly once: the read-position map is a bijection
  // whose inverse is the same map for the reversed shape.

  lemma {:induction false} Src2Inverse(rows: nat, cols: nat, s: nat)
    requires s < rows * cols
    ensures Src2(cols, rows, true, s) < rows * cols
    ensures Src2(rows, cols, true, Src2(cols, rows, true, s)) == s
  {
    assert s < cols * rows;
    SplitBelow(s, cols, rows);
    var i, j := Rem(s, rows), Quot(s, rows);
    Src2At(i, j, rows, cols);
    assert Src2(cols, rows, true, s) == i * cols + j;
  }

  /** Reading through the reversed shape sends the column-major position of (i, j, k)
      to its row-major position. */
  lemma {:induction false} Src3ReversedAt(i: nat, j: nat, k: nat, d0: nat, d1: nat, d2: nat)
    requires i < d0 && j < d1 && k < d2
    ensures Src3(d2, d1, d0, true, (k * d1 + j) * d0 + i) == (i * d1 + j) * d2 + k
  {
    Src3At(k, j, i, d2, d1, d0);
  }
  /** Reading through the shape itself sends the row-major position back. */
  lemma {:induction false} Src3FortranAt(i: nat, j: nat, k: nat, d0: nat, d1: nat, d2: nat)
    requires i < d0 && j < d1 && k < d2
    ensures Src3(d0, d1, d2, true, (i * d1 + j) * d2 + k) == (k * d1 + j) * d0 + i
  {
    Src3At(i, j, k, d0, d1, d2);
  }
  /** The column-major position of (i, j, k) comes back to itself through both reads. */
  lemma {:induction false} Src3InverseAt(i: nat, j: nat, k: nat, d0: nat, d1: nat, d2: nat)
    requires i < d0 && j < d1 && k < d2
    ensures var s := (k * d1 + j) * d0 + i;
      Src3(d2, d1, d0, true, s) < d0 * (d1 * d2) &&
      Src3(d0, d1, d2, true, Src3(d2, d1, d0, true, s)) == s
  {
    Src3ReversedAt(i, j, k, d0, d1, d2);
    Src3FortranAt(i, j, k, d0, d1, d2);
    Pos3Bounds(i, j, k, d0, d1, d2);
  }

  lemma {:induction false} Src3Inverse(d0: nat, d1: nat, d2: nat, s: nat)
    requires s < d0 * (d1 * d2)
    ensures Src3(d2, d1, d0, true, s) < d0 * (d1 * d2)
    ensures Src3(d0, d1, d2, true, Src3(d2, d1, d0, true, s)) == s
  {
    ProductReversed(d0, d1, d2);
    Split3(s, d2, d1, d0);
    var k, j, i := Quot(Quot(s, d0), d1), Rem(Quot(s, d0), d1), Rem(s, d0);
    Src3InverseAt(i, j, k, d0, d1, d2);
  }

  /** The element read for each output position is distinct, and every stored element
      is read by some output position: the conversion is a permutation of the storage. */
  lemma {:induction false} ReadsEachElementOnce<T>(arr: NpyArray<T>)
    requires arr.Valid() && (|arr.shape| == 2 || |arr.shape| == 3)
    ensures forall t :: 0 <= t < |arr.data| ==> SrcIndex(arr, t) < |arr.data|
    ensures forall t1, t2 :: 0 <= t1 < t2 < |arr.data| ==> SrcIndex(arr, t1) != SrcIndex(arr, t2)
    ensures forall s :: 0 <= s < |arr.data| ==>
      InverseIndex(arr, s) < |arr.data| && s == SrcIndex(arr, InverseIndex(arr, s))
  {
    forall t | 0 <= t < |arr.data| ensures SrcIndex(arr, t) < |arr.data| {
      SrcInRange(arr, t);
    }
    if |arr.shape| == 2 {
      var rows, cols := arr.shape[0], arr.shape[1];
      assert arr.shape == [rows, cols];
      Product2(rows, cols);
      if arr.fortranOrder {
        forall t1, t2 | 0 <= t1 < t2 < |arr.data|
          ensures SrcIndex(arr, t1) != SrcIndex(arr, t2)
        {
          assert t1 < cols * rows && t2 < cols * rows;
          Src2Inverse(cols, rows, t1);
          Src2Inverse(cols, rows, t2);
        }
        forall s | 0 <= s < |arr.data|
          ensures InverseIndex(arr, s) < |arr.data| && s == SrcIndex(arr, InverseIndex(arr, s))
        {
          Src2Inverse(rows, cols, s);
        }
      }
    } else {
      var d0, d1, d2 := arr.shape[0], arr.shape[1], arr.shape[2];
      assert arr.shape == [d0, d1, d2];
      Product3(d0, d1, d2);
      if arr.fortranOrder {
        forall t1, t2 | 0 <= t1 < t2 < |arr.data|
          ensures SrcIndex(arr, t1) != SrcIndex(arr, t2)
        {
          assert t1 < d2 * (d1 * d0) && t2 < d2 * (d1 * d0);
          Src3Inverse(d2, d1, d0, t1);
          Src3Inverse(d2, d1, d0, t2);
        }
        forall s | 0 <= s < |arr.data|
          ensures InverseIndex(arr, s) < |arr.data| && s == SrcIndex(arr, InverseIndex(arr, s))
        {
          Src3Inverse(d0, d1, d2, s);
        }
      }
    }
  }

  /** The output position that reads storage position `s`. */
  function InverseIndex<T>(arr: NpyArray<T>, s: nat): nat
    requires |arr.shape| == 2 || |arr.shape| == 3
  {
    if |arr.shape| == 2 then Src2(arr.shape[1], arr.shape[0], arr.fortranOrder, s)
    else Src3(arr.shape[2], arr.shape[1], arr.shape[0], arr.fortranOrder, s)
  }
}
