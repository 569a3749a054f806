/** The value-level view of a torch tensor used by the loaders: an element type tag,
    a shape and the elements in row-major (C) order. */
module Tensors {

  /** The torch dtypes the sources name; anything else is `OtherDtype`. */
  datatype Dtype = Float32 | Float64 | Int32 | Int64 | UInt32 | OtherDtype(name: string)

  function Product(shape: seq<nat>): nat
  {
    if shape == [] then 1 else shape[0] * Product(shape[1..])
  }

  lemma {:induction false} Product2(a: nat, b: nat)
    ensures Product([a, b]) == a * b
  {
    assert [a, b][1..] == [b];
    assert [b][1..] == [];
    assert Product([b]) == b * Product([]);
  }

  lemma {:induction false} Product3(a: nat, b: nat, c: nat)
    ensures Product([a, b, c]) == a * (b * c)
  {
    assert [a, b, c][1..] == [b, c];
    Product2(b, c);
  }

  datatype Tensor<T> = Tensor(dtype: Dtype, shape: seq<nat>, data: seq<T>)
  {
    predicate Valid() { |data| == Product(shape) }
  }
}
