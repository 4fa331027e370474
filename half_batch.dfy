/** The batch `half_to_float` of src/pygli.cpp: a fresh float32 buffer of the
    input's shape, filled element by element with the scalar half-to-float
    conversion of the matching input element.

    The scalar conversion lives in a header that is not part of this model;
    it is the parameter `conv`, an arbitrary total map from 16-bit patterns
    to 32-bit patterns. */
module HalfBatch {

  /** Number of elements of an array of the given shape. */
  function Product(dims: seq<nat>): nat
  {
    if |dims| == 0 then 1 else dims[0] * Product(dims[1..])
  }

  /** Multiplying in one more dimension, as the length loop does. */
  lemma {:induction false} ProductSnoc(dims: seq<nat>, d: nat)
    ensures Product(dims + [d]) == Product(dims) * d
  {
    if |dims| == 0 {
      assert dims + [d] == [d];
    } else {
      assert (dims + [d])[1..] == dims[1..] + [d];
      ProductSnoc(dims[1..], d);
      assert Product(dims + [d]) == dims[0] * (Product(dims[1..]) * d);
    }
  }

  /** The element-wise conversion of a sequence of half-precision patterns. */
  function DecodeHalves(conv: bv16 -> bv32, halves: seq<bv16>): (words: seq<bv32>)
    ensures |words| == |halves|
    ensures forall i :: 0 <= i < |halves| ==> words[i] == conv(halves[i])
  {
    if |halves| == 0 then [] else [conv(halves[0])] + DecodeHalves(conv, halves[1..])
  }

  /** Allocates the output for the input's shape, computes the element count
      as the product of the dimensions, and converts every element. The input
      is only read: the method modifies nothing that existed before it. */
  method HalfToFloat(conv: bv16 -> bv32, shape: seq<nat>, input: array<bv16>) returns (output: array<bv32>)
    requires input.Length == Product(shape)
    ensures fresh(output)
    ensures output.Length == Product(shape)
    ensures forall i :: 0 <= i < output.Length ==> output[i] == conv(input[i])
    ensures output[..] == DecodeHalves(conv, input[..])
  {
    output := new bv32[input.Length];
    var length := 1;
    for n := 0 to |shape|
      invariant length == Product(shape[..n])
    {
      assert shape[..n + 1] == shape[..n] + [shape[n]];
      ProductSnoc(shape[..n], shape[n]);
      length := length * shape[n];
    }
    assert shape[..|shape|] == shape;
    for x := 0 to length
      invariant forall i :: 0 <= i < x ==> output[i] == conv(input[i])
    {
      output[x] := conv(input[x]);
    }
  }
}
