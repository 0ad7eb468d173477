/**
 * `convert_index_points`: the shape arithmetic that turns an (N, D) feature
 * array into GP index points with D - 1 trailing singleton dimensions, so that
 * the kernel's `feature_ndims` (set to D by the trainer) matches the tensor.
 * The values themselves are only reshaped, so the model works on the shape.
 */
module IndexPoints {
  import opened Wrappers

  /** Reading `shape[1]` of an array of rank below two raises IndexError. */
  datatype ShapeError = IndexError

  /** Python's `(1,) * k`: k ones, and the empty tuple when k is not positive. */
  function Ones(k: int): (r: seq<nat>)
    ensures |r| == if k > 0 then k else 0
    ensures forall i :: 0 <= i < |r| ==> r[i] == 1
    decreases k
  {
    if k <= 0 then [] else [1] + Ones(k - 1)
  }

  /** The number of elements of an array of the given shape. */
  function Product(shape: seq<nat>): nat {
    if shape == [] then 1 else shape[0] * Product(shape[1..])
  }

  /** The new shape `shape + (1,) * (shape[1] - 1)`, or IndexError for rank 0 and 1. */
  function ConvertIndexPoints(shape: seq<nat>): (r: Result<seq<nat>, ShapeError>)
    ensures r.Failure? <==> |shape| < 2
    ensures r.Success? ==> |r.value| >= |shape| && r.value[..|shape|] == shape
    ensures r.Success? ==>
      |r.value| == |shape| + (if shape[1] > 1 then shape[1] - 1 else 0)
    ensures r.Success? ==> forall i :: |shape| <= i < |r.value| ==> r.value[i] == 1
  {
    if |shape| < 2 then Failure(IndexError)
    else Success(shape + Ones(shape[1] as int - 1))
  }

  lemma {:induction false} ProductOfConcat(a: seq<nat>, b: seq<nat>)
    ensures Product(a + b) == Product(a) * Product(b)
  {
    if a == [] {
      assert a + b == b;
    } else {
      assert (a + b)[1..] == a[1..] + b;
      ProductOfConcat(a[1..], b);
      calc {
        Product(a + b);
        a[0] * Product(a[1..] + b);
        a[0] * (Product(a[1..]) * Product(b));
        (a[0] * Product(a[1..])) * Product(b);
      }
    }
  }

  lemma {:induction false} ProductOfOnes(k: int)
    ensures Product(Ones(k)) == 1
    decreases k
  {
    if k > 0 {
      assert Ones(k)[1..] == Ones(k - 1);
      ProductOfOnes(k - 1);
    }
  }

  /**
   * The reshaped tensor holds exactly as many elements as the array, for every
   * input of rank two or more, so `tf.constant(array, shape=...)` accepts it.
   */
  lemma ElementCountPreserved(shape: seq<nat>)
    requires |shape| >= 2
    ensures ConvertIndexPoints(shape).Success?
    ensures Product(ConvertIndexPoints(shape).value) == Product(shape)
  {
    var ones := Ones(shape[1] as int - 1);
    ProductOfConcat(shape, ones);
    ProductOfOnes(shape[1] as int - 1);
    assert Product(shape + ones) == Product(shape) * 1;
  }

  /**
   * On an (N, D) matrix with D >= 1 the result is (N, D, 1, ..., 1) with D - 1
   * ones: rank D + 1, and N * D elements.
   */
  lemma MatrixShape(n: nat, d: nat)
    requires d >= 1
    ensures ConvertIndexPoints([n, d]).Success?
    ensures ConvertIndexPoints([n, d]).value == [n, d] + Ones(d - 1)
    ensures |ConvertIndexPoints([n, d]).value| == d + 1
    ensures Product(ConvertIndexPoints([n, d]).value) == n * d
  {
    ElementCountPreserved([n, d]);
    assert Product([d]) == d * Product([]);
  }

  /** With D = 0 the repetition count is negative and the shape is left as it is. */
  lemma DegenerateWidthUnchanged(n: nat)
    ensures ConvertIndexPoints([n, 0]) == Success([n, 0])
  {
    assert [n, 0] + Ones(-1) == [n, 0];
  }
}
