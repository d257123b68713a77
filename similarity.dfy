/** The Python reference implementation of the vector similarity functions
    (src/ground_truth/similarity.py). A length mismatch raises `ValueError`
    there; here it is the `ValueError` alternative of a result. */
module Similarity {
  import opened RealSums

  /** The message `dot_product` raises on a length mismatch. */
  const LengthMismatch: string := "vectors must have equal length"

  /** A value, or the `ValueError` the Python function raises instead. */
  datatype Result<T> = Ok(value: T) | ValueError(message: string)

  /** `dot_product(a, b)`: the sum of pairwise products, or a length-mismatch
      error. It never truncates to the shorter vector. */
  function DotProduct(a: Vector, b: Vector): (r: Result<real>)
    ensures r.ValueError? <==> |a| != |b|
    ensures r.ValueError? ==> r.message == LengthMismatch
  {
    if |a| != |b| then ValueError(LengthMismatch)
    else Ok(Sum(Products(a, b)))
  }

  /** `l2_norm(v)`: the square root of the sum of squares. */
  function L2Norm(sqrt: real -> real, v: Vector): (r: real)
    requires IsSqrt(sqrt)
    ensures r >= 0.0
    ensures r * r == SumSquares(v)
    ensures r == 0.0 <==> IsZero(v)
  {
    SumSquaresZeroIff(v);
    SqrtZeroIff(sqrt, SumSquares(v));
    sqrt(SumSquares(v))
  }

  /** `cosine_similarity(a, b)`: the dot product divided by the product of
      the norms, `0.0` when either norm is zero, and the dot product's error
      when the lengths differ. */
  function CosineSimilarity(sqrt: real -> real, a: Vector, b: Vector): (r: Result<real>)
    requires IsSqrt(sqrt)
    ensures r.ValueError? <==> |a| != |b|
    ensures r.ValueError? ==> r == DotProduct(a, b)
    ensures r.Ok? && (IsZero(a) || IsZero(b)) ==> r.value == 0.0
    ensures r.Ok? && !IsZero(a) && !IsZero(b) ==>
      r.value * (L2Norm(sqrt, a) * L2Norm(sqrt, b)) == DotProduct(a, b).value
  {
    var dot := DotProduct(a, b);
    if dot.ValueError? then dot
    else
      var normA := L2Norm(sqrt, a);
      var normB := L2Norm(sqrt, b);
      if normA == 0.0 || normB == 0.0 then Ok(0.0)
      else
        ZeroProduct(normA, normB);
        Ok(dot.value / (normA * normB))
  }

  /** `normalize(v)`: `v` scaled to unit length, or the zero vector of the
      same length when `v` has norm zero. */
  function Normalize(sqrt: real -> real, v: Vector): (r: Vector)
    requires IsSqrt(sqrt)
    ensures |r| == |v|
    ensures IsZero(v) ==> r == Zeros(|v|)
    ensures !IsZero(v) ==> forall i :: 0 <= i < |v| ==> r[i] == v[i] / L2Norm(sqrt, v)
  {
    var norm := L2Norm(sqrt, v);
    if norm == 0.0 then Zeros(|v|)
    else seq(|v|, i requires 0 <= i < |v| => v[i] / norm)
  }

  /** The dot product is symmetric, including its error case. */
  lemma {:induction false} DotProductCommutes(a: Vector, b: Vector)
    ensures DotProduct(a, b) == DotProduct(b, a)
  {
    if |a| == |b| {
      assert Products(a, b) == Products(b, a) by {
        forall i | 0 <= i < |a| ensures Products(a, b)[i] == Products(b, a)[i] {
          assert a[i] * b[i] == b[i] * a[i];
        }
      }
    }
  }

  /** A vector's dot product with itself is its sum of squares. */
  lemma SelfDotIsSumSquares(v: Vector)
    ensures DotProduct(v, v) == Ok(SumSquares(v))
  {
    assert Products(v, v) == Squares(v);
  }

  /** For a vector of non-zero norm the cosine similarity with itself is 1. */
  lemma CosineWithSelf(sqrt: real -> real, v: Vector)
    requires IsSqrt(sqrt) && !IsZero(v)
    ensures CosineSimilarity(sqrt, v, v) == Ok(1.0)
  {
    var norm := L2Norm(sqrt, v);
    SelfDotIsSumSquares(v);
    SumSquaresZeroIff(v);
    assert norm * norm == SumSquares(v) != 0.0;
    DivideBySelf(SumSquares(v));
  }

  /** For a vector of non-zero norm, each component of `normalize(v)` is that
      of `v` divided by its norm, and the result has sum of squares 1 and
      hence norm 1. */
  lemma {:induction false} NormalizeIsUnit(sqrt: real -> real, v: Vector)
    requires IsSqrt(sqrt) && !IsZero(v)
    ensures SumSquares(Normalize(sqrt, v)) == 1.0
    ensures L2Norm(sqrt, Normalize(sqrt, v)) == 1.0
  {
    var norm := L2Norm(sqrt, v);
    var s := SumSquares(v);
    SumSquaresZeroIff(v);
    assert norm * norm == s && s != 0.0;
    SumSquaresScaled(v, Normalize(sqrt, v), norm);
    DivideBySelf(s);
    SqrtOfSquare(sqrt, 1.0);
  }

  /** The literal scenario `dot_product([1, 2, 3], [4, 5, 6]) == 32`. */
  lemma DotProductExample()
    ensures DotProduct([1.0, 2.0, 3.0], [4.0, 5.0, 6.0]) == Ok(32.0)
  {
    var p := Products([1.0, 2.0, 3.0], [4.0, 5.0, 6.0]);
    assert p == [4.0, 10.0, 18.0];
    assert p[1..] == [10.0, 18.0] && p[2..] == [18.0] && p[3..] == [];
  }

  /** The literal scenario `l2_norm([3, 4]) == 5`. */
  lemma L2NormExample(sqrt: real -> real)
    requires IsSqrt(sqrt)
    ensures L2Norm(sqrt, [3.0, 4.0]) == 5.0
  {
    var q := Squares([3.0, 4.0]);
    assert q == [9.0, 16.0];
    assert q[1..] == [16.0] && q[2..] == [];
    assert SumSquares([3.0, 4.0]) == 25.0 == 5.0 * 5.0;
    SqrtOfSquare(sqrt, 5.0);
  }

  /** The literal scenario: `[1, 0]` and `[0, 1]` are orthogonal, so their
      cosine similarity is 0. */
  lemma OrthogonalExample(sqrt: real -> real)
    requires IsSqrt(sqrt)
    ensures DotProduct([1.0, 0.0], [0.0, 1.0]) == Ok(0.0)
    ensures CosineSimilarity(sqrt, [1.0, 0.0], [0.0, 1.0]) == Ok(0.0)
  {
    var p := Products([1.0, 0.0], [0.0, 1.0]);
    assert p == [0.0, 0.0];
    assert p[1..] == [0.0] && p[2..] == [];
    var a: Vector, b: Vector := [1.0, 0.0], [0.0, 1.0];
    assert a[0] != 0.0 && b[1] != 0.0;
  }

  /** The literal scenario `normalize([0, 0]) == [0, 0]`. */
  lemma NormalizeZeroExample(sqrt: real -> real)
    requires IsSqrt(sqrt)
    ensures Normalize(sqrt, [0.0, 0.0]) == [0.0, 0.0]
  {
  }
}
