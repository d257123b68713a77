/** The Rust implementation of the vector similarity functions (src/lib.rs).
    Each is an iterator chain over borrowed slices; `assert_eq!` on the
    lengths panics, so equal lengths are a precondition here. Every function
    is proved to agree with the Python reference wherever the Rust one is
    defined, which is what the repository's cross-language checks rely on. */
module NativeSimilarity {
  import opened RealSums
  import Similarity

  /** `Iterator::sum` on `f64`: a left fold with `+`, starting from `acc`. */
  function FoldSum(s: seq<real>, acc: real): real
    decreases |s|
  {
    if |s| == 0 then acc else FoldSum(s[1..], acc + s[0])
  }

  /** Folding from the left gives the same total as `Sum`. */
  lemma {:induction false} FoldSumIsSum(s: seq<real>, acc: real)
    ensures FoldSum(s, acc) == acc + Sum(s)
  {
    if |s| > 0 {
      FoldSumIsSum(s[1..], acc + s[0]);
    }
  }

  /** `dot_product(a, b)`: `a.iter().zip(b.iter()).map(|(x, y)| x * y).sum()`. */
  function DotProduct(a: Vector, b: Vector): (r: real)
    requires |a| == |b|
    ensures r == Sum(Products(a, b))
    ensures Similarity.DotProduct(a, b) == Similarity.Ok(r)
  {
    FoldSumIsSum(Products(a, b), 0.0);
    FoldSum(Products(a, b), 0.0)
  }

  /** `l2_norm(v)`: `v.iter().map(|x| x * x).sum::<f64>().sqrt()`. */
  function L2Norm(sqrt: real -> real, v: Vector): (r: real)
    requires IsSqrt(sqrt)
    ensures r >= 0.0
    ensures r == 0.0 <==> IsZero(v)
    ensures r == Similarity.L2Norm(sqrt, v)
  {
    FoldSumIsSum(Squares(v), 0.0);
    SumSquaresZeroIff(v);
    SqrtZeroIff(sqrt, SumSquares(v));
    sqrt(FoldSum(Squares(v), 0.0))
  }

  /** `cosine_similarity(a, b)`: `0.0` when either norm is zero, otherwise
      `dot / (norm_a * norm_b)`. */
  function CosineSimilarity(sqrt: real -> real, a: Vector, b: Vector): (r: real)
    requires IsSqrt(sqrt) && |a| == |b|
    ensures IsZero(a) || IsZero(b) ==> r == 0.0
    ensures !IsZero(a) && !IsZero(b) ==>
      r * (L2Norm(sqrt, a) * L2Norm(sqrt, b)) == DotProduct(a, b)
    ensures Similarity.CosineSimilarity(sqrt, a, b) == Similarity.Ok(r)
  {
    var dot := DotProduct(a, b);
    var normA := L2Norm(sqrt, a);
    var normB := L2Norm(sqrt, b);
    if normA == 0.0 || normB == 0.0 then 0.0
    else
      var product := normA * normB;
      ZeroProduct(normA, normB);
      assert product == Similarity.L2Norm(sqrt, a) * Similarity.L2Norm(sqrt, b);
      assert Similarity.CosineSimilarity(sqrt, a, b).value == dot / product;
      dot / product
  }

  /** `normalize(v)`: `vec![0.0; v.len()]` when the norm is zero, otherwise
      `v.iter().map(|x| x / norm).collect()`. */
  function Normalize(sqrt: real -> real, v: Vector): (r: Vector)
    requires IsSqrt(sqrt)
    ensures |r| == |v|
    ensures IsZero(v) ==> r == Zeros(|v|)
    ensures r == Similarity.Normalize(sqrt, v)
  {
    var norm := L2Norm(sqrt, v);
    if norm == 0.0 then Zeros(|v|)
    else seq(|v|, i requires 0 <= i < |v| => v[i] / norm)
  }

  /** The Python function raises exactly where the Rust one panics, and the
      two agree everywhere else. */
  lemma PythonRaisesWhereRustPanics(sqrt: real -> real, a: Vector, b: Vector)
    requires IsSqrt(sqrt)
    ensures |a| != |b| ==>
      Similarity.DotProduct(a, b) == Similarity.ValueError(Similarity.LengthMismatch) &&
      Similarity.CosineSimilarity(sqrt, a, b) == Similarity.ValueError(Similarity.LengthMismatch)
    ensures |a| == |b| ==>
      Similarity.DotProduct(a, b) == Similarity.Ok(DotProduct(a, b)) &&
      Similarity.CosineSimilarity(sqrt, a, b) == Similarity.Ok(CosineSimilarity(sqrt, a, b))
  {
  }

  /** `test_dot_product`: `[1, 2, 3] . [4, 5, 6] == 32`. */
  lemma DotProductExample()
    ensures DotProduct([1.0, 2.0, 3.0], [4.0, 5.0, 6.0]) == 32.0
  {
    Similarity.DotProductExample();
  }

  /** `test_l2_norm`: the norm of `[3, 4]` is 5. */
  lemma L2NormExample(sqrt: real -> real)
    requires IsSqrt(sqrt)
    ensures L2Norm(sqrt, [3.0, 4.0]) == 5.0
  {
    Similarity.L2NormExample(sqrt);
  }

  /** `test_cosine_similarity_identical`, for every non-zero vector. */
  lemma CosineWithSelf(sqrt: real -> real, v: Vector)
    requires IsSqrt(sqrt) && !IsZero(v)
    ensures CosineSimilarity(sqrt, v, v) == 1.0
  {
    Similarity.CosineWithSelf(sqrt, v);
  }

  /** `test_cosine_similarity_orthogonal`: `[1, 0]` and `[0, 1]`. */
  lemma OrthogonalExample(sqrt: real -> real)
    requires IsSqrt(sqrt)
    ensures DotProduct([1.0, 0.0], [0.0, 1.0]) == 0.0
    ensures CosineSimilarity(sqrt, [1.0, 0.0], [0.0, 1.0]) == 0.0
  {
    Similarity.OrthogonalExample(sqrt);
  }

  /** `test_normalize`, for every non-zero vector: the result has norm 1. */
  lemma NormalizeIsUnit(sqrt: real -> real, v: Vector)
    requires IsSqrt(sqrt) && !IsZero(v)
    ensures L2Norm(sqrt, Normalize(sqrt, v)) == 1.0
  {
    Similarity.NormalizeIsUnit(sqrt, v);
  }

  /** `test_normalize_zero_vector`: `normalize(&[0, 0]) == vec![0, 0]`. */
  lemma NormalizeZeroExample(sqrt: real -> real)
    requires IsSqrt(sqrt)
    ensures Normalize(sqrt, [0.0, 0.0]) == [0.0, 0.0]
  {
  }
}
