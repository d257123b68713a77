# Ground-truth numeric utilities, modelled in Dafny

This project models the two small numeric modules of the
mixed-python-rust-ground-truth repository. It proves what those modules
promise, using exact arithmetic.

- **Dataset pipeline** (`src/ground_truth/data_pipeline.py`), module
  `DataPipeline`:
  - `DataPoint` records (a feature vector and an integer label);
  - `batch_iterator`, which cuts a list into contiguous batches;
  - `compute_mean`, the element-wise mean of a list of vectors;
  - `standardize`, the per-dimension z-score with sample variance
    (denominator `max(n - 1, 1)`) and the `1.0` fallback for a standard
    deviation whose variance is not positive.
- **Vector similarity**, in two implementations:
  - the Python reference (`src/ground_truth/similarity.py`), module
    `Similarity`. It raises `ValueError` on a length mismatch, modelled as the
    `ValueError` alternative of a `Result`;
  - the Rust mirror (`src/lib.rs`), module `NativeSimilarity`. It panics on a
    length mismatch (`assert_eq!`), modelled as a precondition. Each Rust
    function's contract says it agrees with the Python function, so the two
    implementations agree wherever Rust is defined, and Python raises exactly
    where Rust panics.
- **Shared helpers**, module `RealSums`: `Sum` (Python's `sum`), squares,
  pairwise products, the zero vector, and a set of lemmas about sums of reals.

Modelling choices:

- Floats are modelled as Dafny `real`, so arithmetic is exact. The tests'
  approximate equalities (`abs(x - y) < 1e-10`) become exact equalities.
- Dafny has no square root. So that no unproved axiom enters the proofs,
  every operation that takes a square root (`l2_norm`,
  `cosine_similarity`, `normalize`, `standardize`) takes the square-root
  function as a parameter `sqrt: real -> real`, with the precondition
  `IsSqrt(sqrt)`. That precondition says: for `x >= 0`, `sqrt(x) >= 0` and
  `sqrt(x) * sqrt(x) == x`. These facts imply that `sqrt(x) == 0` exactly
  when `x == 0` (`RealSums.SqrtZeroIff`), and that `sqrt(y * y) == y` for
  `y >= 0` (`RealSums.SqrtOfSquare`).
- `batch_iterator` is a generator in Python. It is modelled by the method
  `BatchIterator`. The method loops a cursor `i` over
  `range(0, len(data), batch_size)` and appends the clipped slice
  `data[i : i + batch_size]` each step. It returns the finished sequence of
  batches. The method is proved to return the batches given by the
  recursive function `Batches`, and the batching lemmas are stated about
  `Batches`.
- `DataPoint` (src/ground_truth/data_pipeline.py:11-15) is the datatype
  `DataPipeline.DataPoint`, with a feature vector and an integer label.
  `label` is a Dafny keyword, so the field is called `classLabel`. The
  dataclass is never mutated by the core, so a value type is enough.

Two facts about `standardize` under exact arithmetic:

- The standard deviation falls back to `1.0` when `v > 0` fails
  (src/ground_truth/data_pipeline.py:47). The exact variance is never
  negative, so that happens exactly when it is 0, that is, when the feature
  is constant (`VarianceZeroIffConstant`).
- `StandardizedMeanIsZero` holds for every column, whatever its variance.

## Model

| member | source | states |
|---|---|---|
| `DataPipeline.Batches` | src/ground_truth/data_pipeline.py:20-21 | The reference list of batches: none exactly when the data is empty, and every batch holds between 1 and `batch_size` elements. |
| `DataPipeline.BatchIterator` | src/ground_truth/data_pipeline.py:18-21 | The cursor loop returns exactly the batches `Batches(data, batch_size)`. Concatenated in order, they give back `data`. There are `ceil(len(data) / batch_size)` of them. |
| `DataPipeline.FlattenBatches` | src/ground_truth/data_pipeline.py:20-21 | Concatenating the batches in order gives `data` exactly: nothing is dropped, duplicated or reordered. |
| `DataPipeline.BatchCount` | src/ground_truth/data_pipeline.py:20 | The number of batches is `ceil(len(data) / batch_size)`, so empty data yields no batches. |
| `DataPipeline.BatchCountBounds` | src/ground_truth/data_pipeline.py:20 | With `k` batches, `batch_size * k >= len(data)`, and `k` is the least such count. |
| `DataPipeline.BatchAt` | src/ground_truth/data_pipeline.py:21 | Batch `k` starts inside the data and is the slice `data[k*size : min(k*size + size, len(data))]`. |
| `DataPipeline.BatchSizes` | src/ground_truth/data_pipeline.py:20-21 | Every batch but the last has exactly `batch_size` elements. The last is non-empty and has `len(data) - batch_size * (k - 1)` elements. |
| `DataPipeline.TenItemsInBatchesOfThree` | tests/test_pipeline.py:6-10 | Any 10 items in batches of 3 give 4 batches of sizes 3, 3, 3 and 1. |
| `DataPipeline.ComputeMean` | src/ground_truth/data_pipeline.py:24-30 | `[]` for no vectors. Otherwise the result has the first vector's dimension, and `n * mean[i]` is the sum of component `i` over all vectors. |
| `DataPipeline.MeanDeviationsSumToZero` | src/ground_truth/data_pipeline.py:28-30 | The deviations of each component from its mean sum to zero. |
| `DataPipeline.ComputeMeanExample` | tests/test_pipeline.py:13-17 | `compute_mean([[1, 2], [3, 4], [5, 6]]) == [3, 4]`. |
| `DataPipeline.Denominator` | src/ground_truth/data_pipeline.py:44 | The variance denominator `max(n - 1, 1)` is at least 1. It equals `n - 1` once `n >= 2`, and 1 for `n <= 1`. |
| `DataPipeline.Variances` | src/ground_truth/data_pipeline.py:43-46 | One variance per dimension, each non-negative. |
| `DataPipeline.StdDevs` | src/ground_truth/data_pipeline.py:47 | One standard deviation per dimension, always positive, so the division in `standardize` is defined. It squares to the variance where the variance is positive, and is `1.0` otherwise. |
| `DataPipeline.Features` | src/ground_truth/data_pipeline.py:37 | One feature vector per point. They all have one dimension exactly when the points all do. |
| `DataPipeline.FeatureMean` | src/ground_truth/data_pipeline.py:38 | `[]` for no data. Otherwise it has the first point's dimension, and `n * mean[i]` is the sum of feature `i` over all points. |
| `DataPipeline.FeatureVariance` | src/ground_truth/data_pipeline.py:43-46 | One variance per feature dimension, each non-negative. |
| `DataPipeline.FeatureStd` | src/ground_truth/data_pipeline.py:47 | One positive standard deviation per feature dimension. It squares to the feature's variance where that is positive, and is `1.0` otherwise. |
| `DataPipeline.Standardize` | src/ground_truth/data_pipeline.py:33-55 | `[]` for no data. The output has the input's length. Point `j` keeps the label of input point `j`, and every output feature vector has the dimension of the first input's features. |
| `DataPipeline.StandardizedFeature` | src/ground_truth/data_pipeline.py:49-55 | Feature `i` of output point `j` is `(x_ji - mean_i) / std_i`. |
| `DataPipeline.StandardizedColumnSumsToZero` | src/ground_truth/data_pipeline.py:38-51 | Each standardised feature column sums to 0. |
| `DataPipeline.StandardizedMeanIsZero` | src/ground_truth/data_pipeline.py:33-55 | `compute_mean` of the standardised features is the zero vector: zero mean. |
| `DataPipeline.StandardizedUnitVariance` | src/ground_truth/data_pipeline.py:33-55 | Where a feature's variance is positive, the standardised feature's sample variance is exactly 1: unit variance. |
| `DataPipeline.VarianceTimesDenominator` | src/ground_truth/data_pipeline.py:43-46 | Variance times `max(n - 1, 1)` is the sum of squared deviations from the mean. |
| `DataPipeline.VarianceZeroIffConstant` | src/ground_truth/data_pipeline.py:43-47 | A variance is non-negative. It is zero exactly when the feature equals its mean at every point, which is the case that gets the `1.0` fallback. |
| `DataPipeline.ConstantFeatureStandardizesToZero` | src/ground_truth/data_pipeline.py:47-51 | Where the variance is not positive, the standard deviation is `1.0` and every standardised value of that feature is 0. |
| `DataPipeline.SinglePointStandardizesToZero` | src/ground_truth/data_pipeline.py:43-51 | A one-point dataset standardises to all-zero features with its label kept: the denominator clamps to 1 and the deviation is 0. |
| `DataPipeline.StandardizeExample` | tests/test_pipeline.py:20-29 | The test's dataset standardises to `[-1, -1]`, `[0, 0]`, `[1, 1]` with labels 0, 1, 0. Its feature 0 therefore has mean 0. |
| `Similarity.DotProduct` | src/ground_truth/similarity.py:10-14 | A `ValueError` with the source's message exactly when the lengths differ. It never returns a truncated sum. |
| `Similarity.DotProductCommutes` | src/ground_truth/similarity.py:12-14 | `dot_product(a, b) == dot_product(b, a)`, including the error case. |
| `Similarity.DotProductExample` | tests/test_similarity.py:7-8 | `dot_product([1, 2, 3], [4, 5, 6]) == 32`. |
| `Similarity.L2Norm` | src/ground_truth/similarity.py:17-19 | The norm is non-negative and squares to the sum of squares. It is 0 exactly when every component is 0, so the empty vector has norm 0. |
| `Similarity.L2NormExample` | tests/test_similarity.py:11-12 | `l2_norm([3, 4]) == 5`. |
| `Similarity.CosineSimilarity` | src/ground_truth/similarity.py:22-29 | Fails exactly when the lengths differ, with `dot_product`'s own error. Returns `0.0` when either vector has norm 0. Otherwise the result times `norm_a * norm_b` is the dot product. |
| `Similarity.CosineWithSelf` | tests/test_similarity.py:15-17 | For every vector of non-zero norm, `cosine_similarity(v, v) == 1`. |
| `Similarity.OrthogonalExample` | tests/test_similarity.py:20-21 | `[1, 0]` and `[0, 1]` have dot product 0 and cosine similarity 0. |
| `Similarity.Normalize` | src/ground_truth/similarity.py:32-37 | The result has the input's length. For a zero-norm input it is the zero vector of that length; otherwise component `i` is `v[i] / l2_norm(v)`. |
| `Similarity.NormalizeIsUnit` | src/ground_truth/similarity.py:32-37 | For a non-zero vector, `normalize(v)` has sum of squares 1 and norm 1. |
| `Similarity.NormalizeZeroExample` | tests/test_similarity.py:29-30 | `normalize([0, 0]) == [0, 0]`. |
| `Similarity.SelfDotIsSumSquares` | src/ground_truth/similarity.py:14-19 | A vector's dot product with itself is its sum of squares, the value under the square root in `l2_norm`. |
| `NativeSimilarity.FoldSumIsSum` | src/lib.rs:9 | The left fold of `Iterator::sum` gives the same total as `Sum`. |
| `NativeSimilarity.DotProduct` | src/lib.rs:7-10 | Requires equal lengths (the `assert_eq!`). Returns the sum of pairwise products of the zipped slices, which is what the Python function returns. |
| `NativeSimilarity.L2Norm` | src/lib.rs:13-15 | Non-negative, zero exactly for the zero vector, and equal to the Python `l2_norm`. |
| `NativeSimilarity.CosineSimilarity` | src/lib.rs:18-26 | `0.0` if either norm is 0. Otherwise the result times `norm_a * norm_b` is the dot product. Equal to the Python result. |
| `NativeSimilarity.Normalize` | src/lib.rs:29-35 | Keeps the input's length. Returns `vec![0.0; v.len()]` for a zero-norm input. Equal to the Python `normalize`. |
| `NativeSimilarity.PythonRaisesWhereRustPanics` | src/lib.rs:8 | On unequal lengths, the Python `dot_product` and `cosine_similarity` raise the length error (where Rust panics). On equal lengths, they return the Rust results. |
| `NativeSimilarity.DotProductExample` | src/lib.rs:41-44 | `dot_product(&[1, 2, 3], &[4, 5, 6]) == 32`. |
| `NativeSimilarity.L2NormExample` | src/lib.rs:46-50 | `l2_norm(&[3, 4]) == 5`. |
| `NativeSimilarity.CosineWithSelf` | src/lib.rs:52-57 | For every non-zero `v`, `cosine_similarity(v, v) == 1`. |
| `NativeSimilarity.OrthogonalExample` | src/lib.rs:59-63 | `[1, 0]` and `[0, 1]` give dot product 0 and cosine 0. |
| `NativeSimilarity.NormalizeIsUnit` | src/lib.rs:65-70 | For every non-zero `v`, `l2_norm(normalize(v)) == 1`. |
| `NativeSimilarity.NormalizeZeroExample` | src/lib.rs:72-76 | `normalize(&[0, 0]) == vec![0, 0]`. |
| `RealSums.Zeros` | src/ground_truth/similarity.py:36 | The zero vector `[0.0] * n` (`vec![0.0; n]` at src/lib.rs:32): length `n`, every component 0. |
| `RealSums.SqrtZeroIff` | src/ground_truth/similarity.py:19 | The square root of a non-negative number is non-negative, and is 0 exactly at 0. |
| `RealSums.SqrtOfSquare` | src/lib.rs:14 | The square root of `y * y` is `y` for `y >= 0`. |
| `RealSums.SumSquaresZeroIff` | src/ground_truth/similarity.py:19 | `sum(x * x for x in v)` is non-negative, and is 0 exactly when every component is 0. |

## Left out

- IEEE-754 rounding, and the `1e-10` tolerances of the tests. All arithmetic
  is exact `real` arithmetic, and nothing is claimed about float accuracy.
- The numeric value of `math.sqrt`, `** 0.5` and `f64::sqrt`. The square root
  is a parameter that satisfies `IsSqrt`, and nothing else about its value is
  assumed.
- The claim at the top of `src/lib.rs` that Python calls the Rust functions
  through PyO3 or a subprocess. No binding code exists to model; the two
  implementations are related only by the agreement contracts.
- The laziness and single use of the `batch_iterator` generator.
  `BatchIterator` returns all batches at once.
- `batch_size <= 0`: the model requires `batch_size >= 1`. Python's `range`
  raises on step 0 and yields nothing for a negative step.
- Ragged inputs to `compute_mean` and `standardize`: the model requires every
  vector to have the first vector's dimension. In the source, a shorter later
  vector raises `IndexError` and a longer one is silently truncated.
- The `[-1, 1]` range of cosine similarity (the Cauchy–Schwarz inequality).
  The source does not check it, and it is not proved here.
- Rust's `f64` sum may start from `-0.0`. Signed zeros do not exist in exact
  arithmetic, so this is not modelled.
