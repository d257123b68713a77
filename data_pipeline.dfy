/** The dataset pipeline (src/ground_truth/data_pipeline.py): labelled data
    points, batching, the element-wise mean and z-score standardisation.
    Floating point is modelled by exact `real` arithmetic. */
module DataPipeline {
  import opened RealSums

  /** A single data point with features and label (`label` is a Dafny
      keyword, hence the field name). */
  datatype DataPoint = DataPoint(features: Vector, classLabel: int)

  // ---------------------------------------------------------------------
  // Batching
  // ---------------------------------------------------------------------

  /** The batches `batch_iterator` yields, as a sequence: the first `size`
      elements, then the batches of the rest; a last short slice is kept.
      No data gives no batches, and every batch holds between 1 and `size`
      elements. */
  function Batches<T>(data: seq<T>, size: nat): (r: seq<seq<T>>)
    requires size >= 1
    ensures |r| == 0 <==> |data| == 0
    ensures forall k :: 0 <= k < |r| ==> 0 < |r[k]| <= size
    decreases |data|
  {
    if |data| == 0 then []
    else if |data| <= size then [data]
    else [data[..size]] + Batches(data[size..], size)
  }

  /** The concatenation of a sequence of batches, in order. */
  function Flatten<T>(batches: seq<seq<T>>): seq<T>
  {
    if |batches| == 0 then [] else batches[0] + Flatten(batches[1..])
  }

  /** `ceil(n / d)` for a positive divisor. */
  function CeilDiv(n: nat, d: nat): nat
    requires d >= 1
  {
    (n + d - 1) / d
  }

  /** The end of a slice that Python clips at the length of the data. */
  function Min(a: int, b: int): int
  {
    if a <= b then a else b
  }

  /** `batch_iterator(data, batch_size)`: a cursor `i` runs over
      `range(0, len(data), batch_size)` and each step appends the slice
      `data[i : i + batch_size]`, which Python clips at the end of `data`. */
  method BatchIterator<T>(data: seq<T>, batchSize: nat) returns (batches: seq<seq<T>>)
    requires batchSize >= 1
    ensures batches == Batches(data, batchSize)
    ensures Flatten(batches) == data
    ensures |batches| == CeilDiv(|data|, batchSize)
  {
    batches := [];
    var i: nat := 0;
    while i < |data|
      invariant Batches(data, batchSize) == batches + Batches(data[Min(i, |data|)..], batchSize)
      decreases |data| - i
    {
      var batch := data[i..Min(i + batchSize, |data|)];
      ghost var next := data[Min(i + batchSize, |data|)..];
      BatchStep(data, batchSize, i);
      assert batches + Batches(data[i..], batchSize) == (batches + [batch]) + Batches(next, batchSize);
      batches := batches + [batch];
      i := i + batchSize;
    }
    FlattenBatches(data, batchSize);
    BatchCount(data, batchSize);
  }

  /** The batches from cursor `i` on are the slice at `i` followed by the
      batches from the next cursor. */
  lemma BatchStep<T>(data: seq<T>, size: nat, i: nat)
    requires size >= 1 && i < |data|
    ensures Batches(data[i..], size)
         == [data[i..Min(i + size, |data|)]] + Batches(data[Min(i + size, |data|)..], size)
  {
    var rest, batch := data[i..], data[i..Min(i + size, |data|)];
    var next := data[Min(i + size, |data|)..];
    if |rest| > size {
      assert rest[..size] == batch;
      assert rest[size..] == next;
    } else {
      assert rest == batch && next == [];
    }
  }

  /** Concatenating the batches gives back the data: nothing is dropped,
      duplicated or reordered. */
  lemma {:induction false} FlattenBatches<T>(data: seq<T>, size: nat)
    requires size >= 1
    ensures Flatten(Batches(data, size)) == data
    decreases |data|
  {
    if |data| > size {
      var b := Batches(data, size);
      assert b[1..] == Batches(data[size..], size);
      FlattenBatches(data[size..], size);
      assert data == data[..size] + data[size..];
    } else if |data| > 0 {
      assert Flatten(Batches(data, size)) == data + Flatten([]);
    }
  }

  /** There are `ceil(len(data) / size)` batches; empty data gives none. */
  lemma BatchCount<T>(data: seq<T>, size: nat)
    requires size >= 1
    ensures |Batches(data, size)| == CeilDiv(|data|, size)
  {
    var k := |Batches(data, size)|;
    BatchCountBounds(data, size);
    CeilDivUnique(|data|, size, k);
  }

  /** The batches cover the data, and one batch fewer would not. */
  lemma {:induction false} BatchCountBounds<T>(data: seq<T>, size: nat)
    requires size >= 1
    ensures var k := |Batches(data, size)|;
      size * k >= |data| && (k == 0 || size * (k - 1) < |data|)
    decreases |data|
  {
    if |data| > size {
      var k' := |Batches(data[size..], size)|;
      BatchCountBounds(data[size..], size);
      assert size * (k' + 1) == size * k' + size;
      assert size * (k' - 1) == size * k' - size;
    }
  }

  /** `n <= d * k` with `k` least is exactly `k == ceil(n / d)`. */
  lemma CeilDivUnique(n: nat, d: nat, k: nat)
    requires d >= 1 && d * k >= n && (k == 0 || d * (k - 1) < n)
    ensures CeilDiv(n, d) == k
  {
    if k == 0 {
      DivUnique(n + d - 1, d, 0);
    } else {
      assert d * (k - 1) == d * k - d;
      DivUnique(n + d - 1, d, k);
    }
  }

  /** Euclidean division is determined by its bounds. */
  lemma DivUnique(x: int, d: int, q: int)
    requires d >= 1 && d * q <= x < d * q + d
    ensures x / d == q
  {
    var q0, r0 := x / d, x % d;
    assert x == d * q0 + r0 && 0 <= r0 < d;
    assert d * (q0 - q) == (x - d * q) - r0;
    MulBetween(d, q0 - q);
  }

  /** A multiple of `d` strictly between `-d` and `d` is zero. */
  lemma MulBetween(d: int, k: int)
    requires d >= 1 && -d < d * k < d
    ensures k == 0
  {
    if k >= 1 {
      MulMonotone(d, 1, k);
    } else if k <= -1 {
      MulMonotone(d, k, -1);
    }
  }

  /** Multiplying by a positive `d` preserves `<=`. */
  lemma MulMonotone(d: int, k: int, m: int)
    requires d >= 1 && k <= m
    ensures d * k <= d * m
  {
    assert d * m - d * k == d * (m - k);
  }

  /** Batch `k` is the contiguous slice starting at `k * size`, clipped at
      the end of the data. */
  lemma {:induction false} BatchAt<T>(data: seq<T>, size: nat, k: nat)
    requires size >= 1 && k < |Batches(data, size)|
    ensures k * size < |data|
    ensures Batches(data, size)[k] == data[k * size .. Min(k * size + size, |data|)]
    decreases |data|
  {
    if k > 0 {
      var rest := data[size..];
      assert Batches(data, size)[k] == Batches(rest, size)[k - 1];
      BatchAt(rest, size, k - 1);
      var lo := (k - 1) * size;
      assert lo + size == k * size;
      assert rest[lo .. Min(lo + size, |rest|)] == data[k * size .. Min(k * size + size, |data|)];
    }
  }

  /** Every batch but the last holds exactly `size` elements; the last is
      non-empty and holds what remains after the full ones. */
  lemma BatchSizes<T>(data: seq<T>, size: nat)
    requires size >= 1
    ensures var b := Batches(data, size);
      (forall k :: 0 <= k < |b| - 1 ==> |b[k]| == size) &&
      (|b| > 0 ==> 0 < |b[|b| - 1]| == |data| - size * (|b| - 1))
  {
    var b := Batches(data, size);
    forall k | 0 <= k < |b| - 1 ensures |b[k]| == size {
      FullBatch(data, size, k);
    }
    if |b| > 0 {
      LastBatch(data, size);
    }
  }

  /** A batch that is not the last one is full. */
  lemma FullBatch<T>(data: seq<T>, size: nat, k: nat)
    requires size >= 1 && k + 1 < |Batches(data, size)|
    ensures |Batches(data, size)[k]| == size
  {
    BatchAt(data, size, k);
    BatchAt(data, size, k + 1);
    assert (k + 1) * size == k * size + size;
  }

  /** The last batch is non-empty and holds what the full batches leave. */
  lemma LastBatch<T>(data: seq<T>, size: nat)
    requires size >= 1 && |Batches(data, size)| > 0
    ensures var b := Batches(data, size);
      0 < |b[|b| - 1]| == |data| - size * (|b| - 1)
  {
    var b := Batches(data, size);
    var last := |b| - 1;
    BatchAt(data, size, last);
    BatchCountBounds(data, size);
    assert size * last == last * size;
    assert size * |b| == last * size + size;
  }

  /** The literal scenario: ten items in batches of three give four
      batches of sizes 3, 3, 3 and 1. */
  lemma TenItemsInBatchesOfThree<T>(data: seq<T>)
    requires |data| == 10
    ensures |Batches(data, 3)| == 4
    ensures |Batches(data, 3)[0]| == 3 && |Batches(data, 3)[1]| == 3
    ensures |Batches(data, 3)[2]| == 3 && |Batches(data, 3)[3]| == 1
  {
    CeilDivUnique(10, 3, 4);
    BatchCount(data, 3);
    BatchSizes(data, 3);
  }

  // ---------------------------------------------------------------------
  // Mean
  // ---------------------------------------------------------------------

  /** Every vector has the dimension of the first one. */
  predicate SameDimension(vectors: seq<Vector>)
  {
    forall j :: 0 <= j < |vectors| ==> |vectors[j]| == |vectors[0]|
  }

  /** Component `i` of every vector, in order (`v[i] for v in vectors`). */
  function Column(vectors: seq<Vector>, i: nat): (c: seq<real>)
    requires forall j :: 0 <= j < |vectors| ==> i < |vectors[j]|
    ensures |c| == |vectors|
  {
    seq(|vectors|, j requires 0 <= j < |vectors| => vectors[j][i])
  }

  /** `compute_mean(vectors)`: `[]` for no vectors, otherwise component `i`
      is `sum(v[i] for v in vectors) / n` for `i` in `range(len(vectors[0]))`. */
  function ComputeMean(vectors: seq<Vector>): (mean: Vector)
    requires SameDimension(vectors)
    ensures |vectors| == 0 ==> mean == []
    ensures |vectors| > 0 ==> |mean| == |vectors[0]|
    ensures forall i :: 0 <= i < |mean| ==> (|vectors| as real) * mean[i] == Sum(Column(vectors, i))
  {
    if |vectors| == 0 then []
    else
      var n := |vectors| as real;
      seq(|vectors[0]|, i requires 0 <= i < |vectors[0]| => Sum(Column(vectors, i)) / n)
  }

  /** The deviations `x - m` of a column from a value `m`. */
  function Deviations(column: seq<real>, m: real): (d: seq<real>)
    ensures |d| == |column|
  {
    seq(|column|, j requires 0 <= j < |column| => column[j] - m)
  }

  /** The deviations of each column from the mean sum to zero: the mean is
      the balance point of the data. */
  lemma MeanDeviationsSumToZero(vectors: seq<Vector>, i: nat)
    requires SameDimension(vectors) && |vectors| > 0 && i < |vectors[0]|
    ensures Sum(Deviations(Column(vectors, i), ComputeMean(vectors)[i])) == 0.0
  {
    var column, m := Column(vectors, i), ComputeMean(vectors)[i];
    SumShift(column, Deviations(column, m), m);
  }

  /** The literal scenario `compute_mean([[1, 2], [3, 4], [5, 6]]) == [3, 4]`. */
  lemma ComputeMeanExample()
    ensures ComputeMean([[1.0, 2.0], [3.0, 4.0], [5.0, 6.0]]) == [3.0, 4.0]
  {
    var vs: seq<Vector> := [[1.0, 2.0], [3.0, 4.0], [5.0, 6.0]];
    var c0, c1 := Column(vs, 0), Column(vs, 1);
    assert c0 == [1.0, 3.0, 5.0] && c1 == [2.0, 4.0, 6.0];
    SumOfThree(1.0, 3.0, 5.0);
    SumOfThree(2.0, 4.0, 6.0);
    var mean := ComputeMean(vs);
    assert |mean| == 2 && mean[0] == 9.0 / 3.0 && mean[1] == 12.0 / 3.0;
  }

  // ---------------------------------------------------------------------
  // Standardisation
  // ---------------------------------------------------------------------

  /** `[d.features for d in data]`: one feature vector per point, all of
      the same dimension when the points are. */
  function Features(data: seq<DataPoint>): (fs: seq<Vector>)
    ensures |fs| == |data|
    ensures Rectangular(data) <==> SameDimension(fs)
  {
    var fs := seq(|data|, j requires 0 <= j < |data| => data[j].features);
    assert forall j :: 0 <= j < |data| ==> |fs[j]| == |data[j].features|;
    fs
  }

  /** All data points have the feature dimension of the first one. */
  predicate Rectangular(data: seq<DataPoint>)
  {
    forall j :: 0 <= j < |data| ==> |data[j].features| == |data[0].features|
  }

  /** The sample-variance denominator `max(n - 1, 1)`. */
  function Denominator(n: nat): (d: nat)
    ensures d >= 1
    ensures n >= 2 ==> d == n - 1
    ensures n <= 1 ==> d == 1
  {
    if n - 1 > 1 then n - 1 else 1
  }

  /** Per dimension, `sum((x - mean) ** 2) / max(n - 1, 1)`. */
  function Variances(vectors: seq<Vector>, mean: Vector): (variance: Vector)
    requires SameDimension(vectors) && |vectors| > 0 && |mean| == |vectors[0]|
    ensures |variance| == |mean|
    ensures forall i :: 0 <= i < |mean| ==> variance[i] >= 0.0
  {
    var d := Denominator(|vectors|) as real;
    SumSquaresNonNegative();
    seq(|mean|, i requires 0 <= i < |mean| =>
      SumSquares(Deviations(Column(vectors, i), mean[i])) / d)
  }

  lemma SumSquaresNonNegative()
    ensures forall v: Vector :: SumSquares(v) >= 0.0
  {
    forall v: Vector ensures SumSquares(v) >= 0.0 {
      SumSquaresZeroIff(v);
    }
  }

  /** Per dimension, `v ** 0.5 if v > 0 else 1.0`: never zero, so the
      division in `standardize` is always defined. */
  function StdDevs(sqrt: real -> real, variance: Vector): (std: Vector)
    requires IsSqrt(sqrt)
    ensures |std| == |variance|
    ensures forall i :: 0 <= i < |variance| ==> std[i] > 0.0
    ensures forall i :: 0 <= i < |variance| && variance[i] > 0.0 ==> std[i] * std[i] == variance[i]
    ensures forall i :: 0 <= i < |variance| && variance[i] <= 0.0 ==> std[i] == 1.0
  {
    SqrtPositive(sqrt);
    seq(|variance|, i requires 0 <= i < |variance| =>
      if variance[i] > 0.0 then sqrt(variance[i]) else 1.0)
  }

  /** The square root of a positive number is positive. */
  lemma SqrtPositive(sqrt: real -> real)
    requires IsSqrt(sqrt)
    ensures forall x: real :: x > 0.0 ==> sqrt(x) > 0.0
  {
    forall x: real | x > 0.0 ensures sqrt(x) > 0.0 {
      SqrtZeroIff(sqrt, x);
    }
  }

  /** The per-dimension mean of the features of `data`. */
  function FeatureMean(data: seq<DataPoint>): (mean: Vector)
    requires Rectangular(data)
    ensures |data| == 0 ==> mean == []
    ensures |data| > 0 ==> |mean| == |data[0].features|
    ensures forall i :: 0 <= i < |mean| ==>
      (|data| as real) * mean[i] == Sum(Column(Features(data), i))
  {
    assert SameDimension(Features(data));
    ComputeMean(Features(data))
  }

  /** The per-dimension sample variance of the features of `data`. */
  function FeatureVariance(data: seq<DataPoint>): (variance: Vector)
    requires Rectangular(data) && |data| > 0
    ensures |variance| == |data[0].features|
    ensures forall i :: 0 <= i < |variance| ==> variance[i] >= 0.0
  {
    assert SameDimension(Features(data));
    Variances(Features(data), FeatureMean(data))
  }

  /** The per-dimension standard deviation of the features of `data`, with
      `1.0` where the variance is not positive. */
  function FeatureStd(sqrt: real -> real, data: seq<DataPoint>): (std: Vector)
    requires IsSqrt(sqrt) && Rectangular(data) && |data| > 0
    ensures |std| == |data[0].features|
    ensures forall i :: 0 <= i < |std| ==> std[i] > 0.0
    ensures forall i :: 0 <= i < |std| && FeatureVariance(data)[i] > 0.0 ==>
      std[i] * std[i] == FeatureVariance(data)[i]
    ensures forall i :: 0 <= i < |std| && FeatureVariance(data)[i] <= 0.0 ==> std[i] == 1.0
  {
    StdDevs(sqrt, FeatureVariance(data))
  }

  /** `standardize(data)`: `[]` for no data; otherwise a fresh list in which
      point `j` keeps its label and feature `i` becomes
      `(x_i - mean_i) / std_i`. */
  function Standardize(sqrt: real -> real, data: seq<DataPoint>): (r: seq<DataPoint>)
    requires IsSqrt(sqrt) && Rectangular(data)
    ensures |r| == |data|
    ensures forall j :: 0 <= j < |data| ==> r[j].classLabel == data[j].classLabel
    ensures forall j :: 0 <= j < |data| ==> |r[j].features| == |data[0].features|
    ensures Rectangular(r)
  {
    if |data| == 0 then []
    else
      var mean := FeatureMean(data);
      var std := FeatureStd(sqrt, data);
      var dim := |mean|;
      seq(|data|, j requires 0 <= j < |data| =>
        DataPoint(seq(dim, i requires 0 <= i < dim => (data[j].features[i] - mean[i]) / std[i]),
                  data[j].classLabel))
  }

  /** Feature `i` of output point `j` is the input feature standardised by
      the column's mean and standard deviation. */
  lemma StandardizedFeature(sqrt: real -> real, data: seq<DataPoint>, j: nat, i: nat)
    requires IsSqrt(sqrt) && Rectangular(data) && j < |data| && i < |data[0].features|
    ensures Standardize(sqrt, data)[j].features[i]
         == (data[j].features[i] - FeatureMean(data)[i]) / FeatureStd(sqrt, data)[i]
  {
  }

  /** Each standardised feature column sums to zero, i.e. has mean 0. */
  lemma StandardizedColumnSumsToZero(sqrt: real -> real, data: seq<DataPoint>, i: nat)
    requires IsSqrt(sqrt) && Rectangular(data) && |data| > 0 && i < |data[0].features|
    ensures Sum(Column(Features(Standardize(sqrt, data)), i)) == 0.0
  {
    var fs := Features(data);
    assert SameDimension(fs);
    var m, s := FeatureMean(data)[i], FeatureStd(sqrt, data)[i];
    var dev := Deviations(Column(fs, i), m);
    var out := Column(Features(Standardize(sqrt, data)), i);
    MeanDeviationsSumToZero(fs, i);
    forall j | 0 <= j < |data| ensures out[j] == dev[j] / s {
      StandardizedFeature(sqrt, data, j, i);
    }
    SumDivide(dev, out, s);
  }

  /** The mean of every standardised feature column is 0. */
  lemma StandardizedMeanIsZero(sqrt: real -> real, data: seq<DataPoint>)
    requires IsSqrt(sqrt) && Rectangular(data) && |data| > 0
    ensures ComputeMean(Features(Standardize(sqrt, data))) == Zeros(|data[0].features|)
  {
    var out := Features(Standardize(sqrt, data));
    assert SameDimension(out);
    var mean := ComputeMean(out);
    forall i | 0 <= i < |mean| ensures mean[i] == 0.0 {
      StandardizedColumnSumsToZero(sqrt, data, i);
    }
  }

  /** The deviations of feature `i` of `data` from its mean. */
  function FeatureDeviations(data: seq<DataPoint>, i: nat): (dev: seq<real>)
    requires Rectangular(data) && |data| > 0 && i < |data[0].features|
    ensures |dev| == |data|
    ensures forall j :: 0 <= j < |data| ==> dev[j] == data[j].features[i] - FeatureMean(data)[i]
  {
    assert SameDimension(Features(data));
    Deviations(Column(Features(data), i), FeatureMean(data)[i])
  }

  /** The variance of feature `i` times `max(n - 1, 1)` is the sum of the
      squared deviations. */
  lemma VarianceTimesDenominator(data: seq<DataPoint>, i: nat)
    requires Rectangular(data) && |data| > 0 && i < |data[0].features|
    ensures FeatureVariance(data)[i] * (Denominator(|data|) as real)
         == SumSquares(FeatureDeviations(data, i))
  {
    assert SameDimension(Features(data));
  }

  /** A feature's variance is zero exactly when the feature is constant
      across the dataset (every value equals the mean). */
  lemma VarianceZeroIffConstant(data: seq<DataPoint>, i: nat)
    requires Rectangular(data) && |data| > 0 && i < |data[0].features|
    ensures FeatureVariance(data)[i] >= 0.0
    ensures FeatureVariance(data)[i] == 0.0
        <==> forall j :: 0 <= j < |data| ==> data[j].features[i] == FeatureMean(data)[i]
  {
    var dev := FeatureDeviations(data, i);
    VarianceTimesDenominator(data, i);
    SumSquaresZeroIff(dev);
    ZeroProduct(FeatureVariance(data)[i], Denominator(|data|) as real);
    assert IsZero(dev) <==> forall j :: 0 <= j < |data| ==> data[j].features[i] == FeatureMean(data)[i];
  }

  /** Where a feature is constant, its standard deviation falls back to 1
      and every standardised value is 0. */
  lemma ConstantFeatureStandardizesToZero(sqrt: real -> real, data: seq<DataPoint>, i: nat)
    requires IsSqrt(sqrt) && Rectangular(data) && |data| > 0 && i < |data[0].features|
    requires FeatureVariance(data)[i] <= 0.0
    ensures FeatureStd(sqrt, data)[i] == 1.0
    ensures forall j :: 0 <= j < |data| ==> Standardize(sqrt, data)[j].features[i] == 0.0
  {
    VarianceZeroIffConstant(data, i);
    forall j | 0 <= j < |data| ensures Standardize(sqrt, data)[j].features[i] == 0.0 {
      StandardizedFeature(sqrt, data, j, i);
    }
  }

  /** A single-point dataset standardises to all-zero features. */
  lemma SinglePointStandardizesToZero(sqrt: real -> real, p: DataPoint)
    requires IsSqrt(sqrt)
    ensures Standardize(sqrt, [p]) == [DataPoint(Zeros(|p.features|), p.classLabel)]
  {
    var data := [p];
    var out := Standardize(sqrt, data);
    forall i | 0 <= i < |p.features| ensures out[0].features[i] == 0.0 {
      var dev := FeatureDeviations(data, i);
      assert SameDimension(Features(data));
      assert Column(Features(data), i) == [p.features[i]];
      assert Sum([p.features[i]]) == p.features[i] + Sum([]);
      assert dev[0] == 0.0;
      VarianceZeroIffConstant(data, i);
      ConstantFeatureStandardizesToZero(sqrt, data, i);
    }
    assert out[0].features == Zeros(|p.features|);
  }

  /** The deviations of a standardised feature from its (zero) mean are the
      input deviations divided by the standard deviation. */
  lemma StandardizedDeviations(sqrt: real -> real, data: seq<DataPoint>, i: nat)
    requires IsSqrt(sqrt) && Rectangular(data) && |data| > 0 && i < |data[0].features|
    ensures forall j :: 0 <= j < |data| ==>
      FeatureDeviations(Standardize(sqrt, data), i)[j]
        == FeatureDeviations(data, i)[j] / FeatureStd(sqrt, data)[i]
  {
    StandardizedMeanIsZero(sqrt, data);
    assert FeatureMean(Standardize(sqrt, data)) == Zeros(|data[0].features|);
    forall j | 0 <= j < |data| {
      StandardizedFeature(sqrt, data, j, i);
    }
  }

  /** Where a feature's variance is positive, the standardised feature has
      sample variance exactly 1 (and mean 0): unit variance. */
  lemma StandardizedUnitVariance(sqrt: real -> real, data: seq<DataPoint>, i: nat)
    requires IsSqrt(sqrt) && Rectangular(data) && |data| > 0 && i < |data[0].features|
    requires FeatureVariance(data)[i] > 0.0
    ensures FeatureVariance(Standardize(sqrt, data))[i] == 1.0
  {
    StandardizedDeviations(sqrt, data, i);
    ScaledVarianceIsOne(data, Standardize(sqrt, data), i, FeatureStd(sqrt, data)[i]);
  }

  /** If the deviations of feature `i` of `out` are those of `data` divided
      by `s`, where `s * s` is the variance of `data`, then feature `i` of
      `out` has variance 1. */
  lemma ScaledVarianceIsOne(data: seq<DataPoint>, out: seq<DataPoint>, i: nat, s: real)
    requires Rectangular(data) && Rectangular(out) && 0 < |data| == |out|
    requires i < |data[0].features| && i < |out[0].features|
    requires FeatureVariance(data)[i] > 0.0 && s * s == FeatureVariance(data)[i]
    requires forall j :: 0 <= j < |data| ==>
      FeatureDeviations(out, i)[j] == FeatureDeviations(data, i)[j] / s
    ensures FeatureVariance(out)[i] == 1.0
  {
    ZeroProduct(s, s);
    SumSquaresScaled(FeatureDeviations(data, i), FeatureDeviations(out, i), s);
    VarianceOfScaled(data, out, i, s);
  }

  /** If the squared deviations of feature `i` of `out` are those of `data`
      divided by `s * s`, the variance of `data`, then feature `i` of `out`
      has variance 1. */
  lemma VarianceOfScaled(data: seq<DataPoint>, out: seq<DataPoint>, i: nat, s: real)
    requires Rectangular(data) && Rectangular(out) && 0 < |data| == |out|
    requires i < |data[0].features| && i < |out[0].features|
    requires FeatureVariance(data)[i] > 0.0 && s * s == FeatureVariance(data)[i]
    requires SumSquares(FeatureDeviations(out, i))
          == SumSquares(FeatureDeviations(data, i)) / (s * s)
    ensures FeatureVariance(out)[i] == 1.0
  {
    VarianceTimesDenominator(data, i);
    VarianceTimesDenominator(out, i);
    UnitRatio(FeatureVariance(data)[i], s, Denominator(|data|) as real, Denominator(|out|) as real,
              SumSquares(FeatureDeviations(data, i)), SumSquares(FeatureDeviations(out, i)),
              FeatureVariance(out)[i]);
  }

  /** If `v * d` is a sum of squares `total`, and `w * e` is `total` divided by
      `s * s == v`, with `v` positive and `d == e` at least 1, then `w == 1`. */
  lemma UnitRatio(v: real, s: real, d: real, e: real, total: real, scaled: real, w: real)
    requires v > 0.0 && d >= 1.0 && e == d && s * s == v
    requires v * d == total && scaled == total / (s * s) && w * e == scaled
    ensures w == 1.0
  {
    assert scaled == (v * d) / v;
    assert (v * d) / v == d;
    assert (w - 1.0) * d == 0.0;
    ZeroProduct(w - 1.0, d);
  }

  /** The dataset of the test suite's standardisation scenario. */
  const ExampleData: seq<DataPoint> :=
    [DataPoint([1.0, 10.0], 0), DataPoint([3.0, 20.0], 1), DataPoint([5.0, 30.0], 0)]

  /** The scenario's features have means `[3, 20]`. */
  lemma ExampleMean()
    ensures Rectangular(ExampleData) && FeatureMean(ExampleData) == [3.0, 20.0]
  {
    var fs := Features(ExampleData);
    assert SameDimension(fs);
    assert Column(fs, 0) == [1.0, 3.0, 5.0] && Column(fs, 1) == [10.0, 20.0, 30.0];
    SumOfThree(1.0, 3.0, 5.0);
    SumOfThree(10.0, 20.0, 30.0);
  }

  /** The scenario's features have sample variances `[4, 100]`. */
  lemma ExampleVariance()
    ensures Rectangular(ExampleData) && FeatureVariance(ExampleData) == [2.0 * 2.0, 10.0 * 10.0]
  {
    ExampleMean();
    assert FeatureDeviations(ExampleData, 0) == [-2.0, 0.0, 2.0];
    assert FeatureDeviations(ExampleData, 1) == [-10.0, 0.0, 10.0];
    assert Squares([-2.0, 0.0, 2.0]) == [4.0, 0.0, 4.0];
    assert Squares([-10.0, 0.0, 10.0]) == [100.0, 0.0, 100.0];
    SumOfThree(4.0, 0.0, 4.0);
    SumOfThree(100.0, 0.0, 100.0);
    VarianceTimesDenominator(ExampleData, 0);
    VarianceTimesDenominator(ExampleData, 1);
  }

  /** The scenario's features have standard deviations `[2, 10]`. */
  lemma ExampleStd(sqrt: real -> real)
    requires IsSqrt(sqrt)
    ensures Rectangular(ExampleData) && FeatureStd(sqrt, ExampleData) == [2.0, 10.0]
  {
    ExampleVariance();
    SqrtOfSquare(sqrt, 2.0);
    SqrtOfSquare(sqrt, 10.0);
  }

  /** The literal scenario of the test suite: features `[1, 10]`, `[3, 20]`,
      `[5, 30]` (standard deviations `[2, 10]`) standardise to `[-1, -1]`,
      `[0, 0]`, `[1, 1]` with the labels kept, so feature 0 has mean 0. */
  lemma StandardizeExample(sqrt: real -> real)
    requires IsSqrt(sqrt)
    ensures Rectangular(ExampleData)
    ensures Standardize(sqrt, ExampleData)
         == [DataPoint([-1.0, -1.0], 0), DataPoint([0.0, 0.0], 1), DataPoint([1.0, 1.0], 0)]
  {
    var out := Standardize(sqrt, ExampleData);
    ExamplePoint(sqrt, 0);
    ExamplePoint(sqrt, 1);
    ExamplePoint(sqrt, 2);
    assert out[0].features == [-1.0, -1.0];
    assert out[1].features == [0.0, 0.0];
    assert out[2].features == [1.0, 1.0];
  }

  /** Point `j` of the scenario standardises to `[j - 1, j - 1]`. */
  lemma ExamplePoint(sqrt: real -> real, j: nat)
    requires IsSqrt(sqrt) && j < 3
    ensures Rectangular(ExampleData)
    ensures Standardize(sqrt, ExampleData)[j].features == [(j as real) - 1.0, (j as real) - 1.0]
  {
    ExampleMean();
    ExampleStd(sqrt);
    StandardizedFeature(sqrt, ExampleData, j, 0);
    StandardizedFeature(sqrt, ExampleData, j, 1);
  }
}
