/** Exact-arithmetic stand-ins for the floating-point helpers both source
    modules rely on: Python's `sum`, element-wise squares and products, and
    a square-root function characterised only by what a square root is. */
module RealSums {

  /** A vector of real numbers (a `list[float]` / `&[f64]` in the source). */
  type Vector = seq<real>

  /** The sum of a sequence of reals; `sum([])` is `0.0`. */
  function Sum(s: seq<real>): real
  {
    if |s| == 0 then 0.0 else s[0] + Sum(s[1..])
  }

  /** The component-wise squares `x * x` of `v`. */
  function Squares(v: Vector): (r: Vector)
    ensures |r| == |v|
    ensures forall i :: 0 <= i < |v| ==> r[i] >= 0.0
  {
    seq(|v|, i requires 0 <= i < |v| => v[i] * v[i])
  }

  /** The pairwise products `x * y` of two equally long vectors (zip then map). */
  function Products(a: Vector, b: Vector): (r: Vector)
    requires |a| == |b|
    ensures |r| == |a|
  {
    seq(|a|, i requires 0 <= i < |a| => a[i] * b[i])
  }

  /** The sum of squares of `v`, the quantity whose square root is the L2 norm. */
  function SumSquares(v: Vector): real
  {
    Sum(Squares(v))
  }

  /** True when every component of `v` is zero. */
  predicate IsZero(v: Vector)
  {
    forall i :: 0 <= i < |v| ==> v[i] == 0.0
  }

  /** The zero vector of length `n` (`[0.0] * n`, `vec![0.0; n]`). */
  function Zeros(n: nat): (r: Vector)
    ensures |r| == n && IsZero(r)
  {
    seq(n, i => 0.0)
  }

  /** What is known of the square-root function the source calls
      (`math.sqrt`, `** 0.5`, `f64::sqrt`): on non-negative arguments it
      yields the non-negative root. Nothing else about its value is assumed. */
  ghost predicate IsSqrt(sqrt: real -> real)
  {
    forall x: real :: x >= 0.0 ==> sqrt(x) >= 0.0 && sqrt(x) * sqrt(x) == x
  }

  /** A product is zero exactly when one of its factors is. */
  lemma ZeroProduct(x: real, y: real)
    ensures x * y == 0.0 <==> x == 0.0 || y == 0.0
  {
  }

  /** The square root is zero exactly at zero. */
  lemma SqrtZeroIff(sqrt: real -> real, x: real)
    requires IsSqrt(sqrt) && x >= 0.0
    ensures sqrt(x) >= 0.0
    ensures sqrt(x) == 0.0 <==> x == 0.0
  {
    ZeroProduct(sqrt(x), sqrt(x));
  }

  /** Two non-negative reals with equal squares are equal. */
  lemma SquareInjective(r: real, y: real)
    requires r >= 0.0 && y >= 0.0 && r * r == y * y
    ensures r == y
  {
    assert (r - y) * (r + y) == r * r - y * y;
    ZeroProduct(r - y, r + y);
  }

  /** The square root of a perfect square `y * y` with `y >= 0` is `y`. */
  lemma SqrtOfSquare(sqrt: real -> real, y: real)
    requires IsSqrt(sqrt) && y >= 0.0
    ensures sqrt(y * y) == y
  {
    SquareInjective(sqrt(y * y), y);
  }

  /** `x / x == 1` for non-zero `x`. */
  lemma DivideBySelf(x: real)
    requires x != 0.0
    ensures x / x == 1.0
  {
  }

  /** `(x / d) * (x / d) == (x * x) / (d * d)`. */
  lemma QuotientSquare(x: real, d: real)
    requires d != 0.0
    ensures (x / d) * (x / d) == (x * x) / (d * d)
  {
    var q := x / d;
    assert q * d == x;
    assert (q * q) * (d * d) == (q * d) * (q * d);
    ZeroProduct(d, d);
  }

  /** A sum of non-negative terms is non-negative, and it is zero exactly
      when every term is zero. */
  lemma {:induction false} SumNonNegative(s: seq<real>)
    requires forall i :: 0 <= i < |s| ==> s[i] >= 0.0
    ensures Sum(s) >= 0.0
    ensures Sum(s) == 0.0 <==> forall i :: 0 <= i < |s| ==> s[i] == 0.0
  {
    if |s| > 0 {
      SumNonNegative(s[1..]);
      if Sum(s) == 0.0 {
        forall i | 0 <= i < |s| ensures s[i] == 0.0 {
          if i > 0 { assert s[i] == s[1..][i - 1]; }
        }
      } else {
        var i :| 0 <= i < |s| && s[i] != 0.0;
        assert i > 0 ==> s[1..][i - 1] == s[i];
      }
    }
  }

  /** Subtracting a constant from every term subtracts it `|s|` times. */
  lemma {:induction false} SumShift(s: seq<real>, t: seq<real>, c: real)
    requires |t| == |s|
    requires forall i :: 0 <= i < |s| ==> t[i] == s[i] - c
    ensures Sum(t) == Sum(s) - (|s| as real) * c
  {
    if |s| > 0 {
      SumShift(s[1..], t[1..], c);
    }
  }

  /** Dividing every term by a non-zero constant divides the sum by it. */
  lemma {:induction false} SumDivide(s: seq<real>, t: seq<real>, c: real)
    requires c != 0.0 && |t| == |s|
    requires forall i :: 0 <= i < |s| ==> t[i] == s[i] / c
    ensures Sum(t) == Sum(s) / c
  {
    if |s| > 0 {
      SumDivide(s[1..], t[1..], c);
      assert t[0] + Sum(t[1..]) == s[0] / c + Sum(s[1..]) / c;
    }
  }

  /** `sum(x * x for x in v)` is zero exactly when `v` is the zero vector. */
  lemma SumSquaresZeroIff(v: Vector)
    ensures SumSquares(v) >= 0.0
    ensures SumSquares(v) == 0.0 <==> IsZero(v)
  {
    var q := Squares(v);
    SumNonNegative(q);
    if SumSquares(v) == 0.0 {
      forall i | 0 <= i < |v| ensures v[i] == 0.0 {
        assert q[i] == v[i] * v[i] == 0.0;
        ZeroProduct(v[i], v[i]);
      }
    }
  }

  /** The sum of a three-element sequence, for literal scenarios. */
  lemma SumOfThree(x: real, y: real, z: real)
    ensures Sum([x, y, z]) == x + y + z
  {
    assert [x, y, z][1..] == [y, z];
    SumOfTwo(y, z);
  }

  /** The sum of a two-element sequence, for literal scenarios. */
  lemma SumOfTwo(x: real, y: real)
    ensures Sum([x, y]) == x + y
  {
    assert [x, y][1..] == [y] && [y][1..] == [];
    assert Sum([y]) == y + Sum([]);
  }

  /** Dividing every component by `c` divides the sum of squares by `c * c`. */
  lemma SumSquaresScaled(s: Vector, t: Vector, c: real)
    requires c != 0.0 && |t| == |s|
    requires forall i :: 0 <= i < |s| ==> t[i] == s[i] / c
    ensures SumSquares(t) == SumSquares(s) / (c * c)
  {
    ZeroProduct(c, c);
    forall i | 0 <= i < |s| ensures Squares(t)[i] == Squares(s)[i] / (c * c) {
      QuotientSquare(s[i], c);
    }
    SumDivide(Squares(s), Squares(t), c * c);
  }
}
