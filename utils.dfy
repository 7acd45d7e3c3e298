/** Pixel and point helpers of the analysis backend (backend/app/utils.py, and
    its byte-identical copy backend/app/utilss.py): the mean squared error
    between two frames and the centroid of a set of landmarks, together with
    the sums, means and variances they are built from. Pixel values and
    coordinates are exact numbers here; numpy's float32/float64 rounding is
    not modelled. */
module Utils {

  /** A 2-D landmark in frame-normalised coordinates. */
  datatype Point = Point(x: real, y: real)

  /** A pixel array: its shape and its values in row-major order. */
  datatype PixelArray = PixelArray(shape: seq<nat>, pixels: seq<int>)

  /** What compute_frame_mse returns: a finite mean, +infinity when the two
      shapes differ, or nan when the frames hold no pixel (numpy's mean of an
      empty array). */
  datatype Mse = Value(v: real) | Infinity | NotANumber

  /** Number of elements an array of the given shape holds. */
  function Product(dims: seq<nat>): nat
  {
    if dims == [] then 1 else dims[0] * Product(dims[1..])
  }

  /** A pixel array whose buffer fits its shape, as every numpy array does. */
  predicate WellFormed(a: PixelArray)
  {
    |a.pixels| == Product(a.shape)
  }

  /** A decoded video frame. */
  type Frame = a: PixelArray | WellFormed(a) witness PixelArray([], [0])

  // ---------------------------------------------------------------------
  // Sums, means and variances
  // ---------------------------------------------------------------------

  function Sum(xs: seq<real>): real
  {
    if xs == [] then 0.0 else xs[0] + Sum(xs[1..])
  }

  /** The arithmetic mean, with 0.0 for an empty sequence (the default both
      get_centroid and get_average_posture_score fall back to). */
  function Mean(xs: seq<real>): real
  {
    if xs == [] then 0.0 else Sum(xs) / (|xs| as real)
  }

  lemma {:induction false} SumAtLeast(xs: seq<real>, lo: real)
    requires forall i :: 0 <= i < |xs| ==> lo <= xs[i]
    ensures lo * (|xs| as real) <= Sum(xs)
  {
    if xs != [] {
      SumAtLeast(xs[1..], lo);
    }
  }

  lemma {:induction false} SumAtMost(xs: seq<real>, hi: real)
    requires forall i :: 0 <= i < |xs| ==> xs[i] <= hi
    ensures Sum(xs) <= hi * (|xs| as real)
  {
    if xs != [] {
      SumAtMost(xs[1..], hi);
    }
  }

  lemma PositiveProduct(a: real, b: real)
    requires 0.0 < a && 0.0 < b
    ensures 0.0 < a * b
  {
  }

  /** Dividing by a positive number keeps an inequality. */
  lemma DivideBounds(s: real, n: real, lo: real, hi: real)
    requires 0.0 < n && lo * n <= s <= hi * n
    ensures lo <= s / n <= hi
  {
    var q := s / n;
    assert q * n == s;
    assert (lo - q) * n == lo * n - q * n;
    assert (q - hi) * n == q * n - hi * n;
    if q < lo {
      PositiveProduct(lo - q, n);
    }
    if q > hi {
      PositiveProduct(q - hi, n);
    }
  }

  /** A non-negative number over a positive one is non-negative. */
  lemma DivNonNegative(a: real, b: real)
    requires 0.0 <= a && 0.0 < b
    ensures 0.0 <= a / b
  {
    var q := a / b;
    assert q * b == a;
    if q < 0.0 {
      PositiveProduct(-q, b);
    }
  }

  /** A mean lies between any lower and upper bound of its elements. */
  lemma MeanWithin(xs: seq<real>, lo: real, hi: real)
    requires xs != []
    requires forall i :: 0 <= i < |xs| ==> lo <= xs[i] <= hi
    ensures lo <= Mean(xs) <= hi
  {
    SumAtLeast(xs, lo);
    SumAtMost(xs, hi);
    DivideBounds(Sum(xs), |xs| as real, lo, hi);
  }

  /** The mean of non-negative values is non-negative (the empty case
      included). */
  lemma MeanNonNegative(xs: seq<real>)
    requires forall i :: 0 <= i < |xs| ==> 0.0 <= xs[i]
    ensures 0.0 <= Mean(xs)
  {
    if xs != [] {
      SumAtLeast(xs, 0.0);
    }
  }

  lemma SquareNonNegative(r: real)
    ensures 0.0 <= r * r
  {
    if r < 0.0 {
      var q := -r;
      assert r * r == q * q;
      assert 0.0 <= q * q;
    } else {
      assert 0.0 <= r * r;
    }
  }

  /** Squared deviations of each element from the mean. */
  function Deviations(xs: seq<real>): (ds: seq<real>)
    ensures |ds| == |xs|
    ensures forall i :: 0 <= i < |xs| ==> ds[i] == (xs[i] - Mean(xs)) * (xs[i] - Mean(xs))
  {
    var m := Mean(xs);
    seq(|xs|, i requires 0 <= i < |xs| => (xs[i] - m) * (xs[i] - m))
  }

  /** Population variance (numpy's var with its default ddof of 0). */
  function Variance(xs: seq<real>): (v: real)
    ensures 0.0 <= v
  {
    var ds := Deviations(xs);
    assert forall i :: 0 <= i < |ds| ==> 0.0 <= ds[i] by {
      forall i | 0 <= i < |ds|
        ensures 0.0 <= ds[i]
      {
        SquareNonNegative(xs[i] - Mean(xs));
      }
    }
    MeanNonNegative(ds);
    Mean(ds)
  }

  /** Sum of a sequence of zeros. */
  lemma {:induction false} SumOfZeros(xs: seq<real>)
    requires forall i :: 0 <= i < |xs| ==> xs[i] == 0.0
    ensures Sum(xs) == 0.0
  {
    if xs != [] {
      SumOfZeros(xs[1..]);
    }
  }

  /** Values that never move have no variance. */
  lemma VarianceOfConstant(xs: seq<real>, c: real)
    requires forall i :: 0 <= i < |xs| ==> xs[i] == c
    ensures Variance(xs) == 0.0
  {
    if xs != [] {
      MeanWithin(xs, c, c);
      SumOfZeros(Deviations(xs));
    }
  }

  // ---------------------------------------------------------------------
  // compute_frame_mse
  // ---------------------------------------------------------------------

  function Square(d: int): (s: nat)
  {
    if d < 0 then (-d) * (-d) else d * d
  }

  /** Sum over all pixels of the squared difference of the two frames. */
  function SquaredError(a: seq<int>, b: seq<int>): nat
    requires |a| == |b|
  {
    if a == [] then 0 else Square(a[0] - b[0]) + SquaredError(a[1..], b[1..])
  }

  /** Mean squared pixel difference of two frames: +infinity when their
      shapes differ, nan when they hold no pixel, and otherwise a finite,
      non-negative value. */
  function ComputeFrameMse(f1: Frame, f2: Frame): (m: Mse)
    ensures m == Infinity <==> f1.shape != f2.shape
    ensures m == NotANumber <==> f1.shape == f2.shape && f1.pixels == []
    ensures m.Value? ==> 0.0 <= m.v
  {
    if f1.shape != f2.shape then Infinity
    else if |f1.pixels| == 0 then NotANumber
    else Value(SquaredError(f1.pixels, f2.pixels) as real / |f1.pixels| as real)
  }

  lemma {:induction false} SquaredErrorZeroIff(a: seq<int>, b: seq<int>)
    requires |a| == |b|
    ensures SquaredError(a, b) == 0 <==> a == b
  {
    if a != [] {
      SquaredErrorZeroIff(a[1..], b[1..]);
      if a[0] != b[0] {
        assert Square(a[0] - b[0]) > 0;
      }
      if a[1..] == b[1..] && a[0] == b[0] {
        assert a == [a[0]] + a[1..] && b == [b[0]] + b[1..];
      }
    }
  }

  lemma {:induction false} SquaredErrorSymmetric(a: seq<int>, b: seq<int>)
    requires |a| == |b|
    ensures SquaredError(a, b) == SquaredError(b, a)
  {
    if a != [] {
      SquaredErrorSymmetric(a[1..], b[1..]);
      assert Square(a[0] - b[0]) == Square(b[0] - a[0]);
    }
  }

  /** Two non-empty frames of the same shape have MSE zero exactly when every
      pixel agrees; any differing pixel makes the MSE strictly positive. */
  lemma MseZeroIffIdentical(f1: Frame, f2: Frame)
    requires f1.shape == f2.shape && f1.pixels != []
    ensures ComputeFrameMse(f1, f2).Value?
    ensures ComputeFrameMse(f1, f2).v == 0.0 <==> f1.pixels == f2.pixels
    ensures f1.pixels != f2.pixels ==> ComputeFrameMse(f1, f2).v > 0.0
  {
    SquaredErrorZeroIff(f1.pixels, f2.pixels);
    var n := |f1.pixels| as real;
    var e := SquaredError(f1.pixels, f2.pixels) as real;
    assert (e / n) * n == e;
  }

  /** Comparing f1 with f2 gives the same MSE as comparing f2 with f1. */
  lemma MseSymmetric(f1: Frame, f2: Frame)
    ensures ComputeFrameMse(f1, f2) == ComputeFrameMse(f2, f1)
  {
    if f1.shape == f2.shape && f1.pixels != [] {
      SquaredErrorSymmetric(f1.pixels, f2.pixels);
    }
  }

  // ---------------------------------------------------------------------
  // get_centroid
  // ---------------------------------------------------------------------

  function Xs(pts: seq<Point>): (xs: seq<real>)
    ensures |xs| == |pts|
    ensures forall i :: 0 <= i < |pts| ==> xs[i] == pts[i].x
  {
    seq(|pts|, i requires 0 <= i < |pts| => pts[i].x)
  }

  function Ys(pts: seq<Point>): (ys: seq<real>)
    ensures |ys| == |pts|
    ensures forall i :: 0 <= i < |pts| ==> ys[i] == pts[i].y
  {
    seq(|pts|, i requires 0 <= i < |pts| => pts[i].y)
  }

  /** The centroid of a set of landmarks: the pair (mean x, mean y), and the
      origin for no landmarks at all. */
  function Centroid(pts: seq<Point>): (c: Point)
    ensures pts == [] ==> c == Point(0.0, 0.0)
  {
    if pts == [] then Point(0.0, 0.0) else Point(Mean(Xs(pts)), Mean(Ys(pts)))
  }

  /** The centroid of landmarks lying in a box lies in that box. */
  lemma CentroidWithinBounds(pts: seq<Point>, lo: Point, hi: Point)
    requires pts != []
    requires forall i :: 0 <= i < |pts| ==> lo.x <= pts[i].x <= hi.x && lo.y <= pts[i].y <= hi.y
    ensures lo.x <= Centroid(pts).x <= hi.x
    ensures lo.y <= Centroid(pts).y <= hi.y
  {
    MeanWithin(Xs(pts), lo.x, hi.x);
    MeanWithin(Ys(pts), lo.y, hi.y);
  }

  /** Landmarks that all sit on one point have that point as centroid. */
  lemma CentroidOfCoincident(pts: seq<Point>, p: Point)
    requires pts != []
    requires forall i :: 0 <= i < |pts| ==> pts[i] == p
    ensures Centroid(pts) == p
  {
    CentroidWithinBounds(pts, p, p);
  }
}
