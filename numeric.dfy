/**
  Numbers as the pipeline uses them. Python floats are modelled as exact reals; `round`, `numpy.mean`,
  `numpy.std` (through its variance) and `max`/`min` are defined here once, with the properties the
  scoring code relies on proved as lemmas.
 */
module Numeric {

  /** 10 raised to `n`, as a real. */
  function Scale(n: nat): (r: real)
    ensures r >= 1.0
  {
    if n == 0 then 1.0 else 10.0 * Scale(n - 1)
  }

  /** Rounding to the nearest multiple of 1/scale, halves rounded up. */
  function RoundAt(x: real, scale: real): real
    requires scale > 0.0
  {
    (x * scale + 0.5).Floor as real / scale
  }

  /** Python's `round(x, digits)` on exact decimals: the nearest multiple of 10^-digits, halves rounded up. */
  function Round(x: real, digits: nat): real
  {
    RoundAt(x, Scale(digits))
  }

  lemma RoundAtDef(x: real, scale: real)
    requires scale > 0.0
    ensures RoundAt(x, scale) == (x * scale + 0.5).Floor as real / scale
  {
  }

  /** `Round` unfolded, with the scale named `p` so that the solver sees one term for it. */
  lemma RoundDef(x: real, digits: nat, p: real)
    requires p == Scale(digits)
    ensures p >= 1.0 && Round(x, digits) == (x * p + 0.5).Floor as real / p
  {
    RoundAtDef(x, p);
  }

  /** 10^n is a whole number. */
  lemma {:induction false} ScaleIsWhole(n: nat) returns (q: int)
    ensures q as real == Scale(n)
  {
    if n == 0 {
      q := 1;
    } else {
      var q' := ScaleIsWhole(n - 1);
      q := 10 * q';
    }
  }

  /** Dividing by a positive number preserves order. */
  lemma DivMonotone(a: real, b: real, p: real)
    requires p > 0.0 && a <= b
    ensures a / p <= b / p
    ensures a < b ==> a / p < b / p
  {
    assert b / p - a / p == (b - a) / p;
  }

  /** Multiplying by a positive number preserves order. */
  lemma MulMonotone(a: real, b: real, p: real)
    requires p > 0.0 && a <= b
    ensures a * p <= b * p
  {
    assert b * p - a * p == (b - a) * p;
  }

  /** The product of two reals, kept as a function of two named factors so that the solver reasons
      about `x * y` with `x` and `y` as separate terms. */
  function Prod(x: real, y: real): real
  {
    x * y
  }

  lemma ProdPositive(x: real, y: real)
    requires (x > 0.0 && y > 0.0) || (x < 0.0 && y < 0.0)
    ensures Prod(x, y) > 0.0
  {
  }

  function Square(a: real): real
  {
    Prod(a, a)
  }

  /** A non-zero real has a positive square; every square is non-negative. */
  lemma SquarePositive(a: real)
    ensures Square(a) >= 0.0
    ensures a != 0.0 ==> Square(a) > 0.0
  {
    if a != 0.0 {
      ProdPositive(a, a);
    }
  }

  /** Multiplying by a non-negative factor preserves order. */
  lemma ProdMonotone(x: real, y: real, p: real)
    requires p >= 0.0 && x <= y
    ensures Prod(x, p) <= Prod(y, p) && Prod(p, x) <= Prod(p, y)
  {
  }

  /** Squaring preserves order on non-negative reals. */
  lemma SquareMonotone(a: real, b: real)
    requires 0.0 <= a <= b
    ensures Square(a) <= Square(b)
  {
    ProdMonotone(a, b, a);
    ProdMonotone(a, b, b);
  }

  /** Only zero squares to zero. */
  lemma SquareZero(a: real)
    requires Square(a) <= 0.0
    ensures a == 0.0
  {
    SquarePositive(a);
  }

  /** Rounding never moves a value by more than half a unit in the last place. */
  lemma RoundBounds(x: real, digits: nat)
    ensures x - 0.5 / Scale(digits) < Round(x, digits) <= x + 0.5 / Scale(digits)
  {
    var p := Scale(digits);
    RoundDef(x, digits, p);
    var k := (x * p + 0.5).Floor as real;
    assert x * p - 0.5 < k <= x * p + 0.5;
    DivMonotone(x * p - 0.5, k, p);
    DivMonotone(k, x * p + 0.5, p);
    assert (x * p - 0.5) / p == x - 0.5 / p;
    assert (x * p + 0.5) / p == x + 0.5 / p;
  }

  /** Rounding preserves order (not necessarily strictly). */
  lemma RoundMonotone(x: real, y: real, digits: nat)
    requires x <= y
    ensures Round(x, digits) <= Round(y, digits)
  {
    var p := Scale(digits);
    RoundDef(x, digits, p);
    RoundDef(y, digits, p);
    MulMonotone(x, y, p);
    var kx, ky := (x * p + 0.5).Floor, (y * p + 0.5).Floor;
    assert kx <= ky;
    DivMonotone(kx as real, ky as real, p);
  }

  /** A multiple of 10^-digits is left unchanged by rounding. */
  lemma RoundOfMultiple(k: int, digits: nat)
    ensures Round(k as real / Scale(digits), digits) == k as real / Scale(digits)
  {
    var p := Scale(digits);
    var x := k as real / p;
    assert x * p == k as real;
    assert (x * p + 0.5).Floor == k;
    RoundDef(x, digits, p);
  }

  /** Rounding twice to the same number of places is rounding once. */
  lemma RoundIdempotent(x: real, digits: nat)
    ensures Round(Round(x, digits), digits) == Round(x, digits)
  {
    var p := Scale(digits);
    RoundDef(x, digits, p);
    var k := (x * p + 0.5).Floor;
    RoundOfMultiple(k, digits);
  }

  /** Whole numbers, in particular 0.0 and 1.0, are fixed points of rounding. */
  lemma RoundOfInt(n: int, digits: nat)
    ensures Round(n as real, digits) == n as real
  {
    var q := ScaleIsWhole(digits);
    var p := Scale(digits);
    assert n as real == (n * q) as real / p;
    RoundOfMultiple(n * q, digits);
  }

  /** A value in [lo, hi] with whole-number bounds rounds into [lo, hi]. */
  lemma RoundWithin(x: real, lo: int, hi: int, digits: nat)
    requires lo as real <= x <= hi as real
    ensures lo as real <= Round(x, digits) <= hi as real
  {
    RoundMonotone(lo as real, x, digits);
    RoundMonotone(x, hi as real, digits);
    RoundOfInt(lo, digits);
    RoundOfInt(hi, digits);
  }

  /** Sum of a sequence of reals, accumulated left to right. */
  function Sum(xs: seq<real>): real
  {
    if |xs| == 0 then 0.0 else Sum(xs[..|xs| - 1]) + xs[|xs| - 1]
  }

  /** `numpy.mean` of a non-empty sequence. */
  function Mean(xs: seq<real>): real
    requires |xs| > 0
  {
    Sum(xs) / (|xs| as real)
  }

  /** Sum of squared distances from `m`. */
  function SquaredDeviations(xs: seq<real>, m: real): real
  {
    if |xs| == 0 then 0.0
    else SquaredDeviations(xs[..|xs| - 1], m) + Square(xs[|xs| - 1] - m)
  }

  /** Population variance (numpy's default `ddof=0`); 0.0 for the empty sequence. */
  function Variance(xs: seq<real>): real
  {
    if |xs| == 0 then 0.0 else SquaredDeviations(xs, Mean(xs)) / (|xs| as real)
  }

  /** `s` is what `numpy.std` returns for `xs`: the non-negative square root of the population variance. */
  predicate IsPopulationStd(xs: seq<real>, s: real)
  {
    s >= 0.0 && Square(s) == Variance(xs)
  }

  predicate Constant(xs: seq<real>)
  {
    forall i, j :: 0 <= i < |xs| && 0 <= j < |xs| ==> xs[i] == xs[j]
  }

  lemma {:induction false} SumOfConstant(xs: seq<real>, c: real)
    requires forall i :: 0 <= i < |xs| ==> xs[i] == c
    ensures Sum(xs) == (|xs| as real) * c
  {
    if |xs| > 0 {
      SumOfConstant(xs[..|xs| - 1], c);
    }
  }

  lemma {:induction false} SumNonNegative(xs: seq<real>)
    requires forall i :: 0 <= i < |xs| ==> xs[i] >= 0.0
    ensures Sum(xs) >= 0.0
  {
    if |xs| > 0 {
      SumNonNegative(xs[..|xs| - 1]);
    }
  }

  /** The squared deviations vanish exactly when every element equals `m`. */
  lemma {:induction false} SquaredDeviationsZeroIff(xs: seq<real>, m: real)
    ensures SquaredDeviations(xs, m) >= 0.0
    ensures SquaredDeviations(xs, m) == 0.0 <==> forall i :: 0 <= i < |xs| ==> xs[i] == m
  {
    if |xs| > 0 {
      var init, last := xs[..|xs| - 1], xs[|xs| - 1];
      SquaredDeviationsZeroIff(init, m);
      assert SquaredDeviations(xs, m) == SquaredDeviations(init, m) + Square(last - m);
      SquarePositive(last - m);
      if SquaredDeviations(xs, m) == 0.0 {
        SquareZero(last - m);
        forall i | 0 <= i < |xs| ensures xs[i] == m {
          if i < |xs| - 1 { assert xs[i] == init[i]; }
        }
      }
      if forall i :: 0 <= i < |xs| ==> xs[i] == m {
        assert forall i :: 0 <= i < |init| ==> init[i] == xs[i];
      }
    }
  }

  /** The population variance is zero exactly for constant sequences. */
  lemma VarianceZeroIffConstant(xs: seq<real>)
    requires |xs| > 0
    ensures Variance(xs) >= 0.0
    ensures Variance(xs) == 0.0 <==> Constant(xs)
  {
    var m := Mean(xs);
    SquaredDeviationsZeroIff(xs, m);
    if Constant(xs) {
      var n := |xs| as real;
      SumOfConstant(xs, xs[0]);
      assert m == (n * xs[0]) / n;
    }
  }

  /** The mean of a constant sequence is its value and its population std is 0. */
  lemma ConstantMeanAndStd(xs: seq<real>, s: real)
    requires |xs| > 0 && Constant(xs) && IsPopulationStd(xs, s)
    ensures Mean(xs) == xs[0] && s == 0.0
  {
    var n := |xs| as real;
    SumOfConstant(xs, xs[0]);
    assert Mean(xs) == (n * xs[0]) / n;
    VarianceZeroIffConstant(xs);
    SquareZero(s);
  }

  /** A sum of values that are all at least `c` (at most `c`) is at least (at most) `|xs| * c`. */
  lemma {:induction false} SumBounds(xs: seq<real>, lo: real, hi: real)
    requires forall i :: 0 <= i < |xs| ==> lo <= xs[i] <= hi
    ensures (|xs| as real) * lo <= Sum(xs) <= (|xs| as real) * hi
  {
    if |xs| > 0 {
      SumBounds(xs[..|xs| - 1], lo, hi);
    }
  }

  lemma DivCancel(n: real, c: real)
    requires n > 0.0
    ensures (n * c) / n == c
  {
  }

  /** Values within [lo, hi] have their mean within [lo, hi]. */
  lemma MeanBounds(xs: seq<real>, lo: real, hi: real)
    requires |xs| > 0
    requires forall i :: 0 <= i < |xs| ==> lo <= xs[i] <= hi
    ensures lo <= Mean(xs) <= hi
  {
    var n := |xs| as real;
    SumBounds(xs, lo, hi);
    DivMonotone(n * lo, Sum(xs), n);
    DivMonotone(Sum(xs), n * hi, n);
    DivCancel(n, lo);
    DivCancel(n, hi);
  }

  /** The mean lies between the smallest and the largest element. */
  lemma MeanWithin(xs: seq<real>)
    requires |xs| > 0
    ensures MinOf(xs) <= Mean(xs) <= MaxOf(xs)
  {
    MeanBounds(xs, MinOf(xs), MaxOf(xs));
  }

  /** Python's `max` over a non-empty list of reals. */
  function MaxOf(xs: seq<real>): (m: real)
    requires |xs| > 0
    ensures forall i :: 0 <= i < |xs| ==> xs[i] <= m
    ensures exists i :: 0 <= i < |xs| && xs[i] == m
  {
    if |xs| == 1 then xs[0]
    else
      var rest := MaxOf(xs[1..]);
      assert forall i :: 1 <= i < |xs| ==> xs[i] == xs[1..][i - 1];
      if xs[0] >= rest then xs[0] else rest
  }

  /** Python's `min` over a non-empty list of reals. */
  function MinOf(xs: seq<real>): (m: real)
    requires |xs| > 0
    ensures forall i :: 0 <= i < |xs| ==> m <= xs[i]
    ensures exists i :: 0 <= i < |xs| && xs[i] == m
  {
    if |xs| == 1 then xs[0]
    else
      var rest := MinOf(xs[1..]);
      assert forall i :: 1 <= i < |xs| ==> xs[i] == xs[1..][i - 1];
      if xs[0] <= rest then xs[0] else rest
  }

  /** Python's `max` over a non-empty list of ints. */
  function IntMax(xs: seq<int>): (m: int)
    requires |xs| > 0
    ensures forall i :: 0 <= i < |xs| ==> xs[i] <= m
    ensures exists i :: 0 <= i < |xs| && xs[i] == m
  {
    if |xs| == 1 then xs[0]
    else
      var rest := IntMax(xs[1..]);
      assert forall i :: 1 <= i < |xs| ==> xs[i] == xs[1..][i - 1];
      if xs[0] >= rest then xs[0] else rest
  }

  /** Python's `sum` over a list of ints. */
  function IntSum(xs: seq<int>): int
  {
    if |xs| == 0 then 0 else IntSum(xs[..|xs| - 1]) + xs[|xs| - 1]
  }

  /** Python's `int(x)` on a float: truncation toward zero. */
  function Trunc(x: real): (n: int)
    ensures x >= 0.0 ==> n as real <= x < n as real + 1.0
    ensures x < 0.0 ==> n as real - 1.0 < x <= n as real
  {
    if x >= 0.0 then x.Floor else -((-x).Floor)
  }

  /** For a non-negative `n`, `int(n / d)` is the integer quotient. */
  lemma TruncOfQuotient(n: int, d: int)
    requires n >= 0 && d > 0
    ensures Trunc(n as real / d as real) == n / d
  {
    var q, r := n / d, n % d;
    var dr := d as real;
    assert q >= 0 && 0 <= r < d;
    assert q as real * dr <= n as real < (q + 1) as real * dr by {
      assert n == q * d + r;
      assert (q * d) as real == q as real * dr;
      assert ((q + 1) * d) as real == (q + 1) as real * dr;
    }
    DivMonotone(q as real * dr, n as real, dr);
    DivMonotone(n as real, (q + 1) as real * dr, dr);
    assert q as real * dr / dr == q as real;
    assert (q + 1) as real * dr / dr == (q + 1) as real;
  }

  /** Python's `abs`. */
  function Abs(x: real): (r: real)
    ensures r >= 0.0 && (r == x || r == -x)
  {
    if x >= 0.0 then x else -x
  }

  /** Python's `min` of two reals. */
  function Min(x: real, y: real): (r: real)
    ensures r <= x && r <= y && (r == x || r == y)
  {
    if x <= y then x else y
  }

  /** Python's `max` of two reals. */
  function Max(x: real, y: real): (r: real)
    ensures r >= x && r >= y && (r == x || r == y)
  {
    if x >= y then x else y
  }
}
