// Window statistics in src/features.rs: Bollinger bands and the CCI.
module Bands {
  import opened Reals
  import opened Series
  import opened Models

  function Deviations(w: seq<real>): (d: seq<real>)
    requires |w| >= 1
    ensures |d| == |w| && forall i :: 0 <= i < |w| ==> d[i] == w[i] - Mean(w, 0, |w|)
  {
    seq(|w|, i requires 0 <= i < |w| => w[i] - Mean(w, 0, |w|))
  }

  function Squares(d: seq<real>): (q: seq<real>)
    ensures |q| == |d| && forall i :: 0 <= i < |d| ==> q[i] == d[i] * d[i]
  {
    seq(|d|, i requires 0 <= i < |d| => d[i] * d[i])
  }

  function Magnitudes(d: seq<real>): (q: seq<real>)
    ensures |q| == |d| && forall i :: 0 <= i < |d| ==> q[i] == Abs(d[i])
  {
    seq(|d|, i requires 0 <= i < |d| => Abs(d[i]))
  }

  /** The sum of squared deviations from the mean. */
  function Scatter(w: seq<real>): real
    requires |w| >= 1
  {
    Sum(Squares(Deviations(w)), 0, |w|)
  }

  /** Sample variance: the source divides by `period - 1`. */
  function SampleVariance(w: seq<real>): real
    requires |w| >= 2
  {
    Scatter(w) / (|w| - 1) as real
  }

  /** `root` is what `f64::sqrt` returns for `v`. */
  ghost predicate IsRoot(v: real, root: real) { 0.0 <= root && root * root == v }

  datatype Bollinger = Bollinger(lower: real, mid: real, upper: real, width: real, position: real)

  function Window(data: seq<real>, period: nat): seq<real>
    requires period <= |data|
  {
    data[|data| - period..]
  }

  /** The five band features; `std` is the square root of the window's sample variance. */
  function Bbands(data: seq<real>, period: nat, mult: real, std: real): (b: Bollinger)
    requires period >= 2
    requires |data| >= period ==> IsRoot(SampleVariance(Window(data, period)), std)
  {
    if |data| < period then Bollinger(0.0, 0.0, 0.0, 0.0, 0.0)
    else
      var mean := Mean(Window(data, period), 0, period);
      var upper := mean + mult * std;
      var lower := mean - mult * std;
      Bollinger(lower, mean, upper,
                if mean != 0.0 then (upper - lower) / mean * 100.0 else 0.0,
                if upper - lower != 0.0 then (data[|data| - 1] - lower) / (upper - lower) else 0.0)
  }

  // ------------------------------------------------------- Samuelson's bound

  lemma CauchyStep(s: real, q: real, x: real, m: real)
    requires 0.0 <= m && 0.0 <= q && s * s <= m * q
    ensures (s + x) * (s + x) <= (m + 1.0) * (q + x * x)
  {
    var gap := q + m * (x * x) - 2.0 * (s * x);
    if m == 0.0 {
      assert m * q == 0.0;
      if s != 0.0 { RootPositive(s, s * s); }
      assert gap == q;
    } else {
      SquareNonNeg(s - m * x);
      assert m * gap == m * q + (m * x) * (m * x) - 2.0 * (s * (m * x));
      assert (s - m * x) * (s - m * x) == s * s - 2.0 * (s * (m * x)) + (m * x) * (m * x);
      assert 0.0 <= m * gap;
      if gap < 0.0 { MulPos(m, -gap); }
    }
    assert (m + 1.0) * (q + x * x) - (s + x) * (s + x) == m * q - s * s + gap;
  }

  /** Cauchy-Schwarz against the all-ones vector. */
  lemma {:induction false} SumSquared(d: seq<real>, n: nat)
    requires n <= |d|
    ensures 0.0 <= Sum(Squares(d), 0, n)
    ensures Sum(d, 0, n) * Sum(d, 0, n) <= n as real * Sum(Squares(d), 0, n)
  {
    if n > 0 {
      SumSquared(d, n - 1);
      SquareNonNeg(d[n - 1]);
      CauchyStep(Sum(d, 0, n - 1), Sum(Squares(d), 0, n - 1), d[n - 1], (n - 1) as real);
    }
  }

  lemma DeviationsCancel(w: seq<real>)
    requires |w| >= 1
    ensures Sum(Deviations(w), 0, |w|) == 0.0
  {
    hide Mean;
    hide Sum;
    MeanTotal(w, 0, |w|);
    CenteredSum(w, Deviations(w), Mean(w, 0, |w|), |w|);
  }

  lemma CenteredSum(w: seq<real>, d: seq<real>, c: real, n: nat)
    requires n <= |w| && n <= |d| && n as real * c == Sum(w, 0, n)
    requires forall i :: 0 <= i < n ==> d[i] == w[i] - c
    ensures Sum(d, 0, n) == 0.0
  {
    DeviationSum(w, d, c, n);
  }

  /** No value of a window can lie further from the mean than the scatter of
      the whole window allows: n * dev^2 <= (n - 1) * scatter. */
  lemma LastDeviationBound(w: seq<real>)
    requires |w| >= 1
    ensures var x := Deviations(w)[|w| - 1];
      |w| as real * (x * x) <= (|w| - 1) as real * Scatter(w)
  {
    var n := |w|;
    var d := Deviations(w);
    DeviationsCancel(w);
    SumSquared(d, n - 1);
    SamuelsonAlgebra(Sum(d, 0, n - 1), d[n - 1], Sum(Squares(d), 0, n - 1), (n - 1) as real);
  }

  lemma SamuelsonAlgebra(s: real, x: real, q: real, m: real)
    requires s + x == 0.0 && s * s <= m * q
    ensures (m + 1.0) * (x * x) <= m * (q + x * x)
  {
    assert s * s == x * x;
  }

  /** The bound is attained at every window length: all values equal but the last. */
  lemma LastDeviationBoundTight(c: real, x: real, n: nat)
    requires n >= 2
    ensures var w := seq(n - 1, _ => c) + [x];
      var d := Deviations(w)[n - 1];
      n as real * (d * d) == (n - 1) as real * Scatter(w)
  {
    hide Mean;
    var w := seq(n - 1, _ => c) + [x];
    var d, e := Deviations(w), c - Mean(w, 0, n);
    DeviationsCancel(w);
    ConstantSums(d, e, n - 1);
    TightAlgebra(d[n - 1], e, (n - 1) as real, Sum(Squares(d), 0, n - 1));
  }

  lemma ConstantSums(d: seq<real>, e: real, m: nat)
    requires m <= |d|
    requires forall i :: 0 <= i < m ==> d[i] == e
    ensures Sum(d, 0, m) == m as real * e && Sum(Squares(d), 0, m) == m as real * (e * e)
  {
    SumBounds(d, 0, m, e, e);
    SumBounds(Squares(d), 0, m, e * e, e * e);
  }

  lemma TightAlgebra(x: real, e: real, m: real, q: real)
    requires m * e + x == 0.0 && q == m * (e * e)
    ensures (m + 1.0) * (x * x) == m * (q + x * x)
  {
    assert x * x == (m * e) * (m * e) == m * (m * (e * e));
  }

  /** With the code's sample variance: n * (close - mean)^2 <= (n - 1)^2 * variance. */
  lemma LastCloseBound(w: seq<real>)
    requires |w| >= 2
    ensures var x := w[|w| - 1] - Mean(w, 0, |w|);
      |w| as real * (x * x) <= (|w| - 1) as real * (|w| - 1) as real * SampleVariance(w)
  {
    var m := (|w| - 1) as real;
    LastDeviationBound(w);
    DivMul(Scatter(w), m);
    MulAssoc(m, m, SampleVariance(w));
  }

  /** So the band position never strays further from the middle than
      4 * mult^2 * n * (bbp - 1/2)^2 <= (n - 1)^2; at the code's multiplier 2 the
      factor is 16. */
  lemma PositionBound(data: seq<real>, period: nat, mult: real, std: real)
    requires 2 <= period <= |data|
    requires IsRoot(SampleVariance(Window(data, period)), std) && mult * std != 0.0
    ensures var x := Bbands(data, period, mult, std).position - 0.5;
      4.0 * (mult * mult) * (period as real * (x * x)) <= (period - 1) as real * (period - 1) as real
  {
    hide Mean;
    hide SampleVariance;
    var w := Window(data, period);
    var n, m := period as real, (period - 1) as real;
    var dev := w[period - 1] - Mean(w, 0, period);
    LastCloseBound(w);
    assert data[|data| - 1] == w[period - 1];
    var h := mult * std;
    PositionFromMiddle(dev, h);
    var x := Bbands(data, period, mult, std).position - 0.5;
    assert x == dev / (2.0 * h) by {
      var b := Bbands(data, period, mult, std);
      assert b.upper - b.lower == 2.0 * h && data[|data| - 1] - b.lower == dev + h;
    }
    DivMul(dev, 2.0 * h);
    PositionAlgebra(x, mult, std, SampleVariance(w), dev, n, m * m);
  }

  lemma PositionFromMiddle(dev: real, h: real)
    requires h != 0.0
    ensures (dev + h) / (2.0 * h) - 0.5 == dev / (2.0 * h)
  {
    DivAdd(dev, h, 2.0 * h);
    DivUnique(h, 2.0 * h, 0.5);
  }

  lemma PositionAlgebra(x: real, mult: real, std: real, v: real, dev: real, n: real, mm: real)
    requires x * (2.0 * (mult * std)) == dev && std * std == v && mult * std != 0.0
    requires n * (dev * dev) <= mm * v
    ensures 4.0 * (mult * mult) * (n * (x * x)) <= mm
  {
    var y := 4.0 * (mult * mult) * (n * (x * x));
    assert dev * dev == 4.0 * (mult * mult) * (x * x) * (std * std) by {
      var k := 2.0 * x * mult;
      assert dev == k * std;
      assert dev * dev == (k * k) * (std * std);
      assert k * k == 4.0 * (mult * mult) * (x * x);
    }
    assert y * v == n * (dev * dev);
    assert std != 0.0;
    RootPositive(std, v);
    CancelPositive(y, mm, v);
  }

  lemma RootPositive(root: real, v: real)
    requires root != 0.0 && root * root == v
    ensures 0.0 < v
  {
    SquareNonNeg(root);
    if v == 0.0 {
      DivUnique(0.0, root, root);
      DivUnique(0.0, root, 0.0);
    }
  }

  lemma CancelPositive(y: real, z: real, v: real)
    requires 0.0 < v && y * v <= z * v
    ensures y <= z
  {
    if y > z { MulPos(y - z, v); }
  }

  /** At the multiplier the engine uses. */
  lemma PositionBoundAtTwo(data: seq<real>, period: nat, std: real)
    requires 2 <= period <= |data|
    requires IsRoot(SampleVariance(Window(data, period)), std)
    requires var b := Bbands(data, period, 2.0, std); b.upper != b.lower
    ensures var x := Bbands(data, period, 2.0, std).position - 0.5;
      16.0 * (period as real * (x * x)) <= (period - 1) as real * (period - 1) as real
  {
    PositionBound(data, period, 2.0, std);
  }

  /** What the five numbers mean: bands level with the mean, `mult` standard
      deviations away, the close at fraction `position` of the way up, and the
      width in percent of the mean. */
  lemma BandsMeaning(data: seq<real>, period: nat, mult: real, std: real)
    requires 2 <= period <= |data| && 0.0 <= mult
    requires IsRoot(SampleVariance(Window(data, period)), std)
    ensures var b := Bbands(data, period, mult, std);
      && b.lower <= b.mid <= b.upper && b.upper - b.mid == b.mid - b.lower
      && (b.upper - b.mid) * (b.upper - b.mid) == mult * mult * SampleVariance(Window(data, period))
      && (b.upper != b.lower ==> b.lower + b.position * (b.upper - b.lower) == data[|data| - 1])
      && (b.mid != 0.0 ==> b.width * b.mid == 100.0 * (b.upper - b.lower))
  {
    hide Mean;
    hide SampleVariance;
    var b := Bbands(data, period, mult, std);
    var h := mult * std;
    MulNonNeg(mult, std);
    assert h * h == mult * mult * (std * std);
    if b.upper != b.lower { DivMul(data[|data| - 1] - b.lower, b.upper - b.lower); }
    if b.mid != 0.0 { DivMul(b.upper - b.lower, b.mid); }
  }

  // -------------------------------------------------------------------- CCI

  function TypicalPrices(bars: seq<Kline>): (tp: seq<real>)
    ensures |tp| == |bars|
    ensures forall i :: 0 <= i < |bars| ==> tp[i] == (bars[i].high + bars[i].low + bars[i].close) / 3.0
  {
    seq(|bars|, i requires 0 <= i < |bars| => (bars[i].high + bars[i].low + bars[i].close) / 3.0)
  }

  /** The mean absolute deviation of a window. */
  function Mad(w: seq<real>): real
    requires |w| >= 1
  {
    Mean(Magnitudes(Deviations(w)), 0, |w|)
  }

  function Cci(bars: seq<Kline>, period: nat, c: real): real
    requires period >= 1 && c != 0.0
  {
    if |bars| < period then 0.0
    else
      var tp := TypicalPrices(bars[|bars| - period..]);
      InUnits(tp[period - 1] - Mean(tp, 0, period), c, Mad(tp))
  }

  /** A deviation in units of c times the mean absolute deviation, zero if there is hardly any. */
  function InUnits(dev: real, c: real, mad: real): real
    requires c != 0.0
  {
    if mad < 0.000000000001 then 0.0 else dev / (c * mad)
  }

  lemma {:induction false} TriangleSum(d: seq<real>, n: nat)
    requires n <= |d|
    ensures Abs(Sum(d, 0, n)) <= Sum(Magnitudes(d), 0, n)
  {
    if n > 0 {
      TriangleSum(d, n - 1);
    }
  }

  /** Since deviations cancel, one of them is at most half of all of them together. */
  lemma LastDeviationAtMostHalf(w: seq<real>)
    requires |w| >= 1
    ensures 2.0 * Abs(Deviations(w)[|w| - 1]) <= |w| as real * Mad(w)
  {
    var n, d := |w|, Deviations(w);
    DeviationsCancel(w);
    TriangleSum(d, n - 1);
    DivMul(Sum(Magnitudes(d), 0, n), n as real);
  }

  /** |CCI| <= period / (2c) whatever the bars: about 666.7 at 20 and 0.015. */
  lemma CciBound(bars: seq<Kline>, period: nat, c: real)
    requires period >= 1 && c > 0.0
    ensures 2.0 * c * Abs(Cci(bars, period, c)) <= period as real
  {
    if |bars| >= period {
      var tp := TypicalPrices(bars[|bars| - period..]);
      if Mad(tp) >= 0.000000000001 {
        LastDeviationAtMostHalf(tp);
        CciAlgebra(Deviations(tp)[period - 1], Mad(tp), c, period as real);
      }
    }
  }

  lemma CciAlgebra(dev: real, mad: real, c: real, n: real)
    requires 2.0 * Abs(dev) <= n * mad && 0.0 < mad && 0.0 < c
    ensures 2.0 * c * Abs(dev / (c * mad)) <= n
  {
    MulPos(c, mad);
    var q := dev / (c * mad);
    DivMul(dev, c * mad);
    MulAssoc(q, c, mad);
    var y := 2.0 * c * Abs(q);
    assert y * mad == 2.0 * Abs(dev) by {
      if q >= 0.0 { MulNonNeg(q, c * mad); } else { MulPos(-q, c * mad); }
    }
    if y > n { MulPos(y - n, mad); assert (y - n) * mad == y * mad - n * mad; }
  }

  lemma {:induction false} SumOpposite(s: seq<real>, t: seq<real>, n: nat)
    requires n <= |s| && n <= |t|
    requires forall i :: 0 <= i < n ==> t[i] == -s[i]
    ensures Sum(t, 0, n) == -Sum(s, 0, n)
  {
    if n > 0 { SumOpposite(s, t, n - 1); }
  }

  lemma MeanOpposite(s: seq<real>, t: seq<real>)
    requires |s| == |t| >= 1
    requires forall i :: 0 <= i < |s| ==> t[i] == -s[i]
    ensures Mean(t, 0, |t|) == -Mean(s, 0, |s|)
  {
    var n := |s|;
    SumOpposite(s, t, n);
    DivMul(Sum(s, 0, n), n as real);
    DivUnique(Sum(t, 0, n), n as real, -Mean(s, 0, n));
  }

  lemma MadOpposite(s: seq<real>, t: seq<real>)
    requires |s| == |t| >= 1
    requires forall i :: 0 <= i < |s| ==> t[i] == -s[i]
    ensures Mad(t) == Mad(s)
  {
    hide Mean;
    MeanOpposite(s, t);
    assert Magnitudes(Deviations(t)) == Magnitudes(Deviations(s));
  }

  /** The CCI is the last deviation in units of c times the mean absolute
      deviation: positive exactly above the mean, zero on a flat window. */
  lemma CciMeaning(bars: seq<Kline>, period: nat, c: real)
    requires 1 <= period <= |bars| && c > 0.0
    ensures var tp := TypicalPrices(bars[|bars| - period..]);
      var dev := tp[period - 1] - Mean(tp, 0, period);
      && (Mad(tp) >= 0.000000000001 ==> Cci(bars, period, c) * (c * Mad(tp)) == dev)
      && (Cci(bars, period, c) > 0.0 <==> Mad(tp) >= 0.000000000001 && dev > 0.0)
  {
    hide Mean;
    hide Mad;
    var tp := TypicalPrices(bars[|bars| - period..]);
    var dev, mad := tp[period - 1] - Mean(tp, 0, period), Mad(tp);
    if mad >= 0.000000000001 {
      MulPos(c, mad);
      DivMul(dev, c * mad);
      DivLe(dev, c * mad, 0.0);
    }
  }

  lemma OppositeUnits(dev: real, c: real, mad: real)
    requires c != 0.0
    ensures InUnits(-dev, c, mad) == -InUnits(dev, c, mad)
  {
    if mad >= 0.000000000001 {
      DivMul(dev, c * mad);
      DivUnique(-dev, c * mad, -(dev / (c * mad)));
    }
  }

  /** Turning the market upside down turns the CCI into its opposite. */
  lemma CciMirror(bars: seq<Kline>, period: nat, c: real)
    requires 1 <= period <= |bars| && c > 0.0
    ensures Cci(Mirror(bars), period, c) == -Cci(bars, period, c)
  {
    hide Mean;
    hide Mad;
    hide InUnits;
    var tp, un := TypicalPrices(bars[|bars| - period..]), TypicalPrices(Mirror(bars)[|bars| - period..]);
    assert forall i :: 0 <= i < period ==> un[i] == -tp[i];
    MeanOpposite(tp, un);
    MadOpposite(tp, un);
    OppositeUnits(tp[period - 1] - Mean(tp, 0, period), c, Mad(tp));
  }
}
