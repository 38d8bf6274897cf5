// Recursive smoothing in src/features.rs: the EMA, Wilder's RMA and the ATR.
module Smoothing {
  import opened Reals
  import opened Series
  import opened Models

  /** The recurrence all three loops run: `seed` at index `m`, then one blend per element. */
  function Smooth(data: seq<real>, a: real, seed: real, m: nat, i: nat): real
    requires m <= i < |data|
    decreases i
  {
    if i == m then seed else Blend(a, data[i], Smooth(data, a, seed, m, i - 1))
  }

  /** Zero until `period` elements are there, then seeded with their mean. */
  function MeanSeeded(data: seq<real>, a: real, period: nat, i: nat): real
    requires period >= 1 && i < |data|
  {
    if i + 1 < period then 0.0
    else Smooth(data, a, Mean(data, 0, period), period - 1, i)
  }

  function EmaFactor(period: nat): real { 2.0 / (period as real + 1.0) }

  function WilderFactor(period: nat): real
    requires period >= 1
  {
    1.0 / period as real
  }

  function EmaAt(data: seq<real>, period: nat, i: nat): real
    requires period >= 1 && i < |data|
  {
    MeanSeeded(data, EmaFactor(period), period, i)
  }

  function RmaAt(data: seq<real>, period: nat, i: nat): real
    requires period >= 1 && i < |data|
  {
    MeanSeeded(data, WilderFactor(period), period, i)
  }

  // ---------------------------------------------------------------- loops

  method EmaSeries(data: seq<real>, period: nat) returns (out: seq<real>)
    requires period >= 1
    ensures |out| == |data|
    ensures forall i :: 0 <= i < |data| ==> out[i] == EmaAt(data, period, i)
  {
    var n := |data|;
    out := seq(n, _ => 0.0);
    if n < period { return; }
    var k := 2.0 / (period as real + 1.0);
    var seed := Mean(data, 0, period);
    out := out[period - 1 := seed];
    for i := period to n
      invariant |out| == n
      invariant forall j :: 0 <= j < i ==> out[j] == EmaAt(data, period, j)
    {
      out := out[i := data[i] * k + out[i - 1] * (1.0 - k)];
      assert out[i] == Blend(k, data[i], out[i - 1]);
    }
  }

  method RmaSeries(data: seq<real>, period: nat) returns (out: seq<real>)
    requires period >= 1
    ensures |out| == |data|
    ensures forall i :: 0 <= i < |data| ==> out[i] == RmaAt(data, period, i)
  {
    var n := |data|;
    out := seq(n, _ => 0.0);
    if n < period { return; }
    var seed := Mean(data, 0, period);
    out := out[period - 1 := seed];
    var alpha := 1.0 / period as real;
    for i := period to n
      invariant |out| == n
      invariant forall j :: 0 <= j < i ==> out[j] == RmaAt(data, period, j)
    {
      out := out[i := alpha * data[i] + (1.0 - alpha) * out[i - 1]];
      assert out[i] == Blend(alpha, data[i], out[i - 1]);
    }
  }

  // ---------------------------------------------------- facts about smoothing

  lemma {:induction false} SmoothBounds(data: seq<real>, a: real, seed: real, m: nat, i: nat, lo: real, hi: real)
    requires m <= i < |data| && 0.0 <= a <= 1.0 && lo <= seed <= hi
    requires forall j :: m < j <= i ==> lo <= data[j] <= hi
    ensures lo <= Smooth(data, a, seed, m, i) <= hi
    decreases i
  {
    hide Blend;
    if i > m {
      SmoothBounds(data, a, seed, m, i - 1, lo, hi);
      BlendBounds(a, data[i], Smooth(data, a, seed, m, i - 1), lo, hi);
    }
  }

  lemma MeanBounds(data: seq<real>, lo: nat, period: nat, a: real, b: real)
    requires period >= 1 && lo + period <= |data|
    requires forall j :: lo <= j < lo + period ==> a <= data[j] <= b
    ensures a <= Mean(data, lo, period) <= b
  {
    SumBounds(data, lo, lo + period, a, b);
    DivLe(Sum(data, lo, lo + period), period as real, a);
    DivLe(Sum(data, lo, lo + period), period as real, b);
  }

  /** Once seeded, a mean-seeded average never leaves the range of what it has been fed. */
  lemma MeanSeededBounds(data: seq<real>, a: real, period: nat, i: nat, lo: real, hi: real)
    requires 1 <= period <= i + 1 && i < |data| && 0.0 <= a <= 1.0
    requires forall j :: 0 <= j <= i ==> lo <= data[j] <= hi
    ensures lo <= MeanSeeded(data, a, period, i) <= hi
  {
    MeanBounds(data, 0, period, lo, hi);
    SmoothBounds(data, a, Mean(data, 0, period), period - 1, i, lo, hi);
  }

  lemma MeanNonNegative(s: seq<real>, lo: nat, n: nat)
    requires n >= 1 && lo + n <= |s|
    requires forall j :: lo <= j < lo + n ==> 0.0 <= s[j]
    ensures 0.0 <= Mean(s, lo, n)
  {
    SumZeroIff(s, lo, lo + n);
    DivLe(Sum(s, lo, lo + n), n as real, 0.0);
  }

  lemma {:induction false} NonNegativeSmooth(s: seq<real>, a: real, seed: real, m: nat, i: nat)
    requires m <= i < |s| && 0.0 <= a <= 1.0 && 0.0 <= seed
    requires forall j :: m < j <= i ==> 0.0 <= s[j]
    ensures 0.0 <= Smooth(s, a, seed, m, i)
    decreases i
  {
    if i > m {
      NonNegativeSmooth(s, a, seed, m, i - 1);
      BlendLe(a, 0.0, 0.0, s[i], Smooth(s, a, seed, m, i - 1));
    }
  }

  lemma RmaNonNegative(s: seq<real>, period: nat, i: nat)
    requires period >= 1 && i < |s|
    requires forall j :: 0 <= j <= i ==> 0.0 <= s[j]
    ensures 0.0 <= RmaAt(s, period, i)
  {
    hide Blend;
    hide Mean;
    hide WilderFactor;
    if i + 1 >= period {
      FactorInUnit(period);
      MeanNonNegative(s, 0, period);
      NonNegativeSmooth(s, WilderFactor(period), Mean(s, 0, period), period - 1, i);
    }
  }

  lemma FactorInUnit(period: nat)
    requires period >= 1
    ensures 0.0 < EmaFactor(period) <= 1.0
    ensures 0.0 < WilderFactor(period) <= 1.0
    ensures period >= 2 ==> WilderFactor(period) < 1.0
  {
  }

  /** The EMA stays between the least and the greatest value it has seen. */
  lemma EmaBounds(data: seq<real>, period: nat, i: nat, lo: real, hi: real)
    requires 1 <= period <= i + 1 && i < |data|
    requires forall j :: 0 <= j <= i ==> lo <= data[j] <= hi
    ensures lo <= EmaAt(data, period, i) <= hi
  {
    FactorInUnit(period);
    MeanSeededBounds(data, EmaFactor(period), period, i, lo, hi);
  }

  /** Each step by the textbook: the new value counts 2 in period + 1, the old average the
      rest, and the start is the mean. */
  lemma EmaByTheBook(data: seq<real>, period: nat, i: nat)
    requires 1 <= period <= i < |data|
    ensures (period as real + 1.0) * EmaAt(data, period, i) == 2.0 * data[i] + (period as real - 1.0) * EmaAt(data, period, i - 1)
    ensures period as real * EmaAt(data, period, period - 1) == Sum(data, 0, period)
  {
    FactorsByTheBook(period);
    SeedByTheBook(data, EmaFactor(period), period);
    MeanSeededStep(data, EmaFactor(period), period, i, period as real + 1.0, 2.0, period as real - 1.0);
    hide MeanSeeded;
    hide EmaFactor;
    hide Sum;
  }

  /** For Wilder's average the new value counts 1 in period. */
  lemma RmaByTheBook(data: seq<real>, period: nat, i: nat)
    requires 1 <= period <= i < |data|
    ensures period as real * RmaAt(data, period, i) == data[i] + (period as real - 1.0) * RmaAt(data, period, i - 1)
    ensures period as real * RmaAt(data, period, period - 1) == Sum(data, 0, period)
  {
    FactorsByTheBook(period);
    SeedByTheBook(data, WilderFactor(period), period);
    MeanSeededStep(data, WilderFactor(period), period, i, period as real, 1.0, period as real - 1.0);
    hide MeanSeeded;
    hide WilderFactor;
    hide Sum;
  }

  lemma FactorsByTheBook(period: nat)
    requires period >= 1
    ensures (period as real + 1.0) * EmaFactor(period) == 2.0 && period as real * WilderFactor(period) == 1.0
  {
    DivMul(2.0, period as real + 1.0);
    DivMul(1.0, period as real);
  }

  lemma SeedByTheBook(data: seq<real>, a: real, period: nat)
    requires 1 <= period <= |data|
    ensures period as real * MeanSeeded(data, a, period, period - 1) == Sum(data, 0, period)
  {
    MeanTotal(data, 0, period);
    hide Mean;
  }

  lemma MeanSeededStep(data: seq<real>, a: real, period: nat, i: nat, n: real, w: real, v: real)
    requires 1 <= period <= i < |data| && n * a == w && v == n - w
    ensures n * MeanSeeded(data, a, period, i) == w * data[i] + v * MeanSeeded(data, a, period, i - 1)
  {
    BookStep(a, n, w, v, data[i], MeanSeeded(data, a, period, i - 1));
    hide Mean;
    hide Blend;
  }

  lemma BookStep(a: real, n: real, w: real, v: real, x: real, y: real)
    requires n * a == w && v == n - w
    ensures n * Blend(a, x, y) == w * x + v * y
  {
    assert n * (a * x) == (n * a) * x;
    assert n * (1.0 - a) == v;
    assert n * ((1.0 - a) * y) == (n * (1.0 - a)) * y;
  }

  /** The weight the closed form gives element `j` at index `i`. */
  function Weight(a: real, period: nat, i: nat, j: nat): real
    requires 1 <= period <= i + 1 && j <= i
  {
    if j < period then Pow(1.0 - a, i + 1 - period) / period as real
    else a * Pow(1.0 - a, i - j)
  }

  /** The terms of the closed form at index `i`: each element times its weight. */
  function Terms(data: seq<real>, a: real, period: nat, i: nat): (t: seq<real>)
    requires 1 <= period <= i + 1 && i < |data|
    ensures |t| == i + 1 && forall j :: 0 <= j <= i ==> t[j] == Weight(a, period, i, j) * data[j]
  {
    seq(i + 1, j requires 0 <= j <= i => Weight(a, period, i, j) * data[j])
  }

  function WeightedSum(data: seq<real>, a: real, period: nat, i: nat): real
    requires 1 <= period <= i + 1 && i < |data|
  {
    Sum(Terms(data, a, period, i), 0, i + 1)
  }

  /** Every weight decays by the same factor at each step. */
  lemma WeightStep(a: real, period: nat, i: nat, j: nat)
    requires 1 <= period <= i && j < i
    ensures Weight(a, period, i, j) == (1.0 - a) * Weight(a, period, i - 1, j)
  {
    if j < period {
      DivOut(1.0 - a, Pow(1.0 - a, i - period), period as real);
    } else {
      var q := Pow(1.0 - a, i - 1 - j);
      MulAssoc(a, 1.0 - a, q);
      MulAssoc(1.0 - a, a, q);
    }
  }

  lemma TermStep(data: seq<real>, a: real, period: nat, i: nat, j: nat)
    requires 1 <= period <= i && j < i < |data|
    ensures Terms(data, a, period, i)[j] == (1.0 - a) * Terms(data, a, period, i - 1)[j]
  {
    WeightStep(a, period, i, j);
    MulAssoc(1.0 - a, Weight(a, period, i - 1, j), data[j]);
  }

  lemma SeedIsWeightedSum(data: seq<real>, a: real, period: nat)
    requires 1 <= period <= |data|
    ensures WeightedSum(data, a, period, period - 1) == Mean(data, 0, period)
  {
    var t, q := Terms(data, a, period, period - 1), 1.0 / period as real;
    forall j | 0 <= j < period ensures t[j] == q * data[j] {
      SeedTerm(data, a, period, j);
    }
    SumScale(data, t, q, 0, period);
    DivAsProduct(Sum(data, 0, period), period as real);
  }

  lemma SeedTerm(data: seq<real>, a: real, period: nat, j: nat)
    requires 1 <= period <= |data| && j < period
    ensures Terms(data, a, period, period - 1)[j] == 1.0 / period as real * data[j]
  {
  }

  lemma LastTerm(data: seq<real>, a: real, period: nat, i: nat)
    requires 1 <= period <= i < |data|
    ensures Terms(data, a, period, i)[i] == a * data[i]
  {
    assert Pow(1.0 - a, 0) == 1.0;
  }

  lemma WeightedSumStep(data: seq<real>, a: real, period: nat, i: nat)
    requires 1 <= period <= i < |data|
    ensures WeightedSum(data, a, period, i) == Blend(a, data[i], WeightedSum(data, a, period, i - 1))
  {
    hide Blend;
    hide Weight;
    var t, u := Terms(data, a, period, i), Terms(data, a, period, i - 1);
    forall j | 0 <= j < i ensures t[j] == (1.0 - a) * u[j] {
      TermStep(data, a, period, i, j);
    }
    SumScale(u, t, 1.0 - a, 0, i);
    LastTerm(data, a, period, i);
    BlendParts(a, data[i], Sum(u, 0, i), t[i], Sum(t, 0, i));
  }

  /** The loop computes the closed form: a weighted sum of everything seen so far. */
  lemma {:induction false} MeanSeededIsWeightedSum(data: seq<real>, a: real, period: nat, i: nat)
    requires 1 <= period <= i + 1 && i < |data|
    ensures MeanSeeded(data, a, period, i) == WeightedSum(data, a, period, i)
    decreases i
  {
    hide Blend;
    hide Weight;
    if i + 1 == period {
      SeedIsWeightedSum(data, a, period);
    } else {
      MeanSeededIsWeightedSum(data, a, period, i - 1);
      WeightedSumStep(data, a, period, i);
    }
  }

  lemma WeightNonNegative(a: real, period: nat, i: nat, j: nat)
    requires 1 <= period <= i + 1 && j <= i && 0.0 <= a <= 1.0
    ensures 0.0 <= Weight(a, period, i, j)
  {
    PowBounds(1.0 - a, i + 1 - period);
    PowBounds(1.0 - a, if j < period then 0 else i - j);
    if j >= period {
      ProductInUnit(a, Pow(1.0 - a, i - j));
    }
  }

  /** EMA = weighted sum with non-negative weights that total one. */
  lemma EmaClosedForm(data: seq<real>, period: nat, i: nat)
    requires 1 <= period <= i + 1 && i < |data|
    ensures EmaAt(data, period, i) == WeightedSum(data, EmaFactor(period), period, i)
    ensures forall j :: 0 <= j <= i ==> 0.0 <= Weight(EmaFactor(period), period, i, j)
    ensures WeightedSum(seq(|data|, _ => 1.0), EmaFactor(period), period, i) == 1.0
  {
    var k := EmaFactor(period);
    FactorInUnit(period);
    MeanSeededIsWeightedSum(data, k, period, i);
    forall j | 0 <= j <= i ensures 0.0 <= Weight(k, period, i, j) {
      WeightNonNegative(k, period, i, j);
    }
    var ones := seq(|data|, _ => 1.0);
    MeanSeededIsWeightedSum(ones, k, period, i);
    MeanSeededBounds(ones, k, period, i, 1.0, 1.0);
  }

  lemma {:induction false} SmoothForgets(x: seq<real>, y: seq<real>, a: real, sx: real, sy: real, p: nat, m: nat, i: nat)
    requires p <= m <= i < |x| && i < |y|
    requires forall j :: m < j <= i ==> x[j] == y[j]
    ensures Smooth(x, a, sx, p, i) - Smooth(y, a, sy, p, i)
         == Pow(1.0 - a, i - m) * (Smooth(x, a, sx, p, m) - Smooth(y, a, sy, p, m))
    decreases i
  {
    hide Blend;
    if i > m {
      SmoothForgets(x, y, a, sx, sy, p, m, i - 1);
      BlendGap(a, x[i], Smooth(x, a, sx, p, i - 1), Smooth(y, a, sy, p, i - 1), Pow(1.0 - a, i - 1 - m),
               Pow(1.0 - a, i - m), Smooth(x, a, sx, p, m) - Smooth(y, a, sy, p, m));
    }
  }

  /** Two EMAs fed the same data after `m` keep exactly (1-k)^(i-m) of the gap they had at `m`. */
  lemma EmaForgets(x: seq<real>, y: seq<real>, period: nat, m: nat, i: nat)
    requires 1 <= period <= m + 1 && m <= i < |x| && i < |y|
    requires forall j :: m < j <= i ==> x[j] == y[j]
    ensures EmaAt(x, period, i) - EmaAt(y, period, i)
         == Pow(1.0 - EmaFactor(period), i - m) * (EmaAt(x, period, m) - EmaAt(y, period, m))
  {
    hide Blend;
    SmoothForgets(x, y, EmaFactor(period), Mean(x, 0, period), Mean(y, 0, period), period - 1, m, i);
  }

  /** Smoothing sees only the elements after the seed, wherever they are stored. */
  lemma {:induction false} SmoothShift(s: seq<real>, t: seq<real>, a: real, seed: real, m: nat, i: nat, d: nat)
    requires m <= i < |t| && i + d < |s|
    requires forall j :: m < j <= i ==> t[j] == s[j + d]
    ensures Smooth(t, a, seed, m, i) == Smooth(s, a, seed, m + d, i + d)
    decreases i
  {
    hide Blend;
    if i > m {
      SmoothShift(s, t, a, seed, m, i - 1, d);
    }
  }

  lemma {:induction false} SmoothAdd(s: seq<real>, t: seq<real>, u: seq<real>, a: real, ss: real, st: real, m: nat, i: nat)
    requires m <= i < |s| && i < |t| && i < |u|
    requires forall j :: m < j <= i ==> u[j] == s[j] + t[j]
    ensures Smooth(u, a, ss + st, m, i) == Smooth(s, a, ss, m, i) + Smooth(t, a, st, m, i)
    decreases i
  {
    hide Blend;
    if i > m {
      SmoothAdd(s, t, u, a, ss, st, m, i - 1);
      BlendAdd(a, s[i], Smooth(s, a, ss, m, i - 1), t[i], Smooth(t, a, st, m, i - 1));
    }
  }

  lemma {:induction false} SmoothLe(s: seq<real>, t: seq<real>, a: real, ss: real, st: real, m: nat, i: nat)
    requires m <= i < |s| && i < |t| && 0.0 <= a <= 1.0 && ss <= st
    requires forall j :: m < j <= i ==> s[j] <= t[j]
    ensures Smooth(s, a, ss, m, i) <= Smooth(t, a, st, m, i)
    decreases i
  {
    hide Blend;
    if i > m {
      SmoothLe(s, t, a, ss, st, m, i - 1);
      BlendLe(a, s[i], Smooth(s, a, ss, m, i - 1), t[i], Smooth(t, a, st, m, i - 1));
    }
  }

  /** With 0 < a < 1 nothing is ever forgotten completely: the average of
      non-negative data is zero exactly when the seed and all the data are. */
  lemma {:induction false} SmoothZeroIff(s: seq<real>, a: real, seed: real, m: nat, i: nat)
    requires m <= i < |s| && 0.0 < a < 1.0 && 0.0 <= seed
    requires forall j :: m < j <= i ==> 0.0 <= s[j]
    ensures 0.0 <= Smooth(s, a, seed, m, i)
    ensures Smooth(s, a, seed, m, i) == 0.0 <==> seed == 0.0 && forall j :: m < j <= i ==> s[j] == 0.0
    decreases i
  {
    hide Blend;
    if i > m {
      SmoothZeroIff(s, a, seed, m, i - 1);
      BlendZeroIff(a, s[i], Smooth(s, a, seed, m, i - 1));
    }
  }

  // ------------------------------------------------------------------ ATR

  function TrueRange(bars: seq<Kline>, i: nat): real
    requires i < |bars|
  {
    var hl := bars[i].high - bars[i].low;
    if i == 0 then hl
    else Max(Max(hl, Abs(bars[i].high - bars[i - 1].close)), Abs(bars[i].low - bars[i - 1].close))
  }

  /** The true range is how far the bar reaches together with the close before it. */
  lemma TrueRangeIsHull(bars: seq<Kline>, i: nat)
    requires i < |bars| && bars[i].low <= bars[i].high
    ensures var prev := if i == 0 then bars[i].low else bars[i - 1].close;
      TrueRange(bars, i) == Max(bars[i].high, prev) - Min(bars[i].low, prev)
  {
  }

  function TrueRanges(bars: seq<Kline>): (tr: seq<real>)
    ensures |tr| == |bars| && forall i :: 0 <= i < |bars| ==> tr[i] == TrueRange(bars, i)
  {
    seq(|bars|, i requires 0 <= i < |bars| => TrueRange(bars, i))
  }

  /** The ATR ignores the first bar's range: it is seeded at index `period`. */
  function AtrAt(bars: seq<Kline>, period: nat, i: nat): real
    requires period >= 1 && i < |bars|
  {
    if i < period then 0.0
    else Smooth(TrueRanges(bars), WilderFactor(period), Mean(TrueRanges(bars), 1, period), period, i)
  }

  /** The step the ATR and RSI loops run, written as they write it. */
  function WilderNext(prev: real, x: real, period: nat): real
    requires period >= 1
  {
    (prev * (period as real - 1.0) + x) / period as real
  }

  lemma WilderNextIsBlend(prev: real, x: real, period: nat)
    requires period >= 1
    ensures WilderNext(prev, x, period) == Blend(WilderFactor(period), x, prev)
  {
    BlendWilder(x, prev, period as real);
  }

  method AtrSeries(bars: seq<Kline>, period: nat) returns (out: seq<real>)
    requires period >= 1
    ensures |out| == |bars|
    ensures forall i :: 0 <= i < |bars| ==> out[i] == AtrAt(bars, period, i)
  {
    hide Blend;
    hide Mean;
    hide WilderNext;
    hide WilderFactor;
    var n := |bars|;
    out := seq(n, _ => 0.0);
    if n <= period { return; }
    var tr := seq(n, _ => 0.0);
    tr := tr[0 := bars[0].high - bars[0].low];
    for i := 1 to n
      invariant |tr| == n
      invariant forall j :: 0 <= j < i ==> tr[j] == TrueRange(bars, j)
    {
      var hl := bars[i].high - bars[i].low;
      var hpc := Abs(bars[i].high - bars[i - 1].close);
      var lpc := Abs(bars[i].low - bars[i - 1].close);
      tr := tr[i := Max(Max(hl, hpc), lpc)];
    }
    assert tr == TrueRanges(bars);
    var seed := Mean(tr, 1, period);
    out := out[period := seed];
    for i := period + 1 to n
      invariant |out| == n
      invariant forall j :: 0 <= j < i ==> out[j] == AtrAt(bars, period, j)
    {
      WilderNextIsBlend(out[i - 1], tr[i], period);
      out := out[i := WilderNext(out[i - 1], tr[i], period)];
    }
  }

  lemma MeanShift(s: seq<real>, n: nat)
    requires 1 <= n < |s|
    ensures Mean(s[1..], 0, n) == Mean(s, 1, n)
  {
    SumShift(s, s[1..], 0, n, 1);
  }

  /** The ATR is the RMA of the true ranges with the first bar dropped, one place
      later, zero-padded prefix included. */
  lemma AtrIsRma(bars: seq<Kline>, period: nat, i: nat)
    requires period >= 1 && 1 <= i < |bars|
    ensures AtrAt(bars, period, i) == RmaAt(TrueRanges(bars)[1..], period, i - 1)
  {
    hide Blend;
    hide WilderFactor;
    var tr := TrueRanges(bars);
    if i >= period {
      MeanShift(tr, period);
      hide Mean;
      SmoothShift(tr, tr[1..], WilderFactor(period), Mean(tr, 1, period), period - 1, i - 1, 1);
    }
  }
}
