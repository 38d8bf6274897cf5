// Directional movement in src/features.rs: DMP, DMN, ADX and ADXR.
module Adx {
  import opened Reals
  import opened Series
  import opened Models
  import opened Smoothing

  function Up(bars: seq<Kline>, i: nat): real
    requires i < |bars|
  {
    if i == 0 then 0.0 else bars[i].high - bars[i - 1].high
  }

  function Down(bars: seq<Kline>, i: nat): real
    requires i < |bars|
  {
    if i == 0 then 0.0 else bars[i - 1].low - bars[i].low
  }

  function PlusDm(bars: seq<Kline>): (dm: seq<real>)
    ensures |dm| == |bars|
    ensures forall i :: 0 <= i < |bars| ==>
      dm[i] == if Up(bars, i) > Down(bars, i) && Up(bars, i) > 0.0 then Up(bars, i) else 0.0
  {
    seq(|bars|, i requires 0 <= i < |bars| =>
      if Up(bars, i) > Down(bars, i) && Up(bars, i) > 0.0 then Up(bars, i) else 0.0)
  }

  function MinusDm(bars: seq<Kline>): (dm: seq<real>)
    ensures |dm| == |bars|
    ensures forall i :: 0 <= i < |bars| ==>
      dm[i] == if Down(bars, i) > Up(bars, i) && Down(bars, i) > 0.0 then Down(bars, i) else 0.0
  {
    seq(|bars|, i requires 0 <= i < |bars| =>
      if Down(bars, i) > Up(bars, i) && Down(bars, i) > 0.0 then Down(bars, i) else 0.0)
  }

  function Ratio(d: real, a: real): real { if a != 0.0 then d / a else 0.0 }

  /** The directional indicator: smoothed movement over the ATR. */
  function DiAt(dm: seq<real>, bars: seq<Kline>, period: nat, i: nat): real
    requires period >= 1 && |dm| == |bars| && i < |bars|
  {
    Ratio(RmaAt(dm, period, i), AtrAt(bars, period, i))
  }

  function Imbalance(p: real, m: real): real {
    if p + m != 0.0 then Abs(p - m) / (p + m) * 100.0 else 0.0
  }

  function Dx(bars: seq<Kline>, period: nat): (dx: seq<real>)
    requires period >= 1
    ensures |dx| == |bars|
    ensures forall i :: 0 <= i < |bars| ==>
      dx[i] == Imbalance(DiAt(PlusDm(bars), bars, period, i), DiAt(MinusDm(bars), bars, period, i))
  {
    seq(|bars|, i requires 0 <= i < |bars| =>
      Imbalance(DiAt(PlusDm(bars), bars, period, i), DiAt(MinusDm(bars), bars, period, i)))
  }

  datatype Reading = Reading(adx: real, adxr: real, dmp: real, dmn: real)

  /** What the four outputs are in terms of the smoothed series. */
  function ReadingOf(bars: seq<Kline>, period: nat): Reading
    requires period >= 1
  {
    var n := |bars|;
    if n <= 2 * period then Reading(20.0, 20.0, 20.0, 20.0)
    else
      var adx := RmaAt(Dx(bars, period), period, n - 1);
      Reading(adx, (adx + RmaAt(Dx(bars, period), period, n - 3)) / 2.0,
              DiAt(PlusDm(bars), bars, period, n - 1) * 100.0,
              DiAt(MinusDm(bars), bars, period, n - 1) * 100.0)
  }

  method RmaDiv(dm: seq<real>, atr: seq<real>, period: nat) returns (out: seq<real>)
    requires period >= 1 && |dm| == |atr|
    ensures |out| == |dm|
    ensures forall i :: 0 <= i < |dm| ==> out[i] == Ratio(RmaAt(dm, period, i), atr[i])
  {
    var smoothed := RmaSeries(dm, period);
    out := seq(|dm|, i requires 0 <= i < |dm| => if atr[i] != 0.0 then smoothed[i] / atr[i] else 0.0);
  }

  method AdxSeries(bars: seq<Kline>, period: nat) returns (r: Reading)
    requires period >= 1
    ensures r == ReadingOf(bars, period)
  {
    hide MeanSeeded;
    hide AtrAt;
    hide Ratio;
    hide Imbalance;
    var n := |bars|;
    if n <= 2 * period { return Reading(20.0, 20.0, 20.0, 20.0); }
    var atr := AtrSeries(bars, period);
    var dmPlus, dmMinus := seq(n, _ => 0.0), seq(n, _ => 0.0);
    for i := 1 to n
      invariant |dmPlus| == n && |dmMinus| == n
      invariant forall j :: 0 <= j < i ==> dmPlus[j] == PlusDm(bars)[j] && dmMinus[j] == MinusDm(bars)[j]
      invariant forall j :: i <= j < n ==> dmPlus[j] == 0.0 && dmMinus[j] == 0.0
    {
      var up := bars[i].high - bars[i - 1].high;
      var down := bars[i - 1].low - bars[i].low;
      if up > down && up > 0.0 { dmPlus := dmPlus[i := up]; }
      if down > up && down > 0.0 { dmMinus := dmMinus[i := down]; }
    }
    assert dmPlus == PlusDm(bars) && dmMinus == MinusDm(bars);
    var diPlus := RmaDiv(dmPlus, atr, period);
    var diMinus := RmaDiv(dmMinus, atr, period);
    var dx := DxLoop(diPlus, diMinus);
    assert dx == Dx(bars, period);
    var adxVals := RmaSeries(dx, period);
    var lastAdx := adxVals[n - 1];
    r := Reading(lastAdx, (lastAdx + adxVals[n - 3]) / 2.0, diPlus[n - 1] * 100.0, diMinus[n - 1] * 100.0);
  }

  method DxLoop(diPlus: seq<real>, diMinus: seq<real>) returns (dx: seq<real>)
    requires |diPlus| == |diMinus|
    ensures |dx| == |diPlus|
    ensures forall i :: 0 <= i < |dx| ==> dx[i] == Imbalance(diPlus[i], diMinus[i])
  {
    var n := |diPlus|;
    dx := seq(n, _ => 0.0);
    for i := 0 to n
      invariant |dx| == n
      invariant forall j :: 0 <= j < i ==> dx[j] == Imbalance(diPlus[j], diMinus[j])
      invariant forall j :: i <= j < n ==> dx[j] == 0.0
    {
      var sum := diPlus[i] + diMinus[i];
      if sum != 0.0 {
        dx := dx[i := Abs(diPlus[i] - diMinus[i]) / sum * 100.0];
      }
    }
  }

  // ------------------------------------------------------------ properties

  /** Bars that make sense: the close lies between the low and the high. */
  predicate Sane(bars: seq<Kline>) {
    forall i :: 0 <= i < |bars| ==> bars[i].low <= bars[i].close <= bars[i].high
  }

  /** The two directional movements of one bar never add up to more than its true range. */
  lemma MovementWithinRange(bars: seq<Kline>, i: nat)
    requires Sane(bars) && 1 <= i < |bars|
    ensures 0.0 <= PlusDm(bars)[i] && 0.0 <= MinusDm(bars)[i]
    ensures PlusDm(bars)[i] + MinusDm(bars)[i] <= TrueRange(bars, i)
  {
    assert bars[i - 1].low <= bars[i - 1].close <= bars[i - 1].high;
    assert bars[i].low <= bars[i].high;
  }

  function BothDm(bars: seq<Kline>): (dm: seq<real>)
    ensures |dm| == |bars|
    ensures forall i :: 0 <= i < |bars| ==> dm[i] == PlusDm(bars)[i] + MinusDm(bars)[i]
  {
    seq(|bars|, i requires 0 <= i < |bars| => PlusDm(bars)[i] + MinusDm(bars)[i])
  }

  lemma SmoothedMovementAdds(bars: seq<Kline>, period: nat, i: nat)
    requires 1 <= period <= i + 1 && i < |bars|
    ensures RmaAt(PlusDm(bars), period, i) + RmaAt(MinusDm(bars), period, i) == RmaAt(BothDm(bars), period, i)
  {
    hide Blend;
    hide WilderFactor;
    var p, m, b := PlusDm(bars), MinusDm(bars), BothDm(bars);
    MeanAdd(p, m, b, period);
    SmoothAdd(p, m, b, WilderFactor(period), Mean(p, 0, period), Mean(m, 0, period), period - 1, i);
  }

  lemma MeanAdd(s: seq<real>, t: seq<real>, u: seq<real>, n: nat)
    requires 1 <= n <= |s| && n <= |t| && n <= |u|
    requires forall i :: 0 <= i < n ==> u[i] == s[i] + t[i]
    ensures Mean(u, 0, n) == Mean(s, 0, n) + Mean(t, 0, n)
  {
    SumAdd(s, t, u, 0, n);
    DivAdd(Sum(s, 0, n), Sum(t, 0, n), n as real);
  }

  /** The seeds are one bar apart: movement is seeded at period - 1 with its
      (zero) first element, the ATR one bar later without it. One blend brings
      the first under the second. */
  lemma SeedsMeet(d: seq<real>, tr: seq<real>, period: nat)
    requires 1 <= period < |d| && |d| == |tr| && d[0] == 0.0
    requires forall j :: 1 <= j < |d| ==> 0.0 <= d[j] <= tr[j]
    ensures Blend(WilderFactor(period), d[period], Mean(d, 0, period)) <= Mean(tr, 1, period)
  {
    hide Blend;
    hide Mean;
    hide WilderFactor;
    FactorInUnit(period);
    SumFirst(d, 0, period);
    SumZeroIff(d, 1, period);
    SumLe(d, tr, 1, period + 1);
    MeanIsShare(d, 0, period);
    MeanIsShare(tr, 1, period);
    SeedAlgebra(WilderFactor(period), d[period], Sum(d, 0, period), Sum(tr, 1, period + 1),
                Mean(d, 0, period), Mean(tr, 1, period));
  }

  lemma MeanIsShare(s: seq<real>, lo: nat, n: nat)
    requires n >= 1 && lo + n <= |s|
    ensures Mean(s, lo, n) == WilderFactor(n) * Sum(s, lo, lo + n)
  {
    DivAsProduct(Sum(s, lo, lo + n), n as real);
  }

  lemma SeedAlgebra(w: real, x: real, s: real, t: real, ms: real, mt: real)
    requires 0.0 <= w <= 1.0 && 0.0 <= s && s + x <= t
    requires ms == w * s && mt == w * t
    ensures Blend(w, x, ms) <= mt
  {
    MulLe(w, s + x, t);
    MulNonNeg(w, s);
    MulNonNeg(w, w * s);
  }

  /** Smoothed upward plus smoothed downward movement stays within the ATR from
      index `period` on, although the two averages start one bar apart. */
  lemma DirectionalBound(bars: seq<Kline>, period: nat, i: nat)
    requires Sane(bars) && 1 <= period <= i < |bars|
    ensures 0.0 <= RmaAt(PlusDm(bars), period, i) && 0.0 <= RmaAt(MinusDm(bars), period, i)
    ensures RmaAt(PlusDm(bars), period, i) + RmaAt(MinusDm(bars), period, i) <= AtrAt(bars, period, i)
  {
    hide Blend;
    hide WilderFactor;
    var d, tr, w := BothDm(bars), TrueRanges(bars), WilderFactor(period);
    forall j | 1 <= j < |bars| ensures 0.0 <= d[j] <= tr[j] && 0.0 <= PlusDm(bars)[j] && 0.0 <= MinusDm(bars)[j] {
      MovementWithinRange(bars, j);
    }
    FactorInUnit(period);
    RmaNonNegative(PlusDm(bars), period, i);
    RmaNonNegative(MinusDm(bars), period, i);
    SmoothedMovementAdds(bars, period, i);
    SmoothReseed(d, w, Mean(d, 0, period), period - 1, i);
    SeedsMeet(d, tr, period);
    SmoothLe(d, tr, w, Blend(w, d[period], Mean(d, 0, period)), Mean(tr, 1, period), period, i);
  }

  /** A smoothed series can be restarted from its second value. */
  lemma {:induction false} SmoothReseed(s: seq<real>, a: real, seed: real, m: nat, i: nat)
    requires m < i < |s|
    ensures Smooth(s, a, seed, m, i) == Smooth(s, a, Blend(a, s[m + 1], seed), m + 1, i)
    decreases i
  {
    hide Blend;
    if i == m + 1 {
      assert Smooth(s, a, seed, m, m) == seed;
    } else {
      SmoothReseed(s, a, seed, m, i - 1);
    }
  }

  lemma RatiosWithinOne(p: real, m: real, a: real)
    requires 0.0 <= p && 0.0 <= m && p + m <= a
    ensures 0.0 <= Ratio(p, a) && 0.0 <= Ratio(m, a) && Ratio(p, a) + Ratio(m, a) <= 1.0
  {
    if a > 0.0 {
      DivLe(p, a, 0.0);
      DivLe(m, a, 0.0);
      DivLe(p + m, a, 1.0);
      DivAdd(p, m, a);
    }
  }

  lemma ImbalanceRange(p: real, m: real)
    requires 0.0 <= p && 0.0 <= m
    ensures 0.0 <= Imbalance(p, m) <= 100.0
  {
    if p + m != 0.0 {
      DivLe(Abs(p - m), p + m, 0.0);
      DivLe(Abs(p - m), p + m, 1.0);
    }
  }

  /** At every index the two indicators are non-negative and total at most one. */
  lemma IndicatorsWithinOne(bars: seq<Kline>, period: nat, i: nat)
    requires Sane(bars) && period >= 1 && i < |bars|
    ensures 0.0 <= DiAt(PlusDm(bars), bars, period, i) && 0.0 <= DiAt(MinusDm(bars), bars, period, i)
    ensures DiAt(PlusDm(bars), bars, period, i) + DiAt(MinusDm(bars), bars, period, i) <= 1.0
  {
    hide MeanSeeded;
    hide Smooth;
    if i >= period {
      DirectionalBound(bars, period, i);
      hide AtrAt;
      hide Ratio;
      RatiosWithinOne(RmaAt(PlusDm(bars), period, i), RmaAt(MinusDm(bars), period, i), AtrAt(bars, period, i));
    }
  }

  /** For bars with low <= close <= high: DMP + DMN is at most 100, and ADX and ADXR lie in [0, 100]. */
  lemma ReadingRange(bars: seq<Kline>, period: nat)
    requires Sane(bars) && period >= 1
    ensures var r := ReadingOf(bars, period);
      && 0.0 <= r.dmp && 0.0 <= r.dmn && r.dmp + r.dmn <= 100.0
      && 0.0 <= r.adx <= 100.0 && 0.0 <= r.adxr <= 100.0
  {
    hide DiAt;
    hide MeanSeeded;
    hide WilderFactor;
    var n := |bars|;
    if n > 2 * period {
      var dx := Dx(bars, period);
      forall i | 0 <= i < n ensures 0.0 <= dx[i] <= 100.0 {
        IndicatorsWithinOne(bars, period, i);
        ImbalanceRange(DiAt(PlusDm(bars), bars, period, i), DiAt(MinusDm(bars), bars, period, i));
      }
      FactorInUnit(period);
      MeanSeededBounds(dx, WilderFactor(period), period, n - 1, 0.0, 100.0);
      MeanSeededBounds(dx, WilderFactor(period), period, n - 3, 0.0, 100.0);
      IndicatorsWithinOne(bars, period, n - 1);
    }
  }

  /** Turning the market upside down swaps DMP with DMN and leaves ADX and ADXR alone. */
  lemma MirrorSwapsDirection(bars: seq<Kline>, period: nat)
    requires period >= 1
    ensures var r := ReadingOf(bars, period);
      ReadingOf(Mirror(bars), period) == Reading(r.adx, r.adxr, r.dmn, r.dmp)
  {
    hide RmaAt;
    hide Ratio;
    hide Smooth;
    var m := Mirror(bars);
    forall i | 0 <= i < |bars| ensures TrueRange(m, i) == TrueRange(bars, i)
                                    && Up(m, i) == Down(bars, i) && Down(m, i) == Up(bars, i) {
    }
    assert TrueRanges(m) == TrueRanges(bars);
    assert PlusDm(m) == MinusDm(bars) && MinusDm(m) == PlusDm(bars);
    assert forall i :: 0 <= i < |bars| ==> AtrAt(m, period, i) == AtrAt(bars, period, i);
    ImbalanceSymmetric();
    assert Dx(m, period) == Dx(bars, period);
  }

  lemma ImbalanceSymmetric()
    ensures forall p, m :: Imbalance(p, m) == Imbalance(m, p)
  {
    forall p, m ensures Imbalance(p, m) == Imbalance(m, p) {
      assert Abs(p - m) == Abs(m - p) && p + m == m + p;
    }
  }
}
