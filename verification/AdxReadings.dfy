// What the four ADX readings say about the bars: which way they moved, and how
// far the zero-padded prefix of the DX series holds the ADX back.
module AdxReadings {
  import opened Reals
  import opened Series
  import opened Models
  import opened Smoothing
  import opened Adx

  // ------------------------------------------------------------- direction

  /** The high rose, and by more than the low fell. */
  predicate RisesAt(bars: seq<Kline>, i: nat)
    requires i < |bars|
  {
    i > 0 && bars[i].high > bars[i - 1].high && bars[i].high - bars[i - 1].high > bars[i - 1].low - bars[i].low
  }

  /** The low fell, and by more than the high rose. */
  predicate FallsAt(bars: seq<Kline>, i: nat)
    requires i < |bars|
  {
    i > 0 && bars[i].low < bars[i - 1].low && bars[i - 1].low - bars[i].low > bars[i].high - bars[i - 1].high
  }

  /** Wilder's average of non-negative data is zero exactly when the data is. */
  lemma RmaZeroIff(s: seq<real>, period: nat, i: nat)
    requires 2 <= period <= i + 1 && i < |s|
    requires forall j :: 0 <= j < |s| ==> 0.0 <= s[j]
    ensures 0.0 <= RmaAt(s, period, i)
    ensures RmaAt(s, period, i) == 0.0 <==> forall j :: 0 <= j <= i ==> s[j] == 0.0
  {
    var seed := Mean(s, 0, period);
    SumZeroIff(s, 0, period);
    DivMul(Sum(s, 0, period), period as real);
    DivLe(Sum(s, 0, period), period as real, 0.0);
    hide Mean;
    hide WilderFactor;
    FactorInUnit(period);
    SmoothZeroIff(s, WilderFactor(period), seed, period - 1, i);
  }

  lemma RatioPositiveIff(d: real, a: real)
    requires 0.0 <= d <= a
    ensures Ratio(d, a) > 0.0 <==> d > 0.0
  {
    if a > 0.0 { DivLe(d, a, 0.0); }
  }

  lemma IndicatorPositiveIff(dm: seq<real>, bars: seq<Kline>, period: nat, i: nat)
    requires 2 <= period <= i + 1 && i < |bars| && |dm| == |bars|
    requires (forall j :: 0 <= j < |dm| ==> 0.0 <= dm[j]) && RmaAt(dm, period, i) <= AtrAt(bars, period, i)
    ensures DiAt(dm, bars, period, i) > 0.0 <==> exists j :: 0 <= j <= i && dm[j] != 0.0
  {
    RmaZeroIff(dm, period, i);
    hide RmaAt;
    hide AtrAt;
    RatioPositiveIff(RmaAt(dm, period, i), AtrAt(bars, period, i));
  }

  /** DMP is positive exactly when some bar made a dominant new high, DMN exactly
      when some bar made a dominant new low; neither is ever forgotten. */
  lemma DirectionIff(bars: seq<Kline>, period: nat)
    requires Sane(bars) && 2 <= period && |bars| > 2 * period
    ensures ReadingOf(bars, period).dmp > 0.0 <==> exists i :: 0 <= i < |bars| && RisesAt(bars, i)
    ensures ReadingOf(bars, period).dmn > 0.0 <==> exists i :: 0 <= i < |bars| && FallsAt(bars, i)
  {
    hide RmaAt;
    hide AtrAt;
    hide DiAt;
    var n, p, m := |bars|, PlusDm(bars), MinusDm(bars);
    DirectionalBound(bars, period, n - 1);
    IndicatorPositiveIff(p, bars, period, n - 1);
    IndicatorPositiveIff(m, bars, period, n - 1);
    assert forall i :: 0 <= i < n ==> (p[i] != 0.0 <==> RisesAt(bars, i));
    assert forall i :: 0 <= i < n ==> (m[i] != 0.0 <==> FallsAt(bars, i));
  }

  /** `r` is in percent: the smoothed movements `plus` and `minus` over the ATR, and `dx` the
      difference of the two over their sum. */
  predicate InPercent(r: Reading, dx: real, plus: real, minus: real, atr: real) {
    r.dmp * atr == 100.0 * plus && r.dmn * atr == 100.0 * minus && dx * (r.dmp + r.dmn) == 100.0 * Abs(r.dmp - r.dmn)
  }

  lemma ReadingsMeaning(bars: seq<Kline>, period: nat)
    requires Sane(bars) && period >= 1 && |bars| > 2 * period
    ensures var n := |bars|;
      InPercent(ReadingOf(bars, period), Dx(bars, period)[n - 1], RmaAt(PlusDm(bars), period, n - 1),
                RmaAt(MinusDm(bars), period, n - 1), AtrAt(bars, period, n - 1))
  {
    var n := |bars|;
    DirectionalBound(bars, period, n - 1);
    IndicatorsWithinOne(bars, period, n - 1);
    hide RmaAt;
    hide AtrAt;
    hide Ratio;
    hide Imbalance;
    hide InPercent;
    ReadingInPercent(ReadingOf(bars, period), RmaAt(PlusDm(bars), period, n - 1), RmaAt(MinusDm(bars), period, n - 1),
                     AtrAt(bars, period, n - 1));
  }

  lemma ReadingInPercent(r: Reading, plus: real, minus: real, atr: real)
    requires 0.0 <= plus && 0.0 <= minus && plus + minus <= atr
    requires r.dmp == Ratio(plus, atr) * 100.0 && r.dmn == Ratio(minus, atr) * 100.0
    ensures InPercent(r, Imbalance(Ratio(plus, atr), Ratio(minus, atr)), plus, minus, atr)
  {
    RatiosWithinOne(plus, minus, atr);
    RatioTimes(plus, atr, r.dmp);
    RatioTimes(minus, atr, r.dmn);
    ImbalanceTimes(Ratio(plus, atr), Ratio(minus, atr), r.dmp, r.dmn);
    hide Ratio;
    hide Imbalance;
  }

  lemma RatioTimes(x: real, a: real, percent: real)
    requires 0.0 <= x <= a && percent == Ratio(x, a) * 100.0
    ensures percent * a == 100.0 * x
  {
    if a != 0.0 { DivMul(x, a); }
  }

  lemma ImbalanceTimes(u: real, v: real, p: real, m: real)
    requires 0.0 <= u && 0.0 <= v && p == u * 100.0 && m == v * 100.0
    ensures Imbalance(u, v) * (p + m) == 100.0 * Abs(p - m)
  {
    if u + v != 0.0 {
      DivMul(Abs(u - v), u + v);
      var q := Abs(u - v) / (u + v);
      assert q * 100.0 * (p + m) == 10000.0 * (q * (u + v));
    }
  }

  // --------------------------------------------------------------- ceiling

  lemma {:induction false} SmoothShortfall(s: seq<real>, a: real, m: nat, i: nat)
    requires m <= i < |s|
    ensures Smooth(s, a, 0.0, m, i) + Smooth(Complements(s), a, 0.0, m, i) == 100.0 - 100.0 * Pow(1.0 - a, i - m)
    decreases i
  {
    hide Blend;
    if i > m {
      SmoothShortfall(s, a, m, i - 1);
      var q, q' := Pow(1.0 - a, i - 1 - m), Pow(1.0 - a, i - m);
      assert q' == (1.0 - a) * q;
      hide Pow;
      ShortfallStep(a, s[i], Smooth(s, a, 0.0, m, i - 1), Smooth(Complements(s), a, 0.0, m, i - 1), q, q');
    }
  }

  lemma ShortfallStep(a: real, x: real, y: real, z: real, q: real, q': real)
    requires y + z == 100.0 - 100.0 * q && q' == (1.0 - a) * q
    ensures Blend(a, x, y) + Blend(a, 100.0 - x, z) == 100.0 - 100.0 * q'
  {
    BlendAdd(a, x, y, 100.0 - x, z);
    var b := 1.0 - a;
    assert Blend(a, x + (100.0 - x), y + z) == a * 100.0 + b * (y + z);
    assert b * (100.0 - 100.0 * q) == 100.0 * b - 100.0 * (b * q);
  }

  /** The DX series starts with zeros, as the ATR does, so the ADX's seed is zero. */
  lemma AdxSeedIsZero(bars: seq<Kline>, period: nat)
    requires 1 <= period <= |bars|
    ensures Mean(Dx(bars, period), 0, period) == 0.0
  {
    var dx := Dx(bars, period);
    assert forall j :: 0 <= j < period ==> dx[j] == 0.0 by { hide RmaAt; }
    SumBounds(dx, 0, period, 0.0, 0.0);
    DivUnique(Sum(dx, 0, period), period as real, 0.0);
  }

  lemma SmoothCeiling(s: seq<real>, a: real, m: nat, i: nat)
    requires m <= i < |s| && 0.0 < a < 1.0
    requires forall j :: 0 <= j < |s| ==> s[j] <= 100.0
    ensures Smooth(s, a, 0.0, m, i) <= 100.0 - 100.0 * Pow(1.0 - a, i - m)
    ensures Smooth(s, a, 0.0, m, i) == 100.0 - 100.0 * Pow(1.0 - a, i - m) <==> forall j :: m < j <= i ==> s[j] == 100.0
  {
    hide Smooth;
    hide Pow;
    SmoothShortfall(s, a, m, i);
    SmoothZeroIff(Complements(s), a, 0.0, m, i);
    assert forall j :: m < j <= i ==> (Complements(s)[j] == 0.0 <==> s[j] == 100.0);
  }

  lemma DxAtMost100(bars: seq<Kline>, period: nat)
    requires Sane(bars) && period >= 1
    ensures forall j :: 0 <= j < |bars| ==> Dx(bars, period)[j] <= 100.0
  {
    hide DiAt;
    forall j | 0 <= j < |bars| ensures Dx(bars, period)[j] <= 100.0 {
      IndicatorsWithinOne(bars, period, j);
      ImbalanceRange(DiAt(PlusDm(bars), bars, period, j), DiAt(MinusDm(bars), bars, period, j));
    }
  }

  /** So the ADX cannot reach 100: with n bars it stays at or below
      100 * (1 - (1 - 1/period)^(n - period)), and it gets there exactly when every
      DX since the prefix is 100. */
  lemma AdxCeiling(bars: seq<Kline>, period: nat)
    requires Sane(bars) && 2 <= period && |bars| > 2 * period
    ensures var n := |bars|;
      var ceiling := 100.0 - 100.0 * Pow(1.0 - WilderFactor(period), n - period);
      && ReadingOf(bars, period).adx <= ceiling
      && (ReadingOf(bars, period).adx == ceiling <==> forall j :: period <= j < n ==> Dx(bars, period)[j] == 100.0)
  {
    hide Smooth;
    hide Dx;
    hide DiAt;
    hide Pow;
    hide Mean;
    FactorInUnit(period);
    hide WilderFactor;
    DxAtMost100(bars, period);
    AdxSeedIsZero(bars, period);
    SmoothCeiling(Dx(bars, period), WilderFactor(period), period - 1, |bars| - 1);
  }

  predicate Rose(bars: seq<Kline>, upTo: nat)
    requires upTo < |bars|
  {
    exists i :: 0 <= i <= upTo && RisesAt(bars, i)
  }

  predicate Fell(bars: seq<Kline>, upTo: nat)
    requires upTo < |bars|
  {
    exists i :: 0 <= i <= upTo && FallsAt(bars, i)
  }

  lemma ImbalanceFullIff(p: real, m: real)
    requires 0.0 <= p && 0.0 <= m
    ensures Imbalance(p, m) == 100.0 <==> (p > 0.0) != (m > 0.0)
  {
    if p + m != 0.0 {
      DivLe(Abs(p - m), p + m, 1.0);
      if Abs(p - m) == p + m { DivUnique(p + m, p + m, 1.0); }
    }
  }

  /** A DX is 100 exactly when the bars so far moved one way and never the other. */
  lemma DxFullIff(bars: seq<Kline>, period: nat, j: nat)
    requires Sane(bars) && 2 <= period <= j < |bars|
    ensures Dx(bars, period)[j] == 100.0 <==> Rose(bars, j) != Fell(bars, j)
  {
    hide RmaAt;
    hide AtrAt;
    hide DiAt;
    hide Imbalance;
    var p, m := PlusDm(bars), MinusDm(bars);
    DirectionalBound(bars, period, j);
    forall i | 1 <= i < |bars| ensures 0.0 <= p[i] && 0.0 <= m[i] { MovementWithinRange(bars, i); }
    IndicatorPositiveIff(p, bars, period, j);
    IndicatorPositiveIff(m, bars, period, j);
    IndicatorsWithinOne(bars, period, j);
    ImbalanceFullIff(DiAt(p, bars, period, j), DiAt(m, bars, period, j));
    assert forall i :: 0 <= i <= j ==> (p[i] != 0.0 <==> RisesAt(bars, i)) && (m[i] != 0.0 <==> FallsAt(bars, i));
  }

  /** So the ceiling is reached exactly in a market that only goes one way: it rose by
      index `period` and never fell, or fell by then and never rose. */
  lemma CeilingIffOneWay(bars: seq<Kline>, period: nat)
    requires Sane(bars) && 2 <= period && |bars| > 2 * period
    ensures var n := |bars|;
      ReadingOf(bars, period).adx == 100.0 - 100.0 * Pow(1.0 - WilderFactor(period), n - period)
      <==> (Rose(bars, period) && !Fell(bars, n - 1)) || (Fell(bars, period) && !Rose(bars, n - 1))
  {
    AdxCeiling(bars, period);
    hide Pow;
    hide WilderFactor;
    hide ReadingOf;
    hide Dx;
    var n := |bars|;
    forall j | period <= j < n ensures Dx(bars, period)[j] == 100.0 <==> Rose(bars, j) != Fell(bars, j) {
      DxFullIff(bars, period, j);
    }
    assert forall j :: period <= j < n ==> (Rose(bars, period) ==> Rose(bars, j)) && (Fell(bars, period) ==> Fell(bars, j));
    assert forall j :: period <= j < n ==> (Rose(bars, j) ==> Rose(bars, n - 1)) && (Fell(bars, j) ==> Fell(bars, n - 1));
  }

  // ------------------------------------------------------------------- ADXR

  lemma SmoothedPrefix(s: seq<real>, t: seq<real>, a: real, period: nat, i: nat)
    requires period >= 1 && i < |t| <= |s| && forall j :: 0 <= j < |t| ==> t[j] == s[j]
    ensures MeanSeeded(t, a, period, i) == MeanSeeded(s, a, period, i)
  {
    hide Blend;
    if i + 1 >= period {
      SumShift(s, t, 0, period, 0);
      SmoothShift(s, t, a, Mean(s, 0, period), period - 1, i, 0);
    }
  }

  lemma AtrPrefix(bars: seq<Kline>, n: nat, period: nat, i: nat)
    requires period >= 1 && i < n <= |bars|
    ensures AtrAt(bars[..n], period, i) == AtrAt(bars, period, i)
  {
    var s, t := TrueRanges(bars), TrueRanges(bars[..n]);
    forall j | 0 <= j < n ensures t[j] == s[j] {
      assert bars[..n][j] == bars[j];
      assert j > 0 ==> bars[..n][j - 1] == bars[j - 1];
    }
    hide TrueRange;
    hide WilderFactor;
    if i >= period { AveragePrefix(s, t, WilderFactor(period), period, i); }
  }

  lemma AveragePrefix(s: seq<real>, t: seq<real>, a: real, period: nat, i: nat)
    requires 1 <= period <= i < |t| <= |s| && forall j :: 0 <= j < |t| ==> t[j] == s[j]
    ensures Smooth(t, a, Mean(t, 1, period), period, i) == Smooth(s, a, Mean(s, 1, period), period, i)
  {
    SumShift(s, t, 1, 1 + period, 0);
    assert Mean(t, 1, period) == Mean(s, 1, period);
    hide Blend;
    hide Mean;
    SmoothShift(s, t, a, Mean(s, 1, period), period, i, 0);
  }

  /** A DX sees no bar after its own. */
  lemma DxPrefix(bars: seq<Kline>, n: nat, period: nat, i: nat)
    requires period >= 1 && i < n <= |bars|
    ensures Dx(bars[..n], period)[i] == Dx(bars, period)[i]
  {
    var p, p', m, m' := PlusDm(bars), PlusDm(bars[..n]), MinusDm(bars), MinusDm(bars[..n]);
    assert forall j :: 0 <= j < n ==> Up(bars[..n], j) == Up(bars, j) && Down(bars[..n], j) == Down(bars, j);
    assert forall j :: 0 <= j < n ==> p'[j] == p[j] && m'[j] == m[j];
    SmoothedPrefix(p, p', WilderFactor(period), period, i);
    SmoothedPrefix(m, m', WilderFactor(period), period, i);
    AtrPrefix(bars, n, period, i);
    hide MeanSeeded;
    hide AtrAt;
    hide Ratio;
    hide Imbalance;
  }

  /** The ADXR is the mean of the ADX now and the ADX two bars earlier. */
  lemma AdxrIsMeanOfTwo(bars: seq<Kline>, period: nat)
    requires period >= 1 && |bars| > 2 * period + 2
    ensures ReadingOf(bars, period).adxr
         == (ReadingOf(bars, period).adx + ReadingOf(bars[..|bars| - 2], period).adx) / 2.0
  {
    var n := |bars| - 2;
    hide DiAt;
    hide WilderFactor;
    forall j | 0 <= j < n ensures Dx(bars[..n], period)[j] == Dx(bars, period)[j] {
      DxPrefix(bars, n, period, j);
    }
    SmoothedPrefix(Dx(bars, period), Dx(bars[..n], period), WilderFactor(period), period, n - 1);
    hide MeanSeeded;
    hide Dx;
  }
}
