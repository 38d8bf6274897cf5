// RSI in src/features.rs.
module Rsi {
  import opened Reals
  import opened Series
  import opened Smoothing

  function Diff(data: seq<real>, i: nat): real
    requires i < |data|
  {
    if i == 0 then 0.0 else data[i] - data[i - 1]
  }

  function Gains(data: seq<real>): (g: seq<real>)
    ensures |g| == |data| && forall i :: 0 <= i < |data| ==> g[i] == Max(Diff(data, i), 0.0)
  {
    seq(|data|, i requires 0 <= i < |data| => Max(Diff(data, i), 0.0))
  }

  function Losses(data: seq<real>): (l: seq<real>)
    ensures |l| == |data| && forall i :: 0 <= i < |data| ==> l[i] == Max(-Diff(data, i), 0.0)
  {
    seq(|data|, i requires 0 <= i < |data| => Max(-Diff(data, i), 0.0))
  }

  /** Wilder's average seeded with elements 1..period, as RSI and ATR seed it. */
  function Average(s: seq<real>, period: nat, i: nat): real
    requires 1 <= period <= i < |s|
  {
    Smooth(s, WilderFactor(period), Mean(s, 1, period), period, i)
  }

  function Strength(gain: real, loss: real): real
    requires 0.0 <= gain && 0.0 <= loss
  {
    if loss == 0.0 then 100.0 else 100.0 - 100.0 / (1.0 + gain / loss)
  }

  function RsiAt(data: seq<real>, period: nat, i: nat): real
    requires period >= 1 && i < |data|
  {
    if i < period then 50.0
    else
      AverageNonNegative(Gains(data), period, i);
      AverageNonNegative(Losses(data), period, i);
      Strength(Average(Gains(data), period, i), Average(Losses(data), period, i))
  }

  lemma AverageNonNegative(s: seq<real>, period: nat, i: nat)
    requires 1 <= period <= i < |s|
    requires forall j :: 0 <= j < |s| ==> 0.0 <= s[j]
    ensures 0.0 <= Average(s, period, i)
  {
    hide Blend;
    hide WilderFactor;
    FactorInUnit(period);
    hide Mean;
    MeanNonNegative(s, 1, period);
    NonNegativeSmooth(s, WilderFactor(period), Mean(s, 1, period), period, i);
  }

  method RsiSeries(data: seq<real>, period: nat) returns (out: seq<real>)
    requires period >= 1
    ensures |out| == |data|
    ensures forall i :: 0 <= i < |data| ==> out[i] == RsiAt(data, period, i)
  {
    hide Blend;
    hide Mean;
    hide WilderNext;
    hide WilderFactor;
    hide Strength;
    var n := |data|;
    out := seq(n, _ => 50.0);
    if n <= period { return; }
    var gains, losses := seq(n, _ => 0.0), seq(n, _ => 0.0);
    for i := 1 to n
      invariant |gains| == n && |losses| == n
      invariant forall j :: 0 <= j < i ==> gains[j] == Gains(data)[j] && losses[j] == Losses(data)[j]
      invariant forall j :: 0 <= j < i ==> 0.0 <= gains[j] && 0.0 <= losses[j]
    {
      var diff := data[i] - data[i - 1];
      gains := gains[i := Max(diff, 0.0)];
      losses := losses[i := Max(-diff, 0.0)];
    }
    assert gains == Gains(data) && losses == Losses(data);
    var avgGain := Mean(gains, 1, period);
    var avgLoss := Mean(losses, 1, period);
    AverageNonNegative(gains, period, period);
    AverageNonNegative(losses, period, period);
    out := out[period := Strength(avgGain, avgLoss)];
    for i := period + 1 to n
      invariant |out| == n
      invariant avgGain == Average(gains, period, i - 1) && avgLoss == Average(losses, period, i - 1)
      invariant forall j :: 0 <= j < i ==> out[j] == RsiAt(data, period, j)
      invariant forall j :: i <= j < n ==> out[j] == 50.0
    {
      WilderNextIsBlend(avgGain, gains[i], period);
      WilderNextIsBlend(avgLoss, losses[i], period);
      avgGain := WilderNext(avgGain, gains[i], period);
      avgLoss := WilderNext(avgLoss, losses[i], period);
      AverageNonNegative(gains, period, i);
      AverageNonNegative(losses, period, i);
      out := out[i := Strength(avgGain, avgLoss)];
    }
  }

  // ------------------------------------------------------------ properties

  /** The oscillator's range, and when it saturates. */
  lemma StrengthRange(gain: real, loss: real)
    requires 0.0 <= gain && 0.0 <= loss
    ensures 0.0 <= Strength(gain, loss) <= 100.0
    ensures Strength(gain, loss) == 100.0 <==> loss == 0.0
  {
    if loss > 0.0 {
      DivLe(gain, loss, 0.0);
      var d := 1.0 + gain / loss;
      DivLe(100.0, d, 100.0);
      DivMul(100.0, d);
    }
  }

  /** Swapping gains and losses mirrors the oscillator, unless there are neither. */
  lemma StrengthMirror(gain: real, loss: real)
    requires 0.0 <= gain && 0.0 <= loss
    ensures Strength(loss, gain) == 100.0 - Strength(gain, loss) <==> !(gain == 0.0 && loss == 0.0)
  {
    if gain > 0.0 && loss > 0.0 {
      Complement(gain, loss);
      Complement(loss, gain);
      Shares(gain, loss);
      assert loss + gain == gain + loss;
    } else {
      if gain > 0.0 { assert 0.0 / gain == 0.0; }
      if loss > 0.0 { assert 0.0 / loss == 0.0; }
    }
  }

  /** The textbook form: gains as a share of all movement. */
  lemma Complement(gain: real, loss: real)
    requires 0.0 < gain && 0.0 < loss
    ensures Strength(gain, loss) == 100.0 * (gain / (gain + loss))
  {
    var d, share := 1.0 + gain / loss, loss / (gain + loss);
    DivMul(gain, loss);
    DivLe(gain, loss, 0.0);
    DivMul(loss, gain + loss);
    Cancel(share, d, loss, gain + loss, loss);
    DivUnique(loss, loss, share * d);
    assert 100.0 / d == 100.0 * share by {
      DivUnique(1.0, d, share);
      DivAsProduct(100.0, d);
    }
    Shares(gain, loss);
  }

  lemma Cancel(q: real, d: real, l: real, e: real, h: real)
    requires d * l == e && q * e == h
    ensures (q * d) * l == h
  {
    MulAssoc(q, d, l);
  }

  lemma Shares(x: real, y: real)
    requires x + y != 0.0
    ensures x / (x + y) + y / (x + y) == 1.0
  {
    DivMul(x, x + y);
    DivMul(y, x + y);
    DivUnique(x + y, x + y, x / (x + y) + y / (x + y));
    DivUnique(x + y, x + y, 1.0);
  }

  lemma RsiRange(data: seq<real>, period: nat, i: nat)
    requires period >= 1 && i < |data|
    ensures 0.0 <= RsiAt(data, period, i) <= 100.0
  {
    hide Strength;
    hide Average;
    if i >= period {
      AverageNonNegative(Gains(data), period, i);
      AverageNonNegative(Losses(data), period, i);
      StrengthRange(Average(Gains(data), period, i), Average(Losses(data), period, i));
    }
  }

  /** Where the average at `i` still looks: everything, or the last step alone when period is 1. */
  function Horizon(period: nat, i: nat): nat
    requires 1 <= period <= i
  {
    if period == 1 then i else 1
  }

  /** A Wilder average of non-negative data is zero exactly when all of it is. */
  lemma AverageZeroIff(s: seq<real>, period: nat, i: nat)
    requires 1 <= period <= i < |s|
    requires forall j :: 0 <= j < |s| ==> 0.0 <= s[j]
    ensures Average(s, period, i) == 0.0 <==> forall j :: Horizon(period, i) <= j <= i ==> s[j] == 0.0
  {
    if period == 1 {
      assert WilderFactor(1) == 1.0 && Mean(s, 1, 1) == s[1] by {
        assert Sum(s, 1, 2) == Sum(s, 1, 1) + s[1];
      }
      assert Average(s, 1, i) == s[i];
    } else {
      hide Blend;
      hide WilderFactor;
      FactorInUnit(period);
      MeanZeroIff(s, period);
      SmoothZeroIff(s, WilderFactor(period), Mean(s, 1, period), period, i);
      assert Average(s, period, i) == Smooth(s, WilderFactor(period), Mean(s, 1, period), period, i);
    }
  }

  lemma MeanZeroIff(s: seq<real>, period: nat)
    requires 1 <= period < |s|
    requires forall j :: 0 <= j < |s| ==> 0.0 <= s[j]
    ensures 0.0 <= Mean(s, 1, period)
    ensures Mean(s, 1, period) == 0.0 <==> forall j :: 1 <= j <= period ==> s[j] == 0.0
  {
    SumZeroIff(s, 1, 1 + period);
    DivLe(Sum(s, 1, 1 + period), period as real, 0.0);
    DivMul(Sum(s, 1, 1 + period), period as real);
  }

  /** RSI is 100 exactly when the data it remembers never fell: for every period
      above 1, exactly when data[0..=i] is non-decreasing. */
  lemma RsiIs100Iff(data: seq<real>, period: nat, i: nat)
    requires 1 <= period <= i < |data|
    ensures RsiAt(data, period, i) == 100.0
       <==> forall j :: Horizon(period, i) <= j <= i ==> data[j - 1] <= data[j]
  {
    hide Strength;
    hide Average;
    var g, l := Gains(data), Losses(data);
    AverageNonNegative(g, period, i);
    AverageNonNegative(l, period, i);
    StrengthRange(Average(g, period, i), Average(l, period, i));
    AverageZeroIff(l, period, i);
    forall j | 1 <= j <= i ensures l[j] == 0.0 <==> data[j - 1] <= data[j] {
    }
  }

  function Negate(data: seq<real>): (neg: seq<real>)
    ensures |neg| == |data| && forall i :: 0 <= i < |data| ==> neg[i] == -data[i]
  {
    seq(|data|, i requires 0 <= i < |data| => -data[i])
  }

  /** Turning the series upside down turns the RSI upside down, except exactly
      where nothing it remembers has moved: there both read 100. */
  lemma RsiMirror(data: seq<real>, period: nat, i: nat)
    requires period >= 1 && i < |data|
    ensures RsiAt(Negate(data), period, i) == 100.0 - RsiAt(data, period, i)
       <==> i < period || exists j :: Horizon(period, i) <= j <= i && data[j] != data[j - 1]
  {
    hide Strength;
    hide Average;
    if i >= period {
      var g, l := Gains(data), Losses(data);
      assert Gains(Negate(data)) == l && Losses(Negate(data)) == g;
      AverageNonNegative(g, period, i);
      AverageNonNegative(l, period, i);
      StrengthMirror(Average(g, period, i), Average(l, period, i));
      AverageZeroIff(g, period, i);
      AverageZeroIff(l, period, i);
      forall j | 1 <= j <= i ensures g[j] == 0.0 && l[j] == 0.0 <==> data[j] == data[j - 1] {
      }
    }
  }
}
