// StochRSI in src/features.rs: where the RSI stands within its own recent range.
module StochRsi {
  import opened Reals
  import opened Series
  import opened Smoothing
  import opened Rsi

  /** The least of the `n` elements from s[lo] on. */
  function Lowest(s: seq<real>, lo: nat, n: nat): real
    requires n >= 1 && lo + n <= |s|
  {
    if n == 1 then s[lo] else Min(Lowest(s, lo, n - 1), s[lo + n - 1])
  }

  function Highest(s: seq<real>, lo: nat, n: nat): real
    requires n >= 1 && lo + n <= |s|
  {
    if n == 1 then s[lo] else Max(Highest(s, lo, n - 1), s[lo + n - 1])
  }

  const FLAT: real := 0.000000000001

  function Ratio(x: real, lo: real, hi: real): real {
    if hi - lo < FLAT then 0.0 else (x - lo) / (hi - lo) * 100.0
  }

  /** Zero until a whole window is there, and where the window is flat. */
  function RawAt(rsi: seq<real>, len: nat, i: nat): real
    requires len >= 1 && i < |rsi|
  {
    if i + 1 < len then 0.0
    else Ratio(rsi[i], Lowest(rsi, i + 1 - len, len), Highest(rsi, i + 1 - len, len))
  }

  function Raw(rsi: seq<real>, len: nat): (raw: seq<real>)
    requires len >= 1
    ensures |raw| == |rsi| && forall i :: 0 <= i < |rsi| ==> raw[i] == RawAt(rsi, len, i)
  {
    seq(|rsi|, i requires 0 <= i < |rsi| => RawAt(rsi, len, i))
  }

  function SmoothedAt(s: seq<real>, n: nat, i: nat): real
    requires n >= 1 && i < |s|
  {
    if i + 1 < n then 0.0 else Mean(s, i + 1 - n, n)
  }

  function Smoothed(s: seq<real>, n: nat): (k: seq<real>)
    requires n >= 1
    ensures |k| == |s| && forall i :: 0 <= i < |s| ==> k[i] == SmoothedAt(s, n, i)
  {
    seq(|s|, i requires 0 <= i < |s| => SmoothedAt(s, n, i))
  }

  function RsiLine(closes: seq<real>, period: nat): (rsi: seq<real>)
    requires period >= 1
    ensures |rsi| == |closes| && forall i :: 0 <= i < |closes| ==> rsi[i] == RsiAt(closes, period, i)
  {
    seq(|closes|, i requires 0 <= i < |closes| => RsiAt(closes, period, i))
  }

  function KLine(closes: seq<real>, rsiLen: nat, stochLen: nat, kSmooth: nat): (k: seq<real>)
    requires rsiLen >= 1 && stochLen >= 1 && kSmooth >= 1
    ensures |k| == |closes|
  {
    Smoothed(Raw(RsiLine(closes, rsiLen), stochLen), kSmooth)
  }

  method StochasticRsi(closes: seq<real>, rsiLen: nat, stochLen: nat, kSmooth: nat, dSmooth: nat)
    returns (lastK: real, lastD: real)
    requires rsiLen >= 1 && stochLen >= 1 && kSmooth >= 1 && dSmooth >= 1
    ensures |closes| < stochLen ==> lastK == lastD == 50.0
    ensures |closes| >= stochLen ==>
      && lastK == KLine(closes, rsiLen, stochLen, kSmooth)[|closes| - 1]
      && lastD == SmoothedAt(KLine(closes, rsiLen, stochLen, kSmooth), dSmooth, |closes| - 1)
  {
    hide RsiAt;
    hide Mean;
    var rsi := RsiSeries(closes, rsiLen);
    assert rsi == RsiLine(closes, rsiLen);
    var n := |rsi|;
    if n < stochLen { return 50.0, 50.0; }
    var stochRsi := seq(n, _ => 0.0);
    for i := stochLen - 1 to n
      invariant |stochRsi| == n
      invariant forall j :: 0 <= j < i ==> stochRsi[j] == RawAt(rsi, stochLen, j)
      invariant forall j :: i <= j < n ==> stochRsi[j] == 0.0
    {
      var lo := Lowest(rsi, i + 1 - stochLen, stochLen);
      var hi := Highest(rsi, i + 1 - stochLen, stochLen);
      stochRsi := stochRsi[i := if hi - lo < FLAT then 0.0 else (rsi[i] - lo) / (hi - lo) * 100.0];
    }
    assert stochRsi == Raw(rsi, stochLen);
    var stochK := Smoothed(stochRsi, kSmooth);
    lastK := stochK[n - 1];
    lastD := if n >= dSmooth then Mean(stochK, n - dSmooth, dSmooth) else 0.0;
  }

  // ------------------------------------------------------------ properties

  lemma {:induction false} WindowExtremes(s: seq<real>, lo: nat, n: nat)
    requires n >= 1 && lo + n <= |s|
    ensures forall j :: lo <= j < lo + n ==> Lowest(s, lo, n) <= s[j] <= Highest(s, lo, n)
    decreases n
  {
    if n > 1 { WindowExtremes(s, lo, n - 1); }
  }

  lemma RatioRange(x: real, lo: real, hi: real)
    requires lo <= x <= hi
    ensures 0.0 <= Ratio(x, lo, hi) <= 100.0
    ensures Ratio(x, lo, hi) == 100.0 <==> hi - lo >= FLAT && x == hi
  {
    if hi - lo >= FLAT {
      DivLe(x - lo, hi - lo, 0.0);
      DivLe(x - lo, hi - lo, 1.0);
    }
  }

  /** The bar closes at the top of a window that is not flat. */
  predicate AtTop(rsi: seq<real>, len: nat, i: nat)
    requires len >= 1 && i < |rsi|
  {
    i + 1 >= len
    && Highest(rsi, i + 1 - len, len) - Lowest(rsi, i + 1 - len, len) >= FLAT
    && rsi[i] == Highest(rsi, i + 1 - len, len)
  }

  lemma RawRange(rsi: seq<real>, len: nat, i: nat)
    requires len >= 1 && i < |rsi|
    ensures 0.0 <= RawAt(rsi, len, i) <= 100.0
    ensures RawAt(rsi, len, i) == 100.0 <==> AtTop(rsi, len, i)
  {
    hide Ratio;
    if i + 1 >= len {
      WindowExtremes(rsi, i + 1 - len, len);
      RatioRange(rsi[i], Lowest(rsi, i + 1 - len, len), Highest(rsi, i + 1 - len, len));
    }
  }

  lemma {:induction false} ComplementSum(s: seq<real>, lo: nat, hi: nat)
    requires lo <= hi <= |s|
    ensures Sum(s, lo, hi) + Sum(Complements(s), lo, hi) == (hi - lo) as real * 100.0
  {
    if lo < hi {
      ComplementSum(s, lo, hi - 1);
    }
  }

  /** A mean of percentages is full exactly when each of them is. */
  lemma MeanFullIff(s: seq<real>, lo: nat, n: nat)
    requires n >= 1 && lo + n <= |s|
    requires forall j :: lo <= j < lo + n ==> s[j] <= 100.0
    ensures Mean(s, lo, n) == 100.0 <==> forall j :: lo <= j < lo + n ==> s[j] == 100.0
  {
    var t := Complements(s);
    ComplementSum(s, lo, lo + n);
    SumZeroIff(t, lo, lo + n);
    QuotientIs100Iff(Sum(s, lo, lo + n), n as real);
    hide Sum;
    assert forall j :: lo <= j < lo + n ==> (t[j] == 0.0 <==> s[j] == 100.0);
  }

  lemma QuotientIs100Iff(x: real, y: real)
    requires y != 0.0
    ensures x / y == 100.0 <==> x == y * 100.0
  {
    DivMul(x, y);
    if x == y * 100.0 { DivUnique(x, y, 100.0); }
  }

  /** Both lines stay within [0, 100] on every input. */
  lemma LinesInRange(closes: seq<real>, rsiLen: nat, stochLen: nat, kSmooth: nat, dSmooth: nat, i: nat)
    requires rsiLen >= 1 && stochLen >= 1 && kSmooth >= 1 && dSmooth >= 1 && i < |closes|
    ensures var k := KLine(closes, rsiLen, stochLen, kSmooth);
      0.0 <= k[i] <= 100.0 && 0.0 <= SmoothedAt(k, dSmooth, i) <= 100.0
  {
    hide RsiAt;
    hide RawAt;
    hide Mean;
    var rsi := RsiLine(closes, rsiLen);
    var raw := Raw(rsi, stochLen);
    forall j | 0 <= j < |raw| ensures 0.0 <= raw[j] <= 100.0 { RawRange(rsi, stochLen, j); }
    var k := Smoothed(raw, kSmooth);
    forall j | 0 <= j < |k| ensures 0.0 <= k[j] <= 100.0 {
      if j + 1 >= kSmooth { MeanBounds(raw, j + 1 - kSmooth, kSmooth, 0.0, 100.0); }
    }
    if i + 1 >= dSmooth { MeanBounds(k, i + 1 - dSmooth, dSmooth, 0.0, 100.0); }
  }

  /** %K is 100 exactly when each of the bars it averages closes at the top of its window. */
  lemma KIs100Iff(closes: seq<real>, rsiLen: nat, stochLen: nat, kSmooth: nat, i: nat)
    requires rsiLen >= 1 && stochLen >= 1 && kSmooth >= 1 && kSmooth <= i + 1 && i < |closes|
    ensures KLine(closes, rsiLen, stochLen, kSmooth)[i] == 100.0
       <==> forall j :: i + 1 - kSmooth <= j <= i ==> AtTop(RsiLine(closes, rsiLen), stochLen, j)
  {
    hide RsiAt;
    hide RawAt;
    hide AtTop;
    hide Mean;
    var rsi := RsiLine(closes, rsiLen);
    var raw := Raw(rsi, stochLen);
    forall j | 0 <= j < |raw| ensures raw[j] <= 100.0 && (raw[j] == 100.0 <==> AtTop(rsi, stochLen, j)) {
      RawRange(rsi, stochLen, j);
    }
    MeanFullIff(raw, i + 1 - kSmooth, kSmooth);
  }

  /** In this window `t` is `s` upside down. */
  predicate Opposite(s: seq<real>, t: seq<real>, lo: int, hi: nat) {
    |s| == |t| && hi < |s| && forall j :: 0 <= j <= hi && lo <= j ==> t[j] == 100.0 - s[j]
  }

  lemma {:induction false} ExtremesMirror(s: seq<real>, t: seq<real>, lo: nat, n: nat)
    requires n >= 1 && Opposite(s, t, lo, lo + n - 1)
    ensures Highest(t, lo, n) == 100.0 - Lowest(s, lo, n)
    ensures Lowest(t, lo, n) == 100.0 - Highest(s, lo, n)
    decreases n
  {
    if n > 1 { ExtremesMirror(s, t, lo, n - 1); }
  }

  predicate Moves(rsi: seq<real>, len: nat, i: nat)
    requires len >= 1 && i < |rsi|
  {
    i + 1 >= len && Highest(rsi, i + 1 - len, len) - Lowest(rsi, i + 1 - len, len) >= FLAT
  }

  lemma RatioMirror(x: real, lo: real, hi: real)
    requires hi - lo >= FLAT
    ensures Ratio(100.0 - x, 100.0 - hi, 100.0 - lo) == 100.0 - Ratio(x, lo, hi)
  {
    var w := hi - lo;
    DivAdd(x - lo, hi - x, w);
    DivUnique(w, w, 1.0);
  }

  lemma RawMirror(s: seq<real>, t: seq<real>, len: nat, i: nat)
    requires len >= 1 && Opposite(s, t, i + 1 - len, i)
    ensures RawAt(t, len, i) == if Moves(s, len, i) then 100.0 - RawAt(s, len, i) else 0.0
    ensures !Moves(s, len, i) ==> RawAt(s, len, i) == 0.0
  {
    if i + 1 >= len {
      var lo, hi := Lowest(s, i + 1 - len, len), Highest(s, i + 1 - len, len);
      ExtremesMirror(s, t, i + 1 - len, len);
      if Moves(s, len, i) { RatioMirror(s[i], lo, hi); }
    }
  }

  /** Means of percentages and of their mirror images add up to 100 exactly when
      no pair of them was lost. */
  lemma MeanMirrorIff(s: seq<real>, t: seq<real>, lo: nat, n: nat)
    requires n >= 1 && lo + n <= |s| == |t|
    requires forall j :: lo <= j < lo + n ==> s[j] + t[j] <= 100.0
    ensures Mean(t, lo, n) == 100.0 - Mean(s, lo, n) <==> forall j :: lo <= j < lo + n ==> s[j] + t[j] == 100.0
  {
    var u := seq(|s|, j requires 0 <= j < |s| => s[j] + t[j]);
    SumAdd(s, t, u, lo, lo + n);
    DivAdd(Sum(s, lo, lo + n), Sum(t, lo, lo + n), n as real);
    assert Mean(u, lo, n) == Mean(s, lo, n) + Mean(t, lo, n);
    hide Mean;
    MeanFullIff(u, lo, n);
    assert forall j :: lo <= j < lo + n ==> u[j] == s[j] + t[j];
  }

  /** The RSI at `j` remembers some movement. */
  predicate Remembers(closes: seq<real>, rsiLen: nat, j: nat)
    requires 1 <= rsiLen <= j < |closes|
  {
    exists m :: Horizon(rsiLen, j) <= m <= j && closes[m] != closes[m - 1]
  }

  /** Turning the closes upside down turns %K upside down, exactly when none of the
      windows it averages over is flat, as long as the RSI values those windows look
      at, once the RSI has started, remember some movement. */
  lemma KMirrorIff(closes: seq<real>, rsiLen: nat, stochLen: nat, kSmooth: nat, i: nat)
    requires rsiLen >= 1 && stochLen >= 1 && kSmooth >= 1 && kSmooth <= i + 1 && i < |closes|
    requires forall j :: rsiLen <= j <= i && i + 2 - kSmooth - stochLen <= j ==> Remembers(closes, rsiLen, j)
    ensures KLine(Negate(closes), rsiLen, stochLen, kSmooth)[i] == 100.0 - KLine(closes, rsiLen, stochLen, kSmooth)[i]
       <==> forall j :: i + 1 - kSmooth <= j <= i ==> Moves(RsiLine(closes, rsiLen), stochLen, j)
  {
    hide RsiAt;
    hide RawAt;
    hide Moves;
    hide Mean;
    var rsi, opp := RsiLine(closes, rsiLen), RsiLine(Negate(closes), rsiLen);
    forall j | 0 <= j <= i && i + 2 - kSmooth - stochLen <= j ensures opp[j] == 100.0 - rsi[j] {
      RsiMirror(closes, rsiLen, j);
      assert j >= rsiLen ==> Remembers(closes, rsiLen, j);
    }
    var s, t := Raw(rsi, stochLen), Raw(opp, stochLen);
    forall j | i + 1 - kSmooth <= j <= i ensures s[j] + t[j] == if Moves(rsi, stochLen, j) then 100.0 else 0.0 {
      RawMirror(rsi, opp, stochLen, j);
    }
    MeanMirrorIff(s, t, i + 1 - kSmooth, kSmooth);
  }
}
