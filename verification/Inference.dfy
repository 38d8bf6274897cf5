// src/inference.rs: choosing the cycle's best signal, and the pin-bar veto and
// momentum flip it then has to pass.
module Inference {
  import opened Reals
  import opened Series
  import opened Models

  /** src/models_signal.rs */
  datatype Signal = Signal(symbol: string, price: real, atr24h: real, isLong: bool, prob: real, tier: Option<string>,
                           regime: Option<string>, distanceToHigh: real, distanceToLow: real, ofi: real)

  /** What the model answered for one symbol of one tier; `held` is whether the
      book has the symbol at that moment. */
  datatype Prediction = Prediction(symbol: string, tier: string, price: real, atr24h: real, probLong: real, probShort: real,
                                   regime: string, distanceToHigh: real, distanceToLow: real, ofi: real, held: bool)

  function Candidate(p: Prediction): Signal {
    var isLong := p.probLong > p.probShort;
    Signal(p.symbol, p.price, p.atr24h, isLong, if isLong then p.probLong else p.probShort, Some(p.tier),
           Some(p.regime), p.distanceToHigh, p.distanceToLow, p.ofi)
  }

  predicate Decided(p: Prediction) { Abs(p.probLong - p.probShort) >= 0.20 }

  /** The candidates that compete, in the order the cycle meets them. `None` is a
      symbol whose bars or prediction could not be had. */
  function Competing(ps: seq<Option<Prediction>>): seq<Signal> {
    if |ps| == 0 then []
    else
      var p := ps[|ps| - 1];
      Competing(ps[..|ps| - 1]) + if p.Some? && Decided(p.value) && !p.value.held then [Candidate(p.value)] else []
  }

  /** The signals for held symbols, sent on at once. */
  function Monitored(ps: seq<Option<Prediction>>): seq<Signal> {
    if |ps| == 0 then []
    else
      var p := ps[|ps| - 1];
      Monitored(ps[..|ps| - 1]) + if p.Some? && Decided(p.value) && p.value.held then [Candidate(p.value)] else []
  }

  /** `s` is the first of the highest-probability candidates. */
  ghost predicate FirstBest(cs: seq<Signal>, s: Signal) {
    exists i :: 0 <= i < |cs| && FirstBestAt(cs, i) && cs[i] == s
  }

  predicate FirstBestAt(cs: seq<Signal>, i: nat) {
    i < |cs| && (forall j :: 0 <= j < |cs| ==> cs[j].prob <= cs[i].prob)
    && (forall j :: 0 <= j < i ==> cs[j].prob < cs[i].prob)
  }

  // ------------------------------------- what is chosen, in terms of predictions

  predicate Usable(ps: seq<Option<Prediction>>, k: nat, held: bool) {
    k < |ps| && ps[k].Some? && ps[k].value.held == held && Abs(ps[k].value.probLong - ps[k].value.probShort) >= 0.20
  }

  /** The likelier of the two directions, and all else as predicted. */
  predicate Carries(s: Signal, p: Prediction) {
    && (s.isLong <==> p.probLong > p.probShort) && s.prob == Max(p.probLong, p.probShort)
    && s.symbol == p.symbol && s.tier == Some(p.tier) && s.regime == Some(p.regime)
    && s.price == p.price && s.atr24h == p.atr24h && s.ofi == p.ofi
    && s.distanceToHigh == p.distanceToHigh && s.distanceToLow == p.distanceToLow
  }

  ghost predicate BestAt(ps: seq<Option<Prediction>>, k: nat, s: Signal) {
    && Usable(ps, k, false) && Carries(s, ps[k].value)
    && forall j: nat :: Usable(ps, j, false) ==>
         && Max(ps[j].value.probLong, ps[j].value.probShort) <= s.prob
         && (j < k ==> Max(ps[j].value.probLong, ps[j].value.probShort) < s.prob)
  }

  /** The places of the usable predictions, in order. */
  function Places(ps: seq<Option<Prediction>>, held: bool): seq<nat> {
    if |ps| == 0 then []
    else
      var n := |ps| - 1;
      Places(ps[..n], held) + if Usable(ps, n, held) then [n] else []
  }

  lemma {:induction false} PlacesSpec(ps: seq<Option<Prediction>>, held: bool)
    ensures var at := Places(ps, held);
      && (forall i :: 0 <= i < |at| ==> Usable(ps, at[i], held))
      && (forall i, j :: 0 <= i < j < |at| ==> at[i] < at[j])
      && (forall k: nat :: Usable(ps, k, held) ==> k in at)
  {
    if |ps| > 0 {
      var n := |ps| - 1;
      PlacesSpec(ps[..n], held);
      assert forall k: nat :: k < n ==> (Usable(ps[..n], k, held) <==> Usable(ps, k, held));
    }
  }

  /** Signal by signal, from the predictions at these places. */
  predicate CarriedFrom(cs: seq<Signal>, ps: seq<Option<Prediction>>, at: seq<nat>) {
    && |cs| == |at|
    && forall i :: 0 <= i < |at| ==> at[i] < |ps| && ps[at[i]].Some? && Carries(cs[i], ps[at[i]].value)
  }

  lemma CandidateCarries(p: Prediction)
    ensures Carries(Candidate(p), p)
  {
  }

  lemma {:induction false} CompetingCarry(ps: seq<Option<Prediction>>)
    ensures CarriedFrom(Competing(ps), ps, Places(ps, false))
  {
    if |ps| > 0 {
      var n := |ps| - 1;
      CompetingCarry(ps[..n]);
      if Usable(ps, n, false) { CandidateCarries(ps[n].value); }
      assert Competing(ps) == Competing(ps[..n]) + if Usable(ps, n, false) then [Candidate(ps[n].value)] else [];
      hide Candidate;
      hide Carries;
      hide Competing;
    }
  }

  lemma {:induction false} MonitoredCarry(ps: seq<Option<Prediction>>)
    ensures CarriedFrom(Monitored(ps), ps, Places(ps, true))
  {
    if |ps| > 0 {
      var n := |ps| - 1;
      MonitoredCarry(ps[..n]);
      if Usable(ps, n, true) { CandidateCarries(ps[n].value); }
      assert Monitored(ps) == Monitored(ps[..n]) + if Usable(ps, n, true) then [Candidate(ps[n].value)] else [];
      hide Candidate;
      hide Carries;
      hide Monitored;
    }
  }

  lemma FirstBestIsBest(ps: seq<Option<Prediction>>, i: nat)
    requires FirstBestAt(Competing(ps), i)
    ensures |Competing(ps)| == |Places(ps, false)| && BestAt(ps, Places(ps, false)[i], Competing(ps)[i])
  {
    CompetingCarry(ps);
    PlacesSpec(ps, false);
    var cs, at := Competing(ps), Places(ps, false);
    hide Competing;
    hide Places;
    forall j: nat | Usable(ps, j, false)
      ensures Max(ps[j].value.probLong, ps[j].value.probShort) <= cs[i].prob
      ensures j < at[i] ==> Max(ps[j].value.probLong, ps[j].value.probShort) < cs[i].prob
    {
      var m :| 0 <= m < |at| && at[m] == j;
      assert Carries(cs[m], ps[j].value);
    }
  }

  /** The signal chosen is that of the first of the likeliest usable predictions for
      symbols not held; those for held symbols are sent on at once, in order. */
  method SelectBest(ps: seq<Option<Prediction>>) returns (best: Option<Signal>, sent: seq<Signal>)
    ensures sent == Monitored(ps) && CarriedFrom(sent, ps, Places(ps, true))
    ensures best == None <==> forall k: nat :: !Usable(ps, k, false)
    ensures best == None <==> Competing(ps) == []
    ensures best.Some? ==> FirstBest(Competing(ps), best.value) && exists k: nat :: BestAt(ps, k, best.value)
  {
    hide Places;
    hide Usable;
    hide Carries;
    hide CarriedFrom;
    hide BestAt;
    best, sent := None, [];
    ghost var at: nat := 0;
    for k := 0 to |ps|
      invariant sent == Monitored(ps[..k])
      invariant best == None <==> Competing(ps[..k]) == []
      invariant best.Some? ==> FirstBestAt(Competing(ps[..k]), at) && Competing(ps[..k])[at] == best.value
    {
      assert ps[..k + 1][..k] == ps[..k];
      ghost var cs := Competing(ps[..k]);
      if ps[k].Some? {
        var p := ps[k].value;
        var isLong := p.probLong > p.probShort;
        var spread := Abs(p.probLong - p.probShort);
        if !(spread < 0.20) {
          var candidate := Signal(p.symbol, p.price, p.atr24h, isLong, if isLong then p.probLong else p.probShort,
                                  Some(p.tier), Some(p.regime), p.distanceToHigh, p.distanceToLow, p.ofi);
          assert candidate == Candidate(p);
          hide Candidate;
          if p.held {
            sent := sent + [candidate];
          } else {
            assert Competing(ps[..k + 1]) == cs + [candidate];
            match best {
              case None => best, at := Some(candidate), 0;
              case Some(prev) =>
                BestStep(cs, at, candidate);
                if candidate.prob > prev.prob { best, at := Some(candidate), |cs|; }
            }
          }
        }
      }
    }
    assert ps[..|ps|] == ps;
    SelectionIs(ps, best, at);
  }

  lemma SelectionIs(ps: seq<Option<Prediction>>, best: Option<Signal>, at: nat)
    requires best == None <==> Competing(ps) == []
    requires best.Some? ==> FirstBestAt(Competing(ps), at) && Competing(ps)[at] == best.value
    ensures CarriedFrom(Monitored(ps), ps, Places(ps, true))
    ensures best == None <==> forall k: nat :: !Usable(ps, k, false)
    ensures best.Some? ==> exists k: nat :: BestAt(ps, k, best.value)
  {
    CompetingCarry(ps);
    MonitoredCarry(ps);
    PlacesSpec(ps, false);
    if best.Some? {
      FirstBestIsBest(ps, at);
      assert Usable(ps, Places(ps, false)[at], false);
    } else {
      assert Places(ps, false) == [];
    }
  }

  /** A later candidate takes over only by being strictly better. */
  lemma BestStep(cs: seq<Signal>, at: nat, c: Signal)
    requires FirstBestAt(cs, at)
    ensures FirstBestAt(cs + [c], if c.prob > cs[at].prob then |cs| else at)
  {
  }

  // -------------------------------------------------------- veto and flip

  /** num / den > t for a finite t, zero denominators as IEEE division has them. */
  predicate RatioAbove(num: real, den: real, t: real) { if den == 0.0 then num > 0.0 else num / den > t }

  predicate RatioBelow(num: real, den: real, t: real) { if den == 0.0 then num < 0.0 else num / den < t }

  /** The last 5m bar has already swung 0.8 percent against the signal. */
  predicate PinBar(sig: Signal, k: Kline) {
    if sig.isLong then RatioAbove(k.high - k.close, k.close, 0.008) else RatioAbove(k.close - k.low, k.low, 0.008)
  }

  /** Its body moved more than 1.5 percent against the signal. */
  predicate BodyAgainst(sig: Signal, k: Kline) {
    if sig.isLong then RatioBelow(k.close - k.open, k.open, -0.015) else RatioAbove(k.close - k.open, k.open, 0.015)
  }

  /** The 24h extreme is near and the order book pushes the same way. */
  predicate Confluence(sig: Signal) {
    if sig.isLong then sig.distanceToLow < 0.02 && sig.ofi < 0.0 else sig.distanceToHigh < 0.02 && sig.ofi > 0.0
  }

  function Flipped(sig: Signal): Signal { sig.(isLong := !sig.isLong, prob := 0.99, tier := Some("momentum")) }

  /** The screening as the source runs it; `bars` is None when fetching the 5m bars failed. */
  method Screen(sig: Signal, bars: Option<seq<Kline>>) returns (out: Option<Signal>)
    ensures out == Screened(sig, bars)
  {
    var vetoed := false;
    var finalSig := sig;
    match bars {
    case Some(ks) =>
      if |ks| > 0 {
        var k := ks[|ks| - 1];
        if sig.isLong {
          if RatioAbove(k.high - k.close, k.close, 0.008) { vetoed := true; }
          if RatioBelow(k.close - k.open, k.open, -0.015) {
            if sig.distanceToLow < 0.02 && sig.ofi < 0.0 {
              finalSig := finalSig.(isLong := false, prob := 0.99, tier := Some("momentum"));
            }
          }
        } else {
          if RatioAbove(k.close - k.low, k.low, 0.008) { vetoed := true; }
          if RatioAbove(k.close - k.open, k.open, 0.015) {
            if sig.distanceToHigh < 0.02 && sig.ofi > 0.0 {
              finalSig := finalSig.(isLong := true, prob := 0.99, tier := Some("momentum"));
            }
          }
        }
      }
    case None => vetoed := true;
    }
    out := if vetoed then None else Some(finalSig);
  }

  function Screened(sig: Signal, bars: Option<seq<Kline>>): Option<Signal> {
    match bars
    case None => None
    case Some(ks) =>
      if |ks| == 0 then Some(sig)
      else if PinBar(sig, ks[|ks| - 1]) then None
      else if BodyAgainst(sig, ks[|ks| - 1]) && Confluence(sig) then Some(Flipped(sig))
      else Some(sig)
  }

  /** A bar an exchange can send: open and close between low and high, low above zero. */
  predicate WellFormed(k: Kline) {
    0.0 < k.low && k.low <= k.open <= k.high && k.low <= k.close <= k.high
  }

  /** On any well-formed bar a body that far against the signal is a pin bar as
      well: the veto always comes before the flip. */
  lemma BodyForcesVeto(sig: Signal, k: Kline)
    requires WellFormed(k) && BodyAgainst(sig, k)
    ensures PinBar(sig, k)
  {
    if sig.isLong {
      DivLe(k.close - k.open, k.open, -0.015);
      DivLe(k.high - k.close, k.close, 0.008);
    } else {
      DivLe(k.close - k.open, k.open, 0.015);
      DivLe(k.close - k.low, k.low, 0.008);
    }
  }

  /** So a well-formed bar never flips a signal: what is sent is the signal itself. */
  lemma NoFlipIsEverSent(sig: Signal, bars: Option<seq<Kline>>)
    requires bars.Some? && |bars.value| > 0 ==> WellFormed(bars.value[|bars.value| - 1])
    ensures Screened(sig, bars) == None || Screened(sig, bars) == Some(sig)
    ensures Screened(sig, bars) == None <==>
      bars == None || (|bars.value| > 0 && PinBar(sig, bars.value[|bars.value| - 1]))
  {
    if bars.Some? && |bars.value| > 0 {
      var k := bars.value[|bars.value| - 1];
      if BodyAgainst(sig, k) { BodyForcesVeto(sig, k); }
    }
  }

  /** The flip branch itself is alive: a bar whose high lies below its open reaches
      it, and with positive prices only a bar that breaks its own bounds can. */
  lemma FlipNeedsBrokenBar(sig: Signal, k: Kline)
    requires 0.0 < k.open && 0.0 < k.low && 0.0 < k.close
    requires Screened(sig, Some([k])) == Some(Flipped(sig)) && BodyAgainst(sig, k)
    ensures if sig.isLong then k.high < k.open else k.open < k.low
  {
    if sig.isLong {
      DivLe(k.close - k.open, k.open, -0.015);
      DivLe(k.high - k.close, k.close, 0.008);
    } else {
      DivLe(k.close - k.open, k.open, 0.015);
      DivLe(k.close - k.low, k.low, 0.008);
    }
  }

  /** Should a flip be sent, it goes the way of the order flow, near the extreme it runs to. */
  lemma FlipFollowsFlow(sig: Signal, bars: Option<seq<Kline>>)
    requires Screened(sig, bars).Some? && Screened(sig, bars).value.isLong != sig.isLong
    ensures var out := Screened(sig, bars).value;
      && (out.isLong ==> sig.ofi > 0.0 && sig.distanceToHigh < 0.02)
      && (!out.isLong ==> sig.ofi < 0.0 && sig.distanceToLow < 0.02)
  {
  }

  lemma BrokenBarFlips(sig: Signal)
    requires sig.isLong && Confluence(sig)
    ensures Screened(sig, Some([Kline(100.0, 98.0, 98.0, 98.0)])) == Some(Flipped(sig))
  {
    var k := Kline(100.0, 98.0, 98.0, 98.0);
    assert (k.high - k.close) / k.close == 0.0 && (k.close - k.open) / k.open == -0.02;
    assert [k][|[k]| - 1] == k;
  }

  /** One cycle's sends: every monitored signal, then the screened best one. */
  method Cycle(ps: seq<Option<Prediction>>, bars5m: string -> Option<seq<Kline>>) returns (sent: seq<Signal>, best: Option<Signal>)
    ensures best == None <==> Competing(ps) == []
    ensures best.Some? ==> FirstBest(Competing(ps), best.value) && exists k: nat :: BestAt(ps, k, best.value)
    ensures best == None ==> sent == Monitored(ps)
    ensures best.Some? ==> var out := Screened(best.value, bars5m(best.value.symbol));
                           sent == Monitored(ps) + if out.Some? then [out.value] else []
  {
    best, sent := SelectBest(ps);
    if best.Some? {
      var out := Screen(best.value, bars5m(best.value.symbol));
      if out.Some? { sent := sent + [out.value]; }
    }
  }

  lemma {:induction false} CandidatesKeepTier(ps: seq<Option<Prediction>>, s: Signal)
    requires s in Competing(ps) || s in Monitored(ps)
    ensures exists k :: 0 <= k < |ps| && ps[k].Some? && s == Candidate(ps[k].value) && Decided(ps[k].value)
  {
    var n := |ps| - 1;
    var q := ps[..n];
    if s in Competing(q) || s in Monitored(q) {
      CandidatesKeepTier(q, s);
      var k :| 0 <= k < |q| && q[k].Some? && s == Candidate(q[k].value) && Decided(q[k].value);
      assert ps[k] == q[k];
    } else {
      assert ps[n].Some? && s == Candidate(ps[n].value) && Decided(ps[n].value);
    }
  }

  /** No signal of the momentum tier ever leaves a cycle: the tiers walked are
      layer1, layer2, layer3 and held_positions, and no flip survives the veto. */
  lemma NeverMomentumTier(ps: seq<Option<Prediction>>, best: Signal, bars: Option<seq<Kline>>, s: Signal)
    requires forall k :: 0 <= k < |ps| && ps[k].Some? ==> ps[k].value.tier != "momentum"
    requires bars.Some? && |bars.value| > 0 ==> WellFormed(bars.value[|bars.value| - 1])
    requires FirstBest(Competing(ps), best)
    requires s in Monitored(ps) || Screened(best, bars) == Some(s)
    ensures s.tier != Some("momentum")
    ensures Screened(best, bars) == Some(s) ==> s == best
  {
    NoFlipIsEverSent(best, bars);
    CandidatesKeepTier(ps, best);
    if s in Monitored(ps) { CandidatesKeepTier(ps, s); }
  }
}
