// What RiskGuard's tracking and stop amount to over a whole life of a record.
module GuardPaths {
  import opened Reals
  import opened Series
  import opened Models
  import opened RiskGuard

  /** Everything that can happen to a record while it stays in the map. */
  datatype Event =
    | Tick(x: Input)
    | Drift(entry: real, amt: real, leverage: Leverage)
    | Lock(now: nat)
    | Unlock
    | Note                               // Sentinel notes that an overdue position is in profit

  /** The Reconciler never writes a zero entry price over an existing one. */
  predicate Possible(e: Event) { e.Drift? ==> e.entry != 0.0 }

  predicate Allowed(es: seq<Event>) { forall i :: 0 <= i < |es| ==> Possible(es[i]) }

  function Apply(r: Record, e: Event): (s: Record)
    requires Tradeable(r) && Possible(e)
    ensures Tradeable(s) && s.isMomentumTrade == r.isMomentumTrade
  {
    match e
    case Tick(x) => AfterTick(r, x)
    case Drift(entry, amt, leverage) => r.(entryPrice := entry, positionAmt := amt, leverage := leverage)
    case Lock(now) => if r.isClosing then r else Locked(r, now)
    case Unlock => Unlocked(r)
    case Note => r.(timeBarrierNotified := true)
  }

  function Run(r: Record, es: seq<Event>): (r': Record)
    requires Tradeable(r) && Allowed(es)
    ensures Tradeable(r') && r'.isMomentumTrade == r.isMomentumTrade
  {
    if |es| == 0 then r else Apply(Run(r, es[..|es| - 1]), es[|es| - 1])
  }

  /** The ROE readings the record absorbed along the way. */
  function Readings(r: Record, es: seq<Event>): seq<real>
    requires Tradeable(r) && Allowed(es)
  {
    if |es| == 0 then []
    else
      var before := es[..|es| - 1];
      match es[|es| - 1]
      case Tick(x) =>
        if x.Price().Some? then Readings(r, before) + [Roe(Run(r, before), x.Price().value)] else Readings(r, before)
      case _ => Readings(r, before)
  }

  predicate Fresh(r: Record) {
    && r.mfe == 0.0 && r.mae == 0.0 && r.emaRoe == 0.0 && r.peakEmaRoe == 0.0
    && !r.alertFlag && r.entryPrice != 0.0
  }

  /** max(0, all readings) */
  function Best(rs: seq<real>): real {
    if |rs| == 0 then 0.0 else Max(Best(rs[..|rs| - 1]), rs[|rs| - 1])
  }

  /** min(0, all readings) */
  function Worst(rs: seq<real>): real {
    if |rs| == 0 then 0.0 else Min(Worst(rs[..|rs| - 1]), rs[|rs| - 1])
  }

  function DecayTerms(rs: seq<real>, n: nat): (t: seq<real>)
    requires n <= |rs|
    ensures |t| == n && forall j :: 0 <= j < n ==> t[j] == 0.25 * Pow(0.75, n - 1 - j) * rs[j]
  {
    seq(n, j requires 0 <= j < n => 0.25 * Pow(0.75, n - 1 - j) * rs[j])
  }

  /** The geometric sum 0.25 * (r[n-1] + 0.75 r[n-2] + 0.75^2 r[n-3] + ...). */
  function Decayed(rs: seq<real>): real { Sum(DecayTerms(rs, |rs|), 0, |rs|) }

  lemma BestSpec(rs: seq<real>)
    ensures forall i :: 0 <= i < |rs| ==> rs[i] <= Best(rs)
    ensures 0.0 <= Best(rs) && (Best(rs) == 0.0 || Best(rs) in rs)
  {
    if |rs| > 0 {
      var p := rs[..|rs| - 1];
      BestSpec(p);
      assert forall i :: 0 <= i < |rs| - 1 ==> rs[i] == p[i];
    }
  }

  lemma DecayedStep(rs: seq<real>, x: real)
    ensures Decayed(rs + [x]) == x * 0.25 + Decayed(rs) * 0.75
  {
    hide Pow;
    var n, ys := |rs|, rs + [x];
    var t, u := DecayTerms(ys, n + 1), DecayTerms(rs, n);
    forall j | 0 <= j < n ensures t[j] == 0.75 * u[j] {
      OlderTerm(rs, x, j);
    }
    SumScale(u, t, 0.75, 0, n);
    NewestTerm(rs, x);
  }

  lemma OlderTerm(rs: seq<real>, x: real, j: nat)
    requires j < |rs|
    ensures DecayTerms(rs + [x], |rs| + 1)[j] == 0.75 * DecayTerms(rs, |rs|)[j]
  {
    var q, y := Pow(0.75, |rs| - 1 - j), rs[j];
    assert Pow(0.75, |rs| - j) == 0.75 * q;
    assert (rs + [x])[j] == y;
    assert 0.25 * (0.75 * q) * y == 0.75 * (0.25 * q * y);
  }

  lemma NewestTerm(rs: seq<real>, x: real)
    ensures DecayTerms(rs + [x], |rs| + 1)[|rs|] == 0.25 * x
  {
    assert Pow(0.75, 0) == 1.0;
  }

  lemma ReadingsStep(r: Record, es: seq<Event>, e: Event)
    requires Tradeable(r) && Allowed(es + [e])
    ensures Allowed(es) && Run(r, es + [e]) == Apply(Run(r, es), e)
    ensures Readings(r, es + [e]) ==
            if e.Tick? && e.x.Price().Some? then Readings(r, es) + [Roe(Run(r, es), e.x.Price().value)] else Readings(r, es)
  {
    assert forall i :: 0 <= i < |es| ==> es[i] == (es + [e])[i];
    assert (es + [e])[..|es|] == es;
  }

  /** The fields a record tracks, as functions of the readings it absorbed. */
  predicate Tracks(s: Record, rs: seq<real>) {
    && s.mfe == Best(rs) && s.mae == Worst(rs) && s.emaRoe == Decayed(rs)
    && s.mae <= s.emaRoe <= s.peakEmaRoe <= s.mfe
  }

  lemma TracksStep(s: Record, rs: seq<real>, roe: real)
    requires Tracks(s, rs)
    ensures Tracks(Tracked(s, roe), rs + [roe])
  {
    hide Decayed;
    DecayedStep(rs, roe);
    assert (rs + [roe])[..|rs|] == rs;
  }

  lemma ApplyTracks(s: Record, e: Event, rs: seq<real>)
    requires Tradeable(s) && Possible(e) && Tracks(s, rs)
    ensures Tracks(Apply(s, e), if e.Tick? && e.x.Price().Some? then rs + [Roe(s, e.x.Price().value)] else rs)
  {
    hide Roe;
    hide Decayed;
    hide Best;
    hide Worst;
    if e.Tick? && e.x.Price().Some? {
      TracksStep(s, rs, Roe(s, e.x.Price().value));
    }
  }

  /** Whatever happens to a fresh record, its fields are functions of the ROE
      readings alone: MFE and MAE are the extremes with zero, the smoothed ROE is
      the decaying sum, and MAE <= EMA <= peak EMA <= MFE at every instant. */
  lemma {:induction false} PathTracking(r: Record, es: seq<Event>)
    requires Fresh(r) && Allowed(es)
    ensures Tracks(Run(r, es), Readings(r, es))
    decreases |es|
  {
    if |es| == 0 {
      assert Decayed([]) == 0.0;
    } else {
      hide Tracks;
      hide Apply;
      var p, e := es[..|es| - 1], es[|es| - 1];
      assert es == p + [e];
      PathTracking(r, p);
      ReadingsStep(r, p, e);
      ApplyTracks(Run(r, p), e, Readings(r, p));
    }
  }

  /** The best readings never shrink, and neither does the threshold they set. */
  lemma {:induction false} RunRatchets(r: Record, es: seq<Event>)
    requires Tradeable(r) && Allowed(es)
    ensures var s := Run(r, es);
      && r.mfe <= s.mfe && r.peakEmaRoe <= s.peakEmaRoe && s.mae <= r.mae
      && StopFloor(r.isMomentumTrade, r.mfe) <= StopFloor(s.isMomentumTrade, s.mfe)
    decreases |es|
  {
    if |es| > 0 {
      hide Apply;
      hide StopFloor;
      RunRatchets(r, es[..|es| - 1]);
      ApplyRatchets(Run(r, es[..|es| - 1]), es[|es| - 1]);
      FloorMonotone(r.isMomentumTrade, Run(r, es[..|es| - 1]).mfe, Run(r, es).mfe);
    }
  }

  lemma ApplyRatchets(s: Record, e: Event)
    requires Tradeable(s) && Possible(e)
    ensures var t := Apply(s, e); s.mfe <= t.mfe && s.peakEmaRoe <= t.peakEmaRoe && t.mae <= s.mae
  {
    hide Roe;
  }

  lemma FloorMonotone(momentum: bool, m: real, m': real)
    requires m <= m'
    ensures StopFloor(momentum, m) <= StopFloor(momentum, m')
  {
  }

  /** The phase automaton is memoryless: a fresh record that has lived through any
      history is closed by the next priced tick exactly when it is not locked and
      the ROE is below the floor of the best ROE ever seen, or the flow cut fires. */
  lemma StopIsMemoryless(symbol: string, r: Record, es: seq<Event>, price: real, cvd: real)
    requires Fresh(r) && Allowed(es)
    ensures var s := Run(r, es);
      var roe := Roe(s, price);
      var flow := roe < -5.0 && if s.positionAmt > 0.0 then cvd < -150000.0 else cvd > 150000.0;
      GuardOrder(symbol, s, price, cvd).Some? <==>
        !s.isClosing && (roe < StopFloor(r.isMomentumTrade, Best(Readings(r, es) + [roe])) || flow)
  {
    hide Roe;
    hide Decayed;
    PathTracking(r, es);
    var rs, roe := Readings(r, es), Roe(Run(r, es), price);
    assert (rs + [roe])[..|rs|] == rs;
  }

  /** The flag is set exactly when a reversion trade's best ROE has exceeded 10. */
  lemma AlertIffBestAboveTen(r: Record, es: seq<Event>)
    requires Fresh(r) && Allowed(es)
    ensures Run(r, es).alertFlag <==> !r.isMomentumTrade && exists i :: 0 <= i < |Readings(r, es)| && Readings(r, es)[i] > 10.0
  {
    hide Roe;
    PathTracking(r, es);
    BestSpec(Readings(r, es));
  }

  /** What a position may give back of its best ROE, the reading of the tick included,
      before it is closed: 15 points for a momentum trade above 10; for a reversion trade
      40 percent of a best above 10, 25 percent from 20 on, 15 percent from 40 on, and down
      to 1.5 of a best above 8. Only losses beyond 5 ever depend on anything else. */
  lemma GivesBackIff(symbol: string, r: Record, es: seq<Event>, price: real, cvd: real)
    requires Fresh(r) && Allowed(es) && !Run(r, es).isClosing && Roe(Run(r, es), price) >= -5.0
    ensures var roe := Roe(Run(r, es), price);
      var best := Best(Readings(r, es) + [roe]);
      GuardOrder(symbol, Run(r, es), price, cvd).Some? <==>
        if r.isMomentumTrade then best > 10.0 && best - roe > 15.0
        else if best > 10.0 then
          best - roe > best * (if best < 20.0 then 0.40 else if best < 40.0 then 0.25 else 0.15)
        else best > 8.0 && roe < 1.5
  {
    StopIsMemoryless(symbol, r, es, price, cvd);
    hide Roe;
    hide GuardOrder;
    hide Run;
    hide Readings;
    hide Best;
  }

  /** A reversion trade that once stood above 8 is never carried back below 1.5:
      the first priced tick that sees it there closes it, unless it is locked already. */
  lemma ProfitIsProtected(symbol: string, r: Record, es: seq<Event>, price: real, cvd: real)
    requires Fresh(r) && Allowed(es) && !r.isMomentumTrade
    requires exists i :: 0 <= i < |Readings(r, es)| && Readings(r, es)[i] > 8.0
    requires Roe(Run(r, es), price) < 1.5 && !Run(r, es).isClosing
    ensures GuardOrder(symbol, Run(r, es), price, cvd).Some?
  {
    hide Roe;
    StopIsMemoryless(symbol, r, es, price, cvd);
    var rs, roe := Readings(r, es), Roe(Run(r, es), price);
    assert (rs + [roe])[..|rs|] == rs;
    BestSpec(rs);
    assert Best(rs + [roe]) == Best(rs) > 8.0;
  }

  /** A ROE worked out from a price leads back to that price. */
  lemma PriceRoundTrip(r: Record, price: real)
    requires r.entryPrice != 0.0 && r.leverage > 0
    ensures ExpectedPrice(r.(unrealizedRoe := Roe(r, price))) == price
  {
    var e, l, m := r.entryPrice, r.leverage as real, SideMult(r.positionAmt);
    var q := (price - e) / e;
    DivMul(price - e, e);
    assert Roe(r, price) == q * 100.0 * l * m;
    DivUnique(q * 100.0 * l * m, 100.0, q * l * m);
    DivUnique(q * l * m, l, q * m);
    assert q * m * m == q;
    assert e * (1.0 + q) == e + q * e;
  }

  // ------------------------------------------------------- what a ROE is

  /** The margin bound by a position: its value at entry over the leverage. */
  function Margin(r: Record): real
    requires r.leverage > 0
  {
    Abs(r.positionAmt) * r.entryPrice / r.leverage as real
  }

  /** What the position has gained at this price. */
  function Profit(r: Record, price: real): real { r.positionAmt * (price - r.entryPrice) }

  /** The ROE is the profit in percent of the margin, for long and short positions. */
  lemma RoeIsReturnOnMargin(r: Record, price: real)
    requires r.entryPrice != 0.0 && r.leverage > 0 && r.positionAmt != 0.0
    ensures Roe(r, price) * Margin(r) == 100.0 * Profit(r, price)
  {
    var e, l, m, a := r.entryPrice, r.leverage as real, SideMult(r.positionAmt), Abs(r.positionAmt);
    var q := (price - e) / e;
    DivMul(price - e, e);
    DivMul(a * e, l);
    assert Roe(r, price) == q * 100.0 * l * m;
    ReturnAlgebra(q, l, m, a, e, Margin(r), price - e);
    assert m * a == r.positionAmt;
    assert 100.0 * (m * a) * (price - e) == 100.0 * (r.positionAmt * (price - e));
  }

  lemma ReturnAlgebra(q: real, l: real, m: real, a: real, e: real, g: real, d: real)
    requires q * e == d && g * l == a * e
    ensures q * 100.0 * l * m * g == 100.0 * (m * a) * d
  {
    assert q * 100.0 * l * m * g == 100.0 * m * q * (g * l);
    assert 100.0 * m * q * (a * e) == 100.0 * (m * a) * (q * e);
  }

  /** So comparing a ROE with a level is comparing profit with that share of the margin. */
  lemma RoeBelowIff(r: Record, price: real, level: real)
    requires r.entryPrice > 0.0 && r.leverage > 0 && r.positionAmt != 0.0
    ensures Roe(r, price) < level <==> 100.0 * Profit(r, price) < level * Margin(r)
  {
    var g := Margin(r);
    MulPos(Abs(r.positionAmt), r.entryPrice);
    DivLe(Abs(r.positionAmt) * r.entryPrice, r.leverage as real, 0.0);
    assert g > 0.0;
    RoeIsReturnOnMargin(r, price);
    var roe := Roe(r, price);
    hide Roe;
    hide Margin;
    hide Profit;
    if roe < level { MulPos(level - roe, g); assert (level - roe) * g == level * g - roe * g; }
    if level <= roe { MulNonNeg(roe - level, g); assert (roe - level) * g == roe * g - level * g; }
  }

  /** A position that loses more than 12 percent of its margin is closed by the next
      priced tick, whatever came before and whatever kind of trade it is, unless it is
      locked already; and only then is the close a hard stop. */
  lemma DeepLossIsCut(symbol: string, r: Record, price: real, cvd: real)
    requires r.entryPrice > 0.0 && r.leverage > 0 && r.positionAmt != 0.0
    ensures 100.0 * Profit(r, price) < -12.0 * Margin(r) ==> (GuardOrder(symbol, r, price, cvd).Some? <==> !r.isClosing)
    ensures var o := GuardOrder(symbol, r, price, cvd);
      o.Some? ==> (o.value.reason.HardStop? <==> 100.0 * Profit(r, price) < -12.0 * Margin(r))
  {
    RoeBelowIff(r, price, -12.0);
    hide Roe;
    hide Margin;
    hide Profit;
  }

  /** A position without a history that does not lose at this price is left alone. */
  lemma FreshProfitIsLeft(symbol: string, r: Record, price: real, cvd: real)
    requires Fresh(r) && r.entryPrice > 0.0 && r.leverage > 0 && r.positionAmt != 0.0
    requires Profit(r, price) >= 0.0
    ensures GuardOrder(symbol, r, price, cvd) == None
  {
    RoeBelowIff(r, price, 0.0);
    hide Roe;
    hide Margin;
    hide Profit;
  }

  // ------------------------------------------------- the price rebuilt from it

  /** Leaves alone what the rebuilt price depends on: no priced tick, and no change of
      entry price, leverage or side. Amounts may be corrected. */
  predicate KeepsPrice(r: Record, e: Event) {
    match e
    case Tick(x) => x.Price() == None
    case Drift(entry, amt, leverage) =>
      entry == r.entryPrice && leverage == r.leverage && SideMult(amt) == SideMult(r.positionAmt)
    case _ => true
  }

  predicate AllKeepPrice(r: Record, es: seq<Event>) { forall i :: 0 <= i < |es| ==> KeepsPrice(r, es[i]) }

  /** What the rebuilt price depends on. */
  predicate SameInputs(r: Record, s: Record) {
    && s.entryPrice == r.entryPrice && s.leverage == r.leverage
    && SideMult(s.positionAmt) == SideMult(r.positionAmt) && s.unrealizedRoe == r.unrealizedRoe
  }

  lemma {:induction false} HistoryKeepsPrice(r: Record, es: seq<Event>)
    requires Tradeable(r) && AllKeepPrice(r, es)
    ensures Allowed(es) && SameInputs(r, Run(r, es))
    decreases |es|
  {
    assert forall i :: 0 <= i < |es| ==> KeepsPrice(r, es[i]) ==> Possible(es[i]);
    if |es| > 0 {
      HistoryKeepsPrice(r, es[..|es| - 1]);
      assert KeepsPrice(r, es[|es| - 1]);
    }
  }

  /** So the price the other tasks rebuild from the stored ROE is the price the last
      priced tick saw, whatever has happened since that kept entry price, leverage and
      side: locking, amount corrections, ticks without a price, Sentinel's note. */
  lemma RebuiltPriceIsTickPrice(r: Record, x: Input, es: seq<Event>)
    requires Tradeable(r) && r.leverage > 0 && x.Price().Some? && AllKeepPrice(r, es)
    ensures Allowed(es)
    ensures var s := Run(AfterTick(r, x), es);
      s.leverage > 0 && ExpectedPrice(s) == x.Price().value
  {
    hide Roe;
    var ticked := AfterTick(r, x);
    forall i | 0 <= i < |es| ensures KeepsPrice(ticked, es[i]) {
      assert KeepsPrice(r, es[i]);
    }
    HistoryKeepsPrice(ticked, es);
    PriceRoundTrip(r, x.Price().value);
    hide ExpectedPrice;
    hide Run;
    SamePrice(Run(ticked, es), r.(unrealizedRoe := Roe(r, x.Price().value)));
  }

  lemma SamePrice(r: Record, s: Record)
    requires r.leverage > 0 && SameInputs(r, s)
    ensures ExpectedPrice(r) == ExpectedPrice(s)
  {
  }
}
