// src/sentinel.rs: lock timeout, ATR stop, time barrier and funding defence.
module Sentinel {
  import opened Reals
  import opened Series
  import opened Models
  import RiskGuard
  import GuardPaths

  datatype Config = Config(closingTimeoutMs: nat, layer1Hours: real, layer2Hours: real, layer3Hours: real, dryRun: bool)

  datatype Funding = Funding(rate: real, nextTime: nat)

  /** The ROE at which this record is stopped out: twice the entry volatility,
      held between 7 and 12 percent, tightened by 30 percent in a choppy market. */
  function StopLevel(r: Record): real {
    var drop := if r.atr24h > 0.0 && r.entryPrice > 0.0
                then r.atr24h / r.entryPrice * 2.0 * r.leverage as real * 100.0 else 25.0;
    var level := -Max(7.0, Min(drop, 12.0));
    if r.regime == Some("CHOP_HIGH_VOL") then level * 0.7 else level
  }

  /** Rust's `as u64`: truncated, and zero for a negative number of hours. */
  function HoldingMs(hours: real): nat {
    if hours <= 0.0 then 0 else
      MulNonNeg(hours, 3600000.0);
      (hours * 3600000.0).Floor
  }

  function MaxHours(r: Record, cfg: Config): real {
    match r.tier
    case Some("layer1") => cfg.layer1Hours
    case Some("layer2") => cfg.layer2Hours
    case _ => cfg.layer3Hours
  }

  predicate Overdue(r: Record, now: nat, cfg: Config) {
    now > r.entryTime && now - r.entryTime > HoldingMs(MaxHours(r, cfg))
  }

  function SaturatingSub(x: nat, y: nat): nat { if x < y then 0 else x - y }

  /** Under ten minutes to a funding payment of more than 0.05% against the position. */
  predicate FundingAgainst(r: Record, now: nat, funding: Option<Funding>) {
    funding.Some? && SaturatingSub(funding.value.nextTime, now) as real / 60000.0 < 10.0
    && if r.positionAmt > 0.0 then funding.value.rate > 0.0005 else funding.value.rate < -0.0005
  }

  function Trigger(r: Record, now: nat, cfg: Config, funding: Option<Funding>): Option<Reason> {
    if r.unrealizedRoe < StopLevel(r) then Some(AtrStop(StopLevel(r)))
    else if Overdue(r, now, cfg) && r.unrealizedRoe <= 3.0 then Some(TimeBarrier(MaxHours(r, cfg), r.unrealizedRoe))
    else if FundingAgainst(r, now, funding) then Some(FundingDefense(funding.value.rate))
    else None
  }

  predicate TimedOut(r: Record, now: nat, cfg: Config) {
    r.isClosing && r.closingStartedAt > 0 && now - r.closingStartedAt > cfg.closingTimeoutMs
  }

  /** An overdue position in profit is noted once and left to run. */
  function Noted(r: Record, now: nat, cfg: Config): Record {
    r.(timeBarrierNotified := r.timeBarrierNotified
      || (r.unrealizedRoe >= StopLevel(r) && Overdue(r, now, cfg) && r.unrealizedRoe > 3.0))
  }

  /** The record after one visit. */
  function Checked(r: Record, now: nat, cfg: Config, funding: Option<Funding>): Record {
    if r.isClosing then if TimedOut(r, now, cfg) then Unlocked(r) else r
    else if Trigger(r, now, cfg, funding) == None then Noted(r, now, cfg)
    else if cfg.dryRun then Unlocked(Noted(r, now, cfg))
    else Locked(Noted(r, now, cfg), now)
  }

  function CheckOrder(symbol: string, r: Record, now: nat, cfg: Config, funding: Option<Funding>): Option<CloseOrder>
    requires r.leverage > 0
  {
    var trigger := Trigger(r, now, cfg, funding);
    if r.isClosing || cfg.dryRun || trigger == None then None
    else Some(CloseOrder(symbol, r.positionAmt, ExpectedPrice(r), trigger.value))
  }

  method CheckOne(pos: MockPosition, symbol: string, now: nat, cfg: Config, funding: Option<Funding>)
    returns (order: Option<CloseOrder>)
    requires pos.leverage > 0
    modifies pos`isClosing, pos`closingStartedAt, pos`timeBarrierNotified
    ensures pos.State() == Checked(old(pos.State()), now, cfg, funding)
    ensures order == CheckOrder(symbol, old(pos.State()), now, cfg, funding)
  {
    hide Trigger;
    hide StopLevel;
    hide HoldingMs;
    hide ExpectedPrice;
    order := None;
    if pos.isClosing {
      var startTs := pos.closingStartedAt;
      if startTs > 0 && now - startTs > cfg.closingTimeoutMs {
        pos.UnlockClose();
      }
      return;
    }
    var trigger := Decide(pos, now, cfg, funding);
    if trigger.Some? {
      var expectedPrice := RebuildPrice(pos);
      GuardPaths.SamePrice(pos.State(), old(pos.State()));
      var ok := pos.TryLockForClose(now);
      if ok {
        if cfg.dryRun {
          pos.UnlockClose();
        } else {
          order := Some(CloseOrder(symbol, pos.positionAmt, expectedPrice, trigger.value));
        }
      }
    }
  }

  /** The conditions in the order the source tries them; the first that holds gives the reason. */
  method Decide(pos: MockPosition, now: nat, cfg: Config, funding: Option<Funding>) returns (trigger: Option<Reason>)
    modifies pos`timeBarrierNotified
    ensures trigger == Trigger(old(pos.State()), now, cfg, funding)
    ensures pos.State() == Noted(old(pos.State()), now, cfg)
  {
    hide StopLevel;
    hide HoldingMs;
    trigger := None;
    var currentHardStop := ReadStopLevel(pos);
    if pos.unrealizedRoe < currentHardStop {
      trigger := Some(AtrStop(currentHardStop));
    } else {
      var maxHours := MaxHours(pos.State(), cfg);
      var maxHoldingMs := HoldingMs(maxHours);
      if now > pos.entryTime && now - pos.entryTime > maxHoldingMs {
        if pos.unrealizedRoe > 3.0 {
          if !pos.timeBarrierNotified { pos.timeBarrierNotified := true; }
        } else {
          trigger := Some(TimeBarrier(maxHours, pos.unrealizedRoe));
        }
      }
    }
    if trigger == None {
      if funding.Some? {
        var timeToFunding := SaturatingSub(funding.value.nextTime, now) as real / 60000.0;
        if timeToFunding < 10.0 {
          var isLong := pos.positionAmt > 0.0;
          if (isLong && funding.value.rate > 0.0005) || (!isLong && funding.value.rate < -0.0005) {
            trigger := Some(FundingDefense(funding.value.rate));
          }
        }
      }
    }
  }

  method ReadStopLevel(pos: MockPosition) returns (level: real)
    ensures level == StopLevel(pos.State())
  {
    var atrRoeDrop := 25.0;
    if pos.atr24h > 0.0 && pos.entryPrice > 0.0 {
      atrRoeDrop := pos.atr24h / pos.entryPrice * 2.0 * pos.leverage as real * 100.0;
    }
    level := -Max(7.0, Min(atrRoeDrop, 12.0));
    if pos.regime == Some("CHOP_HIGH_VOL") { level := level * 0.7; }
  }

  method RebuildPrice(pos: MockPosition) returns (price: real)
    requires pos.leverage > 0
    ensures price == ExpectedPrice(pos.State())
  {
    var sideMult := if pos.positionAmt > 0.0 then 1.0 else -1.0;
    price := pos.entryPrice * (1.0 + pos.unrealizedRoe / 100.0 / pos.leverage as real * sideMult);
  }

  function CheckOrders(held: map<string, Record>, clock: string -> nat, cfg: Config, fundings: string -> Option<Funding>):
    string -> Option<CloseOrder>
  {
    s => if s in held && held[s].leverage > 0 then CheckOrder(s, held[s], clock(s), cfg, fundings(s)) else None
  }

  lemma CheckOrdersOwn(held: map<string, Record>, clock: string -> nat, cfg: Config, fundings: string -> Option<Funding>)
    ensures var order := CheckOrders(held, clock, cfg, fundings); forall s :: order(s).Some? ==> order(s).value.symbol == s
  {
  }

  /** The book after the records walked so far have been visited. */
  function Visited(held: map<string, Record>, walked: seq<string>, clock: string -> nat, cfg: Config,
                   fundings: string -> Option<Funding>): map<string, Record>
  {
    map s | s in held :: if s in walked then Checked(held[s], clock(s), cfg, fundings(s)) else held[s]
  }

  lemma VisitedStep(held: map<string, Record>, walked: seq<string>, s: string, clock: string -> nat, cfg: Config,
                    fundings: string -> Option<Funding>)
    requires var now := Visited(held, walked, clock, cfg, fundings); s in now && s !in walked && now[s].leverage > 0
    ensures s in held && held[s] == Visited(held, walked, clock, cfg, fundings)[s]
    ensures Visited(held, walked + [s], clock, cfg, fundings)
         == Visited(held, walked, clock, cfg, fundings)[s := Checked(held[s], clock(s), cfg, fundings(s))]
    ensures CheckOrders(held, clock, cfg, fundings)(s) == CheckOrder(s, held[s], clock(s), cfg, fundings(s))
  {
    hide Checked;
    hide CheckOrder;
  }

  lemma VisitedNone(held: map<string, Record>, clock: string -> nat, cfg: Config, fundings: string -> Option<Funding>)
    ensures Visited(held, [], clock, cfg, fundings) == held
  {
  }

  /** No record has a zero leverage, by which the expected price is divided. */
  ghost predicate Ready(book: PositionBook)
    reads book, book.positions.Values
  {
    book.Valid() && forall s :: s in book.positions ==> book.positions[s].State().leverage > 0
  }

  /** One symbol's turn: its own record is visited, no other record changes. */
  method CheckAt(book: PositionBook, s: string, now: nat, cfg: Config, funding: Option<Funding>)
    returns (order: Option<CloseOrder>)
    requires Ready(book) && s in book.positions
    modifies book.positions.Values
    ensures Ready(book) && book.positions == old(book.positions)
    ensures var held := old(book.View());
      && s in held && held[s].leverage > 0
      && book.View() == held[s := Checked(held[s], now, cfg, funding)] && order == CheckOrder(s, held[s], now, cfg, funding)
  {
    hide Trigger;
    hide CheckOrder;
    hide MockPosition.State;
    order := CheckEntry(book.positions[s], s, now, cfg, funding);
    assert forall t :: t in book.positions && t != s ==> book.positions[t].State() == old(book.positions[t].State());
  }

  /** Every record gets exactly its own visit, at the time the walk reaches it; the
      queue holds, in walking order, one order for each record locked. */
  method CheckPositions(book: PositionBook, clock: string -> nat, cfg: Config, fundings: string -> Option<Funding>)
    returns (orders: seq<CloseOrder>, ghost walked: seq<string>)
    requires Ready(book)
    modifies book.positions.Values
    ensures Ready(book) && book.positions == old(book.positions) && Enumerates(walked, book.positions.Keys)
    ensures book.View() == Visited(old(book.View()), walked, clock, cfg, fundings)
    ensures orders == Collected(walked, CheckOrders(old(book.View()), clock, cfg, fundings))
  {
    hide Ready;
    hide PositionBook.View;
    hide Visited;
    hide CheckOrders;
    hide Enumerates;
    hide Collected;
    ghost var held, order := book.View(), CheckOrders(book.View(), clock, cfg, fundings);
    orders, walked := [], [];
    var todo := book.positions.Keys;
    VisitedNone(held, clock, cfg, fundings);
    WalkStarts(order);
    assert book.positions.Keys - todo == {};
    while todo != {}
      invariant todo <= book.positions.Keys && Ready(book)
      invariant Enumerates(walked, book.positions.Keys - todo)
      invariant book.View() == Visited(held, walked, clock, cfg, fundings)
      invariant orders == Collected(walked, order)
    {
      var s :| s in todo;
      EnumeratesStep(walked, book.positions.Keys - todo, s);
      assert book.positions.Keys - todo + {s} == book.positions.Keys - (todo - {s});
      todo := todo - {s};
      var o := CheckAt(book, s, clock(s), cfg, fundings(s));
      VisitedStep(held, walked, s, clock, cfg, fundings);
      CollectedStep(walked, s, order);
      if o.Some? { orders := orders + [o.value]; }
      walked := walked + [s];
    }
    assert book.positions.Keys - {} == book.positions.Keys;
  }

  /** What the pass comes to, record by record and order by order. */
  lemma PassIs(held: map<string, Record>, walked: seq<string>, clock: string -> nat, cfg: Config,
               fundings: string -> Option<Funding>)
    requires Enumerates(walked, held.Keys) && forall s :: s in held ==> held[s].leverage > 0
    ensures forall s :: s in held ==> Visited(held, walked, clock, cfg, fundings)[s] == Checked(held[s], clock(s), cfg, fundings(s))
    ensures var orders := Collected(walked, CheckOrders(held, clock, cfg, fundings));
      && (forall o :: o in orders <==>
            o.symbol in held && Some(o) == CheckOrder(o.symbol, held[o.symbol], clock(o.symbol), cfg, fundings(o.symbol)))
      && NoSymbolTwice(orders)
  {
    CheckOrdersOwn(held, clock, cfg, fundings);
    CollectedIs(walked, CheckOrders(held, clock, cfg, fundings));
    CollectedOnce(walked, CheckOrders(held, clock, cfg, fundings));
    hide Checked;
    hide CheckOrder;
    hide Collected;
  }

  method CheckEntry(pos: MockPosition, symbol: string, now: nat, cfg: Config, funding: Option<Funding>)
    returns (order: Option<CloseOrder>)
    requires pos.State().leverage > 0
    modifies pos
    ensures pos.State() == Checked(old(pos.State()), now, cfg, funding)
    ensures order == CheckOrder(symbol, old(pos.State()), now, cfg, funding)
    ensures order.Some? ==> order.value.symbol == symbol
  {
    order := CheckOne(pos, symbol, now, cfg, funding);
  }

  // ------------------------------------------------------------ properties

  /** Whatever the volatility, leverage and regime, the stop lies in [-12, -4.9],
      and outside a choppy market in [-12, -7]. */
  lemma StopLevelRange(r: Record)
    ensures -12.0 <= StopLevel(r) <= -4.9
    ensures r.regime != Some("CHOP_HIGH_VOL") ==> StopLevel(r) <= -7.0
  {
  }

  /** The stop is where the position would stand after a move against it of twice the
      entry volatility: that ROE, held between -12 and -7, tightened by 30 percent in a
      choppy market. Without a volatility it is -12. */
  lemma StopIsTwoVolatilities(r: Record)
    requires r.entryPrice > 0.0 && r.leverage > 0 && r.positionAmt != 0.0 && r.atr24h >= 0.0
    ensures var worst := RiskGuard.Roe(r, r.entryPrice - 2.0 * r.atr24h * SideMult(r.positionAmt));
      var level := if r.atr24h == 0.0 || worst < -12.0 then -12.0 else if worst > -7.0 then -7.0 else worst;
      StopLevel(r) == if r.regime == Some("CHOP_HIGH_VOL") then level * 0.7 else level
  {
    if r.atr24h > 0.0 {
      var e, l, m, v := r.entryPrice, r.leverage as real, SideMult(r.positionAmt), r.atr24h;
      var q := v / e;
      DivMul(v, e);
      DivUnique(e - 2.0 * v * m - e, e, -2.0 * q * m);
      assert m * m == 1.0;
      WorstAlgebra(q, l, m);
    }
  }

  lemma WorstAlgebra(q: real, l: real, m: real)
    requires m * m == 1.0
    ensures -2.0 * q * m * 100.0 * l * m == -(q * 2.0 * l * 100.0)
  {
    assert -2.0 * q * m * 100.0 * l * m == (-2.0 * q * 100.0 * l) * (m * m);
  }

  /** A free record is closed exactly if its stored ROE is below the stop, or it is held
      too long with a ROE of 3 or less, or it has to pay more than 0.05 percent of
      funding in less than ten minutes. One about to receive is not closed for that. */
  lemma ClosedIff(symbol: string, r: Record, now: nat, cfg: Config, funding: Option<Funding>)
    requires r.leverage > 0 && !r.isClosing && !cfg.dryRun
    ensures CheckOrder(symbol, r, now, cfg, funding).Some? <==>
      || r.unrealizedRoe < StopLevel(r)
      || (Overdue(r, now, cfg) && r.unrealizedRoe <= 3.0)
      || (funding.Some? && funding.value.nextTime < now + 600000
          && FundingCost(r.positionAmt > 0.0, funding.value.rate) > 0.0005)
  {
    hide StopLevel;
    hide Overdue;
    hide ExpectedPrice;
    if funding.Some? {
      DivLe(SaturatingSub(funding.value.nextTime, now) as real, 60000.0, 10.0);
    }
  }

  /** Held too long means longer than the hours its tier allows; an unknown tier counts as layer3. */
  lemma OverdueIff(r: Record, now: nat, cfg: Config)
    requires 0.0 <= MaxHours(r, cfg)
    ensures Overdue(r, now, cfg) <==> r.entryTime < now && (now - r.entryTime) as real / 3600000.0 > MaxHours(r, cfg)
    ensures r.tier == Some("layer1") ==> MaxHours(r, cfg) == cfg.layer1Hours
    ensures r.tier == Some("layer2") ==> MaxHours(r, cfg) == cfg.layer2Hours
    ensures r.tier != Some("layer1") && r.tier != Some("layer2") ==> MaxHours(r, cfg) == cfg.layer3Hours
  {
    var hours, held := MaxHours(r, cfg), now - r.entryTime;
    if held > 0 {
      DivLe(held as real, 3600000.0, hours);
      MulNonNeg(hours, 3600000.0);
    }
  }

  /** A record whose stored ROE is below -12 is always stopped out by the next
      visit, unless it is locked already or the engine runs dry. */
  lemma DeepLossAlwaysCloses(symbol: string, r: Record, now: nat, cfg: Config, funding: Option<Funding>)
    requires r.leverage > 0 && r.unrealizedRoe < -12.0
    ensures CheckOrder(symbol, r, now, cfg, funding).Some? <==> !r.isClosing && !cfg.dryRun
    ensures !r.isClosing && !cfg.dryRun ==> Checked(r, now, cfg, funding).isClosing
  {
    StopLevelRange(r);
  }

  /** Sentinel is never looser than RiskGuard's initial stop: as long as RiskGuard's
      floor is still -12, every ROE below it is below Sentinel's level as well. */
  lemma NeverLooserThanGuard(r: Record)
    requires RiskGuard.StopFloor(r.isMomentumTrade, r.mfe) <= -12.0
    requires r.unrealizedRoe < RiskGuard.StopFloor(r.isMomentumTrade, r.mfe)
    ensures r.unrealizedRoe < StopLevel(r)
  {
    StopLevelRange(r);
  }

  /** A locked record changes only by timing out, and an order always leaves its record locked. */
  lemma LocksAreRespected(symbol: string, r: Record, now: nat, cfg: Config, funding: Option<Funding>)
    requires r.leverage > 0
    ensures r.isClosing ==> (Checked(r, now, cfg, funding) == if TimedOut(r, now, cfg) then Unlocked(r) else r)
    ensures CheckOrder(symbol, r, now, cfg, funding).Some? ==>
      !r.isClosing && Checked(r, now, cfg, funding).isClosing && Checked(r, now, cfg, funding).closingStartedAt == now
    ensures !r.isClosing && Checked(r, now, cfg, funding).isClosing ==> CheckOrder(symbol, r, now, cfg, funding).Some?
  {
    hide StopLevel;
    hide ExpectedPrice;
  }

  /** A stop ordered here expects the very price RiskGuard's last tick computed the
      ROE from, if nothing since has changed entry price, leverage or side. */
  lemma StopExpectsTickPrice(symbol: string, r: Record, x: RiskGuard.Input, es: seq<GuardPaths.Event>,
                             now: nat, cfg: Config, funding: Option<Funding>)
    requires RiskGuard.Tradeable(r) && r.leverage > 0 && x.Price().Some? && GuardPaths.AllKeepPrice(r, es)
    ensures var s := GuardPaths.Run(RiskGuard.AfterTick(r, x), es);
      s.leverage > 0 && (CheckOrder(symbol, s, now, cfg, funding).Some? ==>
        CheckOrder(symbol, s, now, cfg, funding).value.expectedPrice == x.Price().value)
  {
    hide Trigger;
    GuardPaths.RebuiltPriceIsTickPrice(r, x, es);
  }
}
