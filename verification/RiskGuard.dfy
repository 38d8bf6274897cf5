// src/risk_guard.rs: ROE tracking and the multi-phase stop, refined to a
// memoryless threshold on the best ROE seen.
module RiskGuard {
  import opened Reals
  import opened Series
  import opened Models

  function Roe(r: Record, price: real): real
    requires r.entryPrice != 0.0
  {
    (price - r.entryPrice) / r.entryPrice * 100.0 * r.leverage as real * SideMult(r.positionAmt)
  }

  /** The record after the tracking fields absorbed one ROE reading. */
  function Tracked(r: Record, roe: real): Record {
    var ema := roe * 0.25 + r.emaRoe * 0.75;
    r.(unrealizedRoe := roe, emaRoe := ema, mfe := Max(r.mfe, roe), mae := Min(r.mae, roe),
       peakEmaRoe := Max(r.peakEmaRoe, ema))
  }

  /** The ROE below which a position with best reading `m` is closed. */
  function StopFloor(momentum: bool, m: real): real {
    if momentum then
      if m > 10.0 then m - 15.0 else -12.0
    else if m <= 8.0 then -12.0
    else if m <= 10.0 then 1.5
    else if m < 20.0 then m * 0.60
    else if m < 40.0 then m * 0.75
    else m * 0.85
  }

  /** The order-flow cut: at a loss beyond 5% with the flow running away. */
  predicate CvdCut(r: Record, cvd: real) {
    r.unrealizedRoe < -5.0 && if r.positionAmt > 0.0 then cvd < -150000.0 else cvd > 150000.0
  }

  /** The memoryless rule, read off a record that has absorbed the current ROE. */
  predicate WantsClose(r: Record, cvd: real) {
    r.unrealizedRoe < StopFloor(r.isMomentumTrade, r.mfe) || CvdCut(r, cvd)
  }

  /** The alert flag holds no information of its own. */
  predicate AlertInv(r: Record) { r.alertFlag == (!r.isMomentumTrade && r.mfe > 10.0) }

  function Guarded(r: Record, price: real, cvd: real, now: nat): Record
    requires r.entryPrice != 0.0
  {
    var t := Tracked(r, Roe(r, price));
    var t := t.(alertFlag := !t.isMomentumTrade && t.mfe > 10.0);
    if WantsClose(t, cvd) && !t.isClosing then Locked(t, now) else t
  }

  function ReasonFor(t: Record, cvd: real): Reason {
    if t.unrealizedRoe < -12.0 then HardStop(t.unrealizedRoe)
    else if CvdCut(t, cvd) then AssassinCut
    else if t.isMomentumTrade then MomentumTrail(t.mfe - t.unrealizedRoe)
    else if t.mfe <= 10.0 then Breakeven
    else TrailingStop(t.mfe, t.unrealizedRoe)
  }

  function GuardOrder(symbol: string, r: Record, price: real, cvd: real): Option<CloseOrder>
    requires r.entryPrice != 0.0
  {
    var t := Tracked(r, Roe(r, price));
    if WantsClose(t, cvd) && !t.isClosing
    then Some(CloseOrder(symbol, r.positionAmt, price, ReasonFor(t, cvd)))
    else None
  }

  /** One record's tick: absorb the ROE, then run the phases. The phases and the
      flag they keep between ticks amount to the memoryless rule. */
  method GuardOne(pos: MockPosition, symbol: string, price: real, cvd: real, now: nat)
    returns (order: Option<CloseOrder>)
    requires AlertInv(pos.State()) && pos.entryPrice != 0.0
    modifies pos
    ensures pos.State() == Guarded(old(pos.State()), price, cvd, now)
    ensures order == GuardOrder(symbol, old(pos.State()), price, cvd)
  {
    hide Roe;
    TrackRoe(pos, price);
    order := RunPhases(pos, symbol, price, cvd, now);
  }

  method ReadRoe(pos: MockPosition, price: real) returns (roe: real)
    requires pos.entryPrice != 0.0
    ensures roe == Roe(pos.State(), price)
  {
    var sideMult := if pos.positionAmt > 0.0 then 1.0 else -1.0;
    roe := (price - pos.entryPrice) / pos.entryPrice * 100.0 * pos.leverage as real * sideMult;
  }

  method TrackRoe(pos: MockPosition, price: real)
    requires pos.entryPrice != 0.0
    modifies pos
    ensures pos.State() == Tracked(old(pos.State()), Roe(old(pos.State()), price))
  {
    hide Roe;
    var roe := ReadRoe(pos, price);
    var newEma := roe * 0.25 + pos.emaRoe * 0.75;
    pos.unrealizedRoe := roe;
    pos.emaRoe := newEma;
    if roe > pos.mfe { pos.mfe := roe; }
    if roe < pos.mae { pos.mae := roe; }
    if newEma > pos.peakEmaRoe { pos.peakEmaRoe := newEma; }
  }

  /** Set only where it belongs, and missing only on the very tick that reaches a new best above 10. */
  predicate FlagLags(t: Record) {
    && (t.alertFlag ==> !t.isMomentumTrade && t.mfe > 10.0)
    && (!t.isMomentumTrade && t.mfe > 10.0 && !t.alertFlag ==> t.unrealizedRoe == t.mfe)
  }

  /** Hard stop, order-flow cut, momentum trail, breakeven, activation, trailing stop. */
  method RunPhases(pos: MockPosition, symbol: string, price: real, cvd: real, now: nat)
    returns (order: Option<CloseOrder>)
    requires FlagLags(pos.State())
    modifies pos`alertFlag, pos`isClosing, pos`closingStartedAt
    ensures var t := old(pos.State()).(alertFlag := !pos.isMomentumTrade && pos.mfe > 10.0);
      var close := WantsClose(t, cvd) && !old(pos.isClosing);
      && pos.State() == (if close then Locked(t, now) else t)
      && order == if close then Some(CloseOrder(symbol, pos.positionAmt, price, ReasonFor(t, cvd))) else None
  {
    order := None;
    var roe := pos.unrealizedRoe;
    if roe < -12.0 {
      order := CloseIfFree(pos, symbol, price, HardStop(roe), now);
      return;
    }
    if roe < -5.0 {
      var isLong := pos.positionAmt > 0.0;
      var fatal := if isLong then cvd < -150000.0 else cvd > 150000.0;
      if fatal {
        order := CloseIfFree(pos, symbol, price, AssassinCut, now);
        return;
      }
    }
    if pos.isMomentumTrade {
      var peak := pos.mfe;
      if peak > 10.0 {
        var drawdown := peak - roe;
        if drawdown > 15.0 {
          order := CloseIfFree(pos, symbol, price, MomentumTrail(drawdown), now);
        }
      }
      return;
    }
    if pos.mfe > 8.0 && roe < 1.5 && !pos.alertFlag {
      order := CloseIfFree(pos, symbol, price, Breakeven, now);
      return;
    }
    if pos.mfe > 10.0 && !pos.alertFlag {
      pos.alertFlag := true;
    }
    if pos.alertFlag {
      var peak := pos.mfe;
      var current := pos.unrealizedRoe;
      var triggerStop := false;
      var stopLevel :=
        if peak < 20.0 then peak * 0.60
        else if peak < 40.0 then peak * 0.75
        else peak * 0.85;
      if current < stopLevel { triggerStop := true; }
      if triggerStop {
        order := CloseIfFree(pos, symbol, price, TrailingStop(peak, current), now);
      }
    }
  }

  /** Lock, and only then queue the close. */
  method CloseIfFree(pos: MockPosition, symbol: string, price: real, reason: Reason, now: nat)
    returns (order: Option<CloseOrder>)
    modifies pos`isClosing, pos`closingStartedAt
    ensures order == if old(pos.isClosing) then None else Some(CloseOrder(symbol, pos.positionAmt, price, reason))
    ensures pos.State() == if old(pos.isClosing) then old(pos.State()) else Locked(old(pos.State()), now)
  {
    order := None;
    var ok := pos.TryLockForClose(now);
    if ok { order := Some(CloseOrder(symbol, pos.positionAmt, price, reason)); }
  }

  // ------------------------------------------------------------- the cycle

  datatype Quote = Quote(bid: real, ask: real, stamp: nat)

  /** What the cycle sees of the world while it handles one symbol: the stream's
      quote if there is one, REST's answer should it be asked, and the order flow,
      0 if none was seen. */
  datatype Input = Input(quote: Option<Quote>, rest: Option<(real, real)>, cvd: real, now: nat) {

    /** The stream's midpoint, or REST's when the stream is over five seconds old
        and REST answers; none without a quote. */
    function Price(): Option<real> {
      if quote == None then None
      else if now - quote.value.stamp > 5000 && rest.Some? then Some((rest.value.0 + rest.value.1) / 2.0)
      else Some((quote.value.bid + quote.value.ask) / 2.0)
    }
  }

  /** There is a price exactly if the stream has quoted; it is the middle of the REST
      quote if the stream's is more than five seconds old and REST answers, otherwise
      the middle of the stream's, and so between bid and ask. */
  lemma PriceIsMidpoint(x: Input)
    ensures x.Price().Some? <==> x.quote.Some?
    ensures x.quote.Some? ==>
      var (bid, ask) := if x.quote.value.stamp + 5000 < x.now && x.rest.Some? then x.rest.value
                        else (x.quote.value.bid, x.quote.value.ask);
      && x.Price().value - bid == ask - x.Price().value
      && (bid <= ask ==> bid <= x.Price().value <= ask)
  {
  }

  /** A record the cycle can be run on. A zero entry price would make the ROE a division by zero. */
  predicate Tradeable(r: Record) { AlertInv(r) && r.entryPrice != 0.0 }

  ghost predicate Ready(book: PositionBook)
    reads book, book.positions.Values
  {
    book.Valid() && forall s :: s in book.positions ==> Tradeable(book.positions[s].State())
  }

  function AfterTick(r: Record, x: Input): Record
    requires Tradeable(r)
  {
    match x.Price() case None => r case Some(p) => Guarded(r, p, x.cvd, x.now)
  }

  function TickOrder(symbol: string, r: Record, x: Input): Option<CloseOrder>
    requires Tradeable(r)
  {
    match x.Price() case None => None case Some(p) => GuardOrder(symbol, r, p, x.cvd)
  }

  method TickOne(pos: MockPosition, symbol: string, x: Input) returns (order: Option<CloseOrder>)
    requires Tradeable(pos.State())
    modifies pos
    ensures pos.State() == AfterTick(old(pos.State()), x) && Tradeable(pos.State())
    ensures order == TickOrder(symbol, old(pos.State()), x)
    ensures order.Some? ==> order.value.symbol == symbol
  {
    order := None;
    if x.quote.Some? {
      var p := x.quote.value;
      var price;
      if x.now > p.stamp && x.now - p.stamp > 5000 {
        if x.rest.Some? {
          var (bid, ask) := x.rest.value;
          price := (bid + ask) / 2.0;
        } else {
          price := (p.bid + p.ask) / 2.0;
        }
      } else {
        price := (p.bid + p.ask) / 2.0;
      }
      assert Some(price) == x.Price();
      hide Guarded;
      hide GuardOrder;
      order := GuardOne(pos, symbol, price, x.cvd, x.now);
    }
  }

  /** What the cycle orders for each symbol, given the book it starts from. */
  function TickOrders(held: map<string, Record>, inputs: string -> Input): string -> Option<CloseOrder> {
    s => if s in held && Tradeable(held[s]) then TickOrder(s, held[s], inputs(s)) else None
  }

  lemma TickOrdersOwn(held: map<string, Record>, inputs: string -> Input)
    ensures var order := TickOrders(held, inputs); forall s :: order(s).Some? ==> order(s).value.symbol == s
  {
  }

  /** The book after the records walked so far have taken their ticks. */
  function Ticked(held: map<string, Record>, walked: seq<string>, inputs: string -> Input): map<string, Record> {
    map s | s in held :: if s in walked && Tradeable(held[s]) then AfterTick(held[s], inputs(s)) else held[s]
  }

  lemma TickedStep(held: map<string, Record>, walked: seq<string>, s: string, inputs: string -> Input)
    requires s in Ticked(held, walked, inputs) && s !in walked && Tradeable(Ticked(held, walked, inputs)[s])
    ensures s in held && held[s] == Ticked(held, walked, inputs)[s]
    ensures Ticked(held, walked + [s], inputs) == Ticked(held, walked, inputs)[s := AfterTick(held[s], inputs(s))]
    ensures TickOrders(held, inputs)(s) == TickOrder(s, held[s], inputs(s))
  {
    hide AfterTick;
    hide TickOrder;
    hide Tradeable;
  }

  /** One symbol's turn: its own record takes its tick, no other record changes. */
  method TickAt(book: PositionBook, s: string, x: Input) returns (order: Option<CloseOrder>)
    requires Ready(book) && s in book.positions
    modifies book.positions.Values
    ensures Ready(book) && book.positions == old(book.positions)
    ensures var held := old(book.View());
      && s in held && Tradeable(held[s])
      && book.View() == held[s := AfterTick(held[s], x)] && order == TickOrder(s, held[s], x)
  {
    hide AfterTick;
    hide TickOrder;
    hide Tradeable;
    hide MockPosition.State;
    order := TickOne(book.positions[s], s, x);
    assert forall t :: t in book.positions && t != s ==> book.positions[t].State() == old(book.positions[t].State());
  }

  /** Every record takes exactly its own tick, in whatever order the map is walked,
      and the queue holds, in that order, one order for each record locked just now. */
  method UpdateRoeCycle(book: PositionBook, inputs: string -> Input) returns (orders: seq<CloseOrder>, ghost walked: seq<string>)
    requires Ready(book)
    modifies book.positions.Values
    ensures Ready(book) && book.positions == old(book.positions) && Enumerates(walked, book.positions.Keys)
    ensures book.View() == Ticked(old(book.View()), walked, inputs)
    ensures orders == Collected(walked, TickOrders(old(book.View()), inputs))
  {
    hide Ready;
    hide PositionBook.View;
    hide Ticked;
    hide TickOrders;
    hide Enumerates;
    hide Collected;
    ghost var held, order := book.View(), TickOrders(book.View(), inputs);
    orders, walked := [], [];
    var todo := book.positions.Keys;
    TickedNone(held, inputs);
    WalkStarts(order);
    assert book.positions.Keys - todo == {};
    while todo != {}
      invariant todo <= book.positions.Keys && Ready(book)
      invariant Enumerates(walked, book.positions.Keys - todo)
      invariant book.View() == Ticked(held, walked, inputs)
      invariant orders == Collected(walked, order)
    {
      var s :| s in todo;
      EnumeratesStep(walked, book.positions.Keys - todo, s);
      assert book.positions.Keys - todo + {s} == book.positions.Keys - (todo - {s});
      todo := todo - {s};
      var o := TickAt(book, s, inputs(s));
      TickedStep(held, walked, s, inputs);
      CollectedStep(walked, s, order);
      if o.Some? { orders := orders + [o.value]; }
      walked := walked + [s];
    }
    assert book.positions.Keys - {} == book.positions.Keys;
  }

  lemma TickedNone(held: map<string, Record>, inputs: string -> Input)
    ensures Ticked(held, [], inputs) == held
  {
  }

  /** What the cycle comes to, record by record and order by order. */
  lemma CycleIs(held: map<string, Record>, walked: seq<string>, inputs: string -> Input)
    requires Enumerates(walked, held.Keys) && forall s :: s in held ==> Tradeable(held[s])
    ensures forall s :: s in held ==> Ticked(held, walked, inputs)[s] == AfterTick(held[s], inputs(s))
    ensures var orders := Collected(walked, TickOrders(held, inputs));
      && (forall o :: o in orders <==> o.symbol in held && Some(o) == TickOrder(o.symbol, held[o.symbol], inputs(o.symbol)))
      && NoSymbolTwice(orders)
  {
    TickOrdersOwn(held, inputs);
    CollectedIs(walked, TickOrders(held, inputs));
    CollectedOnce(walked, TickOrders(held, inputs));
    hide AfterTick;
    hide TickOrder;
    hide Tradeable;
    hide Collected;
  }
}
