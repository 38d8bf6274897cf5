// src/executor.rs: maker-then-taker execution of opens and closes. The exchange
// is a `World`: what it really fills and what it answers, call by call.
module Executor {
  import opened Reals
  import opened Series
  import opened Models

  datatype BookReply = BookErr | Book(bid: real, ask: real)
  datatype PlaceReply = PlaceErr | PlaceOk(orderId: Option<nat>, avgPrice: Option<real>)
  datatype StatusReply = StatusErr | StatusOk(executedQty: Option<real>, avgPrice: Option<real>)

  /** `makerFill` and `takerFill` are what the exchange fills if the order is
      placed, whether or not the call that placed it reports success. */
  datatype World = World(book: BookReply, maker: PlaceReply, makerFill: real, status: StatusReply,
                         taker: PlaceReply, takerFill: real)

  /** An order as it is handed to `place_order`; without a limit it goes to the market. */
  datatype SentOrder = SentOrder(sell: bool, limit: Option<real>, size: real, reduceOnly: bool)

  /** The side of the book a maker order joins. */
  function Touch(book: BookReply, buy: bool): real {
    match book
    case Book(bid, ask) => if buy then bid else ask
    case BookErr => 0.0
  }

  datatype OpenOrder = OpenOrder(symbol: string, isLong: bool, qty: real, expectedPrice: real,
                                 tier: Option<string>, regime: Option<string>, atr24h: real, isMomentumTrade: bool)

  function GetOr<T>(o: Option<T>, d: T): T { match o case Some(v) => v case None => d }

  /** `place_order` rounds every quantity to five decimals. */
  function CleanQty(q: real): real { Round(q * 100000.0) as real / 100000.0 }

  predicate OnGrid(q: real) { CleanQty(q) == q }

  // ----------------------------------------------------- what the replies mean

  /** A maker order is tried when the book answers with a narrow enough spread. */
  predicate MakerTried(book: BookReply, buy: bool, maxSpread: real) {
    book.Book? && book.bid != 0.0 && (book.ask - book.bid) / book.bid * 100.0 <= maxSpread
    && (if buy then book.bid else book.ask) > 0.0
  }

  /** The executor learns of maker fills only through an order id and a status reply. */
  predicate StatusKnown(w: World, tried: bool) {
    tried && w.maker.PlaceOk? && w.maker.orderId.Some? && w.status.StatusOk?
  }

  function Seen(w: World, tried: bool): real {
    if StatusKnown(w, tried) then GetOr(w.status.executedQty, 0.0) else 0.0
  }

  function SeenPrice(w: World, buy: bool): real
    requires w.book.Book? && w.status.StatusOk?
  {
    GetOr(w.status.avgPrice, if buy then w.book.bid else w.book.ask)
  }

  predicate TakerTried(qty: real, seen: real) { qty - seen > qty * 0.001 }

  /** What the exchange really filled. */
  function Fills(w: World, tried: bool, taker: bool): real {
    (if tried then w.makerFill else 0.0) + (if taker then w.takerFill else 0.0)
  }

  // ------------------------------------------------------------------- opens

  function OpenTried(o: OpenOrder, w: World): bool { MakerTried(w.book, o.isLong, 0.25) }

  function OpenSeen(o: OpenOrder, w: World): real { Seen(w, OpenTried(o, w)) }

  function OpenFills(o: OpenOrder, w: World): real {
    Fills(w, OpenTried(o, w), TakerTried(o.qty, OpenSeen(o, w)))
  }

  /** The orders an open places, in order. */
  function OpenPlaced(o: OpenOrder, w: World): seq<SentOrder> {
    (if OpenTried(o, w) then [SentOrder(!o.isLong, Some(Touch(w.book, o.isLong)), o.qty, false)] else [])
    + if TakerTried(o.qty, OpenSeen(o, w)) then [SentOrder(!o.isLong, None, o.qty - OpenSeen(o, w), false)] else []
  }

  function Vwap(x: real, p: real, y: real, r: real, total: real): real
    requires total != 0.0
  {
    (x * p + y * r) / total
  }

  /** Amount and price the open is recorded with; None when nothing is recorded. */
  function Recorded(o: OpenOrder, w: World): Option<(real, real)>
    requires o.qty > 0.0
  {
    var seen := OpenSeen(o, w);
    var rest := o.qty - seen;
    var price := if StatusKnown(w, OpenTried(o, w)) then SeenPrice(w, o.isLong) else 0.0;
    if TakerTried(o.qty, seen) then
      match w.taker
      case PlaceOk(_, avg) =>
        var market := GetOr(avg, o.expectedPrice);
        Some((o.qty, if seen > 0.0 then Vwap(seen, price, rest, market, o.qty) else market))
      case PlaceErr => if seen == 0.0 then None else Some((seen, price))
    else if seen > 0.0 then Some((seen, price))
    else None
  }

  datatype Funding = Funding(rate: real, nextTime: nat)

  /** What an open is checked against before any order is placed. */
  datatype Gate = Gate(funding: Option<Funding>, now: nat, quote: Option<(real, real)>)

  predicate Rejected(o: OpenOrder, held: map<string, Record>, gate: Gate) {
    || (o.symbol in held && (held[o.symbol].positionAmt > 0.0) == o.isLong)
    || (gate.funding.Some?
        && (if gate.funding.value.nextTime < gate.now then 0 else gate.funding.value.nextTime - gate.now) as real / 3600000.0 < 2.0
        && if o.isLong then gate.funding.value.rate > 0.0005 else gate.funding.value.rate < -0.0005)
    || (gate.quote.Some? && gate.quote.value.0 > 0.0
        && (gate.quote.value.1 - gate.quote.value.0) / gate.quote.value.0 > 0.0015)
  }

  function OpenedRecord(o: OpenOrder, fill: (real, real), leverage: Leverage, now: nat): Record {
    NewRecord(o.symbol, fill.1, Signed(o, fill.0), leverage, now, o.tier, o.regime, o.atr24h, o.isMomentumTrade)
  }

  /** A quantity on the order's side. */
  function Signed(o: OpenOrder, qty: real): real { if o.isLong then qty else -qty }

  /** The book once an open is over; nothing was recorded if `fill` is None. */
  function OpenedView(held: map<string, Record>, o: OpenOrder, fill: Option<(real, real)>, leverage: Leverage, now: nat):
    map<string, Record>
  {
    match fill
    case Some(f) => held[o.symbol := OpenedRecord(o, f, leverage, now)]
    case None => held
  }

  // ------------------------------------------------------------------ closes

  /** Only RiskGuard's own hard stop carries the words the executor looks for. */
  predicate IsHardStop(r: Reason) { r.HardStop? }

  function CloseTried(o: CloseOrder, w: World): bool {
    !IsHardStop(o.reason) && MakerTried(w.book, o.qty <= 0.0, 0.30)
  }

  function CloseSeen(o: CloseOrder, w: World): real { Seen(w, CloseTried(o, w)) }

  function CloseTakerTried(o: CloseOrder, w: World): bool { TakerTried(Abs(o.qty), CloseSeen(o, w)) }

  function CloseFills(o: CloseOrder, w: World): real { Fills(w, CloseTried(o, w), CloseTakerTried(o, w)) }

  function CloseMaker(o: CloseOrder, w: World): SentOrder {
    SentOrder(o.qty > 0.0, Some(Touch(w.book, o.qty <= 0.0)), Abs(o.qty), true)
  }

  function CloseTaker(o: CloseOrder, w: World): SentOrder {
    SentOrder(o.qty > 0.0, None, Abs(o.qty) - CloseSeen(o, w), true)
  }

  /** The orders a close places, in order. */
  function ClosePlaced(o: CloseOrder, w: World): seq<SentOrder> {
    (if CloseTried(o, w) then [CloseMaker(o, w)] else []) + if CloseTakerTried(o, w) then [CloseTaker(o, w)] else []
  }

  /** The record goes unless the market order that should finish the close failed. */
  predicate Removes(o: CloseOrder, w: World) { CloseTakerTried(o, w) ==> w.taker.PlaceOk? }

  function ClosedView(held: map<string, Record>, o: CloseOrder, w: World): map<string, Record> {
    if Removes(o, w) then held - {o.symbol}
    else if o.symbol in held then held[o.symbol := Unlocked(held[o.symbol])]
    else held
  }

  class Engine {
    const book: PositionBook
    const dryRun: bool
    const leverage: Leverage

    constructor (book: PositionBook, dryRun: bool, leverage: Leverage)
      ensures this.book == book && this.dryRun == dryRun && this.leverage == leverage
    {
      this.book, this.dryRun, this.leverage := book, dryRun, leverage;
    }

    /** Returns the orders placed and what the exchange filled of them, which the
        executor itself never learns directly. */
    method ExecuteOpen(o: OpenOrder, gate: Gate, w: World, now: nat) returns (fills: real, placed: seq<SentOrder>)
      requires book.Valid() && o.qty > 0.0
      modifies book
      ensures book.Valid()
      ensures var live := !dryRun && !Rejected(o, old(book.View()), gate);
        && fills == (if live then OpenFills(o, w) else 0.0)
        && placed == (if live then OpenPlaced(o, w) else [])
        && book.View() == OpenedView(old(book.View()), o, if live then Recorded(o, w) else None, leverage, now)
    {
      fills, placed := 0.0, [];
      if dryRun { return; }
      var refused := CheckGate(o, gate);
      if refused { return; }
      hide Rejected;
      hide Recorded;
      hide OpenFills;
      hide OpenPlaced;
      var fill;
      fills, fill, placed := FillOpen(o, w);
      if fill.Some? { Remember(o, fill.value, now); }
    }

    method Remember(o: OpenOrder, fill: (real, real), now: nat)
      requires book.Valid()
      modifies book
      ensures book.Valid() && book.View() == old(book.View())[o.symbol := OpenedRecord(o, fill, leverage, now)]
    {
      var (finalQty, finalPrice) := fill;
      var pos := new MockPosition(o.symbol, finalPrice, if o.isLong then finalQty else -finalQty, leverage, now,
                                  o.tier, o.regime, o.atr24h, o.isMomentumTrade);
      hide MockPosition.State;
      book.positions := book.positions[o.symbol := pos];
    }

    /** Both phases of an open: how much was filled, and what the executor makes of the replies. */
    method FillOpen(o: OpenOrder, w: World) returns (fills: real, fill: Option<(real, real)>, placed: seq<SentOrder>)
      requires o.qty > 0.0
      ensures fills == OpenFills(o, w) && fill == Recorded(o, w) && placed == OpenPlaced(o, w)
    {
      hide Vwap;
      var remainingQty, limitFilledQty, limitAvgPrice := o.qty, 0.0, 0.0;
      fills, limitFilledQty, limitAvgPrice, placed := TryMaker(w, o.isLong, 0.25, o.qty, false);
      remainingQty := remainingQty - limitFilledQty;
      if remainingQty > o.qty * 0.001 {
        fills := fills + w.takerFill;
        placed := placed + [SentOrder(!o.isLong, None, remainingQty, false)];
        match w.taker
        case PlaceOk(_, avg) =>
          var market := GetOr(avg, o.expectedPrice);
          if limitFilledQty > 0.0 {
            fill := Some((o.qty, Vwap(limitFilledQty, limitAvgPrice, remainingQty, market, o.qty)));
          } else {
            fill := Some((o.qty, market));
          }
        case PlaceErr =>
          if limitFilledQty == 0.0 { return fills, None, placed; }
          fill := Some((limitFilledQty, limitAvgPrice));
      } else if limitFilledQty > 0.0 {
        fill := Some((limitFilledQty, limitAvgPrice));
      } else {
        fill := None;
      }
    }

    method CheckGate(o: OpenOrder, gate: Gate) returns (refused: bool)
      ensures refused == Rejected(o, book.View(), gate)
    {
      if o.symbol in book.positions {
        var isPosLong := book.positions[o.symbol].positionAmt > 0.0;
        if isPosLong == o.isLong { return true; }
      }
      if gate.funding.Some? {
        var f := gate.funding.value;
        var timeToFunding := (if f.nextTime < gate.now then 0 else f.nextTime - gate.now) as real / 3600000.0;
        if timeToFunding < 2.0 {
          if (o.isLong && f.rate > 0.0005) || (!o.isLong && f.rate < -0.0005) { return true; }
        }
      }
      if gate.quote.Some? {
        var (bid, ask) := gate.quote.value;
        if bid > 0.0 {
          var spread := (ask - bid) / bid;
          if spread > 0.0015 { return true; }
        }
      }
      return false;
    }

    /** The resting limit order: placed, left for 3.5 seconds, cancelled, asked about. */
    method TryMaker(w: World, buy: bool, maxSpread: real, qty: real, reduceOnly: bool)
      returns (fills: real, filledQty: real, avgPrice: real, placed: seq<SentOrder>)
      ensures var tried := MakerTried(w.book, buy, maxSpread);
        && fills == (if tried then w.makerFill else 0.0)
        && placed == (if tried then [SentOrder(!buy, Some(Touch(w.book, buy)), qty, reduceOnly)] else [])
        && filledQty == Seen(w, tried)
        && avgPrice == if StatusKnown(w, tried) then SeenPrice(w, buy) else 0.0
    {
      fills, filledQty, avgPrice, placed := 0.0, 0.0, 0.0, [];
      if w.book.Book? && w.book.bid != 0.0 {
        var spreadPct := (w.book.ask - w.book.bid) / w.book.bid * 100.0;
        var targetPrice := if buy then w.book.bid else w.book.ask;
        if spreadPct <= maxSpread && targetPrice > 0.0 {
          fills, placed := w.makerFill, [SentOrder(!buy, Some(targetPrice), qty, reduceOnly)];
          if w.maker.PlaceOk? && w.maker.orderId.Some? && w.status.StatusOk? {
            filledQty := GetOr(w.status.executedQty, 0.0);
            avgPrice := GetOr(w.status.avgPrice, targetPrice);
          }
        }
      }
    }

    method ExecuteClose(o: CloseOrder, w: World) returns (fills: real, placed: seq<SentOrder>)
      requires book.Valid()
      modifies book, book.positions.Values
      ensures book.Valid()
      ensures fills == if dryRun then 0.0 else CloseFills(o, w)
      ensures placed == if dryRun then [] else ClosePlaced(o, w)
      ensures book.View() == if dryRun then old(book.View()) else ClosedView(old(book.View()), o, w)
    {
      fills, placed := 0.0, [];
      if dryRun { return; }
      hide CloseFills;
      hide ClosePlaced;
      hide Removes;
      var done;
      fills, done, placed := FillClose(o, w);
      if done { Forget(o.symbol); } else { Release(o.symbol); }
    }

    /** Both phases of a close; `done` unless the market order that should finish it failed. */
    method FillClose(o: CloseOrder, w: World) returns (fills: real, done: bool, placed: seq<SentOrder>)
      ensures fills == CloseFills(o, w) && done == Removes(o, w) && placed == ClosePlaced(o, w)
    {
      fills, placed := 0.0, [];
      var buy := !(o.qty > 0.0);
      var absQty := Abs(o.qty);
      var remainingQty, limitFilledQty := absQty, 0.0;
      if !IsHardStop(o.reason) {
        var avgPrice;
        fills, limitFilledQty, avgPrice, placed := TryMaker(w, buy, 0.30, absQty, true);
        remainingQty := remainingQty - limitFilledQty;
      }
      done := true;
      if remainingQty > absQty * 0.001 {
        fills := fills + w.takerFill;
        placed := placed + [SentOrder(!buy, None, remainingQty, true)];
        done := w.taker.PlaceOk?;
      }
    }

    method Forget(symbol: string)
      requires book.Valid()
      modifies book
      ensures book.Valid() && book.View() == old(book.View()) - {symbol}
    {
      book.positions := book.positions - {symbol};
    }

    method Release(symbol: string)
      requires book.Valid()
      modifies book.positions.Values
      ensures book.Valid() && book.positions == old(book.positions)
      ensures book.View() == var held := old(book.View());
                             if symbol in held then held[symbol := Unlocked(held[symbol])] else held
    {
      hide MockPosition.State;
      if symbol in book.positions {
        book.positions[symbol].UnlockClose();
        assert forall s :: s in book.positions && s != symbol ==>
          book.positions[s].State() == old(book.positions[s].State());
      }
    }
  }

  // ------------------------------------------------------------ the gate

  function SpreadOf(quote: (real, real)): real
    requires quote.0 != 0.0
  {
    (quote.1 - quote.0) / quote.0
  }

  /** An open is refused exactly if the symbol is held on its side, or it would have to
      pay more than 0.05 percent of funding in less than two hours (or now, if the time
      has passed), or the quote is wider than 0.15 percent. */
  lemma RefusedIff(o: OpenOrder, held: map<string, Record>, gate: Gate)
    ensures Rejected(o, held, gate) <==>
      || (o.symbol in held && (if held[o.symbol].positionAmt > 0.0 then o.isLong else !o.isLong))
      || (gate.funding.Some? && gate.funding.value.nextTime < gate.now + 7200000
          && FundingCost(o.isLong, gate.funding.value.rate) > 0.0005)
      || (gate.quote.Some? && gate.quote.value.0 > 0.0 && SpreadOf(gate.quote.value) > 0.0015)
  {
    if gate.funding.Some? {
      var left := if gate.funding.value.nextTime < gate.now then 0 else gate.funding.value.nextTime - gate.now;
      DivLe(left as real, 3600000.0, 2.0);
    }
  }

  // ------------------------------------------------- open: conservation of quantity

  /** The exchange fills no more than each order asks for. */
  predicate FillsWithinOrders(qty: real, w: World, tried: bool) {
    && 0.0 <= w.makerFill <= CleanQty(qty)
    && (TakerTried(qty, Seen(w, tried)) ==> 0.0 <= w.takerFill <= CleanQty(qty - Seen(w, tried)))
  }

  /** A status never reports more than the order fills in the end. */
  predicate StatusWithin(w: World, tried: bool) { 0.0 <= Seen(w, tried) <= w.makerFill }

  /** A market order that reports success filled completely, one that reports an error did nothing. */
  predicate TakerHonest(qty: real, w: World, tried: bool) {
    TakerTried(qty, Seen(w, tried)) ==>
      w.takerFill == if w.taker.PlaceOk? then CleanQty(qty - Seen(w, tried)) else 0.0
  }

  function RecordedQty(o: OpenOrder, w: World): real
    requires o.qty > 0.0
  {
    match Recorded(o, w) case Some(r) => r.0 case None => 0.0
  }

  lemma CleanMonotone(x: real, y: real)
    requires x <= y
    ensures CleanQty(x) <= CleanQty(y)
  {
    RoundMonotone(x * 100000.0, y * 100000.0);
  }

  lemma GridDifference(x: real, y: real)
    requires OnGrid(x) && OnGrid(y)
    ensures OnGrid(x - y)
  {
    var m, n := Round(x * 100000.0), Round(y * 100000.0);
    assert (x - y) * 100000.0 == (m - n) as real;
    RoundInteger(m - n);
  }

  /** The only thing that can make the book differ from the exchange is a maker
      fill nobody saw: recorded minus filled is seen minus filled by the maker. */
  lemma OpenConservation(o: OpenOrder, w: World)
    requires o.qty > 0.0 && OnGrid(o.qty) && OnGrid(OpenSeen(o, w))
    requires TakerHonest(o.qty, w, OpenTried(o, w))
    ensures RecordedQty(o, w) - OpenFills(o, w) == OpenSeen(o, w) - if OpenTried(o, w) then w.makerFill else 0.0
  {
    GridDifference(o.qty, OpenSeen(o, w));
    hide CleanQty;
    hide MakerTried;
  }

  /** So the recorded amount is exact exactly when the whole maker fill was seen. */
  lemma RecordedExactIff(o: OpenOrder, w: World)
    requires o.qty > 0.0 && OnGrid(o.qty) && OnGrid(OpenSeen(o, w))
    requires TakerHonest(o.qty, w, OpenTried(o, w))
    ensures RecordedQty(o, w) == OpenFills(o, w)
       <==> OpenSeen(o, w) == if OpenTried(o, w) then w.makerFill else 0.0
  {
    hide Recorded;
    OpenConservation(o, w);
  }

  /** Whatever the replies, one open never fills more than twice its quantity. */
  lemma AtMostTwice(o: OpenOrder, w: World)
    requires o.qty > 0.0 && OnGrid(o.qty)
    requires FillsWithinOrders(o.qty, w, OpenTried(o, w)) && 0.0 <= OpenSeen(o, w)
    ensures 0.0 <= OpenFills(o, w) <= 2.0 * o.qty
  {
    CleanMonotone(o.qty - OpenSeen(o, w), o.qty);
  }

  /** Off the five-decimal grid, rounding can add one grid step on top. */
  lemma AtMostTwiceRounded(o: OpenOrder, w: World)
    requires o.qty > 0.0
    requires FillsWithinOrders(o.qty, w, OpenTried(o, w)) && 0.0 <= OpenSeen(o, w)
    ensures OpenFills(o, w) <= 2.0 * o.qty + 0.00001
  {
    CleanMonotone(o.qty - OpenSeen(o, w), o.qty);
    RoundError(o.qty * 100000.0);
  }

  /** An open buys more than it was asked to exactly when the maker order filled more
      than the executor saw and the market order then went through. */
  lemma OverbuysIff(o: OpenOrder, w: World)
    requires o.qty > 0.0 && OnGrid(o.qty) && OnGrid(OpenSeen(o, w))
    requires TakerHonest(o.qty, w, OpenTried(o, w)) && FillsWithinOrders(o.qty, w, OpenTried(o, w))
    ensures OpenFills(o, w) > o.qty
       <==> OpenTried(o, w) && OpenSeen(o, w) < w.makerFill && TakerTried(o.qty, OpenSeen(o, w)) && w.taker.PlaceOk?
  {
    GridDifference(o.qty, OpenSeen(o, w));
    hide CleanQty;
    hide MakerTried;
  }

  /** Twice is reached: the maker order fills completely and its status call fails. */
  lemma TwiceHappens(o: OpenOrder) returns (w: World)
    requires o.qty > 0.0 && OnGrid(o.qty)
    ensures FillsWithinOrders(o.qty, w, OpenTried(o, w)) && StatusWithin(w, OpenTried(o, w))
    ensures TakerHonest(o.qty, w, OpenTried(o, w))
    ensures OpenFills(o, w) == 2.0 * o.qty && RecordedQty(o, w) == o.qty
  {
    w := World(Book(100.0, 100.0), PlaceOk(Some(1), None), o.qty, StatusErr, PlaceOk(None, Some(100.0)), o.qty);
    assert (100.0 - 100.0) / 100.0 * 100.0 == 0.0;
  }

  /** An open with a positive quantity cannot fall through to the branch the source
      marks as unreachable: if the market order is skipped, the maker filled. */
  lemma NoFallThrough(o: OpenOrder, w: World)
    requires o.qty > 0.0 && !TakerTried(o.qty, OpenSeen(o, w))
    ensures OpenSeen(o, w) > 0.0 && Recorded(o, w) == Some((OpenSeen(o, w), SeenPrice(w, o.isLong)))
  {
  }

  /** What an open recorded stands on the order's side, so the same order is
      refused from then on, whatever funding and quotes say. */
  lemma OpenBlocksRepeat(o: OpenOrder, w: World, held: map<string, Record>, leverage: Leverage, now: nat, gate: Gate)
    requires o.qty > 0.0 && 0.0 <= OpenSeen(o, w) && Recorded(o, w).Some?
    ensures Rejected(o, held[o.symbol := OpenedRecord(o, Recorded(o, w).value, leverage, now)], gate)
  {
    assert Recorded(o, w).value.0 > 0.0 by { hide Vwap; }
    hide Recorded;
  }

  /** An open that records nothing has sent its market order and been told that it
      failed; it filled something after all exactly if that order did. */
  lemma SilentFillIff(o: OpenOrder, w: World)
    requires o.qty > 0.0 && Recorded(o, w) == None && (OpenTried(o, w) ==> OpenSeen(o, w) == w.makerFill)
    ensures TakerTried(o.qty, OpenSeen(o, w)) && w.taker.PlaceErr? && OpenFills(o, w) == w.takerFill
  {
    hide MakerTried;
  }

  /** `price` is the volume-weighted average of two fills that add up to `amt`. */
  predicate IsVwap(amt: real, price: real, x: real, p: real, y: real, r: real) {
    && amt == x + y
    && amt * price == x * p + y * r
    && (x > 0.0 && y > 0.0 ==> Min(p, r) <= price <= Max(p, r))
  }

  /** With both fills seen, the recorded amount is their total and the recorded price
      their volume-weighted average, between the two fill prices. */
  lemma RecordedPriceIsVwap(o: OpenOrder, w: World, makerPrice: real, takerPrice: real)
    requires o.qty > 0.0 && OnGrid(o.qty) && OnGrid(OpenSeen(o, w)) && 0.0 <= OpenSeen(o, w) <= o.qty
    requires TakerHonest(o.qty, w, OpenTried(o, w))
    requires OpenTried(o, w) ==> OpenSeen(o, w) == w.makerFill
    requires OpenSeen(o, w) > 0.0 ==> w.status.avgPrice == Some(makerPrice)
    requires w.taker.PlaceOk? ==> w.taker.avgPrice == Some(takerPrice)
    requires Recorded(o, w).Some?
    ensures var (amt, price) := Recorded(o, w).value;
      var maker := if OpenTried(o, w) then w.makerFill else 0.0;
      IsVwap(amt, price, maker, makerPrice, OpenFills(o, w) - maker, takerPrice)
  {
    RecordedExactIff(o, w);
    hide CleanQty;
    hide MakerTried;
    hide Vwap;
    hide IsVwap;
    var seen, fills := OpenSeen(o, w), OpenFills(o, w);
    if TakerTried(o.qty, seen) && w.taker.PlaceOk? {
      assert fills == o.qty;
      if seen > 0.0 {
        VwapOfTwo(seen, fills - seen, o.qty, makerPrice, takerPrice);
      } else {
        VwapOfOne(o.qty, takerPrice, makerPrice);
      }
    } else {
      assert fills - seen == 0.0;
      VwapOfOne(seen, makerPrice, takerPrice);
    }
  }

  /** `amt` at `price` is what `x` at `p` and `y` at `r` cost, on the order's side. */
  predicate PaidFor(o: OpenOrder, amt: real, price: real, x: real, p: real, y: real, r: real) {
    amt == Signed(o, x + y) && amt * price == Signed(o, x * p + y * r)
  }

  lemma SignedPaidFor(o: OpenOrder, amt: real, price: real, x: real, p: real, y: real, r: real)
    requires IsVwap(amt, price, x, p, y, r)
    ensures PaidFor(o, Signed(o, amt), price, x, p, y, r)
  {
    assert (-amt) * price == -(amt * price);
  }

  /** The record stands for what was paid: its amount at its entry price is what both fills
      cost at their own prices, on the order's side. */
  lemma RecordIsPaidFor(o: OpenOrder, w: World, makerPrice: real, takerPrice: real, leverage: Leverage, now: nat)
    requires o.qty > 0.0 && OnGrid(o.qty) && OnGrid(OpenSeen(o, w)) && 0.0 <= OpenSeen(o, w) <= o.qty
    requires TakerHonest(o.qty, w, OpenTried(o, w))
    requires OpenTried(o, w) ==> OpenSeen(o, w) == w.makerFill
    requires OpenSeen(o, w) > 0.0 ==> w.status.avgPrice == Some(makerPrice)
    requires w.taker.PlaceOk? ==> w.taker.avgPrice == Some(takerPrice)
    requires Recorded(o, w).Some?
    ensures var r := OpenedRecord(o, Recorded(o, w).value, leverage, now);
      var maker := if OpenTried(o, w) then w.makerFill else 0.0;
      r.leverage == leverage && PaidFor(o, r.positionAmt, r.entryPrice, maker, makerPrice, OpenFills(o, w) - maker, takerPrice)
  {
    RecordedPriceIsVwap(o, w, makerPrice, takerPrice);
    var (amt, price) := Recorded(o, w).value;
    var maker := if OpenTried(o, w) then w.makerFill else 0.0;
    var r := OpenedRecord(o, (amt, price), leverage, now);
    assert r.positionAmt == Signed(o, amt) && r.entryPrice == price && r.leverage == leverage;
    hide OpenedRecord;
    hide Signed;
    hide IsVwap;
    hide PaidFor;
    hide Recorded;
    hide OpenFills;
    hide OpenTried;
    hide OnGrid;
    SignedPaidFor(o, amt, price, maker, makerPrice, OpenFills(o, w) - maker, takerPrice);
  }

  /** A maker order is tried exactly if the book answers and its spread is narrow enough. */
  lemma MakerTriedIff(bid: real, ask: real, buy: bool, maxSpread: real)
    requires 0.0 < bid && 0.0 < ask
    ensures MakerTried(Book(bid, ask), buy, maxSpread) <==> 100.0 * (ask - bid) <= maxSpread * bid
    ensures !MakerTried(BookErr, buy, maxSpread)
  {
    var q := (ask - bid) / bid;
    DivMul(ask - bid, bid);
    DivLe(100.0 * (ask - bid), bid, maxSpread);
    DivUnique(100.0 * (ask - bid), bid, q * 100.0);
  }

  /** Opens rest up to a spread of 0.25 percent, closes other than a hard stop up to 0.30;
      what the maker filled without a reported price is taken to have filled at its limit. */
  lemma MakersWaitIff(o: OpenOrder, p: CloseOrder, w: World)
    requires w.book.Book? && 0.0 < w.book.bid && 0.0 < w.book.ask
    ensures (exists x :: x in OpenPlaced(o, w) && x.limit.Some?) <==> 400.0 * (w.book.ask - w.book.bid) <= w.book.bid
    ensures (exists x :: x in ClosePlaced(p, w) && x.limit.Some?) <==>
      !p.reason.HardStop? && 1000.0 * (w.book.ask - w.book.bid) <= 3.0 * w.book.bid
    ensures w.status.StatusOk? && w.status.avgPrice == None ==>
      forall x :: x in OpenPlaced(o, w) && x.limit.Some? ==> x.limit.value == SeenPrice(w, o.isLong)
  {
    MakerTriedIff(w.book.bid, w.book.ask, o.isLong, 0.25);
    MakerTriedIff(w.book.bid, w.book.ask, p.qty <= 0.0, 0.30);
    hide MakerTried;
    hide CleanQty;
    if OpenTried(o, w) { assert OpenPlaced(o, w)[0].limit.Some?; }
    if CloseTried(p, w) { assert ClosePlaced(p, w)[0].limit.Some?; }
  }

  lemma VwapOfOne(x: real, p: real, other: real)
    ensures IsVwap(x, p, x, p, 0.0, other) && IsVwap(x, p, 0.0, other, x, p)
  {
  }

  lemma VwapOfTwo(x: real, y: real, q: real, p: real, r: real)
    requires 0.0 <= x && 0.0 <= y && x + y == q && 0.0 < q
    ensures IsVwap(q, Vwap(x, p, y, r, q), x, p, y, r)
  {
    var lo, hi, total := Min(p, r), Max(p, r), x * p + y * r;
    DivMul(total, q);
    Weighted(x, y, q, p, r, lo, hi, total);
    DivLe(total, q, lo);
    DivLe(total, q, hi);
  }

  lemma Weighted(x: real, y: real, q: real, p: real, r: real, lo: real, hi: real, total: real)
    requires 0.0 <= x && 0.0 <= y && x + y == q && lo <= p <= hi && lo <= r <= hi && total == x * p + y * r
    ensures lo * q <= total <= hi * q
  {
    MulLe(x, lo, p);
    MulLe(x, p, hi);
    MulLe(y, lo, r);
    MulLe(y, r, hi);
    SplitTotal(x, y, q, lo);
    SplitTotal(x, y, q, hi);
  }

  lemma SplitTotal(x: real, y: real, q: real, p: real)
    requires x + y == q
    ensures x * p + y * p == p * q
  {
  }
}
