// The closes the tasks order and the orders the executor then places for them: each
// takes the position it was ordered for away, and nothing else.
module Orders {
  import opened Series
  import opened Models
  import opened Executor
  import opened CloseSafety
  import RiskGuard
  import GuardPaths
  import Sentinel
  import Inference
  import TrendProcessor

  /** Whatever the executor places for this close is on the side that reduces `amt`, for
      no more than `amt`, and if no maker order comes to anything the market is asked for all of it. */
  ghost predicate TakesAway(o: CloseOrder, amt: real) {
    forall w, x :: 0.0 <= CloseSeen(o, w) && x in ClosePlaced(o, w) ==>
      && (x.sell <==> amt > 0.0) && x.size <= Abs(amt) && x.reduceOnly
      && (x.limit == None && CloseSeen(o, w) == 0.0 ==> x.size == Abs(amt))
  }

  lemma OwnAmountTakesAway(o: CloseOrder)
    ensures TakesAway(o, o.qty)
  {
    hide CleanQty;
    forall w, x | 0.0 <= CloseSeen(o, w) && x in ClosePlaced(o, w)
      ensures (x.sell <==> o.qty > 0.0) && x.size <= Abs(o.qty) && x.reduceOnly
      ensures x.limit == None && CloseSeen(o, w) == 0.0 ==> x.size == Abs(o.qty)
    {
      CloseAsksExactly(o, w, x);
    }
  }

  /** RiskGuard's orders take away the record they were ordered for, at the price of the
      tick; a loss of more than 12 percent of margin, and nothing else, goes to the market
      at once as a single order. */
  lemma GuardOrderTakesAway(symbol: string, r: Record, price: real, cvd: real, w: World)
    requires r.entryPrice > 0.0 && r.leverage > 0 && r.positionAmt != 0.0
    requires RiskGuard.GuardOrder(symbol, r, price, cvd).Some?
    ensures var o := RiskGuard.GuardOrder(symbol, r, price, cvd).value;
      && o.symbol == symbol && o.expectedPrice == price && TakesAway(o, r.positionAmt)
      && (100.0 * GuardPaths.Profit(r, price) < -12.0 * GuardPaths.Margin(r) ==>
            ClosePlaced(o, w) == [SentOrder(r.positionAmt > 0.0, None, Abs(r.positionAmt), true)])
      && (100.0 * GuardPaths.Profit(r, price) >= -12.0 * GuardPaths.Margin(r) ==>
            (CloseTried(o, w) <==> MakerTried(w.book, r.positionAmt <= 0.0, 0.30)))
  {
    var o := RiskGuard.GuardOrder(symbol, r, price, cvd).value;
    assert o.qty == r.positionAmt && o.symbol == symbol && o.expectedPrice == price;
    GuardPaths.DeepLossIsCut(symbol, r, price, cvd);
    OwnAmountTakesAway(o);
    if o.reason.HardStop? { HardStopSkipsMaker(o, w); }
    hide RiskGuard.GuardOrder;
    hide GuardPaths.Profit;
    hide GuardPaths.Margin;
    hide TakesAway;
    hide ClosePlaced;
    hide MakerTried;
  }

  lemma SentinelOrderTakesAway(symbol: string, r: Record, now: nat, cfg: Sentinel.Config, funding: Option<Sentinel.Funding>)
    requires r.leverage > 0 && Sentinel.CheckOrder(symbol, r, now, cfg, funding).Some?
    ensures var o := Sentinel.CheckOrder(symbol, r, now, cfg, funding).value;
      o.symbol == symbol && TakesAway(o, r.positionAmt)
  {
    hide Sentinel.Trigger;
    hide ExpectedPrice;
    OwnAmountTakesAway(Sentinel.CheckOrder(symbol, r, now, cfg, funding).value);
    hide TakesAway;
  }

  /** A reversal takes the held position away, and every order placed for it is on the
      side of the signal: a short signal sells, a long one buys. */
  lemma ReversalTurnsWithSignal(held: map<string, Record>, sig: Inference.Signal, cfg: TrendProcessor.Config,
                                ticker: Option<TrendProcessor.Ticker>, balance: Option<real>, w: World, x: SentOrder)
    requires sig.price != 0.0 && (cfg.dynamic ==> TrendProcessor.Threshold(cfg, sig.tier) != 1.0)
    requires sig.symbol in held ==> held[sig.symbol].leverage > 0
    requires TrendProcessor.Decide(held, sig, cfg, ticker, balance).Reverse?
    ensures var o := TrendProcessor.Decide(held, sig, cfg, ticker, balance).close;
      && sig.symbol in held && o.symbol == sig.symbol && TakesAway(o, held[sig.symbol].positionAmt)
      && (x in ClosePlaced(o, w) ==> x.sell == !sig.isLong)
  {
    var o := TrendProcessor.Decide(held, sig, cfg, ticker, balance).close;
    TrendProcessor.ReversedIff(held, sig, cfg, ticker, balance);
    assert o.symbol == sig.symbol && o.qty == held[sig.symbol].positionAmt by { hide TrendProcessor.DecideOpen; hide ExpectedPrice; }
    OwnAmountTakesAway(o);
    hide TrendProcessor.Decide;
    hide TakesAway;
    hide CloseTried;
    hide CloseTakerTried;
  }

  /** From signal to exchange: whatever the replies and the fills, an open decided on moves
      the exposure of the signal's symbol, in the direction decided, by at most twice its
      quantity; and what is recorded of it is a position of that direction which serves the
      signal's tier, regime and volatility. */
  lemma DecidedOpenMoves(held: map<string, Record>, sig: Inference.Signal, cfg: TrendProcessor.Config,
                         ticker: Option<TrendProcessor.Ticker>, balance: Option<real>, w: World, e: real, fs: seq<Fill>,
                         leverage: Leverage, now: nat)
    requires sig.price != 0.0 && (cfg.dynamic ==> TrendProcessor.Threshold(cfg, sig.tier) != 1.0)
    requires sig.symbol in held ==> held[sig.symbol].leverage > 0
    requires TrendProcessor.Decide(held, sig, cfg, ticker, balance).Open?
    requires var o := TrendProcessor.Decide(held, sig, cfg, ticker, balance).order;
      0.0 <= OpenSeen(o, w) && AfterAll(e, OpenPlaced(o, w), fs).Some?
    ensures var o := TrendProcessor.Decide(held, sig, cfg, ticker, balance).order;
      var moved := AfterAll(e, OpenPlaced(o, w), fs).value - e;
      && o.symbol == sig.symbol && o.expectedPrice == sig.price && 0.0 < o.qty
      && 0.0 <= (if TrendProcessor.Overridden(sig, ticker) != sig.isLong then moved else -moved) <= 2.0 * o.qty
      && (Recorded(o, w).Some? ==>
            var r := OpenedRecord(o, Recorded(o, w).value, leverage, now);
            && (r.positionAmt > 0.0 <==> TrendProcessor.Overridden(sig, ticker) != sig.isLong)
            && r.tier == sig.tier && r.regime == sig.regime && r.atr24h == sig.atr24h && !r.isClosing)
  {
    var o := TrendProcessor.Decide(held, sig, cfg, ticker, balance).order;
    TrendProcessor.DecidedQuantity(held, sig, cfg, ticker, balance);
    TrendProcessor.OpenCarries(held, sig, cfg, ticker, balance);
    hide TrendProcessor.Decide;
    hide TrendProcessor.Overridden;
    OpenMovesAtMostTwice(e, o, w, fs);
    assert Recorded(o, w).Some? ==> Recorded(o, w).value.0 > 0.0 by { hide Vwap; hide MakerTried; }
    hide Recorded;
    hide AfterAll;
    hide OpenPlaced;
    hide OpenSeen;
  }
}
