// src/trend_processor.rs: reversal exit, position cap, regime override, sizing.
module TrendProcessor {
  import opened Reals
  import opened Series
  import opened Models
  import opened Inference
  import opened Executor
  import RiskGuard
  import GuardPaths

  datatype Ticker = Ticker(pricePct: real, high24h: real, low24h: real)

  datatype Config = Config(layer1: real, layer2: real, layer3: real, maxPositions: nat, rwaMultiplier: real,
                           leverage: real, dryRun: bool, defense: bool, defenseMultiplier: real,
                           dynamic: bool, minAlloc: real, maxAlloc: real)

  function Threshold(cfg: Config, tier: Option<string>): real {
    match tier
    case Some("layer1") => cfg.layer1
    case Some("layer2") => cfg.layer2
    case _ => cfg.layer3
  }

  // ---------------------------------------------------------------- override

  /** A strong 24h trend near its extreme, against the signal. */
  predicate Overridden(sig: Signal, ticker: Option<Ticker>) {
    ticker.Some? && sig.tier != Some("momentum") &&
    if sig.isLong then ticker.value.pricePct < -15.0 && sig.price <= ticker.value.low24h * 1.04
    else ticker.value.pricePct > 15.0 && sig.price >= ticker.value.high24h * 0.96
  }

  /** Probability, direction and momentum flag after the regime classifier. */
  datatype Stance = Stance(prob: real, isLong: bool, isMomentum: bool)

  function StanceOf(sig: Signal, ticker: Option<Ticker>): Stance {
    if Overridden(sig, ticker) then Stance(1.0, !sig.isLong, true)
    else Stance(sig.prob, sig.isLong, sig.tier == Some("momentum"))
  }

  // ------------------------------------------------------------------ sizing

  function Allocation(cfg: Config, prob: real, threshold: real): real
    requires cfg.dynamic ==> threshold != 1.0
  {
    if !cfg.dynamic then 0.20
    else Along(cfg.minAlloc, cfg.maxAlloc, Progress(prob, threshold))
  }

  function Along(lo: real, hi: real, p: real): real { lo + p * (hi - lo) }

  /** How far the probability has come from the threshold to certainty. */
  function Progress(prob: real, threshold: real): real
    requires threshold != 1.0
  {
    Max(0.0, Min((prob - threshold) / (1.0 - threshold), 1.0))
  }

  function TargetLeverage(cfg: Config, sig: Signal): real {
    if sig.regime == Some("CHOP_HIGH_VOL") && cfg.defense then Max(cfg.leverage * cfg.defenseMultiplier, 1.0)
    else cfg.leverage
  }

  /** The notional to buy; a missing balance means a default of 50. */
  function Notional(balance: Option<real>, alloc: real, leverage: real): real {
    match balance
    case Some(bal) => if bal * alloc * leverage < 6.0 then 6.0 else bal * alloc * leverage
    case None => 50.0
  }

  function RawQty(cfg: Config, sig: Signal, prob: real, notional: real): real
    requires sig.price != 0.0
  {
    var q := notional / sig.price * prob;
    if sig.tier == Some("layer3") then q * cfg.rwaMultiplier else q
  }

  /** Steps per unit the exchange is assumed to take at this price. */
  function Steps(price: real): real {
    if price > 1000.0 then 1000.0 else if price > 100.0 then 100.0 else if price > 10.0 then 10.0 else 1.0
  }

  function Stepped(price: real, q: real): real { Round(q * Steps(price)) as real / Steps(price) }

  function FinalQty(price: real, q: real): real { if Stepped(price, q) <= 0.0 then 1.0 else Stepped(price, q) }

  // ---------------------------------------------------------------- decision

  datatype Decision = Ignore | Reverse(close: CloseOrder) | Open(order: OpenOrder)

  predicate Opposes(r: Record, sig: Signal) { (r.positionAmt > 0.0) != sig.isLong }

  function Decide(held: map<string, Record>, sig: Signal, cfg: Config, ticker: Option<Ticker>, balance: Option<real>): Decision
    requires sig.price != 0.0 && (cfg.dynamic ==> Threshold(cfg, sig.tier) != 1.0)
    requires sig.symbol in held ==> held[sig.symbol].leverage > 0
  {
    var threshold := Threshold(cfg, sig.tier);
    if sig.symbol in held then
      var r := held[sig.symbol];
      if Opposes(r, sig) && sig.prob >= threshold && !r.isClosing
      then Reverse(CloseOrder(sig.symbol, r.positionAmt, ExpectedPrice(r), AiReversal(sig.prob)))
      else Ignore
    else DecideOpen(|held|, sig, cfg, ticker, balance)
  }

  /** What to do about a symbol that is not held, with `count` positions open. */
  function DecideOpen(count: nat, sig: Signal, cfg: Config, ticker: Option<Ticker>, balance: Option<real>): Decision
    requires sig.price != 0.0 && (cfg.dynamic ==> Threshold(cfg, sig.tier) != 1.0)
  {
    var threshold := Threshold(cfg, sig.tier);
    var stance := StanceOf(sig, ticker);
    if count >= cfg.maxPositions || stance.prob < threshold || cfg.dryRun then Ignore
    else
      var notional := Notional(balance, Allocation(cfg, sig.prob, threshold), TargetLeverage(cfg, sig));
      Open(OpenOrder(sig.symbol, stance.isLong, FinalQty(sig.price, RawQty(cfg, sig, stance.prob, notional)), sig.price,
                     sig.tier, sig.regime, sig.atr24h, stance.isMomentum))
  }

  /** Only a reversal touches the book: it locks the record it is going to close. */
  function DecidedView(held: map<string, Record>, d: Decision, now: nat): map<string, Record> {
    if d.Reverse? && d.close.symbol in held then held[d.close.symbol := Locked(held[d.close.symbol], now)] else held
  }

  method ProcessSignal(book: PositionBook, sig: Signal, cfg: Config, ticker: Option<Ticker>, balance: Option<real>, now: nat)
    returns (d: Decision)
    requires book.Valid()
    requires sig.price != 0.0 && (cfg.dynamic ==> Threshold(cfg, sig.tier) != 1.0)
    requires sig.symbol in book.positions ==> book.positions[sig.symbol].leverage > 0
    modifies book.positions.Values
    ensures book.Valid() && book.positions == old(book.positions)
    ensures d == Decide(old(book.View()), sig, cfg, ticker, balance)
    ensures book.View() == DecidedView(old(book.View()), d, now)
  {
    hide ExpectedPrice;
    hide DecideOpen;
    if sig.symbol in book.positions {
      d := ReverseIfOpposed(book, sig, Threshold(cfg, sig.tier), now);
    } else {
      d := ConsiderOpen(BookSize(book), sig, cfg, ticker, balance);
      DecideOpenNeverReverses(|book.View()|, sig, cfg, ticker, balance);
    }
  }

  lemma DecideOpenNeverReverses(count: nat, sig: Signal, cfg: Config, ticker: Option<Ticker>, balance: Option<real>)
    requires sig.price != 0.0 && (cfg.dynamic ==> Threshold(cfg, sig.tier) != 1.0)
    ensures !DecideOpen(count, sig, cfg, ticker, balance).Reverse?
  {
  }

  method ConsiderOpen(count: nat, sig: Signal, cfg: Config, ticker: Option<Ticker>, balance: Option<real>)
    returns (d: Decision)
    requires sig.price != 0.0 && (cfg.dynamic ==> Threshold(cfg, sig.tier) != 1.0)
    ensures d == DecideOpen(count, sig, cfg, ticker, balance)
  {
    hide Allocation;
    hide RawQty;
    hide FinalQty;
    hide Notional;
    hide StanceOf;
    var targetThreshold := Threshold(cfg, sig.tier);
    if count >= cfg.maxPositions { return Ignore; }
    var stance := Classify(sig, ticker);
    if stance.prob < targetThreshold { return Ignore; }
    var targetLeverage := cfg.leverage;
    if sig.regime == Some("CHOP_HIGH_VOL") && cfg.defense {
      targetLeverage := Max(cfg.leverage * cfg.defenseMultiplier, 1.0);
    }
    var finalQty := Size(cfg, sig, stance.prob, targetThreshold, targetLeverage, balance);
    assert targetLeverage == TargetLeverage(cfg, sig);
    if cfg.dryRun { return Ignore; }
    d := Open(OpenOrder(sig.symbol, stance.isLong, finalQty, sig.price, sig.tier, sig.regime, sig.atr24h, stance.isMomentum));
  }

  function BookSize(book: PositionBook): (n: nat)
    reads book, book.positions.Values
    ensures n == |book.View()|
  {
    assert book.View().Keys == book.positions.Keys;
    assert |book.View()| == |book.View().Keys|;
    assert |book.positions| == |book.positions.Keys|;
    |book.positions|
  }

  method ReverseIfOpposed(book: PositionBook, sig: Signal, threshold: real, now: nat) returns (d: Decision)
    requires book.Valid() && sig.symbol in book.positions && book.positions[sig.symbol].leverage > 0
    modifies book.positions.Values
    ensures book.Valid() && book.positions == old(book.positions)
    ensures var r := old(book.View())[sig.symbol];
      d == if Opposes(r, sig) && sig.prob >= threshold && !r.isClosing
           then Reverse(CloseOrder(sig.symbol, r.positionAmt, ExpectedPrice(r), AiReversal(sig.prob))) else Ignore
    ensures book.View() == DecidedView(old(book.View()), d, now)
  {
    hide ExpectedPrice;
    d := Ignore;
    var pos := book.positions[sig.symbol];
    var isPosLong := pos.positionAmt > 0.0;
    if isPosLong != sig.isLong && sig.prob >= threshold {
      ghost var before := pos.State();
      var expectedPrice := ExpectedPrice(pos.State());
      var ok := pos.TryLockForClose(now);
      if ok { d := Reverse(CloseOrder(sig.symbol, pos.positionAmt, expectedPrice, AiReversal(sig.prob))); }
      hide MockPosition.State;
      assert forall s :: s in book.positions && s != sig.symbol ==>
        book.positions[s].State() == old(book.positions[s].State());
    }
  }

  method Classify(sig: Signal, ticker: Option<Ticker>) returns (stance: Stance)
    ensures stance == StanceOf(sig, ticker)
  {
    var finalProb, finalIsLong, isMomentum := sig.prob, sig.isLong, false;
    if sig.tier == Some("momentum") { isMomentum := true; }
    if ticker.Some? {
      var pct := ticker.value.pricePct;
      var isBreakingHigh := sig.price >= ticker.value.high24h * 0.96;
      var isBreakingLow := sig.price <= ticker.value.low24h * 1.04;
      if pct > 15.0 && !sig.isLong && isBreakingHigh && !isMomentum {
        finalProb, finalIsLong, isMomentum := 1.0, true, true;
      } else if pct < -15.0 && sig.isLong && isBreakingLow && !isMomentum {
        finalProb, finalIsLong, isMomentum := 1.0, false, true;
      }
    }
    stance := Stance(finalProb, finalIsLong, isMomentum);
  }

  method Size(cfg: Config, sig: Signal, finalProb: real, threshold: real, targetLeverage: real, balance: Option<real>)
    returns (finalQty: real)
    requires sig.price != 0.0 && (cfg.dynamic ==> threshold != 1.0)
    ensures finalQty == FinalQty(sig.price, RawQty(cfg, sig, finalProb,
                          Notional(balance, Allocation(cfg, sig.prob, threshold), targetLeverage)))
  {
    var allocPct := Allocation(cfg, sig.prob, threshold);
    hide Allocation;
    var targetNotional := Notional(balance, allocPct, targetLeverage);
    hide Notional;
    finalQty := RawQty(cfg, sig, finalProb, targetNotional);
    hide RawQty;
    ghost var raw := finalQty;
    if sig.price > 1000.0 {
      finalQty := Round(finalQty * 1000.0) as real / 1000.0;
    } else if sig.price > 100.0 {
      finalQty := Round(finalQty * 100.0) as real / 100.0;
    } else if sig.price > 10.0 {
      finalQty := Round(finalQty * 10.0) as real / 10.0;
    } else {
      finalQty := Round(finalQty) as real;
    }
    assert finalQty == Stepped(sig.price, raw) by {
      if sig.price <= 10.0 { assert raw * 1.0 == raw; assert Round(raw) as real / 1.0 == Round(raw) as real; }
    }
    if finalQty <= 0.0 { finalQty := 1.0; }
  }

  // ------------------------------------------------------------ properties

  /** Dynamic allocation stays between its bounds, starts at the lower one at the
      threshold, reaches the upper one at certainty and never falls in between. */
  lemma AllocationRange(cfg: Config, prob: real, better: real, threshold: real)
    requires cfg.dynamic && threshold < 1.0 && cfg.minAlloc <= cfg.maxAlloc && prob <= better
    ensures cfg.minAlloc <= Allocation(cfg, prob, threshold) <= Allocation(cfg, better, threshold) <= cfg.maxAlloc
    ensures prob <= threshold ==> Allocation(cfg, prob, threshold) == cfg.minAlloc
    ensures better >= 1.0 ==> Allocation(cfg, better, threshold) == cfg.maxAlloc
  {
    ProgressRange(prob, better, threshold);
    hide Progress;
    hide Along;
    AlongRange(cfg.minAlloc, cfg.maxAlloc, Progress(prob, threshold), Progress(better, threshold));
  }

  lemma ProgressRange(prob: real, better: real, threshold: real)
    requires threshold < 1.0 && prob <= better
    ensures 0.0 <= Progress(prob, threshold) <= Progress(better, threshold) <= 1.0
    ensures prob <= threshold ==> Progress(prob, threshold) == 0.0
    ensures better >= 1.0 ==> Progress(better, threshold) == 1.0
  {
    var x, y, room := prob - threshold, better - threshold, 1.0 - threshold;
    DivMul(y, room);
    DivLe(x, room, y / room);
    DivLe(x, room, 0.0);
    DivLe(y, room, 1.0);
  }

  lemma AlongRange(lo: real, hi: real, p: real, q: real)
    requires 0.0 <= p <= q <= 1.0 && lo <= hi
    ensures lo <= Along(lo, hi, p) <= Along(lo, hi, q) <= hi
    ensures (p == 0.0 ==> Along(lo, hi, p) == lo) && (q == 1.0 ==> Along(lo, hi, q) == hi)
  {
    assert Along(lo, hi, 0.0) == lo && Along(lo, hi, 1.0) == hi;
    AlongMonotone(lo, hi, 0.0, p);
    AlongMonotone(lo, hi, p, q);
    AlongMonotone(lo, hi, q, 1.0);
    hide Along;
  }

  lemma AlongMonotone(lo: real, hi: real, p: real, q: real)
    requires p <= q && lo <= hi
    ensures Along(lo, hi, p) <= Along(lo, hi, q)
  {
    var d := hi - lo;
    MulNonNeg(q - p, d);
    assert (q - p) * d == q * d - p * d;
  }

  /** At most 5 up to a price of 1000, at most 0.0005 of the price above. */
  predicate Near(price: real, off: real) { off <= if price <= 1000.0 then 5.0 else 0.0005 * price }

  /** What the difference of two quantities is worth. */
  function GapWorth(x: real, y: real, price: real): real { Abs(x - y) * price }

  /** Rounding to the step of the price band moves the notional by at most 5 up to a
      price of 1000, and by at most 0.0005 of the price above. */
  lemma RoundingMovesNotional(price: real, q: real)
    requires 0.0 < price
    ensures Near(price, GapWorth(Stepped(price, q), q, price))
  {
    hide Near;
    hide GapWorth;
    hide Round;
    HalfStep(price);
    hide Steps;
    RoundError(q * Steps(price));
    RoundedMove(price, q, Steps(price), Round(q * Steps(price)) as real, Stepped(price, q));
  }

  lemma RoundedMove(price: real, q: real, s: real, n: real, stepped: real)
    requires 0.0 < price && 0.0 < s && Abs(n - q * s) <= 0.5 && stepped == n / s && Near(price, 0.5 * (price / s))
    ensures Near(price, GapWorth(stepped, q, price))
  {
    hide Near;
    Moved(price, q, s, n, stepped);
    NearLess(price, GapWorth(stepped, q, price), 0.5 * (price / s));
  }

  lemma NearLess(price: real, off: real, more: real)
    requires off <= more && Near(price, more)
    ensures Near(price, off)
  {
  }

  lemma HalfStep(price: real)
    requires 0.0 < price
    ensures 0.0 < Steps(price) && Near(price, 0.5 * (price / Steps(price)))
  {
    if price <= 1000.0 { DivLe(price, Steps(price), 10.0); }
  }

  /** Half a step of error in the quantity is worth half a step at this price. */
  lemma Moved(price: real, q: real, s: real, n: real, stepped: real)
    requires 0.0 < price && 0.0 < s && Abs(n - q * s) <= 0.5 && stepped == n / s
    ensures GapWorth(stepped, q, price) <= 0.5 * (price / s)
  {
    var e, unit := stepped - q, price / s;
    DivMul(n, s);
    DivMul(price, s);
    DivLe(price, s, 0.0);
    assert e * s == n - q * s;
    ScaledAbs(e, s);
    MulAssoc(Abs(e), s, unit);
    MulLe(unit, Abs(e) * s, 0.5);
  }

  lemma ScaledAbs(e: real, s: real)
    requires 0.0 < s
    ensures Abs(e) * s == Abs(e * s)
  {
    if e > 0.0 { MulPos(e, s); }
    if e < 0.0 { MulPos(-e, s); }
  }

  /** The order quantity is always positive; the fallback of one unit fires exactly
      when the sized quantity rounds to nothing, and then the notional is the price. */
  lemma QuantityIsPositive(price: real, q: real)
    ensures 0.0 < FinalQty(price, q)
    ensures Stepped(price, q) <= 0.0 ==> FinalQty(price, q) * price == price
    ensures Stepped(price, q) <= 0.0 <==> Round(q * Steps(price)) <= 0
  {
    DivLe(Round(q * Steps(price)) as real, Steps(price), 0.0);
  }

  /** Every quantity ordered here is a multiple of a thousandth, so the executor's
      five-decimal rounding leaves it alone. */
  lemma QuantityIsOnGrid(price: real, q: real)
    ensures OnGrid(FinalQty(price, q))
  {
    var s := Steps(price);
    if Stepped(price, q) <= 0.0 {
      RoundInteger(100000);
      assert 1.0 * 100000.0 == 100000 as real;
    } else {
      var n := Round(q * s);
      var k: int := if s == 1000.0 then 100 else if s == 100.0 then 1000 else if s == 10.0 then 10000 else 100000;
      assert n as real / s * 100000.0 == (n * k) as real;
      RoundInteger(n * k);
    }
  }

  /** A notional scaled by the probability acted on and, for layer3, by the risk multiplier. */
  function Scaled(cfg: Config, sig: Signal, prob: real, notional: real): real {
    if sig.tier == Some("layer3") then notional * prob * cfg.rwaMultiplier else notional * prob
  }

  /** What an open is meant to be worth. */
  function Intended(cfg: Config, sig: Signal, ticker: Option<Ticker>, balance: Option<real>): real
    requires cfg.dynamic ==> Threshold(cfg, sig.tier) != 1.0
  {
    Scaled(cfg, sig, StanceOf(sig, ticker).prob,
           Notional(balance, Allocation(cfg, sig.prob, Threshold(cfg, sig.tier)), TargetLeverage(cfg, sig)))
  }

  lemma RawQtyWorth(cfg: Config, sig: Signal, prob: real, notional: real)
    requires sig.price != 0.0
    ensures RawQty(cfg, sig, prob, notional) * sig.price == Scaled(cfg, sig, prob, notional)
  {
    var q := notional / sig.price;
    DivMul(notional, sig.price);
    Rearranged(q, prob, sig.price, cfg.rwaMultiplier);
  }

  lemma Rearranged(q: real, p: real, x: real, m: real)
    ensures (q * p) * x == (q * x) * p && (q * p * m) * x == (q * x) * p * m
  {
    assert (q * p) * x == (q * x) * p;
    assert ((q * p) * m) * x == ((q * p) * x) * m;
  }

  /** How far a quantity is from being worth `worth`. */
  function Off(qty: real, price: real, worth: real): real { Abs(qty * price - worth) }

  /** The quantity ordered for an intended worth: one unit if that rounds to nothing,
      and otherwise worth the same up to the rounding of the price band. */
  predicate AsIntended(price: real, qty: real, worth: real)
    requires price != 0.0
  {
    if Stepped(price, worth / price) <= 0.0 then qty == 1.0 else Near(price, Off(qty, price, worth))
  }

  lemma FinalWorth(price: real, raw: real, worth: real)
    requires 0.0 < price && raw * price == worth
    ensures AsIntended(price, FinalQty(price, raw), worth)
  {
    DivUnique(worth, price, raw);
    SteppedWorth(price, raw, worth);
    hide Stepped;
    hide Off;
    hide Near;
  }

  lemma SteppedWorth(price: real, raw: real, worth: real)
    requires 0.0 < price && raw * price == worth
    ensures Near(price, Off(Stepped(price, raw), price, worth))
  {
    RoundingMovesNotional(price, raw);
    hide Stepped;
    hide Off;
    hide GapWorth;
    hide Near;
    WorthGap(Stepped(price, raw), raw, price, worth);
  }

  /** The quantity before rounding. */
  function Sized(cfg: Config, sig: Signal, ticker: Option<Ticker>, balance: Option<real>): real
    requires sig.price != 0.0 && (cfg.dynamic ==> Threshold(cfg, sig.tier) != 1.0)
  {
    RawQty(cfg, sig, StanceOf(sig, ticker).prob,
           Notional(balance, Allocation(cfg, sig.prob, Threshold(cfg, sig.tier)), TargetLeverage(cfg, sig)))
  }

  lemma OpenIsSized(held: map<string, Record>, sig: Signal, cfg: Config, ticker: Option<Ticker>, balance: Option<real>)
    requires sig.price != 0.0 && (cfg.dynamic ==> Threshold(cfg, sig.tier) != 1.0)
    requires sig.symbol in held ==> held[sig.symbol].leverage > 0
    requires Decide(held, sig, cfg, ticker, balance).Open?
    ensures Decide(held, sig, cfg, ticker, balance).order.qty == FinalQty(sig.price, Sized(cfg, sig, ticker, balance))
    ensures Sized(cfg, sig, ticker, balance) * sig.price == Intended(cfg, sig, ticker, balance)
  {
    hide Allocation;
    hide StanceOf;
    hide Notional;
    hide TargetLeverage;
    hide RawQty;
    hide Scaled;
    hide FinalQty;
    RawQtyWorth(cfg, sig, StanceOf(sig, ticker).prob,
                Notional(balance, Allocation(cfg, sig.prob, Threshold(cfg, sig.tier)), TargetLeverage(cfg, sig)));
  }

  /** An order is worth what was intended up to the rounding of its price band, unless
      that size rounds to nothing, and then it is one unit. */
  lemma OrderIsWorthIntended(held: map<string, Record>, sig: Signal, cfg: Config, ticker: Option<Ticker>, balance: Option<real>)
    requires 0.0 < sig.price && (cfg.dynamic ==> Threshold(cfg, sig.tier) != 1.0)
    requires sig.symbol in held ==> held[sig.symbol].leverage > 0
    requires Decide(held, sig, cfg, ticker, balance).Open?
    ensures AsIntended(sig.price, Decide(held, sig, cfg, ticker, balance).order.qty, Intended(cfg, sig, ticker, balance))
  {
    OpenIsSized(held, sig, cfg, ticker, balance);
    hide Decide;
    hide Intended;
    hide Sized;
    hide FinalQty;
    hide AsIntended;
    FinalWorth(sig.price, Sized(cfg, sig, ticker, balance), Intended(cfg, sig, ticker, balance));
  }

  lemma WorthGap(x: real, y: real, p: real, worth: real)
    requires 0.0 < p && y * p == worth
    ensures Off(x, p, worth) == GapWorth(x, y, p)
  {
    assert x * p - y * p == (x - y) * p;
    if x > y { MulPos(x - y, p); }
    if x < y { MulPos(y - x, p); }
  }

  /** An open is for the signal's symbol at its price, serves its tier, regime and
      volatility, and goes its way unless overridden. */
  lemma OpenCarries(held: map<string, Record>, sig: Signal, cfg: Config, ticker: Option<Ticker>, balance: Option<real>)
    requires sig.price != 0.0 && (cfg.dynamic ==> Threshold(cfg, sig.tier) != 1.0)
    requires sig.symbol in held ==> held[sig.symbol].leverage > 0
    requires Decide(held, sig, cfg, ticker, balance).Open?
    ensures var o := Decide(held, sig, cfg, ticker, balance).order;
      && o.symbol == sig.symbol && o.expectedPrice == sig.price && o.tier == sig.tier && o.regime == sig.regime
      && o.atr24h == sig.atr24h && (o.isLong <==> Overridden(sig, ticker) != sig.isLong)
  {
    hide RawQty;
    hide FinalQty;
    hide Allocation;
    hide Notional;
  }

  /** From signal to exchange: whatever the replies, an open this component decides
      on never fills more than twice the quantity it ordered. */
  lemma DecidedOpensFillAtMostTwice(held: map<string, Record>, sig: Signal, cfg: Config, ticker: Option<Ticker>,
                                    balance: Option<real>, w: World)
    requires sig.price != 0.0 && (cfg.dynamic ==> Threshold(cfg, sig.tier) != 1.0)
    requires sig.symbol in held ==> held[sig.symbol].leverage > 0
    requires Decide(held, sig, cfg, ticker, balance).Open?
    requires var o := Decide(held, sig, cfg, ticker, balance).order;
      FillsWithinOrders(o.qty, w, OpenTried(o, w)) && 0.0 <= OpenSeen(o, w)
    ensures var o := Decide(held, sig, cfg, ticker, balance).order;
      0.0 < o.qty && OpenFills(o, w) <= 2.0 * o.qty
  {
    var o := Decide(held, sig, cfg, ticker, balance).order;
    DecidedQuantity(held, sig, cfg, ticker, balance);
    hide Decide;
    AtMostTwice(o, w);
  }

  lemma DecidedQuantity(held: map<string, Record>, sig: Signal, cfg: Config, ticker: Option<Ticker>, balance: Option<real>)
    requires sig.price != 0.0 && (cfg.dynamic ==> Threshold(cfg, sig.tier) != 1.0)
    requires sig.symbol in held ==> held[sig.symbol].leverage > 0
    requires Decide(held, sig, cfg, ticker, balance).Open?
    ensures var q := Decide(held, sig, cfg, ticker, balance).order.qty; 0.0 < q && OnGrid(q)
  {
    var stance := StanceOf(sig, ticker);
    var notional := Notional(balance, Allocation(cfg, sig.prob, Threshold(cfg, sig.tier)), TargetLeverage(cfg, sig));
    var raw := RawQty(cfg, sig, stance.prob, notional);
    QuantityIsPositive(sig.price, raw);
    QuantityIsOnGrid(sig.price, raw);
    hide FinalQty;
    hide RawQty;
    hide Notional;
    hide Allocation;
    hide CleanQty;
  }

  /** What the signal's probability has to reach. */
  function Needed(cfg: Config, sig: Signal): real {
    if sig.tier == Some("layer1") then cfg.layer1
    else if sig.tier == Some("layer2") then cfg.layer2
    else cfg.layer3
  }

  /** A held symbol is closed exactly if its record is free, the signal probable enough,
      and its direction opposed: a long position and a short signal, or the reverse. */
  lemma ReversedIff(held: map<string, Record>, sig: Signal, cfg: Config, ticker: Option<Ticker>, balance: Option<real>)
    requires sig.price != 0.0 && (cfg.dynamic ==> Threshold(cfg, sig.tier) != 1.0)
    requires sig.symbol in held ==> held[sig.symbol].leverage > 0
    ensures Decide(held, sig, cfg, ticker, balance).Reverse? <==>
      && sig.symbol in held && !held[sig.symbol].isClosing && sig.prob >= Needed(cfg, sig)
      && (if held[sig.symbol].positionAmt > 0.0 then !sig.isLong else sig.isLong)
  {
    hide ExpectedPrice;
    if sig.symbol !in held { DecideOpenNeverReverses(|held|, sig, cfg, ticker, balance); }
    hide DecideOpen;
  }

  /** A position is opened exactly if its symbol is not held, there is room, the engine is
      live, and the signal is probable enough or overridden (a threshold never exceeds 1). */
  lemma OpenedIff(held: map<string, Record>, sig: Signal, cfg: Config, ticker: Option<Ticker>, balance: Option<real>)
    requires sig.price != 0.0 && (cfg.dynamic ==> Threshold(cfg, sig.tier) != 1.0) && Needed(cfg, sig) <= 1.0
    requires sig.symbol in held ==> held[sig.symbol].leverage > 0
    ensures Decide(held, sig, cfg, ticker, balance).Open? <==>
      && sig.symbol !in held && |held| < cfg.maxPositions && !cfg.dryRun
      && (sig.prob >= Needed(cfg, sig) || Overridden(sig, ticker))
  {
    hide ExpectedPrice;
    hide RawQty;
    hide FinalQty;
    hide Allocation;
    hide Notional;
    hide Overridden;
  }

  /** The override fires only with the trend: up or down by more than 15 percent in 24
      hours, with the price within 4 percent of the extreme on that side, and what is then
      opened goes the trend's way. Without it the signal's own direction is opened. */
  lemma OverrideFollowsTrend(held: map<string, Record>, sig: Signal, cfg: Config, ticker: Option<Ticker>, balance: Option<real>)
    requires sig.price != 0.0 && (cfg.dynamic ==> Threshold(cfg, sig.tier) != 1.0)
    requires sig.symbol in held ==> held[sig.symbol].leverage > 0
    requires Decide(held, sig, cfg, ticker, balance).Open?
    ensures var o := Decide(held, sig, cfg, ticker, balance).order;
      if Overridden(sig, ticker) then
        var k := ticker.value;
        && Abs(k.pricePct) > 15.0 && (o.isLong <==> k.pricePct > 0.0)
        && (if o.isLong then sig.price >= 0.96 * k.high24h else sig.price <= 1.04 * k.low24h)
      else o.isLong == sig.isLong
  {
    hide ExpectedPrice;
    hide RawQty;
    hide FinalQty;
    hide Allocation;
    hide Notional;
  }

  /** What is put into a position: with a known balance, the allocated share of it as
      margin, unless that makes less than 6 of notional; a fifth if sizing is fixed. With an unknown
      balance it is a notional of 50. */
  lemma MarginIsAllocated(cfg: Config, sig: Signal, bal: real)
    requires cfg.dynamic ==> Threshold(cfg, sig.tier) != 1.0
    requires TargetLeverage(cfg, sig) > 0.0
    ensures var alloc := Allocation(cfg, sig.prob, Threshold(cfg, sig.tier));
      var worth := Notional(Some(bal), alloc, TargetLeverage(cfg, sig));
      && (!cfg.dynamic ==> 5.0 * alloc == 1.0)
      && Notional(None, alloc, TargetLeverage(cfg, sig)) == 50.0
      && worth >= 6.0 && (worth > 6.0 ==> worth / TargetLeverage(cfg, sig) == bal * alloc)
  {
    var alloc, l := Allocation(cfg, sig.prob, Threshold(cfg, sig.tier)), TargetLeverage(cfg, sig);
    DivUnique(bal * alloc * l, l, bal * alloc);
    hide TargetLeverage;
  }

  /** Defence acts in a choppy market only; with a multiplier of at most 1 it never raises
      the leverage and never takes it below 1. */
  lemma DefenceLowers(cfg: Config, sig: Signal)
    requires 1.0 <= cfg.leverage && 0.0 <= cfg.defenseMultiplier <= 1.0
    ensures 1.0 <= TargetLeverage(cfg, sig) <= cfg.leverage
    ensures TargetLeverage(cfg, sig) != cfg.leverage ==> cfg.defense && sig.regime == Some("CHOP_HIGH_VOL")
    ensures cfg.defense && sig.regime == Some("CHOP_HIGH_VOL") && cfg.leverage > 1.0 && cfg.defenseMultiplier < 1.0 ==>
      TargetLeverage(cfg, sig) < cfg.leverage
  {
    MulLe(cfg.leverage, cfg.defenseMultiplier, 1.0);
    if cfg.defenseMultiplier < 1.0 {
      MulPos(cfg.leverage, 1.0 - cfg.defenseMultiplier);
      MulSub(cfg.leverage, 1.0, cfg.defenseMultiplier);
    }
  }

  /** An open respects the cap and never concerns a held symbol; a held symbol is
      only ever closed, against its direction, and only by the task that locks it. */
  lemma DecisionsRespectTheBook(held: map<string, Record>, sig: Signal, cfg: Config, ticker: Option<Ticker>,
                                balance: Option<real>, now: nat)
    requires sig.price != 0.0 && (cfg.dynamic ==> Threshold(cfg, sig.tier) != 1.0)
    requires sig.symbol in held ==> held[sig.symbol].leverage > 0
    ensures var d := Decide(held, sig, cfg, ticker, balance);
      && (d.Open? ==> sig.symbol !in held && |held| < cfg.maxPositions && !cfg.dryRun)
      && (d.Reverse? <==> sig.symbol in held && Opposes(held[sig.symbol], sig)
                          && sig.prob >= Threshold(cfg, sig.tier) && !held[sig.symbol].isClosing)
      && (d.Reverse? ==> DecidedView(held, d, now)[sig.symbol].isClosing)
      && DecidedView(held, d, now).Keys == held.Keys
  {
    hide ExpectedPrice;
    hide RawQty;
    hide FinalQty;
    hide Allocation;
    hide Notional;
  }

  /** A reversal expects the very price RiskGuard's last tick computed the ROE from, if
      nothing since has changed entry price, leverage or side. */
  lemma ReversalExpectsTickPrice(held: map<string, Record>, sig: Signal, cfg: Config, ticker: Option<Ticker>,
                                 balance: Option<real>, r: Record, x: RiskGuard.Input, es: seq<GuardPaths.Event>)
    requires sig.price != 0.0 && (cfg.dynamic ==> Threshold(cfg, sig.tier) != 1.0)
    requires RiskGuard.Tradeable(r) && r.leverage > 0 && x.Price().Some? && GuardPaths.AllKeepPrice(r, es)
    requires sig.symbol in held && GuardPaths.Allowed(es)
    requires held[sig.symbol] == GuardPaths.Run(RiskGuard.AfterTick(r, x), es)
    ensures held[sig.symbol].leverage > 0
    ensures var d := Decide(held, sig, cfg, ticker, balance); d.Reverse? ==> d.close.expectedPrice == x.Price().value
  {
    GuardPaths.RebuiltPriceIsTickPrice(r, x, es);
    hide GuardPaths.Run;
    hide ExpectedPrice;
  }

  /** For every signal an inference cycle can send, a trade is a momentum trade
      exactly when the regime override fires, which is exactly when it is opened
      against the signal's direction. */
  lemma MomentumOnlyByOverride(held: map<string, Record>, sig: Signal, cfg: Config, ticker: Option<Ticker>, balance: Option<real>)
    requires sig.price != 0.0 && (cfg.dynamic ==> Threshold(cfg, sig.tier) != 1.0)
    requires sig.symbol in held ==> held[sig.symbol].leverage > 0
    requires sig.tier != Some("momentum") && Decide(held, sig, cfg, ticker, balance).Open?
    ensures var o := Decide(held, sig, cfg, ticker, balance).order;
      && (o.isMomentumTrade <==> Overridden(sig, ticker))
      && (o.isMomentumTrade <==> o.isLong != sig.isLong)
  {
    hide RawQty;
    hide FinalQty;
    hide Allocation;
    hide Notional;
  }
}
