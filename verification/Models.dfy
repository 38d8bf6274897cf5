// src/models.rs: bars and position records, and the orders of src/executor.rs.
module Models {

  datatype Option<+T> = None | Some(value: T)

  datatype Kline = Kline(open: real, high: real, low: real, close: real)

  /** The market upside down: every price negated, so highs and lows trade places. */
  function Mirror(bars: seq<Kline>): (m: seq<Kline>)
    ensures |m| == |bars|
    ensures forall i :: 0 <= i < |bars| ==>
      m[i].high == -bars[i].low && m[i].low == -bars[i].high && m[i].close == -bars[i].close
  {
    seq(|bars|, i requires 0 <= i < |bars| =>
      bars[i].(open := -bars[i].open, high := -bars[i].low, low := -bars[i].high, close := -bars[i].close))
  }

  /** Rust's u8. */
  type Leverage = x: int | 0 <= x < 256

  /** The value of a position record: what an observer reads from it at one instant. */
  datatype Record = Record(
    symbol: string,
    entryPrice: real,
    positionAmt: real,
    leverage: Leverage,
    entryTime: nat,
    tier: Option<string>,
    regime: Option<string>,
    unrealizedRoe: real,
    emaRoe: real,
    mfe: real,
    mae: real,
    timeBarrierNotified: bool,
    isClosing: bool,
    closingStartedAt: nat,
    alertFlag: bool,
    peakEmaRoe: real,
    atr24h: real,
    isMomentumTrade: bool
  )

  /** A record as `MockPosition::new` builds it: unlocked, nothing tracked yet. */
  function NewRecord(symbol: string, entryPrice: real, positionAmt: real, leverage: Leverage, entryTime: nat,
                     tier: Option<string>, regime: Option<string>, atr24h: real, isMomentumTrade: bool): Record
  {
    Record(symbol, entryPrice, positionAmt, leverage, entryTime, tier, regime, 0.0, 0.0, 0.0, 0.0,
           false, false, 0, false, 0.0, atr24h, isMomentumTrade)
  }

  function Locked(r: Record, now: nat): Record { r.(isClosing := true, closingStartedAt := now) }

  function Unlocked(r: Record): Record { r.(isClosing := false, closingStartedAt := 0) }

  class MockPosition {
    const symbol: string
    var entryPrice: real
    var positionAmt: real
    var leverage: Leverage
    const entryTime: nat
    const tier: Option<string>
    const regime: Option<string>
    var unrealizedRoe: real
    var emaRoe: real
    var mfe: real
    var mae: real
    var timeBarrierNotified: bool
    var isClosing: bool
    var closingStartedAt: nat
    var alertFlag: bool
    var peakEmaRoe: real
    const atr24h: real
    const isMomentumTrade: bool

    function State(): Record
      reads this
    {
      Record(symbol, entryPrice, positionAmt, leverage, entryTime, tier, regime, unrealizedRoe, emaRoe, mfe, mae,
             timeBarrierNotified, isClosing, closingStartedAt, alertFlag, peakEmaRoe, atr24h, isMomentumTrade)
    }

    constructor (symbol: string, entryPrice: real, positionAmt: real, leverage: Leverage, entryTime: nat,
                 tier: Option<string>, regime: Option<string>, atr24h: real, isMomentumTrade: bool)
      ensures State() == NewRecord(symbol, entryPrice, positionAmt, leverage, entryTime, tier, regime, atr24h, isMomentumTrade)
    {
      this.symbol, this.entryPrice, this.positionAmt, this.leverage := symbol, entryPrice, positionAmt, leverage;
      this.entryTime, this.tier, this.regime := entryTime, tier, regime;
      unrealizedRoe, emaRoe, mfe, mae, peakEmaRoe := 0.0, 0.0, 0.0, 0.0, 0.0;
      timeBarrierNotified, isClosing, closingStartedAt, alertFlag := false, false, 0, false;
      this.atr24h, this.isMomentumTrade := atr24h, isMomentumTrade;
    }

    /** Compare-and-swap on `isClosing`; the winner stamps the time. */
    method TryLockForClose(now: nat) returns (ok: bool)
      modifies this`isClosing, this`closingStartedAt
      ensures ok == !old(isClosing)
      ensures State() == if ok then Locked(old(State()), now) else old(State())
    {
      if !isClosing {
        isClosing := true;
        closingStartedAt := now;
        ok := true;
      } else {
        ok := false;
      }
    }

    /** Releases the lock whoever holds it. */
    method UnlockClose()
      modifies this`isClosing, this`closingStartedAt
      ensures State() == Unlocked(old(State()))
    {
      closingStartedAt := 0;
      isClosing := false;
    }
  }

  /** The position map the tasks share; every key owns its record. */
  class PositionBook {
    var positions: map<string, MockPosition>

    ghost predicate Valid()
      reads this
    {
      forall s, t :: s in positions && t in positions && s != t ==> positions[s] != positions[t]
    }

    ghost function View(): map<string, Record>
      reads this, positions.Values
    {
      map s | s in positions :: positions[s].State()
    }

    constructor ()
      ensures Valid() && positions == map[]
    {
      positions := map[];
    }
  }

  /** Why a close was ordered; the source formats these into the order's reason string. */
  datatype Reason =
    | HardStop(roe: real)
    | AssassinCut
    | MomentumTrail(drawdown: real)
    | Breakeven
    | TrailingStop(peak: real, now: real)
    | AtrStop(level: real)
    | TimeBarrier(hours: real, roe: real)
    | FundingDefense(rate: real)
    | AiReversal(prob: real)

  datatype CloseOrder = CloseOrder(symbol: string, qty: real, expectedPrice: real, reason: Reason)

  // --------------------------------------------------------- walks over the map

  /** Each key once, in the order some walk over the map meets them. */
  ghost predicate Enumerates(walked: seq<string>, keys: set<string>) {
    && (forall s :: s in walked <==> s in keys)
    && (forall i, j :: 0 <= i < j < |walked| ==> walked[i] != walked[j])
  }

  lemma EnumeratesStep(walked: seq<string>, keys: set<string>, s: string)
    requires Enumerates(walked, keys) && s !in keys
    ensures Enumerates(walked + [s], keys + {s}) && s !in walked
  {
  }

  /** The orders a walk queues, in its own order. */
  function Collected(walked: seq<string>, order: string -> Option<CloseOrder>): seq<CloseOrder> {
    if |walked| == 0 then []
    else
      var last := walked[|walked| - 1];
      Collected(walked[..|walked| - 1], order) + if order(last).Some? then [order(last).value] else []
  }

  lemma WalkStarts(order: string -> Option<CloseOrder>)
    ensures Enumerates([], {}) && Collected([], order) == []
  {
  }

  lemma CollectedStep(walked: seq<string>, s: string, order: string -> Option<CloseOrder>)
    ensures Collected(walked + [s], order) == Collected(walked, order) + if order(s).Some? then [order(s).value] else []
  {
    assert (walked + [s])[..|walked|] == walked;
  }

  /** The orders queued are those of the keys walked. */
  lemma {:induction false} CollectedIs(walked: seq<string>, order: string -> Option<CloseOrder>)
    requires forall s :: order(s).Some? ==> order(s).value.symbol == s
    ensures forall o :: o in Collected(walked, order) <==> o.symbol in walked && order(o.symbol) == Some(o)
  {
    if |walked| > 0 {
      var p, last := walked[..|walked| - 1], walked[|walked| - 1];
      CollectedIs(p, order);
      assert walked == p + [last];
    }
  }

  predicate NoSymbolTwice(os: seq<CloseOrder>) {
    forall i, j :: 0 <= i < j < |os| ==> os[i].symbol != os[j].symbol
  }

  /** No key is queued twice. */
  lemma {:induction false} CollectedOnce(walked: seq<string>, order: string -> Option<CloseOrder>)
    requires forall i, j :: 0 <= i < j < |walked| ==> walked[i] != walked[j]
    requires forall s :: order(s).Some? ==> order(s).value.symbol == s
    ensures NoSymbolTwice(Collected(walked, order))
  {
    if |walked| > 0 {
      var p, last := walked[..|walked| - 1], walked[|walked| - 1];
      CollectedOnce(p, order);
      CollectedIs(p, order);
      var before := Collected(p, order);
      forall i | 0 <= i < |before| ensures before[i].symbol != last {
        assert before[i] in before && before[i].symbol in p;
        var k :| 0 <= k < |p| && p[k] == before[i].symbol;
        assert walked[k] != walked[|p|];
      }
    }
  }

  /** What a position of this direction pays per unit of its value at the next funding:
      longs pay a positive rate and receive a negative one, shorts the reverse. */
  function FundingCost(isLong: bool, rate: real): real { (if isLong then 1.0 else -1.0) * rate }

  function SideMult(amt: real): real { if amt > 0.0 then 1.0 else -1.0 }

  /** The price a close expects, rebuilt from the stored ROE by Sentinel and TrendProcessor. */
  function ExpectedPrice(r: Record): real
    requires r.leverage > 0
  {
    r.entryPrice * (1.0 + r.unrealizedRoe / 100.0 / r.leverage as real * SideMult(r.positionAmt))
  }
}
