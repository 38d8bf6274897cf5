// src/rest_api.rs: the token bucket and the pause after a 429.
module RateLimiter {
  import opened Reals
  import opened Series
  import opened Models

  /** Instants are nanoseconds on the monotonic clock. */
  function Seconds(ns: nat): real { ns as real / 1000000000.0 }

  /** Tokens that flow in over `ns` nanoseconds. */
  function Inflow(rate: real, ns: nat): real { Seconds(ns) * rate }

  datatype Bucket = Bucket(capacity: nat, rate: real, tokens: real, last: nat) {
    predicate Valid() { 0.0 <= rate && 0.0 <= tokens <= capacity as real }
  }

  /** Tokens a bucket holds at `now`, refilled or not. */
  function Level(b: Bucket, now: nat): real
    requires b.last <= now
  {
    Min(b.tokens + Inflow(b.rate, now - b.last), b.capacity as real)
  }

  /** The bucket after one `consume`, and whether the weight was granted. */
  function Consumed(b: Bucket, now: nat, weight: nat): (r: (Bucket, bool))
    requires b.Valid() && b.last <= now
    ensures r.0.Valid() && r.0.last <= now && r.0.capacity == b.capacity && r.0.rate == b.rate
  {
    InflowNonNegative(b.rate, now - b.last);
    var refilled := if Inflow(b.rate, now - b.last) > 0.0 then b.(tokens := Level(b, now), last := now) else b;
    if refilled.tokens >= weight as real then (refilled.(tokens := refilled.tokens - weight as real), true)
    else (refilled, false)
  }

  class Limiter {
    const capacity: nat
    var tokens: real
    var lastRefill: nat
    const refillRatePerSec: real

    function State(): Bucket
      reads this
    {
      Bucket(capacity, refillRatePerSec, tokens, lastRefill)
    }

    constructor (capacity: nat, refillPerMin: nat, now: nat)
      ensures State() == Bucket(capacity, refillPerMin as real / 60.0, capacity as real, now) && State().Valid()
    {
      this.capacity, tokens, lastRefill := capacity, capacity as real, now;
      refillRatePerSec := refillPerMin as real / 60.0;
    }

    method Consume(now: nat, weight: nat) returns (ok: bool)
      requires State().Valid() && lastRefill <= now
      modifies this
      ensures (State(), ok) == Consumed(old(State()), now, weight)
      ensures State().Valid() && lastRefill <= now
    {
      var elapsed := Seconds(now - lastRefill);
      var add := elapsed * refillRatePerSec;
      assert add == Inflow(refillRatePerSec, now - lastRefill);
      hide Inflow;
      hide Seconds;
      if add > 0.0 {
        tokens := Min(tokens + add, capacity as real);
        lastRefill := now;
      }
      if tokens >= weight as real {
        tokens := tokens - weight as real;
        ok := true;
      } else {
        ok := false;
      }
    }
  }

  // ---------------------------------------------------------------- levels

  lemma ConsumedLevel(b: Bucket, now: nat, weight: nat)
    requires b.Valid() && b.last <= now
    ensures var (b', ok) := Consumed(b, now, weight);
      && ok == (Level(b, now) >= weight as real)
      && Level(b', now) == Level(b, now) - if ok then weight as real else 0.0
  {
    InflowNonNegative(b.rate, now - b.last);
    assert Inflow(b.rate, 0) == 0.0;
    hide Inflow;
  }

  lemma InflowNonNegative(rate: real, ns: nat)
    requires 0.0 <= rate
    ensures 0.0 <= Inflow(rate, ns)
  {
    MulNonNeg(Seconds(ns), rate);
  }

  lemma InflowAdds(rate: real, x: nat, y: nat)
    ensures Inflow(rate, x + y) == Inflow(rate, x) + Inflow(rate, y)
  {
    assert Seconds(x + y) == Seconds(x) + Seconds(y);
  }

  /** A level at `t` determines every later level. */
  lemma LevelAdvances(b: Bucket, t: nat, now: nat)
    requires b.Valid() && b.last <= t <= now
    ensures Level(b, now) == Min(Level(b, t) + Inflow(b.rate, now - t), b.capacity as real)
  {
    hide Inflow;
    InflowNonNegative(b.rate, now - t);
    InflowAdds(b.rate, t - b.last, now - t);
  }

  // ------------------------------------------------------------------ runs

  datatype Request = Request(at: nat, weight: nat)

  predicate Ordered(from: nat, reqs: seq<Request>)
    decreases |reqs|
  {
    |reqs| > 0 ==> from <= reqs[0].at && Ordered(reqs[0].at, reqs[1..])
  }

  function Decisions(b: Bucket, reqs: seq<Request>): seq<bool>
    requires b.Valid() && Ordered(b.last, reqs)
    decreases |reqs|
  {
    if |reqs| == 0 then []
    else
      var (b', ok) := Consumed(b, reqs[0].at, reqs[0].weight);
      OrderedEarlier(b'.last, reqs[0].at, reqs[1..]);
      [ok] + Decisions(b', reqs[1..])
  }

  lemma OrderedEarlier(from: nat, to: nat, reqs: seq<Request>)
    requires from <= to && Ordered(to, reqs)
    ensures Ordered(from, reqs)
  {
  }

  /** Total weight granted to a list of requests. */
  function Granted(b: Bucket, reqs: seq<Request>): nat
    requires b.Valid() && Ordered(b.last, reqs)
    decreases |reqs|
  {
    if |reqs| == 0 then 0
    else
      var (b', ok) := Consumed(b, reqs[0].at, reqs[0].weight);
      OrderedEarlier(b'.last, reqs[0].at, reqs[1..]);
      (if ok then reqs[0].weight else 0) + Granted(b', reqs[1..])
  }

  /** The bucket a list of requests leaves behind. */
  function Final(b: Bucket, reqs: seq<Request>): (b': Bucket)
    requires b.Valid() && Ordered(b.last, reqs)
    ensures b'.Valid() && b'.capacity == b.capacity && b'.rate == b.rate
    decreases |reqs|
  {
    if |reqs| == 0 then b
    else
      var b' := Consumed(b, reqs[0].at, reqs[0].weight).0;
      OrderedEarlier(b'.last, reqs[0].at, reqs[1..]);
      Final(b', reqs[1..])
  }

  /** Two buckets that hold the same at `t` decide alike ever after. */
  lemma {:induction false} SameLevelSameDecisions(b: Bucket, c: Bucket, t: nat, reqs: seq<Request>)
    requires b.Valid() && c.Valid() && b.capacity == c.capacity && b.rate == c.rate
    requires b.last <= t && c.last <= t && Level(b, t) == Level(c, t)
    requires Ordered(t, reqs) && Ordered(b.last, reqs) && Ordered(c.last, reqs)
    ensures Decisions(b, reqs) == Decisions(c, reqs)
    decreases |reqs|
  {
    hide Level;
    hide Consumed;
    if |reqs| > 0 {
      var now, w := reqs[0].at, reqs[0].weight;
      LevelAdvances(b, t, now);
      LevelAdvances(c, t, now);
      ConsumedLevel(b, now, w);
      ConsumedLevel(c, now, w);
      var b', c' := Consumed(b, now, w).0, Consumed(c, now, w).0;
      OrderedEarlier(b'.last, now, reqs[1..]);
      OrderedEarlier(c'.last, now, reqs[1..]);
      SameLevelSameDecisions(b', c', now, reqs[1..]);
    }
  }

  /** A refused request leaves no trace: every later decision is what it would
      have been had the request never been made. */
  lemma RefusalIsInvisible(b: Bucket, now: nat, weight: nat, later: seq<Request>)
    requires b.Valid() && b.last <= now && !Consumed(b, now, weight).1 && Ordered(now, later)
    ensures Decisions(Consumed(b, now, weight).0, later) == Decisions(b, later)
  {
    ConsumedLevel(b, now, weight);
    SameLevelSameDecisions(Consumed(b, now, weight).0, b, now, later);
  }

  /** What is granted from `t1` on is paid for by the level at `t1` and the inflow since. */
  lemma {:induction false} GrantsArePaid(b: Bucket, reqs: seq<Request>, t1: nat, t2: nat)
    requires b.Valid() && b.last <= t1 <= t2 && Ordered(b.last, reqs) && Ordered(t1, reqs)
    requires |reqs| > 0 ==> reqs[|reqs| - 1].at <= t2
    ensures Granted(b, reqs) as real <= Level(b, t1) + Inflow(b.rate, t2 - t1)
    decreases |reqs|
  {
    hide Consumed;
    hide Inflow;
    if |reqs| == 0 {
      InflowNonNegative(b.rate, t2 - t1);
      InflowNonNegative(b.rate, t1 - b.last);
    } else {
      var now, w := reqs[0].at, reqs[0].weight;
      AllFrom(t1, reqs, |reqs| - 1);
      LastIsLatest(t1, reqs);
      LevelAdvances(b, t1, now);
      hide Level;
      ConsumedLevel(b, now, w);
      var b' := Consumed(b, now, w).0;
      OrderedEarlier(b'.last, now, reqs[1..]);
      GrantsArePaid(b', reqs[1..], now, t2);
      InflowAdds(b.rate, now - t1, t2 - now);
    }
  }

  lemma LastIsLatest(from: nat, reqs: seq<Request>)
    requires Ordered(from, reqs) && |reqs| > 0
    ensures reqs[0].at <= reqs[|reqs| - 1].at
  {
    if |reqs| > 1 { AllFrom(reqs[0].at, reqs[1..], |reqs| - 2); }
  }

  lemma {:induction false} AllFrom(from: nat, reqs: seq<Request>, i: nat)
    requires Ordered(from, reqs) && i < |reqs|
    ensures from <= reqs[i].at
    decreases |reqs|
  {
    if i > 0 { AllFrom(reqs[0].at, reqs[1..], i - 1); }
  }

  /** The requests of `window` come after those of `before`, all of them between `t1` and `t2`. */
  predicate WindowIn(b: Bucket, before: seq<Request>, window: seq<Request>, t1: nat, t2: nat)
    requires b.Valid()
  {
    && Ordered(b.last, before) && Final(b, before).last <= t1 <= t2
    && Ordered(t1, window) && Ordered(Final(b, before).last, window)
    && (|window| > 0 ==> window[|window| - 1].at <= t2)
  }

  /** Wherever a window lies in a run: after any earlier requests, the weight granted
      between t1 and t2 is at most the capacity plus the inflow of the window. */
  lemma WindowBound(b: Bucket, before: seq<Request>, window: seq<Request>, t1: nat, t2: nat)
    requires b.Valid() && WindowIn(b, before, window, t1, t2)
    ensures Granted(Final(b, before), window) as real <= b.capacity as real + Inflow(b.rate, t2 - t1)
  {
    hide Inflow;
    hide Granted;
    hide Ordered;
    hide Final;
    GrantsArePaid(Final(b, before), window, t1, t2);
  }

  /** With the configured 1200 tokens and 1200 a minute: at most 2400 in any sixty seconds. */
  lemma ConfiguredMinuteBound(b: Bucket, before: seq<Request>, window: seq<Request>, t1: nat)
    requires b.Valid() && b.capacity == 1200 && b.rate == 1200.0 / 60.0
    requires WindowIn(b, before, window, t1, t1 + 60000000000)
    ensures Granted(Final(b, before), window) <= 2400
  {
    hide Granted;
    hide Final;
    hide Ordered;
    assert Inflow(1200.0 / 60.0, 60000000000) == 1200.0;
    WindowBound(b, before, window, t1, t1 + 60000000000);
  }

  // ------------------------------------------------------- the pause after a 429

  datatype Gate = Gate(bucket: Bucket, pauseUntil: Option<nat>)

  datatype Answer = Accepted | Paused | Exhausted

  const PAUSE: nat := 60000000000

  function Checked(g: Gate, now: nat, weight: nat, isClose: bool): (Gate, Answer)
    requires g.bucket.Valid() && g.bucket.last <= now
  {
    if g.pauseUntil.Some? && now < g.pauseUntil.value && !isClose then (g, Paused)
    else
      var pause := if g.pauseUntil.Some? && now >= g.pauseUntil.value then None else g.pauseUntil;
      var (b, ok) := Consumed(g.bucket, now, weight);
      (Gate(b, pause), if ok then Accepted else Exhausted)
  }

  class RestGate {
    const limiter: Limiter
    var globalPauseUntil: Option<nat>

    function State(): Gate
      reads this, limiter
    {
      Gate(limiter.State(), globalPauseUntil)
    }

    constructor (now: nat)
      ensures State() == Gate(Bucket(1200, 1200.0 / 60.0, 1200.0, now), None) && fresh(limiter)
    {
      limiter := new Limiter(1200, 1200, now);
      globalPauseUntil := None;
    }

    method CheckLimitAndPause(now: nat, weight: nat, isCloseOrder: bool) returns (answer: Answer)
      requires limiter.State().Valid() && limiter.lastRefill <= now
      modifies this, limiter
      ensures (State(), answer) == Checked(old(State()), now, weight, isCloseOrder)
    {
      if globalPauseUntil.Some? {
        if now < globalPauseUntil.value {
          if !isCloseOrder { return Paused; }
        } else {
          globalPauseUntil := None;
        }
      }
      var ok := limiter.Consume(now, weight);
      answer := if ok then Accepted else Exhausted;
    }

    /** Only a 429 starts a pause. */
    method HandleResponse(now: nat, status: int) returns (ok: bool)
      modifies this`globalPauseUntil
      ensures State() == if status == 429 then old(State()).(pauseUntil := Some(now + PAUSE)) else old(State())
      ensures ok == (200 <= status < 300)
    {
      if status == 429 {
        globalPauseUntil := Some(now + 60000000000);
        return false;
      }
      ok := 200 <= status < 300;
    }
  }

  /** Unless the pause turns it away, a request is accepted exactly if the level covers
      its weight, and pays for it; otherwise it is refused and pays nothing. */
  lemma AcceptedIff(g: Gate, now: nat, weight: nat, isClose: bool)
    requires g.bucket.Valid() && g.bucket.last <= now
    ensures var (g', answer) := Checked(g, now, weight, isClose);
      && (answer == Accepted <==> (isClose || !PausedAt(g, now)) && Level(g.bucket, now) >= weight as real)
      && (answer == Exhausted <==> (isClose || !PausedAt(g, now)) && Level(g.bucket, now) < weight as real)
      && g'.bucket.last <= now
      && Level(g'.bucket, now) == Level(g.bucket, now) - if answer == Accepted then weight as real else 0.0
  {
    ConsumedLevel(g.bucket, now, weight);
    hide Consumed;
    hide Level;
  }

  datatype Event = Check(at: nat, weight: nat, isClose: bool) | Response(at: nat, status: int)

  predicate InOrder(start: nat, es: seq<Event>) {
    && (forall i :: 0 <= i < |es| ==> start <= es[i].at)
    && (forall i, j :: 0 <= i <= j < |es| ==> es[i].at <= es[j].at)
  }

  /** The gate after a history; every event happens no earlier than the one before it. */
  function Replay(g: Gate, es: seq<Event>): (g': Gate)
    requires g.bucket.Valid() && InOrder(g.bucket.last, es)
    ensures g'.bucket.Valid() && g'.bucket.last <= if |es| == 0 then g.bucket.last else es[|es| - 1].at
  {
    if |es| == 0 then g
    else
      var m := Replay(g, es[..|es| - 1]);
      match es[|es| - 1]
      case Check(at, weight, isClose) =>
        Checked(m, at, weight, isClose).0
      case Response(at, status) => if status == 429 then m.(pauseUntil := Some(at + PAUSE)) else m
  }

  /** A 429 less than sixty seconds old. */
  predicate Blocks(e: Event, now: nat) { e.Response? && e.status == 429 && now < e.at + PAUSE }

  ghost predicate Recent429(es: seq<Event>, now: nat) { exists i :: 0 <= i < |es| && Blocks(es[i], now) }

  predicate PausedAt(g: Gate, now: nat) { g.pauseUntil.Some? && now < g.pauseUntil.value }

  /** Over every history the gate is paused exactly while some 429 is less than sixty seconds old. */
  lemma {:induction false} PausedIffRecent429(g: Gate, es: seq<Event>, now: nat)
    requires g.bucket.Valid() && g.pauseUntil == None && InOrder(g.bucket.last, es)
    requires forall i :: 0 <= i < |es| ==> es[i].at <= now
    ensures PausedAt(Replay(g, es), now) <==> Recent429(es, now)
    decreases |es|
  {
    hide Consumed;
    if |es| > 0 {
      var p, e := es[..|es| - 1], es[|es| - 1];
      PausedIffRecent429(g, p, now);
      LastDecides(es, now);
    }
  }

  lemma LastDecides(es: seq<Event>, now: nat)
    requires |es| > 0
    ensures Recent429(es, now) <==> Recent429(es[..|es| - 1], now) || Blocks(es[|es| - 1], now)
  {
    var p := es[..|es| - 1];
    forall i | 0 <= i < |p| ensures p[i] == es[i] {
    }
    if Recent429(p, now) {
      var i :| 0 <= i < |p| && Blocks(p[i], now);
      assert Blocks(es[i], now);
    }
  }

  /** So an ordinary request is turned away by the pause exactly then, a close order
      never, and a request turned away by the pause costs no tokens. */
  lemma PauseDecision(g: Gate, es: seq<Event>, now: nat, weight: nat, isClose: bool)
    requires g.bucket.Valid() && g.pauseUntil == None && InOrder(g.bucket.last, es)
    requires g.bucket.last <= now && forall i :: 0 <= i < |es| ==> es[i].at <= now
    ensures var (g', answer) := Checked(Replay(g, es), now, weight, isClose);
      && (answer == Paused <==> !isClose && Recent429(es, now))
      && (answer == Paused ==> g' == Replay(g, es))
  {
    PausedIffRecent429(g, es, now);
    hide Replay;
    hide Consumed;
  }
}
