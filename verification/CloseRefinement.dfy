// The tasks' own code takes the steps of the close protocol: what CheckOne,
// GuardOne, ProcessSignal and ExecuteClose do to the book is a protocol run.
module CloseRefinement {
  import opened Models
  import opened CloseProtocol
  import RiskGuard
  import Sentinel
  import Inference
  import TrendProcessor
  import Executor
  import Reconciler

  /** The protocol's view of a record. */
  function Shape(r: Record, gen: nat): Rec { Rec(gen, r.isClosing, r.closingStartedAt) }

  ghost predicate Represents(s: State, held: map<string, Record>) {
    s.book.Keys == held.Keys && forall x :: x in held ==> s.book[x] == Shape(held[x], s.book[x].gen)
  }

  /** A task holding nothing: it scans, and every lock it took so far is stamped. */
  predicate Scanning(s: State, task: Task) {
    task !in s.draining && Stamped(s, task) && (task == SentinelTask ==> s.seen == None)
  }

  /** What a visit never touches. */
  predicate SameFrame(s: State, t: State) {
    && t.clock == s.clock && t.draining == s.draining && t.seen == s.seen && t.opening == s.opening && t.adopting == s.adopting
    && t.book.Keys == s.book.Keys && forall x :: x in s.book ==> t.book[x].gen == s.book[x].gen
  }

  /** The close an order stands for, if one was queued. */
  function Queued(task: Task, s: State, sym: string, order: Option<CloseOrder>): seq<Close>
    requires sym in s.book
  {
    if order.Some? then [Close(task, sym, s.book[sym].gen, Some(s.clock))] else []
  }

  lemma TwoSteps(c: Config, s: State, a: Step, b: Step)
    requires Enabled(c, s, a) && Enabled(c, Next(c, s, a), b)
    ensures After(c, s, [a, b]) == Some(Next(c, Next(c, s, a), b))
  {
    assert [a, b][..1] == [a];
    OneStep(c, s, a);
    hide Next;
    hide Enabled;
  }

  lemma OneStep(c: Config, s: State, a: Step)
    requires Enabled(c, s, a)
    ensures After(c, s, [a]) == Some(Next(c, s, a))
  {
    assert [a][..0] == [];
    hide Next;
    hide Enabled;
  }

  /** Where locking leads: the record stamped, its close at the end of the queue. */
  function LockedBy(s: State, task: Task, sym: string): State
    requires sym in s.book
  {
    var g := s.book[sym].gen;
    s.(book := s.book[sym := Rec(g, true, s.clock)],
       closes := s.closes + [Close(task, sym, g, Some(s.clock))], locks := s.locks + multiset{g})
  }

  /** `try_lock_for_close` on a free record is the protocol's swap and stamp. */
  lemma LockRun(c: Config, s: State, task: Task, sym: string)
    requires sym in s.book && Enabled(c, s, Cas(task, sym))
    ensures After(c, s, [Cas(task, sym), Stamp(|s.closes|)]) == Some(LockedBy(s, task, sym))
    ensures SameFrame(s, LockedBy(s, task, sym))
  {
    var m := Next(c, s, Cas(task, sym));
    var i := |s.closes|;
    assert m.closes[i] == Close(task, sym, s.book[sym].gen, None);
    assert Enabled(c, m, Stamp(i));
    var t := Next(c, m, Stamp(i));
    assert t.closes == LockedBy(s, task, sym).closes;
    assert t.book == LockedBy(s, task, sym).book;
    TwoSteps(c, s, Cas(task, sym), Stamp(i));
  }

  lemma LockedRepresents(s: State, held: map<string, Record>, task: Task, sym: string, r: Record)
    requires Represents(s, held) && sym in held && r.isClosing && r.closingStartedAt == s.clock
    ensures Represents(LockedBy(s, task, sym), held[sym := r])
  {
  }

  lemma SameRepresents(s: State, held: map<string, Record>, sym: string, r: Record)
    requires Represents(s, held) && sym in held
    requires r.isClosing == held[sym].isClosing && r.closingStartedAt == held[sym].closingStartedAt
    ensures Represents(s, held[sym := r])
  {
  }

  lemma ClearedRepresents(s: State, held: map<string, Record>, sym: string, r: Record)
    requires Represents(s, held) && sym in held && !r.isClosing && r.closingStartedAt == 0
    ensures Represents(Cleared(s, sym), held[sym := r])
  {
  }

  /** RiskGuard's tick of one record: nothing, or one lock with one order behind it. */
  lemma GuardTickIsARun(c: Config, s: State, held: map<string, Record>, sym: string, x: RiskGuard.Input)
    returns (steps: seq<Step>, t: State)
    requires Represents(s, held) && sym in held && RiskGuard.Tradeable(held[sym]) && x.now == s.clock
    requires Scanning(s, GuardTask) && !Pinned(s, sym)
    ensures After(c, s, steps) == Some(t)
    ensures Represents(t, held[sym := RiskGuard.AfterTick(held[sym], x)])
    ensures t.closes == s.closes + Queued(GuardTask, s, sym, RiskGuard.TickOrder(sym, held[sym], x)) && SameFrame(s, t)
  {
    hide RiskGuard.Roe;
    hide RiskGuard.WantsClose;
    hide RiskGuard.Tracked;
    var r := held[sym];
    var r' := RiskGuard.AfterTick(r, x);
    GuardTouches(sym, r, x);
    hide RiskGuard.AfterTick;
    hide RiskGuard.TickOrder;
    if RiskGuard.TickOrder(sym, r, x).Some? {
      steps := [Cas(GuardTask, sym), Stamp(|s.closes|)];
      t := LockedBy(s, GuardTask, sym);
      LockRun(c, s, GuardTask, sym);
      LockedRepresents(s, held, GuardTask, sym, r');
    } else {
      steps, t := [], s;
      SameRepresents(s, held, sym, r');
    }
  }

  /** A tick locks exactly when it orders, and otherwise leaves the lock alone. */
  lemma GuardTouches(sym: string, r: Record, x: RiskGuard.Input)
    requires RiskGuard.Tradeable(r)
    ensures var r' := RiskGuard.AfterTick(r, x);
      if RiskGuard.TickOrder(sym, r, x).Some? then !r.isClosing && r'.isClosing && r'.closingStartedAt == x.now
      else r'.isClosing == r.isClosing && r'.closingStartedAt == r.closingStartedAt
  {
    hide RiskGuard.Roe;
  }

  /** Sentinel's visit, at either grain of its timeout check: nothing, a broken lock,
      a lock with its order, or, running dry, a lock taken and given back. */
  lemma SentinelVisitIsARun(c: Config, s: State, held: map<string, Record>, sym: string, cfg: Sentinel.Config,
                            funding: Option<Sentinel.Funding>) returns (steps: seq<Step>, t: State)
    requires Represents(s, held) && sym in held && held[sym].leverage > 0 && Scanning(s, SentinelTask)
    requires c.timeout == cfg.closingTimeoutMs && c.dryRun == cfg.dryRun
    ensures After(c, s, steps) == Some(t)
    ensures Represents(t, held[sym := Sentinel.Checked(held[sym], s.clock, cfg, funding)])
    ensures t.closes == s.closes + Queued(SentinelTask, s, sym, Sentinel.CheckOrder(sym, held[sym], s.clock, cfg, funding))
    ensures SameFrame(s, t)
  {
    hide Sentinel.Trigger;
    hide ExpectedPrice;
    var r := held[sym];
    if r.isClosing {
      steps, t := TimeoutCheckIsARun(c, s, held, sym, cfg);
    } else if Sentinel.Trigger(r, s.clock, cfg, funding) == None {
      hide Sentinel.StopLevel;
      hide Sentinel.Overdue;
      steps, t := [], s;
      SameRepresents(s, held, sym, Sentinel.Noted(r, s.clock, cfg));
    } else {
      hide Sentinel.Noted;
      NotedKeepsLock(r, s.clock, cfg);
      steps, t := TriggeredIsARun(c, s, held, sym, Sentinel.Noted(r, s.clock, cfg));
    }
  }

  lemma NotedKeepsLock(r: Record, now: nat, cfg: Sentinel.Config)
    ensures var n := Sentinel.Noted(r, now, cfg); n.isClosing == r.isClosing && n.closingStartedAt == r.closingStartedAt
  {
  }

  lemma TriggeredIsARun(c: Config, s: State, held: map<string, Record>, sym: string, noted: Record)
    returns (steps: seq<Step>, t: State)
    requires Represents(s, held) && sym in held && !held[sym].isClosing && Scanning(s, SentinelTask)
    ensures After(c, s, steps) == Some(t) && SameFrame(s, t)
    ensures Represents(t, held[sym := if c.dryRun then Unlocked(noted) else Locked(noted, s.clock)])
    ensures t.closes == s.closes + if c.dryRun then [] else [Close(SentinelTask, sym, s.book[sym].gen, Some(s.clock))]
  {
    steps := [Cas(SentinelTask, sym), Stamp(|s.closes|)];
    t := LockedBy(s, SentinelTask, sym);
    LockRun(c, s, SentinelTask, sym);
    hide After;
    hide SameFrame;
    var locked := Locked(noted, s.clock);
    LockedRepresents(s, held, SentinelTask, sym, locked);
    if c.dryRun {
      steps, t := TakenBack(c, s, steps, t, sym, held[sym := locked], Unlocked(noted));
      assert held[sym := locked][sym := Unlocked(noted)] == held[sym := Unlocked(noted)];
    }
  }

  lemma TimeoutCheckIsARun(c: Config, s: State, held: map<string, Record>, sym: string, cfg: Sentinel.Config)
    returns (steps: seq<Step>, t: State)
    requires Represents(s, held) && sym in held && held[sym].isClosing && Scanning(s, SentinelTask)
    requires c.timeout == cfg.closingTimeoutMs
    ensures After(c, s, steps) == Some(t) && t.closes == s.closes && SameFrame(s, t)
    ensures var r := held[sym];
      Represents(t, held[sym := if Sentinel.TimedOut(r, s.clock, cfg) then Unlocked(r) else r])
  {
    var r := held[sym];
    assert s.book[sym] == Shape(r, s.book[sym].gen);
    assert Sentinel.TimedOut(r, s.clock, cfg) <==> Expired(c, s.book[sym].startedAt, s.clock);
    if Sentinel.TimedOut(r, s.clock, cfg) {
      ClearedRepresents(s, held, sym, Unlocked(r));
    } else {
      SameRepresents(s, held, sym, r);
    }
    hide Represents;
    hide Sentinel.TimedOut;
    steps, t := TimeoutRun(c, s, sym);
  }

  lemma TimeoutRun(c: Config, s: State, sym: string) returns (steps: seq<Step>, t: State)
    requires sym in s.book && s.book[sym].closing && Scanning(s, SentinelTask)
    ensures After(c, s, steps) == Some(t) && t.closes == s.closes && SameFrame(s, t)
    ensures t == if Expired(c, s.book[sym].startedAt, s.clock) then Cleared(s, sym) else s
  {
    var late := Expired(c, s.book[sym].startedAt, s.clock);
    t := if late then Cleared(s, sym) else s;
    if s.book[sym].startedAt == 0 || (c.atomicCheck && !late) {
      steps := [];
    } else if c.atomicCheck {
      steps := [ForceUnlock(sym)];
      OneStep(c, s, ForceUnlock(sym));
    } else {
      steps := [ReadStart(sym), DecideStale];
      TwoSteps(c, s, ReadStart(sym), DecideStale);
    }
  }

  lemma TakenBack(c: Config, s: State, before: seq<Step>, m: State, sym: string, held: map<string, Record>, r: Record)
    returns (steps: seq<Step>, t: State)
    requires c.dryRun && sym in s.book && m == LockedBy(s, SentinelTask, sym) && After(c, s, before) == Some(m)
    requires Represents(m, held) && sym in held && !r.isClosing && r.closingStartedAt == 0
    ensures After(c, s, steps) == Some(t) && t.closes == s.closes && Represents(t, held[sym := r]) && SameFrame(s, t)
  {
    var undo := TakeBack(|s.closes|);
    assert Enabled(c, m, undo);
    steps, t := before + [undo], Next(c, m, undo);
    assert steps[..|steps| - 1] == before;
    assert t.closes == s.closes;
    ClearedRepresents(m, held, sym, r);
  }

  /** TrendProcessor's decisions: a reversal takes the lock in the same two steps, an
      open claims the free symbol, and anything else does nothing. */
  lemma DecisionIsARun(c: Config, s: State, held: map<string, Record>, sig: Inference.Signal, cfg: TrendProcessor.Config,
                       ticker: Option<TrendProcessor.Ticker>, balance: Option<real>) returns (steps: seq<Step>, t: State)
    requires Represents(s, held) && sig.price != 0.0
    requires cfg.dynamic ==> TrendProcessor.Threshold(cfg, sig.tier) != 1.0
    requires sig.symbol in held ==> held[sig.symbol].leverage > 0
    requires Scanning(s, TrendTask) && s.opening == None && QueueEmpty(s, TrendTask)
    ensures After(c, s, steps) == Some(t)
    ensures var d := TrendProcessor.Decide(held, sig, cfg, ticker, balance);
      && Represents(t, TrendProcessor.DecidedView(held, d, s.clock))
      && t.closes == s.closes + (match d case Reverse(o) => Queued(TrendTask, s, sig.symbol, Some(o)) case _ => [])
      && t.opening == (match d case Open(o) => Some(o.symbol) case _ => None)
      && (d.Open? ==> d.order.symbol == sig.symbol && steps == [OpenBegin(sig.symbol)])
  {
    var d := TrendProcessor.Decide(held, sig, cfg, ticker, balance);
    DecidedSymbol(held, sig, cfg, ticker, balance);
    TrendProcessor.DecisionsRespectTheBook(held, sig, cfg, ticker, balance, s.clock);
    hide TrendProcessor.Decide;
    var sym := sig.symbol;
    match d
    case Reverse(_) =>
      steps := [Cas(TrendTask, sym), Stamp(|s.closes|)];
      t := LockedBy(s, TrendTask, sym);
      LockRun(c, s, TrendTask, sym);
      LockedRepresents(s, held, TrendTask, sym, Locked(held[sym], s.clock));
    case Open(_) =>
      steps, t := [OpenBegin(sym)], s.(opening := Some(sym));
      OneStep(c, s, OpenBegin(sym));
    case Ignore =>
      steps, t := [], s;
  }

  lemma DecidedSymbol(held: map<string, Record>, sig: Inference.Signal, cfg: TrendProcessor.Config,
                      ticker: Option<TrendProcessor.Ticker>, balance: Option<real>)
    requires sig.price != 0.0 && (cfg.dynamic ==> TrendProcessor.Threshold(cfg, sig.tier) != 1.0)
    requires sig.symbol in held ==> held[sig.symbol].leverage > 0
    ensures var d := TrendProcessor.Decide(held, sig, cfg, ticker, balance);
      (d.Reverse? ==> d.close.symbol == sig.symbol) && (d.Open? ==> d.order.symbol == sig.symbol)
  {
    hide ExpectedPrice;
    hide TrendProcessor.FinalQty;
    hide TrendProcessor.RawQty;
    hide TrendProcessor.Notional;
    hide TrendProcessor.Allocation;
    hide TrendProcessor.StanceOf;
  }

  /** The book after an executed close, which a dry run leaves alone. */
  function EndedView(c: Config, held: map<string, Record>, o: CloseOrder, w: Executor.World): map<string, Record> {
    if c.dryRun then held else Executor.ClosedView(held, o, w)
  }

  /** The executor's last act on the book, for the close at the head of its task's
      queue and whatever the exchange answered, is the protocol's Succeed or Fail, or
      in a dry run its Suppress. Running dry Sentinel queues nothing. */
  lemma CloseEndIsAStep(c: Config, s: State, held: map<string, Record>, i: nat, o: CloseOrder, w: Executor.World)
    requires Represents(s, held) && Head(s, i) && s.closes[i].sym == o.symbol
    requires c.dryRun ==> s.closes[i].task != SentinelTask
    requires !c.dryRun && Executor.Removes(o, w) ==> !Pinned(s, o.symbol)
    ensures var step := if c.dryRun then Suppress(i) else if Executor.Removes(o, w) then Succeed(i) else Fail(i);
      Enabled(c, s, step) && Represents(Next(c, s, step), EndedView(c, held, o, w))
  {
    hide Executor.Removes;
    hide Pinned;
    if !Executor.Removes(o, w) && o.symbol in held {
      ClearedRepresents(s, held, o.symbol, Unlocked(held[o.symbol]));
    }
  }

  /** The Reconciler's visit of one remote entry: nothing the lock can notice, or the
      look-up that finds no record and the insertion of one. */
  lemma MergeIsARun(c: Config, s: State, held: map<string, Record>, e: Reconciler.Entry, now: nat)
    returns (steps: seq<Step>, t: State)
    requires Represents(s, held) && s.adopting == None
    requires Reconciler.Live(e) && e.symbol !in held ==> !Pinned(s, e.symbol)
    ensures After(c, s, steps) == Some(t) && Represents(t, Reconciler.Merge(held, e, now)) && OnlyBook(s, t)
  {
    hide Reconciler.Drifted;
    steps, t := [], s;
    if Reconciler.Live(e) {
      if e.symbol in held {
        SameRepresents(s, held, e.symbol, Reconciler.Corrected(held[e.symbol], e));
      } else {
        var sym := e.symbol;
        var l := s.(adopting := Some(sym));
        assert !Pinned(l, sym);
        steps, t := [ReconcileLook(sym), ReconcileInsert], Added(l, sym).(adopting := None);
        TwoSteps(c, s, ReconcileLook(sym), ReconcileInsert);
      }
    }
  }

  /** Nothing but records and their numbering has changed. */
  predicate OnlyBook(s: State, t: State) { t == s.(book := t.book, nextGen := t.nextGen) }

  lemma DropIsAStep(c: Config, s: State, held: map<string, Record>, sym: string)
    requires Represents(s, held) && sym in held && !Pinned(s, sym) && s.adopting == None
    ensures Enabled(c, s, ReconcileRemove(sym))
    ensures Represents(Next(c, s, ReconcileRemove(sym)), held - {sym})
  {
    hide Pinned;
  }

  /** What ExecuteOpen makes of the book, recorded or not, is the protocol's OpenDone or OpenAbort. */
  lemma OpenEndIsAStep(c: Config, s: State, held: map<string, Record>, o: Executor.OpenOrder, fill: Option<(real, real)>,
                       leverage: Leverage, now: nat)
    requires Represents(s, held) && s.opening == Some(o.symbol) && (fill.Some? ==> !Pinned(s, o.symbol))
    ensures var step := if fill.Some? then OpenDone else OpenAbort;
      && Enabled(c, s, step) && Represents(Next(c, s, step), Executor.OpenedView(held, o, fill, leverage, now))
      && Next(c, s, step).opening == None && Next(c, s, step).closes == s.closes
  {
    hide Pinned;
  }

  // ---------------------------------------------------------- whole passes

  lemma {:induction false} Joined(c: Config, s: State, a: seq<Step>, m: State, b: seq<Step>)
    requires After(c, s, a) == Some(m)
    ensures After(c, s, a + b) == After(c, m, b)
    decreases |b|
  {
    if |b| == 0 {
      assert a + b == a;
    } else {
      var p := b[..|b| - 1];
      Joined(c, s, a, m, p);
      assert (a + b)[..|a + b| - 1] == a + p;
      hide Next;
      hide Enabled;
    }
  }

  /** The closes a walk queues, in its own order. */
  function QueueOf(task: Task, book: map<string, Rec>, walked: seq<string>, order: string -> Option<CloseOrder>,
                   clock: string -> nat): seq<Close>
    requires forall x :: x in walked ==> x in book
  {
    if |walked| == 0 then []
    else
      var p, last := walked[..|walked| - 1], walked[|walked| - 1];
      QueueOf(task, book, p, order, clock)
      + if order(last).Some? then [Close(task, last, book[last].gen, Some(clock(last)))] else []
  }

  /** The queue is the list of orders: same length, same symbols, same order, all stamped. */
  lemma {:induction false} QueueMatches(task: Task, book: map<string, Rec>, walked: seq<string>,
                                        order: string -> Option<CloseOrder>, clock: string -> nat)
    requires forall x :: x in walked ==> x in book
    requires forall x :: order(x).Some? ==> order(x).value.symbol == x
    ensures var q, os := QueueOf(task, book, walked, order, clock), Collected(walked, order);
      |q| == |os| && forall i :: 0 <= i < |q| ==> q[i].sym == os[i].symbol && q[i].task == task && q[i].stamp.Some?
  {
    if |walked| > 0 {
      var p, last := walked[..|walked| - 1], walked[|walked| - 1];
      QueueMatches(task, book, p, order, clock);
      assert order(last).Some? ==> order(last).value.symbol == last;
    }
  }

  /** The times of the visits never run backwards. */
  predicate InTime(start: nat, walked: seq<string>, clock: string -> nat) {
    && (forall i :: 0 <= i < |walked| ==> start <= clock(walked[i]))
    && (forall i, j :: 0 <= i < j < |walked| ==> clock(walked[i]) <= clock(walked[j]))
  }

  /** Where a pass gets to: time has advanced, the queue has grown, nothing else moved. */
  ghost predicate Walked(s: State, t: State, walked: seq<string>, queue: seq<Close>, clock: string -> nat) {
    && SameFrame(s.(clock := t.clock), t) && t.closes == s.closes + queue
    && t.clock == if |walked| == 0 then s.clock else clock(walked[|walked| - 1])
  }

  /** What one task's pass needs of the state it starts in. */
  ghost predicate PassReady(s: State, task: Task, held: map<string, Record>, walked: seq<string>, clock: string -> nat) {
    && Represents(s, held) && Scanning(s, task) && InTime(s.clock, walked, clock)
    && (forall x :: x in walked ==> x in held)
    && (forall i, j :: 0 <= i < j < |walked| ==> walked[i] != walked[j])
  }

  lemma PassReadyBefore(s: State, task: Task, held: map<string, Record>, walked: seq<string>, clock: string -> nat)
    requires |walked| > 0 && PassReady(s, task, held, walked, clock)
    ensures var p, last := walked[..|walked| - 1], walked[|walked| - 1];
      && PassReady(s, task, held, p, clock) && last !in p && walked == p + [last]
      && (|p| == 0 ==> s.clock <= clock(last)) && (|p| > 0 ==> clock(p[|p| - 1]) <= clock(last))
  {
  }

  /** After a prefix of the pass the task still scans, and no record got pinned. */
  lemma StillScanning(s: State, task: Task, t: State, walked: seq<string>, queue: seq<Close>, clock: string -> nat)
    requires Scanning(s, task) && Walked(s, t, walked, queue, clock)
    requires forall i :: 0 <= i < |queue| ==> queue[i].stamp.Some?
    ensures Scanning(t, task) && forall x :: !Pinned(s, x) ==> !Pinned(t, x)
  {
  }

  lemma WaitUntil(c: Config, s: State, steps: seq<Step>, m: State, to: nat) returns (more: seq<Step>)
    requires After(c, s, steps) == Some(m) && m.clock <= to
    ensures After(c, s, more) == Some(m.(clock := to))
  {
    OneStep(c, m, Advance(to));
    Joined(c, s, steps, m, [Advance(to)]);
    more := steps + [Advance(to)];
  }

  lemma WalkedStep(s: State, m: State, t: State, p: seq<string>, last: string, queue: seq<Close>, more: seq<Close>,
                   clock: string -> nat)
    requires Walked(s, m, p, queue, clock)
    requires SameFrame(m.(clock := clock(last)), t) && t.closes == m.closes + more
    ensures Walked(s, t, p + [last], queue + more, clock)
  {
  }

  lemma QueueStep(task: Task, book: map<string, Rec>, p: seq<string>, last: string, order: string -> Option<CloseOrder>,
                  clock: string -> nat)
    requires last in book && forall x :: x in p ==> x in book
    ensures QueueOf(task, book, p + [last], order, clock) == QueueOf(task, book, p, order, clock)
      + if order(last).Some? then [Close(task, last, book[last].gen, Some(clock(last)))] else []
  {
    assert (p + [last])[..|p|] == p;
  }

  function TickClock(inputs: string -> RiskGuard.Input): string -> nat { s => inputs(s).now }

  /** One more record of the walk, from wherever the walk has got to. */
  lemma GuardWalkStep(c: Config, s: State, held: map<string, Record>, p: seq<string>, last: string,
                      inputs: string -> RiskGuard.Input, before: seq<Step>, m: State, queue: seq<Close>)
    returns (steps: seq<Step>, t: State)
    requires After(c, s, before) == Some(m) && Represents(m, RiskGuard.Ticked(held, p, inputs))
    requires Walked(s, m, p, queue, TickClock(inputs)) && m.clock <= inputs(last).now
    requires last in held && last !in p && RiskGuard.Tradeable(held[last])
    requires Scanning(m, GuardTask) && !Pinned(m, last) && last in s.book
    ensures After(c, s, steps) == Some(t) && Represents(t, RiskGuard.Ticked(held, p + [last], inputs))
    ensures Walked(s, t, p + [last], queue + Queued(GuardTask, s.(clock := inputs(last).now), last,
                                                    RiskGuard.TickOrders(held, inputs)(last)), TickClock(inputs))
  {
    var now := RiskGuard.Ticked(held, p, inputs);
    assert last in now && now[last] == held[last];
    RiskGuard.TickedStep(held, p, last, inputs);
    hide RiskGuard.AfterTick;
    hide RiskGuard.TickOrder;
    hide RiskGuard.Ticked;
    hide RiskGuard.TickOrders;
    hide After;
    var w := m.(clock := inputs(last).now);
    steps := WaitUntil(c, s, before, m, inputs(last).now);
    assert Represents(w, now) && Scanning(w, GuardTask) && !Pinned(w, last);
    hide Represents;
    hide Pinned;
    hide Scanning;
    var more;
    more, t := GuardTickIsARun(c, w, now, last, inputs(last));
    Joined(c, s, steps, w, more);
    steps := steps + more;
    assert w.book[last].gen == s.book[last].gen;
    WalkedStep(s, m, t, p, last, queue, Queued(GuardTask, w, last, RiskGuard.TickOrder(last, held[last], inputs(last))),
               TickClock(inputs));
  }

  lemma {:induction false} GuardWalkIsARun(c: Config, s: State, held: map<string, Record>, walked: seq<string>,
                                           inputs: string -> RiskGuard.Input) returns (steps: seq<Step>, t: State)
    requires PassReady(s, GuardTask, held, walked, TickClock(inputs))
    requires forall x :: x in walked ==> RiskGuard.Tradeable(held[x]) && !Pinned(s, x)
    ensures After(c, s, steps) == Some(t) && Represents(t, RiskGuard.Ticked(held, walked, inputs))
    ensures Walked(s, t, walked, QueueOf(GuardTask, s.book, walked, RiskGuard.TickOrders(held, inputs), TickClock(inputs)),
                   TickClock(inputs))
    decreases |walked|
  {
    var order, clock := RiskGuard.TickOrders(held, inputs), TickClock(inputs);
    if |walked| == 0 {
      steps, t := [], s;
      RiskGuard.TickedNone(held, inputs);
      assert walked == [];
    } else {
      PassReadyBefore(s, GuardTask, held, walked, clock);
      var p, last := walked[..|walked| - 1], walked[|walked| - 1];
      var m;
      steps, m := GuardWalkIsARun(c, s, held, p, inputs);
      RiskGuard.TickOrdersOwn(held, inputs);
      QueueMatches(GuardTask, s.book, p, order, clock);
      var queue := QueueOf(GuardTask, s.book, p, order, clock);
      StillScanning(s, GuardTask, m, p, queue, clock);
      QueueStep(GuardTask, s.book, p, last, order, clock);
      assert m.clock <= inputs(last).now;
      hide Walked;
      hide Represents;
      hide Pinned;
      hide RiskGuard.Ticked;
      hide RiskGuard.TickOrders;
      hide RiskGuard.Tradeable;
      hide After;
      hide QueueOf;
      steps, t := GuardWalkStep(c, s, held, p, last, inputs, steps, m, queue);
    }
  }

  /** How a pass ends: the task turns to its queue, which is its list of orders, and
      executes it from the front. */
  ghost predicate Turned(s: State, t: State, task: Task, orders: seq<CloseOrder>) {
    && task in t.draining && |t.closes| == |s.closes| + |orders| && t.closes[..|s.closes|] == s.closes
    && (forall i :: 0 <= i < |orders| ==>
          t.closes[|s.closes| + i].task == task && t.closes[|s.closes| + i].sym == orders[i].symbol)
    && (orders != [] && QueueEmpty(s, task) ==> Head(t, |s.closes|))
  }

  lemma TurnToQueue(c: Config, s: State, task: Task, walked: seq<string>, order: string -> Option<CloseOrder>,
                    clock: string -> nat, steps: seq<Step>, m: State) returns (more: seq<Step>, t: State)
    requires After(c, s, steps) == Some(m) && Scanning(s, task)
    requires forall x :: x in walked ==> x in s.book
    requires forall x :: order(x).Some? ==> order(x).value.symbol == x
    requires Walked(s, m, walked, QueueOf(task, s.book, walked, order, clock), clock)
    ensures After(c, s, more) == Some(t) && t == m.(draining := m.draining + {task})
    ensures Turned(s, t, task, Collected(walked, order))
  {
    var queue := QueueOf(task, s.book, walked, order, clock);
    QueueMatches(task, s.book, walked, order, clock);
    StillScanning(s, task, m, walked, queue, clock);
    hide Turned;
    hide QueueOf;
    hide Collected;
    OneStep(c, m, Drain(task));
    Joined(c, s, steps, m, [Drain(task)]);
    more, t := steps + [Drain(task)], m.(draining := m.draining + {task});
    hide After;
    QueueTurned(s, t, task, queue, Collected(walked, order));
  }

  lemma QueueTurned(s: State, t: State, task: Task, queue: seq<Close>, orders: seq<CloseOrder>)
    requires task in t.draining && t.closes == s.closes + queue && |queue| == |orders|
    requires forall i :: 0 <= i < |queue| ==>
      queue[i].sym == orders[i].symbol && queue[i].task == task && queue[i].stamp.Some?
    ensures Turned(s, t, task, orders)
  {
    forall i | 0 <= i < |orders| ensures t.closes[|s.closes| + i] == queue[i] {
    }
    if orders != [] && QueueEmpty(s, task) { assert t.closes[|s.closes|] == queue[0]; }
  }

  /** A whole cycle of RiskGuard, in whatever order it walks the map and however long
      the visits take, is one run of the protocol: the records take their ticks, the
      orders queue up in walking order, and RiskGuard turns to executing them. */
  lemma GuardCycleIsARun(c: Config, s: State, held: map<string, Record>, walked: seq<string>,
                         inputs: string -> RiskGuard.Input) returns (steps: seq<Step>, t: State)
    requires PassReady(s, GuardTask, held, walked, TickClock(inputs))
    requires forall x :: x in walked ==> RiskGuard.Tradeable(held[x]) && !Pinned(s, x)
    ensures After(c, s, steps) == Some(t) && Represents(t, RiskGuard.Ticked(held, walked, inputs))
    ensures Turned(s, t, GuardTask, Collected(walked, RiskGuard.TickOrders(held, inputs)))
  {
    var m;
    steps, m := GuardWalkIsARun(c, s, held, walked, inputs);
    RiskGuard.TickOrdersOwn(held, inputs);
    hide RiskGuard.TickOrders;
    hide RiskGuard.Ticked;
    hide Walked;
    hide Turned;
    steps, t := TurnToQueue(c, s, GuardTask, walked, RiskGuard.TickOrders(held, inputs), TickClock(inputs), steps, m);
  }

  lemma SentinelWalkStep(c: Config, s: State, held: map<string, Record>, p: seq<string>, last: string,
                         clock: string -> nat, cfg: Sentinel.Config, fundings: string -> Option<Sentinel.Funding>,
                         before: seq<Step>, m: State, queue: seq<Close>) returns (steps: seq<Step>, t: State)
    requires c.timeout == cfg.closingTimeoutMs && c.dryRun == cfg.dryRun
    requires After(c, s, before) == Some(m) && Represents(m, Sentinel.Visited(held, p, clock, cfg, fundings))
    requires Walked(s, m, p, queue, clock) && m.clock <= clock(last)
    requires last in held && last !in p && held[last].leverage > 0
    requires Scanning(m, SentinelTask) && last in s.book
    ensures After(c, s, steps) == Some(t) && Represents(t, Sentinel.Visited(held, p + [last], clock, cfg, fundings))
    ensures Walked(s, t, p + [last], queue + Queued(SentinelTask, s.(clock := clock(last)), last,
                                                    Sentinel.CheckOrders(held, clock, cfg, fundings)(last)), clock)
  {
    var now := Sentinel.Visited(held, p, clock, cfg, fundings);
    assert last in now && now[last] == held[last];
    Sentinel.VisitedStep(held, p, last, clock, cfg, fundings);
    hide Sentinel.Checked;
    hide Sentinel.CheckOrder;
    hide Sentinel.Visited;
    hide Sentinel.CheckOrders;
    hide After;
    var w := m.(clock := clock(last));
    steps := WaitUntil(c, s, before, m, clock(last));
    assert Represents(w, now) && Scanning(w, SentinelTask);
    hide Represents;
    hide Scanning;
    var more;
    more, t := SentinelVisitIsARun(c, w, now, last, cfg, fundings(last));
    Joined(c, s, steps, w, more);
    steps := steps + more;
    assert w.book[last].gen == s.book[last].gen;
    WalkedStep(s, m, t, p, last, queue,
               Queued(SentinelTask, w, last, Sentinel.CheckOrder(last, held[last], clock(last), cfg, fundings(last))), clock);
  }

  lemma {:induction false} SentinelWalkIsARun(c: Config, s: State, held: map<string, Record>, walked: seq<string>,
                                              clock: string -> nat, cfg: Sentinel.Config,
                                              fundings: string -> Option<Sentinel.Funding>)
    returns (steps: seq<Step>, t: State)
    requires c.timeout == cfg.closingTimeoutMs && c.dryRun == cfg.dryRun
    requires PassReady(s, SentinelTask, held, walked, clock) && forall x :: x in walked ==> held[x].leverage > 0
    ensures After(c, s, steps) == Some(t) && Represents(t, Sentinel.Visited(held, walked, clock, cfg, fundings))
    ensures Walked(s, t, walked, QueueOf(SentinelTask, s.book, walked, Sentinel.CheckOrders(held, clock, cfg, fundings), clock),
                   clock)
    decreases |walked|
  {
    var order := Sentinel.CheckOrders(held, clock, cfg, fundings);
    if |walked| == 0 {
      steps, t := [], s;
      Sentinel.VisitedNone(held, clock, cfg, fundings);
      assert walked == [];
    } else {
      PassReadyBefore(s, SentinelTask, held, walked, clock);
      var p, last := walked[..|walked| - 1], walked[|walked| - 1];
      var m;
      steps, m := SentinelWalkIsARun(c, s, held, p, clock, cfg, fundings);
      Sentinel.CheckOrdersOwn(held, clock, cfg, fundings);
      QueueMatches(SentinelTask, s.book, p, order, clock);
      var queue := QueueOf(SentinelTask, s.book, p, order, clock);
      StillScanning(s, SentinelTask, m, p, queue, clock);
      QueueStep(SentinelTask, s.book, p, last, order, clock);
      assert m.clock <= clock(last);
      hide Walked;
      hide Represents;
      hide Sentinel.Visited;
      hide Sentinel.CheckOrders;
      hide After;
      hide QueueOf;
      steps, t := SentinelWalkStep(c, s, held, p, last, clock, cfg, fundings, steps, m, queue);
    }
  }

  /** The same for a whole pass of Sentinel, dry or not, at either grain of its check. */
  lemma SentinelPassIsARun(c: Config, s: State, held: map<string, Record>, walked: seq<string>, clock: string -> nat,
                           cfg: Sentinel.Config, fundings: string -> Option<Sentinel.Funding>)
    returns (steps: seq<Step>, t: State)
    requires c.timeout == cfg.closingTimeoutMs && c.dryRun == cfg.dryRun
    requires PassReady(s, SentinelTask, held, walked, clock) && forall x :: x in walked ==> held[x].leverage > 0
    ensures After(c, s, steps) == Some(t) && Represents(t, Sentinel.Visited(held, walked, clock, cfg, fundings))
    ensures Turned(s, t, SentinelTask, Collected(walked, Sentinel.CheckOrders(held, clock, cfg, fundings)))
  {
    var m;
    steps, m := SentinelWalkIsARun(c, s, held, walked, clock, cfg, fundings);
    Sentinel.CheckOrdersOwn(held, clock, cfg, fundings);
    hide Sentinel.CheckOrders;
    hide Sentinel.Visited;
    hide Walked;
    hide Turned;
    steps, t := TurnToQueue(c, s, SentinelTask, walked, Sentinel.CheckOrders(held, clock, cfg, fundings), clock, steps, m);
  }

  // ---------------------------------------------------- the Reconciler's pass

  predicate NothingPinned(s: State) { s.seen == None && forall i :: 0 <= i < |s.closes| ==> s.closes[i].stamp.Some? }

  lemma {:induction false} MergeAllIsARun(c: Config, s: State, held: map<string, Record>, es: seq<Reconciler.Entry>, now: nat)
    returns (steps: seq<Step>, t: State)
    requires Represents(s, held) && s.adopting == None && NothingPinned(s)
    ensures After(c, s, steps) == Some(t) && Represents(t, Reconciler.MergeAll(held, es, now)) && OnlyBook(s, t)
    decreases |es|
  {
    if |es| == 0 {
      steps, t := [], s;
    } else {
      var p, last := es[..|es| - 1], es[|es| - 1];
      var m, more;
      steps, m := MergeAllIsARun(c, s, held, p, now);
      var merged := Reconciler.MergeAll(held, p, now);
      assert Reconciler.MergeAll(held, es, now) == Reconciler.Merge(merged, last, now);
      hide Reconciler.MergeAll;
      hide Reconciler.Merge;
      hide Represents;
      hide After;
      assert !Pinned(m, if last.Entry? then last.symbol else "");
      more, t := MergeIsARun(c, m, merged, last, now);
      Joined(c, s, steps, m, more);
      steps := steps + more;
    }
  }

  lemma {:induction false} DropAllIsARun(c: Config, s: State, held: map<string, Record>, live: set<string>)
    returns (steps: seq<Step>, t: State)
    requires Represents(s, held) && s.adopting == None && NothingPinned(s)
    ensures After(c, s, steps) == Some(t) && OnlyBook(s, t)
    ensures Represents(t, map x | x in held && x in live :: held[x])
    decreases held.Keys - live
  {
    if held.Keys <= live {
      steps, t := [], s;
      assert (map x | x in held && x in live :: held[x]) == held;
    } else {
      var sym :| sym in held.Keys && sym !in live;
      assert !Pinned(s, sym);
      DropIsAStep(c, s, held, sym);
      OneStep(c, s, ReconcileRemove(sym));
      var m, less := Next(c, s, ReconcileRemove(sym)), held - {sym};
      assert less.Keys - live == held.Keys - live - {sym};
      assert (map x | x in less && x in live :: less[x]) == (map x | x in held && x in live :: held[x]);
      hide Represents;
      var more;
      more, t := DropAllIsARun(c, m, less, live);
      Joined(c, s, [ReconcileRemove(sym)], m, more);
      steps := [ReconcileRemove(sym)] + more;
    }
  }

  /** A whole pass of the Reconciler that nobody interrupts is one run of the protocol. */
  lemma ReconcilePassIsARun(c: Config, s: State, held: map<string, Record>, es: seq<Reconciler.Entry>, now: nat)
    returns (steps: seq<Step>, t: State)
    requires Represents(s, held) && s.adopting == None && NothingPinned(s)
    ensures After(c, s, steps) == Some(t) && Represents(t, Reconciler.Reconciled(held, es, now)) && OnlyBook(s, t)
  {
    var m, more;
    steps, m := MergeAllIsARun(c, s, held, es, now);
    hide Represents;
    more, t := DropAllIsARun(c, m, Reconciler.MergeAll(held, es, now), Reconciler.LiveSymbols(es));
    Joined(c, s, steps, m, more);
    steps := steps + more;
  }
}
