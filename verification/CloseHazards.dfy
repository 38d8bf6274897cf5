// What breaks the close lock: every harmful step leads on to two closes of one
// position, and runs from start-up show that each kind of harm is within reach.
module CloseHazards {
  import opened Models
  import opened CloseProtocol
  import opened CloseExclusion

  // ------------------------------------------------ from any reachable state

  /** Sentinel could lock a record in its next step. */
  predicate SentinelFree(s: State) { SentinelTask !in s.draining && Stamped(s, SentinelTask) && s.seen == None }

  /** Sentinel locking a record that is unlocked while a close of it is under way. */
  lemma SecondClose(c: Config, s: State, sym: string)
    requires sym in s.book && !s.book[sym].closing && Served(s, sym) && SentinelFree(s)
    ensures Enabled(c, s, Cas(SentinelTask, sym)) && !Exclusive(Next(c, s, Cas(SentinelTask, sym)))
  {
    var i :| 0 <= i < |s.closes| && s.closes[i].sym == sym;
    var t := Next(c, s, Cas(SentinelTask, sym));
    assert t.closes[i].sym == t.closes[|s.closes|].sym;
  }

  lemma Chain(c: Config, s: State, before: seq<Step>, m: State, step: Step) returns (steps: seq<Step>)
    requires After(c, s, before) == Some(m) && Enabled(c, m, step)
    ensures steps == before + [step] && After(c, s, steps) == Some(Next(c, m, step))
  {
    hide Next;
    hide Enabled;
    steps := before + [step];
    assert steps[..|before|] == before;
  }

  /** The converse of `CloseExclusion.RunExact` in terms of closes: from any state in
      which the locks are owned, a step that is not harmless can be followed by at
      most four more, none of them the Reconciler dropping anything, that put two
      closes of one position under way. */
  lemma HarmBreaks(c: Config, s: State, step: Step) returns (more: seq<Step>, t: State)
    requires ExclusionInv(s) && Enabled(c, s, step) && !Harmless(c, s, step)
    requires SentinelFree(s.(seen := None)) && (step.DecideStale? || s.seen == None)
    ensures |more| <= 4 && After(c, Next(c, s, step), more) == Some(t) && !Exclusive(t)
    ensures forall k :: 0 <= k < |more| ==> !more[k].ReconcileRemove?
  {
    var m := Next(c, s, step);
    more := [];
    assert After(c, m, more) == Some(m);
    match step
    case ForceUnlock(sym) => more, t := BrokenLock(c, s, m, sym);
    case DecideStale => more, t := BrokenLock(c, s, m, s.seen.value.0);
    case ReconcileRemove(sym) => more, t := Dropped(c, s, m, sym);
    case ReconcileInsert =>
      if Served(s, s.adopting.value) {
        more, t := Replaced(c, s, m, s.adopting.value);
      } else {
        more, t := Overwritten(c, m, s.adopting.value);
      }
    case _ =>
  }

  lemma BrokenLock(c: Config, s: State, m: State, sym: string) returns (more: seq<Step>, t: State)
    requires ExclusionInv(s) && Served(s, sym) && SentinelFree(m)
    requires m == Cleared(s, sym).(seen := None)
    ensures |more| <= 4 && After(c, m, more) == Some(t) && !Exclusive(t)
    ensures forall k :: 0 <= k < |more| ==> !more[k].ReconcileRemove?
  {
    OwnedIsServed(s, sym);
    assert Served(m, sym);
    SecondClose(c, m, sym);
    assert After(c, m, []) == Some(m);
    more := Chain(c, m, [], m, Cas(SentinelTask, sym));
    t := Next(c, m, Cas(SentinelTask, sym));
  }

  lemma Dropped(c: Config, s: State, m: State, sym: string) returns (more: seq<Step>, t: State)
    requires Served(s, sym) && SentinelFree(m) && m == s.(book := s.book - {sym}) && !Pinned(s, sym) && m.adopting == None
    ensures |more| <= 4 && After(c, m, more) == Some(t) && !Exclusive(t)
    ensures forall k :: 0 <= k < |more| ==> !more[k].ReconcileRemove?
  {
    var n;
    more, n := Readopted(c, s, m, sym);
    hide After;
    SecondClose(c, n, sym);
    more := Chain(c, m, more, n, Cas(SentinelTask, sym));
    t := Next(c, n, Cas(SentinelTask, sym));
  }

  lemma Readopted(c: Config, s: State, m: State, sym: string) returns (more: seq<Step>, n: State)
    requires Served(s, sym) && SentinelFree(m) && m == s.(book := s.book - {sym}) && !Pinned(s, sym) && m.adopting == None
    ensures more == [ReconcileLook(sym), ReconcileInsert] && After(c, m, more) == Some(n)
    ensures SentinelFree(n) && sym in n.book && !n.book[sym].closing && Served(n, sym)
  {
    var l := m.(adopting := Some(sym));
    n := Added(l, sym).(adopting := None);
    ReadoptSteps(c, m, sym);
    assert Pinned(m, sym) == Pinned(s, sym);
    assert Served(n, sym);
    assert After(c, m, []) == Some(m);
    hide After;
    hide Next;
    hide Enabled;
    hide Pinned;
    hide Served;
    more := Chain(c, m, [], m, ReconcileLook(sym));
    more := Chain(c, m, more, l, ReconcileInsert);
  }

  lemma ReadoptSteps(c: Config, m: State, sym: string)
    requires m.adopting == None && sym !in m.book && !Pinned(m, sym)
    ensures var l := m.(adopting := Some(sym));
      && Enabled(c, m, ReconcileLook(sym)) && Next(c, m, ReconcileLook(sym)) == l
      && Enabled(c, l, ReconcileInsert) && Next(c, l, ReconcileInsert) == Added(l, sym).(adopting := None)
  {
  }

  lemma Replaced(c: Config, s: State, m: State, sym: string) returns (more: seq<Step>, t: State)
    requires Served(s, sym) && SentinelFree(m) && m == Added(s, sym).(adopting := None)
    ensures |more| <= 4 && After(c, m, more) == Some(t) && !Exclusive(t)
    ensures forall k :: 0 <= k < |more| ==> !more[k].ReconcileRemove?
  {
    assert Served(m, sym);
    SecondClose(c, m, sym);
    assert After(c, m, []) == Some(m);
    more := Chain(c, m, [], m, Cas(SentinelTask, sym));
    t := Next(c, m, Cas(SentinelTask, sym));
  }

  lemma Overwritten(c: Config, m: State, sym: string) returns (more: seq<Step>, t: State)
    requires m.opening == Some(sym) && SentinelFree(m) && sym in m.book && !m.book[sym].closing
    requires !Pinned(m, sym)
    ensures |more| <= 4 && After(c, m, more) == Some(t) && !Exclusive(t)
    ensures forall k :: 0 <= k < |more| ==> !more[k].ReconcileRemove?
  {
    var b;
    more, b := LockedWhileOpening(c, m, sym);
    more := Chain(c, m, more, b, OpenDone);
    var d := Next(c, b, OpenDone);
    hide After;
    assert d.closes[|m.closes|].sym == sym;
    SecondClose(c, d, sym);
    more := Chain(c, m, more, d, Cas(SentinelTask, sym));
    t := Next(c, d, Cas(SentinelTask, sym));
  }

  lemma LockedWhileOpening(c: Config, m: State, sym: string) returns (more: seq<Step>, b: State)
    requires m.opening == Some(sym) && SentinelFree(m) && sym in m.book && !m.book[sym].closing
    requires !Pinned(m, sym)
    ensures more == [Cas(SentinelTask, sym), Stamp(|m.closes|)] && After(c, m, more) == Some(b)
    ensures b.opening == Some(sym) && SentinelFree(b) && !Pinned(b, sym)
    ensures |b.closes| == |m.closes| + 1 && b.closes[|m.closes|].sym == sym
  {
    assert After(c, m, []) == Some(m);
    hide After;
    var i := |m.closes|;
    more := Chain(c, m, [], m, Cas(SentinelTask, sym));
    var a := Next(c, m, Cas(SentinelTask, sym));
    assert a.closes[i] == Close(SentinelTask, sym, m.book[sym].gen, None);
    more := Chain(c, m, more, a, Stamp(i));
    b := Next(c, a, Stamp(i));
    assert forall j :: 0 <= j < i ==> b.closes[j] == m.closes[j];
  }

  /** In particular the time bound cannot be relaxed: from every state in which the
      locks are owned and Sentinel, free to act, finds a close late, two steps lead to
      two closes of its position. */
  lemma LateBreaks(c: Config, s: State) returns (sym: string)
    requires ExclusionInv(s) && c.atomicCheck && SentinelFree(s) && !Timely(c, s)
    ensures Enabled(c, s, ForceUnlock(sym)) && Enabled(c, Next(c, s, ForceUnlock(sym)), Cas(SentinelTask, sym))
    ensures !Exclusive(Next(c, Next(c, s, ForceUnlock(sym)), Cas(SentinelTask, sym)))
  {
    LateIff(c, s);
    sym :| Enabled(c, s, ForceUnlock(sym)) && Served(s, sym);
    OwnedIsServed(s, sym);
    var m := Next(c, s, ForceUnlock(sym));
    assert Served(m, sym);
    SecondClose(c, m, sym);
  }

  /** A lock left behind by a suppressed close stays until Sentinel breaks it, and
      that it will: from any state, with Sentinel scanning, once the timeout is over. */
  lemma SuppressedIsForced(c: Config, s: State, i: nat) returns (steps: seq<Step>, t: State)
    requires ExclusionInv(s) && c.atomicCheck && SentinelTask !in s.draining && Enabled(c, s, Suppress(i))
    requires s.closes[i].stamp.value > 0
    ensures After(c, s, steps) == Some(t)
    ensures exists late :: steps == [Suppress(i), Advance(late), ForceUnlock(s.closes[i].sym)]
  {
    assert OwnsLock(s, s.closes[i]);
    var sym := s.closes[i].sym;
    var late := s.clock + s.closes[i].stamp.value + c.timeout + 1;
    assert After(c, s, []) == Some(s);
    steps := Chain(c, s, [], s, Suppress(i));
    var m := Next(c, s, Suppress(i));
    steps := Chain(c, s, steps, m, Advance(late));
    m := Next(c, m, Advance(late));
    hide After;
    assert m.book[sym] == s.book[sym] && m.clock == late;
    steps := Chain(c, s, steps, m, ForceUnlock(sym));
    t := Next(c, m, ForceUnlock(sym));
  }

  // ------------------------------------------------------ from start-up on

  predicate NoReconciler(steps: seq<Step>) {
    forall k :: 0 <= k < |steps| ==> !steps[k].ReconcileRemove? && !steps[k].ReconcileLook? && !steps[k].ReconcileInsert?
  }

  predicate Leads(c: Config, s: State, steps: seq<Step>, t: State) { After(c, s, steps) == Some(t) }

  predicate Quiet(c: Config, s: State, steps: seq<Step>) { TimelyRun(c, s, steps) && NoReconciler(steps) }

  lemma Extend(c: Config, s: State, steps: seq<Step>, t: State, step: Step) returns (more: seq<Step>)
    requires Leads(c, s, steps, t) && Enabled(c, t, step)
    ensures more == steps + [step] && Leads(c, s, more, Next(c, t, step))
    ensures TimelyRun(c, s, steps) && Timely(c, Next(c, t, step)) ==> TimelyRun(c, s, more)
    ensures NoReconciler(steps) && !step.ReconcileRemove? && !step.ReconcileLook? && !step.ReconcileInsert?
      ==> NoReconciler(more)
  {
    hide Enabled;
    hide Next;
    hide Timely;
    more := steps + [step];
    assert more[..|steps|] == steps;
  }

  function OnePosition(): State {
    State(1, map["X" := Rec(0, false, 0)], [], {}, None, None, None, 1, multiset{}, multiset{})
  }

  /** RiskGuard has locked X at time 1 and is executing its close. */
  function Executing(): State {
    State(1, map["X" := Rec(0, true, 1)], [Close(GuardTask, "X", 0, Some(1))], {GuardTask}, None, None, None, 1,
          multiset{0}, multiset{})
  }

  lemma GuardLocksX(c: Config) returns (steps: seq<Step>)
    ensures Init(OnePosition()) && Leads(c, OnePosition(), steps, Executing()) && Quiet(c, OnePosition(), steps)
    ensures forall step :: step in steps ==> !step.ForceUnlock?
  {
    TimelyStart(c, OnePosition());
    hide TimelyRun;
    hide After;
    var s := OnePosition();
    steps := Extend(c, s, [], s, Cas(GuardTask, "X"));
    s := Next(c, s, Cas(GuardTask, "X"));
    steps := Extend(c, OnePosition(), steps, s, Stamp(0));
    s := Next(c, s, Stamp(0));
    steps := Extend(c, OnePosition(), steps, s, Drain(GuardTask));
    s := Next(c, s, Drain(GuardTask));
    assert s == Executing();
  }

  lemma TimelyStart(c: Config, s: State)
    requires s.closes == []
    ensures TimelyRun(c, s, []) && Leads(c, s, [], s)
  {
  }

  // ------------------------------------------------- a close that is too slow

  function TwoPositions(): State {
    State(1, map["X" := Rec(0, false, 0), "Y" := Rec(1, false, 0)], [], {}, None, None, None, 2, multiset{}, multiset{})
  }

  /** RiskGuard has locked X and Y in one cycle and is executing X. */
  function QueuedBehindX(clock: nat): State {
    State(clock, map["X" := Rec(0, true, 1), "Y" := Rec(1, true, 1)],
          [Close(GuardTask, "X", 0, Some(1)), Close(GuardTask, "Y", 1, Some(1))], {GuardTask}, None, None, None, 2,
          multiset{0, 1}, multiset{})
  }

  function LockedX(): State {
    State(1, map["X" := Rec(0, true, 1), "Y" := Rec(1, false, 0)], [Close(GuardTask, "X", 0, Some(1))], {}, None, None, None, 2,
          multiset{0}, multiset{})
  }

  lemma GuardLocksFirst(c: Config) returns (steps: seq<Step>)
    ensures Init(TwoPositions()) && Leads(c, TwoPositions(), steps, LockedX()) && NoReconciler(steps)
  {
    TimelyStart(c, TwoPositions());
    hide TimelyRun;
    hide After;
    var s := TwoPositions();
    steps := Extend(c, s, [], s, Cas(GuardTask, "X"));
    s := Next(c, s, Cas(GuardTask, "X"));
    steps := Extend(c, TwoPositions(), steps, s, Stamp(0));
    assert Next(c, s, Stamp(0)) == LockedX();
  }

  lemma GuardLocksSecond(c: Config, before: seq<Step>) returns (steps: seq<Step>)
    requires Leads(c, TwoPositions(), before, LockedX()) && NoReconciler(before)
    ensures Leads(c, TwoPositions(), steps, QueuedBehindX(1)) && NoReconciler(steps)
  {
    hide TimelyRun;
    hide After;
    var s := LockedX();
    steps := Extend(c, TwoPositions(), before, s, Cas(GuardTask, "Y"));
    s := Next(c, s, Cas(GuardTask, "Y"));
    steps := Extend(c, TwoPositions(), steps, s, Stamp(1));
    s := Next(c, s, Stamp(1));
    steps := Extend(c, TwoPositions(), steps, s, Drain(GuardTask));
    assert Next(c, s, Drain(GuardTask)) == QueuedBehindX(1);
  }

  /** A close that waits behind another: RiskGuard locks X and Y in one cycle,
      executing X takes the timeout, Sentinel breaks Y's lock and orders a second
      close of the very record whose first close is still queued. */
  lemma LateCloseOverlaps() returns (steps: seq<Step>, t: State)
    ensures Init(TwoPositions()) && NoReconciler(steps)
    ensures Leads(Config(5000, true, false), TwoPositions(), steps, t)
    ensures !Exclusive(t) && |t.closes| == 3 && t.closes[1].gen == t.closes[2].gen && t.closes[1].sym == t.closes[2].sym
  {
    var c := Config(5000, true, false);
    LateSteps(c);
    t := Next(c, BrokenY(), Cas(SentinelTask, "Y"));
    assert t.closes[1].sym == t.closes[2].sym;
    hide TimelyRun;
    hide After;
    hide Next;
    hide Enabled;
    steps := GuardLocksFirst(c);
    steps := GuardLocksSecond(c, steps);
    steps := Extend(c, TwoPositions(), steps, QueuedBehindX(1), Advance(5002));
    steps := Extend(c, TwoPositions(), steps, QueuedBehindX(5002), ForceUnlock("Y"));
    steps := Extend(c, TwoPositions(), steps, BrokenY(), Cas(SentinelTask, "Y"));
  }

  /** Sentinel has broken the lock of Y, whose close still waits behind that of X. */
  function BrokenY(): State {
    Cleared(QueuedBehindX(5002), "Y")
  }

  lemma LateSteps(c: Config)
    requires c.timeout == 5000 && c.atomicCheck
    ensures Enabled(c, QueuedBehindX(1), Advance(5002)) && Next(c, QueuedBehindX(1), Advance(5002)) == QueuedBehindX(5002)
    ensures Enabled(c, QueuedBehindX(5002), ForceUnlock("Y")) && Next(c, QueuedBehindX(5002), ForceUnlock("Y")) == BrokenY()
    ensures Enabled(c, BrokenY(), Cas(SentinelTask, "Y"))
  {
  }

  // ----------------------------------------- a check apart from its unlock

  /** RiskGuard's close has failed and unlocked; Sentinel still holds its old lock time. */
  function StaleRead(): State {
    State(5001, map["X" := Rec(0, false, 0)], [], {GuardTask}, None, Some(("X", 1)), None, 1, multiset{0}, multiset{0})
  }

  lemma SentinelReads(c: Config, before: seq<Step>) returns (steps: seq<Step>)
    requires c == Config(5000, false, false)
    requires Leads(c, OnePosition(), before, Executing()) && Quiet(c, OnePosition(), before)
    ensures Leads(c, OnePosition(), steps, StaleRead()) && Quiet(c, OnePosition(), steps)
  {
    hide TimelyRun;
    hide After;
    var s := Executing();
    steps := Extend(c, OnePosition(), before, s, ReadStart("X"));
    s := Next(c, s, ReadStart("X"));
    steps := Extend(c, OnePosition(), steps, s, Advance(5001));
    s := Next(c, s, Advance(5001));
    steps := Extend(c, OnePosition(), steps, s, Fail(0));
    assert Next(c, s, Fail(0)) == StaleRead();
  }

  /** TrendProcessor has locked X anew, one millisecond ago. */
  function NewLock(): State {
    State(5002, map["X" := Rec(0, true, 5001)], [Close(TrendTask, "X", 0, Some(5001))], {GuardTask}, None,
          Some(("X", 1)), None, 1, multiset{0, 0}, multiset{0})
  }

  lemma TrendLocks(c: Config, before: seq<Step>) returns (steps: seq<Step>)
    requires c == Config(5000, false, false)
    requires Leads(c, OnePosition(), before, StaleRead()) && Quiet(c, OnePosition(), before)
    ensures Leads(c, OnePosition(), steps, NewLock()) && Quiet(c, OnePosition(), steps)
  {
    hide TimelyRun;
    hide After;
    var s := StaleRead();
    steps := Extend(c, OnePosition(), before, s, Cas(TrendTask, "X"));
    s := Next(c, s, Cas(TrendTask, "X"));
    steps := Extend(c, OnePosition(), steps, s, Stamp(0));
    s := Next(c, s, Stamp(0));
    steps := Extend(c, OnePosition(), steps, s, Advance(5002));
    assert Next(c, s, Advance(5002)) == NewLock();
  }

  /** Sentinel's check read apart from its unlock: it reads an old lock time, the
      old close fails and unlocks, a new close locks, and Sentinel then breaks the
      new lock. Every close here is on time. */
  lemma StaleReadBreaksNewerLock() returns (steps: seq<Step>, t: State)
    ensures Init(OnePosition()) && Quiet(Config(5000, false, false), OnePosition(), steps)
    ensures Leads(Config(5000, false, false), OnePosition(), steps, t)
    ensures !Exclusive(t)
  {
    hide TimelyRun;
    hide After;
    var c := Config(5000, false, false);
    steps := GuardLocksX(c);
    steps := SentinelReads(c, steps);
    steps := TrendLocks(c, steps);
    var s := NewLock();
    steps := Extend(c, OnePosition(), steps, s, DecideStale);
    s := Next(c, s, DecideStale);
    steps := Extend(c, OnePosition(), steps, s, Scan(GuardTask));
    s := Next(c, s, Scan(GuardTask));
    steps := Extend(c, OnePosition(), steps, s, Cas(GuardTask, "X"));
    t := Next(c, s, Cas(GuardTask, "X"));
    assert t.closes[0].sym == t.closes[1].sym;
  }

  // ------------------------------------------------------------- running dry

  /** Running dry, the executor returns before it unlocks: RiskGuard's lock stays
      until Sentinel breaks it, although no close is late. */
  lemma DryRunLeavesLockToTimeout() returns (steps: seq<Step>, t: State)
    ensures Init(OnePosition()) && Quiet(Config(5000, true, true), OnePosition(), steps)
    ensures Leads(Config(5000, true, true), OnePosition(), steps, t)
    ensures exists k :: 0 <= k < |steps| && steps[k].ForceUnlock?
  {
    hide TimelyRun;
    var c := Config(5000, true, true);
    steps := GuardLocksX(c);
    hide After;
    var s := Executing();
    steps := Extend(c, OnePosition(), steps, s, Suppress(0));
    s := Next(c, s, Suppress(0));
    steps := Extend(c, OnePosition(), steps, s, Advance(5002));
    s := Next(c, s, Advance(5002));
    steps := Extend(c, OnePosition(), steps, s, ForceUnlock("X"));
    t := Next(c, s, ForceUnlock("X"));
    assert steps[|steps| - 1].ForceUnlock?;
  }

  // ---------------------------------------------------------- the Reconciler

  /** X was dropped and recreated under RiskGuard's close; Sentinel has locked the new record. */
  function Recreated(): State {
    State(1, map["X" := Rec(1, true, 1)], [Close(GuardTask, "X", 0, Some(1)), Close(SentinelTask, "X", 1, Some(1))],
          {GuardTask}, None, None, None, 2, multiset{0, 1}, multiset{})
  }

  lemma ReconcilerRecreates(c: Config, before: seq<Step>) returns (steps: seq<Step>)
    requires c == Config(5000, true, false)
    requires Leads(c, OnePosition(), before, Executing()) && TimelyRun(c, OnePosition(), before)
    ensures Leads(c, OnePosition(), steps, Recreated()) && TimelyRun(c, OnePosition(), steps)
  {
    hide TimelyRun;
    hide After;
    var s := Executing();
    steps := Extend(c, OnePosition(), before, s, ReconcileRemove("X"));
    s := Next(c, s, ReconcileRemove("X"));
    assert s.book == map[];
    steps := Extend(c, OnePosition(), steps, s, ReconcileLook("X"));
    s := Next(c, s, ReconcileLook("X"));
    steps := Extend(c, OnePosition(), steps, s, ReconcileInsert);
    s := Next(c, s, ReconcileInsert);
    steps := Extend(c, OnePosition(), steps, s, Cas(SentinelTask, "X"));
    s := Next(c, s, Cas(SentinelTask, "X"));
    steps := Extend(c, OnePosition(), steps, s, Stamp(1));
    assert Next(c, s, Stamp(1)) == Recreated();
  }

  /** The Reconciler drops a record whose close is under way and recreates it: the
      old close, once it succeeds, removes the new record from under the new close. */
  lemma ReconcilerBreaksOwnership() returns (steps: seq<Step>, t: State)
    ensures Init(OnePosition()) && TimelyRun(Config(5000, true, false), OnePosition(), steps)
    ensures Leads(Config(5000, true, false), OnePosition(), steps, t)
    ensures |t.closes| == 1 && t.closes[0].sym !in t.book
  {
    hide TimelyRun;
    var c := Config(5000, true, false);
    steps := GuardLocksX(c);
    steps := ReconcilerRecreates(c, steps);
    steps := Extend(c, OnePosition(), steps, Recreated(), Succeed(0));
    t := Next(c, Recreated(), Succeed(0));
  }
}
