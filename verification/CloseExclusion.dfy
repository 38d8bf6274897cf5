// When the close lock really excludes: at most one close per position. The steps
// that break the locks are named exactly, and each of them leads to two closes.
module CloseExclusion {
  import opened Models
  import opened CloseProtocol

  /** At most one close is queued or executing per position. */
  predicate Exclusive(s: State) {
    forall i, j :: 0 <= i < j < |s.closes| ==> s.closes[i].sym != s.closes[j].sym
  }

  /** A close owns the lock it took: same record, still locked, same time stamp. */
  predicate OwnsLock(s: State, x: Close) {
    && x.sym in s.book && s.book[x.sym].gen == x.gen && s.book[x.sym].closing
    && s.book[x.sym].startedAt == match x.stamp case None => 0 case Some(t) => t
  }

  /** A close of this symbol is under way. */
  ghost predicate Served(s: State, sym: string) {
    exists i :: 0 <= i < |s.closes| && s.closes[i].sym == sym
  }

  ghost predicate ExclusionInv(s: State) {
    && Exclusive(s)
    && (forall i :: 0 <= i < |s.closes| ==> OwnsLock(s, s.closes[i]))
    && (forall sym :: sym in s.book && !s.book[sym].closing ==> s.book[sym].startedAt == 0)
    && (s.opening.Some? ==> s.opening.value !in s.book)
  }

  /** The only steps that can do harm, and when they do not: a lock is broken or a
      record dropped or replaced only if no close of it is under way, and no record is
      adopted for the symbol being opened. */
  ghost predicate Harmless(c: Config, s: State, step: Step) {
    match step
    case ForceUnlock(sym) => !Served(s, sym)
    case DecideStale => s.seen.Some? && Expired(c, s.seen.value.1, s.clock) ==> !Served(s, s.seen.value.0)
    case ReconcileRemove(sym) => !Served(s, sym)
    case ReconcileInsert => s.adopting.Some? ==> !Served(s, s.adopting.value) && s.opening != s.adopting
    case _ => true
  }

  // ------------------------------------------------- harmless steps keep it

  lemma OwnedIsServed(s: State, sym: string)
    requires ExclusionInv(s) && Served(s, sym)
    ensures sym in s.book && s.book[sym].closing
  {
    var i :| 0 <= i < |s.closes| && s.closes[i].sym == sym;
    assert OwnsLock(s, s.closes[i]);
  }

  lemma LockKeepsExclusion(s: State, task: Task, sym: string)
    requires ExclusionInv(s) && sym in s.book && !s.book[sym].closing
    ensures ExclusionInv(s.(book := s.book[sym := s.book[sym].(closing := true)],
                            closes := s.closes + [Close(task, sym, s.book[sym].gen, None)],
                            locks := s.locks + multiset{s.book[sym].gen}))
  {
    forall i | 0 <= i < |s.closes| ensures s.closes[i].sym != sym {
      assert OwnsLock(s, s.closes[i]);
    }
  }

  lemma StampKeepsExclusion(s: State, i: nat)
    requires ExclusionInv(s) && i < |s.closes|
    ensures s.closes[i].sym in s.book
    ensures ExclusionInv(s.(book := s.book[s.closes[i].sym := s.book[s.closes[i].sym].(startedAt := s.clock)],
                            closes := s.closes[i := s.closes[i].(stamp := Some(s.clock))]))
  {
    assert OwnsLock(s, s.closes[i]);
    var sym := s.closes[i].sym;
    var t := s.(book := s.book[sym := s.book[sym].(startedAt := s.clock)],
                closes := s.closes[i := s.closes[i].(stamp := Some(s.clock))]);
    forall j | 0 <= j < |t.closes| ensures t.closes[j].sym == s.closes[j].sym && OwnsLock(t, t.closes[j]) {
      assert OwnsLock(s, s.closes[j]);
      assert i < j ==> s.closes[i].sym != s.closes[j].sym;
      assert j < i ==> s.closes[j].sym != s.closes[i].sym;
    }
  }

  /** Where the other closes were before the end of close `i`, and where they are after it. */
  function Before(i: nat, j: nat): nat { if j < i then j else j + 1 }

  lemma WithoutAt(xs: seq<Close>, i: nat, j: nat)
    requires i < |xs| && j < |xs| - 1
    ensures Without(xs, i)[j] == xs[Before(i, j)] && Before(i, j) != i
  {
  }

  /** `t` is `s` after close `i` ended and took its record, or just its lock, with it. */
  ghost predicate Ended(s: State, i: nat, t: State) {
    && i < |s.closes| && t.closes == Without(s.closes, i) && t.opening == s.opening && t.seen == s.seen
    && (forall x :: x in t.book ==> x in s.book)
    && (forall x :: x != s.closes[i].sym && x in s.book ==> x in t.book && t.book[x] == s.book[x])
    && (s.closes[i].sym in t.book ==> !t.book[s.closes[i].sym].closing && t.book[s.closes[i].sym].startedAt == 0)
  }

  lemma EndedOthers(s: State, i: nat, t: State, j: nat)
    requires ExclusionInv(s) && Ended(s, i, t) && j < |t.closes|
    ensures t.closes[j] == s.closes[Before(i, j)] && t.closes[j].sym != s.closes[i].sym
    ensures OwnsLock(t, t.closes[j])
  {
    WithoutAt(s.closes, i, j);
    var k := Before(i, j);
    assert OwnsLock(s, s.closes[k]);
    assert if k < i then s.closes[k].sym != s.closes[i].sym else s.closes[i].sym != s.closes[k].sym;
  }

  lemma EndKeepsExclusion(s: State, i: nat, t: State)
    requires ExclusionInv(s) && Ended(s, i, t)
    ensures ExclusionInv(t)
  {
    forall j | 0 <= j < |t.closes| ensures OwnsLock(t, t.closes[j]) {
      EndedOthers(s, i, t, j);
    }
    forall j, k | 0 <= j < k < |t.closes| ensures t.closes[j].sym != t.closes[k].sym {
      EndedOthers(s, i, t, j);
      EndedOthers(s, i, t, k);
      assert Before(i, j) < Before(i, k);
    }
  }

  /** A record no close is concerned with may be unlocked, dropped or added, and
      whatever the invariant does not mention may change freely. */
  lemma FrameKeepsExclusion(s: State, t: State, sym: string)
    requires ExclusionInv(s) && t.closes == s.closes
    requires t.book == s.book || !Served(s, sym)
    requires forall x :: x != sym ==> (x in t.book <==> x in s.book) && (x in t.book ==> t.book[x] == s.book[x])
    requires sym in t.book && t.book != s.book ==> t.book[sym].startedAt == 0
    requires t.opening.Some? ==> t.opening.value !in t.book
    ensures ExclusionInv(t)
  {
    forall i | 0 <= i < |t.closes| ensures OwnsLock(t, t.closes[i]) {
      assert OwnsLock(s, s.closes[i]);
    }
  }

  /** A close that ends without touching its lock, as in a dry run, leaves the others alone. */
  lemma SuppressKeepsExclusion(s: State, i: nat)
    requires ExclusionInv(s) && i < |s.closes|
    ensures ExclusionInv(s.(closes := Without(s.closes, i)))
  {
    var t := s.(closes := Without(s.closes, i));
    forall j | 0 <= j < |t.closes| ensures t.closes[j] == s.closes[Before(i, j)] && OwnsLock(t, t.closes[j]) {
      WithoutAt(s.closes, i, j);
      assert OwnsLock(s, s.closes[Before(i, j)]);
    }
    forall j, k | 0 <= j < k < |t.closes| ensures t.closes[j].sym != t.closes[k].sym {
      assert Before(i, j) < Before(i, k);
    }
  }

  predicate LockStep(step: Step) { step.Cas? || step.Stamp? || step.Suppress? }

  lemma LockStepKeeps(c: Config, s: State, step: Step)
    requires ExclusionInv(s) && Enabled(c, s, step) && LockStep(step)
    ensures ExclusionInv(Next(c, s, step))
  {
    hide ExclusionInv;
    match step
    case Cas(task, sym) => LockKeepsExclusion(s, task, sym);
    case Stamp(i) => StampKeepsExclusion(s, i);
    case Suppress(i) => SuppressKeepsExclusion(s, i);
  }

  predicate EndStep(step: Step) { step.Succeed? || step.Fail? || step.TakeBack? }

  lemma EndStepEnds(c: Config, s: State, step: Step)
    requires ExclusionInv(s) && Enabled(c, s, step) && EndStep(step)
    ensures Ended(s, step.i, Next(c, s, step))
  {
    assert OwnsLock(s, s.closes[step.i]);
    hide ExclusionInv;
    hide Pinned;
  }

  predicate BookStep(step: Step) {
    step.ForceUnlock? || step.DecideStale? || step.OpenDone? || step.ReconcileRemove? || step.ReconcileInsert?
  }

  lemma BookStepKeeps(c: Config, s: State, step: Step)
    requires ExclusionInv(s) && Enabled(c, s, step) && Harmless(c, s, step) && BookStep(step)
    ensures ExclusionInv(Next(c, s, step))
  {
    assert s.opening.Some? ==> s.opening.value !in s.book;
    if step.OpenDone? && Served(s, s.opening.value) { OwnedIsServed(s, s.opening.value); }
    hide ExclusionInv;
    hide Served;
    hide Pinned;
    var t := Next(c, s, step);
    match step
    case ForceUnlock(sym) => FrameKeepsExclusion(s, t, sym);
    case DecideStale => FrameKeepsExclusion(s, t, s.seen.value.0);
    case OpenDone => FrameKeepsExclusion(s, t, s.opening.value);
    case ReconcileRemove(sym) => FrameKeepsExclusion(s, t, sym);
    case ReconcileInsert => FrameKeepsExclusion(s, t, s.adopting.value);
  }

  lemma HarmlessKeeps(c: Config, s: State, step: Step)
    requires ExclusionInv(s) && Enabled(c, s, step) && Harmless(c, s, step)
    ensures ExclusionInv(Next(c, s, step))
  {
    if LockStep(step) {
      LockStepKeeps(c, s, step);
    } else if EndStep(step) {
      EndStepEnds(c, s, step);
      EndKeepsExclusion(s, step.i, Next(c, s, step));
    } else if BookStep(step) {
      BookStepKeeps(c, s, step);
    } else {
      assert s.opening.Some? ==> s.opening.value !in s.book;
      hide ExclusionInv;
      FrameKeepsExclusion(s, Next(c, s, step), "");
    }
  }

  /** The condition is exact: whatever the configuration, a step keeps the
      invariant if and only if it is harmless. */
  lemma StepExact(c: Config, s: State, step: Step)
    requires ExclusionInv(s) && Enabled(c, s, step)
    ensures ExclusionInv(Next(c, s, step)) <==> Harmless(c, s, step)
  {
    if Harmless(c, s, step) {
      HarmlessKeeps(c, s, step);
    } else if !step.ReconcileInsert? || Served(s, s.adopting.value) {
      var sym := if step.DecideStale? then s.seen.value.0 else if step.ReconcileInsert? then s.adopting.value else step.sym;
      OwnedIsServed(s, sym);
      var i :| 0 <= i < |s.closes| && s.closes[i].sym == sym;
      assert !OwnsLock(Next(c, s, step), s.closes[i]);
    }
  }

  // ------------------------------------------------------------------- runs

  /** Every step of the run is harmless where it is taken. */
  ghost predicate HarmlessRun(c: Config, s: State, steps: seq<Step>) {
    |steps| > 0 ==>
      var p := steps[..|steps| - 1];
      HarmlessRun(c, s, p) && (After(c, s, p).Some? ==> Harmless(c, After(c, s, p).value, steps[|steps| - 1]))
  }

  /** The invariant holds at the end and in every state on the way. */
  ghost predicate InvThroughout(c: Config, s: State, steps: seq<Step>) {
    && (After(c, s, steps).Some? ==> ExclusionInv(After(c, s, steps).value))
    && (|steps| > 0 ==> InvThroughout(c, s, steps[..|steps| - 1]))
  }

  /** Over every run, dry or not and at either grain of Sentinel's check: the closes
      own their locks throughout if and only if every step is harmless. */
  lemma {:induction false} RunExact(c: Config, s: State, steps: seq<Step>)
    requires Init(s) && After(c, s, steps).Some?
    ensures InvThroughout(c, s, steps) <==> HarmlessRun(c, s, steps)
    decreases |steps|
  {
    if |steps| > 0 {
      var p := steps[..|steps| - 1];
      RunExact(c, s, p);
      hide Next;
      hide Enabled;
      hide Harmless;
      if InvThroughout(c, s, p) {
        InvAtEnd(c, s, p);
        StepExact(c, After(c, s, p).value, steps[|steps| - 1]);
      }
    }
  }

  lemma InvAtEnd(c: Config, s: State, steps: seq<Step>)
    requires InvThroughout(c, s, steps) && After(c, s, steps).Some?
    ensures ExclusionInv(After(c, s, steps).value)
  {
  }

  /** Whenever Sentinel scans, no stamped close has outlived its lock. This is less than
      asking that every close end within the timeout of its lock. */
  predicate Timely(c: Config, s: State) {
    SentinelTask in s.draining
    || forall i :: 0 <= i < |s.closes| && s.closes[i].stamp.Some? ==> !Expired(c, s.closes[i].stamp.value, s.clock)
  }

  /** Every state on the way, ends included, is timely. */
  predicate TimelyRun(c: Config, s: State, steps: seq<Step>) {
    && (After(c, s, steps).Some? ==> Timely(c, After(c, s, steps).value))
    && (|steps| > 0 ==> TimelyRun(c, s, steps[..|steps| - 1]))
  }

  /** The Reconciler may adopt and drop as it likes, except drop or replace a record a
      close is under way for, and adopt the symbol being opened. */
  ghost predicate KeepsOff(s: State, step: Step) {
    && (step.ReconcileRemove? ==> !Served(s, step.sym))
    && (step.ReconcileInsert? && s.adopting.Some? ==> !Served(s, s.adopting.value) && s.opening != s.adopting)
  }

  ghost predicate ReconcilerKeepsOff(c: Config, s: State, steps: seq<Step>) {
    |steps| > 0 ==>
      var p := steps[..|steps| - 1];
      ReconcilerKeepsOff(c, s, p) && (After(c, s, p).Some? ==> KeepsOff(After(c, s, p).value, steps[|steps| - 1]))
  }

  /** Sentinel breaks the lock of a close under way exactly when one is late. */
  lemma LateIff(c: Config, s: State)
    requires ExclusionInv(s) && c.atomicCheck
    ensures (exists sym :: Enabled(c, s, ForceUnlock(sym)) && Served(s, sym)) <==> !Timely(c, s)
  {
    forall sym | Enabled(c, s, ForceUnlock(sym)) && Served(s, sym) ensures !Timely(c, s) {
      var i :| 0 <= i < |s.closes| && s.closes[i].sym == sym;
      assert OwnsLock(s, s.closes[i]);
    }
    if !Timely(c, s) {
      var i :| 0 <= i < |s.closes| && s.closes[i].stamp.Some? && Expired(c, s.closes[i].stamp.value, s.clock);
      assert OwnsLock(s, s.closes[i]);
      assert Enabled(c, s, ForceUnlock(s.closes[i].sym)) && Served(s, s.closes[i].sym);
    }
  }

  lemma OrderlyIsHarmless(c: Config, s: State, step: Step)
    requires ExclusionInv(s) && Enabled(c, s, step) && c.atomicCheck && Timely(c, s) && KeepsOff(s, step)
    ensures Harmless(c, s, step)
  {
    LateIff(c, s);
  }

  /** Every lock has a close under way. */
  ghost predicate NoStrayLock(s: State) {
    forall sym :: sym in s.book && s.book[sym].closing ==> Served(s, sym)
  }

  lemma EndLeavesNoStray(s: State, i: nat, t: State)
    requires NoStrayLock(s) && Ended(s, i, t)
    ensures NoStrayLock(t)
  {
    forall sym | sym in t.book && t.book[sym].closing ensures Served(t, sym) {
      var j :| 0 <= j < |s.closes| && s.closes[j].sym == sym;
      var k := if j < i then j else j - 1;
      WithoutAt(s.closes, i, k);
      assert t.closes[k].sym == sym;
    }
  }

  /** Closes stay, and whatever is locked anew has one. */
  lemma OthersLeaveNoStray(s: State, t: State)
    requires NoStrayLock(s) && |s.closes| <= |t.closes|
    requires forall i :: 0 <= i < |s.closes| ==> t.closes[i].sym == s.closes[i].sym
    requires forall sym :: sym in t.book && t.book[sym].closing ==> (sym in s.book && s.book[sym].closing) || Served(t, sym)
    ensures NoStrayLock(t)
  {
    forall sym | sym in s.book && s.book[sym].closing ensures Served(t, sym) {
      var j :| 0 <= j < |s.closes| && s.closes[j].sym == sym;
      assert t.closes[j].sym == sym;
    }
  }

  lemma OthersStrayNothing(c: Config, s: State, step: Step)
    requires ExclusionInv(s) && NoStrayLock(s) && Enabled(c, s, step) && !step.Suppress?
    ensures NoStrayLock(Next(c, s, step))
  {
    var t := Next(c, s, step);
    assert step.Stamp? ==> OwnsLock(s, s.closes[step.i]);
    if EndStep(step) {
      EndStepEnds(c, s, step);
      hide Next;
      EndLeavesNoStray(s, step.i, t);
    } else {
      hide ExclusionInv;
      hide NoStrayLock;
      hide Pinned;
      if step.Cas? { assert t.closes[|s.closes|].sym == step.sym; }
      OthersLeaveNoStray(s, t);
    }
  }

  /** A close suppressed in a dry run leaves its lock behind. */
  lemma SuppressStrays(c: Config, s: State, i: nat)
    requires ExclusionInv(s) && Enabled(c, s, Suppress(i))
    ensures var sym, t := s.closes[i].sym, Next(c, s, Suppress(i));
      sym in t.book && t.book[sym] == s.book[sym] && t.book[sym].closing && !Served(t, sym)
  {
    assert OwnsLock(s, s.closes[i]);
    var t := Next(c, s, Suppress(i));
    forall j | 0 <= j < |t.closes| ensures t.closes[j].sym != s.closes[i].sym {
      WithoutAt(s.closes, i, j);
      var k := Before(i, j);
      assert if k < i then s.closes[k].sym != s.closes[i].sym else s.closes[i].sym != s.closes[k].sym;
    }
  }

  /** Exactly one kind of step ever leaves a lock stray: the executor's early return
      in a dry run, for an order that RiskGuard or TrendProcessor had locked for. */
  lemma StrayExact(c: Config, s: State, step: Step)
    requires ExclusionInv(s) && NoStrayLock(s) && Enabled(c, s, step)
    ensures NoStrayLock(Next(c, s, step)) <==> !step.Suppress?
  {
    if step.Suppress? {
      SuppressStrays(c, s, step.i);
    } else {
      OthersStrayNothing(c, s, step);
    }
  }

  /** And a stray lock goes only when Sentinel breaks it or the Reconciler drops or
      replaces its record: no task can lock it, and no close will release it. */
  lemma StrayStays(c: Config, s: State, step: Step, sym: string)
    requires ExclusionInv(s) && Enabled(c, s, step) && sym in s.book && s.book[sym].closing && !Served(s, sym)
    ensures var t := Next(c, s, step);
      || (sym in t.book && t.book[sym] == s.book[sym] && !Served(t, sym))
      || step == ForceUnlock(sym) || (step.DecideStale? && s.seen.value.0 == sym)
      || step == ReconcileRemove(sym) || (step.ReconcileInsert? && s.adopting.value == sym)
  {
    StrayUnserved(c, s, step, sym);
    assert step.Stamp? ==> s.closes[step.i].sym != sym;
    assert EndStep(step) ==> s.closes[step.i].sym != sym;
    assert step.OpenDone? ==> s.opening.value != sym;
    hide ExclusionInv;
    hide Served;
    hide Pinned;
  }

  lemma StrayUnserved(c: Config, s: State, step: Step, sym: string)
    requires Enabled(c, s, step) && sym in s.book && s.book[sym].closing && !Served(s, sym)
    ensures !Served(Next(c, s, step), sym)
  {
    var t := Next(c, s, step);
    assert forall i :: 0 <= i < |s.closes| ==> s.closes[i].sym != sym;
    hide Pinned;
    forall j | 0 <= j < |t.closes| ensures t.closes[j].sym != sym {
      if EndStep(step) || step.Suppress? { WithoutAt(s.closes, step.i, j); }
    }
  }

  lemma OrderlyStep(c: Config, s: State, step: Step)
    requires ExclusionInv(s) && Enabled(c, s, step) && c.atomicCheck && Timely(c, s) && KeepsOff(s, step)
    ensures ExclusionInv(Next(c, s, step)) && Harmless(c, s, step)
    ensures NoStrayLock(s) ==> !step.ForceUnlock? && (NoStrayLock(Next(c, s, step)) <==> !step.Suppress?)
  {
    OrderlyIsHarmless(c, s, step);
    HarmlessKeeps(c, s, step);
    if NoStrayLock(s) { StrayExact(c, s, step); }
  }

  /** Sentinel breaks no lock. */
  predicate NeverForced(steps: seq<Step>) { forall k :: 0 <= k < |steps| ==> !steps[k].ForceUnlock? }

  /** The executor suppresses no order that RiskGuard or TrendProcessor locked for. */
  predicate NeverSuppressed(steps: seq<Step>) { forall k :: 0 <= k < |steps| ==> !steps[k].Suppress? }

  /** No lock is stray at the end or in any state on the way. */
  ghost predicate NeverStray(c: Config, s: State, steps: seq<Step>) {
    && (After(c, s, steps).Some? ==> NoStrayLock(After(c, s, steps).value))
    && (|steps| > 0 ==> NeverStray(c, s, steps[..|steps| - 1]))
  }

  /** If Sentinel's check is atomic, its scans find every close on time and the
      Reconciler keeps off the records being closed or opened, then in every
      interleaving, dry or not, at most one close per position is queued or
      executing and owns its lock; every lock has its close throughout exactly if no
      close was suppressed; and then Sentinel never breaks a lock. */
  lemma {:induction false} MutualExclusion(c: Config, s: State, steps: seq<Step>)
    requires Init(s) && c.atomicCheck
    requires After(c, s, steps).Some? && TimelyRun(c, s, steps) && ReconcilerKeepsOff(c, s, steps)
    ensures ExclusionInv(After(c, s, steps).value) && HarmlessRun(c, s, steps)
    ensures NeverStray(c, s, steps) <==> NeverSuppressed(steps)
    ensures NeverSuppressed(steps) ==> NeverForced(steps)
    decreases |steps|
  {
    if |steps| == 0 {
      StartIsOrderly(c, s, steps);
    } else {
      var p, step := steps[..|steps| - 1], steps[|steps| - 1];
      OrderlyParts(c, s, steps);
      MutualExclusion(c, s, p);
      StrayParts(c, s, steps);
      OutcomeParts(c, s, steps);
      hide NeverForced;
      hide NeverSuppressed;
      hide NeverStray;
      hide HarmlessRun;
      hide ExclusionInv;
      hide NoStrayLock;
      hide Timely;
      hide TimelyRun;
      hide KeepsOff;
      hide ReconcilerKeepsOff;
      hide Harmless;
      hide After;
      hide Next;
      hide Enabled;
      OrderlyStep(c, After(c, s, p).value, step);
    }
  }

  lemma StartIsOrderly(c: Config, s: State, steps: seq<Step>)
    requires Init(s) && |steps| == 0
    ensures After(c, s, steps) == Some(s) && ExclusionInv(s) && HarmlessRun(c, s, steps)
    ensures NeverStray(c, s, steps) && NeverSuppressed(steps) && NeverForced(steps)
  {
  }

  lemma OutcomeParts(c: Config, s: State, steps: seq<Step>)
    requires |steps| > 0
    ensures var p, step := steps[..|steps| - 1], steps[|steps| - 1];
      && (NeverForced(steps) <==> NeverForced(p) && !step.ForceUnlock?)
      && (NeverSuppressed(steps) <==> NeverSuppressed(p) && !step.Suppress?)
      && (HarmlessRun(c, s, steps) <==>
            HarmlessRun(c, s, p) && (After(c, s, p).Some? ==> Harmless(c, After(c, s, p).value, step)))
  {
    var p := steps[..|steps| - 1];
    hide After;
    hide Harmless;
    assert steps == p + [steps[|steps| - 1]];
  }

  lemma StrayParts(c: Config, s: State, steps: seq<Step>)
    requires After(c, s, steps).Some? && |steps| > 0
    ensures var p := steps[..|steps| - 1];
      && (NeverStray(c, s, steps) <==> NeverStray(c, s, p) && NoStrayLock(After(c, s, steps).value))
      && (NeverStray(c, s, p) ==> After(c, s, p).Some? && NoStrayLock(After(c, s, p).value))
  {
    hide NoStrayLock;
    hide Next;
    hide Enabled;
  }

  /** The last step of an orderly run, and the run before it. */
  lemma OrderlyParts(c: Config, s: State, steps: seq<Step>)
    requires After(c, s, steps).Some? && TimelyRun(c, s, steps) && ReconcilerKeepsOff(c, s, steps) && |steps| > 0
    ensures var p, step := steps[..|steps| - 1], steps[|steps| - 1];
      && After(c, s, p).Some? && TimelyRun(c, s, p) && ReconcilerKeepsOff(c, s, p)
      && Timely(c, After(c, s, p).value) && KeepsOff(After(c, s, p).value, step)
      && Enabled(c, After(c, s, p).value, step) && After(c, s, steps) == Some(Next(c, After(c, s, p).value, step))
  {
    hide Timely;
    hide KeepsOff;
    hide Next;
    hide Enabled;
  }

  /** What the executor then does at the end of a close hits the record it was
      ordered for, and an open never overwrites a record. */
  lemma EndsHitTheirOwnRecord(c: Config, s: State, steps: seq<Step>)
    requires Init(s) && c.atomicCheck
    requires After(c, s, steps).Some? && TimelyRun(c, s, steps) && ReconcilerKeepsOff(c, s, steps)
    ensures var t := After(c, s, steps).value;
      && Exclusive(t)
      && (forall i :: 0 <= i < |t.closes| ==> t.closes[i].sym in t.book && t.book[t.closes[i].sym].gen == t.closes[i].gen)
      && (t.opening.Some? ==> t.opening.value !in t.book)
  {
    MutualExclusion(c, s, steps);
    var t := After(c, s, steps).value;
    forall i | 0 <= i < |t.closes| ensures t.closes[i].sym in t.book && t.book[t.closes[i].sym].gen == t.closes[i].gen {
      assert OwnsLock(t, t.closes[i]);
    }
  }
}
