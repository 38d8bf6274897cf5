// The close lock under all interleavings of RiskGuard, Sentinel, TrendProcessor,
// the Executor's last step of every close, and the Reconciler.
module CloseProtocol {
  import opened Models

  datatype Task = GuardTask | SentinelTask | TrendTask

  /** What the protocol needs of a record. `gen` tells records of one symbol apart over time. */
  datatype Rec = Rec(gen: nat, closing: bool, startedAt: nat)

  /** A close from the successful compare-and-swap until the executor is done
      with it; `stamp` is the lock time, once it has been stored. */
  datatype Close = Close(task: Task, sym: string, gen: nat, stamp: Option<nat>)

  datatype State = State(
    clock: nat,
    book: map<string, Rec>,
    closes: seq<Close>,               // every task's queue, in the order the locks were taken
    draining: set<Task>,              // tasks executing their queue; the others are scanning
    opening: Option<string>,          // TrendProcessor is placing an open order for this symbol
    seen: Option<(string, nat)>,      // Sentinel has read a lock time and not acted on it yet
    adopting: Option<string>,         // the Reconciler has found no record of this symbol and will insert one
    nextGen: nat,
    locks: multiset<nat>,             // one entry per successful lock of a record
    clears: multiset<nat>             // one entry per `is_closing := false` store into a record
  )

  /** `atomicCheck`: Sentinel's timeout check and unlock happen in one step. */
  datatype Config = Config(timeout: nat, atomicCheck: bool, dryRun: bool)

  datatype Step =
    | Advance(to: nat)                   // time passes
    | Cas(task: Task, sym: string)       // the compare-and-swap of `try_lock_for_close` succeeds
    | Stamp(i: nat)                      // ... and its lock time is stored
    | Drain(task: Task)                  // a task turns from scanning to executing its queue
    | Scan(task: Task)                   // ... and back, the queue being empty
    | Succeed(i: nat)                    // the executor finishes a close and removes the record
    | Fail(i: nat)                       // the executor gives a close up and unlocks
    | Suppress(i: nat)                   // running dry, the executor returns at once
    | TakeBack(i: nat)                   // running dry, Sentinel unlocks what it has just locked
    | ForceUnlock(sym: string)           // Sentinel finds an expired lock and breaks it, in one step
    | ReadStart(sym: string)             // Sentinel reads a lock time ...
    | DecideStale                        // ... and acts on what it read
    | OpenBegin(sym: string)             // TrendProcessor finds the symbol free
    | OpenDone                           // the executor inserts the opened record
    | OpenAbort                          // the open came to nothing
    | ReconcileRemove(sym: string)       // the Reconciler drops a record
    | ReconcileLook(sym: string)         // ... finds a position without a record
    | ReconcileInsert                    // ... and inserts one, whatever is there by then

  /** A task holds the map's guard on this symbol, so the record can be neither removed nor replaced. */
  predicate Pinned(s: State, sym: string) {
    || (exists i :: 0 <= i < |s.closes| && s.closes[i].sym == sym && s.closes[i].stamp == None)
    || (s.seen.Some? && s.seen.value.0 == sym)
  }

  predicate Stamped(s: State, task: Task) {
    forall i :: 0 <= i < |s.closes| && s.closes[i].task == task ==> s.closes[i].stamp.Some?
  }

  predicate QueueEmpty(s: State, task: Task) {
    forall i :: 0 <= i < |s.closes| ==> s.closes[i].task != task
  }

  /** A task executes its orders one after another, in queue order. */
  predicate Head(s: State, i: nat) {
    && i < |s.closes| && s.closes[i].task in s.draining && s.closes[i].stamp.Some?
    && forall j :: 0 <= j < i ==> s.closes[j].task != s.closes[i].task
  }

  predicate Expired(c: Config, startedAt: nat, clock: nat) { startedAt > 0 && clock > startedAt + c.timeout }

  predicate Enabled(c: Config, s: State, step: Step) {
    match step
    case Advance(to) => s.clock <= to
    case Cas(task, sym) =>
      && sym in s.book && !s.book[sym].closing && task !in s.draining && Stamped(s, task)
      && (task == SentinelTask ==> s.seen == None)
      && (task == GuardTask ==> !Pinned(s, sym))
      && (task == TrendTask ==> s.opening == None && QueueEmpty(s, TrendTask))
    case Stamp(i) =>
      && i < |s.closes| && s.closes[i].stamp == None
      && s.closes[i].sym in s.book && s.book[s.closes[i].sym].gen == s.closes[i].gen
    case Drain(task) => task !in s.draining && Stamped(s, task) && (task == SentinelTask ==> s.seen == None)
    case Scan(task) => task in s.draining && QueueEmpty(s, task)
    case Succeed(i) => !c.dryRun && Head(s, i) && !Pinned(s, s.closes[i].sym)
    case Fail(i) => !c.dryRun && Head(s, i)
    case Suppress(i) => c.dryRun && Head(s, i) && s.closes[i].task != SentinelTask
    case TakeBack(i) =>
      c.dryRun && i < |s.closes| && s.closes[i].task == SentinelTask && s.closes[i].stamp.Some?
    case ForceUnlock(sym) =>
      && c.atomicCheck && SentinelTask !in s.draining && sym in s.book
      && s.book[sym].closing && Expired(c, s.book[sym].startedAt, s.clock)
    case ReadStart(sym) =>
      && !c.atomicCheck && SentinelTask !in s.draining && s.seen == None && Stamped(s, SentinelTask)
      && sym in s.book && s.book[sym].closing && s.book[sym].startedAt > 0
    case DecideStale => !c.atomicCheck && s.seen.Some? && s.seen.value.0 in s.book
    case OpenBegin(sym) =>
      s.opening == None && TrendTask !in s.draining && QueueEmpty(s, TrendTask) && sym !in s.book
    case OpenDone => s.opening.Some? && !Pinned(s, s.opening.value)
    case OpenAbort => s.opening.Some?
    case ReconcileRemove(sym) => s.adopting == None && sym in s.book && !Pinned(s, sym)
    case ReconcileLook(sym) => s.adopting == None && sym !in s.book
    case ReconcileInsert => s.adopting.Some? && !Pinned(s, s.adopting.value)
  }

  function Without(xs: seq<Close>, i: nat): seq<Close>
    requires i < |xs|
  {
    xs[..i] + xs[i + 1..]
  }

  /** `unlock_close` on whatever record the symbol has now. */
  function Cleared(s: State, sym: string): State {
    if sym !in s.book then s
    else s.(book := s.book[sym := Rec(s.book[sym].gen, false, 0)], clears := s.clears + multiset{s.book[sym].gen})
  }

  function Added(s: State, sym: string): State {
    s.(book := s.book[sym := Rec(s.nextGen, false, 0)], nextGen := s.nextGen + 1)
  }

  function Next(c: Config, s: State, step: Step): State
    requires Enabled(c, s, step)
  {
    match step
    case Advance(to) => s.(clock := to)
    case Cas(task, sym) =>
      var g := s.book[sym].gen;
      s.(book := s.book[sym := s.book[sym].(closing := true)],
         closes := s.closes + [Close(task, sym, g, None)],
         locks := s.locks + multiset{g})
    case Stamp(i) =>
      var sym := s.closes[i].sym;
      s.(book := s.book[sym := s.book[sym].(startedAt := s.clock)],
         closes := s.closes[i := s.closes[i].(stamp := Some(s.clock))])
    case Drain(task) => s.(draining := s.draining + {task})
    case Scan(task) => s.(draining := s.draining - {task})
    case Succeed(i) => s.(book := s.book - {s.closes[i].sym}, closes := Without(s.closes, i))
    case Fail(i) => Cleared(s, s.closes[i].sym).(closes := Without(s.closes, i))
    case Suppress(i) => s.(closes := Without(s.closes, i))
    case TakeBack(i) => Cleared(s, s.closes[i].sym).(closes := Without(s.closes, i))
    case ForceUnlock(sym) => Cleared(s, sym)
    case ReadStart(sym) => s.(seen := Some((sym, s.book[sym].startedAt)))
    case DecideStale =>
      var (sym, startedAt) := s.seen.value;
      (if Expired(c, startedAt, s.clock) then Cleared(s, sym) else s).(seen := None)
    case OpenBegin(sym) => s.(opening := Some(sym))
    case OpenDone => Added(s, s.opening.value).(opening := None)
    case OpenAbort => s.(opening := None)
    case ReconcileRemove(sym) => s.(book := s.book - {sym})
    case ReconcileLook(sym) => s.(adopting := Some(sym))
    case ReconcileInsert => Added(s, s.adopting.value).(adopting := None)
  }

  /** After start-up synchronisation: unlocked records, nothing queued. */
  predicate Init(s: State) {
    && s.closes == [] && s.draining == {} && s.opening == None && s.seen == None && s.adopting == None
    && s.locks == multiset{} && s.clears == multiset{}
    && (forall sym :: sym in s.book ==>
          s.book[sym].gen < s.nextGen && !s.book[sym].closing && s.book[sym].startedAt == 0)
    && (forall a, b :: a in s.book && b in s.book && a != b ==> s.book[a].gen != s.book[b].gen)
  }

  /** The state a list of steps leads to; None when one of them cannot be taken. */
  function After(c: Config, s: State, steps: seq<Step>): Option<State> {
    if |steps| == 0 then Some(s)
    else
      var step := steps[|steps| - 1];
      match After(c, s, steps[..|steps| - 1])
      case Some(m) => if Enabled(c, m, step) then Some(Next(c, m, step)) else None
      case None => None
  }

  // ---------------------------------------------- how often a record is locked

  function GenList(xs: seq<Close>): (gs: seq<nat>)
    ensures |gs| == |xs| && forall i :: 0 <= i < |xs| ==> gs[i] == xs[i].gen
  {
    seq(|xs|, i requires 0 <= i < |xs| => xs[i].gen)
  }

  /** Which records the closes under way belong to, with multiplicity. */
  function GensOf(xs: seq<Close>): multiset<nat> { multiset(GenList(xs)) }

  ghost predicate DistinctGens(book: map<string, Rec>, nextGen: nat) {
    && (forall sym :: sym in book ==> book[sym].gen < nextGen)
    && (forall a, b :: a in book && b in book && a != b ==> book[a].gen != book[b].gen)
  }

  ghost predicate WithinBudget(book: map<string, Rec>, locks: multiset<nat>, clears: multiset<nat>) {
    forall sym :: sym in book ==>
      locks[book[sym].gen] <= clears[book[sym].gen] + if book[sym].closing then 1 else 0
  }

  /** Holds of every reachable state, whatever the configuration: locking can
      never run ahead of unlocking by more than one, record by record. */
  ghost predicate BudgetInv(s: State) {
    && DistinctGens(s.book, s.nextGen)
    && WithinBudget(s.book, s.locks, s.clears)
    && (forall g :: s.locks[g] <= s.clears[g] + 1)
    && (forall g :: g >= s.nextGen ==> s.locks[g] == 0)
    && GensOf(s.closes) <= s.locks
  }

  lemma GensOfWithout(xs: seq<Close>, i: nat)
    requires i < |xs|
    ensures GensOf(Without(xs, i)) + multiset{xs[i].gen} == GensOf(xs)
  {
    var gs := GenList(xs);
    assert gs == gs[..i] + [gs[i]] + gs[i + 1..];
    assert GenList(Without(xs, i)) == gs[..i] + gs[i + 1..];
  }

  lemma GensOfStamp(xs: seq<Close>, i: nat, t: nat)
    requires i < |xs|
    ensures GensOf(xs[i := xs[i].(stamp := Some(t))]) == GensOf(xs)
  {
    assert GenList(xs[i := xs[i].(stamp := Some(t))]) == GenList(xs);
  }

  lemma CasWithinBudget(book: map<string, Rec>, nextGen: nat, locks: multiset<nat>, clears: multiset<nat>, sym: string)
    requires DistinctGens(book, nextGen) && WithinBudget(book, locks, clears)
    requires sym in book && !book[sym].closing
    ensures var book' := book[sym := book[sym].(closing := true)];
      DistinctGens(book', nextGen) && WithinBudget(book', locks + multiset{book[sym].gen}, clears)
  {
  }

  lemma BudgetCas(s: State, sym: string, x: Close)
    requires BudgetInv(s) && sym in s.book && !s.book[sym].closing && x.gen == s.book[sym].gen
    ensures BudgetInv(s.(book := s.book[sym := s.book[sym].(closing := true)],
                         closes := s.closes + [x], locks := s.locks + multiset{x.gen}))
  {
    CasWithinBudget(s.book, s.nextGen, s.locks, s.clears, sym);
    assert s.locks[x.gen] <= s.clears[x.gen];
    assert x.gen < s.nextGen;
    hide DistinctGens;
    hide WithinBudget;
    assert GenList(s.closes + [x]) == GenList(s.closes) + [x.gen];
  }

  lemma BudgetStamp(s: State, sym: string, i: nat)
    requires BudgetInv(s) && sym in s.book && i < |s.closes|
    ensures BudgetInv(s.(book := s.book[sym := s.book[sym].(startedAt := s.clock)],
                         closes := s.closes[i := s.closes[i].(stamp := Some(s.clock))]))
  {
    GensOfStamp(s.closes, i, s.clock);
  }

  lemma BudgetCleared(s: State, sym: string)
    requires BudgetInv(s)
    ensures BudgetInv(Cleared(s, sym)) && Cleared(s, sym).closes == s.closes
  {
  }

  lemma BudgetAdded(s: State, sym: string)
    requires BudgetInv(s)
    ensures BudgetInv(Added(s, sym))
  {
  }

  lemma BudgetRemoved(s: State, sym: string)
    requires BudgetInv(s)
    ensures BudgetInv(s.(book := s.book - {sym}))
  {
  }

  lemma BudgetDone(s: State, i: nat)
    requires BudgetInv(s) && i < |s.closes|
    ensures BudgetInv(s.(closes := Without(s.closes, i)))
  {
    GensOfWithout(s.closes, i);
  }

  lemma BudgetInvInductive(c: Config, s: State, step: Step)
    requires BudgetInv(s) && Enabled(c, s, step)
    ensures BudgetInv(Next(c, s, step))
  {
    hide GensOf;
    hide WithinBudget;
    hide DistinctGens;
    match step
    case Cas(task, sym) => BudgetCas(s, sym, Close(task, sym, s.book[sym].gen, None));
    case Stamp(i) => BudgetStamp(s, s.closes[i].sym, i);
    case Succeed(i) =>
      BudgetRemoved(s, s.closes[i].sym);
      BudgetDone(s.(book := s.book - {s.closes[i].sym}), i);
    case Fail(i) =>
      BudgetCleared(s, s.closes[i].sym);
      BudgetDone(Cleared(s, s.closes[i].sym), i);
    case Suppress(i) => BudgetDone(s, i);
    case TakeBack(i) =>
      BudgetCleared(s, s.closes[i].sym);
      BudgetDone(Cleared(s, s.closes[i].sym), i);
    case ForceUnlock(sym) => BudgetCleared(s, sym);
    case DecideStale => BudgetCleared(s, s.seen.value.0);
    case OpenDone => BudgetAdded(s, s.opening.value);
    case ReconcileRemove(sym) => BudgetRemoved(s, sym);
    case ReconcileInsert => BudgetAdded(s, s.adopting.value);
    case _ =>
  }

  lemma {:induction false} BudgetInvHolds(c: Config, s: State, steps: seq<Step>)
    requires Init(s) && After(c, s, steps).Some?
    ensures BudgetInv(After(c, s, steps).value)
    decreases |steps|
  {
    if |steps| > 0 {
      var p := steps[..|steps| - 1];
      BudgetInvHolds(c, s, p);
      BudgetInvInductive(c, After(c, s, p).value, steps[|steps| - 1]);
    }
  }

  /** In every interleaving, dry run or not, with or without the Reconciler: a
      record has been locked at most once more than it has been unlocked, and no
      more closes of it are under way than times it was locked. */
  lemma LockBudget(c: Config, s: State, steps: seq<Step>, gen: nat)
    requires Init(s) && After(c, s, steps).Some?
    ensures var t := After(c, s, steps).value;
      GensOf(t.closes)[gen] <= t.locks[gen] <= t.clears[gen] + 1
  {
    BudgetInvHolds(c, s, steps);
  }
}
