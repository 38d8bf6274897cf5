// The lock protocol and the exchange together: the book, the closes under way and
// the true exposure of every symbol, over whole runs.
module Exposure {
  import opened Reals
  import opened Series
  import opened Models
  import opened CloseProtocol
  import opened CloseExclusion
  import opened Executor
  import opened CloseSafety

  /** What happens on the market along with a step of the protocol. */
  datatype Market =
    | Quiet
    | Closes(reason: Reason, w: World, fs: seq<Fill>)    // a close is over: what it was told and what it filled
    | Opens(o: OpenOrder, w: World, fs: seq<Fill>)       // an open is over, likewise
    | Remote(sym: string, amt: real)                     // the Reconciler writes the amount the exchange reports

  datatype Act = Act(step: Step, mark: Market)

  datatype Joint = Joint(
    core: State,
    exposure: map<string, real>,      // the true signed position; none means flat
    amount: map<string, real>,        // `position_amt` of the symbol's record
    ordered: map<string, real>,       // the quantity the close under way was ordered for
    closed: map<string, real>         // total quantity of the closes that removed a record
  )

  function At(m: map<string, real>, sym: string): real { if sym in m then m[sym] else 0.0 }

  /** The order of a close under way: for the amount its record had when it was locked. */
  function OrderOf(j: Joint, sym: string, reason: Reason): CloseOrder {
    CloseOrder(sym, At(j.ordered, sym), 0.0, reason)
  }

  function TakerId(o: CloseOrder, w: World): nat { if CloseTried(o, w) then 1 else 0 }

  /** Exposure after the fills of this close; they must be permitted. */
  function AfterClose(j: Joint, o: CloseOrder, w: World, fs: seq<Fill>): Option<real> {
    AfterAll(At(j.exposure, o.symbol), ClosePlaced(o, w), fs)
  }

  function AfterOpen(j: Joint, o: OpenOrder, w: World, fs: seq<Fill>): Option<real> {
    AfterAll(At(j.exposure, o.symbol), OpenPlaced(o, w), fs)
  }

  /** The executor and the Reconciler act on the market as the step says. */
  predicate Fits(c: Config, j: Joint, a: Act)
    requires Enabled(c, j.core, a.step)
  {
    match a.step
    case Succeed(i) => CloseFits(j, j.core.closes[i].sym, a.mark, true)
    case Fail(i) => CloseFits(j, j.core.closes[i].sym, a.mark, false)
    case OpenDone => OpenFits(j, j.core.opening.value, a.mark, true)
    case OpenAbort => a.mark.Quiet? || OpenFits(j, j.core.opening.value, a.mark, false)
    case ReconcileInsert => a.mark.Remote? && a.mark.sym == j.core.adopting.value
    case Advance(_) => a.mark.Quiet? || (a.mark.Remote? && a.mark.sym in j.core.book)
    case _ => a.mark.Quiet?
  }

  predicate CloseFits(j: Joint, sym: string, mark: Market, removes: bool) {
    mark.Closes? &&
    var o := OrderOf(j, sym, mark.reason);
    AfterClose(j, o, mark.w, mark.fs).Some? && Removes(o, mark.w) == removes
  }

  predicate OpenFits(j: Joint, sym: string, mark: Market, records: bool) {
    mark.Opens? && mark.o.symbol == sym && mark.o.qty > 0.0 && Recorded(mark.o, mark.w).Some? == records
    && AfterOpen(j, mark.o, mark.w, mark.fs).Some? && OpenFilled(mark.o, mark.w, mark.fs)
  }

  function Played(c: Config, j: Joint, a: Act): Joint
    requires Enabled(c, j.core, a.step) && Fits(c, j, a)
  {
    var core := Next(c, j.core, a.step);
    match a.mark
    case Quiet =>
      if a.step.Cas? then j.(core := core, ordered := j.ordered[a.step.sym := At(j.amount, a.step.sym)]) else j.(core := core)
    case Closes(reason, w, fs) =>
      var sym := j.core.closes[a.step.i].sym;
      var o := OrderOf(j, sym, reason);
      j.(core := core, exposure := j.exposure[sym := AfterClose(j, o, w, fs).value],
         closed := if a.step.Succeed? then j.closed[sym := At(j.closed, sym) + Abs(o.qty)] else j.closed)
    case Opens(o, w, fs) =>
      j.(core := core, exposure := j.exposure[o.symbol := AfterOpen(j, o, w, fs).value],
         amount := j.amount[o.symbol := Signed(o, RecordedQty(o, w))])
    case Remote(sym, amt) =>
      j.(core := core, amount := j.amount[sym := amt])
  }

  /** Replies tell the truth: a status reports no more than the maker filled, or for an
      open all of it; a market order that reports success is complete, an open's that
      reports an error did nothing; what the Reconciler goes by is current. */
  predicate Honest(j: Joint, a: Act) {
    match a.mark
    case Quiet => a.step.ReconcileRemove? ==> At(j.exposure, a.step.sym) == 0.0
    case Closes(reason, w, fs) =>
      (a.step.Succeed? || a.step.Fail?) && a.step.i < |j.core.closes| &&
      HonestClose(j, OrderOf(j, j.core.closes[a.step.i].sym, reason), w, fs)
    case Opens(o, w, _) => HonestOpen(o, w)
    case Remote(sym, amt) => amt == At(j.exposure, sym) && OnGrid(Abs(amt))
  }

  predicate HonestClose(j: Joint, o: CloseOrder, w: World, fs: seq<Fill>) {
    && OnGrid(CloseSeen(o, w)) && StatusHonest(o, w, fs, 0)
    && var x := AfterClose(j, o, w, fs); x.Some? ==> TakerComplete(o, w, x.value, fs, TakerId(o, w))
  }

  predicate HonestOpen(o: OpenOrder, w: World) {
    var tried := OpenTried(o, w);
    && OnGrid(o.qty) && OnGrid(OpenSeen(o, w)) && TakerHonest(o.qty, w, tried)
    && (tried ==> OpenSeen(o, w) == w.makerFill)
  }

  // ------------------------------------------------------------- invariant

  /** Between flat and `a`, give or take `d`. */
  predicate Within(e: real, a: real, d: real) { Min(a, 0.0) - d <= e <= Max(a, 0.0) + d }

  /** A thousandth of everything ever closed. */
  function Dust(j: Joint, sym: string): real { 0.001 * At(j.closed, sym) }

  predicate SymbolInv(j: Joint, sym: string) {
    && 0.0 <= Dust(j, sym)
    && if sym in j.core.book
       then Within(At(j.exposure, sym), At(j.amount, sym), Dust(j, sym)) && OnGrid(Abs(At(j.amount, sym)))
       else Abs(At(j.exposure, sym)) <= Dust(j, sym)
  }

  /** The order of a close under way covers the exposure. */
  predicate OrderInv(j: Joint, sym: string) {
    Within(At(j.exposure, sym), At(j.ordered, sym), Dust(j, sym)) && OnGrid(Abs(At(j.ordered, sym)))
  }

  ghost predicate JointInv(j: Joint) {
    && ExclusionInv(j.core)
    && (forall sym :: SymbolInv(j, sym))
    && (forall sym :: Served(j.core, sym) ==> OrderInv(j, sym))
  }

  /** Reducing keeps the exposure within any bound around flat. */
  lemma ReducedWithin(x: real, e: real, a: real, d: real)
    requires NoFurther(x, e) && Within(e, a, d) && 0.0 <= d
    ensures Within(x, a, d)
  {
  }

  /** A close that removes its record leaves what dust there was and a thousandth of its
      own quantity at most. */
  lemma FinishedWithin(o: CloseOrder, w: World, e: real, fs: seq<Fill>, d: real)
    requires AfterAll(e, ClosePlaced(o, w), fs).Some? && Within(e, o.qty, d) && 0.0 <= d
    requires OnGrid(Abs(o.qty)) && OnGrid(CloseSeen(o, w)) && StatusHonest(o, w, fs, 0)
    requires TakerComplete(o, w, AfterAll(e, ClosePlaced(o, w), fs).value, fs, TakerId(o, w)) && Removes(o, w)
    ensures Abs(AfterAll(e, ClosePlaced(o, w), fs).value) <= d + 0.001 * Abs(o.qty)
  {
    var orders, ti := ClosePlaced(o, w), TakerId(o, w);
    OwnOrders(o, w);
    ClosesOnlyReduce(e, orders, fs);
    MakerThenTaker(o, w, e, orders, fs, 0, ti);
    GridDifference(Abs(o.qty), CloseSeen(o, w));
    assert CloseTaker(o, w).size == Abs(o.qty) - CloseSeen(o, w);
    FinishedSum(e, AfterAll(e, orders, fs).value, o.qty, d, MakerFilled(o, w, fs, 0), CloseSeen(o, w), FilledOf(fs, ti),
                Total(fs), CloseTakerTried(o, w));
  }

  lemma FinishedSum(e: real, x: real, q: real, d: real, made: real, seen: real, taken: real, total: real, market: bool)
    requires NoFurther(x, e) && Abs(x) == Abs(e) - total && Within(e, q, d) && 0.0 <= d
    requires seen <= made <= total && (market ==> made + taken <= total)
    requires market ==> taken >= Abs(q) - seen || Available(x, q > 0.0) == 0.0
    requires !market ==> Abs(q) - seen <= 0.001 * Abs(q)
    ensures Abs(x) <= d + 0.001 * Abs(q)
  {
  }

  // ------------------------------------------------------ every step keeps it

  /** The symbol a step brings into the book. */
  function Entering(s: State, step: Step): Option<string> {
    if step.OpenDone? then s.opening else if step.ReconcileInsert? then s.adopting else None
  }

  /** The symbol a step takes out of the book. */
  function Leaving(s: State, step: Step): Option<string> {
    if step.ReconcileRemove? then Some(step.sym)
    else if step.Succeed? && step.i < |s.closes| then Some(s.closes[step.i].sym)
    else None
  }

  /** The symbol a market event is about. */
  function About(j: Joint, a: Act): Option<string> {
    match a.mark
    case Quiet => None
    case Closes(_, _, _) =>
      if (a.step.Succeed? || a.step.Fail?) && a.step.i < |j.core.closes| then Some(j.core.closes[a.step.i].sym) else None
    case Opens(o, _, _) => Some(o.symbol)
    case Remote(s, _) => Some(s)
  }

  lemma BookChanges(c: Config, s: State, step: Step, sym: string)
    requires Enabled(c, s, step)
    ensures sym in Next(c, s, step).book <==>
      Entering(s, step) == Some(sym) || (sym in s.book && Leaving(s, step) != Some(sym))
  {
    hide Pinned;
    assert step.Stamp? ==> s.closes[step.i].sym in s.book;
  }

  lemma ServedChanges(c: Config, s: State, step: Step, sym: string)
    requires Enabled(c, s, step) && Served(Next(c, s, step), sym)
    ensures Served(s, sym) || (step.Cas? && step.sym == sym)
  {
    var t := Next(c, s, step);
    var j :| 0 <= j < |t.closes| && t.closes[j].sym == sym;
    hide Pinned;
    if EndStep(step) || step.Suppress? {
      WithoutAt(s.closes, step.i, j);
      assert s.closes[Before(step.i, j)].sym == sym;
    } else if j < |s.closes| {
      assert s.closes[j].sym == sym;
    }
  }

  lemma EndedUnserved(c: Config, s: State, step: Step)
    requires ExclusionInv(s) && Enabled(c, s, step) && EndStep(step)
    ensures !Served(Next(c, s, step), s.closes[step.i].sym)
  {
    var t := Next(c, s, step);
    EndStepEnds(c, s, step);
    forall j | 0 <= j < |t.closes| ensures t.closes[j].sym != s.closes[step.i].sym {
      EndedOthers(s, step.i, t, j);
    }
  }

  lemma QuietSame(c: Config, j: Joint, a: Act, sym: string)
    requires Enabled(c, j.core, a.step) && Fits(c, j, a) && a.mark.Quiet?
    ensures var t := Played(c, j, a);
      && t.core == Next(c, j.core, a.step)
      && t.exposure == j.exposure && t.amount == j.amount && t.closed == j.closed
      && At(t.ordered, sym) == (if a.step.Cas? && a.step.sym == sym then At(j.amount, sym) else At(j.ordered, sym))
      && Entering(j.core, a.step) == None && !a.step.Succeed?
  {
    hide Next;
    hide Pinned;
    hide AfterClose;
    hide Removes;
    hide Recorded;
  }

  /** A step that leaves the exposure alone; locking fixes the quantity to be closed. */
  lemma QuietKeeps(c: Config, j: Joint, a: Act, sym: string)
    requires JointInv(j) && Enabled(c, j.core, a.step) && Fits(c, j, a) && Honest(j, a) && a.mark.Quiet?
    ensures SymbolInv(Played(c, j, a), sym)
    ensures Served(Played(c, j, a).core, sym) ==> OrderInv(Played(c, j, a), sym)
  {
    var t := Played(c, j, a);
    QuietSame(c, j, a, sym);
    BookChanges(c, j.core, a.step, sym);
    if Served(t.core, sym) { ServedChanges(c, j.core, a.step, sym); }
    assert SymbolInv(j, sym);
    assert Served(j.core, sym) ==> OrderInv(j, sym);
    assert a.step.Cas? ==> a.step.sym in j.core.book;
    hide JointInv;
    hide Next;
    hide Enabled;
    hide Fits;
    hide Played;
    hide Served;
    hide OnGrid;
  }

  lemma SameSymbol(j: Joint, t: Joint, sym: string)
    requires At(t.exposure, sym) == At(j.exposure, sym) && At(t.amount, sym) == At(j.amount, sym)
    requires At(t.ordered, sym) == At(j.ordered, sym) && At(t.closed, sym) == At(j.closed, sym)
    requires sym in t.core.book <==> sym in j.core.book
    ensures (SymbolInv(j, sym) ==> SymbolInv(t, sym)) && (OrderInv(j, sym) ==> OrderInv(t, sym))
  {
    hide OnGrid;
  }

  lemma OthersSame(c: Config, j: Joint, a: Act, sym: string)
    requires Enabled(c, j.core, a.step) && Fits(c, j, a) && !a.mark.Quiet? && About(j, a) != Some(sym)
    ensures var t := Played(c, j, a);
      && At(t.exposure, sym) == At(j.exposure, sym) && At(t.amount, sym) == At(j.amount, sym)
      && At(t.ordered, sym) == At(j.ordered, sym) && At(t.closed, sym) == At(j.closed, sym)
      && Entering(j.core, a.step) != Some(sym) && Leaving(j.core, a.step) != Some(sym) && !a.step.Cas?
  {
    hide Next;
    hide AfterClose;
    hide Removes;
    hide Recorded;
    hide OpenFills;
    hide RecordedQty;
    hide Pinned;
  }

  /** The symbols a market event does not concern keep what they have. */
  lemma OthersKeep(c: Config, j: Joint, a: Act, sym: string)
    requires JointInv(j) && Enabled(c, j.core, a.step) && Fits(c, j, a) && !a.mark.Quiet? && About(j, a) != Some(sym)
    ensures SymbolInv(Played(c, j, a), sym)
    ensures Served(Played(c, j, a).core, sym) ==> OrderInv(Played(c, j, a), sym)
  {
    var t := Played(c, j, a);
    assert t.core == Next(c, j.core, a.step);
    OthersSame(c, j, a, sym);
    BookChanges(c, j.core, a.step, sym);
    if Served(t.core, sym) { ServedChanges(c, j.core, a.step, sym); }
    assert SymbolInv(j, sym);
    assert Served(j.core, sym) ==> OrderInv(j, sym);
    hide JointInv;
    hide Next;
    hide Enabled;
    hide Fits;
    hide Played;
    hide Served;
    hide SymbolInv;
    hide OrderInv;
    SameSymbol(j, t, sym);
  }

  lemma CloseKeeps(c: Config, j: Joint, a: Act)
    requires JointInv(j) && Enabled(c, j.core, a.step) && Fits(c, j, a) && Honest(j, a) && a.mark.Closes?
    ensures EndStep(a.step) && a.step.i < |j.core.closes|
    ensures var sym := j.core.closes[a.step.i].sym;
      SymbolInv(Played(c, j, a), sym) && !Served(Played(c, j, a).core, sym)
  {
    var sym := j.core.closes[a.step.i].sym;
    var o, w, fs := OrderOf(j, sym, a.mark.reason), a.mark.w, a.mark.fs;
    EndedUnserved(c, j.core, a.step);
    BookChanges(c, j.core, a.step, sym);
    assert Served(j.core, sym) && sym in j.core.book by { assert OwnsLock(j.core, j.core.closes[a.step.i]); }
    assert SymbolInv(j, sym) && OrderInv(j, sym);
    CloseBounds(j, o, w, fs);
    var t := Played(c, j, a);
    assert t.core == Next(c, j.core, a.step);
    assert At(t.exposure, sym) == AfterClose(j, o, w, fs).value && At(t.amount, sym) == At(j.amount, sym);
    assert At(t.closed, sym) == At(j.closed, sym) + if a.step.Succeed? then Abs(o.qty) else 0.0;
    assert a.step.Succeed? ==> Removes(o, w);
    hide JointInv;
    hide Next;
    hide Enabled;
    hide Fits;
    hide Played;
    hide Served;
    hide OnGrid;
    hide Removes;
    hide AfterClose;
  }

  lemma CloseBounds(j: Joint, o: CloseOrder, w: World, fs: seq<Fill>)
    requires SymbolInv(j, o.symbol) && OrderInv(j, o.symbol) && o.symbol in j.core.book
    requires o.qty == At(j.ordered, o.symbol) && AfterClose(j, o, w, fs).Some? && HonestClose(j, o, w, fs)
    ensures var x := AfterClose(j, o, w, fs).value;
      && Within(x, At(j.amount, o.symbol), Dust(j, o.symbol))
      && (Removes(o, w) ==> Abs(x) <= Dust(j, o.symbol) + 0.001 * Abs(o.qty))
  {
    var e, x := At(j.exposure, o.symbol), AfterClose(j, o, w, fs).value;
    OwnOrders(o, w);
    ClosesOnlyReduce(e, ClosePlaced(o, w), fs);
    ReducedWithin(x, e, At(j.amount, o.symbol), Dust(j, o.symbol));
    hide OnGrid;
    hide StatusHonest;
    hide TakerComplete;
    hide AfterAll;
    hide ClosePlaced;
    hide Removes;
    if Removes(o, w) { FinishedWithin(o, w, e, fs, Dust(j, o.symbol)); }
  }

  lemma OpenKeeps(c: Config, j: Joint, a: Act)
    requires JointInv(j) && Enabled(c, j.core, a.step) && Fits(c, j, a) && Honest(j, a) && a.mark.Opens?
    ensures SymbolInv(Played(c, j, a), a.mark.o.symbol) && !Served(Played(c, j, a).core, a.mark.o.symbol)
  {
    var o, w, t := a.mark.o, a.mark.w, Played(c, j, a);
    var sym := o.symbol;
    OpenPlayed(c, j, a);
    BookChanges(c, j.core, a.step, sym);
    if Served(t.core, sym) {
      ServedChanges(c, j.core, a.step, sym);
      OwnedIsServed(j.core, sym);
    }
    assert SymbolInv(j, sym);
    assert sym !in j.core.book;
    HonestOpenFills(o, w);
    hide JointInv;
    hide Next;
    hide Enabled;
    hide Fits;
    hide Played;
    hide Served;
    hide OnGrid;
    hide Recorded;
    hide RecordedQty;
    hide OpenFills;
    hide HonestOpen;
  }

  lemma OpenPlayed(c: Config, j: Joint, a: Act)
    requires Enabled(c, j.core, a.step) && Fits(c, j, a) && a.mark.Opens?
    ensures var o, w, t := a.mark.o, a.mark.w, Played(c, j, a);
      && t.core == Next(c, j.core, a.step) && j.core.opening == Some(o.symbol) && o.qty > 0.0
      && At(t.exposure, o.symbol) == At(j.exposure, o.symbol) + Signed(o, OpenFills(o, w)) && 0.0 <= OpenFills(o, w)
      && At(t.amount, o.symbol) == Signed(o, RecordedQty(o, w)) && t.closed == j.closed
      && a.step == if Recorded(o, w).Some? then OpenDone else OpenAbort
  {
    OpenMoves(At(j.exposure, a.mark.o.symbol), a.mark.o, a.mark.w, a.mark.fs);
    OpenFilledTotal(At(j.exposure, a.mark.o.symbol), a.mark.o, a.mark.w, a.mark.fs);
    hide OpenPlaced;
    hide AfterAll;
    hide OpenFilled;
    hide Next;
    hide Pinned;
    hide Recorded;
    hide OpenFills;
    hide RecordedQty;
    hide AfterClose;
    hide Removes;
  }

  /** An open told the truth is recorded with what it filled, which is on the grid. */
  lemma HonestOpenFills(o: OpenOrder, w: World)
    requires HonestOpen(o, w) && o.qty > 0.0
    ensures RecordedQty(o, w) == OpenFills(o, w)
    ensures Recorded(o, w).Some? ==> OnGrid(Abs(RecordedQty(o, w)))
    ensures Recorded(o, w) == None ==> OpenFills(o, w) == 0.0
  {
    RecordedExactIff(o, w);
    hide CleanQty;
    hide MakerTried;
    hide Vwap;
  }

  lemma RemoteKeeps(c: Config, j: Joint, a: Act)
    requires JointInv(j) && Enabled(c, j.core, a.step) && Fits(c, j, a) && Honest(j, a) && a.mark.Remote?
    requires Harmless(c, j.core, a.step)
    ensures SymbolInv(Played(c, j, a), a.mark.sym)
    ensures Served(Played(c, j, a).core, a.mark.sym) ==> OrderInv(Played(c, j, a), a.mark.sym)
  {
    var sym := a.mark.sym;
    BookChanges(c, j.core, a.step, sym);
    if Served(Next(c, j.core, a.step), sym) { ServedChanges(c, j.core, a.step, sym); }
    assert SymbolInv(j, sym);
    assert Served(j.core, sym) ==> OrderInv(j, sym);
    hide JointInv;
    hide Next;
    hide Served;
    hide OnGrid;
  }

  lemma PlayKeepsSymbol(c: Config, j: Joint, a: Act, sym: string)
    requires JointInv(j) && Enabled(c, j.core, a.step) && Harmless(c, j.core, a.step) && Fits(c, j, a) && Honest(j, a)
    ensures SymbolInv(Played(c, j, a), sym)
    ensures Served(Played(c, j, a).core, sym) ==> OrderInv(Played(c, j, a), sym)
  {
    if a.mark.Quiet? {
      QuietKeeps(c, j, a, sym);
    } else if About(j, a) != Some(sym) {
      OthersKeep(c, j, a, sym);
    } else {
      match a.mark
      case Closes(_, _, _) => CloseKeeps(c, j, a);
      case Opens(_, _, _) => OpenKeeps(c, j, a);
      case Remote(_, _) => RemoteKeeps(c, j, a);
    }
  }

  lemma PlayKeeps(c: Config, j: Joint, a: Act)
    requires JointInv(j) && Enabled(c, j.core, a.step) && Harmless(c, j.core, a.step) && Fits(c, j, a) && Honest(j, a)
    ensures JointInv(Played(c, j, a)) && Played(c, j, a).core == Next(c, j.core, a.step)
  {
    var t := Played(c, j, a);
    HarmlessKeeps(c, j.core, a.step);
    forall sym ensures SymbolInv(t, sym) && (Served(t.core, sym) ==> OrderInv(t, sym)) {
      PlayKeepsSymbol(c, j, a, sym);
    }
  }

  // ------------------------------------------------------------------- runs

  /** The state a list of acts leads to; None when one of them cannot be taken. */
  function PlayedAll(c: Config, j: Joint, acts: seq<Act>): Option<Joint> {
    if |acts| == 0 then Some(j)
    else
      var a := acts[|acts| - 1];
      match PlayedAll(c, j, acts[..|acts| - 1])
      case Some(m) => if Enabled(c, m.core, a.step) && Fits(c, m, a) then Some(Played(c, m, a)) else None
      case None => None
  }

  function StepsOf(acts: seq<Act>): (steps: seq<Step>)
    ensures |steps| == |acts| && forall k :: 0 <= k < |acts| ==> steps[k] == acts[k].step
  {
    seq(|acts|, k requires 0 <= k < |acts| => acts[k].step)
  }

  lemma PlayedCore(c: Config, j: Joint, a: Act)
    requires Enabled(c, j.core, a.step) && Fits(c, j, a)
    ensures Played(c, j, a).core == Next(c, j.core, a.step)
  {
    hide Next;
    hide AfterClose;
  }

  lemma StepsOfPrefix(acts: seq<Act>)
    requires |acts| > 0
    ensures StepsOf(acts)[..|acts| - 1] == StepsOf(acts[..|acts| - 1])
  {
  }

  /** What happens on the market never changes what the protocol does: every run here
      is a run of the protocol. */
  lemma {:induction false} RunsProject(c: Config, j: Joint, acts: seq<Act>)
    requires PlayedAll(c, j, acts).Some?
    ensures After(c, j.core, StepsOf(acts)) == Some(PlayedAll(c, j, acts).value.core)
    decreases |acts|
  {
    if |acts| > 0 {
      var p := acts[..|acts| - 1];
      RunsProject(c, j, p);
      StepsOfPrefix(acts);
      var m := PlayedAll(c, j, p).value;
      hide Next;
      hide Enabled;
      hide Fits;
      hide Played;
      PlayedCore(c, m, acts[|acts| - 1]);
    }
  }

  predicate HonestRun(c: Config, j: Joint, acts: seq<Act>) {
    |acts| > 0 ==>
      var p := acts[..|acts| - 1];
      HonestRun(c, j, p) && (PlayedAll(c, j, p).Some? ==> Honest(PlayedAll(c, j, p).value, acts[|acts| - 1]))
  }

  /** After start-up synchronisation: the book says what the exchange holds. */
  ghost predicate Start(j: Joint) {
    && Init(j.core)
    && (forall sym :: At(j.closed, sym) == 0.0)
    && (forall sym :: At(j.exposure, sym) == if sym in j.core.book then At(j.amount, sym) else 0.0)
    && (forall sym :: sym in j.core.book ==> OnGrid(Abs(At(j.amount, sym))))
  }

  lemma StartHolds(j: Joint)
    requires Start(j)
    ensures JointInv(j)
  {
    hide OnGrid;
  }

  /** The last act of a run, and the run before it. */
  lemma RunParts(c: Config, j: Joint, acts: seq<Act>)
    requires PlayedAll(c, j, acts).Some? && HonestRun(c, j, acts) && HarmlessRun(c, j.core, StepsOf(acts)) && |acts| > 0
    ensures var p, a := acts[..|acts| - 1], acts[|acts| - 1];
      && PlayedAll(c, j, p).Some? && HonestRun(c, j, p) && HarmlessRun(c, j.core, StepsOf(p))
      && var m := PlayedAll(c, j, p).value;
      && Enabled(c, m.core, a.step) && Fits(c, m, a) && Honest(m, a) && Harmless(c, m.core, a.step)
      && PlayedAll(c, j, acts) == Some(Played(c, m, a))
  {
    hide Enabled;
    hide Fits;
    hide Played;
    hide Honest;
    hide Harmless;
    hide After;
    StepsOfPrefix(acts);
    RunsProject(c, j, acts[..|acts| - 1]);
  }

  /** Over every run of harmless steps with honest replies. */
  lemma {:induction false} JointInvHolds(c: Config, j: Joint, acts: seq<Act>)
    requires Start(j) && PlayedAll(c, j, acts).Some? && HonestRun(c, j, acts) && HarmlessRun(c, j.core, StepsOf(acts))
    ensures JointInv(PlayedAll(c, j, acts).value)
    decreases |acts|
  {
    if |acts| == 0 {
      StartHolds(j);
    } else {
      RunParts(c, j, acts);
      JointInvHolds(c, j, acts[..|acts| - 1]);
      hide JointInv;
      hide Start;
      hide PlayedAll;
      hide Played;
      hide Enabled;
      hide Fits;
      hide Honest;
      hide Harmless;
      hide HonestRun;
      hide HarmlessRun;
      PlayKeeps(c, PlayedAll(c, j, acts[..|acts| - 1]).value, acts[|acts| - 1]);
    }
  }

  /** An orderly run with honest replies. */
  ghost predicate Orderly(c: Config, j: Joint, acts: seq<Act>, t: Joint) {
    && PlayedAll(c, j, acts) == Some(t) && HonestRun(c, j, acts)
    && TimelyRun(c, j.core, StepsOf(acts)) && ReconcilerKeepsOff(c, j.core, StepsOf(acts))
  }

  /** The book and the exchange, over every orderly run in which the replies are honest:
      a symbol without a record has at most a thousandth of all that was ever closed of
      it open, and the exposure of a recorded one lies between flat and its recorded
      amount, give or take as much. What an open or a close under way has filled counts
      once it is over. */
  lemma ExposureFollowsBook(c: Config, j: Joint, acts: seq<Act>, t: Joint, sym: string)
    requires Start(j) && c.atomicCheck && Orderly(c, j, acts, t)
    ensures if sym in t.core.book then Within(At(t.exposure, sym), At(t.amount, sym), Dust(t, sym))
            else Abs(At(t.exposure, sym)) <= 0.001 * At(t.closed, sym)
  {
    RunsProject(c, j, acts);
    MutualExclusion(c, j.core, StepsOf(acts));
    JointInvHolds(c, j, acts);
    assert SymbolInv(t, sym);
    hide PlayedAll;
    hide JointInv;
    hide OnGrid;
  }

  function Flat(): Joint {
    Joint(State(1, map[], [], {}, None, None, None, 0, multiset{}, multiset{}), map[], map[], map[], map[])
  }

  lemma OrderlyStart(c: Config, j: Joint)
    requires j.core.closes == []
    ensures Orderly(c, j, [], j)
  {
  }

  lemma OrderlyMore(c: Config, j: Joint, acts: seq<Act>, m: Joint, a: Act)
    requires Orderly(c, j, acts, m) && Enabled(c, m.core, a.step) && Fits(c, m, a) && Honest(m, a)
    requires Timely(c, Played(c, m, a).core) && KeepsOff(m.core, a.step)
    ensures Orderly(c, j, acts + [a], Played(c, m, a))
  {
    var more := acts + [a];
    assert more[..|acts|] == acts;
    StepsOfPrefix(more);
    RunsProject(c, j, acts);
    PlayedCore(c, m, a);
    hide Enabled;
    hide Fits;
    hide Honest;
    hide Played;
    hide Next;
    hide Timely;
    hide KeepsOff;
  }

  /** Such runs there are: from a flat start, any order for a quantity on the grid can be
      opened at the market, and exposure and recorded amount are its signed quantity. */
  lemma OpensFromFlat(c: Config, o: OpenOrder) returns (acts: seq<Act>, t: Joint)
    requires 0.0 < o.qty && OnGrid(o.qty)
    ensures Start(Flat()) && Orderly(c, Flat(), acts, t)
    ensures o.symbol in t.core.book && At(t.exposure, o.symbol) == At(t.amount, o.symbol) == Signed(o, o.qty)
  {
    var w := World(BookErr, PlaceErr, 0.0, StatusErr, PlaceOk(None, None), o.qty);
    var first, last := Act(OpenBegin(o.symbol), Quiet), Act(OpenDone, Opens(o, w, [Fill(0, o.qty)]));
    MarketOpen(o, w);
    hide OnGrid;
    hide Recorded;
    hide RecordedQty;
    hide OpenPlaced;
    hide OpenFilled;
    hide AfterAll;
    hide HonestOpen;
    OrderlyStart(c, Flat());
    hide Orderly;
    OrderlyMore(c, Flat(), [], Flat(), first);
    var m := Played(c, Flat(), first);
    OrderlyMore(c, Flat(), [] + [first], m, last);
    acts, t := [] + [first] + [last], Played(c, m, last);
  }

  lemma MarketOpen(o: OpenOrder, w: World)
    requires 0.0 < o.qty && OnGrid(o.qty)
    requires w == World(BookErr, PlaceErr, 0.0, StatusErr, PlaceOk(None, None), o.qty)
    ensures HonestOpen(o, w) && Recorded(o, w) == Some((o.qty, o.expectedPrice))
    ensures RecordedQty(o, w) == o.qty
    ensures var fs := [Fill(0, o.qty)]; OpenFilled(o, w, fs) && AfterAll(0.0, OpenPlaced(o, w), fs) == Some(Signed(o, o.qty))
  {
    assert OnGrid(0.0) by { assert 0.0 * 100000.0 == 0.0; }
    hide CleanQty;
    var fs := [Fill(0, o.qty)];
    assert fs[..0] == [] && FilledOf([], 0) == 0.0 && FilledOf(fs, 0) == o.qty;
    assert AfterAll(0.0, OpenPlaced(o, w), []) == Some(0.0);
  }

  /** The dust does add up: on top of what is left over from before, any close whose
      maker order fills all but a thousandth or less, all of it reported, removes its
      record and leaves the rest of its own quantity. */
  lemma DustAdds(sym: string, qty: real, filled: real, dust: real, reason: Reason)
    returns (o: CloseOrder, w: World, fs: seq<Fill>)
    requires 0.0 < qty && OnGrid(qty) && qty - filled <= 0.001 * qty && 0.0 <= filled <= qty
    requires 0.0 <= dust && !reason.HardStop?
    ensures o.symbol == sym && o.qty == qty && Removes(o, w) && StatusHonest(o, w, fs, 0)
    ensures AfterAll(qty + dust, ClosePlaced(o, w), fs) == Some(dust + (qty - filled))
  {
    o := CloseOrder(sym, qty, 0.0, reason);
    w := World(Book(100.0, 100.0), PlaceOk(Some(1), None), filled, StatusOk(Some(filled), None), PlaceErr, 0.0);
    fs := [Fill(0, filled)];
    assert (100.0 - 100.0) / 100.0 * 100.0 == 0.0;
    hide CleanQty;
    assert ClosePlaced(o, w) == [CloseMaker(o, w)];
    assert fs[..0] == [] && FilledOf([], 0) == 0.0;
    assert FilledOf(fs, 0) == filled;
    assert AfterAll(qty + dust, ClosePlaced(o, w), []) == Some(qty + dust);
  }

  /** Of opens that record nothing: the exposure stays exactly if the market order that
      reported an error did not fill after all. */
  lemma AbortedOpenLeavesIff(c: Config, j: Joint, a: Act)
    requires Enabled(c, j.core, a.step) && Fits(c, j, a) && a.step.OpenAbort? && a.mark.Opens?
    requires var o, w := a.mark.o, a.mark.w; OpenTried(o, w) ==> OpenSeen(o, w) == w.makerFill
    ensures Played(c, j, a).exposure == j.exposure[a.mark.o.symbol := At(Played(c, j, a).exposure, a.mark.o.symbol)]
    ensures At(Played(c, j, a).exposure, a.mark.o.symbol) == At(j.exposure, a.mark.o.symbol) <==> a.mark.w.takerFill == 0.0
  {
    SilentFillIff(a.mark.o, a.mark.w);
    OpenPlayed(c, j, a);
    hide OpenFills;
    hide Recorded;
    hide AfterOpen;
    hide Next;
  }
}
