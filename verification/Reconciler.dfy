// src/reconciler.rs: merging the exchange's view of the positions into the book.
module Reconciler {
  import opened Reals
  import opened Series
  import opened Models
  import RiskGuard
  import GuardPaths

  /** f64::EPSILON, 2^-52. */
  const EPSILON: real := 1.0 / 4503599627370496.0

  /** One remote entry; `Malformed` lacks one of the four fields and is skipped.
      Fields that do not parse have already become 0, or 1 for the leverage. */
  datatype Entry = Malformed | Entry(symbol: string, amt: real, entryPrice: real, leverage: Leverage)

  predicate Live(e: Entry) { e.Entry? && e.amt != 0.0 }

  /** Relative drift of the entry price, as the source measures it. */
  predicate Drifted(local: real, remote: real) { remote != 0.0 && Abs(local - remote) / remote > 0.001 }

  function Corrected(r: Record, e: Entry): Record
    requires e.Entry?
  {
    r.(entryPrice := if Drifted(r.entryPrice, e.entryPrice) then e.entryPrice else r.entryPrice,
       positionAmt := if Abs(r.positionAmt - e.amt) > EPSILON then e.amt else r.positionAmt,
       leverage := e.leverage)
  }

  function Adopted(e: Entry, now: nat): Record
    requires e.Entry?
  {
    NewRecord(e.symbol, e.entryPrice, e.amt, e.leverage, now, None, None, 0.0, false)
  }

  function Merge(v: map<string, Record>, e: Entry, now: nat): map<string, Record> {
    if !Live(e) then v
    else v[e.symbol := if e.symbol in v then Corrected(v[e.symbol], e) else Adopted(e, now)]
  }

  function MergeAll(v: map<string, Record>, es: seq<Entry>, now: nat): map<string, Record> {
    if |es| == 0 then v else Merge(MergeAll(v, es[..|es| - 1], now), es[|es| - 1], now)
  }

  /** Symbols with a non-zero amount on the exchange. */
  function LiveSymbols(es: seq<Entry>): set<string> { set i | 0 <= i < |es| && Live(es[i]) :: es[i].symbol }

  function Reconciled(v: map<string, Record>, es: seq<Entry>, now: nat): map<string, Record> {
    var m := MergeAll(v, es, now);
    map s | s in m && s in LiveSymbols(es) :: m[s]
  }

  /** One pass over the book. A failed remote call changes nothing. */
  method Reconcile(book: PositionBook, remote: Option<seq<Entry>>, now: nat)
    requires book.Valid()
    modifies book, book.positions.Values
    ensures book.Valid()
    ensures book.View() == if remote.Some? then Reconciled(old(book.View()), remote.value, now) else old(book.View())
  {
    hide MergeAll;
    hide Merge;
    hide MockPosition.State;
    if remote == None { return; }
    var es := remote.value;
    var remoteSymbols: set<string> := {};
    assert MergeAll(old(book.View()), es[..0], now) == old(book.View()) by { MergeNone(old(book.View()), es[..0], now); }
    for i := 0 to |es|
      invariant book.Valid()
      invariant fresh(book.positions.Values - old(book.positions.Values))
      invariant book.View() == MergeAll(old(book.View()), es[..i], now)
      invariant remoteSymbols == LiveSymbols(es[..i])
    {
      MergeStep(old(book.View()), es, i, now);
      LiveStep(es, i);
      MergeEntry(book, es[i], now);
      if Live(es[i]) { remoteSymbols := remoteSymbols + {es[i].symbol}; }
    }
    assert es[..|es|] == es;
    DropZombies(book, remoteSymbols);
  }

  lemma MergeNone(v: map<string, Record>, es: seq<Entry>, now: nat)
    requires |es| == 0
    ensures MergeAll(v, es, now) == v
  {
  }

  lemma MergeStep(v: map<string, Record>, es: seq<Entry>, i: nat, now: nat)
    requires i < |es|
    ensures MergeAll(v, es[..i + 1], now) == Merge(MergeAll(v, es[..i], now), es[i], now)
  {
    assert es[..i + 1][..i] == es[..i];
  }

  lemma LiveStep(es: seq<Entry>, i: nat)
    requires i < |es|
    ensures LiveSymbols(es[..i + 1]) == LiveSymbols(es[..i]) + if Live(es[i]) then {es[i].symbol} else {}
  {
    var a, b := es[..i + 1], es[..i];
    forall s | s in LiveSymbols(a) ensures s in LiveSymbols(b) + if Live(es[i]) then {es[i].symbol} else {} {
      var j :| 0 <= j < |a| && Live(a[j]) && a[j].symbol == s;
      if j < i { assert b[j] == a[j]; }
    }
    forall s | s in LiveSymbols(b) + (if Live(es[i]) then {es[i].symbol} else {}) ensures s in LiveSymbols(a) {
      if s in LiveSymbols(b) {
        var j :| 0 <= j < |b| && Live(b[j]) && b[j].symbol == s;
        assert a[j] == b[j];
      } else {
        assert a[i] == es[i];
      }
    }
  }

  /** One entry: correct the record in place, or take the position over. */
  method MergeEntry(book: PositionBook, e: Entry, now: nat)
    requires book.Valid()
    modifies book, book.positions.Values
    ensures book.Valid() && fresh(book.positions.Values - old(book.positions.Values))
    ensures book.View() == Merge(old(book.View()), e, now)
  {
    hide Drifted;
    if e.Entry? {
      if e.amt != 0.0 {
        if e.symbol in book.positions {
          CorrectEntry(book, e);
        } else {
          AdoptEntry(book, e, now);
        }
      }
    }
  }

  method CorrectEntry(book: PositionBook, e: Entry)
    requires book.Valid() && e.Entry? && e.symbol in book.positions
    modifies book.positions.Values
    ensures book.Valid() && book.positions == old(book.positions)
    ensures book.View() == old(book.View())[e.symbol := Corrected(old(book.View())[e.symbol], e)]
  {
    hide MockPosition.State;
    hide Corrected;
    CorrectRecord(book.positions[e.symbol], e);
    assert forall s :: s in book.positions && s != e.symbol ==>
      book.positions[s].State() == old(book.positions[s].State());
  }

  method CorrectRecord(local: MockPosition, e: Entry)
    requires e.Entry?
    modifies local
    ensures local.State() == Corrected(old(local.State()), e)
  {
    var entry := e.entryPrice;
    if entry != 0.0 && Abs(local.entryPrice - entry) / entry > 0.001 {
      local.entryPrice := entry;
    }
    if Abs(local.positionAmt - e.amt) > EPSILON {
      local.positionAmt := e.amt;
    }
    if local.leverage != e.leverage {
      local.leverage := e.leverage;
    }
  }

  method AdoptEntry(book: PositionBook, e: Entry, now: nat)
    requires book.Valid() && e.Entry? && e.symbol !in book.positions
    modifies book
    ensures book.Valid() && fresh(book.positions.Values - old(book.positions.Values))
    ensures book.View() == old(book.View())[e.symbol := Adopted(e, now)]
  {
    var pos := new MockPosition(e.symbol, e.entryPrice, e.amt, e.leverage, now, None, None, 0.0, false);
    hide MockPosition.State;
    book.positions := book.positions[e.symbol := pos];
  }

  /** Records the exchange does not know are removed. */
  method DropZombies(book: PositionBook, remoteSymbols: set<string>)
    requires book.Valid()
    modifies book
    ensures book.Valid()
    ensures book.View() == map s | s in old(book.View()) && s in remoteSymbols :: old(book.View())[s]
  {
    hide MockPosition.State;
    var localSymbols := book.positions.Keys;
    while localSymbols != {}
      invariant book.Valid() && localSymbols <= book.positions.Keys
      invariant forall s :: s in book.positions ==> s in old(book.positions) && book.positions[s] == old(book.positions[s])
      invariant forall s :: s in old(book.positions) && (s in localSymbols || s in remoteSymbols) ==> s in book.positions
      invariant forall s :: s in book.positions && s !in localSymbols ==> s in remoteSymbols
    {
      var sym :| sym in localSymbols;
      localSymbols := localSymbols - {sym};
      if sym !in remoteSymbols {
        book.positions := book.positions - {sym};
      }
    }
  }

  // ------------------------------------------------------------ properties

  /** The entry at `i` is live and no later live entry is about the same symbol. */
  predicate Decisive(es: seq<Entry>, i: nat) {
    && i < |es| && Live(es[i])
    && forall j :: i < j < |es| && Live(es[j]) ==> es[j].symbol != es[i].symbol
  }

  predicate NoDuplicates(es: seq<Entry>) {
    forall i, j :: 0 <= i < j < |es| && Live(es[i]) && Live(es[j]) ==> es[i].symbol != es[j].symbol
  }

  /** The record agrees with the entry as closely as the Reconciler ever makes it. */
  predicate Agrees(r: Record, e: Entry)
    requires e.Entry?
  {
    Abs(r.positionAmt - e.amt) <= EPSILON && !Drifted(r.entryPrice, e.entryPrice) && r.leverage == e.leverage
  }

  /** Everything the Reconciler must leave alone: lock, tracking, flags, origin. */
  predicate SameLife(r: Record, s: Record) {
    s == r.(entryPrice := s.entryPrice, positionAmt := s.positionAmt, leverage := s.leverage)
  }

  lemma {:induction false} MergeKeys(v: map<string, Record>, es: seq<Entry>, now: nat)
    ensures MergeAll(v, es, now).Keys == v.Keys + LiveSymbols(es)
  {
    if |es| > 0 {
      var n := |es| - 1;
      MergeKeys(v, es[..n], now);
      assert es[..n + 1] == es;
      LiveStep(es, n);
    }
  }

  /** After a pass the local symbols are exactly the remote symbols with a non-zero
      amount, whatever the remote list looks like. */
  lemma KeysConverge(v: map<string, Record>, es: seq<Entry>, now: nat)
    ensures Reconciled(v, es, now).Keys == LiveSymbols(es)
  {
    MergeKeys(v, es, now);
  }

  lemma CorrectedAgrees(r: Record, e: Entry)
    requires e.Entry?
    ensures Agrees(Corrected(r, e), e) && SameLife(r, Corrected(r, e))
    ensures Agrees(r, e) ==> Corrected(r, e) == r
  {
    assert !Drifted(e.entryPrice, e.entryPrice) by {
      if e.entryPrice != 0.0 { assert 0.0 / e.entryPrice == 0.0; }
    }
    assert EPSILON > 0.0;
    hide Drifted;
  }

  lemma AdoptedAgrees(e: Entry, now: nat)
    requires e.Entry?
    ensures Agrees(Adopted(e, now), e)
  {
    if e.entryPrice != 0.0 { assert 0.0 / e.entryPrice == 0.0; }
  }

  lemma {:induction false} DecisiveWins(v: map<string, Record>, es: seq<Entry>, now: nat, i: nat)
    requires Decisive(es, i)
    ensures es[i].symbol in MergeAll(v, es, now) && Agrees(MergeAll(v, es, now)[es[i].symbol], es[i])
    decreases |es|
  {
    hide Agrees;
    hide Corrected;
    var n := |es| - 1;
    var m := MergeAll(v, es[..n], now);
    if i == n {
      if es[n].symbol in m { CorrectedAgrees(m[es[n].symbol], es[n]); } else { AdoptedAgrees(es[n], now); }
    } else {
      assert es[..n][i] == es[i];
      DecisiveWins(v, es[..n], now, i);
    }
  }

  /** Every decisive entry is matched afterwards: amounts within machine epsilon,
      entry prices within 0.1 percent (for a positive remote price), leverage equal. */
  lemma AmountsAndPricesAgree(v: map<string, Record>, es: seq<Entry>, now: nat, i: nat)
    requires Decisive(es, i)
    ensures es[i].symbol in Reconciled(v, es, now)
    ensures var r := Reconciled(v, es, now)[es[i].symbol];
      && Abs(r.positionAmt - es[i].amt) <= EPSILON && r.leverage == es[i].leverage
      && (es[i].entryPrice > 0.0 ==> Abs(r.entryPrice - es[i].entryPrice) <= 0.001 * es[i].entryPrice)
  {
    DecisiveWins(v, es, now, i);
    var r := MergeAll(v, es, now)[es[i].symbol];
    assert es[i].symbol in LiveSymbols(es);
    if es[i].entryPrice > 0.0 {
      DivLe(Abs(r.entryPrice - es[i].entryPrice), es[i].entryPrice, 0.001);
    }
  }

  lemma {:induction false} MergeKeepsLife(v: map<string, Record>, es: seq<Entry>, now: nat, s: string)
    requires s in v
    ensures s in MergeAll(v, es, now) && SameLife(v[s], MergeAll(v, es, now)[s])
    decreases |es|
  {
    hide Corrected;
    if |es| > 0 {
      var n := |es| - 1;
      MergeKeepsLife(v, es[..n], now, s);
      if Live(es[n]) && es[n].symbol == s { CorrectedAgrees(MergeAll(v, es[..n], now)[s], es[n]); }
    }
  }

  /** A surviving record keeps its lock, its tracking, its flags and its origin. */
  lemma SurvivorsUntouched(v: map<string, Record>, es: seq<Entry>, now: nat, s: string)
    requires s in v && s in Reconciled(v, es, now)
    ensures SameLife(v[s], Reconciled(v, es, now)[s])
  {
    MergeKeepsLife(v, es, now, s);
  }

  lemma {:induction false} AgreementIsStable(v: map<string, Record>, es: seq<Entry>, now: nat)
    requires forall i :: 0 <= i < |es| && Live(es[i]) ==> es[i].symbol in v && Agrees(v[es[i].symbol], es[i])
    ensures MergeAll(v, es, now) == v
    decreases |es|
  {
    hide Agrees;
    hide Corrected;
    if |es| > 0 {
      var n := |es| - 1;
      assert forall i :: 0 <= i < n ==> es[..n][i] == es[i];
      AgreementIsStable(v, es[..n], now);
      if Live(es[n]) { CorrectedAgrees(v[es[n].symbol], es[n]); }
    }
  }

  /** For a remote list without duplicate symbols a second pass changes nothing. */
  lemma SecondPassIsIdle(v: map<string, Record>, es: seq<Entry>, now: nat, later: nat)
    requires NoDuplicates(es)
    ensures Reconciled(Reconciled(v, es, now), es, later) == Reconciled(v, es, now)
  {
    hide Agrees;
    var w := Reconciled(v, es, now);
    forall i | 0 <= i < |es| && Live(es[i]) ensures es[i].symbol in w && Agrees(w[es[i].symbol], es[i]) {
      DecisiveWins(v, es, now, i);
      assert es[i].symbol in LiveSymbols(es);
    }
    AgreementIsStable(w, es, later);
    KeysConverge(v, es, now);
  }

  /** The local amount agrees with this entry, as far as the Reconciler looks. */
  predicate AmountAgrees(v: map<string, Record>, e: Entry)
    requires e.Entry?
  {
    e.symbol in v && Abs(v[e.symbol].positionAmt - e.amt) <= EPSILON
  }

  /** Entries of one symbol that the comparison of amounts can tell apart. */
  predicate Distinguishable(es: seq<Entry>) {
    forall i, j :: 0 <= i < j < |es| && Live(es[i]) && Live(es[j]) && es[i].symbol == es[j].symbol ==>
      Abs(es[i].amt - es[j].amt) > 2.0 * EPSILON
  }

  /** From any live entry on there is a last one of its symbol. */
  lemma {:induction false} DecisiveFrom(es: seq<Entry>, i: nat) returns (k: nat)
    requires i < |es| && Live(es[i])
    ensures i <= k && Decisive(es, k) && es[k].symbol == es[i].symbol
    decreases |es| - i
  {
    if Decisive(es, i) {
      k := i;
    } else {
      var j :| i < j < |es| && Live(es[j]) && es[j].symbol == es[i].symbol;
      k := DecisiveFrom(es, j);
    }
  }

  /** Amounts agree after a pass exactly when no symbol is listed twice, as long as
      entries of one symbol, if there are several, differ by more than two EPSILON. */
  lemma AmountsAgreeIff(v: map<string, Record>, es: seq<Entry>, now: nat)
    requires Distinguishable(es)
    ensures (forall i :: 0 <= i < |es| && Live(es[i]) ==> AmountAgrees(Reconciled(v, es, now), es[i])) <==> NoDuplicates(es)
  {
    var w := Reconciled(v, es, now);
    if NoDuplicates(es) {
      forall i | 0 <= i < |es| && Live(es[i]) ensures AmountAgrees(w, es[i]) {
        AmountsAndPricesAgree(v, es, now, i);
      }
    } else {
      var i, j :| 0 <= i < j < |es| && Live(es[i]) && Live(es[j]) && es[i].symbol == es[j].symbol;
      var k := DecisiveFrom(es, j);
      AmountsAndPricesAgree(v, es, now, k);
      hide Reconciled;
      assert Abs(es[i].amt - es[k].amt) > 2.0 * EPSILON;
      assert !AmountAgrees(w, es[i]);
    }
  }

  /** Duplicates do break agreement: of a long and a short leg of one symbol only the last is kept. */
  lemma HedgedLegsCollapse() returns (es: seq<Entry>)
    ensures !NoDuplicates(es) && Live(es[0])
    ensures var w := Reconciled(map[], es, 0); "X" in w && !Agrees(w["X"], es[0]) && w["X"].positionAmt == -1.0
  {
    var long, short := Entry("X", 1.0, 100.0, 1), Entry("X", -1.0, 100.0, 1);
    es := [long, short];
    assert EPSILON < 1.0;
    assert es[..1] == [long] && es[..1][..0] == [];
    assert MergeAll(map[], [], 0) == map[];
    assert MergeAll(map[], es[..1], 0) == map["X" := Adopted(long, 0)];
    assert Live(es[1]) && es[1].symbol in LiveSymbols(es);
    assert MergeAll(map[], es, 0)["X"] == Corrected(Adopted(long, 0), short);
  }

  /** What RiskGuard needs of a record survives a pass exactly if no position is
      taken over with an entry price that failed to parse or was sent as zero. */
  lemma TradeableIff(v: map<string, Record>, es: seq<Entry>, now: nat)
    requires NoDuplicates(es) && forall s :: s in v ==> RiskGuard.Tradeable(v[s])
    ensures (forall s :: s in Reconciled(v, es, now) ==> RiskGuard.Tradeable(Reconciled(v, es, now)[s]))
       <==> (forall i :: 0 <= i < |es| && Live(es[i]) && es[i].symbol !in v ==> es[i].entryPrice != 0.0)
  {
    var w := Reconciled(v, es, now);
    KeysConverge(v, es, now);
    forall i | 0 <= i < |es| && Live(es[i])
      ensures es[i].symbol in w
      ensures RiskGuard.Tradeable(w[es[i].symbol]) <==> es[i].symbol in v || es[i].entryPrice != 0.0
    {
      assert es[i].symbol in LiveSymbols(es);
      OwnEntryOnly(v, es, now, i);
    }
  }

  /** A position taken over is a reversion trade without a past, of the reported amount,
      free to be locked: whatever happens to it, it is stopped by the reversion floor. */
  lemma AdoptedIsReversion(e: Entry, now: nat, es: seq<GuardPaths.Event>, price: real, cvd: real)
    requires e.Entry? && e.entryPrice != 0.0 && GuardPaths.Allowed(es)
    ensures var r := Adopted(e, now);
      && !r.isClosing && r.positionAmt == e.amt && GuardPaths.Fresh(r)
      && var s := GuardPaths.Run(r, es);
      && var roe := RiskGuard.Roe(s, price);
      && (roe < RiskGuard.StopFloor(false, GuardPaths.Best(GuardPaths.Readings(r, es) + [roe])) && !s.isClosing ==>
            RiskGuard.GuardOrder(e.symbol, s, price, cvd).Some?)
      && (roe >= RiskGuard.StopFloor(false, GuardPaths.Best(GuardPaths.Readings(r, es) + [roe])) && roe >= -5.0 ==>
            RiskGuard.GuardOrder(e.symbol, s, price, cvd) == None)
  {
    GuardPaths.StopIsMemoryless(e.symbol, Adopted(e, now), es, price, cvd);
    hide RiskGuard.Roe;
    hide RiskGuard.StopFloor;
    hide RiskGuard.GuardOrder;
    hide GuardPaths.Run;
  }

  /** Without duplicates a symbol is touched by its own entry only. */
  lemma {:induction false} OwnEntryOnly(v: map<string, Record>, es: seq<Entry>, now: nat, i: nat)
    requires NoDuplicates(es) && i < |es| && Live(es[i])
    ensures var s := es[i].symbol;
      s in MergeAll(v, es, now)
      && MergeAll(v, es, now)[s] == if s in v then Corrected(v[s], es[i]) else Adopted(es[i], now)
    decreases |es|
  {
    hide Corrected;
    var n := |es| - 1;
    assert forall j :: 0 <= j < n ==> es[..n][j] == es[j];
    if i < n {
      OwnEntryOnly(v, es[..n], now, i);
    } else {
      Untouched(v, es[..n], now, es[i].symbol);
    }
  }

  lemma {:induction false} Untouched(v: map<string, Record>, es: seq<Entry>, now: nat, s: string)
    requires forall j :: 0 <= j < |es| && Live(es[j]) ==> es[j].symbol != s
    ensures s in v <==> s in MergeAll(v, es, now)
    ensures s in v ==> MergeAll(v, es, now)[s] == v[s]
    decreases |es|
  {
    if |es| > 0 {
      assert forall j :: 0 <= j < |es| - 1 ==> es[..|es| - 1][j] == es[j];
      Untouched(v, es[..|es| - 1], now, s);
    }
  }
}
