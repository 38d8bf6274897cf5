// What closes do to the exchange's true position. Closes may overlap, be stale, or be
// told the wrong thing; their orders are filled in pieces, in any interleaving.
module CloseSafety {
  import opened Reals
  import opened Series
  import opened Models
  import opened Executor

  // ------------------------------------------------------------ the exchange

  /** Some amount of the order numbered `id` is filled. */
  datatype Fill = Fill(id: nat, amount: real)

  /** How much of exposure `e` an order on this side can take away. */
  function Available(e: real, sell: bool): real { if sell then Max(e, 0.0) else Max(-e, 0.0) }

  /** An order of which `done` is filled may fill `amount` more. Only a reduce-only
      order is held to what there is to reduce. */
  predicate Permitted(e: real, x: SentOrder, done: real, amount: real) {
    0.0 <= amount && done + amount <= CleanQty(x.size) && (x.reduceOnly ==> amount <= Available(e, x.sell))
  }

  function FilledOf(fs: seq<Fill>, id: nat): real {
    if |fs| == 0 then 0.0
    else FilledOf(fs[..|fs| - 1], id) + if fs[|fs| - 1].id == id then fs[|fs| - 1].amount else 0.0
  }

  function Total(fs: seq<Fill>): real {
    if |fs| == 0 then 0.0 else Total(fs[..|fs| - 1]) + fs[|fs| - 1].amount
  }

  /** Exposure after a list of fills; None when one of them was not permitted. */
  function AfterAll(e: real, orders: seq<SentOrder>, fs: seq<Fill>): Option<real> {
    if |fs| == 0 then Some(e)
    else
      var p, f := fs[..|fs| - 1], fs[|fs| - 1];
      match AfterAll(e, orders, p)
      case Some(x) =>
        if f.id < |orders| && Permitted(x, orders[f.id], FilledOf(p, f.id), f.amount)
        then Some(if orders[f.id].sell then x - f.amount else x + f.amount)
        else None
      case None => None
  }

  /** `x` lies between flat and `e`. */
  predicate NoFurther(x: real, e: real) { (0.0 <= x <= e) || (e <= x <= 0.0) }

  // -------------------------------------------------- only closes, no harm

  /** Marked reduce-only, or too small to fill at all. */
  predicate Tame(x: SentOrder) { x.reduceOnly || CleanQty(x.size) <= 0.0 }

  lemma {:induction false} FilledNonNegative(e: real, orders: seq<SentOrder>, fs: seq<Fill>, id: nat)
    requires AfterAll(e, orders, fs).Some?
    ensures 0.0 <= FilledOf(fs, id) <= Total(fs)
  {
    hide CleanQty;
    if |fs| > 0 { FilledNonNegative(e, orders, fs[..|fs| - 1], id); }
  }

  /** Every fill of a tame order comes off the exposure in full. */
  lemma {:induction false} FillsComeOff(e: real, orders: seq<SentOrder>, fs: seq<Fill>)
    requires AfterAll(e, orders, fs).Some? && forall k :: 0 <= k < |orders| ==> Tame(orders[k])
    ensures NoFurther(AfterAll(e, orders, fs).value, e)
    ensures Abs(AfterAll(e, orders, fs).value) == Abs(e) - Total(fs)
  {
    if |fs| > 0 {
      var p, f := fs[..|fs| - 1], fs[|fs| - 1];
      FillsComeOff(e, orders, p);
      FilledNonNegative(e, orders, p, f.id);
      hide CleanQty;
      assert Tame(orders[f.id]);
    }
  }

  /** An order that is not tame can open a position out of nothing. */
  lemma WildOpens(orders: seq<SentOrder>, k: nat) returns (fs: seq<Fill>)
    requires k < |orders| && !Tame(orders[k])
    ensures AfterAll(0.0, orders, fs).Some? && !NoFurther(AfterAll(0.0, orders, fs).value, 0.0)
  {
    var q := CleanQty(orders[k].size);
    hide CleanQty;
    fs := [Fill(k, q)];
    assert fs[..0] == [];
    assert FilledOf([], k) == 0.0 && AfterAll(0.0, orders, []) == Some(0.0);
    assert AfterAll(0.0, orders, fs) == Some(if orders[k].sell then 0.0 - q else 0.0 + q);
  }

  ghost predicate NeverHarms(orders: seq<SentOrder>) {
    forall e, fs :: AfterAll(e, orders, fs).Some? ==> NoFurther(AfterAll(e, orders, fs).value, e)
  }

  /** Whatever is filled in whatever order, the exposure never grows and never changes
      sign, exactly if every order that can fill at all is marked reduce-only. */
  lemma ReducesIff(orders: seq<SentOrder>)
    ensures NeverHarms(orders) <==> forall k :: 0 <= k < |orders| ==> Tame(orders[k])
  {
    hide Tame;
    hide AfterAll;
    if forall k :: 0 <= k < |orders| ==> Tame(orders[k]) {
      forall e, fs | AfterAll(e, orders, fs).Some? ensures NoFurther(AfterAll(e, orders, fs).value, e) {
        FillsComeOff(e, orders, fs);
      }
    } else {
      var k :| 0 <= k < |orders| && !Tame(orders[k]);
      var fs := WildOpens(orders, k);
    }
  }

  predicate PlacedBy(x: SentOrder, o: CloseOrder, w: World) { x in ClosePlaced(o, w) }

  /** Every order was placed by some close, whichever that was and whatever it was told. */
  ghost predicate PlacedByCloses(orders: seq<SentOrder>) {
    forall k :: 0 <= k < |orders| ==> exists o, w :: PlacedBy(orders[k], o, w)
  }

  lemma PlacedByClosesIsTame(orders: seq<SentOrder>)
    requires PlacedByCloses(orders)
    ensures forall k :: 0 <= k < |orders| ==> Tame(orders[k])
  {
    hide CleanQty;
    forall k | 0 <= k < |orders| ensures Tame(orders[k]) {
      var o, w :| PlacedBy(orders[k], o, w);
    }
  }

  /** Any number of closes, overlapping and stale ones included, on either side, their
      orders filled piece by piece in any interleaving: the exposure never grows, never
      changes sign, and each fill comes off it in full. */
  lemma ClosesOnlyReduce(e: real, orders: seq<SentOrder>, fs: seq<Fill>)
    requires PlacedByCloses(orders) && AfterAll(e, orders, fs).Some?
    ensures NoFurther(AfterAll(e, orders, fs).value, e)
    ensures Abs(AfterAll(e, orders, fs).value) == Abs(e) - Total(fs)
  {
    PlacedByClosesIsTame(orders);
    FillsComeOff(e, orders, fs);
  }

  /** An open's orders are not so marked: any that can fill could turn a position over. */
  lemma OpensAreNotTame(o: OpenOrder, w: World)
    requires CleanQty(o.qty) > 0.0 && OpenTried(o, w)
    ensures !NeverHarms(OpenPlaced(o, w))
  {
    hide CleanQty;
    assert !Tame(OpenPlaced(o, w)[0]);
    ReducesIff(OpenPlaced(o, w));
  }

  // ------------------------------------------------- what opens do to it

  /** Each order of an open is there to move the exposure its way: whatever is filled, in
      whatever pieces, the exposure moves by exactly that much in the open's direction. */
  lemma {:induction false} OpenMoves(e: real, o: OpenOrder, w: World, fs: seq<Fill>)
    requires AfterAll(e, OpenPlaced(o, w), fs).Some?
    ensures AfterAll(e, OpenPlaced(o, w), fs).value == e + Signed(o, Total(fs)) && 0.0 <= Total(fs)
  {
    hide CleanQty;
    hide MakerTried;
    hide Seen;
    if |fs| > 0 { OpenMoves(e, o, w, fs[..|fs| - 1]); }
  }

  /** What a list of orders can fill at most. */
  function Asked(orders: seq<SentOrder>): real {
    if |orders| == 0 then 0.0 else Asked(orders[..|orders| - 1]) + Max(CleanQty(orders[|orders| - 1].size), 0.0)
  }

  lemma {:induction false} FilledWithinSize(e: real, orders: seq<SentOrder>, fs: seq<Fill>, id: nat)
    requires AfterAll(e, orders, fs).Some? && id < |orders|
    ensures FilledOf(fs, id) <= Max(CleanQty(orders[id].size), 0.0)
  {
    hide CleanQty;
    if |fs| > 0 { FilledWithinSize(e, orders, fs[..|fs| - 1], id); }
  }

  lemma TotalWithinAsked(e: real, o: OpenOrder, w: World, fs: seq<Fill>)
    requires AfterAll(e, OpenPlaced(o, w), fs).Some?
    ensures Total(fs) <= Asked(OpenPlaced(o, w))
  {
    hide CleanQty;
    hide MakerTried;
    hide Seen;
    var orders := OpenPlaced(o, w);
    OwnTotal(e, orders, fs);
    if |orders| >= 1 { FilledWithinSize(e, orders, fs, 0); } else { NothingFilled(e, orders, fs); }
    if |orders| == 2 { FilledWithinSize(e, orders, fs, 1); }
    hide AfterAll;
    hide OpenPlaced;
    AskedOfTwo(orders);
  }

  lemma AskedOfTwo(orders: seq<SentOrder>)
    requires |orders| <= 2
    ensures |orders| == 0 ==> Asked(orders) == 0.0
    ensures |orders| == 1 ==> Asked(orders) == Max(CleanQty(orders[0].size), 0.0)
    ensures |orders| == 2 ==> Asked(orders) == Max(CleanQty(orders[0].size), 0.0) + Max(CleanQty(orders[1].size), 0.0)
  {
    hide CleanQty;
    if |orders| == 1 { assert orders[..0] == []; }
    if |orders| == 2 { assert orders[..1][..0] == []; }
  }

  lemma NothingFilled(e: real, orders: seq<SentOrder>, fs: seq<Fill>)
    requires AfterAll(e, orders, fs).Some? && orders == []
    ensures fs == []
  {
  }

  /** Whatever the replies and the fills, one open moves the exposure its own way by at
      most twice its quantity. */
  lemma OpenMovesAtMostTwice(e: real, o: OpenOrder, w: World, fs: seq<Fill>)
    requires 0.0 < o.qty && OnGrid(o.qty) && 0.0 <= OpenSeen(o, w) && AfterAll(e, OpenPlaced(o, w), fs).Some?
    ensures 0.0 <= Signed(o, AfterAll(e, OpenPlaced(o, w), fs).value - e) <= 2.0 * o.qty
  {
    OpenMoves(e, o, w, fs);
    TotalWithinAsked(e, o, w, fs);
    AskedAtMostTwice(o, w);
    hide AfterAll;
    hide OpenPlaced;
    hide OpenSeen;
    hide OnGrid;
    hide Asked;
  }

  lemma PlacedSizes(o: OpenOrder, w: World)
    requires CleanQty(o.qty) == o.qty && 0.0 <= OpenSeen(o, w)
    ensures |OpenPlaced(o, w)| <= 2
    ensures forall i :: 0 <= i < |OpenPlaced(o, w)| ==> CleanQty(OpenPlaced(o, w)[i].size) <= o.qty
  {
    hide CleanQty;
    hide OpenTried;
    hide OpenSeen;
    hide TakerTried;
    CleanMonotone(o.qty - OpenSeen(o, w), o.qty);
  }

  lemma AskedAtMostTwice(o: OpenOrder, w: World)
    requires 0.0 < o.qty && OnGrid(o.qty) && 0.0 <= OpenSeen(o, w)
    ensures Asked(OpenPlaced(o, w)) <= 2.0 * o.qty
  {
    hide CleanQty;
    hide OpenPlaced;
    hide OpenSeen;
    hide Asked;
    PlacedSizes(o, w);
    AskedOfTwo(OpenPlaced(o, w));
  }

  /** Twice is reached in this sense too, long or short, for every quantity. */
  lemma OpenMovesTwice(e: real, o: OpenOrder) returns (w: World, fs: seq<Fill>)
    requires 0.0 < o.qty && OnGrid(o.qty)
    ensures OpenFilled(o, w, fs) && AfterAll(e, OpenPlaced(o, w), fs) == Some(e + Signed(o, 2.0 * o.qty))
  {
    w := World(Book(100.0, 100.0), PlaceOk(Some(1), None), o.qty, StatusErr, PlaceOk(None, Some(100.0)), o.qty);
    fs := [Fill(0, o.qty), Fill(1, o.qty)];
    assert (100.0 - 100.0) / 100.0 * 100.0 == 0.0;
    hide CleanQty;
    var one := [Fill(0, o.qty)];
    assert fs[..1] == one && one[..0] == [];
    assert FilledOf([], 0) == 0.0 && FilledOf([], 1) == 0.0;
    assert FilledOf(one, 0) == o.qty && FilledOf(one, 1) == 0.0;
    assert AfterAll(e, OpenPlaced(o, w), []) == Some(e);
    assert AfterAll(e, OpenPlaced(o, w), one) == Some(e + Signed(o, o.qty));
  }

  /** The fills are those of this world. */
  predicate OpenFilled(o: OpenOrder, w: World, fs: seq<Fill>) {
    var tried := OpenTried(o, w);
    && (tried ==> FilledOf(fs, 0) == w.makerFill)
    && (TakerTried(o.qty, OpenSeen(o, w)) ==> FilledOf(fs, if tried then 1 else 0) == w.takerFill)
  }

  lemma OpenFilledTotal(e: real, o: OpenOrder, w: World, fs: seq<Fill>)
    requires AfterAll(e, OpenPlaced(o, w), fs).Some? && OpenFilled(o, w, fs)
    ensures Total(fs) == OpenFills(o, w)
  {
    hide CleanQty;
    hide MakerTried;
    hide Seen;
    OwnTotal(e, OpenPlaced(o, w), fs);
    if OpenPlaced(o, w) == [] { NothingFilled(e, OpenPlaced(o, w), fs); }
    hide AfterAll;
  }

  /** The fills of a close are those of this world, and then they are all it fills. */
  lemma CloseFilledTotal(e: real, o: CloseOrder, w: World, fs: seq<Fill>)
    requires AfterAll(e, ClosePlaced(o, w), fs).Some?
    requires CloseTried(o, w) ==> FilledOf(fs, 0) == w.makerFill
    requires CloseTakerTried(o, w) ==> FilledOf(fs, if CloseTried(o, w) then 1 else 0) == w.takerFill
    ensures Total(fs) == CloseFills(o, w)
  {
    hide CleanQty;
    hide MakerTried;
    hide Seen;
    OwnTotal(e, ClosePlaced(o, w), fs);
    if ClosePlaced(o, w) == [] { NothingFilled(e, ClosePlaced(o, w), fs); }
    hide AfterAll;
  }

  /** Maker orders rest: at the touch of their own side, on a book with any spread they
      never cross to the other. */
  lemma MakersRest(x: SentOrder, o: OpenOrder, p: CloseOrder, w: World)
    requires x in OpenPlaced(o, w) || x in ClosePlaced(p, w)
    requires x.limit.Some? && w.book.Book? && w.book.bid < w.book.ask
    ensures if x.sell then w.book.bid < x.limit.value else x.limit.value < w.book.ask
    ensures x.limit.value == w.book.bid || x.limit.value == w.book.ask
  {
    hide CleanQty;
    hide Seen;
  }

  /** A close asks the market for exactly what its maker order has not been seen to fill. */
  lemma CloseAsksExactly(o: CloseOrder, w: World, x: SentOrder)
    requires x in ClosePlaced(o, w) && 0.0 <= CloseSeen(o, w)
    ensures x.sell == (o.qty > 0.0) && x.size <= Abs(o.qty)
    ensures x.limit == None ==> x.size + CloseSeen(o, w) == Abs(o.qty)
    ensures x.limit.Some? ==> x.size == Abs(o.qty)
  {
    hide CleanQty;
    hide MakerTried;
  }

  // ------------------------------------------------------- a finished close

  /** The close's own orders among those of a run, by their numbers. */
  predicate Among(o: CloseOrder, w: World, orders: seq<SentOrder>, mi: nat, ti: nat) {
    && (CloseTried(o, w) ==> mi < |orders| && orders[mi] == CloseMaker(o, w))
    && (CloseTakerTried(o, w) ==> ti < |orders| && orders[ti] == CloseTaker(o, w))
  }

  function MakerFilled(o: CloseOrder, w: World, fs: seq<Fill>, mi: nat): real {
    if CloseTried(o, w) then FilledOf(fs, mi) else 0.0
  }

  /** The status never reports more than the maker order has filled. */
  predicate StatusHonest(o: CloseOrder, w: World, fs: seq<Fill>, mi: nat) {
    0.0 <= CloseSeen(o, w) <= MakerFilled(o, w, fs, mi)
  }

  /** A market order that reports success is filled, or has nothing left to reduce. */
  predicate TakerComplete(o: CloseOrder, w: World, x: real, fs: seq<Fill>, ti: nat) {
    CloseTakerTried(o, w) && w.taker.PlaceOk? ==>
      FilledOf(fs, ti) >= CleanQty(CloseTaker(o, w).size) || Available(x, o.qty > 0.0) == 0.0
  }

  /** The position is on the order's side and no larger than the order. */
  predicate Covers(o: CloseOrder, e: real) { NoFurther(e, o.qty) }

  /** In any run of overlapping closes, once one of them is finished in a way that
      removes its record, at most a thousandth of its quantity is open, and nothing at
      all if it went to the market; and so it stays. `done` is the moment it finishes. */
  lemma RemovedMeansClosed(o: CloseOrder, w: World, e: real, orders: seq<SentOrder>, fs: seq<Fill>,
                           done: nat, mi: nat, ti: nat)
    requires PlacedByCloses(orders) && AfterAll(e, orders, fs).Some? && done <= |fs|
    requires Covers(o, e) && OnGrid(Abs(e)) && OnGrid(MakerFilled(o, w, fs[..done], mi))
    requires Among(o, w, orders, mi, ti) && StatusHonest(o, w, fs[..done], mi)
    requires var x := AfterAll(e, orders, fs[..done]); x.Some? ==> TakerComplete(o, w, x.value, fs[..done], ti)
    requires Removes(o, w)
    ensures Abs(AfterAll(e, orders, fs).value) <= 0.001 * Abs(o.qty)
    ensures CloseTakerTried(o, w) ==> AfterAll(e, orders, fs).value == 0.0
  {
    PrefixPermitted(e, orders, fs, done);
    var p := fs[..done];
    var x := AfterAll(e, orders, p).value;
    ClosesOnlyReduce(e, orders, p);
    ShrinksFurther(e, orders, fs, done);
    FinishedClose(o, w, e, orders, p, x, mi, ti);
  }

  lemma {:induction false} PrefixPermitted(e: real, orders: seq<SentOrder>, fs: seq<Fill>, n: nat)
    requires AfterAll(e, orders, fs).Some? && n <= |fs|
    ensures AfterAll(e, orders, fs[..n]).Some?
    decreases |fs|
  {
    hide Permitted;
    if n == |fs| {
      assert fs[..n] == fs;
    } else {
      assert fs[..|fs| - 1][..n] == fs[..n];
      PrefixPermitted(e, orders, fs[..|fs| - 1], n);
    }
  }

  /** The longer the run, the less is left. */
  lemma {:induction false} ShrinksFurther(e: real, orders: seq<SentOrder>, fs: seq<Fill>, n: nat)
    requires PlacedByCloses(orders) && AfterAll(e, orders, fs).Some? && n <= |fs|
    ensures AfterAll(e, orders, fs[..n]).Some?
    ensures Abs(AfterAll(e, orders, fs).value) <= Abs(AfterAll(e, orders, fs[..n]).value)
    decreases |fs|
  {
    if n == |fs| {
      assert fs[..n] == fs;
    } else {
      var p := fs[..|fs| - 1];
      assert p[..n] == fs[..n];
      ShrinksFurther(e, orders, p, n);
      ClosesOnlyReduce(e, orders, p);
      ClosesOnlyReduce(e, orders, fs);
      hide PlacedByCloses;
      hide CleanQty;
    }
  }

  lemma FinishedClose(o: CloseOrder, w: World, e: real, orders: seq<SentOrder>, p: seq<Fill>, x: real, mi: nat, ti: nat)
    requires AfterAll(e, orders, p) == Some(x)
    requires NoFurther(x, e) && Abs(x) == Abs(e) - Total(p)
    requires Covers(o, e) && OnGrid(Abs(e)) && OnGrid(MakerFilled(o, w, p, mi))
    requires Among(o, w, orders, mi, ti) && StatusHonest(o, w, p, mi) && TakerComplete(o, w, x, p, ti) && Removes(o, w)
    ensures Abs(x) <= 0.001 * Abs(o.qty)
    ensures CloseTakerTried(o, w) ==> x == 0.0
  {
    var made, taken, rest := MakerFilled(o, w, p, mi), FilledOf(p, ti), CloseTaker(o, w).size;
    GridDifference(Abs(e), made);
    CleanMonotone(Abs(e) - made, rest);
    assert OnGrid(Abs(e) - made);
    MakerThenTaker(o, w, e, orders, p, mi, ti);
    assert rest == Abs(o.qty) - CloseSeen(o, w);
    hide CleanQty;
    hide AfterAll;
    hide CloseTried;
    hide MakerFilled;
    if CloseTakerTried(o, w) {
      assert Abs(x) <= Abs(e) - made - taken;
    }
  }

  lemma MakerThenTaker(o: CloseOrder, w: World, e: real, orders: seq<SentOrder>, p: seq<Fill>, mi: nat, ti: nat)
    requires AfterAll(e, orders, p).Some? && Among(o, w, orders, mi, ti)
    ensures 0.0 <= MakerFilled(o, w, p, mi) <= Total(p)
    ensures CloseTakerTried(o, w) ==> MakerFilled(o, w, p, mi) + FilledOf(p, ti) <= Total(p)
  {
    hide CleanQty;
    hide AfterAll;
    hide MakerTried;
    FilledNonNegative(e, orders, p, mi);
    FilledNonNegative(e, orders, p, ti);
    if CloseTakerTried(o, w) && CloseTried(o, w) { TwoOrders(e, orders, p, mi, ti); }
  }

  lemma {:induction false} TwoOrders(e: real, orders: seq<SentOrder>, fs: seq<Fill>, a: nat, b: nat)
    requires AfterAll(e, orders, fs).Some? && a != b
    ensures FilledOf(fs, a) + FilledOf(fs, b) <= Total(fs)
  {
    hide CleanQty;
    if |fs| > 0 { TwoOrders(e, orders, fs[..|fs| - 1], a, b); }
  }

  // --------------------------------------------------- one close by itself

  /** The close of the exact position, nobody else trading: the status tells the whole
      maker fill, the market order fills all it can or fails without effect. */
  predicate Truthful(o: CloseOrder, w: World, fs: seq<Fill>) {
    var ti := if CloseTried(o, w) then 1 else 0;
    var x := AfterAll(o.qty, ClosePlaced(o, w), fs);
    && x.Some? && CloseSeen(o, w) == MakerFilled(o, w, fs, 0) && TakerComplete(o, w, x.value, fs, ti)
    && (CloseTakerTried(o, w) && w.taker.PlaceErr? ==> FilledOf(fs, ti) == 0.0)
  }

  function Left(o: CloseOrder, w: World, fs: seq<Fill>): real
    requires AfterAll(o.qty, ClosePlaced(o, w), fs).Some?
  {
    Abs(AfterAll(o.qty, ClosePlaced(o, w), fs).value)
  }

  /** With truthful replies the record goes exactly when at most a thousandth of the
      quantity is left. */
  lemma TruthfulCloseRemovesIff(o: CloseOrder, w: World, fs: seq<Fill>)
    requires Truthful(o, w, fs) && OnGrid(Abs(o.qty)) && OnGrid(CloseSeen(o, w))
    ensures Removes(o, w) <==> Left(o, w, fs) <= 0.001 * Abs(o.qty)
  {
    var orders, ti := ClosePlaced(o, w), if CloseTried(o, w) then 1 else 0;
    var x := AfterAll(o.qty, orders, fs).value;
    OwnOrders(o, w);
    ClosesOnlyReduce(o.qty, orders, fs);
    FilledNonNegative(o.qty, orders, fs, 0);
    if Removes(o, w) {
      FinishedClose(o, w, o.qty, orders, fs, x, 0, ti);
    } else {
      OwnTotal(o.qty, orders, fs);
      hide CleanQty;
      hide AfterAll;
      hide MakerTried;
    }
  }

  lemma OwnOrders(o: CloseOrder, w: World)
    ensures PlacedByCloses(ClosePlaced(o, w))
    ensures Among(o, w, ClosePlaced(o, w), 0, if CloseTried(o, w) then 1 else 0)
  {
    hide CleanQty;
    hide MakerTried;
    var orders := ClosePlaced(o, w);
    assert Among(o, w, orders, 0, if CloseTried(o, w) then 1 else 0);
    hide ClosePlaced;
    forall k | 0 <= k < |orders| ensures exists o', w' :: PlacedBy(orders[k], o', w') {
      assert PlacedBy(orders[k], o, w);
    }
  }

  lemma {:induction false} OwnTotal(e: real, orders: seq<SentOrder>, fs: seq<Fill>)
    requires AfterAll(e, orders, fs).Some? && |orders| <= 2
    ensures Total(fs) == FilledOf(fs, 0) + FilledOf(fs, 1)
    ensures |orders| <= 1 ==> FilledOf(fs, 1) == 0.0
  {
    hide CleanQty;
    if |fs| > 0 { OwnTotal(e, orders, fs[..|fs| - 1]); }
  }

  /** Both outcomes happen, for every order: without a book the market decides. */
  lemma TruthfulWorlds(o: CloseOrder) returns (filled: World, failed: World)
    requires OnGrid(Abs(o.qty)) && o.qty != 0.0
    ensures Truthful(o, filled, [Fill(0, Abs(o.qty))]) && Removes(o, filled)
    ensures Truthful(o, failed, []) && !Removes(o, failed)
  {
    filled := World(BookErr, PlaceErr, 0.0, StatusErr, PlaceOk(None, None), Abs(o.qty));
    failed := filled.(taker := PlaceErr, takerFill := 0.0);
    hide CleanQty;
    var fs := [Fill(0, Abs(o.qty))];
    assert fs[..0] == [];
    assert FilledOf([], 0) == 0.0 && FilledOf(fs, 0) == Abs(o.qty);
    assert ClosePlaced(o, filled) == [CloseTaker(o, filled)];
    assert AfterAll(o.qty, ClosePlaced(o, filled), []) == Some(o.qty);
    assert AfterAll(o.qty, ClosePlaced(o, filled), fs) == Some(0.0);
  }

  /** RiskGuard's hard stop sends one order, to the market, for the whole quantity ... */
  lemma HardStopSkipsMaker(o: CloseOrder, w: World)
    requires o.reason.HardStop? && o.qty != 0.0
    ensures ClosePlaced(o, w) == [SentOrder(o.qty > 0.0, None, Abs(o.qty), true)]
  {
  }

  /** ... but Sentinel's stop rests at the maker price first whenever the spread allows it. */
  lemma AtrStopWaitsForMaker(o: CloseOrder, w: World)
    requires o.reason.AtrStop?
    ensures (exists x :: x in ClosePlaced(o, w) && x.limit.Some?) <==> MakerTried(w.book, o.qty <= 0.0, 0.30)
    ensures exists book :: CloseTried(o, w.(book := book))
  {
    assert (100.0 - 100.0) / 100.0 * 100.0 == 0.0;
    assert CloseTried(o, w.(book := Book(100.0, 100.0)));
    if CloseTried(o, w) { assert CloseMaker(o, w) in ClosePlaced(o, w); }
  }
}
