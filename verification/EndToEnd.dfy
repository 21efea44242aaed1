/** Revenue from line items against revenue from order totals, over whole schedules. */
module EndToEnd {
  import opened Options
  import opened Aggregates
  import opened Cdc
  import opened Source
  import opened SourceRuns
  import opened Gold
  import opened GoldLaws
  import opened Tables
  import opened Lakehouse
  import opened LakehouseRuns
  import opened Leftovers
  import opened Books

  // ---- every batch leaves well-booked tables --------------------------------------------------

  lemma StaleLines(w: World, lake: Lake, b: Batch)
    requires ValidWorld(w) && Feasible(w, lake, b) && Carries(w, lake, b.cuts)
    ensures LinesKnown(Stale(w, lake, b)) && forall r :: r in Stale(w, lake, b) ==> Undated(r)
  {
    forall r | r in Stale(w, lake, b) ensures Undated(r) {
      if r.orderCreatedAt.Some? { DatedItemsAreReplaced(w, lake, b, r); }
    }
  }

  lemma StaleIsBounded(w: World, lake: Lake, b: Batch, o: int)
    requires ValidWorld(w) && Feasible(w, lake, b) && Carries(w, lake, b.cuts) && UndatedBounded(lake.items)
    ensures GroupSum(Stale(w, lake, b), ItemOrder, LineValue, Some(o)) <= MAX_TOTAL
  {
    StaleLines(w, lake, b);
    StoredLinesKnown(w, lake, b.cuts);
    FilterAll(Stale(w, lake, b), Undated);
    PartOfUndated(lake.items, Kept(ItemsOut(w, lake, b), ItemPartition(w.layout)), o);
    assert UndatedSum(lake.items, o) <= MAX_TOTAL;
  }

  lemma StoredLinesKnown(w: World, lake: Lake, cuts: Cuts)
    requires ValidWorld(w) && InOrder(w, cuts) && Carries(w, lake, cuts)
    ensures LinesKnown(lake.items)
  {
    forall r | r in lake.items ensures r.lineTotal.Some? && 1 <= r.lineTotal.value <= MAX_LINE {
      assert ItemCarried(r, At(w, cuts.orders), At(w, cuts.items));
    }
  }

  lemma UndatedStep(w: World, lake: Lake, b: Batch)
    requires ValidWorld(w) && Feasible(w, lake, b) && Carries(w, lake, b.cuts) && UndatedBounded(lake.items)
    ensures UndatedBounded(NextLake(w, lake, b).items)
  {
    ItemsStep(w, lake, b);
    SourceAt(w, b.cuts.items);
    StoredLinesKnown(w, lake, b.cuts);
    forall o ensures UndatedSum(NextLake(w, lake, b).items, o) <= MAX_TOTAL {
      UndatedOver(lake.items, ItemsOut(w, lake, b), w.layout, o);
      OutputUndatedBounded(ItemsOut(w, lake, b), At(w, b.cuts.orders), At(w, b.cuts.items), o);
      assert UndatedSum(lake.items, o) <= MAX_TOTAL;
    }
  }

  /** However many runs there were and whatever their cuts, the undated lines stored for
      an order never exceed one order's worth. */
  lemma {:induction false} UndatedNeverPileUp(w: World, bs: seq<Batch>)
    requires ValidWorld(w) && ValidSchedule(w, bs)
    ensures UndatedBounded(After(bs).items)
  {
    if bs != [] {
      LastRunCarries(w, bs);
      UndatedNeverPileUp(w, bs[..|bs| - 1]);
      UndatedStep(w, After(bs[..|bs| - 1]), bs[|bs| - 1]);
    }
  }

  lemma ItemsAreBooked(w: World, lake: Lake, b: Batch)
    requires ValidWorld(w) && Feasible(w, lake, b) && Carries(w, lake, b.cuts) && UndatedBounded(lake.items)
    ensures WellBooked(NextLake(w, lake, b).orders, NextLake(w, lake, b).items)
  {
    OrdersStep(w, lake, b);
    ItemsStep(w, lake, b);
    StaleLines(w, lake, b);
    SourceAt(w, b.cuts.orders);
    SourceAt(w, b.cuts.items);
    SourceGrows(w, b.cuts.orders, b.cuts.items);
    forall o ensures GroupSum(Stale(w, lake, b), ItemOrder, LineValue, Some(o)) <= MAX_TOTAL { StaleIsBounded(w, lake, b, o); }
    TablesAreWellBooked(NextLake(w, lake, b).orders, Stale(w, lake, b), ItemsOut(w, lake, b), At(w, b.cuts.orders), At(w, b.cuts.items));
  }

  lemma CustomersCoverOrders(w: World, lake: Lake, b: Batch)
    requires ValidWorld(w) && Feasible(w, lake, b) && Carries(w, lake, b.cuts)
    ensures CustomersCover(NextLake(w, lake, b).orders, NextLake(w, lake, b).customers)
  {
    OrdersStep(w, lake, b);
    CustomersStep(w, lake, b);
    SourceAt(w, b.cuts.orders);
    SourceGrows(w, b.cuts.orders, b.cuts.customers);
    CustomersAreCovered(NextLake(w, lake, b).orders, NextLake(w, lake, b).customers, At(w, b.cuts.orders), At(w, b.cuts.customers));
  }

  /** After every schedule the stored lines of each revenue order are its total, and its
      undated ones once more; and every revenue order has its one customer. */
  lemma TablesAreBooked(w: World, bs: seq<Batch>)
    requires ValidWorld(w) && ValidSchedule(w, bs) && bs != []
    ensures WellBooked(After(bs).orders, After(bs).items)
    ensures CustomersCover(After(bs).orders, After(bs).customers)
  {
    LastRunCarries(w, bs);
    UndatedNeverPileUp(w, bs[..|bs| - 1]);
    ItemsAreBooked(w, After(bs[..|bs| - 1]), bs[|bs| - 1]);
    CustomersCoverOrders(w, After(bs[..|bs| - 1]), bs[|bs| - 1]);
  }

  // ---- conservation -----------------------------------------------------------------------------

  ghost predicate Fit(lake: Lake) { BooksFit(lake.orders, lake.items) }

  ghost predicate Conserved(lake: Lake) {
    Sum(DailyRevenue(lake.orders, lake.items), NetOf) == Sum(lake.metrics, TotalRevenueOf)
  }

  ghost predicate StoredConserved(lake: Lake) { Sum(lake.daily, NetOf) == Sum(lake.metrics, TotalRevenueOf) }

  lemma ExcessIfFit(w: World, bs: seq<Batch>)
    requires ValidWorld(w) && ValidSchedule(w, bs) && bs != [] && Fit(After(bs))
    ensures var lake := After(bs);
      Sum(DailyRevenue(lake.orders, lake.items), NetOf)
        == Sum(lake.metrics, TotalRevenueOf) + Sum(RevenueOrders(lake.orders), LineSum(Filter(lake.items, Undated)))
    ensures Earns(DailyRevenue(After(bs).orders, After(bs).items))
  {
    TablesAreBooked(w, bs);
    StoredEqualsRecompute(w, bs);
    DailyBooksLines(After(bs).orders, After(bs).items);
    ExcessIsUndatedLines(After(bs).orders, After(bs).items, After(bs).customers, bs[|bs| - 1].choices.today);
  }

  /** Some run saw items of an order before the order, no later run rewrote their
      bucket, and by the last run the order earns revenue. */
  ghost predicate BookedTwice(w: World, bs: seq<Batch>)
    requires ValidWorld(w) && bs != []
  {
    exists o :: EarnsRevenue(w, bs[|bs| - 1].cuts, o) && LeftBehind(w, bs, o)
  }

  ghost predicate EarnsRevenue(w: World, c: Cuts, o: int)
    requires ValidWorld(w)
  {
    InOrder(w, c) && o in At(w, c.orders).orders && IsRevenue(At(w, c.orders).orders[o].status)
  }

  lemma RevenueRowsAre(orders: seq<OrderRow>, s: Db, o: int)
    requires Mirrors(orders, OrderKey, OrderImage, s.orders)
    ensures (exists r :: r in RevenueOrders(orders) && r.orderId == o) <==> o in s.orders && IsRevenue(s.orders[o].status)
  {
    if r :| r in RevenueOrders(orders) && r.orderId == o { assert IsImage(r, OrderKey, OrderImage, s.orders); }
    if o in s.orders && IsRevenue(s.orders[o].status) {
      assert HasKey(orders, OrderKey, o);
      var r :| r in orders && OrderKey(r) == Some(o);
      assert IsImage(r, OrderKey, OrderImage, s.orders);
      assert r in RevenueOrders(orders);
    }
  }

  lemma UndatedEarnsIff(orders: seq<OrderRow>, items: seq<ItemRow>, s: Db)
    requires Mirrors(orders, OrderKey, OrderImage, s.orders)
    ensures UndatedEarns(orders, items) <==> exists o :: o in s.orders && IsRevenue(s.orders[o].status) && HasNullRow(items, o)
  {
    if UndatedEarns(orders, items) {
      var r :| r in RevenueOrders(orders) && HasNullRow(items, r.orderId);
      RevenueRowsAre(orders, s, r.orderId);
    }
    if o :| o in s.orders && IsRevenue(s.orders[o].status) && HasNullRow(items, o) {
      RevenueRowsAre(orders, s, o);
      var r :| r in RevenueOrders(orders) && r.orderId == o;
      assert HasNullRow(items, r.orderId);
    }
  }

  /** The stored tables show it: an undated line of a revenue order. */
  lemma UndatedEarnsIffBookedTwice(w: World, bs: seq<Batch>)
    requires ValidWorld(w) && ValidSchedule(w, bs) && bs != []
    ensures UndatedEarns(After(bs).orders, After(bs).items) <==> BookedTwice(w, bs)
  {
    StoredEqualsRecompute(w, bs);
    var c := bs[|bs| - 1].cuts;
    UndatedEarnsIff(After(bs).orders, After(bs).items, At(w, c.orders));
    forall o ensures HasNullRow(After(bs).items, o) <==> LeftBehind(w, bs, o) { NullRowsAreLeftBehind(w, bs, o); }
    BookedTwiceIff(w, bs, After(bs).items);
  }

  lemma BookedTwiceIff(w: World, bs: seq<Batch>, items: seq<ItemRow>)
    requires ValidWorld(w) && bs != [] && InOrder(w, bs[|bs| - 1].cuts)
    requires forall o :: HasNullRow(items, o) <==> LeftBehind(w, bs, o)
    ensures BookedTwice(w, bs) <==>
      exists o :: o in At(w, bs[|bs| - 1].cuts.orders).orders && IsRevenue(At(w, bs[|bs| - 1].cuts.orders).orders[o].status) && HasNullRow(items, o)
  {
    var c := bs[|bs| - 1].cuts;
    if o :| o in At(w, c.orders).orders && IsRevenue(At(w, c.orders).orders[o].status) && HasNullRow(items, o) {
      assert EarnsRevenue(w, c, o) && LeftBehind(w, bs, o);
    }
    if BookedTwice(w, bs) {
      var o :| EarnsRevenue(w, c, o) && LeftBehind(w, bs, o);
      assert HasNullRow(items, o);
    }
  }

  lemma ExcessMatters(lake: Lake)
    requires LinesKnown(lake.items)
    requires Sum(DailyRevenue(lake.orders, lake.items), NetOf)
      == Sum(lake.metrics, TotalRevenueOf) + Sum(RevenueOrders(lake.orders), LineSum(Filter(lake.items, Undated)))
    ensures Conserved(lake) <==> !UndatedEarns(lake.orders, lake.items)
    ensures Sum(DailyRevenue(lake.orders, lake.items), NetOf) >= Sum(lake.metrics, TotalRevenueOf)
  {
    UndatedLinesIffEarning(lake.orders, lake.items);
  }

  lemma ConservationIfFit(w: World, bs: seq<Batch>)
    requires ValidWorld(w) && ValidSchedule(w, bs) && bs != [] && Fit(After(bs))
    ensures Conserved(After(bs)) <==> !UndatedEarns(After(bs).orders, After(bs).items)
    ensures Conserved(After(bs)) <==> !BookedTwice(w, bs)
  {
    ExcessIfFit(w, bs);
    TablesAreBooked(w, bs);
    ExcessMatters(After(bs));
    UndatedEarnsIffBookedTwice(w, bs);
  }

  // ---- the stored daily table ------------------------------------------------------------------------

  /** Every run so far kept within the column. */
  ghost predicate EveryRunFits(bs: seq<Batch>) { forall k :: 0 <= k < |bs| ==> Fit(bs[k].left) }

  lemma OverwriteEarns(stored: seq<DailyRow>, out: seq<DailyRow>, l: Layout)
    requires Earns(stored) && Earns(out)
    ensures Earns(Overwrite(stored, out, DailyPartition(l)))
  {
  }

  /** No day is stored without revenue. */
  lemma {:induction false} StoredDaysEarn(w: World, bs: seq<Batch>)
    requires ValidWorld(w) && ValidSchedule(w, bs) && EveryRunFits(bs)
    ensures Earns(After(bs).daily)
  {
    if bs != [] {
      ScheduleInit(w, bs);
      StoredDaysEarn(w, bs[..|bs| - 1]);
      ExcessIfFit(w, bs);
      DailyIsOverwritten(w, bs);
      OverwriteEarns(After(bs[..|bs| - 1]).daily, DailyRevenue(After(bs).orders, After(bs).items), w.layout);
    }
  }

  lemma EarningsOf(days: seq<DailyRow>)
    requires Earns(days)
    ensures Sum(days, NetOf) >= |days|
  {
    SumAtLeast(days, NetOf);
  }

  /** What is kept of old days adds to the total, unless nothing is kept. */
  lemma OverwrittenTotal(stored: seq<DailyRow>, out: seq<DailyRow>, l: Layout)
    requires Earns(stored)
    ensures Sum(Overwrite(stored, out, DailyPartition(l)), NetOf) >= Sum(out, NetOf)
    ensures Sum(Overwrite(stored, out, DailyPartition(l)), NetOf) == Sum(out, NetOf) <==> Touched(stored, out, DailyPartition(l))
  {
    var kept := Filter(stored, Kept(out, DailyPartition(l)));
    SumAppend(kept, out, NetOf);
    EarningsOf(kept);
    OverwriteIsRecomputeIffTouched(stored, out, DailyPartition(l));
    assert Overwrite(stored, out, DailyPartition(l)) == kept + out;
    assert kept == [] <==> kept + out == out by { assert |kept + out| == |kept| + |out|; if kept == [] { assert kept + out == out; } }
  }

  lemma StoredExcess(lake: Lake, stored: seq<DailyRow>, l: Layout)
    requires Earns(stored)
    requires lake.daily == Overwrite(stored, DailyRevenue(lake.orders, lake.items), DailyPartition(l))
    requires Sum(DailyRevenue(lake.orders, lake.items), NetOf) >= Sum(lake.metrics, TotalRevenueOf)
    ensures StoredConserved(lake) <==> Conserved(lake) && Touched(stored, DailyRevenue(lake.orders, lake.items), DailyPartition(l))
  {
    OverwrittenTotal(stored, DailyRevenue(lake.orders, lake.items), l);
  }

  lemma DailyExceedsMetrics(w: World, bs: seq<Batch>)
    requires ValidWorld(w) && ValidSchedule(w, bs) && bs != [] && Fit(After(bs))
    ensures Sum(DailyRevenue(After(bs).orders, After(bs).items), NetOf) >= Sum(After(bs).metrics, TotalRevenueOf)
  {
    ExcessIfFit(w, bs);
    TablesAreBooked(w, bs);
    ExcessMatters(After(bs));
  }

  lemma StoredConservationIfFit(w: World, bs: seq<Batch>)
    requires ValidWorld(w) && ValidSchedule(w, bs) && bs != [] && EveryRunFits(bs)
    ensures StoredConserved(After(bs)) <==> !BookedTwice(w, bs) && EveryMonthStillEarns(w, bs)
  {
    ScheduleInit(w, bs);
    StoredDaysEarn(w, bs[..|bs| - 1]);
    DailyExceedsMetrics(w, bs);
    DailyIsOverwritten(w, bs);
    StoredExcess(After(bs), After(bs[..|bs| - 1]).daily, w.layout);
    ConservationIfFit(w, bs);
    DaysTouchedIff(w, bs);
  }

  // ---- sizes: when everything fits -----------------------------------------------------------------

  lemma {:induction false} MirrorIsNoLarger<V, R>(rows: seq<R>, key: R -> Option<int>, table: map<int, V>)
    requires DistinctBy(rows, key) && forall r :: r in rows ==> key(r).Some? && key(r).value in table
    ensures |rows| <= |table|
  {
    if rows != [] {
      var k := key(rows[0]).value;
      var rest := rows[1..];
      forall r | r in rest ensures key(r) != Some(k) {
        var i :| 0 <= i < |rest| && rest[i] == r;
        assert rows[i + 1] == r;
      }
      MirrorIsNoLarger(rest, key, table - {k});
      assert (table - {k})[k := table[k]] == table;
    }
  }

  lemma MirroredRows<V, R>(rows: seq<R>, key: R -> Option<int>, p: (int, Image<V>) -> R, table: map<int, V>)
    requires Mirrors(rows, key, p, table)
    ensures |rows| <= |table|
  {
    forall r | r in rows ensures key(r).Some? && key(r).value in table { assert IsImage(r, key, p, table); }
    MirrorIsNoLarger(rows, key, table);
  }

  lemma KeysAreCounted<V>(s: map<int, V>, t: map<int, V>)
    requires forall k :: k in s ==> k in t
    ensures |s| <= |t|
  {
    assert forall k :: k in s.Keys ==> k in t.Keys;
    CountSubset(s.Keys, t.Keys);
    assert |s.Keys| == |s| && |t.Keys| == |t|;
  }

  lemma {:induction false} CountSubset(s: set<int>, t: set<int>)
    requires s <= t
    ensures |s| <= |t|
  {
    if s != {} {
      var x := Pick(s);
      CountSubset(s - {x}, t - {x});
    }
  }

  /** Rows are never removed, so no earlier cut has more than the latest commit. */
  lemma RowsAt(w: World, k: nat)
    requires ValidWorld(w) && k < |w.commits|
    ensures |At(w, k).orders| <= |Latest(w).orders| && |At(w, k).items| <= |Latest(w).items|
  {
    var s, t := At(w, k), Latest(w);
    assert Grows(s, t) by { SourceGrows(w, k, |w.commits| - 1); }
    RowsGrow(s, t);
  }

  lemma RowsGrow(s: Db, t: Db)
    requires Grows(s, t)
    ensures |s.orders| <= |t.orders| && |s.items| <= |t.items|
  {
    forall o | o in s.orders ensures o in t.orders { assert OrderGrows(s, t, o); }
    KeysAreCounted(s.orders, t.orders);
    KeysAreCounted(s.items, t.items);
  }

  lemma OrderRowsAfter(w: World, bs: seq<Batch>)
    requires ValidWorld(w) && ValidSchedule(w, bs) && bs != []
    ensures |After(bs).orders| <= |Latest(w).orders|
  {
    StoredEqualsRecompute(w, bs);
    RowsAt(w, bs[|bs| - 1].cuts.orders);
    MirroredRows(After(bs).orders, OrderKey, OrderImage, At(w, bs[|bs| - 1].cuts.orders).orders);
  }

  /** As many orders as fit whatever the cuts: twice the dearest order each. */
  ghost predicate FewOrders(w: World)
    requires w.commits != []
  {
    |Latest(w).orders| <= 700_000_000_000
  }

  lemma FewOrdersFit(w: World, bs: seq<Batch>)
    requires ValidWorld(w) && ValidSchedule(w, bs) && bs != [] && FewOrders(w)
    ensures Fit(After(bs))
  {
    TablesAreBooked(w, bs);
    OrderRowsAfter(w, bs);
    SmallEnough(After(bs).orders, After(bs).items);
  }

  lemma SmallEnough(orders: seq<OrderRow>, items: seq<ItemRow>)
    requires WellBooked(orders, items) && |orders| <= 700_000_000_000
    ensures BooksFit(orders, items)
  {
    forall o | o in RevenueOrders(orders) ensures LineSum(items)(o) <= 2 * MAX_TOTAL { assert LinesBounded(items, o.orderId); }
    SmallBooksFit(orders, items, 2 * MAX_TOTAL);
  }

  lemma OneMoreFits(bs: seq<Batch>)
    requires bs != [] && EveryRunFits(bs[..|bs| - 1]) && Fit(After(bs))
    ensures EveryRunFits(bs)
  {
    forall k | 0 <= k < |bs| ensures Fit(bs[k].left) { if k < |bs| - 1 { assert Fit(bs[..|bs| - 1][k].left); } }
  }

  /** No decimal overflow: order totals and line totals are bounded by the generator, so
      the books of every run of every schedule fit the column. */
  lemma {:induction false} EveryRunFitsWithFewOrders(w: World, bs: seq<Batch>)
    requires ValidWorld(w) && ValidSchedule(w, bs) && FewOrders(w)
    ensures EveryRunFits(bs)
  {
    if bs != [] {
      ScheduleInit(w, bs);
      EveryRunFitsWithFewOrders(w, bs[..|bs| - 1]);
      FewOrdersFit(w, bs);
      OneMoreFits(bs);
    }
  }

  // ---- the exact conditions ------------------------------------------------------------------------

  /** For every run of the source and every schedule of batches, even with skewed cuts:
      the daily net revenue exceeds the customers' lifetime revenue by exactly the
      undated lines of revenue orders. */
  lemma RevenueExcess(w: World, bs: seq<Batch>)
    requires ValidWorld(w) && ValidSchedule(w, bs) && bs != [] && FewOrders(w)
    ensures var lake := After(bs);
      Sum(DailyRevenue(lake.orders, lake.items), NetOf)
        == Sum(lake.metrics, TotalRevenueOf) + Sum(RevenueOrders(lake.orders), LineSum(Filter(lake.items, Undated)))
    ensures Earns(DailyRevenue(After(bs).orders, After(bs).items))
  {
    FewOrdersFit(w, bs);
    ExcessIfFit(w, bs);
  }

  /** The exact condition of conservation, on the stored Silver tables and on the runs'
      cuts: line-item revenue equals order-total revenue if and only if no stored line
      without a date belongs to a revenue order, that is, none was booked twice. */
  lemma ConservationIff(w: World, bs: seq<Batch>)
    requires ValidWorld(w) && ValidSchedule(w, bs) && bs != [] && FewOrders(w)
    ensures Conserved(After(bs)) <==> !UndatedEarns(After(bs).orders, After(bs).items)
    ensures Conserved(After(bs)) <==> !BookedTwice(w, bs)
  {
    FewOrdersFit(w, bs);
    ConservationIfFit(w, bs);
  }

  /** The two stored Gold tables agree, whatever the cuts, if and only if no line was
      booked twice and no month has lost its last revenue order since some earlier run. */
  lemma StoredConservationIff(w: World, bs: seq<Batch>)
    requires ValidWorld(w) && ValidSchedule(w, bs) && bs != [] && FewOrders(w)
    ensures StoredConserved(After(bs)) <==> !BookedTwice(w, bs) && EveryMonthStillEarns(w, bs)
  {
    EveryRunFitsWithFewOrders(w, bs);
    StoredConservationIfFit(w, bs);
  }

  // ---- common cuts -------------------------------------------------------------------------------------

  /** At a common cut every item's order is seen with it. */
  lemma NoOrphanAtCommonCut(w: World, c: Cuts)
    requires ValidWorld(w) && c.items == c.orders
    ensures forall o :: !OrphanOrder(w, c, o)
  {
    if InOrder(w, c) { SourceAt(w, c.orders); }
  }

  lemma NothingBookedTwice(w: World, bs: seq<Batch>)
    requires ValidWorld(w) && bs != [] && CommonCuts(bs)
    ensures !BookedTwice(w, bs)
  {
    forall k, o | 0 <= k < |bs| ensures !OrphanOrder(w, bs[k].cuts, o) { NoOrphanAtCommonCut(w, bs[k].cuts); }
  }

  lemma NothingUndated(orders: seq<OrderRow>, items: seq<ItemRow>)
    requires WellBooked(orders, items) && |orders| <= 1_000_000_000_000 && forall r :: r in items ==> !Undated(r)
    ensures BooksFit(orders, items)
  {
    FilterNone(items, Undated);
    forall o | o in RevenueOrders(orders) ensures LineSum(items)(o) <= MAX_TOTAL { assert BooksTotal(items, o); }
    SmallBooksFit(orders, items, MAX_TOTAL);
  }

  lemma CommonCutsFit(w: World, bs: seq<Batch>)
    requires ValidWorld(w) && ValidSchedule(w, bs) && bs != [] && CommonCuts(bs)
    requires |After(bs).orders| <= 1_000_000_000_000
    ensures Fit(After(bs))
  {
    CommonCutsLeaveNoOrphans(w, bs);
    TablesAreBooked(w, bs);
    NothingUndated(After(bs).orders, After(bs).items);
  }

  /** End-to-end conservation: with every run's topics read at one commit, the daily net
      revenue, built from line items, equals the customers' lifetime revenue, built from
      order totals. */
  lemma Conservation(w: World, bs: seq<Batch>)
    requires ValidWorld(w) && ValidSchedule(w, bs) && bs != [] && CommonCuts(bs)
    requires |After(bs).orders| <= 1_000_000_000_000
    ensures Conserved(After(bs))
  {
    CommonCutsFit(w, bs);
    NothingBookedTwice(w, bs);
    ConservationIfFit(w, bs);
  }

  lemma {:induction false} CommonCutsAlwaysFit(w: World, bs: seq<Batch>)
    requires ValidWorld(w) && ValidSchedule(w, bs) && CommonCuts(bs) && |Latest(w).orders| <= 1_000_000_000_000
    ensures EveryRunFits(bs)
  {
    if bs != [] {
      ScheduleInit(w, bs);
      CommonCutsInit(bs);
      CommonCutsAlwaysFit(w, bs[..|bs| - 1]);
      OrderRowsAfter(w, bs);
      CommonCutsFit(w, bs);
      OneMoreFits(bs);
    }
  }

  /** ... and the stored tables agree as long as no month loses its last revenue order. */
  lemma StoredConservationAtCommonCuts(w: World, bs: seq<Batch>)
    requires ValidWorld(w) && ValidSchedule(w, bs) && bs != [] && CommonCuts(bs) && |Latest(w).orders| <= 1_000_000_000_000
    ensures StoredConserved(After(bs)) <==> EveryMonthStillEarns(w, bs)
  {
    CommonCutsAlwaysFit(w, bs);
    NothingBookedTwice(w, bs);
    StoredConservationIfFit(w, bs);
  }
}
