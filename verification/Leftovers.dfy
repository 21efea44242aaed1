/** Which rows of earlier runs stay in the stored tables, read off the source at the cuts. */
module Leftovers {
  import opened Options
  import opened Aggregates
  import opened Source
  import opened Gold
  import opened GoldLaws
  import opened Tables
  import opened Lakehouse
  import opened LakehouseRuns

  // ---- silver.order_items: orphans -----------------------------------------------------------

  /** A run with these cuts sees items of order `o` but not the order. */
  ghost predicate OrphanOrder(w: World, c: Cuts, o: int)
    requires ValidWorld(w)
  {
    InOrder(w, c) && o !in At(w, c.orders).orders && exists i :: i in At(w, c.items).items && At(w, c.items).items[i].orderId == o
  }

  /** ... or of some order of this bucket. */
  ghost predicate OrphanBucket(w: World, c: Cuts, bucket: int)
    requires ValidWorld(w)
  {
    exists o :: OrphanOrder(w, c, o) && w.layout.bucket16(o) == bucket
  }

  /** Some run stored orphans of the order, and no later one had an orphan in its bucket. */
  ghost predicate LeftBehind(w: World, bs: seq<Batch>, o: int)
    requires ValidWorld(w)
  {
    exists k :: OrphanUntil(w, bs, o, k, |bs|)
  }

  /** Run `k` stored orphans of the order and no run after it, up to `n`, rewrote them. */
  ghost predicate OrphanUntil(w: World, bs: seq<Batch>, o: int, k: int, n: int)
    requires ValidWorld(w) && n <= |bs|
  {
    && 0 <= k < n && OrphanOrder(w, bs[k].cuts, o)
    && forall j :: k < j < n ==> !OrphanBucket(w, bs[j].cuts, w.layout.bucket16(o))
  }

  lemma LeftBehindSnoc(w: World, bs: seq<Batch>, o: int)
    requires ValidWorld(w) && bs != []
    ensures LeftBehind(w, bs, o) <==>
      OrphanOrder(w, bs[|bs| - 1].cuts, o) ||
      (LeftBehind(w, bs[..|bs| - 1], o) && !OrphanBucket(w, bs[|bs| - 1].cuts, w.layout.bucket16(o)))
  {
    var n := |bs| - 1;
    if OrphanOrder(w, bs[n].cuts, o) { assert OrphanUntil(w, bs, o, n, n + 1); }
    if LeftBehind(w, bs[..n], o) && !OrphanBucket(w, bs[n].cuts, w.layout.bucket16(o)) {
      var k :| OrphanUntil(w, bs[..n], o, k, n);
      assert OrphanUntil(w, bs, o, k, n + 1) by {
        forall j | k < j < n ensures !OrphanBucket(w, bs[j].cuts, w.layout.bucket16(o)) { assert bs[j] == bs[..n][j]; }
      }
    }
    if k :| OrphanUntil(w, bs, o, k, |bs|) && k < n {
      assert OrphanUntil(w, bs[..n], o, k, n);
    }
  }

  /** The table holds a row of the order without a date. */
  ghost predicate HasNullRow(items: seq<ItemRow>, o: int) {
    exists r :: r in items && r.orderCreatedAt.None? && r.orderId == o
  }

  lemma OutputNullRows(w: World, out: seq<ItemRow>, c: Cuts, o: int)
    requires ValidWorld(w) && InOrder(w, c) && Consistent(At(w, c.items))
    requires Mirrors(out, ItemKey, DatedItem(At(w, c.orders).orders), At(w, c.items).items)
    ensures HasNullRow(out, o) <==> OrphanOrder(w, c, o)
  {
    var s, t := At(w, c.orders), At(w, c.items);
    if r :| r in out && r.orderCreatedAt.None? && r.orderId == o {
      OutputCarried(out, s, t, r);
    }
    if i :| o !in s.orders && i in t.items && t.items[i].orderId == o {
      assert HasKey(out, ItemKey, i);
      var r :| r in out && ItemKey(r) == Some(i);
      OutputCarried(out, s, t, r);
    }
  }

  lemma KeptNullRows(stored: seq<ItemRow>, out: seq<ItemRow>, l: Layout, o: int)
    ensures HasNullRow(Filter(stored, Kept(out, ItemPartition(l))), o) <==>
      HasNullRow(stored, o) && !exists x :: x in out && x.orderCreatedAt.None? && l.bucket16(x.orderId) == l.bucket16(o)
  {
    var part := ItemPartition(l);
    forall r | r in stored && r.orderCreatedAt.None? && r.orderId == o
      ensures Kept(out, part)(r) <==> !exists x :: x in out && x.orderCreatedAt.None? && l.bucket16(x.orderId) == l.bucket16(o)
    {
      OrphanTouched(out, l, r);
    }
  }

  lemma NullBuckets(w: World, out: seq<ItemRow>, c: Cuts, h: int)
    requires ValidWorld(w) && InOrder(w, c) && Consistent(At(w, c.items))
    requires Mirrors(out, ItemKey, DatedItem(At(w, c.orders).orders), At(w, c.items).items)
    ensures OrphanBucket(w, c, h) <==> exists x :: x in out && x.orderCreatedAt.None? && w.layout.bucket16(x.orderId) == h
  {
    if x :| x in out && x.orderCreatedAt.None? && w.layout.bucket16(x.orderId) == h {
      assert HasNullRow(out, x.orderId);
      OutputNullRows(w, out, c, x.orderId);
    }
    if o :| OrphanOrder(w, c, o) && w.layout.bucket16(o) == h {
      OutputNullRows(w, out, c, o);
    }
  }

  lemma NullRowsOver(w: World, stored: seq<ItemRow>, out: seq<ItemRow>, c: Cuts, o: int)
    requires ValidWorld(w) && InOrder(w, c) && Consistent(At(w, c.items))
    requires Mirrors(out, ItemKey, DatedItem(At(w, c.orders).orders), At(w, c.items).items)
    ensures HasNullRow(Overwrite(stored, out, ItemPartition(w.layout)), o) <==>
      OrphanOrder(w, c, o) || (HasNullRow(stored, o) && !OrphanBucket(w, c, w.layout.bucket16(o)))
  {
    OutputNullRows(w, out, c, o);
    NullBuckets(w, out, c, w.layout.bucket16(o));
    KeptNullRows(stored, out, w.layout, o);
    var kept := Filter(stored, Kept(out, ItemPartition(w.layout)));
    assert forall r :: r in kept + out <==> r in kept || r in out;
  }

  lemma NullRowsStep(w: World, lake: Lake, b: Batch, o: int)
    requires ValidWorld(w) && Feasible(w, lake, b) && Carries(w, lake, b.cuts)
    ensures HasNullRow(NextLake(w, lake, b).items, o) <==>
      OrphanOrder(w, b.cuts, o) || (HasNullRow(lake.items, o) && !OrphanBucket(w, b.cuts, w.layout.bucket16(o)))
  {
    ItemsStep(w, lake, b);
    SourceAt(w, b.cuts.items);
    NullRowsOver(w, lake.items, ItemsOut(w, lake, b), b.cuts, o);
  }

  /** The rows without a date in the stored silver.order_items are exactly those of the
      orders left behind. */
  lemma {:induction false} NullRowsAreLeftBehind(w: World, bs: seq<Batch>, o: int)
    requires ValidWorld(w) && ValidSchedule(w, bs)
    ensures HasNullRow(After(bs).items, o) <==> LeftBehind(w, bs, o)
  {
    if bs != [] {
      ScheduleInit(w, bs);
      NullRowsAreLeftBehind(w, bs[..|bs| - 1], o);
      LeftBehindSnoc(w, bs, o);
      LastRunCarries(w, bs);
      NullRowsStep(w, After(bs[..|bs| - 1]), bs[|bs| - 1], o);
    }
  }

  lemma UntouchedBuckets(w: World, stored: seq<ItemRow>, out: seq<ItemRow>, c: Cuts)
    requires ValidWorld(w) && InOrder(w, c) && Consistent(At(w, c.items))
    requires Mirrors(out, ItemKey, DatedItem(At(w, c.orders).orders), At(w, c.items).items)
    ensures OrphanBucketsTouched(stored, out, w.layout) <==>
      forall o :: HasNullRow(stored, o) ==> OrphanBucket(w, c, w.layout.bucket16(o))
  {
    forall h ensures OrphanBucket(w, c, h) <==> exists x :: x in out && x.orderCreatedAt.None? && w.layout.bucket16(x.orderId) == h {
      NullBuckets(w, out, c, h);
    }
    if forall o :: HasNullRow(stored, o) ==> OrphanBucket(w, c, w.layout.bucket16(o)) {
      forall r | r in stored && r.orderCreatedAt.None?
        ensures exists x :: x in out && x.orderCreatedAt.None? && w.layout.bucket16(x.orderId) == w.layout.bucket16(r.orderId)
      {
        assert HasNullRow(stored, r.orderId);
      }
    }
  }

  lemma ItemsEqualRecomputeStep(w: World, lake: Lake, b: Batch)
    requires ValidWorld(w) && Feasible(w, lake, b) && Carries(w, lake, b.cuts)
    ensures NextLake(w, lake, b).items == ItemsOut(w, lake, b) <==>
      forall o :: HasNullRow(lake.items, o) ==> OrphanBucket(w, b.cuts, w.layout.bucket16(o))
  {
    ItemsEqualRecomputeIffStep(w, lake, b);
    ItemsStep(w, lake, b);
    SourceAt(w, b.cuts.items);
    UntouchedBuckets(w, lake.items, ItemsOut(w, lake, b), b.cuts);
  }

  /** silver.order_items equals its recompute exactly when each order left behind before
      has an orphan in its bucket again. */
  lemma ItemsEqualRecomputeIff(w: World, bs: seq<Batch>)
    requires ValidWorld(w) && ValidSchedule(w, bs) && bs != []
    ensures var init, b := bs[..|bs| - 1], bs[|bs| - 1];
      After(bs).items == ItemsComputed(b) <==>
      forall o :: LeftBehind(w, init, o) ==> OrphanBucket(w, b.cuts, w.layout.bucket16(o))
  {
    var init, b := bs[..|bs| - 1], bs[|bs| - 1];
    LastRunCarries(w, bs);
    ItemsEqualRecomputeStep(w, After(init), b);
    forall o ensures HasNullRow(After(init).items, o) <==> LeftBehind(w, init, o) { NullRowsAreLeftBehind(w, init, o); }
  }

  // ---- gold.daily_revenue: months ---------------------------------------------------------------

  function MonthOf(l: Layout, date: Option<int>): Option<int> { if date.None? then None else Some(l.month(date.value)) }

  /** Silver has a revenue order created in this month. */
  ghost predicate MonthEarns(orders: seq<OrderRow>, l: Layout, m: Option<int>) {
    exists o :: o in RevenueOrders(orders) && MonthOf(l, OrderDate(o)) == m
  }

  /** A month occurs in the job's output exactly if it has a revenue order. */
  lemma MonthInOutputIffEarns(orders: seq<OrderRow>, items: seq<ItemRow>, l: Layout, m: Option<int>)
    ensures InSomeRow(DailyRevenue(orders, items), DailyPartition(l), m) <==> MonthEarns(orders, l, m)
  {
    DailyRowsAre(orders, items);
    MonthOfDays(RevenueOrders(orders), items, NewCustomersPerDate(RevenueOrders(orders)), l, m);
  }

  lemma MonthOfDays(revenue: seq<OrderRow>, items: seq<ItemRow>, firsts: seq<NewCustomers>, l: Layout, m: Option<int>)
    ensures var rows := Map(revenue, EnrichOrder(items));
      InSomeRow(Map(Keys(rows, EnrichedKey), DailyRowOf(rows, firsts)), DailyPartition(l), m) <==>
      exists o :: o in revenue && MonthOf(l, OrderDate(o)) == m
  {
    var rows := Map(revenue, EnrichOrder(items));
    MonthOfKeys(revenue, items, l, m);
    MonthOfRows(Keys(rows, EnrichedKey), rows, firsts, l, m);
  }

  lemma MonthOfRows(ks: seq<DayKey>, rows: seq<Enriched>, firsts: seq<NewCustomers>, l: Layout, m: Option<int>)
    ensures InSomeRow(Map(ks, DailyRowOf(rows, firsts)), DailyPartition(l), m) <==>
      exists i :: 0 <= i < |ks| && MonthOf(l, DateOf(ks[i])) == m
  {
    var days := Map(ks, DailyRowOf(rows, firsts));
    forall i | 0 <= i < |ks| ensures DailyPartition(l)(days[i]) == MonthOf(l, DateOf(ks[i])) {
      assert days[i] == DailyRowOf(rows, firsts)(ks[i]);
    }
  }

  lemma MonthOfKeys(revenue: seq<OrderRow>, items: seq<ItemRow>, l: Layout, m: Option<int>)
    ensures var ks := Keys(Map(revenue, EnrichOrder(items)), EnrichedKey);
      (exists i :: 0 <= i < |ks| && MonthOf(l, DateOf(ks[i])) == m) <==> exists o :: o in revenue && MonthOf(l, OrderDate(o)) == m
  {
    var ks := Keys(Map(revenue, EnrichOrder(items)), EnrichedKey);
    if i :| 0 <= i < |ks| && MonthOf(l, DateOf(ks[i])) == m {
      var o := OrderOfKey(revenue, items, i);
    }
    if o :| o in revenue && MonthOf(l, OrderDate(o)) == m {
      var i := KeyOfOrder(revenue, items, o);
    }
  }

  lemma OrderOfKey(revenue: seq<OrderRow>, items: seq<ItemRow>, i: nat) returns (o: OrderRow)
    requires i < |Keys(Map(revenue, EnrichOrder(items)), EnrichedKey)|
    ensures o in revenue && OrderDate(o) == DateOf(Keys(Map(revenue, EnrichOrder(items)), EnrichedKey)[i])
  {
    var rows := Map(revenue, EnrichOrder(items));
    var k := Keys(rows, EnrichedKey)[i];
    assert k in Keys(rows, EnrichedKey);
    var e :| e in rows && EnrichedKey(e) == k;
    var j :| 0 <= j < |rows| && rows[j] == e;
    o := revenue[j];
  }

  lemma KeyOfOrder(revenue: seq<OrderRow>, items: seq<ItemRow>, o: OrderRow) returns (i: nat)
    requires o in revenue
    ensures i < |Keys(Map(revenue, EnrichOrder(items)), EnrichedKey)|
    ensures OrderDate(o) == DateOf(Keys(Map(revenue, EnrichOrder(items)), EnrichedKey)[i])
  {
    var rows := Map(revenue, EnrichOrder(items));
    var ks := Keys(rows, EnrichedKey);
    var j :| 0 <= j < |revenue| && revenue[j] == o;
    assert rows[j] in rows && EnrichedKey(rows[j]) in ks;
    i :| 0 <= i < |ks| && ks[i] == EnrichedKey(rows[j]);
  }

  /** At this cut the source has a revenue order created in the month. */
  ghost predicate EarnsAt(w: World, c: Cuts, m: int)
    requires ValidWorld(w)
  {
    InOrder(w, c) && exists o :: RevenueIn(At(w, c.orders), w.layout, o, m)
  }

  ghost predicate RevenueIn(s: Db, l: Layout, o: int, m: int) {
    o in s.orders && IsRevenue(s.orders[o].status) && l.month(s.orders[o].createdAt / MS_PER_DAY) == m
  }

  ghost predicate EarnedAtSomeRun(w: World, bs: seq<Batch>, m: int)
    requires ValidWorld(w)
  {
    exists k :: 0 <= k < |bs| && EarnsAt(w, bs[k].cuts, m)
  }

  /** No month that had a revenue order when some earlier run read the orders is without
      one at the last run. */
  ghost predicate EveryMonthStillEarns(w: World, bs: seq<Batch>)
    requires ValidWorld(w) && bs != []
  {
    forall m :: EarnedAtSomeRun(w, bs, m) ==> EarnsAt(w, bs[|bs| - 1].cuts, m)
  }

  lemma MonthEarnsAtSource(orders: seq<OrderRow>, s: Db, l: Layout)
    requires Mirrors(orders, OrderKey, OrderImage, s.orders)
    ensures !MonthEarns(orders, l, None)
    ensures forall m :: MonthEarns(orders, l, Some(m)) <==> exists o :: RevenueIn(s, l, o, m)
  {
    forall r | r in RevenueOrders(orders) ensures RevenueIn(s, l, r.orderId, l.month(s.orders[r.orderId].createdAt / MS_PER_DAY))
      ensures MonthOf(l, OrderDate(r)) == Some(l.month(s.orders[r.orderId].createdAt / MS_PER_DAY))
    {
      assert IsImage(r, OrderKey, OrderImage, s.orders);
    }
    forall m, o | RevenueIn(s, l, o, m) ensures MonthEarns(orders, l, Some(m)) {
      assert HasKey(orders, OrderKey, o);
      var r :| r in orders && OrderKey(r) == Some(o);
      assert IsImage(r, OrderKey, OrderImage, s.orders);
      assert r in RevenueOrders(orders) && MonthOf(l, OrderDate(r)) == Some(m);
    }
  }

  lemma MonthsOver(stored: seq<DailyRow>, out: seq<DailyRow>, l: Layout, m: Option<int>)
    ensures InSomeRow(Overwrite(stored, out, DailyPartition(l)), DailyPartition(l), m) <==>
      InSomeRow(stored, DailyPartition(l), m) || InSomeRow(out, DailyPartition(l), m)
  {
    var part := DailyPartition(l);
    var kept := Filter(stored, Kept(out, part));
    if i :| 0 <= i < |kept + out| && part((kept + out)[i]) == m {
      if i < |kept| { InSome(stored, part, kept[i]); } else { InSome(out, part, out[i - |kept|]); }
    }
    if i :| 0 <= i < |stored| && part(stored[i]) == m && !InSomeRow(out, part, m) {
      assert stored[i] in kept && stored[i] in kept + out;
      InSome(kept + out, part, stored[i]);
    }
    if i :| 0 <= i < |out| && part(out[i]) == m {
      assert (kept + out)[|kept| + i] == out[i];
    }
  }

  lemma InSome<R, P>(rows: seq<R>, partition: R -> P, r: R)
    requires r in rows
    ensures InSomeRow(rows, partition, partition(r))
  {
    var i :| 0 <= i < |rows| && rows[i] == r;
  }

  lemma MonthsStep(w: World, lake: Lake, b: Batch, m: int)
    requires ValidWorld(w) && Feasible(w, lake, b) && Carries(w, lake, b.cuts)
    ensures InSomeRow(NextLake(w, lake, b).daily, DailyPartition(w.layout), Some(m)) <==>
      InSomeRow(lake.daily, DailyPartition(w.layout), Some(m)) || EarnsAt(w, b.cuts, m)
    ensures InSomeRow(NextLake(w, lake, b).daily, DailyPartition(w.layout), None) <==>
      InSomeRow(lake.daily, DailyPartition(w.layout), None)
    ensures EarnsAt(w, b.cuts, m) <==> MonthEarns(NextLake(w, lake, b).orders, w.layout, Some(m))
    ensures !MonthEarns(NextLake(w, lake, b).orders, w.layout, None)
  {
    OrdersStep(w, lake, b);
    var next := NextLake(w, lake, b);
    MonthEarnsAtSource(next.orders, At(w, b.cuts.orders), w.layout);
    MonthInOutputIffEarns(next.orders, next.items, w.layout, Some(m));
    MonthInOutputIffEarns(next.orders, next.items, w.layout, None);
    MonthsOver(lake.daily, DailyRevenue(next.orders, next.items), w.layout, Some(m));
    MonthsOver(lake.daily, DailyRevenue(next.orders, next.items), w.layout, None);
  }

  /** The months stored in gold.daily_revenue are those that earned at some run. */
  lemma {:induction false} StoredMonths(w: World, bs: seq<Batch>, m: int)
    requires ValidWorld(w) && ValidSchedule(w, bs)
    ensures InSomeRow(After(bs).daily, DailyPartition(w.layout), Some(m)) <==> EarnedAtSomeRun(w, bs, m)
    ensures !InSomeRow(After(bs).daily, DailyPartition(w.layout), None)
  {
    if bs != [] {
      ScheduleInit(w, bs);
      StoredMonths(w, bs[..|bs| - 1], m);
      LastRunCarries(w, bs);
      MonthsStep(w, After(bs[..|bs| - 1]), bs[|bs| - 1], m);
      EarnedSnoc(w, bs, m);
    }
  }

  lemma EarnedSnoc(w: World, bs: seq<Batch>, m: int)
    requires ValidWorld(w) && bs != []
    ensures EarnedAtSomeRun(w, bs, m) <==> EarnedAtSomeRun(w, bs[..|bs| - 1], m) || EarnsAt(w, bs[|bs| - 1].cuts, m)
  {
    var init := bs[..|bs| - 1];
    if EarnedAtSomeRun(w, init, m) {
      var k :| 0 <= k < |init| && EarnsAt(w, init[k].cuts, m);
      assert EarnsAt(w, bs[k].cuts, m);
    }
    if EarnedAtSomeRun(w, bs, m) {
      var k :| 0 <= k < |bs| && EarnsAt(w, bs[k].cuts, m);
      if k < |init| { assert EarnsAt(w, init[k].cuts, m); }
    }
  }

  lemma TouchedIffEarning(stored: seq<DailyRow>, orders: seq<OrderRow>, items: seq<ItemRow>, l: Layout)
    ensures Touched(stored, DailyRevenue(orders, items), DailyPartition(l)) <==>
      forall m :: InSomeRow(stored, DailyPartition(l), m) ==> MonthEarns(orders, l, m)
  {
    var part := DailyPartition(l);
    forall m ensures InSomeRow(DailyRevenue(orders, items), part, m) <==> MonthEarns(orders, l, m) {
      MonthInOutputIffEarns(orders, items, l, m);
    }
    forall r | r in stored ensures InSomeRow(stored, part, part(r)) { InSome(stored, part, r); }
  }

  /** Every stored day's month is rewritten exactly when no month has lost its last
      revenue order since some earlier run. */
  lemma DaysTouchedIff(w: World, bs: seq<Batch>)
    requires ValidWorld(w) && ValidSchedule(w, bs) && bs != []
    ensures Touched(After(bs[..|bs| - 1]).daily, DailyRevenue(After(bs).orders, After(bs).items), DailyPartition(w.layout))
      <==> EveryMonthStillEarns(w, bs)
  {
    var init, b := bs[..|bs| - 1], bs[|bs| - 1];
    var stored := After(init).daily;
    TouchedIffEarning(stored, After(bs).orders, After(bs).items, w.layout);
    LastRunCarries(w, bs);
    forall m: int
      ensures InSomeRow(stored, DailyPartition(w.layout), Some(m)) <==> EarnedAtSomeRun(w, init, m)
      ensures MonthEarns(After(bs).orders, w.layout, Some(m)) <==> EarnsAt(w, b.cuts, m)
      ensures !InSomeRow(stored, DailyPartition(w.layout), None)
    {
      StoredMonths(w, init, m);
      MonthsStep(w, After(init), b, m);
    }
    MonthsCompared(w, bs, stored, After(bs).orders);
  }

  lemma MonthsCompared(w: World, bs: seq<Batch>, stored: seq<DailyRow>, orders: seq<OrderRow>)
    requires ValidWorld(w) && bs != [] && !InSomeRow(stored, DailyPartition(w.layout), None)
    requires forall m :: InSomeRow(stored, DailyPartition(w.layout), Some(m)) <==> EarnedAtSomeRun(w, bs[..|bs| - 1], m)
    requires forall m :: MonthEarns(orders, w.layout, Some(m)) <==> EarnsAt(w, bs[|bs| - 1].cuts, m)
    ensures (forall p :: InSomeRow(stored, DailyPartition(w.layout), p) ==> MonthEarns(orders, w.layout, p)) <==> EveryMonthStillEarns(w, bs)
  {
    var init := bs[..|bs| - 1];
    forall m ensures EarnedAtSomeRun(w, bs, m) <==> EarnedAtSomeRun(w, init, m) || EarnsAt(w, bs[|bs| - 1].cuts, m) {
      EarnedSnoc(w, bs, m);
    }
    if forall p :: InSomeRow(stored, DailyPartition(w.layout), p) ==> MonthEarns(orders, w.layout, p) {
      forall m | EarnedAtSomeRun(w, bs, m) ensures EarnsAt(w, bs[|bs| - 1].cuts, m) {
        if EarnedAtSomeRun(w, init, m) { assert InSomeRow(stored, DailyPartition(w.layout), Some(m)); }
      }
    }
    if EveryMonthStillEarns(w, bs) {
      forall p | InSomeRow(stored, DailyPartition(w.layout), p) ensures MonthEarns(orders, w.layout, p) {
        assert p == Some(p.value) && EarnedAtSomeRun(w, bs, p.value);
      }
    }
  }

  /** gold.daily_revenue equals its recompute exactly when no month has lost its last
      revenue order since some earlier run. */
  lemma DailyEqualsRecomputeIff(w: World, bs: seq<Batch>)
    requires ValidWorld(w) && ValidSchedule(w, bs) && bs != []
    ensures After(bs).daily == DailyRevenue(After(bs).orders, After(bs).items) <==> EveryMonthStillEarns(w, bs)
  {
    DaysTouchedIff(w, bs);
    DailyIsOverwritten(w, bs);
    OverwriteIsRecomputeIffTouched(After(bs[..|bs| - 1]).daily, DailyRevenue(After(bs).orders, After(bs).items), DailyPartition(w.layout));
  }

  lemma DailyIsOverwritten(w: World, bs: seq<Batch>)
    requires ValidWorld(w) && ValidSchedule(w, bs) && bs != []
    ensures After(bs).daily
      == Overwrite(After(bs[..|bs| - 1]).daily, DailyRevenue(After(bs).orders, After(bs).items), DailyPartition(w.layout))
  {
    LastRun(w, bs);
  }
}
