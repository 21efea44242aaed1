/** The Gold tables of a schedule, row by row against the orders of the source. */
module SourceToGold {
  import opened Options
  import opened Aggregates
  import opened Source
  import opened Gold
  import opened GoldLaws
  import opened GoldRows
  import opened Lakehouse
  import opened LakehouseRuns
  import opened Leftovers
  import opened Books
  import opened EndToEnd
  import opened SourceToLake

  predicate Earned(o: Order) { o.status == Confirmed || o.status == Shipped || o.status == Delivered || o.status == Completed }

  predicate CreatedOn(o: Order, day: int) { 86_400_000 * day <= o.createdAt < 86_400_000 * (day + 1) }

  /** A customer's revenue orders. */
  function SoldTo(orders: map<int, Order>, customer: int): map<int, Order> {
    map k | k in orders && Earned(orders[k]) && orders[k].customerId == customer :: orders[k]
  }

  /** A day's revenue orders. */
  function SoldOn(orders: map<int, Order>, day: int): map<int, Order> {
    map k | k in orders && Earned(orders[k]) && CreatedOn(orders[k], day) :: orders[k]
  }

  // ---- part of the source against part of Silver ------------------------------------------------

  /** The rows that pass the filter are those of this part of the source table. */
  ghost predicate Selects(rows: seq<OrderRow>, p: OrderRow -> bool, table: map<int, Order>, part: map<int, Order>) {
    && (forall k :: k in part ==> k in table && part[k] == table[k])
    && (forall r :: r in rows ==> (p(r) <==> r.orderId in part))
  }

  lemma PartSum(rows: seq<OrderRow>, p: OrderRow -> bool, table: map<int, Order>, part: map<int, Order>, g: OrderRow -> int, f: Order -> int)
    requires TableIs(rows, OrderId, SameOrder, table) && Selects(rows, p, table, part)
    requires forall r :: r in rows && p(r) ==> g(r) == f(table[r.orderId])
    ensures Sum(Filter(rows, p), g) == MapSum(part, f)
  {
    FilterKeepsDistinct(rows, p, OrderId);
    forall k | k in part ensures exists r :: r in Filter(rows, p) && OrderId(r) == k { assert HasRow(rows, OrderId, k); }
    RowsSum(Filter(rows, p), OrderId, g, part, f);
  }

  lemma PartSize(rows: seq<OrderRow>, p: OrderRow -> bool, table: map<int, Order>, part: map<int, Order>)
    requires TableIs(rows, OrderId, SameOrder, table) && Selects(rows, p, table, part)
    ensures |Filter(rows, p)| == |part|
  {
    PartSum(rows, p, table, part, One<OrderRow>(), (o: Order) => 1);
    CountIsSum(Filter(rows, p));
    MapSumCounts(part, (o: Order) => 1);
  }

  lemma SelectsSoldTo(rows: seq<OrderRow>, table: map<int, Order>, customer: int)
    requires TableIs(rows, OrderId, SameOrder, table)
    ensures Selects(rows, EarningOf(customer), table, SoldTo(table, customer))
  {
    forall r | r in rows ensures EarningOf(customer)(r) <==> r.orderId in SoldTo(table, customer) { assert SameOrder(r, table[OrderId(r)]); }
  }

  lemma SelectsSoldOn(rows: seq<OrderRow>, table: map<int, Order>, day: int)
    requires TableIs(rows, OrderId, SameOrder, table)
    ensures Selects(rows, EarningOn(Some(day), "USD"), table, SoldOn(table, day))
  {
    forall r | r in rows ensures EarningOn(Some(day), "USD")(r) <==> r.orderId in SoldOn(table, day) { assert SameOrder(r, table[OrderId(r)]); }
  }

  // ---- gold.customer_metrics ----------------------------------------------------------------------

  ghost predicate FirstDay(mine: map<int, Order>, day: Option<int>) {
    match day
    case None => mine == map[]
    case Some(d) => (exists k :: k in mine && CreatedOn(mine[k], d)) && forall k :: k in mine ==> 86_400_000 * d <= mine[k].createdAt
  }

  ghost predicate LastDay(mine: map<int, Order>, day: Option<int>) {
    match day
    case None => mine == map[]
    case Some(d) => (exists k :: k in mine && CreatedOn(mine[k], d)) && forall k :: k in mine ==> mine[k].createdAt < 86_400_000 * (d + 1)
  }

  lemma RowOf(rows: seq<OrderRow>, table: map<int, Order>, k: int) returns (r: OrderRow)
    requires TableIs(rows, OrderId, SameOrder, table) && k in table
    ensures r in rows && r.orderId == k && SameOrder(r, table[k])
  {
    assert HasRow(rows, OrderId, k);
    r :| r in rows && OrderId(r) == k;
  }

  /** These rows are the orders of this part of the source, created when they say. */
  ghost predicate DatesOf(mine: seq<OrderRow>, sold: map<int, Order>) {
    && (forall r :: r in mine ==> r.orderId in sold && r.createdAt == Some(sold[r.orderId].createdAt))
    && (forall k :: k in sold ==> HasOrder(mine, k))
  }

  ghost predicate HasOrder(mine: seq<OrderRow>, k: int) { exists r :: r in mine && r.orderId == k }

  lemma DatesOfSold(rows: seq<OrderRow>, table: map<int, Order>, customer: int)
    requires TableIs(rows, OrderId, SameOrder, table)
    ensures DatesOf(Filter(rows, EarningOf(customer)), SoldTo(table, customer))
  {
    var mine, sold := Filter(rows, EarningOf(customer)), SoldTo(table, customer);
    SelectsSoldTo(rows, table, customer);
    forall r | r in mine ensures r.orderId in sold && r.createdAt == Some(sold[r.orderId].createdAt) { assert SameOrder(r, table[OrderId(r)]); }
    forall k | k in sold ensures HasOrder(mine, k) {
      var r := RowOf(rows, table, k);
      assert r in mine;
    }
  }

  lemma FirstDayOf(mine: seq<OrderRow>, sold: map<int, Order>, day: Option<int>)
    requires DatesOf(mine, sold) && IsFirstDay(mine, day)
    ensures FirstDay(sold, day)
  {
    forall k | k in sold ensures day.Some? && 86_400_000 * day.value <= sold[k].createdAt { assert HasOrder(mine, k); }
    if day.Some? {
      var r :| r in mine && OnDay(r, day);
      assert CreatedOn(sold[r.orderId], day.value);
    }
  }

  lemma LastDayOf(mine: seq<OrderRow>, sold: map<int, Order>, day: Option<int>)
    requires DatesOf(mine, sold) && IsLastDay(mine, day)
    ensures LastDay(sold, day)
  {
    forall k | k in sold ensures day.Some? && sold[k].createdAt < 86_400_000 * (day.value + 1) { assert HasOrder(mine, k); }
    if day.Some? {
      var r :| r in mine && OnDay(r, day);
      assert CreatedOn(sold[r.orderId], day.value);
    }
  }

  ghost predicate MetricsAre(m: MetricsRow, mine: map<int, Order>, today: int) {
    && m.totalOrders == |mine|
    && FirstDay(mine, m.firstOrderDate) && LastDay(mine, m.lastOrderDate)
    && m.daysSinceLastOrder == (if m.lastOrderDate.None? then None else Some(today - m.lastOrderDate.value))
    && (m.isChurned <==> m.lastOrderDate.Some? && today - m.lastOrderDate.value > 90)
  }

  lemma MetricsOfTable(rows: seq<OrderRow>, customers: seq<CustomerRow>, today: int, table: map<int, Order>, m: MetricsRow)
    requires TableIs(rows, OrderId, SameOrder, table) && m in CustomerMetrics(rows, customers, today)
    ensures MetricsAre(m, SoldTo(table, m.customerId), today)
  {
    MetricsRowDates(rows, customers, today, m);
    SelectsSoldTo(rows, table, m.customerId);
    PartSize(rows, EarningOf(m.customerId), table, SoldTo(table, m.customerId));
    DatesOfSold(rows, table, m.customerId);
    FirstDayOf(Filter(rows, EarningOf(m.customerId)), SoldTo(table, m.customerId), m.firstOrderDate);
    LastDayOf(Filter(rows, EarningOf(m.customerId)), SoldTo(table, m.customerId), m.lastOrderDate);
  }

  /** For every run of the source and every schedule, a stored metrics row says of its customer's
      revenue orders in the source, at the orders' cut: how many, the first and last day,
      the days since, and churn after more than 90. */
  lemma MetricsOfSource(w: World, bs: seq<Batch>, m: MetricsRow)
    requires ValidWorld(w) && ValidSchedule(w, bs) && bs != [] && m in After(bs).metrics
    ensures var b := bs[|bs| - 1]; MetricsAre(m, SoldTo(At(w, b.cuts.orders).orders, m.customerId), b.choices.today)
  {
    StoredEqualsRecompute(w, bs);
    SilverColumns(w, bs);
    var b := bs[|bs| - 1];
    MetricsOfTable(After(bs).orders, After(bs).customers, b.choices.today, At(w, b.cuts.orders).orders, m);
  }

  lemma FewTotals(rows: seq<OrderRow>, p: OrderRow -> bool, s: Db)
    requires Consistent(s) && TableIs(rows, OrderId, SameOrder, s.orders) && |rows| <= 1_000_000_000_000
    ensures 0 <= Sum(Filter(rows, p), TotalOf) < 1_000_000_000_000_000_000
  {
    forall r | r in rows ensures 0 <= TotalOf(r) <= MAX_TOTAL { TotalBounded(rows, s, r); }
    SmallSum(Filter(rows, p), TotalOf);
  }

  lemma TotalBounded(rows: seq<OrderRow>, s: Db, r: OrderRow)
    requires Consistent(s) && TableIs(rows, OrderId, SameOrder, s.orders) && r in rows
    ensures 0 <= TotalOf(r) <= MAX_TOTAL
  {
    assert SameOrder(r, s.orders[OrderId(r)]);
    TotalBounds(s, r.orderId);
  }

  lemma SmallSum(rows: seq<OrderRow>, f: OrderRow -> int)
    requires |rows| <= 1_000_000_000_000 && forall r :: r in rows ==> 0 <= f(r) <= MAX_TOTAL
    ensures 0 <= Sum(rows, f) < 1_000_000_000_000_000_000
  {
    SumBounds(rows, f, 0, 700_000);
  }

  /** Its revenue is the sum of their totals, and the average their mean to the nearest cent. */
  lemma MetricsRevenueOfSource(w: World, bs: seq<Batch>, m: MetricsRow)
    requires ValidWorld(w) && ValidSchedule(w, bs) && bs != [] && m in After(bs).metrics
    requires |Latest(w).orders| <= 1_000_000_000_000
    ensures var mine := SoldTo(At(w, bs[|bs| - 1].cuts.orders).orders, m.customerId);
      && m.totalRevenue == MapSum(mine, TotalAmount)
      && (|mine| < 10_000_000_000 ==> IsMean(m.avgOrderValue, MapSum(mine, TotalAmount), |mine|))
  {
    StoredEqualsRecompute(w, bs);
    SilverColumns(w, bs);
    OrderRowsAfter(w, bs);
    var b, lake := bs[|bs| - 1], After(bs);
    SourceAt(w, b.cuts.orders);
    RevenueOfCustomer(lake.orders, lake.customers, b.choices.today, m, At(w, b.cuts.orders));
  }

  lemma RevenueOfCustomer(rows: seq<OrderRow>, customers: seq<CustomerRow>, today: int, m: MetricsRow, s: Db)
    requires Consistent(s) && TableIs(rows, OrderId, SameOrder, s.orders) && |rows| <= 1_000_000_000_000
    requires m in CustomerMetrics(rows, customers, today)
    ensures var mine := SoldTo(s.orders, m.customerId);
      && m.totalRevenue == MapSum(mine, TotalAmount)
      && (|mine| < 10_000_000_000 ==> IsMean(m.avgOrderValue, MapSum(mine, TotalAmount), |mine|))
  {
    var p, part := EarningOf(m.customerId), SoldTo(s.orders, m.customerId);
    forall r | r in rows ensures r.total == Some(TotalOf(r)) && TotalOf(r) == TotalAmount(s.orders[r.orderId]) { assert SameOrder(r, s.orders[OrderId(r)]); }
    SelectsSoldTo(rows, s.orders, m.customerId);
    PartSum(rows, p, s.orders, part, TotalOf, TotalAmount);
    PartSize(rows, p, s.orders, part);
    FewTotals(rows, p, s);
    MetricsRowRevenue(rows, customers, today, m, TotalOf);
  }

  // ---- gold.daily_revenue --------------------------------------------------------------------------

  /** The customers with a revenue order created on that day and none before it. */
  ghost function NewOnDayOf(orders: map<int, Order>, day: int): set<int> {
    set k | k in SoldOn(orders, day) && !EarlierBuyer(orders, orders[k].customerId, day) :: orders[k].customerId
  }

  ghost predicate EarlierBuyer(orders: map<int, Order>, customer: int, day: int) {
    exists k :: k in SoldTo(orders, customer) && orders[k].createdAt < 86_400_000 * day
  }

  lemma BuyersOfSource(rows: seq<OrderRow>, table: map<int, Order>, day: int)
    requires TableIs(rows, OrderId, SameOrder, table)
    ensures NewBuyers(rows, day) == NewOnDayOf(table, day)
  {
    forall c ensures BoughtBefore(rows, c, day) <==> EarlierBuyer(table, c, day) { BeforeOfSource(rows, table, c, day); }
    SelectsSoldOn(rows, table, day);
    forall c | c in NewBuyers(rows, day) ensures c in NewOnDayOf(table, day) {
      var r :| r in rows && Earning(r) && OnDay(r, Some(day)) && !BoughtBefore(rows, r.customerId, day) && r.customerId == c;
      assert SameOrder(r, table[OrderId(r)]);
      assert r.orderId in SoldOn(table, day);
    }
    forall c | c in NewOnDayOf(table, day) ensures c in NewBuyers(rows, day) {
      var k :| k in SoldOn(table, day) && !EarlierBuyer(table, table[k].customerId, day) && table[k].customerId == c;
      var r := RowOf(rows, table, k);
    }
  }

  lemma BeforeOfSource(rows: seq<OrderRow>, table: map<int, Order>, c: int, day: int)
    requires TableIs(rows, OrderId, SameOrder, table)
    ensures BoughtBefore(rows, c, day) <==> EarlierBuyer(table, c, day)
  {
    if BoughtBefore(rows, c, day) {
      var r :| r in rows && Earning(r) && r.customerId == c && r.createdAt.Some? && r.createdAt.value < 86_400_000 * day;
      assert SameOrder(r, table[OrderId(r)]);
      assert r.orderId in SoldTo(table, c);
    }
    if EarlierBuyer(table, c, day) {
      var k :| k in SoldTo(table, c) && table[k].createdAt < 86_400_000 * day;
      var r := RowOf(rows, table, k);
    }
  }

  lemma DatedRow(rows: seq<OrderRow>, table: map<int, Order>, items: seq<ItemRow>, d: DailyRow)
    requires TableIs(rows, OrderId, SameOrder, table) && d in DailyRevenue(rows, items)
    ensures d.reportDate.Some? && d.currency == "USD"
  {
    DailyRowCounts(rows, items, d);
    var mine := Filter(rows, EarningOn(d.reportDate, d.currency));
    assert mine[0] in mine && SameOrder(mine[0], table[OrderId(mine[0])]);
  }

  /** For every run of the source and every schedule, a row of the daily table counts the revenue
      orders created in the source on its date, and the customers for whom they are the
      first; and each revenue order of the source has the row of its day. */
  lemma DailyOfSource(w: World, bs: seq<Batch>)
    requires ValidWorld(w) && ValidSchedule(w, bs) && bs != []
    ensures var table, days := At(w, bs[|bs| - 1].cuts.orders).orders, DailyRevenue(After(bs).orders, After(bs).items);
      && (forall d :: d in days ==>
            && d.reportDate.Some? && d.currency == "USD"
            && d.orderCount == |SoldOn(table, d.reportDate.value)| > 0
            && d.newCustomers == |NewOnDayOf(table, d.reportDate.value)|)
      && (forall k :: k in table && Earned(table[k]) ==> exists d :: d in days && d.reportDate.Some? && CreatedOn(table[k], d.reportDate.value))
  {
    SilverColumns(w, bs);
    var rows, items, table := After(bs).orders, After(bs).items, At(w, bs[|bs| - 1].cuts.orders).orders;
    var days := DailyRevenue(rows, items);
    forall d | d in days
      ensures d.reportDate.Some? && d.currency == "USD" && d.orderCount == |SoldOn(table, d.reportDate.value)| > 0
      ensures d.newCustomers == |NewOnDayOf(table, d.reportDate.value)|
    {
      DayOfSource(rows, table, items, d);
    }
    forall k | k in table && Earned(table[k]) ensures exists d :: d in days && d.reportDate.Some? && CreatedOn(table[k], d.reportDate.value) {
      var d := DayIsReported(rows, table, items, k);
    }
  }

  lemma DayOfSource(rows: seq<OrderRow>, table: map<int, Order>, items: seq<ItemRow>, d: DailyRow)
    requires TableIs(rows, OrderId, SameOrder, table) && d in DailyRevenue(rows, items)
    ensures d.reportDate.Some? && d.currency == "USD" && d.orderCount == |SoldOn(table, d.reportDate.value)| > 0
    ensures d.newCustomers == |NewOnDayOf(table, d.reportDate.value)|
  {
    DatedRow(rows, table, items, d);
    var day := d.reportDate.value;
    DailyRowCounts(rows, items, d);
    SelectsSoldOn(rows, table, day);
    PartSize(rows, EarningOn(Some(day), "USD"), table, SoldOn(table, day));
    DailyRowNewCustomers(rows, items, d);
    BuyersOfSource(rows, table, day);
  }

  lemma DayIsReported(rows: seq<OrderRow>, table: map<int, Order>, items: seq<ItemRow>, k: int) returns (d: DailyRow)
    requires TableIs(rows, OrderId, SameOrder, table) && k in table && Earned(table[k])
    ensures d in DailyRevenue(rows, items) && d.reportDate.Some? && CreatedOn(table[k], d.reportDate.value)
  {
    var r := RowOf(rows, table, k);
    d := EveryOrderHasItsDay(rows, items, r);
  }

  lemma BooksLines(orders: seq<OrderRow>, items: seq<ItemRow>, o: OrderRow)
    requires WellBooked(orders, items) && o in RevenueOrders(orders)
    ensures GoldRows.Books(items, o, LineSum(items)(o))
    ensures !UndatedEarns(orders, items) ==> LineSum(items)(o) == TotalOf(o)
    ensures 0 <= LineSum(items)(o) <= 2 * MAX_TOTAL
  {
    BookedOrder(orders, items, o);
    GroupIsFilter(items, ItemOrder, Some(o.orderId), ItemOf(o.orderId));
    assert BooksTotal(items, o) && LinesBounded(items, o.orderId);
    if !UndatedEarns(orders, items) {
      assert !HasNullRow(items, o.orderId);
      GroupWithoutKey(Filter(items, Undated), ItemOrder, Some(o.orderId));
    }
  }

  /** The row's revenue is `sum`, over `count` orders. */
  predicate RowEarns(d: DailyRow, sum: int, count: int) {
    && d.net == Some(sum) && d.gross == Some(sum)
    && (count < 10_000_000_000 ==> d.avgOrderValue.Some? && IsMean(d.avgOrderValue.value, sum, count))
  }

  /** Unless some line was booked twice, whatever the cuts, the revenue of a row is the sum of
      the totals of those orders, and the average their mean to the nearest cent. */
  lemma DailyRevenueOfSource(w: World, bs: seq<Batch>, d: DailyRow)
    requires ValidWorld(w) && ValidSchedule(w, bs) && bs != [] && FewOrders(w) && !BookedTwice(w, bs)
    requires d in DailyRevenue(After(bs).orders, After(bs).items)
    ensures d.reportDate.Some?
    ensures var mine := SoldOn(At(w, bs[|bs| - 1].cuts.orders).orders, d.reportDate.value);
      RowEarns(d, MapSum(mine, TotalAmount), |mine|)
  {
    SilverColumns(w, bs);
    TablesAreBooked(w, bs);
    OrderRowsAfter(w, bs);
    UndatedEarnsIffBookedTwice(w, bs);
    SourceAt(w, bs[|bs| - 1].cuts.orders);
    RevenueOfDate(After(bs).orders, After(bs).items, At(w, bs[|bs| - 1].cuts.orders), d);
  }

  lemma BooksOfDate(rows: seq<OrderRow>, items: seq<ItemRow>, day: int)
    requires WellBooked(rows, items)
    ensures forall r :: r in Filter(rows, EarningOn(Some(day), "USD")) ==> GoldRows.Books(items, r, LineSum(items)(r))
  {
    forall r | r in Filter(rows, EarningOn(Some(day), "USD")) ensures GoldRows.Books(items, r, LineSum(items)(r)) { BooksLines(rows, items, r); }
  }

  lemma LinesOfDate(rows: seq<OrderRow>, items: seq<ItemRow>, s: Db, day: int)
    requires Consistent(s) && TableIs(rows, OrderId, SameOrder, s.orders) && |rows| <= 700_000_000_000
    requires WellBooked(rows, items) && !UndatedEarns(rows, items)
    ensures Sum(Filter(rows, EarningOn(Some(day), "USD")), LineSum(items)) == MapSum(SoldOn(s.orders, day), TotalAmount)
    ensures 0 <= Sum(Filter(rows, EarningOn(Some(day), "USD")), LineSum(items)) < 1_000_000_000_000_000_000
  {
    var p := EarningOn(Some(day), "USD");
    SelectsSoldOn(rows, s.orders, day);
    forall r | r in Filter(rows, p) ensures LineSum(items)(r) == TotalOf(r) { BooksLines(rows, items, r); }
    SumCong(Filter(rows, p), LineSum(items), TotalOf);
    forall r | r in rows ensures TotalOf(r) == TotalAmount(s.orders[r.orderId]) { assert SameOrder(r, s.orders[OrderId(r)]); }
    PartSum(rows, p, s.orders, SoldOn(s.orders, day), TotalOf, TotalAmount);
    FewTotals(rows, p, s);
  }

  lemma RevenueOfDate(rows: seq<OrderRow>, items: seq<ItemRow>, s: Db, d: DailyRow)
    requires Consistent(s) && TableIs(rows, OrderId, SameOrder, s.orders) && |rows| <= 700_000_000_000
    requires WellBooked(rows, items) && !UndatedEarns(rows, items) && d in DailyRevenue(rows, items)
    ensures d.reportDate.Some?
    ensures RowEarns(d, MapSum(SoldOn(s.orders, d.reportDate.value), TotalAmount), |SoldOn(s.orders, d.reportDate.value)|)
  {
    DatedRow(rows, s.orders, items, d);
    var day := d.reportDate.value;
    BooksOfDate(rows, items, day);
    LinesOfDate(rows, items, s, day);
    SelectsSoldOn(rows, s.orders, day);
    PartSize(rows, EarningOn(Some(day), "USD"), s.orders, SoldOn(s.orders, day));
    DailyRowRevenue(rows, items, d, LineSum(items));
  }
}
