/** Over whole schedules no cast overflows, so dbt's Gold tables are the stored ones. */
module GoldRuns {
  import opened Options
  import opened Aggregates
  import opened Relational
  import opened Rounding
  import opened Gold
  import opened GoldLaws
  import opened Dbt
  import opened Source
  import opened Lakehouse
  import opened LakehouseRuns
  import opened Books
  import opened EndToEnd

  lemma TotalsFit(orders: seq<OrderRow>, s: Db)
    requires Mirrors(orders, OrderKey, OrderImage, s.orders)
    ensures StoredTotalsFit(orders)
  {
    forall o | o in orders ensures CastsTo18(o.total) { assert IsImage(o, OrderKey, OrderImage, s.orders); }
  }

  lemma LinesFit(orders: seq<OrderRow>, items: seq<ItemRow>)
    requires WellBooked(orders, items)
    ensures OrderSumsFit(items)
  {
    forall k | k in Keys(items, ItemOrder) ensures CastsTo18(SumSql(Group(items, ItemOrder, k), ItemTotal)) {
      SumSqlIsSum(Group(items, ItemOrder, k), ItemTotal, LineValue);
      assert LinesBounded(items, k.value);
    }
  }

  lemma DaysFit(orders: seq<OrderRow>, items: seq<ItemRow>)
    requires WellBooked(orders, items) && BooksFit(orders, items) && StoredTotalsFit(orders) && OrderSumsFit(items)
    ensures DailyCastsFit(orders, items)
  {
    DailyBooksLines(orders, items);
    if !DailyCastsFit(orders, items) { NullDay(orders, items); }
  }

  lemma CustomersFit(orders: seq<OrderRow>, items: seq<ItemRow>)
    requires WellBooked(orders, items) && BooksFit(orders, items)
    ensures MetricsCastsFit(orders)
  {
    var revenue := RevenueOrders(orders);
    LinesAreTotalsAndUndated(orders, items);
    forall k | k in Keys(revenue, OrderCustomer) ensures CastsTo18(SumSql(Group(revenue, OrderCustomer, k), OrderTotal)) {
      CustomerFits(revenue, items, k);
    }
  }

  lemma CustomerFits(revenue: seq<OrderRow>, items: seq<ItemRow>, k: Option<int>)
    requires forall o :: o in revenue ==> BooksTotal(items, o)
    requires Sum(revenue, TotalOf) < DECIMAL_18_2
    ensures CastsTo18(SumSql(Group(revenue, OrderCustomer, k), OrderTotal))
  {
    SumSqlIsSum(Group(revenue, OrderCustomer, k), OrderTotal, TotalOf);
    GroupSumBounded(revenue, OrderCustomer, TotalOf, k);
  }

  /** No cast of either implementation overflows, whatever the schedule. */
  lemma EveryCastFits(w: World, bs: seq<Batch>)
    requires ValidWorld(w) && ValidSchedule(w, bs) && bs != [] && FewOrders(w)
    ensures StoredTotalsFit(After(bs).orders)
    ensures DailyCastsFit(After(bs).orders, After(bs).items) && MetricsCastsFit(After(bs).orders)
  {
    var lake := After(bs);
    TablesAreBooked(w, bs);
    FewOrdersFit(w, bs);
    StoredEqualsRecompute(w, bs);
    TotalsFit(lake.orders, At(w, bs[|bs| - 1].cuts.orders));
    LinesFit(lake.orders, lake.items);
    DaysFit(lake.orders, lake.items);
    CustomersFit(lake.orders, lake.items);
  }

  /** So on every run and schedule the dbt models compute, without failing, exactly the
      customer metrics as stored and the daily revenue as the Spark job computes it. */
  lemma DbtNeverFails(w: World, bs: seq<Batch>)
    requires ValidWorld(w) && ValidSchedule(w, bs) && bs != [] && |Latest(w).orders| < SPARK_GRID
    ensures var lake, today := After(bs), bs[|bs| - 1].choices.today;
      && CustomerMetricsSql(lake.orders, lake.customers, today) == Query.Rows(lake.metrics)
      && DailyRevenueSql(lake.orders, lake.items) == Query.Rows(DailyRevenue(lake.orders, lake.items))
  {
    EveryCastFits(w, bs);
    OrderRowsAfter(w, bs);
    StoredEqualsRecompute(w, bs);
    QueriesSucceed(After(bs).orders, After(bs).items, After(bs).customers, bs[|bs| - 1].choices.today);
  }

  lemma QueriesSucceed(orders: seq<OrderRow>, items: seq<ItemRow>, customers: seq<CustomerRow>, today: int)
    requires StoredTotalsFit(orders) && DailyCastsFit(orders, items) && MetricsCastsFit(orders) && |orders| < SPARK_GRID
    ensures CustomerMetricsSql(orders, customers, today) == Query.Rows(CustomerMetrics(orders, customers, today))
    ensures DailyRevenueSql(orders, items) == Query.Rows(DailyRevenue(orders, items))
  {
    DbtMetricsRefineSpark(orders, customers, today);
    DbtDailyRefinesSpark(orders, items);
  }

  // ---- the quality suite --------------------------------------------------------------------------

  /** The value ranges of the customer metrics suite, days aside. */
  ghost predicate PassesSuite(m: MetricsRow) { MeetsGate(m) && m.totalRevenue >= 0 && m.avgOrderValue >= 0 }

  lemma AverageIsNonNegative(sum: int, count: int)
    requires sum >= 0 && count > 0
    ensures SparkAvg(Some(sum), count).Or(0) >= 0
  {
    Rounds(sum * SPARK_GRID, count);
    Rounds(RoundHalfUp(sum * SPARK_GRID, count), SPARK_GRID);
  }

  lemma RowPassesSuite(orders: seq<OrderRow>, c: CustomerRow, today: int)
    requires forall o :: o in RevenueOrders(orders) ==> o.total == Some(TotalOf(o)) && TotalOf(o) >= 0
    ensures PassesSuite(MetricsOf(orders, today)(c))
  {
    RowMeetsGate(orders, c, today);
    var g := Group(RevenueOrders(orders), OrderCustomer, Some(c.customerId));
    SumSqlIsSum(g, OrderTotal, TotalOf);
    SumNonNegative(g, TotalOf);
    if g != [] { AverageIsNonNegative(Sum(g, TotalOf), |g|); }
  }

  /** All revenue orders were created in the hundred years up to `today`. */
  ghost predicate OrdersWithin(orders: seq<OrderRow>, today: int) {
    forall o :: o in RevenueOrders(orders) ==> OrderDate(o).Some? && today - 36500 <= OrderDate(o).value <= today
  }

  lemma RowDays(orders: seq<OrderRow>, c: CustomerRow, today: int)
    requires OrdersWithin(orders, today)
    ensures var d := MetricsOf(orders, today)(c).daysSinceLastOrder; d.Some? ==> 0 <= d.value <= 36500
  {
    MinIsAtMostMax(Group(RevenueOrders(orders), OrderCustomer, Some(c.customerId)), OrderDate);
  }

  lemma TablePassesSuite(orders: seq<OrderRow>, customers: seq<CustomerRow>, today: int, m: MetricsRow)
    requires forall o :: o in RevenueOrders(orders) ==> o.total == Some(TotalOf(o)) && TotalOf(o) >= 0
    requires m in CustomerMetrics(orders, customers, today)
    ensures PassesSuite(m)
    ensures OrdersWithin(orders, today) && m.daysSinceLastOrder.Some? ==> 0 <= m.daysSinceLastOrder.value <= 36500
  {
    MetricsRowsAre(orders, customers, today);
    var metrics, left := CustomerMetrics(orders, customers, today), Filter(customers, IsUpserted);
    var i :| 0 <= i < |metrics| && metrics[i] == m;
    RowPassesSuite(orders, left[i], today);
    if OrdersWithin(orders, today) { RowDays(orders, left[i], today); }
  }

  /** On every run and schedule the stored customer metrics pass: ordered dates, counts,
      revenue and averages not negative, the churn flag right, and the days in range if
      the source's orders were created in the hundred years up to today. */
  lemma StoredMetricsPassSuite(w: World, bs: seq<Batch>, m: MetricsRow)
    requires ValidWorld(w) && ValidSchedule(w, bs) && bs != [] && m in After(bs).metrics
    ensures PassesSuite(m)
    ensures CreatedWithin(At(w, bs[|bs| - 1].cuts.orders), bs[|bs| - 1].choices.today) && m.daysSinceLastOrder.Some? ==>
      0 <= m.daysSinceLastOrder.value <= 36500
  {
    TablesAreBooked(w, bs);
    StoredEqualsRecompute(w, bs);
    var lake, b := After(bs), bs[|bs| - 1];
    forall o | o in RevenueOrders(lake.orders) ensures o.total == Some(TotalOf(o)) && TotalOf(o) >= 0 { assert BooksTotal(lake.items, o); }
    TablePassesSuite(lake.orders, lake.customers, b.choices.today, m);
    if CreatedWithin(At(w, b.cuts.orders), b.choices.today) { MirrorWithin(lake.orders, At(w, b.cuts.orders), b.choices.today); }
  }

  ghost predicate CreatedWithin(s: Db, today: int) {
    forall o :: o in s.orders ==> today - 36500 <= s.orders[o].createdAt / MS_PER_DAY <= today
  }

  lemma MirrorWithin(orders: seq<OrderRow>, s: Db, today: int)
    requires Mirrors(orders, OrderKey, OrderImage, s.orders) && CreatedWithin(s, today)
    ensures OrdersWithin(orders, today)
  {
    forall o | o in RevenueOrders(orders) ensures OrderDate(o).Some? && today - 36500 <= OrderDate(o).value <= today {
      assert IsImage(o, OrderKey, OrderImage, s.orders);
    }
  }

  // ---- new customers ---------------------------------------------------------------------------------

  lemma MirrorHasNoCurrency(orders: seq<OrderRow>, s: Db)
    requires Mirrors(orders, OrderKey, OrderImage, s.orders)
    ensures forall o :: o in RevenueOrders(orders) ==> o.currency.None? && o.createdAt.Some?
  {
    forall o | o in RevenueOrders(orders) ensures o.currency.None? && o.createdAt.Some? { assert IsImage(o, OrderKey, OrderImage, s.orders); }
  }

  /** On every run and schedule the days' new customers add up to the customers that have
      a revenue order. */
  lemma NewCustomersOverSchedules(w: World, bs: seq<Batch>)
    requires ValidWorld(w) && ValidSchedule(w, bs) && bs != []
    ensures Sum(DailyRevenue(After(bs).orders, After(bs).items), NewCustomersOf) == |Keys(RevenueOrders(After(bs).orders), OrderCustomer)|
  {
    StoredEqualsRecompute(w, bs);
    MirrorHasNoCurrency(After(bs).orders, At(w, bs[|bs| - 1].cuts.orders));
    NewCustomersAddUp(After(bs).orders, After(bs).items);
  }
}
