/** The dbt models `daily_revenue.sql` and `customer_metrics.sql`, run by Trino. */
module Dbt {
  import opened Options
  import opened Aggregates
  import opened Relational
  import opened Rounding
  import opened Gold
  import opened GoldLaws

  /** In Trino a cast that overflows fails the query; in Spark it yields NULL. */
  datatype Query<T> = Failed | Rows(rows: seq<T>)

  /** `sum / count`, rounded by Trino's division straight to cents. */
  function TrinoAvg(sum: Option<int>, count: int): Option<int> {
    if sum.None? || count <= 0 then None else Some(RoundHalfUp(sum.value, count))
  }

  predicate CastsTo18(x: Option<int>) { x.None? || Fits(x.value) }

  // ---- daily_revenue.sql ---------------------------------------------------------------------

  /** CTE `order_items`. */
  function SqlItemsOf(k: Option<int>, g: seq<ItemRow>): OrderItems { OrderItems(k, |g|, SumSql(g, ItemTotal)) }

  function ItemsCte(items: seq<ItemRow>): Option<int> -> OrderItems {
    (k: Option<int>) => SqlItemsOf(k, Group(items, ItemOrder, k))
  }

  /** One row of `orders o left join order_items oi`. */
  type Joined = (OrderRow, Option<OrderItems>)

  const JoinedKey: Joined -> (Option<int>, string) := (j: Joined) => (ToDate(j.0.createdAt), j.0.currency.Or("USD"))

  const JoinedItems: Joined -> Option<int> := (j: Joined) => if j.1.Some? then Some(j.1.value.itemCount) else None

  /** `coalesce(oi.gross_revenue, o.total_amount)`. */
  const JoinedRevenue: Joined -> Option<int> := (j: Joined) => (if j.1.Some? then j.1.value.gross else None).OrElse(j.0.total)

  function JoinedRows(orders: seq<OrderRow>, items: seq<ItemRow>): seq<Joined> {
    LeftJoin(RevenueOrders(orders), Map(Keys(items, ItemOrder), ItemsCte(items)), OrderKey, OrderItemsKey)
  }

  /** CTE `daily`. */
  function SqlDayOf(k: (Option<int>, string), g: seq<Joined>): DailyRow {
    var revenue := SumSql(g, JoinedRevenue);
    DailyRow(k.0, k.1, |g|, SumSql(g, JoinedItems).Or(0), revenue, revenue, TrinoAvg(revenue, |g|), 0)
  }

  function DailyCte(rows: seq<Joined>): ((Option<int>, string)) -> DailyRow {
    (k: (Option<int>, string)) => SqlDayOf(k, Group(rows, JoinedKey, k))
  }

  ghost predicate OrderSumsFit(items: seq<ItemRow>) {
    forall k :: k in Keys(items, ItemOrder) ==> CastsTo18(SumSql(Group(items, ItemOrder, k), ItemTotal))
  }

  /** Every cast of the query fits: per-order sums and per-day sums. */
  ghost predicate DailyCastsFit(orders: seq<OrderRow>, items: seq<ItemRow>) {
    && OrderSumsFit(items)
    && (forall k :: k in Keys(JoinedRows(orders, items), JoinedKey) ==>
          CastsTo18(SumSql(Group(JoinedRows(orders, items), JoinedKey, k), JoinedRevenue)))
  }

  ghost function DailyRevenueSql(orders: seq<OrderRow>, items: seq<ItemRow>): Query<DailyRow> {
    if !DailyCastsFit(orders, items) then Failed
    else
      var rows := JoinedRows(orders, items);
      Rows(Map(LeftJoin(Map(Keys(rows, JoinedKey), DailyCte(rows)), NewCustomersPerDate(RevenueOrders(orders)),
                        DailyDate, NewCustomersDate), WithNewCustomers))
  }

  // ---- customer_metrics.sql --------------------------------------------------------------------

  datatype Stats = Stats(customerId: Option<int>, totalOrders: int, totalRevenue: Option<int>, avgOrderValue: Option<int>,
                         first: Option<int>, last: Option<int>)

  const StatsId: Stats -> Option<int> := (s: Stats) => s.customerId

  function SqlStatsOf(c: Option<int>, g: seq<OrderRow>): Stats {
    var total := SumSql(g, OrderTotal);
    Stats(c, |g|, total, TrinoAvg(total, |g|), MinSql(g, OrderDate), MaxSql(g, OrderDate))
  }

  function StatsCte(orders: seq<OrderRow>): Option<int> -> Stats {
    (c: Option<int>) => SqlStatsOf(c, Group(orders, OrderCustomer, c))
  }

  /** The final SELECT; `date_diff` of a NULL date is NULL. */
  function SelectRow(j: (CustomerRow, Option<Stats>), today: int): MetricsRow {
    var last := if j.1.Some? then j.1.value.last else None;
    MetricsRow(
      j.0.customerId,
      if j.1.Some? then j.1.value.first else None,
      last,
      if j.1.Some? then j.1.value.totalOrders else 0,
      (if j.1.Some? then j.1.value.totalRevenue else None).Or(0),
      (if j.1.Some? then j.1.value.avgOrderValue else None).Or(0),
      DaysSince(last, today),
      last.Some? && today - last.value > 90)
  }

  function SelectMetrics(today: int): ((CustomerRow, Option<Stats>)) -> MetricsRow {
    (j: (CustomerRow, Option<Stats>)) => SelectRow(j, today)
  }

  ghost predicate MetricsCastsFit(orders: seq<OrderRow>) {
    forall c :: c in Keys(RevenueOrders(orders), OrderCustomer) ==>
      CastsTo18(SumSql(Group(RevenueOrders(orders), OrderCustomer, c), OrderTotal))
  }

  ghost function CustomerMetricsSql(orders: seq<OrderRow>, customers: seq<CustomerRow>, today: int): Query<MetricsRow> {
    if !MetricsCastsFit(orders) then Failed
    else
      var revenue := RevenueOrders(orders);
      Rows(Map(LeftJoin(Filter(customers, IsUpserted), Map(Keys(revenue, OrderCustomer), StatsCte(revenue)), CustomerKey, StatsId),
               SelectMetrics(today)))
  }

  // ---- the two implementations agree -------------------------------------------------------------

  /** Silver stores totals as DECIMAL(18,2), so a stored total always fits. */
  predicate StoredTotalsFit(orders: seq<OrderRow>) {
    forall o :: o in orders ==> CastsTo18(o.total)
  }

  lemma AveragesAgree(sum: Option<int>, count: int)
    requires CastsTo18(sum) && 0 < count < SPARK_GRID
    ensures SparkAvg(sum, count) == TrinoAvg(sum, count)
  {
    if sum.Some? {
      DoubleRoundingIsHarmless(sum.value, count, SPARK_GRID);
      AverageFits(sum.value, count);
    }
  }

  /** The left join of either job: one row per revenue order. */
  lemma JoinsAgree(orders: seq<OrderRow>, items: seq<ItemRow>)
    requires StoredTotalsFit(orders) && OrderSumsFit(items)
    ensures JoinedRows(orders, items) == LeftJoin(RevenueOrders(orders), ItemsPerOrder(items), OrderKey, OrderItemsKey)
    ensures |JoinedRows(orders, items)| <= |orders|
    ensures forall j :: j in JoinedRows(orders, items) ==> CastsTo18(j.0.total)
  {
    MapCong(Keys(items, ItemOrder), ItemsCte(items), AggregateItems(items));
    var left := RevenueOrders(orders);
    AggregatedKeysDistinct(Keys(items, ItemOrder), AggregateItems(items), OrderItemsKey);
    JoinOnUniqueKey(left, ItemsPerOrder(items), OrderKey, OrderItemsKey);
    var joined := JoinedRows(orders, items);
    forall j | j in joined ensures CastsTo18(j.0.total) {
      var i :| 0 <= i < |joined| && joined[i] == j;
      assert left[i] in left;
    }
  }

  /** Spark where the per-order cast overflows: the items are lost and every revenue
      order of that key books its total instead. */
  ghost predicate FallsBackToTotal(orders: seq<OrderRow>, items: seq<ItemRow>) {
    exists k :: k in Keys(items, ItemOrder) && !CastsTo18(SumSql(Group(items, ItemOrder, k), ItemTotal)) && BooksOnlyTotal(orders, items, k)
  }

  ghost predicate BooksOnlyTotal(orders: seq<OrderRow>, items: seq<ItemRow>, k: Option<int>) {
    forall o :: o in RevenueOrders(orders) && OrderKey(o) == k ==> ItemGroup(items, o) != [] && LineRevenue(items, o) == Cast(o.total)
  }

  /** Spark where the per-day cast overflows: a day with revenue is written as NULL. */
  ghost predicate WritesNullDay(orders: seq<OrderRow>, items: seq<ItemRow>) {
    exists d :: d in DailyRevenue(orders, items) && d.gross.None? && d.net.None? && HasRevenue(orders, items, (d.reportDate, d.currency))
  }

  ghost predicate HasRevenue(orders: seq<OrderRow>, items: seq<ItemRow>, k: (Option<int>, string)) {
    exists e :: e in EnrichedOrders(orders, items) && EnrichedKey(e) == k && e.lineRevenue.Some?
  }

  /** For every Silver state, NULLs included: the dbt model gives exactly the rows of the
      Spark job, or it fails, and then the Spark job has silently dropped items or
      written a NULL day. */
  lemma DbtDailyRefinesSpark(orders: seq<OrderRow>, items: seq<ItemRow>)
    requires StoredTotalsFit(orders) && |orders| < SPARK_GRID
    ensures DailyRevenueSql(orders, items).Rows? ==> DailyRevenueSql(orders, items).rows == DailyRevenue(orders, items)
    ensures DailyRevenueSql(orders, items).Failed? ==> FallsBackToTotal(orders, items) || WritesNullDay(orders, items)
  {
    if DailyCastsFit(orders, items) {
      JoinsAgree(orders, items);
      DaysAgree(JoinedRows(orders, items), EnrichedOrders(orders, items));
    } else if OrderSumsFit(items) {
      NullDay(orders, items);
    } else {
      var k :| k in Keys(items, ItemOrder) && !CastsTo18(SumSql(Group(items, ItemOrder, k), ItemTotal));
      OnlyTotal(orders, items, k);
    }
  }

  lemma OnlyTotal(orders: seq<OrderRow>, items: seq<ItemRow>, k: Option<int>)
    requires k in Keys(items, ItemOrder) && !CastsTo18(SumSql(Group(items, ItemOrder, k), ItemTotal))
    ensures BooksOnlyTotal(orders, items, k)
  {
    GroupIsEmptyIffNoKey(items, k);
  }

  lemma {:induction false} SumNeedsAValue<T>(s: seq<T>, f: T -> Option<int>)
    requires SumSql(s, f).Some?
    ensures exists x :: x in s && f(x).Some?
  {
    if f(s[0]).Some? { assert s[0] in s; } else { SumNeedsAValue(s[1..], f); }
  }

  lemma NullDay(orders: seq<OrderRow>, items: seq<ItemRow>)
    requires StoredTotalsFit(orders) && OrderSumsFit(items) && !DailyCastsFit(orders, items)
    ensures WritesNullDay(orders, items)
  {
    JoinsAgree(orders, items);
    var joined, rows := JoinedRows(orders, items), EnrichedOrders(orders, items);
    var k :| k in Keys(joined, JoinedKey) && !CastsTo18(SumSql(Group(joined, JoinedKey, k), JoinedRevenue));
    KeysOfMap(joined, Enrich, EnrichedKey, JoinedKey);
    GroupOfMap(joined, Enrich, EnrichedKey, JoinedKey, k);
    ColumnSumsAgree(Group(joined, JoinedKey, k));
    NullDayAt(orders, items, k);
  }

  lemma NullDayAt(orders: seq<OrderRow>, items: seq<ItemRow>, k: (Option<int>, string))
    requires k in Keys(EnrichedOrders(orders, items), EnrichedKey)
    requires !CastsTo18(SumSql(Group(EnrichedOrders(orders, items), EnrichedKey, k), EnrichedRevenue))
    ensures WritesNullDay(orders, items)
  {
    var rows, firsts := EnrichedOrders(orders, items), NewCustomersPerDate(RevenueOrders(orders));
    NoFanOut(orders, items);
    DailyRowsAre(orders, items);
    var ks := Keys(rows, EnrichedKey);
    var i :| 0 <= i < |ks| && ks[i] == k;
    var d := DailyRowOf(rows, firsts)(k);
    assert DailyRevenue(orders, items)[i] == d;
    SumNeedsAValue(Group(rows, EnrichedKey, k), EnrichedRevenue);
    assert d in DailyRevenue(orders, items) && d.gross.None? && HasRevenue(orders, items, (d.reportDate, d.currency));
  }

  lemma DaysAgree(joined: seq<Joined>, rows: seq<Enriched>)
    requires rows == Map(joined, Enrich) && |joined| < SPARK_GRID
    requires forall j :: j in joined ==> CastsTo18(j.0.total)
    requires forall k :: k in Keys(joined, JoinedKey) ==> CastsTo18(SumSql(Group(joined, JoinedKey, k), JoinedRevenue))
    ensures Map(Keys(joined, JoinedKey), DailyCte(joined)) == Map(Keys(rows, EnrichedKey), AggregateDay(rows))
  {
    KeysOfMap(joined, Enrich, EnrichedKey, JoinedKey);
    var ks := Keys(joined, JoinedKey);
    forall k | k in ks ensures SqlDayOf(k, Group(joined, JoinedKey, k)) == DayOf(k, Group(rows, EnrichedKey, k)) {
      DailyGroupsAgree(joined, rows, k);
    }
    MapCong(ks, DailyCte(joined), AggregateDay(rows));
  }

  lemma DailyGroupsAgree(joined: seq<Joined>, rows: seq<Enriched>, k: (Option<int>, string))
    requires rows == Map(joined, Enrich) && |joined| < SPARK_GRID
    requires forall j :: j in joined ==> CastsTo18(j.0.total)
    requires k in Keys(joined, JoinedKey) && CastsTo18(SumSql(Group(joined, JoinedKey, k), JoinedRevenue))
    ensures SqlDayOf(k, Group(joined, JoinedKey, k)) == DayOf(k, Group(rows, EnrichedKey, k))
  {
    var g := Group(joined, JoinedKey, k);
    GroupOfMap(joined, Enrich, EnrichedKey, JoinedKey, k);
    var x :| x in joined && JoinedKey(x) == k;
    assert x in g;
    OneDayAgrees(k, g, Map(g, Enrich));
  }

  lemma OneDayAgrees(k: (Option<int>, string), g: seq<Joined>, h: seq<Enriched>)
    requires h == Map(g, Enrich) && 0 < |g| < SPARK_GRID
    requires forall j :: j in g ==> CastsTo18(j.0.total)
    requires CastsTo18(SumSql(g, JoinedRevenue))
    ensures SqlDayOf(k, g) == DayOf(k, h)
  {
    ColumnSumsAgree(g);
    AveragesAgree(SumSql(g, JoinedRevenue), |g|);
    SameColumns(k, g, h);
  }

  lemma ColumnSumsAgree(g: seq<Joined>)
    requires forall j :: j in g ==> CastsTo18(j.0.total)
    ensures SumSql(Map(g, Enrich), EnrichedItems) == SumSql(g, JoinedItems)
    ensures SumSql(Map(g, Enrich), EnrichedRevenue) == SumSql(g, JoinedRevenue)
  {
  }

  lemma SameColumns(k: (Option<int>, string), g: seq<Joined>, h: seq<Enriched>)
    requires |h| == |g|
    requires SumSql(h, EnrichedItems) == SumSql(g, JoinedItems)
    requires SumSql(h, EnrichedRevenue) == SumSql(g, JoinedRevenue) && CastsTo18(SumSql(g, JoinedRevenue))
    requires SparkAvg(SumSql(g, JoinedRevenue), |g|) == TrinoAvg(SumSql(g, JoinedRevenue), |g|)
    ensures SqlDayOf(k, g) == DayOf(k, h)
  {
  }

  /** It can come to that: an order with two lines of nine hundred quadrillion cents fails
      the query, while the Spark job books the order's total. */
  lemma DbtCanFail(orders: seq<OrderRow>, o: OrderRow, items: seq<ItemRow>)
    requires |items| == 2 && items[1] == items[0]
    requires items[0].orderId == o.orderId && items[0].lineTotal == Some(900_000_000_000_000_000)
    ensures DailyRevenueSql(orders, items).Failed?
    ensures LineRevenue(items, o) == Cast(o.total)
  {
    TwoLines(items, Some(o.orderId));
    assert items[0] in items && Some(o.orderId) in Keys(items, ItemOrder);
    assert !OrderSumsFit(items);
  }

  lemma TwoLines(items: seq<ItemRow>, k: Option<int>)
    requires |items| == 2 && ItemOrder(items[0]) == k && items[1] == items[0] && items[0].lineTotal == Some(900_000_000_000_000_000)
    ensures Group(items, ItemOrder, k) == items
    ensures SumSql(items, ItemTotal) == Some(1_800_000_000_000_000_000)
  {
    var rest := items[1..];
    assert rest[0] == items[0] && rest[1..] == [];
    assert Group(rest, ItemOrder, k) == rest && SumSql(rest, ItemTotal) == items[0].lineTotal;
    assert items == [items[0]] + rest;
  }

  /** Spark where the cast overflows: a customer with orders gets a lifetime revenue of 0. */
  ghost predicate LosesCustomer(orders: seq<OrderRow>, today: int) {
    exists k :: k in Keys(RevenueOrders(orders), OrderCustomer) && RevenueLost(orders, today, k)
  }

  ghost predicate RevenueLost(orders: seq<OrderRow>, today: int, k: Option<int>) {
    forall c: CustomerRow :: CustomerKey(c) == k ==> MetricsOf(orders, today)(c).totalRevenue == 0 && MetricsOf(orders, today)(c).totalOrders > 0
  }

  /** Likewise for the customer metrics, churn flag included (`MetricsRowsAre` says that the
      rows of the Spark job are `MetricsOf` the customers). */
  lemma DbtMetricsRefineSpark(orders: seq<OrderRow>, customers: seq<CustomerRow>, today: int)
    requires |orders| < SPARK_GRID
    ensures CustomerMetricsSql(orders, customers, today).Rows? ==>
              CustomerMetricsSql(orders, customers, today).rows == CustomerMetrics(orders, customers, today)
    ensures CustomerMetricsSql(orders, customers, today).Failed? ==> LosesCustomer(orders, today)
  {
    if MetricsCastsFit(orders) {
      MetricsRowsAgree(RevenueOrders(orders), Filter(customers, IsUpserted), today);
    } else {
      var k :| k in Keys(RevenueOrders(orders), OrderCustomer) && !CastsTo18(SumSql(Group(RevenueOrders(orders), OrderCustomer, k), OrderTotal));
      LostRevenue(orders, today, k);
    }
  }

  lemma LostRevenue(orders: seq<OrderRow>, today: int, k: Option<int>)
    requires k in Keys(RevenueOrders(orders), OrderCustomer)
    requires !CastsTo18(SumSql(Group(RevenueOrders(orders), OrderCustomer, k), OrderTotal))
    ensures RevenueLost(orders, today, k)
  {
    var x :| x in RevenueOrders(orders) && OrderCustomer(x) == k;
    assert x in Group(RevenueOrders(orders), OrderCustomer, k);
  }

  ghost predicate CustomerSumsFit(revenue: seq<OrderRow>) {
    forall k :: k in Keys(revenue, OrderCustomer) ==> CastsTo18(SumSql(Group(revenue, OrderCustomer, k), OrderTotal))
  }

  lemma MetricsRowsAgree(revenue: seq<OrderRow>, left: seq<CustomerRow>, today: int)
    requires |revenue| < SPARK_GRID && CustomerSumsFit(revenue)
    ensures Map(LeftJoin(left, Map(Keys(revenue, OrderCustomer), StatsCte(revenue)), CustomerKey, StatsId), SelectMetrics(today))
         == Map(LeftJoin(left, CustomerStats(revenue, today), CustomerKey, StatsKey), ToMetrics)
  {
    var ks := Keys(revenue, OrderCustomer);
    var spark, sql := CustomerStats(revenue, today), Map(ks, StatsCte(revenue));
    AggregatedKeysDistinct(ks, AggregateCustomer(revenue, today), StatsKey);
    AggregatedKeysDistinct(ks, StatsCte(revenue), StatsId);
    JoinOnUniqueKey(left, spark, CustomerKey, StatsKey);
    JoinOnUniqueKey(left, sql, CustomerKey, StatsId);
    forall i | 0 <= i < |left|
      ensures SelectMetrics(today)(Attach(sql, CustomerKey, StatsId)(left[i])) == ToMetrics(Attach(spark, CustomerKey, StatsKey)(left[i]))
    {
      MetricsAgree(revenue, left[i], today);
    }
  }

  lemma MetricsAgree(revenue: seq<OrderRow>, c: CustomerRow, today: int)
    requires |revenue| < SPARK_GRID && CustomerSumsFit(revenue)
    ensures SelectRow((c, Lookup(Map(Keys(revenue, OrderCustomer), StatsCte(revenue)), StatsId, CustomerKey(c))), today)
         == ToMetrics((c, Lookup(CustomerStats(revenue, today), StatsKey, CustomerKey(c))))
  {
    var ks, k := Keys(revenue, OrderCustomer), CustomerKey(c);
    LookupAggregate(ks, StatsCte(revenue), StatsId, k);
    LookupAggregate(ks, AggregateCustomer(revenue, today), StatsKey, k);
    if k in ks {
      var g := Group(revenue, OrderCustomer, k);
      var x :| x in revenue && OrderCustomer(x) == k;
      assert x in g;
      StatsAgree(c, k, g, today);
    }
  }

  lemma StatsAgree(c: CustomerRow, k: Option<int>, g: seq<OrderRow>, today: int)
    requires 0 < |g| < SPARK_GRID && CastsTo18(SumSql(g, OrderTotal))
    ensures SelectRow((c, Some(SqlStatsOf(k, g))), today) == ToMetrics((c, Some(StatsOf(k, g, today))))
  {
    AveragesAgree(SumSql(g, OrderTotal), |g|);
    OneCustomerAgrees(c, SqlStatsOf(k, g), StatsOf(k, g, today), today);
  }

  lemma OneCustomerAgrees(c: CustomerRow, a: Stats, b: OrderStats, today: int)
    requires b == OrderStats(a.customerId, a.totalOrders, a.totalRevenue, a.avgOrderValue, a.first, a.last,
                             DaysSince(a.last, today), Churned(DaysSince(a.last, today)))
    ensures SelectRow((c, Some(a)), today) == ToMetrics((c, Some(b)))
  {
  }
}
