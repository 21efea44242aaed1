/** Silver and Gold row types, and the Spark Gold job. */
module Gold {
  import opened Options
  import opened Aggregates
  import opened Relational
  import opened Rounding
  import opened Cdc
  import opened Source

  // ---- silver rows; Option marks the columns the schema lets be NULL ------------------

  /** `op` is None for a `_source_op` outside UPSERT_OPS. */
  datatype OrderRow = OrderRow(
    orderId: int, customerId: int, status: Option<Status>, total: Option<int>, currency: Option<string>,
    createdAt: Option<int>, updatedAt: Option<int>, op: Option<SourceOp>)

  datatype CustomerRow = CustomerRow(
    customerId: int, name: Option<string>, email: Option<string>,
    createdAt: Option<int>, updatedAt: Option<int>, op: Option<SourceOp>)

  datatype ItemRow = ItemRow(
    itemId: int, orderId: int, productId: int, quantity: Option<int>, unitPrice: Option<int>,
    lineTotal: Option<int>, orderCreatedAt: Option<int>)

  // ---- gold rows, without computed_at ------------------------------------------------------

  datatype DailyRow = DailyRow(
    reportDate: Option<int>, currency: string, orderCount: int, itemCount: int,
    gross: Option<int>, net: Option<int>, avgOrderValue: Option<int>, newCustomers: int)

  datatype MetricsRow = MetricsRow(
    customerId: int, firstOrderDate: Option<int>, lastOrderDate: Option<int>, totalOrders: int,
    totalRevenue: int, avgOrderValue: int, daysSinceLastOrder: Option<int>, isChurned: bool)

  /** REVENUE_STATUSES. */
  predicate IsRevenue(s: Status) { s in {Confirmed, Shipped, Delivered, Completed} }

  const CHURN_THRESHOLD_DAYS := 90

  const MS_PER_DAY := 86_400_000

  /** `to_date`. */
  function ToDate(ts: Option<int>): Option<int> {
    if ts.None? then None else Some(ts.value / MS_PER_DAY)
  }

  const IsRevenueOrder: OrderRow -> bool := (o: OrderRow) => o.op.Some? && o.status.Some? && IsRevenue(o.status.value)

  function RevenueOrders(orders: seq<OrderRow>): seq<OrderRow> { Filter(orders, IsRevenueOrder) }

  // ---- column expressions ---------------------------------------------------------------------

  const OrderKey: OrderRow -> Option<int> := (o: OrderRow) => Some(o.orderId)
  const OrderDate: OrderRow -> Option<int> := (o: OrderRow) => ToDate(o.createdAt)
  const OrderTotal: OrderRow -> Option<int> := (o: OrderRow) => o.total
  const OrderCustomer: OrderRow -> Option<int> := (o: OrderRow) => Some(o.customerId)
  const ItemOrder: ItemRow -> Option<int> := (i: ItemRow) => Some(i.orderId)
  const ItemTotal: ItemRow -> Option<int> := (i: ItemRow) => i.lineTotal
  const CustomerKey: CustomerRow -> Option<int> := (c: CustomerRow) => Some(c.customerId)

  /** `(sum / count).cast("decimal(18,2)")` in Spark; division by zero is NULL. */
  function SparkAvg(sum: Option<int>, count: int): Option<int> {
    if sum.None? || count <= 0 then None else Cast(Some(RoundTwice(sum.value, count, SPARK_GRID)))
  }

  // ---- gold.daily_revenue -----------------------------------------------------------------------

  datatype OrderItems = OrderItems(orderId: Option<int>, itemCount: int, gross: Option<int>)

  const OrderItemsKey: OrderItems -> Option<int> := (r: OrderItems) => r.orderId

  function ItemsOf(k: Option<int>, g: seq<ItemRow>): OrderItems {
    OrderItems(k, |g|, Cast(SumSql(g, ItemTotal)))
  }

  function AggregateItems(items: seq<ItemRow>): Option<int> -> OrderItems {
    (k: Option<int>) => ItemsOf(k, Group(items, ItemOrder, k))
  }

  /** `items.groupBy("order_id")`. */
  function ItemsPerOrder(items: seq<ItemRow>): seq<OrderItems> {
    Map(Keys(items, ItemOrder), AggregateItems(items))
  }

  datatype FirstOrder = FirstOrder(customerId: Option<int>, firstDate: Option<int>)
  datatype NewCustomers = NewCustomers(reportDate: Option<int>, count: int)

  const FirstDate: FirstOrder -> Option<int> := (f: FirstOrder) => f.firstDate
  const NewCustomersDate: NewCustomers -> Option<int> := (n: NewCustomers) => n.reportDate

  function FirstOrderOf(orders: seq<OrderRow>): Option<int> -> FirstOrder {
    (c: Option<int>) => FirstOrder(c, MinSql(Group(orders, OrderCustomer, c), OrderDate))
  }

  function FirstOrders(orders: seq<OrderRow>): seq<FirstOrder> {
    Map(Keys(orders, OrderCustomer), FirstOrderOf(orders))
  }

  function CountFirst(firsts: seq<FirstOrder>): Option<int> -> NewCustomers {
    (d: Option<int>) => NewCustomers(d, |Group(firsts, FirstDate, d)|)
  }

  /** Customers by the date of their first revenue order. */
  function NewCustomersPerDate(orders: seq<OrderRow>): seq<NewCustomers> {
    var firsts := FirstOrders(orders);
    Map(Keys(firsts, FirstDate), CountFirst(firsts))
  }

  /** A joined order after the three `withColumn` calls. */
  datatype Enriched = Enriched(reportDate: Option<int>, currency: string, itemCount: Option<int>, lineRevenue: Option<int>)

  const Enrich: ((OrderRow, Option<OrderItems>)) -> Enriched :=
    (j: (OrderRow, Option<OrderItems>)) =>
      Enriched(ToDate(j.0.createdAt), j.0.currency.Or("USD"),
               if j.1.Some? then Some(j.1.value.itemCount) else None,
               (if j.1.Some? then j.1.value.gross else None).OrElse(Cast(j.0.total)))

  const EnrichedKey: Enriched -> (Option<int>, string) := (e: Enriched) => (e.reportDate, e.currency)
  const EnrichedItems: Enriched -> Option<int> := (e: Enriched) => e.itemCount
  const EnrichedRevenue: Enriched -> Option<int> := (e: Enriched) => e.lineRevenue

  function EnrichedOrders(orders: seq<OrderRow>, items: seq<ItemRow>): seq<Enriched> {
    Map(LeftJoin(RevenueOrders(orders), ItemsPerOrder(items), OrderKey, OrderItemsKey), Enrich)
  }

  /** `.agg(...)` of one daily group, before the join with the new customers. */
  function DayOf(k: (Option<int>, string), g: seq<Enriched>): DailyRow {
    var revenue := SumSql(g, EnrichedRevenue);
    DailyRow(k.0, k.1, |g|, SumSql(g, EnrichedItems).Or(0),
             Cast(revenue), Cast(revenue), SparkAvg(revenue, |g|), 0)
  }

  function AggregateDay(rows: seq<Enriched>): ((Option<int>, string)) -> DailyRow {
    (k: (Option<int>, string)) => DayOf(k, Group(rows, EnrichedKey, k))
  }

  const DailyDate: DailyRow -> Option<int> := (d: DailyRow) => d.reportDate

  const WithNewCustomers: ((DailyRow, Option<NewCustomers>)) -> DailyRow :=
    (j: (DailyRow, Option<NewCustomers>)) => j.0.(newCustomers := if j.1.Some? then j.1.value.count else 0)

  /** `gold_daily_revenue`. */
  function DailyRevenue(orders: seq<OrderRow>, items: seq<ItemRow>): seq<DailyRow> {
    var rows := EnrichedOrders(orders, items);
    var days := Map(Keys(rows, EnrichedKey), AggregateDay(rows));
    Map(LeftJoin(days, NewCustomersPerDate(RevenueOrders(orders)), DailyDate, NewCustomersDate), WithNewCustomers)
  }

  // ---- gold.customer_metrics --------------------------------------------------------------------

  datatype OrderStats = OrderStats(
    customerId: Option<int>, totalOrders: int, totalRevenue: Option<int>, avgOrderValue: Option<int>,
    first: Option<int>, last: Option<int>, days: Option<int>, churned: Option<bool>)

  const StatsKey: OrderStats -> Option<int> := (s: OrderStats) => s.customerId

  /** `with_recency_metrics`: NULL propagates from the date to both columns. */
  function DaysSince(last: Option<int>, today: int): Option<int> {
    if last.None? then None else Some(today - last.value)
  }

  function Churned(days: Option<int>): Option<bool> {
    if days.None? then None else Some(days.value > CHURN_THRESHOLD_DAYS)
  }

  function StatsOf(c: Option<int>, g: seq<OrderRow>, today: int): OrderStats {
    var total := SumSql(g, OrderTotal);
    var last := MaxSql(g, OrderDate);
    OrderStats(c, |g|, Cast(total), SparkAvg(total, |g|), MinSql(g, OrderDate), last,
               DaysSince(last, today), Churned(DaysSince(last, today)))
  }

  function AggregateCustomer(orders: seq<OrderRow>, today: int): Option<int> -> OrderStats {
    (c: Option<int>) => StatsOf(c, Group(orders, OrderCustomer, c), today)
  }

  function CustomerStats(orders: seq<OrderRow>, today: int): seq<OrderStats> {
    Map(Keys(orders, OrderCustomer), AggregateCustomer(orders, today))
  }

  const IsUpserted: CustomerRow -> bool := (c: CustomerRow) => c.op.Some?

  const ToMetrics: ((CustomerRow, Option<OrderStats>)) -> MetricsRow :=
    (j: (CustomerRow, Option<OrderStats>)) =>
      match j.1
      case None => MetricsRow(j.0.customerId, None, None, 0, 0, 0, None, false)
      case Some(s) => MetricsRow(j.0.customerId, s.first, s.last, s.totalOrders,
                                 s.totalRevenue.Or(0), s.avgOrderValue.Or(0), s.days, s.churned.Or(false))

  /** `gold_customer_metrics`. */
  function CustomerMetrics(orders: seq<OrderRow>, customers: seq<CustomerRow>, today: int): seq<MetricsRow> {
    Map(LeftJoin(Filter(customers, IsUpserted), CustomerStats(RevenueOrders(orders), today), CustomerKey, StatsKey), ToMetrics)
  }
}
