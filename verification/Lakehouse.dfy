/** The batch pipeline over stored tables: Bronze ingest, Silver transform, Gold aggregate. */
module Lakehouse {
  import opened Options
  import opened Aggregates
  import opened Relational
  import opened Rounding
  import opened Dedup
  import opened Cdc
  import opened Source
  import opened Gold
  import opened Tables

  // ---- silver projections ------------------------------------------------------------------

  const OrderImage: (int, Image<Order>) -> OrderRow :=
    (id: int, i: Image<Order>) =>
      OrderRow(id, i.row.customerId, Some(i.row.status), Cast(Some(i.row.total)), None,
               Some(i.row.createdAt), Some(i.row.updatedAt), Some(i.op))

  const CustomerImage: (int, Image<Customer>) -> CustomerRow :=
    (id: int, i: Image<Customer>) =>
      CustomerRow(id, Some(i.row.name), Some(i.row.email), Some(i.row.createdAt), Some(i.row.updatedAt), Some(i.op))

  /** `with_line_total`; the order's date is joined in afterwards. */
  const ItemImage: (int, Image<Item>) -> ItemRow :=
    (id: int, i: Image<Item>) =>
      ItemRow(id, i.row.orderId, i.row.productId, Some(i.row.quantity), Cast(Some(i.row.unitPrice)),
              Cast(Some(i.row.quantity * i.row.unitPrice)), None)

  function Project<V, R>(p: (int, Image<V>) -> R): Row<Image<V>> -> R { (r: Row<Image<V>>) => p(r.id, r.val) }

  /** The deduplicated, projected rows; `ties` is the window order the engine used. */
  function SilverRows<V, R>(ties: seq<Row<Image<V>>>, p: (int, Image<V>) -> R): seq<R> {
    Map(RankOne(ties), Project(p))
  }

  const WithOrderDate: ((ItemRow, Option<OrderRow>)) -> ItemRow :=
    (j: (ItemRow, Option<OrderRow>)) => j.0.(orderCreatedAt := if j.1.Some? then j.1.value.createdAt else None)

  /** `latest.join(orders_ref, "order_id", "left")` against the stored silver.orders. */
  function EnrichItems(items: seq<ItemRow>, orders: seq<OrderRow>): seq<ItemRow> {
    Map(LeftJoin(items, orders, ItemOrder, OrderKey), WithOrderDate)
  }

  // ---- partitioning ----------------------------------------------------------------------------

  /** The transforms of the DDL: bucket hashes and the month of a date. */
  datatype Layout = Layout(bucket16: int -> int, bucket32: int -> int, month: int -> int)

  const OrderPartition: OrderRow -> Option<int> := (r: OrderRow) => ToDate(r.createdAt)
  const CustomerPartition: CustomerRow -> Option<int> := (r: CustomerRow) => ToDate(r.createdAt)

  type ItemPart = (Option<int>, int)

  function ItemPartition(l: Layout): ItemRow -> ItemPart {
    (r: ItemRow) => (ToDate(r.orderCreatedAt), l.bucket16(r.orderId))
  }

  function DailyPartition(l: Layout): DailyRow -> Option<int> {
    (r: DailyRow) => if r.reportDate.None? then None else Some(l.month(r.reportDate.value))
  }

  function MetricsPartition(l: Layout): MetricsRow -> int { (r: MetricsRow) => l.bucket32(r.customerId) }

  // ---- one batch run, functionally ---------------------------------------------------------------

  /** A record of the generic-events topic, kept whole. */
  datatype KafkaRecord = KafkaRecord(topic: string, partition: int, offset: int, timestamp: int, key: string, payload: string)

  datatype Lake = Lake(
    rawEvents: seq<KafkaRecord>,
    rawOrders: seq<BronzeRow<Order>>, rawCustomers: seq<BronzeRow<Customer>>, rawItems: seq<BronzeRow<Item>>,
    orders: seq<OrderRow>, customers: seq<CustomerRow>, items: seq<ItemRow>,
    daily: seq<DailyRow>, metrics: seq<MetricsRow>)

  const EMPTY: Lake := Lake([], [], [], [], [], [], [], [], [])

  /** The three topics as one run finds them, each up to its own end. */
  datatype Topics = Topics(orders: seq<Event<Order>>, customers: seq<Event<Customer>>, items: seq<Event<Item>>,
                           orderClock: Clock, customerClock: Clock, itemClock: Clock)

  /** What a run does not control: the offsets still retained, the engine's order of
      ties, the generic events it finds, and today's date. */
  datatype Choices = Choices(
    orderOffsets: seq<int>, customerOffsets: seq<int>, itemOffsets: seq<int>,
    orderTies: seq<Row<Image<Order>>>, customerTies: seq<Row<Image<Customer>>>, itemTies: seq<Row<Image<Item>>>,
    events: seq<KafkaRecord>, today: int)

  predicate ValidReads(t: Topics, c: Choices) {
    ValidOffsets(t.orders, c.orderOffsets) && ValidOffsets(t.customers, c.customerOffsets) && ValidOffsets(t.items, c.itemOffsets)
  }

  function Bronze(lake: Lake, t: Topics, c: Choices): Lake
    requires ValidReads(t, c)
  {
    lake.(rawEvents := lake.rawEvents + c.events,
          rawOrders := lake.rawOrders + ReadTopic(t.orders, t.orderClock, c.orderOffsets),
          rawCustomers := lake.rawCustomers + ReadTopic(t.customers, t.customerClock, c.customerOffsets),
          rawItems := lake.rawItems + ReadTopic(t.items, t.itemClock, c.itemOffsets))
  }

  ghost predicate ValidTies(lake: Lake, c: Choices) {
    && IsWindowOrder(UpsertRows(lake.rawOrders), c.orderTies)
    && IsWindowOrder(UpsertRows(lake.rawCustomers), c.customerTies)
    && IsWindowOrder(UpsertRows(lake.rawItems), c.itemTies)
  }

  function Silver(lake: Lake, l: Layout, c: Choices): Lake {
    var orders := Overwrite(lake.orders, SilverRows(c.orderTies, OrderImage), OrderPartition);
    var customers := Overwrite(lake.customers, SilverRows(c.customerTies, CustomerImage), CustomerPartition);
    var items := Overwrite(lake.items, EnrichItems(SilverRows(c.itemTies, ItemImage), orders), ItemPartition(l));
    lake.(orders := orders, customers := customers, items := items)
  }

  function GoldTables(lake: Lake, l: Layout, today: int): Lake {
    lake.(daily := Overwrite(lake.daily, DailyRevenue(lake.orders, lake.items), DailyPartition(l)),
          metrics := Overwrite(lake.metrics, CustomerMetrics(lake.orders, lake.customers, today), MetricsPartition(l)))
  }

  function RunBatch(lake: Lake, l: Layout, t: Topics, c: Choices): Lake
    requires ValidReads(t, c)
  {
    GoldTables(Silver(Bronze(lake, t, c), l, c), l, c.today)
  }

  // ---- the jobs as they run -------------------------------------------------------------------------

  /** The stored tables; every job reads some and overwrites partitions of one. */
  class Warehouse {
    const layout: Layout
    const rawEvents: Table<KafkaRecord, int>
    const rawOrders: Table<BronzeRow<Order>, int>
    const rawCustomers: Table<BronzeRow<Customer>, int>
    const rawItems: Table<BronzeRow<Item>, int>
    const orders: Table<OrderRow, Option<int>>
    const customers: Table<CustomerRow, Option<int>>
    const items: Table<ItemRow, ItemPart>
    const daily: Table<DailyRow, Option<int>>
    const metrics: Table<MetricsRow, int>

    ghost predicate Valid() {
      && orders.partition == OrderPartition && customers.partition == CustomerPartition
      && items.partition == ItemPartition(layout) && daily.partition == DailyPartition(layout)
      && metrics.partition == MetricsPartition(layout)
    }

    ghost function State(): Lake
      reads rawEvents, rawOrders, rawCustomers, rawItems, orders, customers, items, daily, metrics
    {
      Lake(rawEvents.rows, rawOrders.rows, rawCustomers.rows, rawItems.rows, orders.rows, customers.rows, items.rows, daily.rows, metrics.rows)
    }

    constructor (l: Layout)
      ensures Valid() && layout == l && State() == EMPTY
      ensures fresh(rawEvents) && fresh(rawOrders) && fresh(rawCustomers) && fresh(rawItems) && fresh(orders)
      ensures fresh(customers) && fresh(items) && fresh(daily) && fresh(metrics)
    {
      layout := l;
      rawEvents := new Table((r: KafkaRecord) => 0);
      rawOrders := new Table((r: BronzeRow<Order>) => 0);
      rawCustomers := new Table((r: BronzeRow<Customer>) => 0);
      rawItems := new Table((r: BronzeRow<Item>) => 0);
      orders := new Table(OrderPartition);
      customers := new Table(CustomerPartition);
      items := new Table(ItemPartition(l));
      daily := new Table(DailyPartition(l));
      metrics := new Table(MetricsPartition(l));
    }

    /** `01_bronze_ingest.main`: the three CDC topics in order, then the generic events,
        counts accumulated. */
    method BronzeIngest(t: Topics, c: Choices) returns (total: nat)
      requires ValidReads(t, c)
      modifies rawEvents, rawOrders, rawCustomers, rawItems
      ensures State() == Bronze(old(State()), t, c)
      ensures rawEvents.rows == old(rawEvents.rows) + c.events
      ensures total == |rawOrders.rows| + |rawCustomers.rows| + |rawItems.rows| + |rawEvents.rows|
                     - old(|rawOrders.rows| + |rawCustomers.rows| + |rawItems.rows| + |rawEvents.rows|)
    {
      total := 0;
      var n := rawOrders.Append(ReadTopic(t.orders, t.orderClock, c.orderOffsets));
      total := total + n;
      n := rawCustomers.Append(ReadTopic(t.customers, t.customerClock, c.customerOffsets));
      total := total + n;
      n := rawItems.Append(ReadTopic(t.items, t.itemClock, c.itemOffsets));
      total := total + n;
      n := rawEvents.Append(c.events);
      total := total + n;
    }

    /** `02_silver_transform.main`; the items are joined with the orders just written. */
    method SilverTransform(c: Choices)
      requires Valid() && ValidTies(State(), c)
      modifies orders, customers, items
      ensures State() == Silver(old(State()), layout, c)
      ensures Replaced(old(orders.rows), SilverRows(c.orderTies, OrderImage), OrderPartition, orders.rows)
      ensures Replaced(old(customers.rows), SilverRows(c.customerTies, CustomerImage), CustomerPartition, customers.rows)
      ensures Replaced(old(items.rows), EnrichItems(SilverRows(c.itemTies, ItemImage), orders.rows), ItemPartition(layout), items.rows)
    {
      orders.OverwritePartitions(SilverRows(c.orderTies, OrderImage));
      customers.OverwritePartitions(SilverRows(c.customerTies, CustomerImage));
      items.OverwritePartitions(EnrichItems(SilverRows(c.itemTies, ItemImage), orders.rows));
    }

    /** `03_gold_aggregate.main`. */
    method GoldAggregate(today: int)
      requires Valid()
      modifies daily, metrics
      ensures State() == GoldTables(old(State()), layout, today)
      ensures Replaced(old(daily.rows), DailyRevenue(orders.rows, items.rows), DailyPartition(layout), daily.rows)
      ensures Replaced(old(metrics.rows), CustomerMetrics(orders.rows, customers.rows, today), MetricsPartition(layout), metrics.rows)
    {
      daily.OverwritePartitions(DailyRevenue(orders.rows, items.rows));
      metrics.OverwritePartitions(CustomerMetrics(orders.rows, customers.rows, today));
    }

    method Batch(t: Topics, c: Choices)
      requires Valid() && ValidReads(t, c) && ValidTies(Bronze(State(), t, c), c)
      modifies rawEvents, rawOrders, rawCustomers, rawItems, orders, customers, items, daily, metrics
      ensures State() == RunBatch(old(State()), layout, t, c)
    {
      var _ := BronzeIngest(t, c);
      SilverTransform(c);
      GoldAggregate(c.today);
    }
  }
}
