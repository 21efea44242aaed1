/** What the Gold tables say about the Silver rows they were computed from. */
module GoldLaws {
  import opened Options
  import opened Aggregates
  import opened Relational
  import opened Rounding
  import opened Gold

  // ---- shape of gold.daily_revenue -------------------------------------------------------

  function ItemGroup(items: seq<ItemRow>, o: OrderRow): seq<ItemRow> { Group(items, ItemOrder, Some(o.orderId)) }

  /** The revenue the job books for an order: its items, or its total if there are none. */
  function LineRevenue(items: seq<ItemRow>, o: OrderRow): Option<int> {
    var g := ItemGroup(items, o);
    (if g == [] then None else Cast(SumSql(g, ItemTotal))).OrElse(Cast(o.total))
  }

  function EnrichOrder(items: seq<ItemRow>): OrderRow -> Enriched {
    (o: OrderRow) =>
      Enriched(ToDate(o.createdAt), o.currency.Or("USD"),
               if ItemGroup(items, o) == [] then None else Some(|ItemGroup(items, o)|),
               LineRevenue(items, o))
  }

  /** The join of orders with their item aggregates has no fan-out: exactly one row per
      revenue order, carrying that order's items. */
  lemma NoFanOut(orders: seq<OrderRow>, items: seq<ItemRow>)
    ensures EnrichedOrders(orders, items) == Map(RevenueOrders(orders), EnrichOrder(items))
  {
    var left, ks := RevenueOrders(orders), Keys(items, ItemOrder);
    AggregatedKeysDistinct(ks, AggregateItems(items), OrderItemsKey);
    JoinOnUniqueKey(left, ItemsPerOrder(items), OrderKey, OrderItemsKey);
    forall i | 0 <= i < |left| ensures Enrich(Attach(ItemsPerOrder(items), OrderKey, OrderItemsKey)(left[i])) == EnrichOrder(items)(left[i]) {
      var k := OrderKey(left[i]);
      LookupAggregate(ks, AggregateItems(items), OrderItemsKey, k);
      GroupIsEmptyIffNoKey(items, k);
    }
  }

  lemma GroupIsEmptyIffNoKey(items: seq<ItemRow>, k: Option<int>)
    ensures k in Keys(items, ItemOrder) <==> Group(items, ItemOrder, k) != []
  {
    var g := Group(items, ItemOrder, k);
    if k in Keys(items, ItemOrder) {
      var x :| x in items && ItemOrder(x) == k;
      assert x in g;
    }
    if g != [] { assert g[0] in g; }
  }

  type DayKey = (Option<int>, string)

  function NewOn(firsts: seq<NewCustomers>, d: Option<int>): int {
    var n := Lookup(firsts, NewCustomersDate, d);
    if n.Some? then n.value.count else 0
  }

  function DailyRowOf(rows: seq<Enriched>, firsts: seq<NewCustomers>): DayKey -> DailyRow {
    (k: DayKey) => DayOf(k, Group(rows, EnrichedKey, k)).(newCustomers := NewOn(firsts, k.0))
  }

  /** One row per (date, currency), each the aggregate of its group. */
  lemma DailyRowsAre(orders: seq<OrderRow>, items: seq<ItemRow>)
    ensures var rows := Map(RevenueOrders(orders), EnrichOrder(items));
      DailyRevenue(orders, items) == Map(Keys(rows, EnrichedKey), DailyRowOf(rows, NewCustomersPerDate(RevenueOrders(orders))))
  {
    NoFanOut(orders, items);
    var rows := EnrichedOrders(orders, items);
    var firsts := FirstOrders(RevenueOrders(orders));
    var news := NewCustomersPerDate(RevenueOrders(orders));
    AggregatedKeysDistinct(Keys(firsts, FirstDate), CountFirst(firsts), NewCustomersDate);
    JoinOnUniqueKey(Map(Keys(rows, EnrichedKey), AggregateDay(rows)), news, DailyDate, NewCustomersDate);
  }

  const DayKeyOf: DailyRow -> DayKey := (d: DailyRow) => (d.reportDate, d.currency)

  lemma OneRowPerDateAndCurrency(orders: seq<OrderRow>, items: seq<ItemRow>)
    ensures DistinctBy(DailyRevenue(orders, items), DayKeyOf)
  {
    DailyRowsAre(orders, items);
    var rows := Map(RevenueOrders(orders), EnrichOrder(items));
    AggregatedKeysDistinct(Keys(rows, EnrichedKey), DailyRowOf(rows, NewCustomersPerDate(RevenueOrders(orders))), DayKeyOf);
  }

  // ---- totals over all daily rows ---------------------------------------------------------------

  function One<T>(): T -> int { (x: T) => 1 }

  lemma {:induction false} CountIsSum<T>(s: seq<T>)
    ensures Sum(s, One<T>()) == |s|
  {
    if s != [] { CountIsSum(s[1..]); }
  }

  /** A column that is the group total of `f` adds up to the total of `f`. */
  lemma ColumnTotal(orders: seq<OrderRow>, items: seq<ItemRow>, column: DailyRow -> int, f: Enriched -> int)
    requires var rows := Map(RevenueOrders(orders), EnrichOrder(items));
      forall k :: k in Keys(rows, EnrichedKey) ==>
        column(DailyRowOf(rows, NewCustomersPerDate(RevenueOrders(orders)))(k)) == GroupSum(rows, EnrichedKey, f, k)
    ensures Sum(DailyRevenue(orders, items), column) == Sum(Map(RevenueOrders(orders), EnrichOrder(items)), f)
  {
    DailyRowsAre(orders, items);
    var rows := Map(RevenueOrders(orders), EnrichOrder(items));
    var ks := Keys(rows, EnrichedKey);
    SumMap(ks, DailyRowOf(rows, NewCustomersPerDate(RevenueOrders(orders))), column, k => GroupSum(rows, EnrichedKey, f, k));
    PartitionSum(rows, EnrichedKey, f, ks);
  }

  const LineValue: ItemRow -> int := (r: ItemRow) => r.lineTotal.Or(0)
  const OrderCountOf: DailyRow -> int := (d: DailyRow) => d.orderCount
  const ItemCountOf: DailyRow -> int := (d: DailyRow) => d.itemCount
  const NetOf: DailyRow -> int := (d: DailyRow) => d.net.Or(0)
  const NewCustomersOf: DailyRow -> int := (d: DailyRow) => d.newCustomers
  const ItemsOrZero: Enriched -> int := (e: Enriched) => e.itemCount.Or(0)
  const RevenueOrZero: Enriched -> int := (e: Enriched) => e.lineRevenue.Or(0)

  function ItemGroupSize(items: seq<ItemRow>): OrderRow -> int { (o: OrderRow) => |ItemGroup(items, o)| }

  lemma {:induction false} SumSqlOrZero(s: seq<Enriched>)
    ensures SumSql(s, EnrichedItems).Or(0) == Sum(s, ItemsOrZero)
  {
    if s != [] { SumSqlOrZero(s[1..]); }
  }

  /** Every revenue order is counted on exactly one day. */
  lemma DailyCountsOrders(orders: seq<OrderRow>, items: seq<ItemRow>)
    ensures Sum(DailyRevenue(orders, items), OrderCountOf) == |RevenueOrders(orders)|
  {
    var rows := Map(RevenueOrders(orders), EnrichOrder(items));
    forall k | k in Keys(rows, EnrichedKey) ensures |Group(rows, EnrichedKey, k)| == GroupSum(rows, EnrichedKey, One<Enriched>(), k) {
      CountIsSum(Group(rows, EnrichedKey, k));
    }
    ColumnTotal(orders, items, OrderCountOf, One<Enriched>());
    CountIsSum(rows);
  }

  lemma EnrichedItemsTotal(revenue: seq<OrderRow>, items: seq<ItemRow>)
    ensures Sum(Map(revenue, EnrichOrder(items)), ItemsOrZero) == Sum(revenue, ItemGroupSize(items))
  {
    SumMap(revenue, EnrichOrder(items), ItemsOrZero, ItemGroupSize(items));
  }

  lemma DayItems(rows: seq<Enriched>)
    ensures forall k :: k in Keys(rows, EnrichedKey) ==>
      SumSql(Group(rows, EnrichedKey, k), EnrichedItems).Or(0) == GroupSum(rows, EnrichedKey, ItemsOrZero, k)
  {
    forall k | k in Keys(rows, EnrichedKey)
      ensures SumSql(Group(rows, EnrichedKey, k), EnrichedItems).Or(0) == GroupSum(rows, EnrichedKey, ItemsOrZero, k)
    {
      SumSqlOrZero(Group(rows, EnrichedKey, k));
    }
  }

  /** ... and every one of its items with it. */
  lemma DailyCountsItems(orders: seq<OrderRow>, items: seq<ItemRow>)
    ensures Sum(DailyRevenue(orders, items), ItemCountOf) == Sum(RevenueOrders(orders), ItemGroupSize(items))
  {
    var rows := Map(RevenueOrders(orders), EnrichOrder(items));
    DayItems(rows);
    ColumnTotal(orders, items, ItemCountOf, ItemsOrZero);
    EnrichedItemsTotal(RevenueOrders(orders), items);
  }

  /** When the line revenue of every revenue order is known and together they fit the
      column, the daily net revenue adds up to exactly that, with no NULL. */
  lemma DailyNetTotal(orders: seq<OrderRow>, items: seq<ItemRow>, lr: OrderRow -> int)
    requires forall o :: o in RevenueOrders(orders) ==> LineRevenue(items, o) == Some(lr(o)) && lr(o) >= 1
    requires Sum(RevenueOrders(orders), lr) < DECIMAL_18_2
    ensures Sum(DailyRevenue(orders, items), NetOf) == Sum(RevenueOrders(orders), lr)
    ensures forall d :: d in DailyRevenue(orders, items) ==> d.net.Some? && d.net.value >= 1 && d.gross == d.net
  {
    var rows := Map(RevenueOrders(orders), EnrichOrder(items));
    SumMap(RevenueOrders(orders), EnrichOrder(items), RevenueOrZero, lr);
    forall e | e in rows ensures e.lineRevenue == Some(RevenueOrZero(e)) && RevenueOrZero(e) >= 1 {
      var i :| 0 <= i < |rows| && rows[i] == e;
      assert RevenueOrders(orders)[i] in RevenueOrders(orders);
    }
    DayNets(rows);
    ColumnTotal(orders, items, NetOf, RevenueOrZero);
    DailyRowsAre(orders, items);
    DaysKnown(rows, NewCustomersPerDate(RevenueOrders(orders)));
  }

  lemma DayNets(rows: seq<Enriched>)
    requires forall e :: e in rows ==> e.lineRevenue == Some(RevenueOrZero(e)) && RevenueOrZero(e) >= 1
    requires Sum(rows, RevenueOrZero) < DECIMAL_18_2
    ensures forall k :: k in Keys(rows, EnrichedKey) ==>
      DayNet(rows, k) == Some(GroupSum(rows, EnrichedKey, RevenueOrZero, k)) && DayNet(rows, k).value >= 1
  {
    forall k | k in Keys(rows, EnrichedKey)
      ensures DayNet(rows, k) == Some(GroupSum(rows, EnrichedKey, RevenueOrZero, k)) && DayNet(rows, k).value >= 1
    {
      DayNetIsGroupSum(rows, k);
    }
  }

  lemma DaysKnown(rows: seq<Enriched>, firsts: seq<NewCustomers>)
    requires forall k :: k in Keys(rows, EnrichedKey) ==> DayNet(rows, k).Some? && DayNet(rows, k).value >= 1
    ensures forall d :: d in Map(Keys(rows, EnrichedKey), DailyRowOf(rows, firsts)) ==> d.net.Some? && d.net.value >= 1 && d.gross == d.net
  {
    var days := Map(Keys(rows, EnrichedKey), DailyRowOf(rows, firsts));
    forall d | d in days ensures d.net.Some? && d.net.value >= 1 && d.gross == d.net {
      var i :| 0 <= i < |days| && days[i] == d;
      assert d.net == DayNet(rows, Keys(rows, EnrichedKey)[i]);
    }
  }

  function DayNet(rows: seq<Enriched>, k: DayKey): Option<int> { Cast(SumSql(Group(rows, EnrichedKey, k), EnrichedRevenue)) }

  lemma DayNetIsGroupSum(rows: seq<Enriched>, k: DayKey)
    requires k in Keys(rows, EnrichedKey)
    requires forall e :: e in rows ==> e.lineRevenue == Some(RevenueOrZero(e)) && RevenueOrZero(e) >= 1
    requires Sum(rows, RevenueOrZero) < DECIMAL_18_2
    ensures DayNet(rows, k) == Some(GroupSum(rows, EnrichedKey, RevenueOrZero, k)) && DayNet(rows, k).value >= 1
  {
    var g := Group(rows, EnrichedKey, k);
    var x :| x in rows && EnrichedKey(x) == k;
    assert x in g;
    SumSqlIsSum(g, EnrichedRevenue, RevenueOrZero);
    SumAtLeast(g, RevenueOrZero);
    GroupSumBounded(rows, EnrichedKey, RevenueOrZero, k);
  }

  // ---- new customers -------------------------------------------------------------------------------

  const DateOf: DayKey -> Option<int> := (k: DayKey) => k.0

  function NewColumn(revenue: seq<OrderRow>): DayKey -> int { (k: DayKey) => NewOn(NewCustomersPerDate(revenue), k.0) }

  function NewPerDate(firsts: seq<FirstOrder>): Option<int> -> int {
    (d: Option<int>) => GroupSum(firsts, FirstDate, One<FirstOrder>(), d)
  }

  /** With one currency, as Silver writes it (always NULL), every customer with a revenue
      order is new on exactly one reported day. */
  lemma NewCustomersAddUp(orders: seq<OrderRow>, items: seq<ItemRow>)
    requires forall o :: o in RevenueOrders(orders) ==> o.currency.None? && o.createdAt.Some?
    ensures Sum(DailyRevenue(orders, items), NewCustomersOf) == |Keys(RevenueOrders(orders), OrderCustomer)|
  {
    var revenue := RevenueOrders(orders);
    var rows := Map(revenue, EnrichOrder(items));
    DailyRowsAre(orders, items);
    SumMap(Keys(rows, EnrichedKey), DailyRowOf(rows, NewCustomersPerDate(revenue)), NewCustomersOf, NewColumn(revenue));
    NewOverDates(revenue, items);
  }

  lemma NewOverDates(revenue: seq<OrderRow>, items: seq<ItemRow>)
    requires forall o :: o in revenue ==> o.currency.None? && o.createdAt.Some?
    ensures Sum(Keys(Map(revenue, EnrichOrder(items)), EnrichedKey), NewColumn(revenue)) == |Keys(revenue, OrderCustomer)|
  {
    var rows, firsts := Map(revenue, EnrichOrder(items)), FirstOrders(revenue);
    var ks := Keys(rows, EnrichedKey);
    var dates := Map(ks, DateOf);
    forall k | k in ks ensures k.1 == "USD" && k.0.Some? { KeyOfSomeOrder(revenue, items, k); }
    assert Distinct(dates) by {
      forall i, j | 0 <= i < j < |dates| ensures dates[i] != dates[j] { assert ks[i] in ks && ks[j] in ks; }
    }
    forall f | f in firsts ensures f.firstDate in dates { FirstDateIsReported(revenue, items, f); }
    PartitionSum(firsts, FirstDate, One<FirstOrder>(), dates);
    SumCong(dates, d => GroupSum(firsts, FirstDate, One<FirstOrder>(), d), NewPerDate(firsts));
    CountIsSum(firsts);
    forall k | k in ks ensures NewColumn(revenue)(k) == NewPerDate(firsts)(DateOf(k)) {
      NewOnIsGroupSize(firsts, k.0);
    }
    SumMap(ks, DateOf, NewPerDate(firsts), NewColumn(revenue));
  }

  lemma NewOnIsGroupSize(firsts: seq<FirstOrder>, d: Option<int>)
    requires d.Some?
    ensures NewOn(Map(Keys(firsts, FirstDate), CountFirst(firsts)), d) == GroupSum(firsts, FirstDate, One<FirstOrder>(), d)
  {
    var ks := Keys(firsts, FirstDate);
    LookupAggregate(ks, CountFirst(firsts), NewCustomersDate, d);
    CountIsSum(Group(firsts, FirstDate, d));
    if d !in ks { GroupWithoutKey(firsts, FirstDate, d); }
  }

  lemma KeyOfSomeOrder(revenue: seq<OrderRow>, items: seq<ItemRow>, k: DayKey)
    requires forall o :: o in revenue ==> o.currency.None? && o.createdAt.Some?
    requires k in Keys(Map(revenue, EnrichOrder(items)), EnrichedKey)
    ensures k.1 == "USD" && k.0.Some?
  {
  }

  lemma FirstDateIsReported(revenue: seq<OrderRow>, items: seq<ItemRow>, f: FirstOrder)
    requires forall o :: o in revenue ==> o.currency.None? && o.createdAt.Some?
    requires f in FirstOrders(revenue)
    ensures f.firstDate in Map(Keys(Map(revenue, EnrichOrder(items)), EnrichedKey), DateOf)
  {
    var i :| 0 <= i < |FirstOrders(revenue)| && FirstOrders(revenue)[i] == f;
    assert Keys(revenue, OrderCustomer)[i] in Keys(revenue, OrderCustomer);
    var j := FirstDateOfSomeOrder(revenue, Keys(revenue, OrderCustomer)[i]);
    var rows := Map(revenue, EnrichOrder(items));
    assert rows[j] in rows;
    DateOfKey(Keys(rows, EnrichedKey), EnrichedKey(rows[j]));
  }

  lemma FirstDateOfSomeOrder(revenue: seq<OrderRow>, c: Option<int>) returns (j: nat)
    requires forall o :: o in revenue ==> o.createdAt.Some?
    requires c in Keys(revenue, OrderCustomer)
    ensures j < |revenue| && OrderDate(revenue[j]) == MinSql(Group(revenue, OrderCustomer, c), OrderDate)
  {
    var g := Group(revenue, OrderCustomer, c);
    var y :| y in revenue && OrderCustomer(y) == c;
    assert y in g && OrderDate(y).Some?;
    MinIsAtMostMax(g, OrderDate);
    var x :| x in g && OrderDate(x) == MinSql(g, OrderDate);
    j :| 0 <= j < |revenue| && revenue[j] == x;
  }

  lemma DateOfKey(ks: seq<DayKey>, k: DayKey)
    requires k in ks
    ensures k.0 in Map(ks, DateOf)
  {
  }

  // ---- gold.customer_metrics -------------------------------------------------------------------------

  function MetricsOf(orders: seq<OrderRow>, today: int): CustomerRow -> MetricsRow {
    (c: CustomerRow) =>
      var g := Group(RevenueOrders(orders), OrderCustomer, Some(c.customerId));
      ToMetrics((c, if g == [] then None else Some(StatsOf(Some(c.customerId), g, today))))
  }

  /** One row per customer, computed from exactly that customer's revenue orders. */
  lemma MetricsRowsAre(orders: seq<OrderRow>, customers: seq<CustomerRow>, today: int)
    ensures CustomerMetrics(orders, customers, today) == Map(Filter(customers, IsUpserted), MetricsOf(orders, today))
  {
    var revenue, left := RevenueOrders(orders), Filter(customers, IsUpserted);
    var ks := Keys(revenue, OrderCustomer);
    AggregatedKeysDistinct(ks, AggregateCustomer(revenue, today), StatsKey);
    JoinOnUniqueKey(left, CustomerStats(revenue, today), CustomerKey, StatsKey);
    forall i | 0 <= i < |left|
      ensures ToMetrics(Attach(CustomerStats(revenue, today), CustomerKey, StatsKey)(left[i])) == MetricsOf(orders, today)(left[i])
    {
      StatsOfCustomer(revenue, CustomerKey(left[i]), today);
    }
  }

  const MetricsKey: MetricsRow -> Option<int> := (m: MetricsRow) => Some(m.customerId)

  /** Unique customers give unique metrics rows. */
  lemma OneRowPerCustomer(orders: seq<OrderRow>, customers: seq<CustomerRow>, today: int)
    requires DistinctBy(customers, CustomerKey) && forall c :: c in customers ==> IsUpserted(c)
    ensures DistinctBy(CustomerMetrics(orders, customers, today), MetricsKey)
    ensures |CustomerMetrics(orders, customers, today)| == |customers|
    ensures forall i :: 0 <= i < |customers| ==> CustomerMetrics(orders, customers, today)[i].customerId == customers[i].customerId
  {
    MetricsRowsAre(orders, customers, today);
    FilterAll(customers, IsUpserted);
    var metrics := CustomerMetrics(orders, customers, today);
    forall i | 0 <= i < |metrics| ensures MetricsKey(metrics[i]) == CustomerKey(customers[i]) {
      assert metrics[i] == MetricsOf(orders, today)(customers[i]);
    }
    forall i, j | 0 <= i < j < |metrics| ensures MetricsKey(metrics[i]) != MetricsKey(metrics[j]) {
      assert CustomerKey(customers[i]) != CustomerKey(customers[j]);
    }
  }

  lemma StatsOfCustomer(revenue: seq<OrderRow>, k: Option<int>, today: int)
    requires k.Some?
    ensures Lookup(CustomerStats(revenue, today), StatsKey, k)
         == if Group(revenue, OrderCustomer, k) == [] then None else Some(StatsOf(k, Group(revenue, OrderCustomer, k), today))
  {
    var ks := Keys(revenue, OrderCustomer);
    LookupAggregate(ks, AggregateCustomer(revenue, today), StatsKey, k);
    if k in ks {
      var x :| x in revenue && OrderCustomer(x) == k;
      assert x in Group(revenue, OrderCustomer, k);
    } else {
      GroupWithoutKey(revenue, OrderCustomer, k);
    }
  }

  /** What the quality gate asks of dates, counts and flags, and its churn query: no row
      has more than 90 days of silence without being flagged. */
  ghost predicate MeetsGate(m: MetricsRow) {
    && (m.firstOrderDate.Some? <==> m.lastOrderDate.Some?)
    && (m.firstOrderDate.Some? ==> m.firstOrderDate.value <= m.lastOrderDate.value)
    && m.totalOrders >= 0
    && (m.daysSinceLastOrder.Some? <==> m.lastOrderDate.Some?)
    && (m.isChurned <==> m.daysSinceLastOrder.Some? && m.daysSinceLastOrder.value > CHURN_THRESHOLD_DAYS)
  }

  const ChurnViolation: MetricsRow -> bool :=
    (m: MetricsRow) => m.daysSinceLastOrder.Some? && m.daysSinceLastOrder.value > 90 && !m.isChurned

  lemma RowMeetsGate(orders: seq<OrderRow>, c: CustomerRow, today: int)
    ensures MeetsGate(MetricsOf(orders, today)(c))
  {
    MinIsAtMostMax(Group(RevenueOrders(orders), OrderCustomer, Some(c.customerId)), OrderDate);
  }

  /** For every Silver input, the whole table passes. */
  lemma MetricsMeetGate(orders: seq<OrderRow>, customers: seq<CustomerRow>, today: int)
    ensures forall m :: m in CustomerMetrics(orders, customers, today) ==> MeetsGate(m)
    ensures |Filter(CustomerMetrics(orders, customers, today), ChurnViolation)| == 0
  {
    var metrics := CustomerMetrics(orders, customers, today);
    MetricsRowsAre(orders, customers, today);
    assert forall m :: m in metrics ==> MeetsGate(m) by {
      forall i | 0 <= i < |metrics| ensures MeetsGate(metrics[i]) {
        RowMeetsGate(orders, Filter(customers, IsUpserted)[i], today);
      }
    }
    NoViolation(metrics);
  }

  lemma NoViolation(metrics: seq<MetricsRow>)
    requires forall m :: m in metrics ==> MeetsGate(m)
    ensures Filter(metrics, ChurnViolation) == []
  {
  }

  const TotalRevenueOf: MetricsRow -> int := (m: MetricsRow) => m.totalRevenue
  const TotalOrdersOf: MetricsRow -> int := (m: MetricsRow) => m.totalOrders

  function CustomerSum(revenue: seq<OrderRow>, f: OrderRow -> int): CustomerRow -> int {
    (c: CustomerRow) => GroupSum(revenue, OrderCustomer, f, Some(c.customerId))
  }

  /** Customers are unique and none is missing for a revenue order. */
  ghost predicate CustomersCover(orders: seq<OrderRow>, customers: seq<CustomerRow>) {
    && DistinctBy(Filter(customers, IsUpserted), CustomerKey)
    && forall o :: o in RevenueOrders(orders) ==> exists c :: c in Filter(customers, IsUpserted) && c.customerId == o.customerId
  }

  lemma CustomersAddUp(orders: seq<OrderRow>, customers: seq<CustomerRow>, f: OrderRow -> int)
    requires CustomersCover(orders, customers)
    ensures Sum(Filter(customers, IsUpserted), CustomerSum(RevenueOrders(orders), f)) == Sum(RevenueOrders(orders), f)
  {
    var left, revenue := Filter(customers, IsUpserted), RevenueOrders(orders);
    var ks := Map(left, CustomerKey);
    forall o | o in revenue ensures OrderCustomer(o) in ks {
      var c :| c in left && c.customerId == o.customerId;
      var i :| 0 <= i < |left| && left[i] == c;
      assert ks[i] == OrderCustomer(o);
    }
    PartitionSum(revenue, OrderCustomer, f, ks);
    SumMap(left, CustomerKey, k => GroupSum(revenue, OrderCustomer, f, k), CustomerSum(revenue, f));
  }

  lemma CustomerTotal(orders: seq<OrderRow>, c: CustomerRow, today: int, tv: OrderRow -> int)
    requires forall o :: o in RevenueOrders(orders) ==> o.total == Some(tv(o)) && tv(o) >= 0
    requires Sum(RevenueOrders(orders), tv) < DECIMAL_18_2
    ensures MetricsOf(orders, today)(c).totalRevenue == GroupSum(RevenueOrders(orders), OrderCustomer, tv, Some(c.customerId))
  {
    var g := Group(RevenueOrders(orders), OrderCustomer, Some(c.customerId));
    SumSqlIsSum(g, OrderTotal, tv);
    GroupSumBounded(RevenueOrders(orders), OrderCustomer, tv, Some(c.customerId));
  }

  /** Lifetime revenue adds up to the totals of all revenue orders. */
  lemma MetricsTotal(orders: seq<OrderRow>, customers: seq<CustomerRow>, today: int, tv: OrderRow -> int)
    requires forall o :: o in RevenueOrders(orders) ==> o.total == Some(tv(o)) && tv(o) >= 0
    requires Sum(RevenueOrders(orders), tv) < DECIMAL_18_2
    requires CustomersCover(orders, customers)
    ensures Sum(CustomerMetrics(orders, customers, today), TotalRevenueOf) == Sum(RevenueOrders(orders), tv)
  {
    var left, revenue := Filter(customers, IsUpserted), RevenueOrders(orders);
    MetricsRowsAre(orders, customers, today);
    forall c | c in left ensures MetricsOf(orders, today)(c).totalRevenue == CustomerSum(revenue, tv)(c) {
      CustomerTotal(orders, c, today, tv);
    }
    SumMap(left, MetricsOf(orders, today), TotalRevenueOf, CustomerSum(revenue, tv));
    CustomersAddUp(orders, customers, tv);
  }

  /** ... and the order counts to their number. */
  lemma MetricsCountOrders(orders: seq<OrderRow>, customers: seq<CustomerRow>, today: int)
    requires CustomersCover(orders, customers)
    ensures Sum(CustomerMetrics(orders, customers, today), TotalOrdersOf) == |RevenueOrders(orders)|
  {
    var left, revenue := Filter(customers, IsUpserted), RevenueOrders(orders);
    MetricsRowsAre(orders, customers, today);
    forall c | c in left ensures MetricsOf(orders, today)(c).totalOrders == CustomerSum(revenue, One<OrderRow>())(c) {
      CountIsSum(Group(revenue, OrderCustomer, Some(c.customerId)));
    }
    SumMap(left, MetricsOf(orders, today), TotalOrdersOf, CustomerSum(revenue, One<OrderRow>()));
    CustomersAddUp(orders, customers, One<OrderRow>());
    CountIsSum(revenue);
  }
}
