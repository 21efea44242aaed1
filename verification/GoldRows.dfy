/** What each row of the Gold tables says, in terms of the Silver rows alone. */
module GoldRows {
  import opened Options
  import opened Aggregates
  import opened Relational
  import opened Rounding
  import opened Source
  import opened Gold
  import opened GoldLaws

  // ---- the orders a row is about -----------------------------------------------------------

  /** The row of an upsert, in a status that bears revenue. */
  predicate Earning(o: OrderRow) {
    o.op.Some? && (o.status == Some(Confirmed) || o.status == Some(Shipped) || o.status == Some(Delivered) || o.status == Some(Completed))
  }

  /** Created on that day of the millisecond clock; None stands for a missing date. */
  predicate OnDay(o: OrderRow, day: Option<int>) {
    match day
    case None => o.createdAt.None?
    case Some(d) => o.createdAt.Some? && 86_400_000 * d <= o.createdAt.value < 86_400_000 * (d + 1)
  }

  function EarningOn(day: Option<int>, currency: string): OrderRow -> bool {
    (o: OrderRow) => Earning(o) && OnDay(o, day) && currency == if o.currency.Some? then o.currency.value else "USD"
  }

  function EarningOf(customer: int): OrderRow -> bool { (o: OrderRow) => Earning(o) && o.customerId == customer }

  function ItemOf(order: int): ItemRow -> bool { (i: ItemRow) => i.orderId == order }

  lemma DateIsDay(o: OrderRow, day: Option<int>)
    ensures OrderDate(o) == day <==> OnDay(o, day)
  {
  }

  lemma {:induction false} GroupOfFiltered<T, K>(s: seq<T>, p: T -> bool, key: T -> K, k: K, q: T -> bool)
    requires forall x :: x in s ==> (q(x) <==> p(x) && key(x) == k)
    ensures Group(Filter(s, p), key, k) == Filter(s, q)
  {
    if s != [] {
      GroupOfFiltered(s[1..], p, key, k, q);
      var rest := Filter(s[1..], p);
      if p(s[0]) { assert ([s[0]] + rest)[1..] == rest; } else { assert [] + rest == rest; }
    }
  }

  lemma {:induction false} GroupIsFilter<T, K>(s: seq<T>, key: T -> K, k: K, q: T -> bool)
    requires forall x :: x in s ==> (q(x) <==> key(x) == k)
    ensures Group(s, key, k) == Filter(s, q)
  {
    if s != [] { GroupIsFilter(s[1..], key, k, q); }
  }

  const OrderDay: OrderRow -> DayKey := (o: OrderRow) => (ToDate(o.createdAt), o.currency.Or("USD"))

  /** The group of a day is the orders of that day. */
  lemma DayGroup(orders: seq<OrderRow>, items: seq<ItemRow>, k: DayKey)
    ensures Group(Map(RevenueOrders(orders), EnrichOrder(items)), EnrichedKey, k) == Map(Filter(orders, EarningOn(k.0, k.1)), EnrichOrder(items))
  {
    GroupOfMap(RevenueOrders(orders), EnrichOrder(items), EnrichedKey, OrderDay, k);
    forall o | o in orders ensures EarningOn(k.0, k.1)(o) <==> IsRevenueOrder(o) && OrderDay(o) == k { DateIsDay(o, k.0); }
    GroupOfFiltered(orders, IsRevenueOrder, OrderDay, k, EarningOn(k.0, k.1));
  }

  lemma CustomerGroup(orders: seq<OrderRow>, c: int)
    ensures Group(RevenueOrders(orders), OrderCustomer, Some(c)) == Filter(orders, EarningOf(c))
  {
    GroupOfFiltered(orders, IsRevenueOrder, OrderCustomer, Some(c), EarningOf(c));
  }

  // ---- gold.daily_revenue ---------------------------------------------------------------------

  function DayRow(orders: seq<OrderRow>, items: seq<ItemRow>, k: DayKey): DailyRow {
    DayOf(k, Map(Filter(orders, EarningOn(k.0, k.1)), EnrichOrder(items))).(newCustomers := NewOn(NewCustomersPerDate(RevenueOrders(orders)), k.0))
  }

  lemma RowIsDayRow(orders: seq<OrderRow>, items: seq<ItemRow>, d: DailyRow)
    requires d in DailyRevenue(orders, items)
    ensures d == DayRow(orders, items, (d.reportDate, d.currency))
    ensures Filter(orders, EarningOn(d.reportDate, d.currency)) != []
  {
    DailyRowsAre(orders, items);
    var rows := Map(RevenueOrders(orders), EnrichOrder(items));
    var i := MapMember(Keys(rows, EnrichedKey), DailyRowOf(rows, NewCustomersPerDate(RevenueOrders(orders))), d);
    var k := Keys(rows, EnrichedKey)[i];
    assert k == (d.reportDate, d.currency);
    DayGroup(orders, items, k);
    KeyHasGroup(rows, k);
  }

  lemma KeyHasGroup(rows: seq<Enriched>, k: DayKey)
    requires k in Keys(rows, EnrichedKey)
    ensures Group(rows, EnrichedKey, k) != []
  {
    var e :| e in rows && EnrichedKey(e) == k;
    assert e in Group(rows, EnrichedKey, k);
  }

  function ItemsIn(items: seq<ItemRow>): OrderRow -> int { (o: OrderRow) => |Filter(items, ItemOf(o.orderId))| }

  lemma ItemsOfDay(mine: seq<OrderRow>, items: seq<ItemRow>)
    ensures SumSql(Map(mine, EnrichOrder(items)), EnrichedItems).Or(0) == Sum(mine, ItemsIn(items))
  {
    SumSqlOrZero(Map(mine, EnrichOrder(items)));
    forall o | o in mine ensures ItemsIn(items)(o) == ItemsOrZero(EnrichOrder(items)(o)) {
      GroupIsFilter(items, ItemOrder, Some(o.orderId), ItemOf(o.orderId));
    }
    SumMap(mine, EnrichOrder(items), ItemsOrZero, ItemsIn(items));
  }

  /** A daily row counts the revenue orders created on its date in its currency, at least
      one, and their items. */
  lemma DailyRowCounts(orders: seq<OrderRow>, items: seq<ItemRow>, d: DailyRow)
    requires d in DailyRevenue(orders, items)
    ensures var mine := Filter(orders, EarningOn(d.reportDate, d.currency));
      d.orderCount == |mine| > 0 && d.itemCount == Sum(mine, ItemsIn(items))
  {
    RowIsDayRow(orders, items, d);
    ItemsOfDay(Filter(orders, EarningOn(d.reportDate, d.currency)), items);
  }

  /** What is booked for an order: the sum of its lines, or its total if it has none. */
  ghost predicate Books(items: seq<ItemRow>, o: OrderRow, amount: int) {
    var lines := Filter(items, ItemOf(o.orderId));
    && -1_000_000_000_000_000_000 < amount < 1_000_000_000_000_000_000
    && (lines == [] ==> o.total == Some(amount))
    && (lines != [] ==> (forall i :: i in lines ==> i.lineTotal.Some?) && amount == Sum(lines, LineValue))
  }

  lemma BookedRevenue(items: seq<ItemRow>, o: OrderRow, amount: int)
    requires Books(items, o, amount)
    ensures LineRevenue(items, o) == Some(amount)
  {
    GroupIsFilter(items, ItemOrder, Some(o.orderId), ItemOf(o.orderId));
    var lines := Filter(items, ItemOf(o.orderId));
    if lines != [] { SumSqlIsSum(lines, ItemTotal, LineValue); }
  }

  /** The cents `avg` are the mean of `sum` over `count`, to the nearest. */
  predicate IsMean(avg: int, sum: int, count: int) { -count <= 2 * (avg * count) - 2 * sum <= count }

  lemma SparkMean(sum: int, count: int)
    requires Fits(sum) && 0 < count < SPARK_GRID
    ensures SparkAvg(Some(sum), count).Some? && IsMean(SparkAvg(Some(sum), count).value, sum, count)
  {
    WithinHalfACent(sum, count, SPARK_GRID);
    DoubleRoundingIsHarmless(sum, count, SPARK_GRID);
    AverageFits(sum, count);
  }

  lemma RevenueOfDay(mine: seq<OrderRow>, items: seq<ItemRow>, amount: OrderRow -> int)
    requires mine != [] && forall o :: o in mine ==> Books(items, o, amount(o))
    ensures SumSql(Map(mine, EnrichOrder(items)), EnrichedRevenue) == Some(Sum(mine, amount))
  {
    forall o | o in mine ensures EnrichedRevenue(EnrichOrder(items)(o)) == Some(amount(o)) { BookedRevenue(items, o, amount(o)); }
    SumSqlOfMap(mine, EnrichOrder(items), EnrichedRevenue, (o: OrderRow) => Some(amount(o)));
    SumSqlIsSum(mine, (o: OrderRow) => Some(amount(o)), amount);
  }

  lemma DayMoney(k: DayKey, g: seq<Enriched>, sum: int)
    requires SumSql(g, EnrichedRevenue) == Some(sum) && Fits(sum) && g != []
    ensures DayOf(k, g).gross == Some(sum) && DayOf(k, g).net == Some(sum)
    ensures |g| < SPARK_GRID ==> DayOf(k, g).avgOrderValue.Some? && IsMean(DayOf(k, g).avgOrderValue.value, sum, |g|)
  {
    if |g| < SPARK_GRID { SparkMean(sum, |g|); }
  }

  /** Its revenue is what is booked for those orders, and the average the mean of that. */
  lemma DailyRowRevenue(orders: seq<OrderRow>, items: seq<ItemRow>, d: DailyRow, amount: OrderRow -> int)
    requires d in DailyRevenue(orders, items)
    requires forall o :: o in Filter(orders, EarningOn(d.reportDate, d.currency)) ==> Books(items, o, amount(o))
    requires -1_000_000_000_000_000_000 < Sum(Filter(orders, EarningOn(d.reportDate, d.currency)), amount) < 1_000_000_000_000_000_000
    ensures var mine := Filter(orders, EarningOn(d.reportDate, d.currency));
      && d.gross == Some(Sum(mine, amount)) && d.net == Some(Sum(mine, amount))
      && (|mine| < 10_000_000_000 ==> d.avgOrderValue.Some? && IsMean(d.avgOrderValue.value, Sum(mine, amount), |mine|))
  {
    RowIsDayRow(orders, items, d);
    var mine := Filter(orders, EarningOn(d.reportDate, d.currency));
    RevenueOfDay(mine, items, amount);
    DayMoney((d.reportDate, d.currency), Map(mine, EnrichOrder(items)), Sum(mine, amount));
  }

  lemma KeyOfRow(rows: seq<Enriched>, news: seq<NewCustomers>, e: Enriched) returns (i: nat)
    requires e in rows
    ensures i < |Keys(rows, EnrichedKey)|
    ensures var d := DailyRowOf(rows, news)(Keys(rows, EnrichedKey)[i]); d.reportDate == e.reportDate && d.currency == e.currency
  {
    var ks := Keys(rows, EnrichedKey);
    assert EnrichedKey(e) in ks;
    i :| 0 <= i < |ks| && ks[i] == EnrichedKey(e);
  }

  /** Every revenue order has the row of its date and currency. */
  lemma EveryOrderHasItsDay(orders: seq<OrderRow>, items: seq<ItemRow>, o: OrderRow) returns (d: DailyRow)
    requires o in orders && Earning(o)
    ensures d in DailyRevenue(orders, items) && EarningOn(d.reportDate, d.currency)(o)
  {
    DailyRowsAre(orders, items);
    var revenue := RevenueOrders(orders);
    RowOfOrder(revenue, items, o);
    var rows, news := Map(revenue, EnrichOrder(items)), NewCustomersPerDate(revenue);
    var i := KeyOfRow(rows, news, EnrichOrder(items)(o));
    d := DailyRowOf(rows, news)(Keys(rows, EnrichedKey)[i]);
    MapAt(Keys(rows, EnrichedKey), DailyRowOf(rows, news), i);
    DayOfOrder(o, items, d);
  }

  lemma DayOfOrder(o: OrderRow, items: seq<ItemRow>, d: DailyRow)
    requires Earning(o) && d.reportDate == EnrichOrder(items)(o).reportDate && d.currency == EnrichOrder(items)(o).currency
    ensures EarningOn(d.reportDate, d.currency)(o)
  {
    DateIsDay(o, d.reportDate);
  }

  lemma RowOfOrder(revenue: seq<OrderRow>, items: seq<ItemRow>, o: OrderRow)
    requires o in revenue
    ensures EnrichOrder(items)(o) in Map(revenue, EnrichOrder(items))
  {
    var j :| 0 <= j < |revenue| && revenue[j] == o;
    MapAt(revenue, EnrichOrder(items), j);
  }

  // ---- new customers -----------------------------------------------------------------------------

  ghost predicate BoughtBefore(orders: seq<OrderRow>, customer: int, day: int) {
    exists o :: o in orders && Earning(o) && o.customerId == customer && o.createdAt.Some? && o.createdAt.value < 86_400_000 * day
  }

  /** The customers with a revenue order created on that day and none before it. */
  ghost function NewBuyers(orders: seq<OrderRow>, day: int): set<int> {
    set o | o in orders && Earning(o) && OnDay(o, Some(day)) && !BoughtBefore(orders, o.customerId, day) :: o.customerId
  }

  ghost function Images<T, K>(s: seq<T>, key: T -> K): set<K> { set x | x in s :: key(x) }

  ghost function Present(s: set<int>): set<Option<int>> { set c | c in s :: Some(c) }

  lemma {:induction false} SizeIsSet<T, K>(s: seq<T>, key: T -> K)
    requires DistinctBy(s, key)
    ensures |Images(s, key)| == |s|
  {
    if s != [] {
      SizeIsSet(s[1..], key);
      var rest := Images(s[1..], key);
      forall x | x in s[1..] ensures key(x) != key(s[0]) {
        var i :| 0 <= i < |s| - 1 && s[1..][i] == x;
        assert s[i + 1] == x;
      }
      assert Images(s, key) == {key(s[0])} + rest;
    }
  }

  lemma {:induction false} GroupKeepsDistinct<T, K, L>(s: seq<T>, key: T -> K, k: K, id: T -> L)
    requires DistinctBy(s, id)
    ensures DistinctBy(Group(s, key, k), id)
  {
    if s != [] {
      GroupKeepsDistinct(s[1..], key, k, id);
      var rest := Group(s[1..], key, k);
      forall x | x in rest ensures id(x) != id(s[0]) {
        var i :| 0 <= i < |s| - 1 && s[1..][i] == x;
        assert s[i + 1] == x;
      }
    }
  }

  const FirstBuyer: FirstOrder -> Option<int> := (f: FirstOrder) => f.customerId

  /** A customer's first date is the day exactly if the customer is new on it. */
  lemma FirstOnDay(orders: seq<OrderRow>, c: int, day: int)
    ensures MinSql(Filter(orders, EarningOf(c)), OrderDate) == Some(day) <==> c in NewBuyers(orders, day)
  {
    var mine := Filter(orders, EarningOf(c));
    MinIsAtMostMax(mine, OrderDate);
    forall o | o in mine ensures OrderDate(o) == Some(day) <==> OnDay(o, Some(day)) { DateIsDay(o, Some(day)); }
    if MinSql(mine, OrderDate) == Some(day) {
      var o :| o in mine && OrderDate(o) == Some(day);
      assert !BoughtBefore(orders, c, day);
    }
    if c in NewBuyers(orders, day) {
      var o :| o in orders && Earning(o) && OnDay(o, Some(day)) && !BoughtBefore(orders, o.customerId, day) && o.customerId == c;
      assert o in mine;
      var x :| x in mine && OrderDate(x) == MinSql(mine, OrderDate);
      assert x in orders && x.createdAt.Some?;
    }
  }

  lemma FirstsOnDay(orders: seq<OrderRow>, day: int)
    ensures var firsts := Group(FirstOrders(RevenueOrders(orders)), FirstDate, Some(day));
      Images(firsts, FirstBuyer) == Present(NewBuyers(orders, day))
  {
    var revenue := RevenueOrders(orders);
    var ks, all := Keys(revenue, OrderCustomer), FirstOrders(revenue);
    var firsts := Group(all, FirstDate, Some(day));
    forall f | f in firsts ensures FirstBuyer(f).Some? && FirstBuyer(f).value in NewBuyers(orders, day) {
      var i :| 0 <= i < |all| && all[i] == f;
      assert ks[i] in ks;
      var c := ks[i].value;
      CustomerGroup(orders, c);
      FirstOnDay(orders, c, day);
    }
    forall c | c in NewBuyers(orders, day) ensures exists f :: f in firsts && FirstBuyer(f) == Some(c) {
      FirstOnDay(orders, c, day);
      CustomerGroup(orders, c);
      var o :| o in orders && Earning(o) && o.customerId == c;
      assert o in revenue && OrderCustomer(o) in ks;
      var i :| 0 <= i < |ks| && ks[i] == Some(c);
      assert all[i] in all && all[i] in firsts;
    }
  }

  lemma {:induction false} SomeKeepsSize(s: set<int>)
    ensures |Present(s)| == |s|
  {
    if s != {} {
      var x := Pick(s);
      SomeKeepsSize(s - {x});
      assert Present(s) == Present(s - {x}) + {Some(x)};
    }
  }

  lemma NewOnDay(orders: seq<OrderRow>, day: int)
    ensures NewOn(NewCustomersPerDate(RevenueOrders(orders)), Some(day)) == |NewBuyers(orders, day)|
  {
    var firsts := Group(FirstOrders(RevenueOrders(orders)), FirstDate, Some(day));
    NewOnIsGroupSize(FirstOrders(RevenueOrders(orders)), Some(day));
    CountIsSum(firsts);
    FirstsAreDistinct(RevenueOrders(orders), day);
    FirstsOnDay(orders, day);
    SameSize(firsts, NewBuyers(orders, day));
  }

  lemma SameSize(firsts: seq<FirstOrder>, buyers: set<int>)
    requires DistinctBy(firsts, FirstBuyer)
    requires Images(firsts, FirstBuyer) == Present(buyers)
    ensures |firsts| == |buyers|
  {
    SizeIsSet(firsts, FirstBuyer);
    SomeKeepsSize(buyers);
  }

  lemma FirstsAreDistinct(revenue: seq<OrderRow>, day: int)
    ensures DistinctBy(Group(FirstOrders(revenue), FirstDate, Some(day)), FirstBuyer)
  {
    AggregatedKeysDistinct(Keys(revenue, OrderCustomer), FirstOrderOf(revenue), FirstBuyer);
    GroupKeepsDistinct(FirstOrders(revenue), FirstDate, Some(day), FirstBuyer);
  }

  /** New customers of a row: those with a revenue order on its date and none before; a row
      without a date has none. */
  lemma DailyRowNewCustomers(orders: seq<OrderRow>, items: seq<ItemRow>, d: DailyRow)
    requires d in DailyRevenue(orders, items)
    ensures d.newCustomers == if d.reportDate.None? then 0 else |NewBuyers(orders, d.reportDate.value)|
  {
    RowIsDayRow(orders, items, d);
    if d.reportDate.Some? { NewOnDay(orders, d.reportDate.value); }
  }

  // ---- gold.customer_metrics -----------------------------------------------------------------------

  /** The day of the earliest order that has a date. */
  ghost predicate IsFirstDay(mine: seq<OrderRow>, day: Option<int>) {
    match day
    case None => forall o :: o in mine ==> o.createdAt.None?
    case Some(d) =>
      && (exists o :: o in mine && OnDay(o, day))
      && forall o :: o in mine && o.createdAt.Some? ==> 86_400_000 * d <= o.createdAt.value
  }

  ghost predicate IsLastDay(mine: seq<OrderRow>, day: Option<int>) {
    match day
    case None => forall o :: o in mine ==> o.createdAt.None?
    case Some(d) =>
      && (exists o :: o in mine && OnDay(o, day))
      && forall o :: o in mine && o.createdAt.Some? ==> o.createdAt.value < 86_400_000 * (d + 1)
  }

  lemma FirstAndLastDay(mine: seq<OrderRow>)
    ensures IsFirstDay(mine, MinSql(mine, OrderDate)) && IsLastDay(mine, MaxSql(mine, OrderDate))
  {
    MinIsAtMostMax(mine, OrderDate);
    var first, last := MinSql(mine, OrderDate), MaxSql(mine, OrderDate);
    forall o | o in mine ensures (OrderDate(o) == first <==> OnDay(o, first)) && (OrderDate(o) == last <==> OnDay(o, last)) {
      DateIsDay(o, first);
      DateIsDay(o, last);
    }
  }

  lemma RowIsMetricsOf(orders: seq<OrderRow>, customers: seq<CustomerRow>, today: int, m: MetricsRow) returns (c: CustomerRow)
    requires m in CustomerMetrics(orders, customers, today)
    ensures c in customers && c.op.Some? && m.customerId == c.customerId && m == MetricsOf(orders, today)(c)
  {
    MetricsRowsAre(orders, customers, today);
    var i := MapMember(Filter(customers, IsUpserted), MetricsOf(orders, today), m);
    c := Filter(customers, IsUpserted)[i];
    assert c in Filter(customers, IsUpserted);
  }

  /** A metrics row counts its customer's revenue orders, gives their first and last day, the
      days from the last to today, and churn after more than 90. */
  lemma MetricsRowDates(orders: seq<OrderRow>, customers: seq<CustomerRow>, today: int, m: MetricsRow)
    requires m in CustomerMetrics(orders, customers, today)
    ensures var mine := Filter(orders, EarningOf(m.customerId));
      && m.totalOrders == |mine|
      && IsFirstDay(mine, m.firstOrderDate) && IsLastDay(mine, m.lastOrderDate)
      && m.daysSinceLastOrder == (if m.lastOrderDate.None? then None else Some(today - m.lastOrderDate.value))
      && (m.isChurned <==> m.lastOrderDate.Some? && today - m.lastOrderDate.value > 90)
  {
    var c := RowIsMetricsOf(orders, customers, today, m);
    CustomerGroup(orders, m.customerId);
    StatsDates(c, Filter(orders, EarningOf(m.customerId)), today);
  }

  lemma StatsDates(c: CustomerRow, g: seq<OrderRow>, today: int)
    ensures var m := ToMetrics((c, if g == [] then None else Some(StatsOf(Some(c.customerId), g, today))));
      && m.totalOrders == |g|
      && IsFirstDay(g, m.firstOrderDate) && IsLastDay(g, m.lastOrderDate)
      && m.daysSinceLastOrder == (if m.lastOrderDate.None? then None else Some(today - m.lastOrderDate.value))
      && (m.isChurned <==> m.lastOrderDate.Some? && today - m.lastOrderDate.value > 90)
  {
    FirstAndLastDay(g);
  }

  lemma StatsMoney(c: CustomerRow, g: seq<OrderRow>, today: int, sum: int)
    requires SumSql(g, OrderTotal) == (if g == [] then None else Some(sum)) && Fits(sum) && (g == [] ==> sum == 0)
    ensures var m := ToMetrics((c, if g == [] then None else Some(StatsOf(Some(c.customerId), g, today))));
      m.totalRevenue == sum && (|g| < SPARK_GRID ==> IsMean(m.avgOrderValue, sum, |g|))
  {
    if 0 < |g| < SPARK_GRID { SparkMean(sum, |g|); }
  }

  /** Its revenue is the sum of their totals, and the average the mean of that. */
  lemma MetricsRowRevenue(orders: seq<OrderRow>, customers: seq<CustomerRow>, today: int, m: MetricsRow, total: OrderRow -> int)
    requires m in CustomerMetrics(orders, customers, today)
    requires forall o :: o in Filter(orders, EarningOf(m.customerId)) ==> o.total == Some(total(o))
    requires -1_000_000_000_000_000_000 < Sum(Filter(orders, EarningOf(m.customerId)), total) < 1_000_000_000_000_000_000
    ensures var mine := Filter(orders, EarningOf(m.customerId));
      && m.totalRevenue == Sum(mine, total)
      && (|mine| < 10_000_000_000 ==> IsMean(m.avgOrderValue, Sum(mine, total), |mine|))
  {
    var c := RowIsMetricsOf(orders, customers, today, m);
    CustomerGroup(orders, m.customerId);
    var mine := Filter(orders, EarningOf(m.customerId));
    SumSqlIsSum(mine, OrderTotal, total);
    StatsMoney(c, mine, today, Sum(mine, total));
  }
}
