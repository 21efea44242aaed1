/** What the two Gold tables book for the stored Silver rows, from line items and from
    order totals. */
module Books {
  import opened Options
  import opened Aggregates
  import opened Relational
  import opened Rounding
  import opened Source
  import opened SourceRuns
  import opened Gold
  import opened Tables
  import opened GoldLaws
  import opened Lakehouse
  import opened LakehouseRuns
  import opened Leftovers

  const TotalOf: OrderRow -> int := (o: OrderRow) => o.total.Or(0)
  const ItemId: ItemRow -> int := (r: ItemRow) => r.itemId
  const Undated: ItemRow -> bool := (r: ItemRow) => r.orderCreatedAt.None?

  /** The line totals of an order among these rows. */
  function LineSum(items: seq<ItemRow>): OrderRow -> int {
    (o: OrderRow) => GroupSum(items, ItemOrder, LineValue, Some(o.orderId))
  }

  const MAX_LINE := MAX_QUANTITY * MAX_PRICE
  const MAX_TOTAL := MAX_LINES * MAX_LINE

  // ---- one order ---------------------------------------------------------------------------

  /** No order total exceeds four lines of five of the dearest product. */
  lemma TotalBounds(s: Db, o: int)
    requires Consistent(s) && o in s.orders
    ensures 1 <= s.orders[o].total <= MAX_TOTAL
  {
    forall i | i in s.items
      ensures 1 * OneOf(o)(s.items[i]) <= LineOf(o)(s.items[i]) <= (MAX_QUANTITY * MAX_PRICE) * OneOf(o)(s.items[i])
    {
      LineBounds(s.items[i].quantity, s.items[i].unitPrice);
    }
    MapSumScaled(s.items, LineOf(o), OneOf(o), 1, MAX_QUANTITY * MAX_PRICE);
    MapSumScaled(s.items, OneOf(o), OneOf(o), 0, 1);
  }

  lemma RevenueOrderRow(rows: seq<OrderRow>, s: Db, o: OrderRow)
    requires Consistent(s) && Mirrors(rows, OrderKey, OrderImage, s.orders) && o in RevenueOrders(rows)
    ensures o.orderId in s.orders && IsRevenue(s.orders[o.orderId].status)
    ensures o.total == Some(s.orders[o.orderId].total) && 1 <= TotalOf(o) <= MAX_TOTAL
    ensures o.customerId == s.orders[o.orderId].customerId
  {
    assert IsImage(o, OrderKey, OrderImage, s.orders);
    TotalBounds(s, o.orderId);
  }

  /** The lines Silver computes for an order add up to the source's sum at the items' cut. */
  lemma OutputLines(out: seq<ItemRow>, s: Db, t: Db, o: int)
    requires Consistent(t) && Mirrors(out, ItemKey, DatedItem(s.orders), t.items)
    ensures GroupSum(out, ItemOrder, LineValue, Some(o)) == OrderSum(t.items, o)
  {
    var g := (r: ItemRow) => if r.orderId == o then LineValue(r) else 0;
    GroupSumIsFilteredSum(out, ItemOrder, LineValue, Some(o), g);
    forall r | r in out ensures r.itemId in t.items && g(r) == LineOf(o)(t.items[r.itemId]) {
      OutputCarried(out, s, t, r);
    }
    forall k | k in t.items ensures exists r :: r in out && ItemId(r) == k {
      assert HasKey(out, ItemKey, k);
      var r :| r in out && ItemKey(r) == Some(k);
      assert ItemId(r) == k;
    }
    assert DistinctBy(out, ItemId) by {
      forall i, j | 0 <= i < j < |out| ensures ItemId(out[i]) != ItemId(out[j]) { assert ItemKey(out[i]) != ItemKey(out[j]); }
    }
    RowsSum(out, ItemId, g, t.items, LineOf(o));
  }

  lemma OutputLinesBounded(out: seq<ItemRow>, s: Db, t: Db, o: int)
    requires Consistent(t) && Mirrors(out, ItemKey, DatedItem(s.orders), t.items)
    ensures 0 <= GroupSum(out, ItemOrder, LineValue, Some(o)) <= MAX_TOTAL
  {
    OutputLines(out, s, t, o);
    if o in t.orders { TotalBounds(t, o); } else { NoItems(t.items, o); }
  }

  /** An order that earns revenue is frozen: its lines at a later cut still add up to
      its total at the earlier one. */
  lemma FrozenLines(s: Db, t: Db, o: int)
    requires Consistent(s) && Consistent(t) && Grows(s, t)
    requires o in s.orders && IsRevenue(s.orders[o].status)
    ensures OrderSum(t.items, o) == s.orders[o].total
  {
    assert OrderGrows(s, t, o) && Frozen(s, t, o);
  }

  /** The current lines of a revenue order add up to its total, at skewed cuts too. */
  lemma LinesMatchTotal(rows: seq<OrderRow>, out: seq<ItemRow>, s: Db, t: Db, o: OrderRow)
    requires Consistent(s) && Consistent(t) && Grows(s, t)
    requires Mirrors(rows, OrderKey, OrderImage, s.orders) && o in RevenueOrders(rows)
    requires Mirrors(out, ItemKey, DatedItem(s.orders), t.items)
    ensures LineSum(out)(o) == TotalOf(o)
  {
    RevenueOrderRow(rows, s, o);
    OutputLines(out, s, t, o.orderId);
    FrozenLines(s, t, o.orderId);
  }

  // ---- the stored Silver tables ---------------------------------------------------------------

  ghost predicate LinesKnown(items: seq<ItemRow>) {
    forall r :: r in items ==> r.lineTotal.Some? && 1 <= r.lineTotal.value <= MAX_LINE
  }

  /** The stored lines of an order are its total, and its undated ones once more. */
  ghost predicate BooksTotal(items: seq<ItemRow>, o: OrderRow) {
    && o.total == Some(TotalOf(o)) && 1 <= TotalOf(o) <= MAX_TOTAL
    && LineSum(items)(o) == TotalOf(o) + LineSum(Filter(items, Undated))(o)
  }

  /** An order's stored lines are at most one order's worth dated and one undated. */
  ghost predicate LinesBounded(items: seq<ItemRow>, o: int) {
    0 <= GroupSum(items, ItemOrder, LineValue, Some(o)) <= 2 * MAX_TOTAL
  }

  function UndatedSum(items: seq<ItemRow>, o: int): int { GroupSum(Filter(items, Undated), ItemOrder, LineValue, Some(o)) }

  ghost predicate UndatedBounded(items: seq<ItemRow>) { forall o :: UndatedSum(items, o) <= MAX_TOTAL }

  ghost predicate WellBooked(orders: seq<OrderRow>, items: seq<ItemRow>) {
    && LinesKnown(items)
    && (forall o :: o in RevenueOrders(orders) ==> BooksTotal(items, o))
    && (forall o :: LinesBounded(items, o))
  }

  lemma UndatedPart(stale: seq<ItemRow>, out: seq<ItemRow>)
    requires forall r :: r in stale ==> Undated(r)
    ensures Filter(stale + out, Undated) == stale + Filter(out, Undated)
  {
    FilterAppend(stale, out, Undated);
    FilterAll(stale, Undated);
  }

  lemma LineSumAppend(a: seq<ItemRow>, b: seq<ItemRow>, o: int)
    ensures GroupSum(a + b, ItemOrder, LineValue, Some(o))
         == GroupSum(a, ItemOrder, LineValue, Some(o)) + GroupSum(b, ItemOrder, LineValue, Some(o))
  {
    GroupAppend(a, b, ItemOrder, Some(o));
    SumAppend(Group(a, ItemOrder, Some(o)), Group(b, ItemOrder, Some(o)), LineValue);
  }

  lemma OrderIsBooked(orders: seq<OrderRow>, stale: seq<ItemRow>, out: seq<ItemRow>, s: Db, t: Db, o: OrderRow)
    requires Consistent(s) && Consistent(t) && Grows(s, t) && forall r :: r in stale ==> Undated(r)
    requires Mirrors(orders, OrderKey, OrderImage, s.orders) && o in RevenueOrders(orders)
    requires Mirrors(out, ItemKey, DatedItem(s.orders), t.items)
    ensures BooksTotal(stale + out, o)
  {
    RevenueOrderRow(orders, s, o);
    LinesMatchTotal(orders, out, s, t, o);
    LineSumAppend(stale, out, o.orderId);
    UndatedPart(stale, out);
    LineSumAppend(stale, Filter(out, Undated), o.orderId);
    SeenOrderIsDated(out, s, t, o.orderId);
  }

  /** Lines of an order that was seen are dated. */
  lemma SeenOrderIsDated(out: seq<ItemRow>, s: Db, t: Db, o: int)
    requires Consistent(t) && Mirrors(out, ItemKey, DatedItem(s.orders), t.items) && o in s.orders
    ensures GroupSum(Filter(out, Undated), ItemOrder, LineValue, Some(o)) == 0
  {
    forall r | r in Filter(out, Undated) ensures ItemOrder(r) != Some(o) { OutputCarried(out, s, t, r); }
    GroupWithoutKey(Filter(out, Undated), ItemOrder, Some(o));
  }

  lemma OrderIsBounded(stale: seq<ItemRow>, out: seq<ItemRow>, s: Db, t: Db, o: int)
    requires Consistent(t) && LinesKnown(stale) && GroupSum(stale, ItemOrder, LineValue, Some(o)) <= MAX_TOTAL
    requires Mirrors(out, ItemKey, DatedItem(s.orders), t.items)
    ensures LinesBounded(stale + out, o)
  {
    OutputLinesBounded(out, s, t, o);
    LineSumAppend(stale, out, o);
    GroupSumBounded(stale, ItemOrder, LineValue, Some(o));
  }

  lemma TablesAreWellBooked(orders: seq<OrderRow>, stale: seq<ItemRow>, out: seq<ItemRow>, s: Db, t: Db)
    requires Consistent(s) && Consistent(t) && Grows(s, t) && LinesKnown(stale) && forall r :: r in stale ==> Undated(r)
    requires forall o :: GroupSum(stale, ItemOrder, LineValue, Some(o)) <= MAX_TOTAL
    requires Mirrors(orders, OrderKey, OrderImage, s.orders)
    requires Mirrors(out, ItemKey, DatedItem(s.orders), t.items)
    ensures WellBooked(orders, stale + out)
  {
    forall r | r in stale + out ensures r.lineTotal.Some? && 1 <= r.lineTotal.value <= MAX_LINE {
      if r in out { OutputCarried(out, s, t, r); }
    }
    forall o | o in RevenueOrders(orders) ensures BooksTotal(stale + out, o) { OrderIsBooked(orders, stale, out, s, t, o); }
    forall o ensures LinesBounded(stale + out, o) { OrderIsBounded(stale, out, s, t, o); }
  }

  // ---- undated lines never pile up ---------------------------------------------------------------

  /** Part of the rows holds at most part of the lines. */
  lemma PartOfLines(items: seq<ItemRow>, p: ItemRow -> bool, q: ItemRow -> bool, o: int)
    requires LinesKnown(items) && forall r :: r in items && p(r) ==> q(r)
    ensures GroupSum(Filter(items, p), ItemOrder, LineValue, Some(o)) <= GroupSum(Filter(items, q), ItemOrder, LineValue, Some(o))
  {
    var f := (r: ItemRow) => if p(r) && ItemOrder(r) == Some(o) then LineValue(r) else 0;
    var g := (r: ItemRow) => if q(r) && ItemOrder(r) == Some(o) then LineValue(r) else 0;
    FilteredGroupSum(items, p, ItemOrder, LineValue, Some(o), f);
    FilteredGroupSum(items, q, ItemOrder, LineValue, Some(o), g);
    SumAtMost(items, f, g);
  }

  lemma PartOfUndated(items: seq<ItemRow>, q: ItemRow -> bool, o: int)
    requires LinesKnown(items)
    ensures UndatedSum(Filter(items, q), o) <= UndatedSum(items, o)
  {
    var kept := Filter(items, q);
    var f := (r: ItemRow) => if Undated(r) && ItemOrder(r) == Some(o) then LineValue(r) else 0;
    FilteredGroupSum(kept, Undated, ItemOrder, LineValue, Some(o), f);
    FilteredGroupSum(items, Undated, ItemOrder, LineValue, Some(o), f);
    FilteredSum(items, q, f);
  }

  lemma {:induction false} FilteredSum(items: seq<ItemRow>, q: ItemRow -> bool, f: ItemRow -> int)
    requires forall r :: r in items ==> f(r) >= 0
    ensures Sum(Filter(items, q), f) <= Sum(items, f)
  {
    if items != [] {
      FilteredSum(items[1..], q, f);
      if q(items[0]) { assert Filter(items, q)[1..] == Filter(items[1..], q); } else { assert Filter(items, q) == Filter(items[1..], q); }
    }
  }

  /** A partition is overwritten whole, so an order's undated lines all come from the last
      run that wrote its bucket: the old ones or the new ones, never both. */
  lemma UndatedOver(stored: seq<ItemRow>, out: seq<ItemRow>, l: Layout, o: int)
    requires LinesKnown(stored)
    ensures var kept := Filter(stored, Kept(out, ItemPartition(l)));
      UndatedSum(kept + out, o) <= UndatedSum(stored, o) || UndatedSum(kept + out, o) == UndatedSum(out, o)
  {
    var kept := Filter(stored, Kept(out, ItemPartition(l)));
    FilterAppend(kept, out, Undated);
    LineSumAppend(Filter(kept, Undated), Filter(out, Undated), o);
    if HasNullRow(kept, o) {
      NoNewUndated(stored, out, l, o);
      PartOfUndated(stored, Kept(out, ItemPartition(l)), o);
    } else {
      NoUndated(kept, o);
    }
  }

  lemma NoUndated(items: seq<ItemRow>, o: int)
    requires !HasNullRow(items, o)
    ensures UndatedSum(items, o) == 0
  {
    GroupWithoutKey(Filter(items, Undated), ItemOrder, Some(o));
  }

  lemma NoNewUndated(stored: seq<ItemRow>, out: seq<ItemRow>, l: Layout, o: int)
    requires HasNullRow(Filter(stored, Kept(out, ItemPartition(l))), o)
    ensures UndatedSum(out, o) == 0
  {
    KeptNullRows(stored, out, l, o);
    assert !HasNullRow(out, o);
    NoUndated(out, o);
  }

  lemma OutputUndatedBounded(out: seq<ItemRow>, s: Db, t: Db, o: int)
    requires Consistent(t) && Mirrors(out, ItemKey, DatedItem(s.orders), t.items)
    ensures UndatedSum(out, o) <= MAX_TOTAL
  {
    forall r | r in out ensures r.lineTotal.Some? && 1 <= r.lineTotal.value <= MAX_LINE { OutputCarried(out, s, t, r); }
    PartOfLines(out, Undated, (r: ItemRow) => true, o);
    FilterAll(out, (r: ItemRow) => true);
    OutputLinesBounded(out, s, t, o);
  }

  lemma CustomersAreCovered(orders: seq<OrderRow>, customers: seq<CustomerRow>, s: Db, c: Db)
    requires Consistent(s) && Grows(s, c)
    requires Mirrors(orders, OrderKey, OrderImage, s.orders) && Mirrors(customers, CustomerKey, CustomerImage, c.customers)
    ensures CustomersCover(orders, customers)
  {
    forall x | x in customers ensures IsUpserted(x) { assert IsImage(x, CustomerKey, CustomerImage, c.customers); }
    FilterAll(customers, IsUpserted);
    forall o | o in RevenueOrders(orders) ensures exists x :: x in customers && x.customerId == o.customerId {
      RevenueOrderRow(orders, s, o);
      assert HasKey(customers, CustomerKey, o.customerId);
      var x :| x in customers && CustomerKey(x) == Some(o.customerId);
    }
  }

  // ---- the two Gold tables ---------------------------------------------------------------------

  /** What the revenue orders book together fits DECIMAL(18,2). */
  predicate BooksFit(orders: seq<OrderRow>, items: seq<ItemRow>) {
    Sum(RevenueOrders(orders), LineSum(items)) < DECIMAL_18_2
  }

  lemma {:induction false} TermBound<T>(s: seq<T>, f: T -> int, x: T)
    requires x in s && forall y :: y in s ==> f(y) >= 0
    ensures 0 <= f(x) <= Sum(s, f)
  {
    SumNonNegative(s[1..], f);
    if x != s[0] { TermBound(s[1..], f, x); }
  }

  lemma SumNonNegative<T>(s: seq<T>, f: T -> int)
    requires forall y :: y in s ==> f(y) >= 0
    ensures Sum(s, f) >= 0
  {
  }

  lemma LineSumNonNegative(items: seq<ItemRow>, o: int)
    requires LinesKnown(items)
    ensures GroupSum(items, ItemOrder, LineValue, Some(o)) >= 0
  {
    GroupSumBounded(items, ItemOrder, LineValue, Some(o));
  }

  lemma BookedOrder(orders: seq<OrderRow>, items: seq<ItemRow>, o: OrderRow)
    requires WellBooked(orders, items) && o in RevenueOrders(orders)
    ensures LineSum(items)(o) >= TotalOf(o) >= 1
    ensures 0 <= LineSum(Filter(items, Undated))(o)
  {
    assert BooksTotal(items, o);
    LineSumNonNegative(Filter(items, Undated), o.orderId);
  }

  lemma LineRevenueIsLineSum(orders: seq<OrderRow>, items: seq<ItemRow>, o: OrderRow)
    requires WellBooked(orders, items) && BooksFit(orders, items) && o in RevenueOrders(orders)
    ensures LineRevenue(items, o) == Some(LineSum(items)(o))
  {
    BookedOrder(orders, items, o);
    forall x | x in RevenueOrders(orders) ensures LineSum(items)(x) >= 0 { BookedOrder(orders, items, x); }
    TermBound(RevenueOrders(orders), LineSum(items), o);
    SumSqlIsSum(ItemGroup(items, o), ItemTotal, LineValue);
  }

  /** No row of the daily table is NULL or empty. */
  ghost predicate Earns(days: seq<DailyRow>) {
    forall d :: d in days ==> d.net.Some? && d.net.value >= 1 && d.gross == d.net
  }

  /** The daily table books the stored lines of the revenue orders. */
  lemma DailyBooksLines(orders: seq<OrderRow>, items: seq<ItemRow>)
    requires WellBooked(orders, items) && BooksFit(orders, items)
    ensures Sum(DailyRevenue(orders, items), NetOf) == Sum(RevenueOrders(orders), LineSum(items))
    ensures Earns(DailyRevenue(orders, items))
  {
    forall o | o in RevenueOrders(orders) ensures LineRevenue(items, o) == Some(LineSum(items)(o)) && LineSum(items)(o) >= 1 {
      BookedOrder(orders, items, o);
      LineRevenueIsLineSum(orders, items, o);
    }
    DailyNetTotal(orders, items, LineSum(items));
  }

  /** ... which is their totals plus their undated lines. */
  lemma LinesAreTotalsAndUndated(orders: seq<OrderRow>, items: seq<ItemRow>)
    requires WellBooked(orders, items)
    ensures Sum(RevenueOrders(orders), LineSum(items))
         == Sum(RevenueOrders(orders), TotalOf) + Sum(RevenueOrders(orders), LineSum(Filter(items, Undated)))
    ensures Sum(RevenueOrders(orders), LineSum(Filter(items, Undated))) >= 0
  {
    forall o | o in RevenueOrders(orders)
      ensures LineSum(items)(o) == TotalOf(o) + LineSum(Filter(items, Undated))(o) && LineSum(Filter(items, Undated))(o) >= 0
    {
      assert BooksTotal(items, o);
      BookedOrder(orders, items, o);
    }
    SumPlus(RevenueOrders(orders), TotalOf, LineSum(Filter(items, Undated)), LineSum(items));
    SumNonNegative(RevenueOrders(orders), LineSum(Filter(items, Undated)));
  }

  /** The daily net revenue exceeds the customers' lifetime revenue by exactly the
      undated lines of revenue orders. */
  lemma ExcessIsUndatedLines(orders: seq<OrderRow>, items: seq<ItemRow>, customers: seq<CustomerRow>, today: int)
    requires WellBooked(orders, items) && BooksFit(orders, items) && CustomersCover(orders, customers)
    ensures Sum(DailyRevenue(orders, items), NetOf)
         == Sum(CustomerMetrics(orders, customers, today), TotalRevenueOf) + Sum(RevenueOrders(orders), LineSum(Filter(items, Undated)))
  {
    DailyBooksLines(orders, items);
    LinesAreTotalsAndUndated(orders, items);
    forall o | o in RevenueOrders(orders) ensures o.total == Some(TotalOf(o)) && TotalOf(o) >= 0 { assert BooksTotal(items, o); }
    MetricsTotal(orders, customers, today, TotalOf);
  }

  /** A stored line without a date belongs to a revenue order. */
  ghost predicate UndatedEarns(orders: seq<OrderRow>, items: seq<ItemRow>) {
    exists o :: o in RevenueOrders(orders) && HasNullRow(items, o.orderId)
  }

  lemma UndatedLinesIffEarning(orders: seq<OrderRow>, items: seq<ItemRow>)
    requires LinesKnown(items)
    ensures Sum(RevenueOrders(orders), LineSum(Filter(items, Undated))) >= 0
    ensures Sum(RevenueOrders(orders), LineSum(Filter(items, Undated))) == 0 <==> !UndatedEarns(orders, items)
  {
    var revenue, undated := RevenueOrders(orders), Filter(items, Undated);
    forall o | o in revenue ensures LineSum(undated)(o) >= 0 { LineSumNonNegative(undated, o.orderId); }
    SumNonNegative(revenue, LineSum(undated));
    if UndatedEarns(orders, items) {
      var o :| o in revenue && HasNullRow(items, o.orderId);
      OneUndatedLine(items, o);
      TermBound(revenue, LineSum(undated), o);
    } else {
      forall o | o in revenue ensures LineSum(undated)(o) == 0 {
        assert !HasNullRow(items, o.orderId);
        GroupWithoutKey(undated, ItemOrder, Some(o.orderId));
      }
      SumBounds(revenue, LineSum(undated), 0, 0);
    }
  }

  lemma OneUndatedLine(items: seq<ItemRow>, o: OrderRow)
    requires LinesKnown(items) && HasNullRow(items, o.orderId)
    ensures LineSum(Filter(items, Undated))(o) >= 1
  {
    var r :| r in items && r.orderCreatedAt.None? && r.orderId == o.orderId;
    var g := Group(Filter(items, Undated), ItemOrder, Some(o.orderId));
    assert r in g;
    TermBound(g, LineValue, r);
  }

  // ---- sizes ---------------------------------------------------------------------------------------

  lemma SumUnderCap<T>(s: seq<T>, f: T -> int, cap: int, n: nat)
    requires |s| <= n && cap > 0 && forall x :: x in s ==> 0 <= f(x) <= cap
    ensures 0 <= Sum(s, f) <= n * cap
  {
    SumBounds(s, f, 0, cap);
    MulOrder(|s|, n, cap);
  }

  /** Books of so many orders fit DECIMAL(18,2) whatever they are. */
  lemma SmallBooksFit(orders: seq<OrderRow>, items: seq<ItemRow>, cap: int)
    requires WellBooked(orders, items) && 0 < cap && |orders| * cap < DECIMAL_18_2
    requires forall o :: o in RevenueOrders(orders) ==> LineSum(items)(o) <= cap
    ensures BooksFit(orders, items)
  {
    var revenue := RevenueOrders(orders);
    forall o | o in revenue ensures 0 <= LineSum(items)(o) { assert LinesBounded(items, o.orderId); }
    SumUnderCap(revenue, LineSum(items), cap, |orders|);
  }
}
