/** What each action of the generator leaves in the tables, row by row. */
module SourceRows {
  import opened Options
  import opened Aggregates
  import opened Source

  /** The catalogue price of a line times its quantity. */
  const Amount: Line -> int := (l: Line) => if l.productId in PRODUCTS then l.quantity * PRODUCTS[l.productId] else 0

  lemma {:induction false} LinesTotalIsSum(lines: seq<Line>)
    requires forall l :: l in lines ==> l.productId in PRODUCTS
    ensures LinesTotal(lines) == Sum(lines, Amount)
  {
    if lines != [] {
      var n := |lines| - 1;
      LinesTotalIsSum(lines[..n]);
      assert lines == lines[..n] + [lines[n]] && lines[n] in lines;
      SumAppend(lines[..n], [lines[n]], Amount);
    }
  }

  /** The items with these ids are the lines, in order, and no other item was touched. */
  ghost predicate LinesInserted(before: map<int, Item>, after: map<int, Item>, first: int, order: int, lines: seq<Line>, now: int) {
    && (forall k :: 0 <= k < |lines| ==> HoldsLine(after, first + k, order, lines[k], now))
    && (forall i :: i in after ==> i in before || first <= i < first + |lines|)
    && (forall i :: i in before ==> i in after && after[i] == before[i])
  }

  predicate HoldsLine(items: map<int, Item>, id: int, order: int, l: Line, now: int) {
    id in items && l.productId in PRODUCTS && items[id] == Item(order, l.productId, l.quantity, PRODUCTS[l.productId], now)
  }

  lemma {:induction false} InsertedLines(s: Db, order: int, lines: seq<Line>, now: int)
    requires forall l :: l in lines ==> l.productId in PRODUCTS
    requires forall i :: i in s.items ==> i < s.nextItem
    ensures var t := InsertLines(s, order, lines, now);
      t.nextItem == s.nextItem + |lines| && LinesInserted(s.items, t.items, s.nextItem, order, lines, now)
  {
    if lines != [] {
      var n := |lines| - 1;
      InsertedLines(s, order, lines[..n], now);
      assert lines[n] in lines;
      var mid, t := InsertLines(s, order, lines[..n], now), InsertLines(s, order, lines, now);
      forall k | 0 <= k < |lines| ensures HoldsLine(t.items, s.nextItem + k, order, lines[k], now) {
        if k < n { assert HoldsLine(mid.items, s.nextItem + k, order, lines[..n][k], now); }
      }
    }
  }

  /** A new order is pending, dated now and totals its lines at catalogue prices; its items
      are those lines; no other order or item changes. */
  lemma OrderIsCreated(s: Db, customer: int, name: string, email: string, lines: seq<Line>, now: int)
    requires Consistent(s) && Enabled(s, CreateOrder(customer, name, email, lines, now))
    ensures var t, o := Step(s, CreateOrder(customer, name, email, lines, now)), s.nextOrder;
      var buyer := if s.customers == map[] then s.nextCustomer else customer;
      && o !in s.orders && t.orders == s.orders[o := Order(buyer, Pending, Sum(lines, Amount), now, now)]
      && LinesInserted(s.items, t.items, s.nextItem, o, lines, now)
      && t.customers == if s.customers == map[] then map[s.nextCustomer := Customer(name, email, now, now)] else s.customers
  {
    var (s0, c) := WithCustomer(s, customer, name, email, now);
    LinesTotalIsSum(lines);
    InsertedLines(InsertOrder(s0, Order(c, Pending, 0, now, now)), s0.nextOrder, lines, now);
  }

  /** A progressed order has the drawn status; nothing else changes but its time of update. */
  lemma OrderIsProgressed(s: Db, o: int, next: Status, now: int)
    requires Consistent(s) && Enabled(s, ProgressOrder(Some(o), next, now))
    ensures var t := Step(s, ProgressOrder(Some(o), next, now));
      && o in s.orders && t.orders.Keys == s.orders.Keys && t.items == s.items && t.customers == s.customers
      && (forall k :: k in s.orders && k != o ==> t.orders[k] == s.orders[k])
      && (s.orders[o].status in {Pending, Confirmed, Shipped, Delivered} ==>
            t.orders[o] == Order(s.orders[o].customerId, next, s.orders[o].total, s.orders[o].createdAt, now))
      && (s.orders[o].status !in {Pending, Confirmed, Shipped, Delivered} ==> t == s)
  {
  }

  /** An item has the drawn quantity, its order a total that moved by as much, and nothing
      else changes but that order's time of update. */
  lemma QuantityIsUpdated(s: Db, i: int, quantity: int, now: int)
    requires Consistent(s) && Enabled(s, UpdateItemQuantity(Some(i), quantity, now))
    ensures var t, was := Step(s, UpdateItemQuantity(Some(i), quantity, now)), s.items[i];
      var o := was.orderId;
      && t.items == s.items[i := Item(o, was.productId, quantity, was.unitPrice, was.createdAt)]
      && t.orders.Keys == s.orders.Keys && t.customers == s.customers
      && (forall k :: k in s.orders && k != o ==> t.orders[k] == s.orders[k])
      && t.orders[o] == Order(s.orders[o].customerId, Pending, s.orders[o].total + (quantity - was.quantity) * was.unitPrice, s.orders[o].createdAt, now)
  {
    PutItem(s.items, i, s.items[i].(quantity := quantity), s.items[i].orderId);
  }

  /** A new customer has the drawn name and address. */
  lemma CustomerIsCreated(s: Db, name: string, email: string, now: int)
    requires Consistent(s)
    ensures var t := Step(s, CreateCustomer(name, email, now));
      && s.nextCustomer !in s.customers && t.customers == s.customers[s.nextCustomer := Customer(name, email, now, now)]
      && t.orders == s.orders && t.items == s.items
  {
  }
}
