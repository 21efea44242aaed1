/** The traffic generator as it runs: SQL statements against mutable tables, one
    transaction per action, proved against `Source.Step` and `Source.Run`. */
module SourceTables {
  import opened Options
  import opened Aggregates
  import opened Cdc
  import opened Source
  import opened SourceRuns

  class SourceDb {
    var customers: map<int, Customer>
    var orders: map<int, Order>
    var items: map<int, Item>
    var nextCustomer: int
    var nextOrder: int
    var nextItem: int
    var customerLog: seq<Event<Customer>>
    var orderLog: seq<Event<Order>>
    var itemLog: seq<Event<Item>>

    ghost function State(): Db
      reads this
    {
      Db(customers, orders, items, nextCustomer, nextOrder, nextItem, customerLog, orderLog, itemLog)
    }

    constructor (now: int)
      ensures State() == Seed(now)
    {
      var s := Seed(now);
      customers, orders, items := s.customers, s.orders, s.items;
      nextCustomer, nextOrder, nextItem := s.nextCustomer, s.nextOrder, s.nextItem;
      customerLog, orderLog, itemLog := s.customerLog, s.orderLog, s.itemLog;
    }

    method CreateCustomer(name: string, email: string, now: int) returns (id: int)
      modifies this
      ensures State() == Step(old(State()), Action.CreateCustomer(name, email, now))
      ensures id == old(nextCustomer)
    {
      id := nextCustomer;
      var row := Customer(name, email, now, now);
      customers := customers[id := row];
      customerLog := customerLog + [Upsert(Create, id, None, row)];
      nextCustomer := id + 1;
    }

    method InsertOrderRow(row: Order) returns (id: int)
      modifies this
      ensures State() == InsertOrder(old(State()), row) && id == old(nextOrder)
    {
      id := nextOrder;
      orders := orders[id := row];
      orderLog := orderLog + [Upsert(Create, id, None, row)];
      nextOrder := id + 1;
    }

    method InsertItemRow(row: Item)
      modifies this
      ensures State() == InsertItem(old(State()), row)
    {
      items := items[nextItem := row];
      itemLog := itemLog + [Upsert(Create, nextItem, None, row)];
      nextItem := nextItem + 1;
    }

    method UpdateOrderRow(id: int, row: Order)
      requires id in orders
      modifies this
      ensures State() == UpdateOrder(old(State()), id, row)
    {
      orderLog := orderLog + [Upsert(Update, id, Some(orders[id]), row)];
      orders := orders[id := row];
    }

    method CreateOrder(customer: int, name: string, email: string, lines: seq<Line>, now: int)
      requires Enabled(State(), Action.CreateOrder(customer, name, email, lines, now))
      modifies this
      ensures State() == Step(old(State()), Action.CreateOrder(customer, name, email, lines, now))
    {
      var buyer := customer;
      if customers == map[] {
        buyer := CreateCustomer(name, email, now);
      }
      ghost var before := State();
      var id := InsertOrderRow(Order(buyer, Pending, 0, now, now));
      var total := 0;
      for k := 0 to |lines|
        invariant State() == InsertLines(InsertOrder(before, Order(buyer, Pending, 0, now, now)), id, lines[..k], now)
        invariant total == LinesTotal(lines[..k])
      {
        assert lines[k] in lines && lines[..k + 1][..k] == lines[..k];
        var price := PRODUCTS[lines[k].productId];
        InsertItemRow(Item(id, lines[k].productId, lines[k].quantity, price, now));
        total := total + lines[k].quantity * price;
      }
      assert lines[..|lines|] == lines;
      UpdateOrderRow(id, orders[id].(total := total, updatedAt := now));
    }

    method ProgressOrder(order: Option<int>, next: Status, now: int)
      requires Enabled(State(), Action.ProgressOrder(order, next, now))
      modifies this
      ensures State() == Step(old(State()), Action.ProgressOrder(order, next, now))
    {
      if order.None? { return; }
      var row := orders[order.value];
      if Successors(row.status) == {} { return; }
      UpdateOrderRow(order.value, row.(status := next, updatedAt := now));
    }

    method UpdateItemQuantity(item: Option<int>, quantity: int, now: int)
      requires Enabled(State(), Action.UpdateItemQuantity(item, quantity, now))
      modifies this
      ensures State() == Step(old(State()), Action.UpdateItemQuantity(item, quantity, now))
    {
      if item.None? { return; }
      var row := items[item.value].(quantity := quantity);
      itemLog := itemLog + [Upsert(Update, item.value, Some(items[item.value]), row)];
      items := items[item.value := row];
      var total := SumOfLines(items, row.orderId);
      UpdateOrderRow(row.orderId, orders[row.orderId].(total := total, updatedAt := now));
    }

    method Reread(a: Action)
      requires Enabled(State(), a) && (a.RereadCustomer? || a.RereadOrder? || a.RereadItem?)
      modifies this
      ensures State() == Step(old(State()), a)
    {
      match a
      case RereadCustomer(id) => customerLog := customerLog + [Upsert(Read, id, None, customers[id])];
      case RereadOrder(id) => orderLog := orderLog + [Upsert(Read, id, None, orders[id])];
      case RereadItem(id) => itemLog := itemLog + [Upsert(Read, id, None, items[id])];
    }

    method Perform(a: Action)
      requires Enabled(State(), a)
      modifies this
      ensures State() == Step(old(State()), a)
    {
      match a
      case CreateCustomer(name, email, now) => var _ := CreateCustomer(name, email, now);
      case CreateOrder(customer, name, email, lines, now) => CreateOrder(customer, name, email, lines, now);
      case ProgressOrder(order, next, now) => ProgressOrder(order, next, now);
      case UpdateItemQuantity(item, quantity, now) => UpdateItemQuantity(item, quantity, now);
      case _ => Reread(a);
    }

    /** The commit loop. */
    method RunActions(acts: seq<Action>) returns (count: nat)
      requires ValidRun(State(), acts)
      modifies this
      ensures State() == Run(old(State()), acts)
      ensures count == |acts|
    {
      count := 0;
      PrefixIsValid(State(), acts, 0);
      while count < |acts|
        invariant count <= |acts|
        invariant ValidRun(old(State()), acts[..count]) && State() == Run(old(State()), acts[..count])
      {
        PrefixIsValid(old(State()), acts, count + 1);
        assert acts[..count + 1][..count] == acts[..count];
        Perform(acts[count]);
        count := count + 1;
      }
      assert acts[..count] == acts;
    }
  }

  /** `SELECT SUM(quantity * unit_price) FROM order_items WHERE order_id = o`. */
  method SumOfLines(items: map<int, Item>, o: int) returns (total: int)
    ensures total == OrderSum(items, o)
  {
    total := 0;
    var ids := items.Keys;
    ghost var rest := items;
    while ids != {}
      invariant rest.Keys == ids && ids <= items.Keys
      invariant forall k :: k in ids ==> rest[k] == items[k]
      invariant total + OrderSum(rest, o) == OrderSum(items, o)
      decreases ids
    {
      ghost var some := Pick(ids);
      var k :| k in ids;
      MapSumRemove(rest, LineOf(o), k);
      if items[k].orderId == o {
        total := total + items[k].quantity * items[k].unitPrice;
      }
      ids, rest := ids - {k}, rest - {k};
    }
    NoItems(rest, o);
  }
}
