/** Revenue and order count per customer: the join that fans out, its COUNT(DISTINCT) patch, and the rewrite that
    aggregates the lines before it joins. */
module RevenueReport {
  datatype Customer = Customer(id: nat, fullName: string)

  datatype Order = Order(id: nat, customerId: nat)

  /** An order line, or a row of `order_totals`: an amount that belongs to an order. */
  datatype Item = Item(orderId: nat, cents: int)

  datatype Tables = Tables(customers: seq<Customer>, orders: seq<Order>, lines: seq<Item>)

  predicate UniqueCustomers(cs: seq<Customer>) {
    forall i, j :: 0 <= i < j < |cs| ==> cs[i].id != cs[j].id
  }

  predicate UniqueOrders(os: seq<Order>) {
    forall i, j :: 0 <= i < j < |os| ==> os[i].id != os[j].id
  }

  /** The primary keys of customers and orders. */
  predicate Valid(t: Tables) {
    UniqueCustomers(t.customers) && UniqueOrders(t.orders)
  }

  // ---- The queries ----

  datatype Joined = Joined(customer: Customer, orderId: nat, cents: int)

  function JoinItems(c: Customer, o: Order, items: seq<Item>): seq<Joined> {
    if items == [] then [] else
      var last := items[|items| - 1];
      JoinItems(c, o, items[..|items| - 1]) + if last.orderId == o.id then [Joined(c, o.id, last.cents)] else []
  }

  function JoinOrders(c: Customer, os: seq<Order>, items: seq<Item>): seq<Joined> {
    if os == [] then [] else
      var last := os[|os| - 1];
      JoinOrders(c, os[..|os| - 1], items) + if last.customerId == c.id then JoinItems(c, last, items) else []
  }

  /** FROM customers JOIN orders JOIN items. */
  function Join(cs: seq<Customer>, os: seq<Order>, items: seq<Item>): seq<Joined> {
    if cs == [] then [] else Join(cs[..|cs| - 1], os, items) + JoinOrders(cs[|cs| - 1], os, items)
  }

  /** GROUP BY customers.id, customers.full_name: the group of a customer's id and name. */
  function CountRows(rows: seq<Joined>, c: Customer): nat {
    if rows == [] then 0 else CountRows(rows[..|rows| - 1], c) + if rows[|rows| - 1].customer == c then 1 else 0
  }

  function SumRows(rows: seq<Joined>, c: Customer): int {
    if rows == [] then 0 else
      SumRows(rows[..|rows| - 1], c) + if rows[|rows| - 1].customer == c then rows[|rows| - 1].cents else 0
  }

  function OrderIds(rows: seq<Joined>, c: Customer): set<nat> {
    set i | 0 <= i < |rows| && rows[i].customer == c :: rows[i].orderId
  }

  function Groups(rows: seq<Joined>): set<Customer> {
    set i | 0 <= i < |rows| :: rows[i].customer
  }

  datatype ReportRow = ReportRow(orderCount: nat, revenueCents: int)

  type Report = map<Customer, ReportRow>

  /** count(orders.id) and sum over the join of customers, orders and lines. */
  function NaiveReport(t: Tables): Report {
    var rows := Join(t.customers, t.orders, t.lines);
    map c | c in Groups(rows) :: ReportRow(CountRows(rows, c), SumRows(rows, c))
  }

  /** count(DISTINCT orders.id) and sum over the same join. */
  function DistinctReport(t: Tables): Report {
    var rows := Join(t.customers, t.orders, t.lines);
    map c | c in Groups(rows) :: ReportRow(|OrderIds(rows, c)|, SumRows(rows, c))
  }

  function AddTo(totals: seq<Item>, line: Item): seq<Item> {
    if totals == [] then [line] else
      var n := |totals| - 1;
      if totals[n].orderId == line.orderId then totals[..n] + [Item(line.orderId, totals[n].cents + line.cents)]
      else AddTo(totals[..n], line) + [totals[n]]
  }

  /** SELECT order_id, sum(line_total_cents) FROM order_lines GROUP BY order_id. */
  function OrderTotals(lines: seq<Item>): seq<Item> {
    if lines == [] then [] else AddTo(OrderTotals(lines[..|lines| - 1]), lines[|lines| - 1])
  }

  /** count(orders.id) and sum over the join of customers, orders and order totals. */
  function CorrectedReport(t: Tables): Report {
    var rows := Join(t.customers, t.orders, OrderTotals(t.lines));
    map c | c in Groups(rows) :: ReportRow(CountRows(rows, c), SumRows(rows, c))
  }

  /** SELECT customer_id, count(*) FROM orders GROUP BY customer_id. */
  function ActualOrderCount(os: seq<Order>, customerId: nat): nat {
    if os == [] then 0 else
      ActualOrderCount(os[..|os| - 1], customerId) + if os[|os| - 1].customerId == customerId then 1 else 0
  }

  // ---- What the groups amount to, without the joins ----

  function ItemCount(items: seq<Item>, orderId: nat): nat {
    if items == [] then 0 else
      ItemCount(items[..|items| - 1], orderId) + if items[|items| - 1].orderId == orderId then 1 else 0
  }

  function ItemSum(items: seq<Item>, orderId: nat): int {
    if items == [] then 0 else
      var last := items[|items| - 1];
      ItemSum(items[..|items| - 1], orderId) + if last.orderId == orderId then last.cents else 0
  }

  /** Number of items of a customer's orders. */
  function CustomerItems(os: seq<Order>, customerId: nat, items: seq<Item>): nat {
    if os == [] then 0 else
      CustomerItems(os[..|os| - 1], customerId, items)
      + if os[|os| - 1].customerId == customerId then ItemCount(items, os[|os| - 1].id) else 0
  }

  function CustomerRevenue(os: seq<Order>, customerId: nat, items: seq<Item>): int {
    if os == [] then 0 else
      CustomerRevenue(os[..|os| - 1], customerId, items)
      + if os[|os| - 1].customerId == customerId then ItemSum(items, os[|os| - 1].id) else 0
  }

  /** Number of a customer's orders with at least one item. */
  function FilledOrders(os: seq<Order>, customerId: nat, items: seq<Item>): nat {
    if os == [] then 0 else
      FilledOrders(os[..|os| - 1], customerId, items)
      + if os[|os| - 1].customerId == customerId && ItemCount(items, os[|os| - 1].id) > 0 then 1 else 0
  }

  function FilledIds(os: seq<Order>, customerId: nat, items: seq<Item>): set<nat> {
    if os == [] then {} else
      FilledIds(os[..|os| - 1], customerId, items)
      + if os[|os| - 1].customerId == customerId && ItemCount(items, os[|os| - 1].id) > 0 then {os[|os| - 1].id} else {}
  }

  // ---- Groups of a join ----

  lemma {:induction false} RowsConcat(a: seq<Joined>, b: seq<Joined>, c: Customer)
    ensures CountRows(a + b, c) == CountRows(a, c) + CountRows(b, c)
    ensures SumRows(a + b, c) == SumRows(a, c) + SumRows(b, c)
    ensures OrderIds(a + b, c) == OrderIds(a, c) + OrderIds(b, c)
  {
    OrderIdsConcat(a, b, c);
    if b == [] {
      assert a + b == a;
    } else {
      RowsConcat(a, b[..|b| - 1], c);
      assert (a + b)[..|a + b| - 1] == a + b[..|b| - 1];
    }
  }

  lemma OrderIdsConcat(a: seq<Joined>, b: seq<Joined>, c: Customer)
    ensures OrderIds(a + b, c) == OrderIds(a, c) + OrderIds(b, c)
  {
    assert forall i :: 0 <= i < |a| ==> (a + b)[i] == a[i];
    forall id | id in OrderIds(b, c) ensures id in OrderIds(a + b, c) {
      var i :| 0 <= i < |b| && b[i].customer == c && b[i].orderId == id;
      assert (a + b)[|a| + i] == b[i];
    }
  }

  lemma {:induction false} ItemsGroup(c: Customer, o: Order, items: seq<Item>, d: Customer)
    ensures var rows := JoinItems(c, o, items);
      && CountRows(rows, d) == (if c == d then ItemCount(items, o.id) else 0)
      && SumRows(rows, d) == (if c == d then ItemSum(items, o.id) else 0)
      && OrderIds(rows, d) == if c == d && ItemCount(items, o.id) > 0 then {o.id} else {}
  {
    if items != [] {
      var n := |items| - 1;
      ItemsGroup(c, o, items[..n], d);
      var tail := if items[n].orderId == o.id then [Joined(c, o.id, items[n].cents)] else [];
      RowsConcat(JoinItems(c, o, items[..n]), tail, d);
      OneRow(tail, d);
    }
  }

  lemma OneRow(rows: seq<Joined>, c: Customer)
    requires |rows| <= 1
    ensures CountRows(rows, c) == if rows != [] && rows[0].customer == c then 1 else 0
    ensures SumRows(rows, c) == if rows != [] && rows[0].customer == c then rows[0].cents else 0
    ensures OrderIds(rows, c) == if rows != [] && rows[0].customer == c then {rows[0].orderId} else {}
  {
    if rows != [] {
      assert rows[..0] == [];
    }
  }

  lemma {:induction false} OrdersGroup(c: Customer, os: seq<Order>, items: seq<Item>, d: Customer)
    ensures var rows := JoinOrders(c, os, items);
      && CountRows(rows, d) == (if c == d then CustomerItems(os, c.id, items) else 0)
      && SumRows(rows, d) == (if c == d then CustomerRevenue(os, c.id, items) else 0)
      && OrderIds(rows, d) == if c == d then FilledIds(os, c.id, items) else {}
  {
    if os != [] {
      var n := |os| - 1;
      OrdersGroup(c, os[..n], items, d);
      var tail := if os[n].customerId == c.id then JoinItems(c, os[n], items) else [];
      RowsConcat(JoinOrders(c, os[..n], items), tail, d);
      ItemsGroup(c, os[n], items, d);
    }
  }

  /** The group of a customer holds what the customer's own orders give; there is no other group. */
  lemma {:induction false} JoinGroup(cs: seq<Customer>, os: seq<Order>, items: seq<Item>, d: Customer)
    requires UniqueCustomers(cs)
    ensures var rows := Join(cs, os, items);
      && CountRows(rows, d) == (if d in cs then CustomerItems(os, d.id, items) else 0)
      && SumRows(rows, d) == (if d in cs then CustomerRevenue(os, d.id, items) else 0)
      && OrderIds(rows, d) == if d in cs then FilledIds(os, d.id, items) else {}
  {
    if cs != [] {
      var n := |cs| - 1;
      JoinGroup(cs[..n], os, items, d);
      RowsConcat(Join(cs[..n], os, items), JoinOrders(cs[n], os, items), d);
      OrdersGroup(cs[n], os, items, d);
      assert cs == cs[..n] + [cs[n]];
    }
  }

  lemma {:induction false} GroupHasRows(rows: seq<Joined>, c: Customer)
    ensures c in Groups(rows) <==> CountRows(rows, c) > 0
  {
    if rows != [] {
      var n := |rows| - 1;
      GroupHasRows(rows[..n], c);
      assert Groups(rows) == Groups(rows[..n]) + {rows[n].customer} by {
        assert rows == rows[..n] + [rows[n]];
      }
    }
  }

  // ---- Pre-aggregation ----

  lemma {:induction false} AddToTotals(totals: seq<Item>, line: Item, orderId: nat)
    ensures ItemSum(AddTo(totals, line), orderId)
      == ItemSum(totals, orderId) + if line.orderId == orderId then line.cents else 0
    ensures ItemCount(AddTo(totals, line), orderId)
      == if line.orderId == orderId && ItemCount(totals, orderId) == 0 then 1 else ItemCount(totals, orderId)
  {
    if totals == [] {
      assert [line][..0] == [];
    } else {
      var n := |totals| - 1;
      AddToTotals(totals[..n], line, orderId);
      assert AddTo(totals, line)[..|AddTo(totals, line)| - 1]
          == if totals[n].orderId == line.orderId then totals[..n] else AddTo(totals[..n], line);
    }
  }

  /** One row per order that has lines, with the sum of its lines. */
  lemma {:induction false} TotalsPerOrder(lines: seq<Item>, orderId: nat)
    ensures ItemSum(OrderTotals(lines), orderId) == ItemSum(lines, orderId)
    ensures ItemCount(OrderTotals(lines), orderId) == if ItemCount(lines, orderId) > 0 then 1 else 0
  {
    if lines != [] {
      TotalsPerOrder(lines[..|lines| - 1], orderId);
      AddToTotals(OrderTotals(lines[..|lines| - 1]), lines[|lines| - 1], orderId);
    }
  }

  lemma {:induction false} TotalsPerCustomer(os: seq<Order>, customerId: nat, lines: seq<Item>)
    ensures CustomerRevenue(os, customerId, OrderTotals(lines)) == CustomerRevenue(os, customerId, lines)
    ensures CustomerItems(os, customerId, OrderTotals(lines)) == FilledOrders(os, customerId, lines)
  {
    if os != [] {
      TotalsPerCustomer(os[..|os| - 1], customerId, lines);
      TotalsPerOrder(lines, os[|os| - 1].id);
    }
  }

  lemma {:induction false} DistinctOrdersCounted(os: seq<Order>, customerId: nat, items: seq<Item>)
    requires UniqueOrders(os)
    ensures |FilledIds(os, customerId, items)| == FilledOrders(os, customerId, items)
    ensures forall id :: id in FilledIds(os, customerId, items) ==> exists i :: 0 <= i < |os| && os[i].id == id
  {
    if os != [] {
      DistinctOrdersCounted(os[..|os| - 1], customerId, items);
      assert os[|os| - 1].id !in FilledIds(os[..|os| - 1], customerId, items);
    }
  }

  // ---- The rewrite ----

  lemma {:induction false} FilledSome(os: seq<Order>, customerId: nat, lines: seq<Item>)
    ensures FilledOrders(os, customerId, lines) > 0 <==> CustomerItems(os, customerId, lines) > 0
  {
    if os != [] {
      FilledSome(os[..|os| - 1], customerId, lines);
    }
  }

  lemma GroupOfReports(t: Tables, c: Customer)
    requires Valid(t)
    ensures c in NaiveReport(t) <==> c in t.customers && FilledOrders(t.orders, c.id, t.lines) > 0
    ensures c in CorrectedReport(t) <==> c in NaiveReport(t)
    ensures c in NaiveReport(t) ==>
      && NaiveReport(t)[c]
         == ReportRow(CustomerItems(t.orders, c.id, t.lines), CustomerRevenue(t.orders, c.id, t.lines))
      && DistinctReport(t)[c] == CorrectedReport(t)[c]
      && CorrectedReport(t)[c]
         == ReportRow(FilledOrders(t.orders, c.id, t.lines), CustomerRevenue(t.orders, c.id, t.lines))
  {
    var totals := OrderTotals(t.lines);
    JoinGroup(t.customers, t.orders, t.lines, c);
    JoinGroup(t.customers, t.orders, totals, c);
    GroupHasRows(Join(t.customers, t.orders, t.lines), c);
    GroupHasRows(Join(t.customers, t.orders, totals), c);
    TotalsPerCustomer(t.orders, c.id, t.lines);
    DistinctOrdersCounted(t.orders, c.id, t.lines);
    FilledSome(t.orders, c.id, t.lines);
    hide Join, Groups, CountRows, SumRows, OrderIds, OrderTotals, CustomerItems, CustomerRevenue, FilledOrders,
      FilledIds;
  }

  /** The rewrite preserves meaning: the pre-aggregated report is the COUNT(DISTINCT) report, row for row, and
      has the naive report's customers and revenues. */
  lemma RewritePreservesReport(t: Tables)
    requires Valid(t)
    ensures CorrectedReport(t) == DistinctReport(t)
    ensures CorrectedReport(t).Keys == NaiveReport(t).Keys
    ensures forall c :: c in NaiveReport(t) ==> NaiveReport(t)[c].revenueCents == CorrectedReport(t)[c].revenueCents
  {
    forall c: Customer
      ensures c in CorrectedReport(t) <==> c in NaiveReport(t)
      ensures c in NaiveReport(t) ==> DistinctReport(t)[c] == CorrectedReport(t)[c]
      ensures c in NaiveReport(t) ==> NaiveReport(t)[c].revenueCents == CorrectedReport(t)[c].revenueCents
    {
      GroupOfReports(t, c);
    }
    assert DistinctReport(t).Keys == NaiveReport(t).Keys;
    hide CorrectedReport, NaiveReport, DistinctReport;
  }

  // ---- When the counts are right ----

  predicate OneLineEach(os: seq<Order>, customerId: nat, lines: seq<Item>) {
    forall i :: 0 <= i < |os| && os[i].customerId == customerId ==> ItemCount(lines, os[i].id) <= 1
  }

  predicate EveryOrderFilled(os: seq<Order>, customerId: nat, lines: seq<Item>) {
    forall i :: 0 <= i < |os| && os[i].customerId == customerId ==> ItemCount(lines, os[i].id) >= 1
  }

  lemma {:induction false} FanOut(os: seq<Order>, customerId: nat, lines: seq<Item>)
    ensures FilledOrders(os, customerId, lines) <= CustomerItems(os, customerId, lines)
    ensures FilledOrders(os, customerId, lines) == CustomerItems(os, customerId, lines)
      <==> OneLineEach(os, customerId, lines)
  {
    if os != [] {
      var n := |os| - 1;
      FanOut(os[..n], customerId, lines);
      assert OneLineEach(os, customerId, lines) <==>
        OneLineEach(os[..n], customerId, lines) && (os[n].customerId == customerId ==> ItemCount(lines, os[n].id) <= 1);
    }
  }

  lemma {:induction false} MissingOrders(os: seq<Order>, customerId: nat, lines: seq<Item>)
    ensures FilledOrders(os, customerId, lines) <= ActualOrderCount(os, customerId)
    ensures FilledOrders(os, customerId, lines) == ActualOrderCount(os, customerId)
      <==> EveryOrderFilled(os, customerId, lines)
  {
    if os != [] {
      var n := |os| - 1;
      MissingOrders(os[..n], customerId, lines);
      assert EveryOrderFilled(os, customerId, lines) <==>
        EveryOrderFilled(os[..n], customerId, lines)
          && (os[n].customerId == customerId ==> ItemCount(lines, os[n].id) >= 1);
    }
  }

  /** The naive count is the number of lines, and right exactly when no order has a second line; the corrected
      count is the true number of orders exactly when no order is without lines. */
  lemma CountsRightIff(t: Tables, c: Customer)
    requires Valid(t) && c in NaiveReport(t)
    ensures NaiveReport(t)[c].orderCount == CustomerItems(t.orders, c.id, t.lines)
    ensures c in CorrectedReport(t)
    ensures NaiveReport(t)[c].orderCount == CorrectedReport(t)[c].orderCount <==> OneLineEach(t.orders, c.id, t.lines)
    ensures CorrectedReport(t)[c].orderCount == ActualOrderCount(t.orders, c.id)
      <==> EveryOrderFilled(t.orders, c.id, t.lines)
  {
    GroupOfReports(t, c);
    FanOut(t.orders, c.id, t.lines);
    MissingOrders(t.orders, c.id, t.lines);
    hide CorrectedReport, NaiveReport, DistinctReport;
  }

  /** The corrected count misses orders: give any customer of any report one more order, without lines, and the
      report counts one order too few at least. */
  lemma OrderWithoutLinesIsMissed(t: Tables, c: Customer, id: nat)
    requires Valid(t) && c in CorrectedReport(t)
    requires (forall i :: 0 <= i < |t.orders| ==> t.orders[i].id != id) && ItemCount(t.lines, id) == 0
    ensures var more := t.(orders := t.orders + [Order(id, c.id)]);
      && Valid(more) && c in CorrectedReport(more)
      && CorrectedReport(more)[c].orderCount < ActualOrderCount(more.orders, c.id)
  {
    var more := t.(orders := t.orders + [Order(id, c.id)]);
    var n := |t.orders|;
    assert more.orders[..n] == t.orders;
    GroupOfReports(t, c);
    GroupOfReports(more, c);
    MissingOrders(more.orders, c.id, t.lines);
    assert more.orders[n].customerId == c.id;
    hide CorrectedReport, NaiveReport, DistinctReport, ActualOrderCount;
  }
}
