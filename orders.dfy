/** The order store and the operations on it: creating a priced order,
    overwriting its status, appending a payment, reading back the bill and
    the revenue report over all orders. */
module Orders {
  import opened Wrappers
  import opened Money
  import opened Schemas
  import opened Pricing

  /** The body of an order-creation request. */
  datatype OrderCreate = OrderCreate(
    tableNo: Option<string>,
    customerId: Option<string>,
    items: seq<OrderItem>,
    discount: real,
    notes: Option<string>)

  /** A stored order: the order record and the `updated_at` field that the
      store keeps beside it (`None` is a null value). */
  datatype OrderDoc = OrderDoc(order: Order, updatedAt: Option<string>)

  /** What a successful creation returns: the new identity and the rounded figures. */
  datatype Created = Created(id: Oid, totals: Totals)

  /** The revenue report: the rounded sum of grand totals and the number of orders. */
  datatype Report = Report(revenue: real, orders: nat)

  /** The order built from a request and its priced lines: pending, with no
      payments, its figures in whole cents and its discounted subtotal never
      negative, valid exactly when its lines are. */
  function NewOrder(payload: OrderCreate, lines: seq<OrderItem>): (o: Order)
    ensures o.status == DefaultStatus && o.payments == [] && o.items == lines
    ensures InCents(o.subtotal) && InCents(o.taxTotal) && InCents(o.grandTotal)
    ensures o.subtotal >= 0.0
    ensures ValidOrder(o) <==> forall i :: 0 <= i < |lines| ==> ValidOrderItem(lines[i])
  {
    var t := Rounded(ApplyDiscount(Subtotal(lines), TaxTotal(lines), payload.discount));
    Order(payload.tableNo, payload.customerId, DefaultStatus, lines,
          t.subtotal, t.taxTotal, t.grandTotal, [], payload.discount, payload.notes)
  }

  /** A new order is pending with no payments, keeps the lines, the table,
      the customer, the notes and the discount as requested (not clamped),
      and holds the rounded discounted figures; it is valid when its lines are. */
  lemma {:induction false} NewOrderShape(payload: OrderCreate, lines: seq<OrderItem>)
    ensures var o := NewOrder(payload, lines);
      var t := ApplyDiscount(Subtotal(lines), TaxTotal(lines), payload.discount);
      && o.status == "pending" && o.payments == [] && o.items == lines
      && o.discount == payload.discount
      && o.tableNo == payload.tableNo && o.customerId == payload.customerId && o.notes == payload.notes
      && o.subtotal == Round2(Max(0.0, Subtotal(lines) - payload.discount))
      && o.taxTotal == Round2(t.taxTotal) && o.grandTotal == Round2(t.subtotal + t.taxTotal)
      && ((forall i :: 0 <= i < |lines| ==> ValidOrderItem(lines[i])) ==> ValidOrder(o))
  {
    var t := ApplyDiscount(Subtotal(lines), TaxTotal(lines), payload.discount);
    var o := NewOrder(payload, lines);
    assert o.subtotal == Rounded(t).subtotal && o.grandTotal == Rounded(t).grandTotal;
    assert t.subtotal == Max(0.0, Subtotal(lines) - payload.discount);
    assert t.grandTotal == t.subtotal + t.taxTotal;
  }

  /** An order for an empty cart with no negative discount has all three
      figures 0. */
  lemma EmptyCart(payload: OrderCreate, menu: map<Oid, MenuDoc>, toOid: IdParser)
    requires payload.items == [] && payload.discount >= 0.0
    ensures AllResolve(payload.items, menu, toOid)
    ensures var o := NewOrder(payload, Snapshots(payload.items, menu, toOid));
      o.items == [] && o.subtotal == 0.0 && o.taxTotal == 0.0 && o.grandTotal == 0.0
  {
    Round2Zero();
  }

  /** A discount reaching the subtotal gives an order whose three figures are 0. */
  lemma {:induction false} DiscountWipesOut(payload: OrderCreate, lines: seq<OrderItem>)
    requires payload.discount >= Subtotal(lines)
    ensures var o := NewOrder(payload, lines);
      o.subtotal == 0.0 && o.taxTotal == 0.0 && o.grandTotal == 0.0
  {
    DiscountClamped(Subtotal(lines), TaxTotal(lines), payload.discount);
    Round2Zero();
  }

  /** Two portions of an item at 100 with 5% GST and a discount of 50 give a
      subtotal of 150, tax of 7.5 and a grand total of 157.5. */
  lemma WorkedExample()
    ensures var toOid: IdParser := s => Some(Oid(s));
      var menu := map[Oid("a") := MenuDoc(Some("Thali"), Some(100.0), Some(0.05), Some(true))];
      var payload := OrderCreate(None, None, [OrderItem("a", None, None, 2, None, None)], 50.0, None);
      && AllResolve(payload.items, menu, toOid)
      && var o := NewOrder(payload, Snapshots(payload.items, menu, toOid));
      && o.subtotal == 150.0 && o.taxTotal == 7.5 && o.grandTotal == 157.5
  {
    var toOid: IdParser := s => Some(Oid(s));
    var menu := map[Oid("a") := MenuDoc(Some("Thali"), Some(100.0), Some(0.05), Some(true))];
    var req := OrderItem("a", None, None, 2, None, None);
    var lines := Snapshots([req], menu, toOid);
    assert [req][..0] == [];
    assert lines == [OrderItem("a", Some("Thali"), Some(100.0), 2, None, Some(0.05))];
    assert Subtotal(lines) == 200.0;
    assert TaxTotal(lines) == 10.0;
    assert ApplyDiscount(200.0, 10.0, 50.0) == Totals(150.0, 7.5, 157.5);
    assert Hundredths(150.0) == 15000;
    assert Hundredths(7.5) == 750;
    assert Hundredths(157.5) == 15750;
  }

  /** The stored order with its status overwritten; nothing else changes. */
  function SetStatus(d: OrderDoc, status: string): (r: OrderDoc)
    ensures r.order.status == status
    ensures r.order.(status := d.order.status) == d.order && r.updatedAt == d.updatedAt
  {
    OrderDoc(d.order.(status := status), d.updatedAt)
  }

  /** The stored order with one more payment at the end of its list and
      `updated_at` nulled; the figures, lines and status stay as they were. */
  function AppendPayment(d: OrderDoc, p: Payment): (r: OrderDoc)
    ensures |r.order.payments| == |d.order.payments| + 1
    ensures r.order.payments[..|d.order.payments|] == d.order.payments
    ensures r.order.payments[|d.order.payments|] == p
    ensures r.order.(payments := d.order.payments) == d.order
    ensures r.updatedAt == None
  {
    OrderDoc(d.order.(payments := d.order.payments + [p]), None)
  }

  /** The status string is stored unchecked, so a valid order stays valid
      exactly when the new status is one of the five values. */
  lemma StatusKeepsValidity(d: OrderDoc, status: string)
    requires ValidOrder(d.order)
    ensures ValidOrder(SetStatus(d, status).order) <==> status in OrderStatuses
  {
  }

  /** The payment is stored unchecked, so a valid order stays valid exactly
      when the payment is a valid one. */
  lemma PaymentKeepsValidity(d: OrderDoc, p: Payment)
    requires ValidOrder(d.order)
    ensures ValidOrder(AppendPayment(d, p).order) <==> ValidPayment(p)
  {
    var ps := AppendPayment(d, p).order.payments;
    if ValidPayment(p) {
      forall j | 0 <= j < |ps| ensures ValidPayment(ps[j]) {
        if j < |d.order.payments| {
          assert ps[j] == ps[..|d.order.payments|][j];
        }
      }
    } else {
      assert !ValidPayment(ps[|d.order.payments|]);
    }
  }

  /** Appending the same payment twice records it twice: no deduplication. */
  lemma PaymentTwice(d: OrderDoc, p: Payment)
    ensures var ps := AppendPayment(AppendPayment(d, p), p).order.payments;
      ps == d.order.payments + [p, p]
  {
    var n := |d.order.payments|;
    var ps := AppendPayment(AppendPayment(d, p), p).order.payments;
    assert ps[..n] == AppendPayment(d, p).order.payments[..n];
  }

  /** An arbitrary key of a non-empty store. */
  ghost function Pick(orders: map<Oid, OrderDoc>): (k: Oid)
    requires orders != map[]
    ensures k in orders
  {
    var k :| k in orders; k
  }

  /** Sum of the stored grand totals over every order, whatever its status:
      0 for no orders, and not negative when no grand total is. */
  ghost function Revenue(orders: map<Oid, OrderDoc>): (sum: real)
    ensures orders == map[] ==> sum == 0.0
    ensures (forall k :: k in orders ==> orders[k].order.grandTotal >= 0.0) ==> sum >= 0.0
    decreases |orders|
  {
    if orders == map[] then 0.0
    else
      var k := Pick(orders);
      assert |orders - {k}| < |orders| by {
        assert (orders - {k}).Keys == orders.Keys - {k};
      }
      orders[k].order.grandTotal + Revenue(orders - {k})
  }

  /** The sum does not depend on the key it starts from: any stored order
      contributes its grand total once. */
  lemma {:induction false} RevenueRemove(orders: map<Oid, OrderDoc>, k: Oid)
    requires k in orders
    ensures Revenue(orders) == orders[k].order.grandTotal + Revenue(orders - {k})
    decreases |orders|
  {
    var j := Pick(orders);
    if j != k {
      assert (orders - {j}).Keys == orders.Keys - {j};
      assert (orders - {k}).Keys == orders.Keys - {k};
      RevenueRemove(orders - {j}, k);
      RevenueRemove(orders - {k}, j);
      assert orders - {j} - {k} == orders - {k} - {j};
    }
  }

  /** Inserting a new order adds its grand total to the revenue. */
  lemma RevenueInsert(orders: map<Oid, OrderDoc>, k: Oid, d: OrderDoc)
    requires k !in orders
    ensures Revenue(orders[k := d]) == Revenue(orders) + d.order.grandTotal
  {
    RevenueRemove(orders[k := d], k);
    assert orders[k := d] - {k} == orders;
  }

  /** Replacing a stored order by one with the same grand total (a status
      change, to "cancelled" included, or a payment) leaves the revenue as it was. */
  lemma RevenueReplace(orders: map<Oid, OrderDoc>, k: Oid, d: OrderDoc)
    requires k in orders && d.order.grandTotal == orders[k].order.grandTotal
    ensures Revenue(orders[k := d]) == Revenue(orders)
  {
    RevenueRemove(orders[k := d], k);
    RevenueRemove(orders, k);
    assert orders[k := d] - {k} == orders - {k};
  }

  /** Every stored grand total is a whole number of cents, as creation
      leaves it and as status changes and payments keep it. */
  predicate CentsStore(orders: map<Oid, OrderDoc>) {
    forall k :: k in orders ==> InCents(orders[k].order.grandTotal)
  }

  /** Stored grand totals are whole cents, so the revenue is too, and the
      report's rounding of it changes nothing. */
  lemma {:induction false} RevenueInCents(orders: map<Oid, OrderDoc>)
    requires CentsStore(orders)
    ensures InCents(Revenue(orders))
    ensures Round2(Revenue(orders)) == Revenue(orders)
    decreases |orders|
  {
    if orders != map[] {
      var k := Pick(orders);
      assert (orders - {k}).Keys == orders.Keys - {k};
      RevenueInCents(orders - {k});
      CentsSum(orders[k].order.grandTotal, Revenue(orders - {k}));
    } else {
      assert Revenue(orders) * 100.0 == 0.0;
    }
    Round2Exact(Revenue(orders));
  }

  /** The order stored by a successful creation, for a catalog and requests
      within their bounds, has non-negative figures in whole cents with the
      grand total no smaller than the subtotal; a status change or a payment
      keeps those figures. */
  lemma StoredFiguresBounded(payload: OrderCreate, menu: map<Oid, MenuDoc>, toOid: IdParser, status: string, p: Payment)
    requires AllResolve(payload.items, menu, toOid) && ValidMenu(menu) && ValidRequests(payload.items)
    ensures var d := OrderDoc(NewOrder(payload, Snapshots(payload.items, menu, toOid)), None);
      && 0.0 <= d.order.subtotal <= d.order.grandTotal && 0.0 <= d.order.taxTotal
      && InCents(d.order.grandTotal)
      && SetStatus(d, status).order.grandTotal == d.order.grandTotal
      && AppendPayment(d, p).order.grandTotal == d.order.grandTotal
  {
    var lines := Snapshots(payload.items, menu, toOid);
    PricingBounded(payload.items, menu, toOid, payload.discount);
    assert NewOrder(payload, lines).grandTotal
      == Rounded(ApplyDiscount(Subtotal(lines), TaxTotal(lines), payload.discount)).grandTotal;
  }

  /** The store: the menu catalog, the orders, and the store's identity parser. */
  class Database {
    var menu: map<Oid, MenuDoc>
    var orders: map<Oid, OrderDoc>
    const toOid: IdParser

    constructor (toOid: IdParser, menu: map<Oid, MenuDoc>)
      ensures this.toOid == toOid && this.menu == menu && orders == map[]
    {
      this.toOid := toOid;
      this.menu := menu;
      orders := map[];
    }

    /** Which stored order an identity string names, or why none. */
    function Locate(orderId: string): (r: Result<Oid, Error>)
      reads this`orders
      ensures r == Failure(InvalidId) <==> toOid(orderId).None?
      ensures r == Failure(NotFound) <==> toOid(orderId).Some? && toOid(orderId).value !in orders
      ensures r.Success? ==> Some(r.value) == toOid(orderId) && r.value in orders
    {
      match toOid(orderId)
      case None => Failure(InvalidId)
      case Some(oid) => if oid in orders then Success(oid) else Failure(NotFound)
    }

    /** Prices the requested lines against the catalog and stores a new
        pending order under the fresh identity `newId`; all or nothing. */
    method CreateOrder(payload: OrderCreate, newId: Oid, stamp: Option<string>) returns (r: Result<Created, Error>)
      requires newId !in orders
      modifies this`orders
      ensures r.Failure? <==> !AllResolve(payload.items, menu, toOid)
      ensures r.Failure? ==> orders == old(orders) && IsFirstError(payload.items, menu, toOid, r.error)
      ensures r.Success? ==>
        var o := NewOrder(payload, Snapshots(payload.items, menu, toOid));
        && r.value == Created(newId, Totals(o.subtotal, o.taxTotal, o.grandTotal))
        && orders == old(orders)[newId := OrderDoc(o, stamp)]
      ensures CentsStore(old(orders)) ==> CentsStore(orders)
    {
      var expanded := ExpandItems(payload.items, menu, toOid);
      if expanded.Failure? {
        return Failure(expanded.error);
      }
      var subtotal := expanded.value.subtotal;
      var taxTotal := expanded.value.taxTotal;
      var totals := Rounded(ApplyDiscount(subtotal, taxTotal, payload.discount));
      var order := Order(payload.tableNo, payload.customerId, DefaultStatus, expanded.value.lines,
                         totals.subtotal, totals.taxTotal, totals.grandTotal,
                         [], payload.discount, payload.notes);
      assert order == NewOrder(payload, expanded.value.lines);
      orders := orders[newId := OrderDoc(order, stamp)];
      return Success(Created(newId, Totals(order.subtotal, order.taxTotal, order.grandTotal)));
    }

    /** Overwrites the status of the named order with any string given. */
    method UpdateStatus(orderId: string, status: string) returns (r: Result<(), Error>)
      modifies this`orders
      ensures r.Failure? <==> old(Locate(orderId)).Failure?
      ensures r.Failure? ==> orders == old(orders) && r.error == old(Locate(orderId)).error
      ensures r.Success? ==>
        var oid := toOid(orderId).value;
        orders == old(orders)[oid := SetStatus(old(orders)[oid], status)]
      ensures CentsStore(old(orders)) ==> CentsStore(orders)
    {
      var located := Locate(orderId);
      if located.Failure? {
        return Failure(located.error);
      }
      var oid := located.value;
      orders := orders[oid := SetStatus(orders[oid], status)];
      return Success(());
    }

    /** Appends a payment, as given, to the named order and nulls its
        `updated_at`. */
    method AddPayment(orderId: string, payment: Payment) returns (r: Result<(), Error>)
      modifies this`orders
      ensures r.Failure? <==> old(Locate(orderId)).Failure?
      ensures r.Failure? ==> orders == old(orders) && r.error == old(Locate(orderId)).error
      ensures r.Success? ==>
        var oid := toOid(orderId).value;
        orders == old(orders)[oid := AppendPayment(old(orders)[oid], payment)]
      ensures CentsStore(old(orders)) ==> CentsStore(orders)
    {
      var located := Locate(orderId);
      if located.Failure? {
        return Failure(located.error);
      }
      var oid := located.value;
      orders := orders[oid := AppendPayment(orders[oid], payment)];
      return Success(());
    }

    /** The stored order as it is, for printing; nothing is recomputed from
        the catalog. */
    function Bill(orderId: string): (r: Result<OrderDoc, Error>)
      reads this`orders
      ensures r.Failure? <==> Locate(orderId).Failure?
      ensures r.Failure? ==> r.error == Locate(orderId).error
      ensures r.Success? ==> r.value == orders[toOid(orderId).value]
    {
      match Locate(orderId)
      case Failure(e) => Failure(e)
      case Success(oid) => Success(orders[oid])
    }

    /** The revenue report over every stored order, with no filter; over a
        store whose grand totals are whole cents the rounding is exact. */
    ghost function SalesReport(): (r: Report)
      reads this`orders
      ensures r.orders == |orders|
      ensures r.revenue == Round2(Revenue(orders))
      ensures CentsStore(orders) ==> r.revenue == Revenue(orders)
    {
      if orders == map[] then
        Round2Zero();
        Report(0.0, 0)
      else
        if CentsStore(orders) then RevenueInCents(orders); Report(Round2(Revenue(orders)), |orders|)
        else Report(Round2(Revenue(orders)), |orders|)
    }
  }
}
