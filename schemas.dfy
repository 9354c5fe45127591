/** The record types of the billing store, their field bounds, the literal
    enumerations and the defaults of their optional fields. A record is
    checked against its bounds when it is built; the predicates below say
    what such a check accepts. */
module Schemas {
  import opened Wrappers

  /** The values `Order.status` may take; the first is the default. */
  const OrderStatuses: seq<string> := ["pending", "preparing", "ready", "served", "cancelled"]
  const DefaultStatus: string := "pending"

  /** The values `Payment.method` may take; the first is the default. */
  const PaymentMethods: seq<string> := ["cash", "card", "upi", "wallet", "split", "other"]
  const DefaultMethod: string := "cash"

  const DefaultGstRate: real := 0.05
  const MaxGstRate: real := 0.28

  /** A catalog entry: base price before tax and the GST rate as a fraction. */
  datatype MenuItem = MenuItem(
    name: string,
    category: string,
    price: real,
    description: Option<string>,
    isAvailable: bool,
    gstRate: real)

  predicate ValidMenuItem(m: MenuItem) {
    m.price >= 0.0 && 0.0 <= m.gstRate <= MaxGstRate
  }

  /** A menu item built from its required fields, the others defaulted. */
  function NewMenuItem(name: string, category: string, price: real): (m: MenuItem) {
    MenuItem(name, category, price, None, true, DefaultGstRate)
  }

  /** One line of an order: on input a reference and a quantity, once
      stored also the name, unit price and GST rate copied from the catalog. */
  datatype OrderItem = OrderItem(
    menuItemId: string,
    name: Option<string>,
    price: Option<real>,
    quantity: int,
    notes: Option<string>,
    gstRate: Option<real>)

  predicate ValidOrderItem(i: OrderItem) {
    i.quantity >= 1
  }

  /** `kind` is the payment method (`method` is a Dafny keyword). */
  datatype Payment = Payment(kind: string, amount: real, reference: Option<string>)

  predicate ValidPayment(p: Payment) {
    p.kind in PaymentMethods && p.amount >= 0.0
  }

  function DefaultPayment(): (p: Payment) {
    Payment(DefaultMethod, 0.0, None)
  }

  datatype Order = Order(
    tableNo: Option<string>,
    customerId: Option<string>,
    status: string,
    items: seq<OrderItem>,
    subtotal: real,
    taxTotal: real,
    grandTotal: real,
    payments: seq<Payment>,
    discount: real,
    notes: Option<string>)

  predicate ValidOrder(o: Order) {
    && o.status in OrderStatuses
    && (forall i :: 0 <= i < |o.items| ==> ValidOrderItem(o.items[i]))
    && (forall j :: 0 <= j < |o.payments| ==> ValidPayment(o.payments[j]))
  }

  /** An order built from its one required field, `items`, the others defaulted. */
  function NewOrderRecord(items: seq<OrderItem>): (o: Order) {
    Order(None, None, DefaultStatus, items, 0.0, 0.0, 0.0, [], 0.0, None)
  }

  /** The defaults of a menu item meet its bounds whenever its price does. */
  lemma MenuItemDefaults(name: string, category: string, price: real)
    ensures var m := NewMenuItem(name, category, price);
      m.gstRate == 0.05 && m.isAvailable && (ValidMenuItem(m) <==> price >= 0.0)
  {
  }

  /** The default payment is a cash payment of nothing, and it is valid. */
  lemma PaymentDefaults()
    ensures DefaultPayment().kind == "cash" && DefaultPayment().amount == 0.0
    ensures ValidPayment(DefaultPayment())
  {
  }

  /** An order with default fields is pending, has zero totals and discount
      and no payments, and is valid exactly when its lines are. */
  lemma OrderDefaults(items: seq<OrderItem>)
    ensures var o := NewOrderRecord(items);
      && o.status == "pending" && o.payments == []
      && o.subtotal == 0.0 && o.taxTotal == 0.0 && o.grandTotal == 0.0 && o.discount == 0.0
      && (ValidOrder(o) <==> forall i :: 0 <= i < |items| ==> ValidOrderItem(items[i]))
  {
  }
}
