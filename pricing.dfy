/** Pricing of a new order: each requested line is resolved against the
    menu catalog and frozen into a line snapshot, the line amounts are
    summed, and the discount is applied with the tax recomputed
    proportionally on the discounted base. */
module Pricing {
  import opened Wrappers
  import opened Money
  import opened Schemas

  /** A store identity, as produced by parsing an identity string. */
  datatype Oid = Oid(hex: string)

  /** The two caller-visible failures: a malformed identity string (HTTP
      400 "Invalid id") and an identity that resolves to nothing (HTTP 404). */
  datatype Error = InvalidId | NotFound

  /** The store's identity parser; `None` for a string it rejects. */
  type IdParser = string -> Option<Oid>

  /** A menu item as read back from the catalog store, where any field may
      be absent. */
  datatype MenuDoc = MenuDoc(
    name: Option<string>,
    price: Option<real>,
    gstRate: Option<real>,
    isAvailable: Option<bool>)

  /** The document the catalog holds for a menu item it was given. */
  function Document(m: MenuItem): (d: MenuDoc) {
    MenuDoc(Some(m.name), Some(m.price), Some(m.gstRate), Some(m.isAvailable))
  }

  /** Unit price read from a catalog document, 0 when absent. */
  function PriceOf(d: MenuDoc): (price: real) {
    d.price.GetOr(0.0)
  }

  /** GST rate read from a catalog document, 0 when absent. */
  function GstOf(d: MenuDoc): (rate: real) {
    d.gstRate.GetOr(0.0)
  }

  predicate ValidDoc(d: MenuDoc) {
    PriceOf(d) >= 0.0 && 0.0 <= GstOf(d) <= MaxGstRate
  }

  predicate ValidMenu(menu: map<Oid, MenuDoc>) {
    forall k :: k in menu ==> ValidDoc(menu[k])
  }

  predicate ValidRequests(reqs: seq<OrderItem>) {
    forall i :: 0 <= i < |reqs| ==> ValidOrderItem(reqs[i])
  }

  /** A menu item stored in the catalog reads back with its own name, price
      and rate, and within bounds when the item is. */
  lemma DocumentReadsBack(m: MenuItem)
    ensures Document(m).name == Some(m.name)
    ensures PriceOf(Document(m)) == m.price && GstOf(Document(m)) == m.gstRate
    ensures ValidMenuItem(m) ==> ValidDoc(Document(m))
  {
  }

  /** Why one requested line cannot be priced, if it cannot: its identity
      string is malformed, or no catalog item has that identity. */
  function LineError(req: OrderItem, menu: map<Oid, MenuDoc>, toOid: IdParser): (r: Option<Error>)
    ensures r == Some(InvalidId) <==> toOid(req.menuItemId).None?
    ensures r == Some(NotFound) <==> toOid(req.menuItemId).Some? && toOid(req.menuItemId).value !in menu
    ensures r == None <==> toOid(req.menuItemId).Some? && toOid(req.menuItemId).value in menu
  {
    match toOid(req.menuItemId)
    case None => Some(InvalidId)
    case Some(oid) => if oid in menu then None else Some(NotFound)
  }

  predicate AllResolve(reqs: seq<OrderItem>, menu: map<Oid, MenuDoc>, toOid: IdParser) {
    forall i :: 0 <= i < |reqs| ==> LineError(reqs[i], menu, toOid) == None
  }

  /** `e` is the failure of the first line that cannot be priced. */
  predicate IsFirstError(reqs: seq<OrderItem>, menu: map<Oid, MenuDoc>, toOid: IdParser, e: Error) {
    exists i :: 0 <= i < |reqs| && LineError(reqs[i], menu, toOid) == Some(e) && AllResolve(reqs[..i], menu, toOid)
  }

  /** The catalog document a resolvable line refers to. */
  function Resolved(req: OrderItem, menu: map<Oid, MenuDoc>, toOid: IdParser): (mi: MenuDoc)
    requires LineError(req, menu, toOid) == None
  {
    menu[toOid(req.menuItemId).value]
  }

  /** The frozen snapshot of one line: identity, quantity and notes from the
      request; name, unit price and GST rate from the catalog document. */
  function Snapshot(req: OrderItem, mi: MenuDoc): (line: OrderItem)
    ensures PricedLine(line) <==> ValidDoc(mi) && ValidOrderItem(req)
  {
    OrderItem(req.menuItemId, mi.name, Some(PriceOf(mi)), req.quantity, req.notes, Some(GstOf(mi)))
  }

  /** Whether a catalog item is marked available plays no part in pricing. */
  lemma AvailabilityIgnored(req: OrderItem, mi: MenuDoc, available: Option<bool>)
    ensures Snapshot(req, mi.(isAvailable := available)) == Snapshot(req, mi)
  {
  }

  /** The snapshots of all lines of a resolvable request list, in order. */
  function Snapshots(reqs: seq<OrderItem>, menu: map<Oid, MenuDoc>, toOid: IdParser): (lines: seq<OrderItem>)
    requires AllResolve(reqs, menu, toOid)
    ensures |lines| == |reqs|
  {
    if reqs == [] then []
    else
      var last := reqs[|reqs| - 1];
      Snapshots(reqs[..|reqs| - 1], menu, toOid) + [Snapshot(last, Resolved(last, menu, toOid))]
  }

  function LineSubtotal(l: OrderItem): (amount: real) {
    l.price.GetOr(0.0) * l.quantity as real
  }

  function LineTax(l: OrderItem): (amount: real) {
    LineSubtotal(l) * l.gstRate.GetOr(0.0)
  }

  /** Sum of price times quantity over the lines; 0 for no lines. */
  function Subtotal(lines: seq<OrderItem>): (sum: real)
    ensures lines == [] ==> sum == 0.0
  {
    if lines == [] then 0.0 else Subtotal(lines[..|lines| - 1]) + LineSubtotal(lines[|lines| - 1])
  }

  /** Sum of price times quantity times GST rate over the lines; 0 for no lines. */
  function TaxTotal(lines: seq<OrderItem>): (sum: real)
    ensures lines == [] ==> sum == 0.0
  {
    if lines == [] then 0.0 else TaxTotal(lines[..|lines| - 1]) + LineTax(lines[|lines| - 1])
  }

  /** One more line adds its own amount and tax to the two sums. */
  lemma SumsAppend(lines: seq<OrderItem>, line: OrderItem)
    ensures Subtotal(lines + [line]) == Subtotal(lines) + LineSubtotal(line)
    ensures TaxTotal(lines + [line]) == TaxTotal(lines) + LineTax(line)
  {
    assert (lines + [line])[..|lines|] == lines;
  }

  /** Resolving one more line extends the snapshots by that line's snapshot. */
  lemma SnapshotsStep(reqs: seq<OrderItem>, i: int, menu: map<Oid, MenuDoc>, toOid: IdParser)
    requires 0 <= i < |reqs|
    requires AllResolve(reqs[..i], menu, toOid) && LineError(reqs[i], menu, toOid) == None
    ensures AllResolve(reqs[..i + 1], menu, toOid)
    ensures Snapshots(reqs[..i + 1], menu, toOid)
      == Snapshots(reqs[..i], menu, toOid) + [Snapshot(reqs[i], Resolved(reqs[i], menu, toOid))]
  {
    assert reqs[..i + 1][..i] == reqs[..i];
  }

  /** The priced lines of a request list and their sums before discount. */
  datatype Expansion = Expansion(lines: seq<OrderItem>, subtotal: real, taxTotal: real)

  /** The pricing loop: resolves the lines one by one, stopping at the first
      one that cannot be resolved, and accumulates the two sums. */
  method ExpandItems(reqs: seq<OrderItem>, menu: map<Oid, MenuDoc>, toOid: IdParser)
    returns (r: Result<Expansion, Error>)
    ensures r.Failure? <==> !AllResolve(reqs, menu, toOid)
    ensures r.Failure? ==> IsFirstError(reqs, menu, toOid, r.error)
    ensures r.Success? ==> r.value.lines == Snapshots(reqs, menu, toOid)
    ensures r.Success? ==> r.value.subtotal == Subtotal(r.value.lines)
    ensures r.Success? ==> r.value.taxTotal == TaxTotal(r.value.lines)
  {
    var subtotal := 0.0;
    var taxTotal := 0.0;
    var expanded: seq<OrderItem> := [];
    var i := 0;
    while i < |reqs|
      invariant 0 <= i <= |reqs|
      invariant AllResolve(reqs[..i], menu, toOid)
      invariant expanded == Snapshots(reqs[..i], menu, toOid)
      invariant subtotal == Subtotal(expanded) && taxTotal == TaxTotal(expanded)
    {
      var oi := reqs[i];
      var oid := toOid(oi.menuItemId);
      if oid.None? {
        return Failure(InvalidId);
      }
      if oid.value !in menu {
        return Failure(NotFound);
      }
      var mi := menu[oid.value];
      var unitPrice := PriceOf(mi);
      var lineSubtotal := unitPrice * oi.quantity as real;
      var gstRate := GstOf(mi);
      var lineTax := lineSubtotal * gstRate;
      subtotal := subtotal + lineSubtotal;
      taxTotal := taxTotal + lineTax;
      var line := OrderItem(oi.menuItemId, mi.name, Some(unitPrice), oi.quantity, oi.notes, Some(gstRate));
      assert line == Snapshot(oi, mi);
      SnapshotsStep(reqs, i, menu, toOid);
      assert LineSubtotal(line) == lineSubtotal && LineTax(line) == lineTax;
      SumsAppend(expanded, line);
      expanded := expanded + [line];
      i := i + 1;
    }
    assert reqs[..i] == reqs;
    return Success(Expansion(expanded, subtotal, taxTotal));
  }

  /** Line `i` of the snapshot list is the snapshot of request `i`: same
      length, same order, each field copied from the request or the catalog. */
  lemma {:induction false} SnapshotsAt(reqs: seq<OrderItem>, menu: map<Oid, MenuDoc>, toOid: IdParser, i: int)
    requires AllResolve(reqs, menu, toOid)
    requires 0 <= i < |reqs|
    ensures |Snapshots(reqs, menu, toOid)| == |reqs|
    ensures var line, mi := Snapshots(reqs, menu, toOid)[i], menu[toOid(reqs[i].menuItemId).value];
      && line.menuItemId == reqs[i].menuItemId
      && line.quantity == reqs[i].quantity
      && line.notes == reqs[i].notes
      && line.name == mi.name
      && line.price == Some(PriceOf(mi))
      && line.gstRate == Some(GstOf(mi))
  {
    var init := reqs[..|reqs| - 1];
    assert AllResolve(init, menu, toOid) by {
      forall j | 0 <= j < |init| ensures LineError(init[j], menu, toOid) == None {
        assert init[j] == reqs[j];
      }
    }
    if i < |reqs| - 1 {
      assert init[i] == reqs[i];
      SnapshotsAt(init, menu, toOid, i);
    }
  }

  /** A line whose snapshot carries a price, a rate and a quantity within
      the catalog's and the request's bounds. */
  predicate PricedLine(l: OrderItem) {
    && l.price.Some? && l.price.value >= 0.0
    && l.gstRate.Some? && 0.0 <= l.gstRate.value <= MaxGstRate
    && l.quantity >= 1
  }

  /** Lines priced from a catalog within bounds, for requests within bounds,
      are themselves within bounds. */
  lemma SnapshotsPriced(reqs: seq<OrderItem>, menu: map<Oid, MenuDoc>, toOid: IdParser)
    requires AllResolve(reqs, menu, toOid) && ValidMenu(menu) && ValidRequests(reqs)
    ensures forall i :: 0 <= i < |Snapshots(reqs, menu, toOid)| ==> PricedLine(Snapshots(reqs, menu, toOid)[i])
  {
    var lines := Snapshots(reqs, menu, toOid);
    forall i | 0 <= i < |lines| ensures PricedLine(lines[i]) {
      SnapshotsAt(reqs, menu, toOid, i);
      assert ValidOrderItem(reqs[i]);
    }
  }

  lemma LineBounds(l: OrderItem)
    requires PricedLine(l)
    ensures 0.0 <= LineSubtotal(l)
    ensures 0.0 <= LineTax(l) <= MaxGstRate * LineSubtotal(l)
  {
    var p, q, g := l.price.value, l.quantity as real, l.gstRate.value;
    assert 0.0 <= p * q;
    assert p * q * g <= p * q * MaxGstRate;
  }

  /** Over lines within bounds, the subtotal is non-negative and the tax
      total lies between 0 and 28% of the subtotal. */
  lemma {:induction false} SumsBounded(lines: seq<OrderItem>)
    requires forall i :: 0 <= i < |lines| ==> PricedLine(lines[i])
    ensures 0.0 <= Subtotal(lines)
    ensures 0.0 <= TaxTotal(lines) <= MaxGstRate * Subtotal(lines)
  {
    if lines != [] {
      var init := lines[..|lines| - 1];
      assert forall i :: 0 <= i < |init| ==> init[i] == lines[i];
      SumsBounded(init);
      LineBounds(lines[|lines| - 1]);
    }
  }

  /** One more line at rate `g` keeps the tax total at `g` times the subtotal. */
  lemma UniformStep(subtotal: real, taxTotal: real, lineAmount: real, g: real)
    requires taxTotal == g * subtotal
    ensures taxTotal + lineAmount * g == g * (subtotal + lineAmount)
  {
  }

  lemma {:induction false} UniformRateSums(lines: seq<OrderItem>, g: real)
    requires forall i :: 0 <= i < |lines| ==> lines[i].gstRate == Some(g)
    ensures TaxTotal(lines) == g * Subtotal(lines)
  {
    if lines != [] {
      var init := lines[..|lines| - 1];
      var last := lines[|lines| - 1];
      assert forall i :: 0 <= i < |init| ==> init[i] == lines[i];
      UniformRateSums(init, g);
      UniformStep(Subtotal(init), TaxTotal(init), LineSubtotal(last), g);
    }
  }

  lemma CancelFactor(x: real, y: real, s: real)
    requires s != 0.0 && x * s == y * s
    ensures x == y
  {
    assert (x - y) * s == 0.0;
  }

  /** A tax total of `g` times a non-zero subtotal is recomputed after any
      discount as `g` times the discounted subtotal. */
  lemma UniformRatio(subtotal: real, taxTotal: real, g: real, discount: real)
    requires subtotal != 0.0 && taxTotal == g * subtotal
    ensures TaxRatio(subtotal, taxTotal) == g
    ensures ApplyDiscount(subtotal, taxTotal, discount).taxTotal == g * ApplyDiscount(subtotal, taxTotal, discount).subtotal
  {
    CancelFactor(TaxRatio(subtotal, taxTotal), g, subtotal);
  }

  /** When every line has the same rate `g`, the tax total is `g` times the
      subtotal, and for a non-zero subtotal the tax ratio is `g`, so the tax
      recomputed after any discount is `g` times the discounted subtotal, as
      taxing each discounted line on its own would give. */
  lemma {:induction false} UniformRate(lines: seq<OrderItem>, g: real, discount: real)
    requires forall i :: 0 <= i < |lines| ==> lines[i].gstRate == Some(g)
    ensures TaxTotal(lines) == g * Subtotal(lines)
    ensures Subtotal(lines) != 0.0 ==> TaxRatio(Subtotal(lines), TaxTotal(lines)) == g
    ensures Subtotal(lines) != 0.0 ==>
      ApplyDiscount(Subtotal(lines), TaxTotal(lines), discount).taxTotal
        == g * ApplyDiscount(Subtotal(lines), TaxTotal(lines), discount).subtotal
  {
    UniformRateSums(lines, g);
    var s, t := Subtotal(lines), TaxTotal(lines);
    if s != 0.0 {
      UniformRatio(s, t, g, discount);
    }
  }

  /** The three figures of a bill. */
  datatype Totals = Totals(subtotal: real, taxTotal: real, grandTotal: real)

  /** Tax as a fraction of the subtotal; 0 for a zero subtotal, so that no
      division by zero occurs. */
  function TaxRatio(subtotal: real, taxTotal: real): (ratio: real)
    ensures subtotal == 0.0 ==> ratio == 0.0
    ensures subtotal != 0.0 ==> ratio * subtotal == taxTotal
  {
    if subtotal == 0.0 then 0.0 else taxTotal / subtotal
  }

  /** The unrounded figures after the discount: the discount is taken off
      the subtotal (never below 0), and the tax is recomputed on what is
      left at the ratio of tax to subtotal before the discount. */
  function ApplyDiscount(subtotal: real, taxTotal: real, discount: real): (t: Totals)
    ensures t.subtotal >= 0.0 && t.subtotal >= subtotal - discount
    ensures t.subtotal == 0.0 || t.subtotal == subtotal - discount
    ensures subtotal == 0.0 ==> t.taxTotal == 0.0
    ensures t.grandTotal == t.subtotal + t.taxTotal
  {
    var afterDiscount := Max(0.0, subtotal - discount);
    var taxDiscounted := afterDiscount * TaxRatio(subtotal, taxTotal);
    Totals(afterDiscount, taxDiscounted, afterDiscount + taxDiscounted)
  }

  /** The three figures rounded to two decimal places. */
  function Rounded(t: Totals): (r: Totals)
    ensures InCents(r.subtotal) && InCents(r.taxTotal) && InCents(r.grandTotal)
    ensures t.subtotal - 0.005 <= r.subtotal <= t.subtotal + 0.005
    ensures t.taxTotal - 0.005 <= r.taxTotal <= t.taxTotal + 0.005
    ensures t.grandTotal - 0.005 <= r.grandTotal <= t.grandTotal + 0.005
  {
    Totals(Round2(t.subtotal), Round2(t.taxTotal), Round2(t.grandTotal))
  }

  /** Whatever the discount, even a negative one, the discounted subtotal is
      never negative: it is the subtotal less the discount when that is
      positive and 0 otherwise; a discount reaching the subtotal zeroes all
      three figures. */
  lemma DiscountClamped(subtotal: real, taxTotal: real, discount: real)
    ensures var t := ApplyDiscount(subtotal, taxTotal, discount);
      && t.subtotal >= 0.0
      && (discount < subtotal ==> t.subtotal == subtotal - discount)
      && (discount >= subtotal ==> t == Totals(0.0, 0.0, 0.0))
      && t.grandTotal == t.subtotal + t.taxTotal
  {
  }

  /** A zero subtotal gives a zero tax ratio and no tax. */
  lemma ZeroSubtotal(taxTotal: real, discount: real)
    ensures TaxRatio(0.0, taxTotal) == 0.0
    ensures var t := ApplyDiscount(0.0, taxTotal, discount);
      t.taxTotal == 0.0 && t.grandTotal == t.subtotal
  {
  }

  /** The tax is recomputed proportionally: the discounted tax stands to the
      discounted subtotal as the tax total stands to the subtotal. */
  lemma ProportionalTax(subtotal: real, taxTotal: real, discount: real)
    requires subtotal != 0.0
    ensures var t := ApplyDiscount(subtotal, taxTotal, discount);
      t.taxTotal * subtotal == t.subtotal * taxTotal
  {
    var t := ApplyDiscount(subtotal, taxTotal, discount);
    var ratio := taxTotal / subtotal;
    assert ratio * subtotal == taxTotal;
    calc {
      t.taxTotal * subtotal;
      (t.subtotal * ratio) * subtotal;
      t.subtotal * (ratio * subtotal);
    }
  }

  /** Without a discount the figures are the plain sums. */
  lemma NoDiscount(subtotal: real, taxTotal: real)
    requires subtotal >= 0.0
    ensures ApplyDiscount(subtotal, taxTotal, 0.0) == Totals(subtotal, if subtotal == 0.0 then 0.0 else taxTotal, subtotal + if subtotal == 0.0 then 0.0 else taxTotal)
  {
    if subtotal != 0.0 {
      assert taxTotal / subtotal * subtotal == taxTotal;
    }
  }

  /** With the tax total between 0 and 28% of the subtotal, the ratio lies
      in [0, 0.28], and the grand total lies between the discounted subtotal
      and 1.28 times it. */
  lemma TotalsBounded(subtotal: real, taxTotal: real, discount: real)
    requires 0.0 <= taxTotal <= MaxGstRate * subtotal
    ensures 0.0 <= TaxRatio(subtotal, taxTotal) <= MaxGstRate
    ensures var t := ApplyDiscount(subtotal, taxTotal, discount);
      && 0.0 <= t.taxTotal
      && t.subtotal <= t.grandTotal <= (1.0 + MaxGstRate) * t.subtotal
  {
    var ratio := TaxRatio(subtotal, taxTotal);
    if subtotal != 0.0 {
      assert subtotal > 0.0;
      assert ratio * subtotal == taxTotal;
      assert (ratio - MaxGstRate) * subtotal <= 0.0;
    }
    var a := Max(0.0, subtotal - discount);
    assert 0.0 <= a * ratio <= a * MaxGstRate;
  }

  /** Rounding keeps the figures non-negative and the grand total no
      smaller than the subtotal. */
  lemma RoundedBounded(t: Totals)
    requires 0.0 <= t.subtotal && 0.0 <= t.taxTotal && t.subtotal <= t.grandTotal
    ensures var r := Rounded(t);
      0.0 <= r.subtotal <= r.grandTotal && 0.0 <= r.taxTotal
  {
    Round2Monotonic(t.subtotal, t.grandTotal);
  }

  /** Any resolvable request list, priced against a catalog within bounds,
      gives a tax total of at most 28% of the subtotal, and so non-negative
      rounded figures with the grand total between the subtotal and 1.28
      times it before rounding. */
  lemma PricingBounded(reqs: seq<OrderItem>, menu: map<Oid, MenuDoc>, toOid: IdParser, discount: real)
    requires AllResolve(reqs, menu, toOid) && ValidMenu(menu) && ValidRequests(reqs)
    ensures var lines := Snapshots(reqs, menu, toOid);
      var t := ApplyDiscount(Subtotal(lines), TaxTotal(lines), discount);
      && 0.0 <= TaxRatio(Subtotal(lines), TaxTotal(lines)) <= MaxGstRate
      && t.subtotal <= t.grandTotal <= (1.0 + MaxGstRate) * t.subtotal
      && 0.0 <= Rounded(t).subtotal <= Rounded(t).grandTotal && 0.0 <= Rounded(t).taxTotal
  {
    var lines := Snapshots(reqs, menu, toOid);
    SnapshotsPriced(reqs, menu, toOid);
    SumsBounded(lines);
    TotalsBounded(Subtotal(lines), TaxTotal(lines), discount);
    DiscountClamped(Subtotal(lines), TaxTotal(lines), discount);
    RoundedBounded(ApplyDiscount(Subtotal(lines), TaxTotal(lines), discount));
  }
}
