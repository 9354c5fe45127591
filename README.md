# Restaurant billing: order pricing and order lifecycle

This project models the order engine of a restaurant bill-printing backend.
It covers:

- **Pricing.** Creating an order resolves each requested line (a menu-item
  identity, a quantity and a note) against the menu catalog. It freezes a
  snapshot of the item's name, unit price and GST rate into the line. It sums
  price × quantity and price × quantity × GST rate. It takes the discount off
  the subtotal, never going below 0, and recomputes the tax on what is left at
  the old ratio of tax to subtotal. Finally it rounds the three figures to two
  decimals and stores a pending order with no payments. One bad line fails
  the whole request and stores nothing.
- **Lifecycle.** A stored order's status can be overwritten, a payment can be
  appended, the bill can be read back unchanged, and a report sums the grand
  totals and counts all stored orders.

Money is `real`, so the arithmetic is exact. `Money.Round2` is Python's
`round(x, 2)` on exact decimal values: nearest hundredth, with ties going to the
even hundredth. The store's identity parser (`ObjectId`) is a parameter of type
`string -> Option<Oid>`; `None` is the "Invalid id" failure. The catalog and
the orders are maps held by the `Orders.Database` class. The pricing loop is
`Pricing.ExpandItems`. It changes no state and is proved against the
specification functions `Snapshots`, `Subtotal` and `TaxTotal`.

Behaviour of the code worth noting, which the model reproduces:

- The status update accepts any string, because `OrderStatusUpdate.status` is
  a plain `str`. It is not limited to the five statuses.
  `Orders.StatusKeepsValidity` shows that a valid order stays valid exactly
  when the new status is one of the five.
- A pushed payment is not checked against the `Payment` bounds, because
  `PaymentIn` has neither the method enumeration nor `amount >= 0`.
  `Orders.PaymentKeepsValidity` shows the same "valid exactly when" result.
- The discount is not validated and may be negative. An empty cart therefore
  has zero figures only for a discount of at least 0.
- Fields missing from a catalog document read as price 0 and GST rate 0
  (main.py:118, 120), not as the schema's 0.05 default. The `is_available`
  flag is ignored.

Modules:

- `Wrappers`: Option and Result.
- `Money`: rounding.
- `Schemas`: the records of schemas.py, with their bounds, enumerations and
  defaults.
- `Pricing`: the pricing loop and the discount and tax arithmetic.
- `Orders`: the store and its operations.

## Model

| member | source | states |
|---|---|---|
| `Money.Round2Zero` | main.py:143-145 | Rounding 0 gives 0. |
| `Money.Max` | main.py:133 | The larger of the two amounts: at least each of them and equal to one of them. |
| `Money.Round2` | main.py:143-145 | The result is a whole number of cents, within half a cent of the input, and not negative when the input is not. |
| `Money.Round2Monotonic` | main.py:143-145 | Rounding preserves order: x ≤ y implies round(x) ≤ round(y). |
| `Money.Round2Exact` | main.py:201 | An amount in whole cents rounds to itself. |
| `Money.Round2Idempotent` | main.py:143-145 | Rounding an already-rounded amount changes nothing. |
| `Money.CentsSum` | main.py:197 | A sum of two whole-cent amounts is a whole-cent amount. |
| `Schemas.MenuItemDefaults` | schemas.py:9-15 | A menu item defaults to GST rate 0.05 and available. It is valid exactly when its price is ≥ 0. |
| `Schemas.PaymentDefaults` | schemas.py:38-41 | The default payment is cash, amount 0, and it is valid. |
| `Schemas.OrderDefaults` | schemas.py:43-53 | An order with defaults is pending, with zero totals and discount and no payments. It is valid exactly when its lines have quantity ≥ 1. |
| `Schemas.ValidMenuItem` | schemas.py:12-15 | Accepts a menu item whose price is ≥ 0 and whose GST rate lies in [0, 0.28]. |
| `Schemas.ValidOrderItem` | schemas.py:34 | Accepts an order line whose quantity is ≥ 1; the snapshot fields and notes are unconstrained. |
| `Schemas.ValidPayment` | schemas.py:39-40 | Accepts a payment whose method is one of the six values and whose amount is ≥ 0. |
| `Schemas.ValidOrder` | schemas.py:46-51 | Accepts an order whose status is one of the five values and whose lines and payments are all valid; the figures are unconstrained. |
| `Pricing.DocumentReadsBack` | main.py:118-126 | A stored menu item reads back with its own name, price and rate, and within bounds when the item is valid. |
| `Pricing.PriceOf` | main.py:118 | The unit price of a catalog document: its `price`, or 0 when the field is absent. |
| `Pricing.GstOf` | main.py:120 | The GST rate of a catalog document: its `gst_rate`, or 0 when the field is absent. |
| `Pricing.AvailabilityIgnored` | main.py:115-131 | A line's snapshot does not depend on the item's availability flag. |
| `Pricing.LineError` | main.py:115-117 | A line fails with InvalidId exactly when its identity does not parse, and with NotFound exactly when it parses to no catalog item. Otherwise it resolves. |
| `Pricing.Snapshot` | main.py:124-131 | The snapshot line is within bounds (price ≥ 0, rate in [0, 0.28], quantity ≥ 1) exactly when both the catalog document and the request are. |
| `Pricing.Subtotal` | main.py:109-122 | Σ price·qty over the lines; 0 for no lines. |
| `Pricing.TaxTotal` | main.py:110-123 | Σ price·qty·rate over the lines; 0 for no lines. |
| `Pricing.LineSubtotal` | main.py:119 | A line's unit price times its quantity, with an absent price read as 0. |
| `Pricing.LineTax` | main.py:121 | A line's subtotal times its GST rate, with an absent rate read as 0. |
| `Pricing.SumsAppend` | main.py:122-123 | One more line adds its own price·qty to the subtotal and its own price·qty·rate to the tax total. |
| `Pricing.Snapshots` | main.py:113-131 | There is one snapshot line per requested line. |
| `Pricing.SnapshotsAt` | main.py:124-131 | Line i copies identity, quantity and notes from request i, and name, price and GST rate from the catalog item it resolves to. The order is kept. |
| `Pricing.ExpandItems` | main.py:109-131 | Fails exactly when some line has a malformed identity or a missing item, with the failure of the first such line. Otherwise it returns the snapshots, Σ price·qty and Σ price·qty·rate. |
| `Pricing.SnapshotsPriced` | main.py:118-131 | With a catalog and requests within their bounds, every snapshot line has price ≥ 0, rate in [0, 0.28] and quantity ≥ 1. |
| `Pricing.LineBounds` | main.py:119-121 | A line within bounds has subtotal ≥ 0 and tax between 0 and 28% of that subtotal. |
| `Pricing.SumsBounded` | main.py:118-123 | Over lines within bounds, subtotal ≥ 0 and 0 ≤ tax total ≤ 0.28·subtotal. |
| `Pricing.UniformRatio` | main.py:135-136 | A tax total of g times a non-zero subtotal gives tax ratio g, and a discounted tax of g times the discounted subtotal, for any discount. |
| `Pricing.UniformRate` | main.py:119-136 | When every line has rate g, tax total = g·subtotal. For a non-zero subtotal, the tax ratio is g and the tax after any discount is g times the discounted subtotal, which is what per-line tax would give. |
| `Pricing.TaxRatio` | main.py:135 | The ratio is 0 for a zero subtotal. Otherwise ratio × subtotal gives back the tax total. |
| `Pricing.ApplyDiscount` | main.py:133-137 | The discounted subtotal is ≥ 0 and ≥ subtotal − discount, and equals one of the two. A zero subtotal gives no tax. Grand total = discounted subtotal + tax. |
| `Pricing.Rounded` | main.py:143-145 | Each of the three figures is a whole number of cents within half a cent of its unrounded value. |
| `Pricing.DiscountClamped` | main.py:133-137 | The discounted subtotal is ≥ 0 for any discount. It equals subtotal − discount when that is positive. A discount reaching the subtotal zeroes all three figures. Grand total = discounted subtotal + tax. |
| `Pricing.ZeroSubtotal` | main.py:135-137 | A zero subtotal gives tax ratio 0 and no tax, with no division. |
| `Pricing.ProportionalTax` | main.py:134-136 | Discounted tax : discounted subtotal = tax total : subtotal. |
| `Pricing.NoDiscount` | main.py:133-137 | With discount 0 and a subtotal ≥ 0, the discounted subtotal is the subtotal and the tax is the tax total (0 when the subtotal is 0). |
| `Pricing.TotalsBounded` | main.py:135-137 | With 0 ≤ tax ≤ 0.28·subtotal, the ratio lies in [0, 0.28] and discounted subtotal ≤ grand total ≤ 1.28·discounted subtotal. |
| `Pricing.RoundedBounded` | main.py:143-145 | Rounding keeps the figures ≥ 0 and grand total ≥ subtotal. |
| `Pricing.PricingBounded` | main.py:113-145 | For a valid catalog and valid requests, the ratio lies in [0, 0.28], the grand total bounds hold, and the stored figures are ≥ 0. |
| `Orders.NewOrder` | main.py:139-150 | The new order is pending, with no payments and the given lines. Its figures are whole cents, its subtotal is ≥ 0, and it is valid exactly when its lines have quantity ≥ 1. |
| `Orders.NewOrderShape` | main.py:139-150 | A new order is "pending" with no payments. It keeps the lines, table, customer, notes and the raw discount (not clamped). It holds the rounded discounted figures, and it is valid when its lines are. |
| `Orders.EmptyCart` | main.py:109-145 | An empty cart with discount ≥ 0 gives subtotal, tax and grand total of 0. |
| `Orders.DiscountWipesOut` | main.py:133-145 | A discount ≥ subtotal gives an order whose three figures are 0. |
| `Orders.WorkedExample` | main.py:118-145 | Two portions at 100 with 5% GST and discount 50 give 150, 7.5 and 157.5. |
| `Orders.SetStatus` | main.py:172 | The status becomes the given string. Every other field stays as it was. |
| `Orders.AppendPayment` | main.py:184-187 | The payment list grows by exactly one, with the old list as prefix and the given payment last. `updated_at` becomes null. Nothing else changes. |
| `Orders.StatusKeepsValidity` | main.py:167-172 | A valid order stays valid after the update exactly when the new status is one of the five values. |
| `Orders.PaymentKeepsValidity` | main.py:177-186 | A valid order stays valid after the push exactly when the payment is valid. |
| `Orders.PaymentTwice` | main.py:184-187 | The same payment pushed twice is recorded twice. There is no deduplication. |
| `Orders.StoredFiguresBounded` | main.py:139-157 | For a valid catalog and valid requests, the stored order has 0 ≤ subtotal ≤ grand total and tax ≥ 0, with the grand total in whole cents. A status change or a payment keeps the grand total. |
| `Orders.Revenue` | main.py:197 | The sum of grand totals over all stored orders; 0 for none, and ≥ 0 when no grand total is negative. |
| `Orders.RevenueRemove` | main.py:197 | The revenue sum counts each stored order's grand total once, whatever order it is taken in. |
| `Orders.RevenueInsert` | main.py:197 | Storing a new order adds its grand total to the revenue. |
| `Orders.RevenueReplace` | main.py:197 | Replacing an order by one with the same grand total leaves the revenue unchanged. This covers a status change, including to "cancelled", and a payment. |
| `Orders.RevenueInCents` | main.py:197-201 | When every stored grand total is in whole cents, so is their sum, and the report's rounding of it changes nothing. |
| `Orders.CentsStore` | main.py:143-157 | Every stored grand total is a whole number of cents, as order creation stores it. |
| `Orders.Database.Locate` | main.py:23-27 | An identity string fails with InvalidId exactly when it does not parse, and with NotFound exactly when it parses to no stored order. |
| `Orders.Database.CreateOrder` | main.py:106-157 | Fails exactly when some line cannot be resolved, with the first line's error, and leaves the store unchanged. Otherwise it stores the new order under the fresh identity, changes nothing else, and returns totals equal to the stored ones. A store whose grand totals are all whole cents stays so. |
| `Orders.Database.UpdateStatus` | main.py:170-175 | On an identity that is malformed or not stored, it fails and the store is unchanged. Otherwise only that order's status changes. A store whose grand totals are all whole cents stays so. |
| `Orders.Database.AddPayment` | main.py:182-190 | On an identity that is malformed or not stored, it fails and the store is unchanged. Otherwise only that order changes: one payment is appended and `updated_at` becomes null. A store whose grand totals are all whole cents stays so. |
| `Orders.Database.Bill` | main.py:204-210 | Fails as Locate does. Otherwise it returns the stored order exactly as stored, with nothing recomputed from the catalog. |
| `Orders.Database.SalesReport` | main.py:193-201 | Gives the order count and the rounded sum of grand totals over all orders, with no status filter. An empty store gives 0 and 0. When every stored grand total is whole cents, which creation, status changes and payments maintain, the reported revenue is the exact sum. |

## Left out

- HTTP routing, CORS, the `/` and `/test` endpoints and server startup are not modelled: they are I/O and configuration.
- Menu, inventory and customer create/list and `list_orders` are left out. They are thin wrappers over the storage helpers, and database.py is not part of this model. `InventoryItem` and `Customer` are left out for the same reason.
- The storage layer is not modelled; only its observable effect on the two maps is. This covers query documents, `$set`/`$push` and the aggregation pipeline.
- The identity chosen for an insert is a parameter, assumed fresh.
- Whether the storage helper writes an `updated_at` field when it inserts an order is not known, because database.py is not part of this model. The model assumes a value and takes it as the parameter `stamp`.
- `OrderDoc.updatedAt`: `None` stands both for a missing `updated_at` field and for one set to null. After a payment the field is present and null (main.py:186), and the bill returns it that way; the model does not tell the two apart.
- `ObjectId` parsing is not modelled; the parser is a parameter. For order creation it is applied line by line inside the loop, so the first bad line decides between "Invalid id" and "not found".
- Bill retrieval returns the stored order but not the `_id` field turned into a string (main.py:209).
- Catalog `price` and `gst_rate` fields are assumed absent or numeric. A field present with a null value (`float(None)` raises TypeError, a 500 response) or a non-numeric string (ValueError) is not modelled. Documents written by menu item creation always meet the assumption.
- IEEE-754 floating point is not modelled. Money is exact `real`, and `Round2` rounds exact values, which is not Python's rounding of binary floats.
- The `ReportFilter` dates are accepted by the source but unused, so the report takes no filter argument.
- Request validation (quantity ≥ 1 and the other bounds) belongs to the request boundary. `CreateOrder` does not assume it; the lemmas that need the bounds state them as preconditions.
- Concurrent read-modify-write on the store is not modelled; every operation is one atomic step.
- `Orders.EmptyCart`: stated only for a discount ≥ 0. The source accepts a negative discount, and an empty cart then gets a positive subtotal of minus the discount.
- `Orders.Database.SalesReport`: a ghost function. The sum over an unordered map is defined by picking keys, and `Orders.RevenueRemove` shows the pick does not matter.
