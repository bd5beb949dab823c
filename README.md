# Checkout bookkeeping of a small retail shop

This project models the checkout core of a small Java shop (`Main.java`).
Products have a name, a unit price and a stock counter. Each product also
has two facets. The expiry facet says whether and when the product expires.
The shipping facet says whether the product is shipped and how much it
weighs. The four combinations of the facets are the shop's four product
classes.

A cart is an ordered list of lines. Each line holds a product and a
requested quantity. A customer has a wallet. Checkout walks the cart lines
in order. It stops at the first line whose product has expired or whose
stock is short of the line's quantity. Each line that passes lowers its
product's stock in place, adds its line price (unit price times quantity)
to the subtotal, and, if its
product is shipped, adds a flat fee of 15 and puts the product on the
shipment. After the loop the customer is charged subtotal plus shipping.
Nothing is rolled back. Stock lowered by earlier lines stays lowered when a
later line fails or when the wallet cannot pay.

The model is imperative where the source is:

- `Product`, `Cart` and `Customer` are classes whose methods update their fields.
- The checkout loop is the method `CheckoutService.ProcessLines`, which `CheckoutService.Checkout` calls; `ShippingService.Ship` is a method with its summing loop.
- The methods are proved against pure specification functions in
  `CheckoutSpec`: the first failing line, the units requested per product,
  the subtotal, the shipping charge and the shipment. Lemmas about those
  functions state the properties of the checkout code.

The specification is written over the stock each product had when checkout
began. The stock line `k` sees is the initial stock less what the passing
lines before `k` took of the same product. A product that appears on several
lines is therefore checked, at the later line, against the stock the earlier
lines left. `Cart.Add` checks only the product's current stock and ignores
units of the same product already in the cart.

Units and representations:

- Money (prices, fees, wallet) is an `int`; the source uses `double`.
- Weights are `real`.
- An instant is an `int`; a product with expiry date `d` is expired at `now` exactly when `now > d`.
- The failure exceptions become the `Error` datatype. A checkout failure records the index of the cart line it stopped at.

Facts about the code that the model keeps as they are:

- The code does not keep a stock count or a wallet non-negative. A product
  may be created with negative stock, and a customer with a negative wallet.
- `Cart.add` accepts a zero or negative quantity. At checkout a line with
  quantity `q < 0` passes the stock check whenever the stock it sees is at
  least `q`; it then adds `-q` to the stock and `price * q` to the subtotal.
- The model keeps these behaviours. Non-negativity is proved only where the
  code guarantees it: a deduction never takes a non-negative wallet below
  zero, and checkout never takes a non-negative stock below zero.

## Model

| member | source | states |
|---|---|---|
| `Products.Product.Plain` | Main.java:10-48 | a product with the base class's behaviour (the plain variant of Main.java:102-106): it never expires, is not shipped and weighs 0 |
| `Products.Product.Expirable` | Main.java:50-62 | an expirable product is expired at `now` exactly when `now` is after its expiry date; it is not shipped and weighs 0 |
| `Products.Product.Shippable` | Main.java:64-81 | a shippable product never expires, requires shipping and weighs the given weight |
| `Products.Product.ExpirableShippable` | Main.java:83-100 | expires after its date, requires shipping and weighs the given weight |
| `Products.Product.IsExpired` | Main.java:58-61 | a product can only be expired if it has an expiry date, and only strictly after that date |
| `Products.Product.Weight` | Main.java:45-47 | a product that is not shipped has weight 0 |
| `Products.Product.ReduceQuantity` | Main.java:33-35 | stock drops by exactly the given amount, with no check of its own |
| `Carts.Cart.constructor` | Main.java:131 | a new cart has no lines |
| `Carts.Cart.Add` | Main.java:133-138 | fails with InsufficientStockOnAdd and leaves the lines unchanged exactly when current stock is below `qty`; otherwise appends exactly one line (product, qty) after the existing lines |
| `Customers.Customer.constructor` | Main.java:153-156 | a new customer holds the given name and wallet |
| `Customers.Customer.Deduct` | Main.java:166-172 | fails with InsufficientFunds and keeps the wallet exactly when the wallet is below the amount; otherwise takes exactly the amount; a non-negative wallet stays non-negative |
| `ShippingService.Ship` | Main.java:176-184 | the reported total weight is the sum of the parcels' weights, one per parcel |
| `CheckoutSpec.FirstFailureFrom` | Main.java:198-209 | scanning from a given line, the result is the first line at or after it that is expired or short of stock, or the end of the cart when none is |
| `CheckoutSpec.FirstFailure` | Main.java:198-209 | the stop line: every line before it passes both checks, and the stop line itself is expired or short of stock, or there is no stop line |
| `CheckoutSpec.Shipment` | Main.java:214-216 | the shipment has at most one parcel per line, every parcel requires shipping, and every shipped line's product is in it |
| `CheckoutSpec.ShippedLines` | Main.java:214-215 | the indices of exactly the shipped lines, strictly increasing |
| `CheckoutSpec.ShipmentInCartOrder` | Main.java:214-215 | entry `j` of the shipment is the product of the `j`-th shipped line: one entry per shipped line, in cart order |
| `CheckoutSpec.AppendLine` | Main.java:211-217 | one more line at the end of the cart adds exactly its quantity to its product's request, its line price to the subtotal, the fee to the shipping charge and its product to the shipment when it is shipped, and nothing else |
| `CheckoutSpec.RequestedAbsent` | Main.java:211 | stock of a product named on no processed line is untouched |
| `CheckoutSpec.RequestedSingleLine` | Main.java:211 | a product named on exactly one line loses exactly that line's quantity |
| `CheckoutSpec.StockNeverNegative` | Main.java:206-211 | at every step up to the stop line, the stock of a product that started non-negative is still non-negative, including when it repeats across lines |
| `CheckoutSpec.ShippingFeePerParcel` | Main.java:214-217 | the shipping charge is 15 times the number of parcels shipped |
| `CheckoutSpec.ShipmentIgnoresQuantities` | Main.java:214-216 | the shipment depends on the lines' products only, not on their quantities |
| `CheckoutSpec.ShipmentWeightPerLine` | Main.java:178-182 | the shipment weighs one product weight per cart line, not weight times quantity |
| `CheckoutService.ProcessLines` | Main.java:194-218 | the loop stops at the first failing line; each product's stock falls by what the lines before the stop requested of it; subtotal, shipping and collected parcels are the sums over those lines |
| `CheckoutService.Checkout` | Main.java:188-226 | empty cart fails with EmptyCart, changing nothing; a failing line yields ProductExpired or OutOfStock for that line, with the wallet unchanged and the earlier lines' stock reductions kept; when all lines pass, the wallet drops by exactly subtotal + shipping and the receipt carries those figures, the shipment in cart order and its weight, or the payment fails with InsufficientFunds, the wallet unchanged and the stock still lowered |
| `Scenarios.DemoTotals` | Main.java:249-261 | the demonstration cart has subtotal 400, shipping 15 and a shipment of the cheese alone |
| `Scenarios.DemoCartFigures` | Main.java:249-261 | the demonstration cart passes every line, with subtotal 400, shipping 15, a single cheese parcel weighing 0.4 and 2 cheese requested |
| `Scenarios.DemoCheckout` | Main.java:242-265 | the demonstration checkout succeeds with total 415 and balance 585, and leaves 3 cheese |
| `Scenarios.AliasedCartFigures` | Main.java:206-211 | two lines of 2 on a product with stock 3: the first passes, the second sees stock 1 and fails |
| `Scenarios.AliasedCheckout` | Main.java:133-138 | both lines are accepted by the cart; checkout fails with OutOfStock at line 1, leaves stock 1 and keeps the wallet |
| `Scenarios.SingleShippedLineFigures` | Main.java:211-220 | one shipped line at 3000 passes and totals 3015 |
| `Scenarios.UnpaidCheckout` | Main.java:220-222 | a wallet of 1000 fails with InsufficientFunds, is kept, and the stock stays lowered |
| `Scenarios.ExpiredSecondLineFigures` | Main.java:198-204 | a passing plain line followed by an expired line stops at the expired line |
| `Scenarios.ExpiredCheckout` | Main.java:201-204 | checkout fails with ProductExpired at line 1 and the first line's scratch card is not put back |

The getters (`getName`, `getPrice`, `getQuantity`, `getProduct`,
`getItems`, `getBalance`) are plain field reads. `requiresShipping` is the
`RequiresShipping` predicate on the shipping facet, and `getTotalPrice` is
`CartItem.TotalPrice`, used by `Subtotal`. `Cart.isEmpty` is the
`items == []` test at the start of `Checkout`.

## Left out

- Console output is not modelled: the shipment notice, the receipt lines and the error messages (Main.java:177-183, 190, 202, 207, 229-237). `Receipt` carries the subtotal, shipping, total, remaining balance, the parcels and their weight; the per-line receipt entries (Main.java:230-232) are not part of it.
- The wall clock is not modelled. The source reads it at every `isExpired` call; the model takes one instant `now` for the whole checkout.
- `double` rounding is not modelled. Money is an exact integer and weights are exact reals.
- Java's 32-bit `int` wrap-around of stock counts and quantities is not modelled; they are unbounded integers.
- The `(Shippable)` cast at Main.java:215 is replaced by the shipping facet, which every shipped product has.
- `Main.main` (Main.java:242-265) is demo wiring; `Scenarios.DemoCheckout` replays its session.
- Exceptions are not modelled as control flow; each failure is an `Error` value returned to the caller.
- Customer and product names play no part in the logic and are only stored.
