/**
 * What one checkout does to a cart, stated over the stock each product had
 * when checkout began. Lines are processed in cart order; every line that
 * passes its checks takes its quantity from its product's stock, so a
 * product named on several lines is checked, at each later line, against the
 * stock the earlier lines left.
 */
module CheckoutSpec {
  import opened Products
  import opened Carts
  import opened ShippingService

  /** The fee charged once for every cart line whose product is shipped. */
  const FlatFee: int := 15

  /** Every line's product has an entry in `stock`. */
  predicate Stocked(lines: seq<CartItem>, stock: map<Product, int>) {
    forall k :: 0 <= k < |lines| ==> lines[k].product in stock
  }

  /** The units of `p` that the lines request, added up over every line naming `p`. */
  function Requested(lines: seq<CartItem>, p: Product): (units: int) {
    if lines == [] then 0
    else
      var last := lines[|lines| - 1];
      Requested(lines[..|lines| - 1], p) + (if last.product == p then last.quantity else 0)
  }

  /** The stock of `p` when line `k` is reached: the initial stock less what the lines before `k` took. */
  function StockSeen(lines: seq<CartItem>, stock: map<Product, int>, p: Product, k: nat): (units: int)
    requires p in stock && k <= |lines|
  {
    stock[p] - Requested(lines[..k], p)
  }

  /** Line `k` stops the checkout: its product has expired, or the stock it sees is short of its quantity. */
  predicate LineFails(lines: seq<CartItem>, now: int, stock: map<Product, int>, k: nat)
    requires Stocked(lines, stock) && k < |lines|
  {
    var line := lines[k];
    line.product.IsExpired(now) || StockSeen(lines, stock, line.product, k) < line.quantity
  }

  /** The first line at or after `from` that fails, or |lines| when none does. */
  function FirstFailureFrom(lines: seq<CartItem>, now: int, stock: map<Product, int>, from: nat): (n: nat)
    requires Stocked(lines, stock) && from <= |lines|
    ensures from <= n <= |lines|
    ensures forall k :: from <= k < n ==> !LineFails(lines, now, stock, k)
    ensures n < |lines| ==> LineFails(lines, now, stock, n)
    decreases |lines| - from
  {
    if from == |lines| then from
    else if LineFails(lines, now, stock, from) then from
    else FirstFailureFrom(lines, now, stock, from + 1)
  }

  /** The line at which checkout stops, or |lines| when every line passes. */
  function FirstFailure(lines: seq<CartItem>, now: int, stock: map<Product, int>): (n: nat)
    requires Stocked(lines, stock)
    ensures n <= |lines|
    ensures forall k :: 0 <= k < n ==> !LineFails(lines, now, stock, k)
    ensures n < |lines| ==> LineFails(lines, now, stock, n)
  {
    FirstFailureFrom(lines, now, stock, 0)
  }

  /** The sum of the line prices. */
  function Subtotal(lines: seq<CartItem>): (amount: int) {
    if lines == [] then 0
    else Subtotal(lines[..|lines| - 1]) + lines[|lines| - 1].TotalPrice()
  }

  /** The shipping charge, built up line by line: the flat fee for every shipped line. */
  function ShippingFee(lines: seq<CartItem>): (amount: int) {
    if lines == [] then 0
    else
      var last := lines[|lines| - 1];
      ShippingFee(lines[..|lines| - 1]) + (if last.product.RequiresShipping() then FlatFee else 0)
  }

  /** The products to ship, in cart order, one entry for every line whose product is shipped. */
  function Shipment(lines: seq<CartItem>): (parcels: seq<Product>)
    ensures |parcels| <= |lines|
    ensures forall j :: 0 <= j < |parcels| ==> parcels[j].RequiresShipping()
    ensures forall k :: 0 <= k < |lines| && lines[k].product.RequiresShipping() ==> lines[k].product in parcels
  {
    if lines == [] then []
    else
      var last := lines[|lines| - 1];
      Shipment(lines[..|lines| - 1]) + (if last.product.RequiresShipping() then [last.product] else [])
  }

  /** The indices of the lines whose product is shipped, in increasing order, each shipped line once. */
  function ShippedLines(lines: seq<CartItem>): (idx: seq<nat>)
    ensures forall j :: 0 <= j < |idx| ==> idx[j] < |lines| && lines[idx[j]].product.RequiresShipping()
    ensures forall j, j' :: 0 <= j < j' < |idx| ==> idx[j] < idx[j']
    ensures forall k :: 0 <= k < |lines| && lines[k].product.RequiresShipping() ==> k in idx
  {
    if lines == [] then []
    else
      var n := |lines| - 1;
      ShippedLines(lines[..n]) + (if lines[n].product.RequiresShipping() then [n] else [])
  }

  /** The shipment lists, entry by entry, the products of the shipped lines in cart order. */
  lemma {:induction false} ShipmentInCartOrder(lines: seq<CartItem>)
    ensures |Shipment(lines)| == |ShippedLines(lines)|
    ensures forall j :: 0 <= j < |Shipment(lines)| ==> Shipment(lines)[j] == lines[ShippedLines(lines)[j]].product
  {
    if lines != [] {
      var n := |lines| - 1;
      ShipmentInCartOrder(lines[..n]);
    }
  }

  /** The weight of each line's product, once per line whatever the line's quantity. */
  function LineWeights(lines: seq<CartItem>): (weight: real) {
    if lines == [] then 0.0
    else LineWeights(lines[..|lines| - 1]) + lines[|lines| - 1].product.Weight()
  }

  /** One more line at the end of the cart adds exactly that line's share to every figure. */
  lemma AppendLine(lines: seq<CartItem>, line: CartItem)
    ensures forall p :: Requested(lines + [line], p) == Requested(lines, p) + (if line.product == p then line.quantity else 0)
    ensures Subtotal(lines + [line]) == Subtotal(lines) + line.TotalPrice()
    ensures ShippingFee(lines + [line]) == ShippingFee(lines) + (if line.product.RequiresShipping() then FlatFee else 0)
    ensures Shipment(lines + [line]) == Shipment(lines) + (if line.product.RequiresShipping() then [line.product] else [])
  {
    assert (lines + [line])[..|lines|] == lines;
  }

  /** Lines that do not name `p` request none of it; a product named only at or after the failing line keeps its stock. */
  lemma {:induction false} RequestedAbsent(lines: seq<CartItem>, p: Product)
    requires forall k :: 0 <= k < |lines| ==> lines[k].product != p
    ensures Requested(lines, p) == 0
  {
    if lines != [] {
      RequestedAbsent(lines[..|lines| - 1], p);
    }
  }

  /** A product named on exactly one line has exactly that line's quantity requested of it. */
  lemma {:induction false} RequestedSingleLine(lines: seq<CartItem>, p: Product, k: nat)
    requires k < |lines| && lines[k].product == p
    requires forall j :: 0 <= j < |lines| && j != k ==> lines[j].product != p
    ensures Requested(lines, p) == lines[k].quantity
  {
    var front := lines[..|lines| - 1];
    if k == |lines| - 1 {
      RequestedAbsent(front, p);
    } else {
      RequestedSingleLine(front, p, k);
    }
  }

  /**
   * The stock check comes before the reduction, so no product whose stock
   * started non-negative goes negative at any point of the checkout, even
   * when it is named on several lines.
   */
  lemma {:induction false} StockNeverNegative(lines: seq<CartItem>, now: int, stock: map<Product, int>, p: Product, k: nat)
    requires Stocked(lines, stock) && p in stock && stock[p] >= 0
    requires k <= FirstFailure(lines, now, stock)
    ensures StockSeen(lines, stock, p, k) >= 0
  {
    if k > 0 {
      var line := lines[k - 1];
      assert !LineFails(lines, now, stock, k - 1);
      assert lines[..k][..k - 1] == lines[..k - 1];
      if line.product != p {
        StockNeverNegative(lines, now, stock, p, k - 1);
      }
    }
  }

  /** The shipping charge is the flat fee times the number of parcels shipped. */
  lemma {:induction false} ShippingFeePerParcel(lines: seq<CartItem>)
    ensures ShippingFee(lines) == FlatFee * |Shipment(lines)|
  {
    if lines != [] {
      ShippingFeePerParcel(lines[..|lines| - 1]);
    }
  }

  /** What is shipped depends on the lines' products only, not on their quantities. */
  lemma {:induction false} ShipmentIgnoresQuantities(a: seq<CartItem>, b: seq<CartItem>)
    requires |a| == |b|
    requires forall k :: 0 <= k < |a| ==> a[k].product == b[k].product
    ensures Shipment(a) == Shipment(b)
  {
    if a != [] {
      ShipmentIgnoresQuantities(a[..|a| - 1], b[..|b| - 1]);
    }
  }

  /** The shipment weighs the sum of one product weight per cart line: quantities do not multiply it. */
  lemma {:induction false} ShipmentWeightPerLine(lines: seq<CartItem>)
    ensures TotalWeight(Shipment(lines)) == LineWeights(lines)
  {
    if lines != [] {
      var front, last := lines[..|lines| - 1], lines[|lines| - 1];
      ShipmentWeightPerLine(front);
      if last.product.RequiresShipping() {
        var s := Shipment(front) + [last.product];
        assert s[..|s| - 1] == Shipment(front);
      } else {
        assert Shipment(lines) == Shipment(front);
      }
    }
  }
}
