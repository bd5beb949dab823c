/**
 * The checkout routine: validates the cart line by line, lowers stock in
 * place, adds up the subtotal and the shipping charge, then charges the
 * customer. Nothing is rolled back: stock lowered by earlier lines stays
 * lowered when a later line or the payment fails.
 */
module CheckoutService {
  import opened Products
  import opened Carts
  import opened Customers
  import opened Outcomes
  import opened ShippingService
  import opened CheckoutSpec

  /** What a successful checkout reports. */
  datatype Receipt = Receipt(
    subtotal: int,
    shipping: int,
    total: int,
    balance: int,
    parcels: seq<Product>,
    weight: real)

  /** The current stock of every product the lines name. */
  function StockOf(lines: seq<CartItem>): (stock: map<Product, int>)
    reads ProductsOf(lines)
    ensures Stocked(lines, stock)
  {
    map p | p in ProductsOf(lines) :: p.qty
  }

  /** The lines loop on its own: how far it got, and what it added up over the lines it processed. */
  datatype Tally = Tally(stop: nat, subtotal: int, shipping: int, toShip: seq<Product>)

  /**
   * Processes the lines in order until one fails: each passing line lowers
   * its product's stock by its quantity, adds its price to the subtotal and,
   * when its product is shipped, adds the flat fee and collects the product.
   */
  method ProcessLines(items: seq<CartItem>, now: int) returns (t: Tally)
    modifies ProductsOf(items)
    ensures t.stop == FirstFailure(items, now, old(StockOf(items)))
    ensures forall p :: p in ProductsOf(items) ==> p.qty == old(p.qty) - Requested(items[..t.stop], p)
    ensures t.subtotal == Subtotal(items[..t.stop])
    ensures t.shipping == ShippingFee(items[..t.stop])
    ensures t.toShip == Shipment(items[..t.stop])
  {
    ghost var stock := StockOf(items);
    var subtotal, shipping := 0, 0;
    var toShip: seq<Product> := [];
    var i := 0;
    while i < |items|
      invariant 0 <= i <= |items|
      invariant forall k :: 0 <= k < i ==> !LineFails(items, now, stock, k)
      invariant forall p :: p in ProductsOf(items) ==> p.qty == stock[p] - Requested(items[..i], p)
      invariant subtotal == Subtotal(items[..i])
      invariant shipping == ShippingFee(items[..i])
      invariant toShip == Shipment(items[..i])
    {
      var line := items[i];
      var product := line.product;
      assert product in ProductsOf(items);
      if product.IsExpired(now) || product.qty < line.quantity {
        assert LineFails(items, now, stock, i);
        break;
      }
      assert items[..i + 1][..i] == items[..i];
      product.ReduceQuantity(line.quantity);
      subtotal := subtotal + line.TotalPrice();
      if product.RequiresShipping() {
        toShip := toShip + [product];
        shipping := shipping + FlatFee;
      }
      i := i + 1;
    }
    t := Tally(i, subtotal, shipping, toShip);
  }

  method Checkout(customer: Customer, cart: Cart, now: int) returns (r: Result<Receipt>)
    modifies customer, ProductsOf(cart.items)
    ensures cart.items == [] ==> r == Err(EmptyCart) && customer.wallet == old(customer.wallet)
    // every product ends lowered by what the lines processed before the stop requested of it
    ensures cart.items != [] ==>
      var stock := old(StockOf(cart.items));
      var n := FirstFailure(cart.items, now, stock);
      forall p :: p in ProductsOf(cart.items) ==> p.qty == stock[p] - Requested(cart.items[..n], p)
    // a failing line ends the checkout before the wallet is touched
    ensures cart.items != [] ==>
      var n := FirstFailure(cart.items, now, old(StockOf(cart.items)));
      n < |cart.items| ==>
        customer.wallet == old(customer.wallet) &&
        r == Err(if cart.items[n].product.IsExpired(now) then ProductExpired(n) else OutOfStock(n))
    // when every line passes, the customer is charged subtotal plus shipping, or the payment fails
    ensures cart.items != [] && FirstFailure(cart.items, now, old(StockOf(cart.items))) == |cart.items| ==>
      var total := Subtotal(cart.items) + ShippingFee(cart.items);
      if old(customer.wallet) < total then
        r == Err(InsufficientFunds) && customer.wallet == old(customer.wallet)
      else
        customer.wallet == old(customer.wallet) - total &&
        r == Ok(Receipt(Subtotal(cart.items), ShippingFee(cart.items), total, customer.wallet,
                        Shipment(cart.items), TotalWeight(Shipment(cart.items))))
  {
    var items := cart.items;
    if items == [] {
      return Err(EmptyCart);
    }
    var t := ProcessLines(items, now);
    if t.stop < |items| {
      var failed := items[t.stop].product;
      return Err(if failed.IsExpired(now) then ProductExpired(t.stop) else OutOfStock(t.stop));
    }
    assert items[..t.stop] == items;
    var total := t.subtotal + t.shipping;
    var paid := customer.Deduct(total);
    if paid.Fail? {
      return Err(InsufficientFunds);
    }
    var weight := 0.0;
    if t.toShip != [] {
      weight := Ship(t.toShip);
    }
    r := Ok(Receipt(t.subtotal, t.shipping, total, customer.wallet, t.toShip, weight));
  }
}
