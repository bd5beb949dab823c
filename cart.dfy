/** Cart lines and the cart that collects them. */
module Carts {
  import opened Products
  import opened Outcomes

  /** One cart line: a product (shared, not owned) and the quantity requested of it. */
  datatype CartItem = CartItem(product: Product, quantity: int) {
    /** The price of the line: unit price times requested quantity. */
    function TotalPrice(): (amount: int) {
      product.price * quantity
    }
  }

  /** The products that the given lines name. */
  function ProductsOf(lines: seq<CartItem>): (products: set<Product>) {
    set k | 0 <= k < |lines| :: lines[k].product
  }

  class Cart {
    var items: seq<CartItem>

    constructor ()
      ensures items == []
    {
      items := [];
    }

    /**
     * Appends a line for `qty` units of `product` if the product's current
     * stock covers `qty`. Units of the same product already in the cart are
     * not taken into account, and no stock is reserved.
     */
    method Add(product: Product, qty: int) returns (o: Outcome)
      modifies this
      ensures o == if product.qty < qty then Fail(InsufficientStockOnAdd) else Pass
      ensures items == if o.Pass? then old(items) + [CartItem(product, qty)] else old(items)
    {
      if product.qty < qty {
        return Fail(InsufficientStockOnAdd);
      }
      items := items + [CartItem(product, qty)];
      o := Pass;
    }
  }
}
