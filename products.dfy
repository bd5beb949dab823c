/**
 * Products of the shop: a name, a unit price, a stock counter that checkout
 * lowers in place, and two facets (expiry and shipping) whose four
 * combinations are the four product variants.
 */
module Products {

  /** The expiry facet: either the product never expires, or it expires once an instant has passed. */
  datatype Expiry = NeverExpires | ExpiresAt(date: int)

  /** The shipping facet: either the product is handed over, or it is shipped and has a weight. */
  datatype Delivery = NotShipped | Shipped(weight: real)

  class Product {
    const name: string
    const price: int
    var qty: int
    const expiry: Expiry
    const delivery: Delivery

    /** A product that neither expires nor needs shipping. */
    constructor Plain(name: string, price: int, qty: int)
      ensures this.name == name && this.price == price && this.qty == qty
      ensures forall now :: !IsExpired(now)
      ensures !RequiresShipping() && Weight() == 0.0
    {
      this.name, this.price, this.qty := name, price, qty;
      expiry, delivery := NeverExpires, NotShipped;
    }

    /** A product that expires once `expiryDate` has passed and is not shipped. */
    constructor Expirable(name: string, price: int, qty: int, expiryDate: int)
      ensures this.name == name && this.price == price && this.qty == qty
      ensures forall now :: IsExpired(now) <==> now > expiryDate
      ensures !RequiresShipping() && Weight() == 0.0
    {
      this.name, this.price, this.qty := name, price, qty;
      expiry, delivery := ExpiresAt(expiryDate), NotShipped;
    }

    /** A product that never expires and is shipped with the given weight. */
    constructor Shippable(name: string, price: int, qty: int, weight: real)
      ensures this.name == name && this.price == price && this.qty == qty
      ensures forall now :: !IsExpired(now)
      ensures RequiresShipping() && Weight() == weight
    {
      this.name, this.price, this.qty := name, price, qty;
      expiry, delivery := NeverExpires, Shipped(weight);
    }

    /** A product that expires once `expiryDate` has passed and is shipped with the given weight. */
    constructor ExpirableShippable(name: string, price: int, qty: int, expiryDate: int, weight: real)
      ensures this.name == name && this.price == price && this.qty == qty
      ensures forall now :: IsExpired(now) <==> now > expiryDate
      ensures RequiresShipping() && Weight() == weight
    {
      this.name, this.price, this.qty := name, price, qty;
      expiry, delivery := ExpiresAt(expiryDate), Shipped(weight);
    }

    /** Whether the product is expired at instant `now`: strictly after its expiry date. */
    predicate IsExpired(now: int)
      ensures IsExpired(now) ==> expiry.ExpiresAt? && expiry.date < now
    {
      match expiry
      case NeverExpires => false
      case ExpiresAt(date) => now > date
    }

    predicate RequiresShipping() {
      delivery.Shipped?
    }

    /** The shipping weight; a product that is not shipped weighs nothing. */
    function Weight(): (w: real)
      ensures !RequiresShipping() ==> w == 0.0
    {
      match delivery
      case NotShipped => 0.0
      case Shipped(weight) => weight
    }

    /** Lowers the stock counter by `n`, with no check of its own. */
    method ReduceQuantity(n: int)
      modifies this
      ensures qty == old(qty) - n
    {
      qty := qty - n;
    }
  }
}
