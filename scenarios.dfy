/**
 * Concrete shopping sessions, checked against the contracts of the cart, the
 * customer and checkout. The first is the shop's own demonstration; the
 * others show the fail-fast, non-atomic behaviour.
 */
module Scenarios {
  import opened Products
  import opened Carts
  import opened Customers
  import opened Outcomes
  import opened ShippingService
  import opened CheckoutSpec
  import opened CheckoutService

  /** The totals of the demonstration cart: 2 cheese at 100 (shipped), 1 biscuits at 150, 1 scratch card at 50. */
  lemma DemoTotals(items: seq<CartItem>, cheese: Product, biscuits: Product, card: Product)
    requires items == [CartItem(cheese, 2), CartItem(biscuits, 1), CartItem(card, 1)]
    requires cheese.price == 100 && biscuits.price == 150 && card.price == 50
    requires cheese.RequiresShipping() && !biscuits.RequiresShipping() && !card.RequiresShipping()
    ensures Subtotal(items) == 400 && ShippingFee(items) == 15 && Shipment(items) == [cheese]
  {
    var s1 := [items[0]];
    var s2 := [items[0], items[1]];
    assert [] + [items[0]] == s1 && s1 + [items[1]] == s2 && s2 + [items[2]] == items;
    AppendLine([], items[0]);
    assert Subtotal(s1) == 200 && ShippingFee(s1) == 15 && Shipment(s1) == [cheese];
    AppendLine(s1, items[1]);
    assert Subtotal(s2) == 350 && ShippingFee(s2) == 15 && Shipment(s2) == [cheese];
    AppendLine(s2, items[2]);
  }

  /** The figures of the demonstration cart, with the cheese weighing 0.4 and the stock of 5 cheese, 3 biscuits and 10 cards. */
  lemma DemoCartFigures(items: seq<CartItem>, cheese: Product, biscuits: Product, card: Product,
                        now: int, stock: map<Product, int>)
    requires items == [CartItem(cheese, 2), CartItem(biscuits, 1), CartItem(card, 1)]
    requires cheese != biscuits && cheese != card && biscuits != card
    requires cheese in stock && biscuits in stock && card in stock
    requires stock[cheese] == 5 && stock[biscuits] == 3 && stock[card] == 10
    requires cheese.price == 100 && biscuits.price == 150 && card.price == 50
    requires !cheese.IsExpired(now) && !biscuits.IsExpired(now) && !card.IsExpired(now)
    requires cheese.RequiresShipping() && !biscuits.RequiresShipping() && !card.RequiresShipping()
    requires cheese.Weight() == 0.4
    ensures FirstFailure(items, now, stock) == 3
    ensures Subtotal(items) == 400 && ShippingFee(items) == 15
    ensures Shipment(items) == [cheese] && TotalWeight([cheese]) == 0.4
    ensures Requested(items, cheese) == 2
  {
    DemoTotals(items, cheese, biscuits, card);
    assert items[..0] == [] && items[..1] == [items[0]] && items[..2] == [items[0], items[1]];
    RequestedAbsent(items[..1], biscuits);
    RequestedAbsent(items[..2], card);
    RequestedSingleLine(items, cheese, 0);
    assert !LineFails(items, now, stock, 0);
    assert !LineFails(items, now, stock, 1);
    assert !LineFails(items, now, stock, 2);
    assert [cheese][..0] == [];
  }

  /** The shop's demonstration: the cart above against a wallet of 1000 is charged 415 and leaves 585. */
  method DemoCheckout() returns (r: Result<Receipt>, cheeseLeft: int)
    ensures r.Ok? && r.value.subtotal == 400 && r.value.shipping == 15
    ensures r.value.total == 415 && r.value.balance == 585
    ensures |r.value.parcels| == 1 && r.value.parcels[0].name == "Cheese" && r.value.weight == 0.4
    ensures cheeseLeft == 3
  {
    var today := 0;
    var tomorrow := today + 1;
    var cheese := new Product.ExpirableShippable("Cheese", 100, 5, tomorrow, 0.4);
    var biscuits := new Product.Expirable("Biscuits", 150, 3, tomorrow);
    var card := new Product.Plain("Scratch Card", 50, 10);
    var customer := new Customer("Reham", 1000);
    var cart := new Cart();
    var added := cart.Add(cheese, 2);
    added := cart.Add(biscuits, 1);
    added := cart.Add(card, 1);
    var items := cart.items;
    assert items == [CartItem(cheese, 2), CartItem(biscuits, 1), CartItem(card, 1)];
    assert ProductsOf(items) == {cheese, biscuits, card} by {
      assert items[0].product == cheese && items[1].product == biscuits && items[2].product == card;
    }
    ghost var stock := StockOf(items);
    DemoCartFigures(items, cheese, biscuits, card, today, stock);
    assert items[..3] == items;
    r := Checkout(customer, cart, today);
    cheeseLeft := cheese.qty;
  }

  /** A product named on two lines: the second line is checked against the stock the first line left. */
  lemma AliasedCartFigures(items: seq<CartItem>, p: Product, now: int, stock: map<Product, int>)
    requires items == [CartItem(p, 2), CartItem(p, 2)]
    requires p in stock && stock[p] == 3 && !p.IsExpired(now)
    ensures FirstFailure(items, now, stock) == 1
    ensures Requested(items[..1], p) == 2
  {
    assert items[..0] == [] && items[..1] == [items[0]] && items[..1][..0] == [];
    assert !LineFails(items, now, stock, 0);
    assert LineFails(items, now, stock, 1);
  }

  /**
   * Both lines fit the stock of 3 when they are added, since adding ignores
   * what the cart already holds; checkout then stops at the second line and
   * the first line's reduction stays.
   */
  method AliasedCheckout() returns (r: Result<Receipt>, stockLeft: int, balance: int)
    ensures r == Err(OutOfStock(1))
    ensures stockLeft == 1 && balance == 100
  {
    var mug := new Product.Plain("Mug", 10, 3);
    var customer := new Customer("Buyer", 100);
    var cart := new Cart();
    var first := cart.Add(mug, 2);
    var second := cart.Add(mug, 2);
    assert first == Pass && second == Pass;
    var items := cart.items;
    assert items == [CartItem(mug, 2), CartItem(mug, 2)];
    assert ProductsOf(items) == {mug} by {
      assert items[0].product == mug;
    }
    ghost var stock := StockOf(items);
    AliasedCartFigures(items, mug, 0, stock);
    r := Checkout(customer, cart, 0);
    stockLeft, balance := mug.qty, customer.wallet;
  }

  /**
   * A single line of one shipped product at 3000: the line passes and the total is 3015.
   * A plain statement of the figures; one appended line is all it takes.
   */
  lemma SingleShippedLineFigures(items: seq<CartItem>, tv: Product, now: int, stock: map<Product, int>)
    requires items == [CartItem(tv, 1)]
    requires tv in stock && stock[tv] == 2 && !tv.IsExpired(now)
    requires tv.price == 3000 && tv.RequiresShipping()
    ensures FirstFailure(items, now, stock) == 1
    ensures Subtotal(items) + ShippingFee(items) == 3015
    ensures Requested(items, tv) == 1
  {
    AppendLine([], items[0]);
    assert [] + [items[0]] == items && items[..0] == [];
    assert !LineFails(items, now, stock, 0);
  }

  /** The wallet of 1000 cannot pay 3015: checkout fails, the wallet is kept, the stock stays lowered. */
  method UnpaidCheckout() returns (r: Result<Receipt>, stockLeft: int, balance: int)
    ensures r == Err(InsufficientFunds)
    ensures stockLeft == 1 && balance == 1000
  {
    var tv := new Product.Shippable("TV", 3000, 2, 5.0);
    var customer := new Customer("Buyer", 1000);
    var cart := new Cart();
    var added := cart.Add(tv, 1);
    var items := cart.items;
    assert items == [CartItem(tv, 1)];
    assert ProductsOf(items) == {tv} by {
      assert items[0].product == tv;
    }
    ghost var stock := StockOf(items);
    assert tv in stock && stock[tv] == 2;
    SingleShippedLineFigures(items, tv, 0, stock);
    assert items[..1] == items;
    r := Checkout(customer, cart, 0);
    stockLeft, balance := tv.qty, customer.wallet;
  }

  /** A plain line followed by a line whose product has expired. */
  lemma ExpiredSecondLineFigures(items: seq<CartItem>, card: Product, biscuits: Product, now: int,
                                 stock: map<Product, int>)
    requires items == [CartItem(card, 1), CartItem(biscuits, 1)] && card != biscuits
    requires card in stock && biscuits in stock && stock[card] == 10
    requires !card.IsExpired(now) && biscuits.IsExpired(now)
    ensures FirstFailure(items, now, stock) == 1
    ensures Requested(items[..1], card) == 1 && Requested(items[..1], biscuits) == 0
  {
    assert items[..0] == [] && items[..1] == [items[0]] && items[..1][..0] == [];
    assert !LineFails(items, now, stock, 0);
    assert LineFails(items, now, stock, 1);
  }

  /** Checkout stops at the expired biscuits; the scratch card taken by the first line is not put back. */
  method ExpiredCheckout() returns (r: Result<Receipt>, cardsLeft: int, biscuitsLeft: int)
    ensures r == Err(ProductExpired(1))
    ensures cardsLeft == 9 && biscuitsLeft == 3
  {
    var today := 0;
    var yesterday := today - 1;
    var card := new Product.Plain("Scratch Card", 50, 10);
    var biscuits := new Product.Expirable("Biscuits", 150, 3, yesterday);
    var customer := new Customer("Buyer", 1000);
    var cart := new Cart();
    var added := cart.Add(card, 1);
    added := cart.Add(biscuits, 1);
    var items := cart.items;
    assert items == [CartItem(card, 1), CartItem(biscuits, 1)];
    assert ProductsOf(items) == {card, biscuits} by {
      assert items[0].product == card && items[1].product == biscuits;
    }
    ghost var stock := StockOf(items);
    ExpiredSecondLineFigures(items, card, biscuits, today, stock);
    r := Checkout(customer, cart, today);
    cardsLeft, biscuitsLeft := card.qty, biscuits.qty;
  }
}
