/** The values of the demonstration program (`FawryChallenge.main`), checked
    against the contracts alone: each outcome below follows from them.
    Names are held in variables, so that the verifier reasons about them
    through the contracts rather than by evaluating `Trim` on the text. */
module Scenario {
  import opened Failures
  import opened Products
  import opened Customers
  import opened Carts
  import opened CheckoutService

  /** The products and the customer of the demonstration program. */
  method DemoConstruction() {
    var cheeseName, biscuitsName, cardName, customerName := "Cheese", "Biscuits", "Scratch Card", "Ali";
    assert cheeseName[0] > ' ' && biscuitsName[0] > ' ' && cardName[0] > ' ' && customerName[0] > ' ';
    var cheeseR := Product.NewShippable(cheeseName, 100.0, 10, false, 0.2);
    var biscuitsR := Product.NewShippable(biscuitsName, 150.0, 5, false, 0.7);
    var cardR := Product.NewSimple(cardName, 50.0, 20, false);
    var customerR := Customer.New(customerName, 1000.0);
    assert cheeseR.Success? && biscuitsR.Success? && cardR.Success? && customerR.Success?;
  }

  /** The demonstration cart: two cheeses, one packet of biscuits and a
      scratch card, for a subtotal of 400, a weight of 1.1, shipping of 30
      and an amount of 430. */
  method DemoCart(cheese: Product, biscuits: Product, card: Product) returns (cart: Cart)
    requires cheese.price == 100.0 && cheese.quantity == 10 && cheese.kind == Shippable(0.2)
    requires biscuits.price == 150.0 && biscuits.quantity == 5 && biscuits.kind == Shippable(0.7)
    requires card.price == 50.0 && card.quantity == 20 && card.kind == Simple
    requires cheese != biscuits && cheese != card && biscuits != card
    ensures fresh(cart)
    ensures cart.items == map[cheese := 2, biscuits := 1, card := 1]
    ensures Total(cart.items) == 430.0
  {
    cart := new Cart();
    var a1 := cart.Add(cheese, 2);
    var a2 := cart.Add(biscuits, 1);
    var a3 := cart.Add(card, 1);
    assert a1 == Pass && a2 == Pass && a3 == Pass;
    DemoTotals(cheese, biscuits, card, cart.items);
  }

  /** Checking the demonstration cart out for a customer with 1000 leaves
      570 and takes the requested quantities out of stock; an empty cart
      afterwards costs nothing. */
  method DemoCheckout(cheese: Product, biscuits: Product, card: Product, customer: Customer)
    requires cheese.price == 100.0 && cheese.quantity == 10 && !cheese.expired && cheese.kind == Shippable(0.2)
    requires biscuits.price == 150.0 && biscuits.quantity == 5 && !biscuits.expired && biscuits.kind == Shippable(0.7)
    requires card.price == 50.0 && card.quantity == 20 && !card.expired && card.kind == Simple
    requires customer.balance == 1000.0
    requires cheese != biscuits && cheese != card && biscuits != card
    modifies cheese, biscuits, card, customer
  {
    var cart := DemoCart(cheese, biscuits, card);
    var done := Checkout(customer, cart);
    assert done == Pass;
    assert customer.balance == 570.0;
    assert cheese.quantity == 8 && biscuits.quantity == 4 && card.quantity == 19;

    var emptyCart := new Cart();
    EmptyCartCostsNothing(emptyCart);
    var again := Checkout(customer, emptyCart);
    assert again == Pass && customer.balance == 570.0;
  }

  lemma DemoTotals(cheese: Product, biscuits: Product, card: Product, items: map<Product, int>)
    requires cheese.price == 100.0 && cheese.kind == Shippable(0.2)
    requires biscuits.price == 150.0 && biscuits.kind == Shippable(0.7)
    requires card.price == 50.0 && card.kind == Simple
    requires items == Merge(Merge(Merge(map[], cheese, 2), biscuits, 1), card, 1)
    ensures Subtotal(items) == 400.0 && TotalWeight(items) == 1.1 && Total(items) == 430.0
  {
    assert LineTotals(map[]) == map[] && LineWeights(map[]) == map[];
    SubtotalMerge(map[], cheese, 2);
    SubtotalMerge(Merge(map[], cheese, 2), biscuits, 1);
    SubtotalMerge(Merge(Merge(map[], cheese, 2), biscuits, 1), card, 1);
    TotalWeightMerge(map[], cheese, 2);
    TotalWeightMerge(Merge(map[], cheese, 2), biscuits, 1);
    TotalWeightMerge(Merge(Merge(map[], cheese, 2), biscuits, 1), card, 1);
  }

  /** An expired product is accepted by the cart but rejected at checkout,
      and nothing changes. */
  method DemoExpired(customer: Customer)
    modifies customer
  {
    var name := "Expired Cheese";
    assert name[0] > ' ';
    var expiredR := Product.NewShippable(name, 100.0, 10, true, 0.2);
    var expired := expiredR.value;
    var cart := new Cart();
    var added := cart.Add(expired, 1);
    assert added == Pass;
    var balance := customer.balance;
    var r := Checkout(customer, cart);
    assert !Ready(cart.items);
    assert r == Fail(IllegalState(Expired(name)));
    assert customer.balance == balance && expired.quantity == 10;
  }

  /** The cart refuses more than is in stock, a missing product and a
      non-positive quantity; checkout refuses a missing customer. */
  method DemoRejectedCalls(cheese: Product, cart: Cart)
    modifies cart
  {
    var name := "Milk";
    assert name[0] > ' ';
    var milkR := Product.NewShippable(name, 50.0, 1, false, 0.1);
    var milkCart := new Cart();
    var a1 := milkCart.Add(milkR.value, 2);
    assert a1 == Fail(IllegalArgument(QuantityExceedsStock(name)));

    var a2 := cart.Add(null, 1);
    assert a2 == Fail(IllegalArgument(NullProduct));
    var a3 := cart.Add(cheese, 0);
    assert a3 == Fail(IllegalArgument(NonPositiveQuantity));
    var c := Checkout(null, milkCart);
    assert c == Fail(IllegalArgument(NullCustomer));
  }

  /** The constructors refuse a blank name, a negative price and a negative
      weight. */
  method DemoRejectedConstruction() {
    var blank, name := "", "Invalid";
    assert name[0] > ' ';
    var p1 := Product.NewShippable(blank, 100.0, 10, false, 0.2);
    assert p1 == Failure(IllegalArgument(BlankName));
    var p2 := Product.NewShippable(name, -100.0, 10, false, 0.2);
    assert p2 == Failure(IllegalArgument(NegativePrice));
    var p3 := Product.NewShippable(name, 100.0, 10, false, -0.2);
    assert p3 == Failure(IllegalArgument(NegativeWeight));
    var u := Customer.New(blank, 1000.0);
    assert u == Failure(IllegalArgument(BlankCustomerName));
  }
}
