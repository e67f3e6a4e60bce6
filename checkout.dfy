/** `CheckoutService.checkout`: validate every line, compute the total,
    charge the customer, then take the requested quantities out of stock. */
module CheckoutService {
  import opened Failures
  import opened Products
  import opened Customers
  import opened Carts

  /** `SHIPPING_RATE`: the flat fee charged once for a cart that ships. */
  const ShippingRate: real := 30.0

  function ShippingFee(totalWeight: real): (fee: real)
    ensures fee == ShippingRate <==> totalWeight > 0.0
    ensures fee == 0.0 <==> !(totalWeight > 0.0)
  {
    if totalWeight > 0.0 then ShippingRate else 0.0
  }

  /** `subtotal + shipping`, the amount charged for the cart. */
  ghost function Total(items: map<Product, int>): (r: real)
    ensures Subtotal(items) <= r <= Subtotal(items) + ShippingRate
    ensures r == Subtotal(items) <==> !(TotalWeight(items) > 0.0)
  {
    Subtotal(items) + ShippingFee(TotalWeight(items))
  }

  /** Every line passes the checkout checks: not expired, and no more
      requested than is currently in stock. */
  predicate Ready(items: map<Product, int>)
    reads items.Keys
  {
    forall p :: p in items ==> !p.expired && items[p] <= p.quantity
  }

  /** `e` is the exception the checks raise for one of the lines: the
      expiry check comes first, the stock check second. */
  predicate RejectedLine(items: map<Product, int>, e: Error)
    reads items.Keys
  {
    exists p :: p in items &&
      if p.expired then e == IllegalState(Expired(p.name))
      else items[p] > p.quantity && e == IllegalState(OutOfStock(p.name))
  }

  /** The validation loop.  Which offending line is reported depends on the
      map's iteration order, so only "one of them" is promised. */
  method ValidateItems(items: map<Product, int>) returns (r: Outcome)
    ensures r == Pass <==> Ready(items)
    ensures r.Fail? ==> RejectedLine(items, r.error)
  {
    var remaining := items.Keys;
    while remaining != {}
      invariant remaining <= items.Keys
      invariant forall p :: p in items && p !in remaining ==> !p.expired && items[p] <= p.quantity
      decreases remaining
    {
      var p :| p in remaining;
      if p.expired {
        return Fail(IllegalState(Expired(p.name)));
      }
      if items[p] > p.quantity {
        return Fail(IllegalState(OutOfStock(p.name)));
      }
      remaining := remaining - {p};
    }
    return Pass;
  }

  /** `checkout(customer, cart)`.  A failure changes nothing: neither the
      balance nor any stock.  On success the balance goes down by `Total`
      and every product's stock by exactly its requested quantity.  The cart
      itself is left as it was. */
  method Checkout(customer: Customer?, cart: Cart?) returns (r: Outcome)
    modifies customer, if cart == null then {} else cart.items.Keys
    ensures customer == null ==> r == Fail(IllegalArgument(NullCustomer))
    ensures customer != null && cart == null ==> r == Fail(IllegalArgument(NullCart))
    ensures customer != null && cart != null ==> (r == Pass <==>
              old(Ready(cart.items)) && Total(cart.items) <= old(customer.balance))
    ensures customer != null && cart != null && !old(Ready(cart.items)) ==>
              r.Fail? && old(RejectedLine(cart.items, r.error))
    ensures customer != null && cart != null && old(Ready(cart.items)) && Total(cart.items) > old(customer.balance) ==>
              r == Fail(IllegalState(InsufficientBalance(customer.name)))
    ensures r.Fail? && customer != null ==> customer.balance == old(customer.balance)
    ensures r.Fail? && cart != null ==> forall p :: p in cart.items ==> p.quantity == old(p.quantity)
    ensures r.Pass? ==> customer != null && cart != null
    ensures r.Pass? ==> customer.balance == old(customer.balance) - Total(cart.items)
    ensures r.Pass? ==> forall p :: p in cart.items ==> p.quantity == old(p.quantity) - cart.items[p]
  {
    if customer == null {
      return Fail(IllegalArgument(NullCustomer));
    }
    if cart == null {
      return Fail(IllegalArgument(NullCart));
    }
    var items := cart.items;

    r := ValidateItems(items);
    if r.Fail? {
      return;
    }

    var subtotal := cart.GetSubtotal();
    var totalWeight := cart.GetTotalWeight();
    var shipping := ShippingFee(totalWeight);
    var total := subtotal + shipping;
    r := customer.Deduct(total);
    if r.Fail? {
      return;
    }

    // The shipment notice and the receipt are printed here; the model has no output.

    var remaining := items.Keys;
    while remaining != {}
      invariant remaining <= items.Keys
      invariant customer.balance == old(customer.balance) - total
      invariant forall p :: p in items ==> items[p] <= old(p.quantity)
      invariant forall p :: p in items && p !in remaining ==> p.quantity == old(p.quantity) - items[p]
      invariant forall p :: p in remaining ==> p.quantity == old(p.quantity)
      decreases remaining
    {
      var p :| p in remaining;
      var reduced := p.ReduceQuantity(items[p]);
      assert reduced == Pass;
      remaining := remaining - {p};
    }
  }

  /** The fee is the flat rate exactly when some line is a shippable
      product of positive weight, and nothing otherwise, in particular for a
      cart whose shippable products all weigh 0. */
  lemma ShippingFeeCharged(items: map<Product, int>)
    requires AllPositive(items)
    requires forall k :: k in items && k.RequiresShipping() ==> k.kind.weight >= 0.0
    ensures ShippingFee(TotalWeight(items)) == ShippingRate <==>
              exists k :: k in items && k.RequiresShipping() && k.kind.weight > 0.0
    ensures ShippingFee(TotalWeight(items)) == 0.0 <==>
              forall k :: k in items && k.RequiresShipping() ==> k.kind.weight == 0.0
  {
    TotalWeightPositive(items);
  }

  /** The total covers the subtotal and at most one flat fee, and is never
      negative for non-negative prices. */
  lemma TotalBounds(items: map<Product, int>)
    requires forall k :: k in items ==> k.price >= 0.0 && items[k] >= 0
    ensures Subtotal(items) <= Total(items) <= Subtotal(items) + ShippingRate
    ensures Total(items) >= 0.0
  {
    SubtotalNonNegative(items);
  }

  /** An empty cart costs nothing, so checking it out leaves the balance as
      it was. */
  lemma EmptyCartCostsNothing(cart: Cart)
    requires cart.IsEmpty()
    ensures Total(cart.items) == 0.0
  {
    EmptyTotals(cart);
  }
}
