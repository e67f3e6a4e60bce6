/** `Product` with its two variants `ShippableProduct` and `SimpleProduct`.
    The subclass is a tag on the product: `Shippable(weight)` or `Simple`. */
module Products {
  import opened Text
  import opened Failures

  datatype Kind = Simple | Shippable(weight: real)

  /** The checks of the `Product` constructor, in the order the code makes
      them: blank name, then negative price, then negative quantity. */
  function CheckBase(name: string, price: real, quantity: int): (r: Outcome)
    ensures r == Pass <==> HasVisibleChar(name) && price >= 0.0 && quantity >= 0
    ensures !HasVisibleChar(name) ==> r == Fail(IllegalArgument(BlankName))
    ensures HasVisibleChar(name) && price < 0.0 ==> r == Fail(IllegalArgument(NegativePrice))
    ensures HasVisibleChar(name) && price >= 0.0 && quantity < 0 ==> r == Fail(IllegalArgument(NegativeQuantity))
  {
    if IsBlank(name) then Fail(IllegalArgument(BlankName))
    else if price < 0.0 then Fail(IllegalArgument(NegativePrice))
    else if quantity < 0 then Fail(IllegalArgument(NegativeQuantity))
    else Pass
  }

  /** The checks of the `ShippableProduct` constructor: the base checks run
      first (the `super` call), and only then the weight is checked. */
  function CheckShippable(name: string, price: real, quantity: int, weight: real): (r: Outcome)
    ensures r == Pass <==> HasVisibleChar(name) && price >= 0.0 && quantity >= 0 && weight >= 0.0
    ensures CheckBase(name, price, quantity).Fail? ==> r == CheckBase(name, price, quantity)
    ensures HasVisibleChar(name) && price >= 0.0 && quantity >= 0 && weight < 0.0 ==>
              r == Fail(IllegalArgument(NegativeWeight))
  {
    var base := CheckBase(name, price, quantity);
    if base.Fail? then base
    else if weight < 0.0 then Fail(IllegalArgument(NegativeWeight))
    else Pass
  }

  /** The checks for a product of the given kind. */
  function Check(name: string, price: real, quantity: int, kind: Kind): Outcome {
    match kind
    case Simple => CheckBase(name, price, quantity)
    case Shippable(w) => CheckShippable(name, price, quantity, w)
  }

  /** What every constructed product satisfies: a visible name, a
      non-negative price, stock and weight. */
  ghost predicate WellFormed(name: string, price: real, quantity: int, kind: Kind) {
    HasVisibleChar(name) && price >= 0.0 && quantity >= 0 && (kind.Shippable? ==> kind.weight >= 0.0)
  }

  lemma CheckIsWellFormed(name: string, price: real, quantity: int, kind: Kind)
    ensures Check(name, price, quantity, kind) == Pass <==> WellFormed(name, price, quantity, kind)
  {
  }

  class Product {
    const name: string
    const price: real
    var quantity: int
    const expired: bool
    const kind: Kind

    ghost predicate Valid()
      reads this
    {
      WellFormed(name, price, quantity, kind)
    }

    /** The field assignments of the Java constructors, which run once their
        checks have passed. */
    constructor (name: string, price: real, quantity: int, expired: bool, kind: Kind)
      requires Check(name, price, quantity, kind) == Pass
      ensures this.name == name && this.price == price && this.quantity == quantity
      ensures this.expired == expired && this.kind == kind
      ensures Valid()
    {
      CheckIsWellFormed(name, price, quantity, kind);
      this.name := name;
      this.price := price;
      this.quantity := quantity;
      this.expired := expired;
      this.kind := kind;
    }

    /** `new SimpleProduct(name, price, quantity, expired)`. */
    static method NewSimple(name: string, price: real, quantity: int, expired: bool) returns (r: Result<Product>)
      ensures r.Success? <==> CheckBase(name, price, quantity) == Pass
      ensures r.Failure? ==> Fail(r.error) == CheckBase(name, price, quantity)
      ensures r.Success? ==> fresh(r.value) && r.value.Valid()
      ensures r.Success? ==> r.value.name == name && r.value.price == price && r.value.quantity == quantity
      ensures r.Success? ==> r.value.expired == expired && r.value.kind == Simple
      ensures r.Success? ==> !r.value.RequiresShipping()
    {
      var c := CheckBase(name, price, quantity);
      if c.Fail? {
        return Failure(c.error);
      }
      var p := new Product(name, price, quantity, expired, Simple);
      return Success(p);
    }

    /** `new ShippableProduct(name, price, quantity, expired, weight)`. */
    static method NewShippable(name: string, price: real, quantity: int, expired: bool, weight: real)
      returns (r: Result<Product>)
      ensures r.Success? <==> CheckShippable(name, price, quantity, weight) == Pass
      ensures r.Failure? ==> Fail(r.error) == CheckShippable(name, price, quantity, weight)
      ensures r.Success? ==> fresh(r.value) && r.value.Valid()
      ensures r.Success? ==> r.value.name == name && r.value.price == price && r.value.quantity == quantity
      ensures r.Success? ==> r.value.expired == expired && r.value.kind == Shippable(weight)
      ensures r.Success? ==> r.value.RequiresShipping()
    {
      var c := CheckShippable(name, price, quantity, weight);
      if c.Fail? {
        return Failure(c.error);
      }
      var p := new Product(name, price, quantity, expired, Shippable(weight));
      return Success(p);
    }

    /** `requiresShipping()`: true for the shippable variant only. */
    predicate RequiresShipping(): (r: bool)
      ensures r <==> kind != Simple
    {
      kind.Shippable?
    }

    /** `reduceQuantity(amount)`: refuses to take more than is in stock, and
        otherwise takes exactly `amount`.  Stock never becomes negative. */
    method ReduceQuantity(amount: int) returns (r: Outcome)
      modifies this
      ensures r == Pass <==> amount <= old(quantity)
      ensures r.Fail? ==> r == Fail(IllegalArgument(NotEnoughStock(name))) && quantity == old(quantity)
      ensures r.Pass? ==> quantity == old(quantity) - amount
      ensures old(quantity) >= 0 ==> quantity >= 0
      ensures old(Valid()) ==> Valid()
    {
      if amount > quantity {
        return Fail(IllegalArgument(NotEnoughStock(name)));
      }
      quantity := quantity - amount;
      return Pass;
    }
  }
}
