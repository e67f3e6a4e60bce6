/** `Cart`: a map from product (by object identity, as the Java `HashMap`
    without `equals`/`hashCode` is) to the requested quantity, with the two
    folds over it. */
module Carts {
  import opened Failures
  import opened Products
  import opened Sums

  /** The checks of `add(product, quantity)`, in the order the code makes
      them.  The stock check is against the product's current stock and the
      quantity of this call only. */
  function CheckAdd(product: Product?, quantity: int): (r: Outcome)
    reads product
    ensures r == Pass <==> product != null && 0 < quantity <= product.quantity
    ensures product == null ==> r == Fail(IllegalArgument(NullProduct))
    ensures product != null && quantity <= 0 ==> r == Fail(IllegalArgument(NonPositiveQuantity))
    ensures product != null && 0 < quantity && product.quantity < quantity ==>
              r == Fail(IllegalArgument(QuantityExceedsStock(product.name)))
  {
    if product == null then Fail(IllegalArgument(NullProduct))
    else if quantity <= 0 then Fail(IllegalArgument(NonPositiveQuantity))
    else if quantity > product.quantity then Fail(IllegalArgument(QuantityExceedsStock(product.name)))
    else Pass
  }

  /** `items.merge(p, q, Integer::sum)` with exact integer addition. */
  function Merge(items: map<Product, int>, p: Product, q: int): (m: map<Product, int>)
    ensures m.Keys == items.Keys + {p}
    ensures m[p] == (if p in items then items[p] else 0) + q
    ensures forall k :: k in items && k != p ==> m[k] == items[k]
  {
    items[p := (if p in items then items[p] else 0) + q]
  }

  /** Every requested quantity is positive. */
  predicate AllPositive(items: map<Product, int>) {
    forall k :: k in items ==> items[k] > 0
  }

  /** The receipt's line total: price times requested quantity. */
  function LineTotal(p: Product, q: int): (r: real)
    ensures q == 0 ==> r == 0.0
    ensures p.price >= 0.0 && q >= 0 ==> r >= 0.0
    ensures p.price > 0.0 && q < 0 ==> r < 0.0
  {
    p.price * (q as real)
  }

  /** The contribution of one line to the shipping weight: weight times
      quantity for a shippable product, nothing for a simple one. */
  function LineWeight(p: Product, q: int): real {
    match p.kind
    case Simple => 0.0
    case Shippable(w) => w * (q as real)
  }

  function LineTotals(items: map<Product, int>): (lines: map<Product, real>)
    ensures lines.Keys == items.Keys
    ensures forall k :: k in items ==> lines[k] == LineTotal(k, items[k])
  {
    map k | k in items :: LineTotal(k, items[k])
  }

  function LineWeights(items: map<Product, int>): (lines: map<Product, real>)
    ensures lines.Keys == items.Keys
    ensures forall k :: k in items ==> lines[k] == LineWeight(k, items[k])
  {
    map k | k in items :: LineWeight(k, items[k])
  }

  /** `getSubtotal()`: the sum over all entries of price times quantity. */
  ghost function Subtotal(items: map<Product, int>): real {
    Sum(LineTotals(items))
  }

  /** `getTotalWeight()`: the sum over shippable entries of weight times
      quantity. */
  ghost function TotalWeight(items: map<Product, int>): real {
    Sum(LineWeights(items))
  }

  class Cart {
    var items: map<Product, int>

    ghost predicate Valid()
      reads this
    {
      AllPositive(items)
    }

    constructor ()
      ensures items == map[] && Valid()
    {
      items := map[];
    }

    predicate IsEmpty(): (r: bool)
      reads this
      ensures r <==> items == map[]
    {
      |items| == 0
    }

    /** `add(product, quantity)`: on success the quantity is added to what
        was already requested for `product`; on failure the cart is
        unchanged. */
    method Add(product: Product?, quantity: int) returns (r: Outcome)
      modifies this
      ensures r == CheckAdd(product, quantity)
      ensures r.Pass? ==> product != null && items == Merge(old(items), product, quantity)
      ensures r.Fail? ==> items == old(items)
      ensures old(Valid()) ==> Valid()
    {
      r := CheckAdd(product, quantity);
      if r.Pass? {
        if AllPositive(items) {
          MergeKeepsPositive(items, product, quantity);
        }
        items := Merge(items, product, quantity);
      }
    }

    /** The `getSubtotal()` fold, one entry at a time in an arbitrary order. */
    method GetSubtotal() returns (s: real)
      ensures s == Subtotal(items)
    {
      var lines := LineTotals(items);
      var remaining := items.Keys;
      s := 0.0;
      while remaining != {}
        invariant remaining <= items.Keys
        invariant s + SumOver(lines, remaining) == Sum(lines)
        decreases remaining
      {
        var p :| p in remaining;
        SumOverRemove(lines, remaining, p);
        s := s + p.price * (items[p] as real);
        remaining := remaining - {p};
      }
    }

    /** The `getTotalWeight()` fold: shippable entries only. */
    method GetTotalWeight() returns (w: real)
      ensures w == TotalWeight(items)
    {
      var lines := LineWeights(items);
      var remaining := items.Keys;
      w := 0.0;
      while remaining != {}
        invariant remaining <= items.Keys
        invariant w + SumOver(lines, remaining) == Sum(lines)
        decreases remaining
      {
        var p :| p in remaining;
        SumOverRemove(lines, remaining, p);
        if p.RequiresShipping() {
          w := w + p.kind.weight * (items[p] as real);
        }
        remaining := remaining - {p};
      }
    }
  }

  lemma MergeKeepsPositive(items: map<Product, int>, p: Product, q: int)
    requires AllPositive(items) && q > 0
    ensures AllPositive(Merge(items, p, q))
  {
  }

  /** Two additions of the same product request their sum. */
  lemma MergeTwice(items: map<Product, int>, p: Product, a: int, b: int)
    ensures Merge(Merge(items, p, a), p, b) == Merge(items, p, a + b)
  {
  }

  /** The stock check is per call: with 4 in stock, adding 2 and then 3 is
      accepted and requests 5. */
  lemma PerCallStockCheck(p: Product)
    requires p.quantity == 4
    ensures CheckAdd(p, 2) == Pass && CheckAdd(p, 3) == Pass
    ensures Merge(Merge(map[], p, 2), p, 3)[p] == 5 > p.quantity
  {
  }

  /** An empty cart has no subtotal and no weight. */
  lemma EmptyTotals(c: Cart)
    requires c.IsEmpty()
    ensures Subtotal(c.items) == 0.0 && TotalWeight(c.items) == 0.0
  {
    assert c.items == map[];
  }

  /** Adding `q` of `p` raises the subtotal by exactly price times `q`. */
  lemma {:induction false} SubtotalMerge(items: map<Product, int>, p: Product, q: int)
    ensures Subtotal(Merge(items, p, q)) == Subtotal(items) + LineTotal(p, q)
  {
    var n := if p in items then items[p] else 0;
    var lines := LineTotals(items);
    var v := LineTotal(p, n + q);
    assert LineTotals(Merge(items, p, q)) == lines[p := v];
    assert Subtotal(Merge(items, p, q)) == Sum(lines[p := v]);
    assert Subtotal(items) == Sum(lines);
    SumUpdate(lines, p, v);
    LineTotalAdds(p, n, q);
  }

  /** Adding `q` of `p` raises the total weight by exactly its line weight,
      which is zero for a simple product. */
  lemma {:induction false} TotalWeightMerge(items: map<Product, int>, p: Product, q: int)
    ensures TotalWeight(Merge(items, p, q)) == TotalWeight(items) + LineWeight(p, q)
    ensures !p.RequiresShipping() ==> TotalWeight(Merge(items, p, q)) == TotalWeight(items)
  {
    var n := if p in items then items[p] else 0;
    var lines := LineWeights(items);
    var v := LineWeight(p, n + q);
    assert LineWeights(Merge(items, p, q)) == lines[p := v];
    assert TotalWeight(Merge(items, p, q)) == Sum(lines[p := v]);
    assert TotalWeight(items) == Sum(lines);
    SumUpdate(lines, p, v);
    LineWeightAdds(p, n, q);
  }

  lemma LineTotalAdds(p: Product, a: int, b: int)
    ensures LineTotal(p, a + b) == LineTotal(p, a) + LineTotal(p, b)
    ensures LineTotal(p, 0) == 0.0
  {
    assert ((a + b) as real) == (a as real) + (b as real);
  }

  lemma LineWeightAdds(p: Product, a: int, b: int)
    ensures LineWeight(p, a + b) == LineWeight(p, a) + LineWeight(p, b)
    ensures LineWeight(p, 0) == 0.0
  {
    assert ((a + b) as real) == (a as real) + (b as real);
  }

  /** With non-negative prices and quantities the subtotal is non-negative. */
  lemma SubtotalNonNegative(items: map<Product, int>)
    requires forall k :: k in items ==> k.price >= 0.0 && items[k] >= 0
    ensures Subtotal(items) >= 0.0
  {
    var lines := LineTotals(items);
    forall k | k in lines ensures lines[k] >= 0.0 {
      assert lines[k] == k.price * (items[k] as real);
    }
    SumPositive(lines);
  }

  /** The total weight is positive exactly when some entry is a shippable
      product of positive weight (given positive quantities and non-negative
      weights); shippable products of weight 0 do not count. */
  lemma TotalWeightPositive(items: map<Product, int>)
    requires AllPositive(items)
    requires forall k :: k in items && k.RequiresShipping() ==> k.kind.weight >= 0.0
    ensures TotalWeight(items) >= 0.0
    ensures TotalWeight(items) > 0.0 <==>
              exists k :: k in items && k.RequiresShipping() && k.kind.weight > 0.0
  {
    var lines := LineWeights(items);
    forall k | k in lines
      ensures lines[k] >= 0.0
      ensures lines[k] > 0.0 <==> k.RequiresShipping() && k.kind.weight > 0.0
    {
      assert (items[k] as real) > 0.0;
      if k.RequiresShipping() {
        assert lines[k] == k.kind.weight * (items[k] as real);
      }
    }
    SumPositive(lines);
  }

  // ---------------------------------------------------------------------
  // `Integer::sum` as Java computes it: 32-bit two's complement.

  const IntMin: int := -0x8000_0000
  const IntMax: int := 0x7fff_ffff

  predicate IsJavaInt(x: int) {
    IntMin <= x <= IntMax
  }

  /** Java's `a + b` on `int`: the exact sum wrapped into 32 bits. */
  function JavaIntSum(a: int, b: int): (r: int)
    requires IsJavaInt(a) && IsJavaInt(b)
    ensures IsJavaInt(r)
    ensures (r - (a + b)) % 0x1_0000_0000 == 0
    ensures IsJavaInt(a + b) ==> r == a + b
  {
    var s := a + b;
    if s > IntMax then s - 0x1_0000_0000
    else if s < IntMin then s + 0x1_0000_0000
    else s
  }

  /** `items.merge(p, q, Integer::sum)` as written, with the 32-bit sum. */
  function MergeAsWritten(items: map<Product, int>, p: Product, q: int): (m: map<Product, int>)
    requires IsJavaInt(q) && (p in items ==> IsJavaInt(items[p]))
    ensures m.Keys == items.Keys + {p}
    ensures p in items ==> m[p] == JavaIntSum(items[p], q)
    ensures p !in items ==> m[p] == q
    ensures forall k :: k in items && k != p ==> m[k] == items[k]
  {
    items[p := if p in items then JavaIntSum(items[p], q) else q]
  }

  /** Two additions of a product with `Integer.MAX_VALUE` in stock, each
      passing the per-call stock check, leave the cart requesting -2 of it:
      the merged quantity wraps around, then passes the checkout stock check
      and prices the line negatively.  Checkout then calls
      `reduceQuantity(-2)`, whose 32-bit `quantity -= amount` wraps the stock
      to `Integer.MIN_VALUE + 1`.  `Merge`, used by `Cart.Add`, keeps the
      requested quantity positive instead (`MergeKeepsPositive`). */
  lemma MergeOverflowWitness(p: Product)
    requires p.quantity == IntMax && p.price > 0.0
    ensures CheckAdd(p, IntMax) == Pass
    ensures var m := MergeAsWritten(MergeAsWritten(map[], p, IntMax), p, IntMax);
            m[p] == -2 && !AllPositive(m) && !(m[p] > p.quantity) && LineTotal(p, m[p]) < 0.0
    ensures JavaIntSum(p.quantity, 2) == IntMin + 1
    ensures Merge(Merge(map[], p, IntMax), p, IntMax)[p] == 2 * IntMax
  {
  }
}
