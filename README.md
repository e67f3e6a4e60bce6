# Checkout rules of the Fawry e-commerce challenge, in Dafny

This project models the business rules of `FawryChallenge.java`: products
with a stock that is only ever reduced when it covers the amount, a
customer whose balance is only ever reduced when it covers the amount, a
cart that accumulates requested quantities, and `CheckoutService.checkout`,
which validates every line, computes the amount (subtotal plus a flat
shipping fee of 30 when anything with weight ships), charges the customer
and only then takes the requested quantities out of stock.

Modules, one per class of the source plus three helpers:

- `Failures`: the two exception classes the code throws
  (`IllegalArgumentException`, `IllegalStateException`) as an `Error`
  datatype whose payload says which check raised it; `Outcome` stands for a
  `void` method that may throw, `Result<T>` for a constructor that may throw.
- `Text`: Java's `String.trim()`, used by the blank-name checks.
- `Sums`: an order-independent sum over a finite map, the model of the
  `stream().mapToDouble(...).sum()` folds over a `HashMap` whose iteration
  order is unspecified.
- `Products`: `Product`, `ShippableProduct`, `SimpleProduct`. The subclass
  becomes a tag `Kind = Simple | Shippable(weight)`; `requiresShipping()` is
  the predicate `RequiresShipping`, true for the shippable tag. `quantity` is
  the one field the code updates; the others are never reassigned and are
  `const`. Java constructors that throw become `NewSimple`/`NewShippable`,
  which run the pure checks `CheckBase`/`CheckShippable` and allocate only
  when they pass.
- `Customers`: `Customer`, with `New` for the throwing constructor and
  `Deduct`.
- `Carts`: `Cart` keyed by the product object itself (the Java map is keyed
  by identity, since `Product` defines no `equals`/`hashCode`), with `Add`,
  `IsEmpty`, the specification functions `Subtotal`/`TotalWeight` and the
  loops `GetSubtotal`/`GetTotalWeight` that compute them.
- `CheckoutService`: the validation loop `ValidateItems` and `Checkout`.
- `Scenario`: the values of the demonstration program (cheese 100 at 0.2 kg,
  biscuits 150 at 0.7 kg, a scratch card at 50, a balance of 1000), whose
  outcomes are derived from the contracts alone: the first checkout charges
  430 and leaves 570.

Money and weights are exact `real`s, stock and requested quantities `int`s,
null references `Product?`, `Customer?`, `Cart?`.

Facts of the code the model keeps:

- `deduct` throws `IllegalStateException` when the balance does not cover the
  amount (`FawryChallenge.java:112`), modelled as `IllegalState(InsufficientBalance(name))`.
- A name is blank when `trim()` leaves nothing (`FawryChallenge.java:16`,
  `:92`), so a name made only of spaces or control characters is refused.
- The demonstration cart also holds the scratch card, so its subtotal is 400
  and its amount 430 (`FawryChallenge.java:248-250`).

## Model

| member | source | states |
|---|---|---|
| `Text.TrimLeading` | FawryChallenge.java:16 | the result is a suffix of the name, every dropped character is at most U+0020, and the result is empty or starts with a character above U+0020 |
| `Text.TrimTrailing` | FawryChallenge.java:16 | the result is a prefix of its argument, every dropped character is at most U+0020, and the result is empty or ends with a character above U+0020 |
| `Text.Trim` | FawryChallenge.java:16 | `name.trim()` is empty exactly when the name has no character above U+0020; otherwise it starts and ends with one |
| `Products.CheckBase` | FawryChallenge.java:15-24 | the `Product` constructor's checks pass exactly when the name has a visible character, the price is non-negative and the quantity is non-negative; otherwise the error is that of the first failing check in the order name, price, quantity |
| `Products.CheckShippable` | FawryChallenge.java:60-64 | the `ShippableProduct` checks pass exactly when the base checks pass and the weight is non-negative; a base failure is reported as such, before the weight is looked at |
| `Products.CheckIsWellFormed` | FawryChallenge.java:15-28 | the checks pass exactly when the arguments make a well-formed product (the invariant every constructed product satisfies) |
| `Products.Product.constructor` | FawryChallenge.java:25-28 | once the checks have passed, the fields equal the arguments and the product is well formed |
| `Products.Product.NewSimple` | FawryChallenge.java:77-80 | `new SimpleProduct(...)` succeeds exactly when the base checks pass, yielding a fresh well-formed product with the given fields and no weight; otherwise it fails with the checks' error |
| `Products.Product.NewShippable` | FawryChallenge.java:60-66 | `new ShippableProduct(...)` succeeds exactly when the shippable checks pass, yielding a fresh well-formed product carrying the weight; otherwise it fails with the checks' error |
| `Products.Product.RequiresShipping` | FawryChallenge.java:72-84 | `requiresShipping()` is true exactly for a product that is not of the simple kind: every `ShippableProduct` ships and no `SimpleProduct` does (the factories `NewShippable`/`NewSimple` state which they build) |
| `Products.Product.ReduceQuantity` | FawryChallenge.java:47-52 | fails exactly when the amount exceeds the stock, leaving it unchanged; otherwise the stock drops by exactly the amount; stock never becomes negative and well-formedness is kept |
| `Customers.CheckCustomer` | FawryChallenge.java:91-97 | the `Customer` checks pass exactly when the name has a visible character and the balance is non-negative; the blank name is reported first |
| `Customers.Customer.constructor` | FawryChallenge.java:98-99 | once the checks have passed, the fields equal the arguments and the customer is well formed |
| `Customers.Customer.New` | FawryChallenge.java:91-100 | `new Customer(...)` succeeds exactly when the checks pass, yielding a fresh customer with the given name and balance; otherwise it fails with the checks' error |
| `Customers.Customer.Deduct` | FawryChallenge.java:110-115 | fails with an insufficient-balance `IllegalState` exactly when the amount exceeds the balance, leaving it unchanged; otherwise the balance drops by exactly the amount and never becomes negative |
| `Carts.CheckAdd` | FawryChallenge.java:126-134 | `add` accepts exactly a non-null product and a quantity with `0 < quantity <= current stock`; otherwise null product, non-positive quantity, then exceeding stock, in that order |
| `Carts.Merge` | FawryChallenge.java:135 | `merge(product, quantity, Integer::sum)`: the product's requested quantity becomes the old one (or 0) plus the quantity, every other entry is unchanged |
| `Carts.Cart.constructor` | FawryChallenge.java:121-123 | a new cart is empty |
| `Carts.Cart.Add` | FawryChallenge.java:125-136 | the outcome is that of the checks; on success the map is the merge of the old map, on failure it is unchanged; every requested quantity stays positive |
| `Carts.MergeTwice` | FawryChallenge.java:135 | two additions of one product request the sum of both quantities |
| `Carts.MergeKeepsPositive` | FawryChallenge.java:129-135 | adding a positive quantity keeps every requested quantity positive |
| `Carts.PerCallStockCheck` | FawryChallenge.java:132-135 | the stock check is per call, not cumulative: with 4 in stock, adding 2 and then 3 both pass and request 5 |
| `Carts.EmptyTotals` | FawryChallenge.java:142-159 | an empty cart has subtotal 0 and total weight 0 |
| `Carts.Cart.IsEmpty` | FawryChallenge.java:142-144 | the cart is empty exactly when it requests nothing at all: its map has no entry |
| `Carts.LineTotal` | FawryChallenge.java:148 | a line's price times quantity is 0 for quantity 0, non-negative for a non-negative price and quantity, and negative for a positive price and negative quantity |
| `Carts.Cart.GetSubtotal` | FawryChallenge.java:146-150 | the fold, taking the entries in any order, yields the sum over all entries of price times quantity |
| `Carts.Cart.GetTotalWeight` | FawryChallenge.java:152-159 | the fold, taking the entries in any order, yields the sum over the shippable entries of weight times quantity |
| `Carts.SubtotalMerge` | FawryChallenge.java:146-150 | adding `q` of a product raises the subtotal by exactly its price times `q` |
| `Carts.TotalWeightMerge` | FawryChallenge.java:152-159 | adding `q` of a product raises the weight by exactly its weight times `q`, and not at all for a simple product |
| `Carts.SubtotalNonNegative` | FawryChallenge.java:146-150 | non-negative prices and quantities give a non-negative subtotal |
| `Carts.TotalWeightPositive` | FawryChallenge.java:152-159 | the total weight is non-negative, and positive exactly when some entry is a shippable product of positive weight |
| `Sums.SumOverRemove` | FawryChallenge.java:147-149 | any entry may be summed first: the folds do not depend on the map's iteration order |
| `Carts.JavaIntSum` | FawryChallenge.java:135 | Java's `int` addition: a 32-bit value congruent to the exact sum modulo 2^32, equal to it when it fits |
| `Carts.MergeAsWritten` | FawryChallenge.java:135 | the merge as compiled: the product's entry becomes the 32-bit sum of the old quantity and the new one (or the new one alone), every other entry is unchanged, and the key set gains only the product |
| `Carts.MergeOverflowWitness` | FawryChallenge.java:132-135 | with `Integer.MAX_VALUE` in stock, two additions of `Integer.MAX_VALUE` both pass the per-call check and leave -2 requested, a line that passes the checkout stock check and prices negatively, and the 32-bit `quantity -= -2` at line 51 then wraps the stock to `Integer.MIN_VALUE + 1`; the exact merge requests 2 × `Integer.MAX_VALUE` |
| `CheckoutService.ValidateItems` | FawryChallenge.java:175-184 | passes exactly when no line is expired and none requests more than the current stock; a failure is the expiry or out-of-stock error of one offending line, expiry checked first |
| `CheckoutService.ShippingFee` | FawryChallenge.java:188 | the fee is `SHIPPING_RATE` (30) exactly when the total weight is positive, and 0 exactly when it is not |
| `CheckoutService.Total` | FawryChallenge.java:186-189 | the amount charged lies between the subtotal and the subtotal plus 30, and equals the subtotal exactly when nothing of positive weight ships |
| `CheckoutService.Checkout` | FawryChallenge.java:165-235 | null customer, then null cart, are refused; it succeeds exactly when every line is valid and the balance covers subtotal plus shipping; any failure leaves the balance and every stock unchanged (in particular a refused charge reduces no stock); on success the balance drops by exactly that amount and each product's stock by exactly its requested quantity, and the final stock reductions cannot fail |
| `CheckoutService.ShippingFeeCharged` | FawryChallenge.java:186-188 | the fee is 30 exactly when some line is a shippable product of positive weight, and 0 exactly when every shippable line weighs 0 |
| `CheckoutService.TotalBounds` | FawryChallenge.java:186-189 | the amount is the subtotal plus at most one fee of 30, and is non-negative for non-negative prices |
| `CheckoutService.EmptyCartCostsNothing` | FawryChallenge.java:186-190 | an empty cart's amount is 0, so its checkout leaves the balance as it was |
| `Scenario.DemoTotals` | FawryChallenge.java:241-250 | for the demonstration products, 2 cheeses, 1 biscuits and 1 scratch card give a subtotal of 400, a weight of 1.1 and an amount of 430 |
| `Scenario.DemoCart` | FawryChallenge.java:241-250 | the demonstration cart holds 2 cheeses, 1 biscuits and 1 scratch card and costs 430 |

## Left out

- Console output: the shipment notice and the receipt (`FawryChallenge.java:192-229`) are printing with `printf` rounding; the model has no output. Their figures are `Subtotal`, `ShippingFee`, `Total` and `LineTotal`.
- The `main` driver (`FawryChallenge.java:238-316`) is a script; only its values are reused, in `Scenario`, and its `try`/`catch` reporting is not modelled.
- Floating point: prices, weights and balances are exact reals, so `double` rounding (for example in `0.2 * 2 + 0.7`) is not modelled.
- Null names: Dafny strings cannot be null, so the `name == null` half of the name checks (`FawryChallenge.java:16`, `:92`) is not modelled; null products, customers and carts are.
- `String.trim()` is modelled on Dafny characters; Java's UTF-16 code units are not.
- Products.Product.ReduceQuantity: stock and requested quantities are unbounded integers outside the `Carts.MergeAsWritten` finding, so it does not model the wrap-around of `quantity -= amount` (`FawryChallenge.java:51`) for a negative `amount`; the case that reaches it from checkout, through the wrapped merge, is shown by `Carts.MergeOverflowWitness`.
- The getters (`getName`, `getPrice`, `getQuantity`, `isExpired`, `getWeight`, `getBalance`) are plain field reads; `getItems()` returns a copy, which a Dafny `map` value is.
- The `Shippable` interface and the `instanceof Shippable` test: with the tagged kind they coincide with `requiresShipping()`.
- CheckoutService.Checkout: does not say which offending line is reported when several fail, because that depends on `HashMap` iteration order; it promises one of them.
- The cart is not cleared after checkout, as in the code.

## Findings

| source | as written | input that shows it | evidently intended | confidence | as-written member | corrected member |
|---|---|---|---|---|---|---|
| FawryChallenge.java:135 | `items.merge(product, quantity, Integer::sum)` adds two Java `int`s and wraps at 2^31, while the stock check at line 132 looks only at the quantity of the call | a product with `Integer.MAX_VALUE` in stock, `add(p, Integer.MAX_VALUE)` twice: both calls pass, the cart requests -2, checkout's stock check passes, the line total is negative, so `deduct` (line 113) raises the balance, and `reduceQuantity(-2)` wraps the stock from `Integer.MAX_VALUE` to `Integer.MIN_VALUE + 1` | the requested quantity is the exact sum and stays positive | medium; not executed | `Carts.MergeOverflowWitness` | `Carts.Merge` (its invariant proved by `Carts.MergeKeepsPositive`) |
