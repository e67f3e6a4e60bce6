/** The exceptions the checkout code throws, as values.  `IllegalArgument` and
    `IllegalState` are the two Java exception classes the code uses; the payload
    says which check raised it (and, where the message names one, which product
    or customer). */
module Failures {

  datatype ArgumentProblem =
    | BlankName
    | NegativePrice
    | NegativeQuantity
    | NegativeWeight
    | BlankCustomerName
    | NegativeBalance
    | NotEnoughStock(product: string)
    | NullProduct
    | NonPositiveQuantity
    | QuantityExceedsStock(product: string)
    | NullCustomer
    | NullCart

  datatype StateProblem =
    | Expired(product: string)
    | OutOfStock(product: string)
    | InsufficientBalance(customer: string)

  datatype Error =
    | IllegalArgument(problem: ArgumentProblem)
    | IllegalState(condition: StateProblem)

  /** The outcome of a `void` Java method that may throw. */
  datatype Outcome = Pass | Fail(error: Error)

  /** The outcome of a Java constructor or value-returning method that may throw. */
  datatype Result<+T> = Success(value: T) | Failure(error: Error)
}
