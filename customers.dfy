/** `Customer`: a name and a balance that is only ever reduced, and only
    when it covers the amount. */
module Customers {
  import opened Text
  import opened Failures

  /** The checks of the `Customer` constructor: blank name first, then a
      negative balance. */
  function CheckCustomer(name: string, balance: real): (r: Outcome)
    ensures r == Pass <==> HasVisibleChar(name) && balance >= 0.0
    ensures !HasVisibleChar(name) ==> r == Fail(IllegalArgument(BlankCustomerName))
    ensures HasVisibleChar(name) && balance < 0.0 ==> r == Fail(IllegalArgument(NegativeBalance))
  {
    if IsBlank(name) then Fail(IllegalArgument(BlankCustomerName))
    else if balance < 0.0 then Fail(IllegalArgument(NegativeBalance))
    else Pass
  }

  class Customer {
    const name: string
    var balance: real

    ghost predicate Valid()
      reads this
    {
      HasVisibleChar(name) && balance >= 0.0
    }

    /** The field assignments of the Java constructor, after its checks. */
    constructor (name: string, balance: real)
      requires CheckCustomer(name, balance) == Pass
      ensures this.name == name && this.balance == balance
      ensures Valid()
    {
      this.name := name;
      this.balance := balance;
    }

    /** `new Customer(name, balance)`. */
    static method New(name: string, balance: real) returns (r: Result<Customer>)
      ensures r.Success? <==> CheckCustomer(name, balance) == Pass
      ensures r.Failure? ==> Fail(r.error) == CheckCustomer(name, balance)
      ensures r.Success? ==> fresh(r.value) && r.value.Valid()
      ensures r.Success? ==> r.value.name == name && r.value.balance == balance
    {
      var c := CheckCustomer(name, balance);
      if c.Fail? {
        return Failure(c.error);
      }
      var customer := new Customer(name, balance);
      return Success(customer);
    }

    /** `deduct(amount)`: refuses an amount above the balance, and otherwise
        takes exactly `amount`.  The balance never becomes negative. */
    method Deduct(amount: real) returns (r: Outcome)
      modifies this
      ensures r == Pass <==> amount <= old(balance)
      ensures r.Fail? ==> r == Fail(IllegalState(InsufficientBalance(name))) && balance == old(balance)
      ensures r.Pass? ==> balance == old(balance) - amount
      ensures old(balance) >= 0.0 ==> balance >= 0.0
      ensures old(Valid()) ==> Valid()
    {
      if amount > balance {
        return Fail(IllegalState(InsufficientBalance(name)));
      }
      balance := balance - amount;
      return Pass;
    }
  }
}
