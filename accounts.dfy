/**
 * The `Account` class of index.ts: two numeric fields, a setter that clamps
 * negative amounts to zero, and a `total` accessor computed when it is read.
 */
module Accounts {

  /** What the setter stores for `v`: the least value that is `v` or more and not negative. */
  function Clamp(v: int): (r: int)
    ensures r >= 0 && r >= v
    ensures r == v || r == 0
  {
    if v < 0 then 0 else v
  }

  class Account {
    var amount: int
    var commision: int

    /** The constructor stores both arguments as given; it does not clamp. */
    constructor (amount: int, commision: int)
      ensures this.amount == amount && this.commision == commision
      ensures Total() == amount + commision
    {
      this.amount := amount;
      this.commision := commision;
    }

    /** The `total` accessor, evaluated from the fields at the time it is read. */
    function Total(): (r: int)
      reads this
      ensures r == amount + commision
    {
      amount + commision
    }

    /**
     * The `setAmount` setter: a negative argument is replaced by 0 before it
     * is stored; the commission is untouched.
     */
    method SetAmount(amount: int)
      modifies this`amount
      ensures this.amount == Clamp(amount)
      ensures this.amount >= 0
      ensures commision == old(commision)
      ensures Total() == Clamp(amount) + old(commision)
    {
      var a := amount;
      if a < 0 {
        a := 0;
      }
      this.amount := a;
    }
  }

  /**
   * What a caller of the class can rely on: a fresh account totals its
   * arguments, and after a set it totals the clamped amount plus the
   * commission it was built with.
   */
  method AccountTotals(amount: int, commision: int, v: int) returns (before: int, after: int)
    ensures before == amount + commision
    ensures after == Clamp(v) + commision
    ensures v < 0 ==> after == commision
  {
    var account := new Account(amount, commision);
    before := account.Total();
    account.SetAmount(v);
    after := account.Total();
  }
}
