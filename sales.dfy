/**
 * The `Sale` class and its subclass `SaleWithTaxes` of index.ts.
 *
 * Neither class writes a field after its constructor, so an instance is a
 * value: one datatype with a variant per class.  The field `amount`, declared
 * in `Sale`, is present in both variants, as it is in every instance of the
 * subclass.
 */
module Sales {

  datatype Sale =
    | Sale(amount: int)
    | SaleWithTaxes(tax: int, amount: int)

  /**
   * The implementation of `getTotal` that `Sale` declares, applied to any
   * instance; this is what `super.getTotal()` runs from inside the subclass.
   */
  function BaseTotal(s: Sale): (r: int)
    ensures r == s.amount
  {
    s.amount
  }

  /**
   * `s.getTotal()` with dynamic dispatch: a plain sale returns its amount,
   * negatives included, and the override adds the tax to the parent's
   * implementation evaluated on the same instance.
   */
  function GetTotal(s: Sale): (r: int)
    ensures s.Sale? ==> r == s.amount
    ensures s.SaleWithTaxes? ==> r == s.tax + BaseTotal(s)
  {
    match s
    case Sale(_) => BaseTotal(s)
    case SaleWithTaxes(tax, _) => tax + BaseTotal(s)
  }

  /**
   * A taxed sale totals exactly its tax more than an untaxed sale of the
   * same amount.
   */
  lemma TaxedTotalExceedsByTax(tax: int, amount: int)
    ensures GetTotal(SaleWithTaxes(tax, amount)) - GetTotal(Sale(amount)) == tax
  {
  }
}
