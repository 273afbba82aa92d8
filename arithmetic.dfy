/** The typed `sum` function of index.ts. */
module Arithmetic {

  /** `sum(a, b)`: plain addition, with no validation of its arguments. */
  function Sum(a: int, b: int): (r: int)
    ensures r == a + b
  {
    a + b
  }
}
