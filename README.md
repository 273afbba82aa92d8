# A verified model of the TypeScript object-orientation walkthrough

The program is a single TypeScript script, `index.ts`, that demonstrates
typed functions, class inheritance with an overriding method, interfaces
implemented by two unrelated classes, and a class with a setter and a
getter. This project models the parts of it that have behaviour and proves
what each part does:

- `sum`, plain addition (`arithmetic.dfy`, module `Arithmetic`);
- `Sale` and `SaleWithTaxes`, where the override of `getTotal` adds the tax
  to the parent's `getTotal` on the same instance (`sales.dfy`, module
  `Sales`). Neither class writes a field after its constructor, so an
  instance is a value: one datatype with a variant per class, a function
  `BaseTotal` for the implementation `Sale` declares (what `super.getTotal()`
  runs), and `GetTotal` for the call with dynamic dispatch;
- the number-to-text step of the template literals (`text.dfy`, module
  `Text`): `NumToString` writes an integer in decimal, and `ParseInt` reads
  it back, so the rendering is shown to lose nothing;
- `Wine` and `Cooktail`, their `showInfo` lines, the `reduce` that builds a
  cocktail's ingredient list, and `showDrinks` (`drinks.dfy`, module
  `Drinks`). The two classes share only the capability set {name, alcohol,
  showInfo}, so a drink is a datatype with a variant per class. The
  `reduce` is modelled as the left fold it is (`Reduce` with the callback
  `AppendIngredient`) and proved equal to an independent right-recursive
  definition, `Pieces`; `showDrinks` returns its lines instead of printing
  them;
- `Account`, a class whose `amount` field the setter updates in place
  (`accounts.dfy`, module `Accounts`). The constructor stores its arguments
  without clamping, the setter stores `Clamp(v)` and never touches
  `commision`, and the getter is a function of the current fields.
  `AccountTotals` is a client that generalises the script's closing lines
  (build an account, set the amount, read `total`) to any arguments, and
  also reads `total` once before the set.

Each ingredient contributes `" " + e + ", "`, so consecutive ingredients are
separated by a comma and TWO spaces, and the separator after the last one is
kept (index.ts:133). The cocktail the script builds therefore shows
`" tequila,  limon,  sal,  soda,  hielo, "` (`Drinks.MargaritaIngredients`).

## Model

| member | source | states |
|---|---|---|
| `Arithmetic.Sum` | index.ts:11-13 | the result is exactly the sum of the two arguments for every input, with no precondition |
| `Sales.BaseTotal` | index.ts:28-30 | `Sale.getTotal` returns the stored amount of any instance, negatives included |
| `Sales.GetTotal` | index.ts:28-45 | a plain sale totals its constructor amount; a taxed sale totals its tax plus the parent implementation evaluated on the same instance |
| `Sales.TaxedTotalExceedsByTax` | index.ts:37-45 | a taxed sale totals exactly its tax more than an untaxed sale of the same amount |
| `Text.NatToString` | index.ts:116 | a natural number is written as a non-empty string of decimal digits with no leading zero |
| `Text.NumToString` | index.ts:116 | an integer is written without spaces: a non-negative one as decimal digits only, a negative one as `-` followed by at least one digit, with no leading zero in either case |
| `Text.NatRoundTrip` | index.ts:116 | reading the decimal digits of a natural number back gives the number |
| `Text.NumRoundTrip` | index.ts:116 | reading the text of an integer back gives the integer |
| `Text.NumToStringInjective` | index.ts:116 | two integers with the same text are equal |
| `Drinks.ReduceIsPieces` | index.ts:132-133 | the left fold from any accumulator equals the accumulator followed by the ordered concatenation of `" " + e + ", "` over the list |
| `Drinks.PiecesLength` | index.ts:132-133 | the ingredient list has as many characters as all names together plus three per ingredient |
| `Drinks.PiecesAppend` | index.ts:132-133 | the list of a concatenation of ingredients is the concatenation of their lists |
| `Drinks.PiecesAt` | index.ts:132-133 | ingredient i's piece sits exactly between the pieces of the ingredients before it and those after it |
| `Drinks.PiecesEndsWithLast` | index.ts:132-133 | a non-empty list ends with the last ingredient's piece, hence with `", "` |
| `Drinks.IngredientsInfo` | index.ts:132-133 | the fold from `""` is the ordered concatenation of the pieces, has length names plus three per ingredient, is empty exactly when there are no ingredients, and otherwise ends with the untrimmed `", "` |
| `Drinks.ShowInfo` | index.ts:115-134 | every line starts with `"info: " + name + " "` and the alcohol's text; a wine's line is exactly that; a cocktail's continues with `" ingredients: "` and the ordered pieces of its ingredients |
| `Drinks.CooktailExtendsWine` | index.ts:115-134 | a cocktail's line is the line of a wine with the same name and alcohol, followed by `" ingredients: "` and the folded list |
| `Drinks.WineLineGivesAlcohol` | index.ts:116 | the alcohol value is read back from a wine's line after `"info: " + name + " "` |
| `Drinks.CooktailLineEnds` | index.ts:132-134 | a cocktail's line ends with `" ingredients: "` and its list, and with `", "` when it has an ingredient |
| `Drinks.MargaritaPieces` | index.ts:132-138 | the pieces of the script's five ingredients, in the order given, concatenate to `" tequila,  limon,  sal,  soda,  hielo, "` |
| `Drinks.MargaritaIngredients` | index.ts:132-138 | the script's cocktail shows `" tequila,  limon,  sal,  soda,  hielo, "`, double spaces and trailing separator included |
| `Drinks.ShowDrinks` | index.ts:146-148 | exactly one line per drink, line i being drink i's `showInfo`, in input order |
| `Drinks.ShowDrinksHeaders` | index.ts:146-148 | line i starts with `"info: "`, the name of drink i and a space |
| `Drinks.ShowDrinksAppend` | index.ts:146-148 | showing two lists of drinks in turn gives the lines of their concatenation |
| `Accounts.Clamp` | index.ts:162-166 | the stored value is not negative, at least the argument, and either the argument or 0 |
| `Accounts.Account.constructor` | index.ts:157-160 | both fields hold the arguments unclamped, so `total` is their sum even for a negative amount |
| `Accounts.Account.Total` | index.ts:168-170 | `total` is the current amount plus the commission, computed when read and changing no field |
| `Accounts.Account.SetAmount` | index.ts:162-166 | afterwards the amount is the argument if not negative and 0 otherwise, never negative; the commission is unchanged and `total` is the clamped value plus the commission |
| `Accounts.AccountTotals` | index.ts:157-175 | a fresh account totals amount plus commission; after a set it totals the clamped value plus the commission, and just the commission for a negative value |

## Left out

- Console output (`console.log`, `console.info`): `showDrinks` returns its lines instead of printing them, and the other printing calls are not modelled.
- The variable declarations at the top of the script and the literal demonstration calls other than the cocktail's ingredient list: they carry no logic.
- The `Beer` and `Snack` types, `show`, `readonly`, the optional `brand` and the `Beer & Snack` intersection: they are compile-time typing and one print, with no behaviour to prove.
- The interfaces `Drink`, `AlcoholicDrink` and `MixedDrink` as types: the datatype `Drink` gives every variant the fields and the `showInfo` they require.
- Numbers are unbounded integers, not IEEE doubles: floating-point rounding is not modelled, and the script's fractional values (12.5, 4.5, 1.45) cannot be written, so `MargaritaIngredients` speaks only of the ingredient list, which holds no number.
- `Text.NumToString`: agrees with the program's number-to-text conversion only for safe integers (magnitude at most 2^53); above that the conversion writes the shortest digit string that reads back to the same double, padded with zeros (2^64 becomes "18446744073709552000"), and from 10^21 on it uses exponent notation; neither case, nor non-integral numbers, is modelled.
- `Sales.GetTotal`: the subclass is a variant of one datatype rather than a class extending another, so field protection (`protected`, `private`) is not modelled.
- `Accounts.Account.SetAmount`: the fields `amount` and `commision` are private in the program (index.ts:154-155) but public in the class here, since Dafny has no member visibility inside a module; a client of the model could write `amount` directly and bypass the clamp, which the program's clients cannot.
