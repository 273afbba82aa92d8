/**
 * The `AlcoholicDrink` implementers `Wine` and `Cooktail` of index.ts, their
 * `showInfo` lines, and `showDrinks`, which produces one line per drink.
 *
 * The two classes share no state, only the capability set {name, alcohol,
 * showInfo}, so a drink is one datatype with a variant per class.
 */
module Drinks {
  import opened Text

  datatype Drink =
    | Wine(name: string, alcohol: int)
    | Cooktail(name: string, alcohol: int, ingredients: seq<string>)

  /** The callback given to `reduce` in `Cooktail.showInfo`. */
  function AppendIngredient(acc: string, element: string): string {
    acc + " " + element + ", "
  }

  /** `xs.reduce(f, acc)`: a left fold, first element first. */
  function Reduce(acc: string, xs: seq<string>): string
    decreases |xs|
  {
    if xs == [] then acc else Reduce(AppendIngredient(acc, xs[0]), xs[1..])
  }

  /** What one ingredient contributes to the list. */
  function Piece(e: string): string {
    " " + e + ", "
  }

  /** Reference definition: the pieces of all ingredients, concatenated in order. */
  function Pieces(xs: seq<string>): string
    decreases |xs|
  {
    if xs == [] then "" else Piece(xs[0]) + Pieces(xs[1..])
  }

  /** The number of characters in all the ingredient names together. */
  function NameLength(xs: seq<string>): nat
    decreases |xs|
  {
    if xs == [] then 0 else |xs[0]| + NameLength(xs[1..])
  }

  lemma {:induction false} ReduceIsPieces(acc: string, xs: seq<string>)
    ensures Reduce(acc, xs) == acc + Pieces(xs)
    decreases |xs|
  {
    if xs != [] {
      ReduceIsPieces(AppendIngredient(acc, xs[0]), xs[1..]);
      assert AppendIngredient(acc, xs[0]) + Pieces(xs[1..])
          == acc + (Piece(xs[0]) + Pieces(xs[1..]));
    }
  }

  lemma {:induction false} PiecesLength(xs: seq<string>)
    ensures |Pieces(xs)| == NameLength(xs) + 3 * |xs|
    decreases |xs|
  {
    if xs != [] {
      PiecesLength(xs[1..]);
    }
  }

  /** Pieces of a concatenation are the concatenation of the pieces. */
  lemma {:induction false} PiecesAppend(xs: seq<string>, ys: seq<string>)
    ensures Pieces(xs + ys) == Pieces(xs) + Pieces(ys)
    decreases |xs|
  {
    if xs == [] {
      assert xs + ys == ys;
    } else {
      assert (xs + ys)[1..] == xs[1..] + ys;
      PiecesAppend(xs[1..], ys);
    }
  }

  /**
   * Order is kept: ingredient `i` appears, as its own piece, right after the
   * pieces of the ingredients before it and right before those after it.
   */
  lemma PiecesAt(xs: seq<string>, i: nat)
    requires i < |xs|
    ensures Pieces(xs) == Pieces(xs[..i]) + Piece(xs[i]) + Pieces(xs[i + 1..])
  {
    var before, rest := xs[..i], xs[i..];
    assert xs == before + rest;
    PiecesAppend(before, rest);
    assert rest[0] == xs[i] && rest[1..] == xs[i + 1..];
    assert Pieces(rest) == Piece(xs[i]) + Pieces(xs[i + 1..]);
  }

  /** The list ends with the last ingredient's piece, hence with ", ". */
  lemma PiecesEndsWithLast(xs: seq<string>)
    ensures xs != [] ==> EndsWith(Pieces(xs), Piece(xs[|xs| - 1]))
    ensures xs != [] ==> EndsWith(Pieces(xs), ", ")
  {
    if xs != [] {
      var n := |xs| - 1;
      PiecesAt(xs, n);
      assert xs[n + 1..] == [];
    }
  }

  /**
   * The ingredient list of `Cooktail.showInfo`: the fold from the empty
   * accumulator, which is the ordered concatenation of `" " + e + ", "`,
   * empty exactly for no ingredients, and otherwise ending in the separator
   * it does not trim.
   */
  function IngredientsInfo(ingredients: seq<string>): (r: string)
    ensures r == Pieces(ingredients)
    ensures |r| == NameLength(ingredients) + 3 * |ingredients|
    ensures r == "" <==> ingredients == []
    ensures ingredients != [] ==> EndsWith(r, ", ")
  {
    ReduceIsPieces("", ingredients);
    PiecesLength(ingredients);
    PiecesEndsWithLast(ingredients);
    Reduce("", ingredients)
  }

  /** The text both implementations start with. */
  function Header(d: Drink): string {
    "info: " + d.name + " " + NumToString(d.alcohol)
  }

  /**
   * `d.showInfo()`: a wine shows its name and alcohol; a cocktail shows the
   * same and then its ingredient list.
   */
  function ShowInfo(d: Drink): (r: string)
    ensures "info: " + d.name + " " <= r
    ensures Header(d) <= r
    ensures d.Wine? ==> r == Header(d)
    ensures d.Cooktail? ==> r == Header(d) + " ingredients: " + Pieces(d.ingredients)
  {
    match d
    case Wine(name, alcohol) =>
      "info: " + name + " " + NumToString(alcohol)
    case Cooktail(name, alcohol, ingredients) =>
      "info: " + name + " " + NumToString(alcohol) + " ingredients: " + IngredientsInfo(ingredients)
  }

  /** A cocktail's line is the line of a wine with its name and alcohol, extended. */
  lemma CooktailExtendsWine(name: string, alcohol: int, ingredients: seq<string>)
    ensures ShowInfo(Cooktail(name, alcohol, ingredients))
         == ShowInfo(Wine(name, alcohol)) + " ingredients: " + IngredientsInfo(ingredients)
  {
  }

  /** The alcohol value can be read back from a wine's line, given its name. */
  lemma WineLineGivesAlcohol(name: string, alcohol: int)
    ensures |ShowInfo(Wine(name, alcohol))| > |name| + 7
    ensures ParseInt(ShowInfo(Wine(name, alcohol))[|name| + 7..]) == alcohol
  {
    var line := ShowInfo(Wine(name, alcohol));
    assert line[|name| + 7..] == NumToString(alcohol);
    NumRoundTrip(alcohol);
  }

  /**
   * A cocktail's line ends with its ingredient list; with at least one
   * ingredient it ends with ", ".
   */
  lemma CooktailLineEnds(name: string, alcohol: int, ingredients: seq<string>)
    ensures EndsWith(ShowInfo(Cooktail(name, alcohol, ingredients)), " ingredients: " + IngredientsInfo(ingredients))
    ensures ingredients != [] ==> EndsWith(ShowInfo(Cooktail(name, alcohol, ingredients)), ", ")
  {
  }

  /** `showDrinks`: one line per drink, in input order. */
  function ShowDrinks(drinks: seq<Drink>): (lines: seq<string>)
    ensures |lines| == |drinks|
    ensures forall i :: 0 <= i < |drinks| ==> lines[i] == ShowInfo(drinks[i])
    decreases |drinks|
  {
    if drinks == [] then [] else [ShowInfo(drinks[0])] + ShowDrinks(drinks[1..])
  }

  /** Every line starts with "info: ", the drink's own name and a space. */
  lemma ShowDrinksHeaders(drinks: seq<Drink>, i: nat)
    requires i < |drinks|
    ensures "info: " + drinks[i].name + " " <= ShowDrinks(drinks)[i]
  {
  }

  /** Showing two lists of drinks one after the other shows their concatenation. */
  lemma ShowDrinksAppend(xs: seq<Drink>, ys: seq<Drink>)
    ensures ShowDrinks(xs + ys) == ShowDrinks(xs) + ShowDrinks(ys)
  {
  }

  /** The ingredients of the cocktail the program builds. */
  function MargaritaList(): seq<string> {
    ["tequila", "limon", "sal", "soda", "hielo"]
  }

  lemma MargaritaPieces()
    ensures Pieces(MargaritaList()) == " tequila,  limon,  sal,  soda,  hielo, "
  {
    var xs := MargaritaList();
    assert xs[1..] == ["limon", "sal", "soda", "hielo"];
    assert xs[1..][1..] == ["sal", "soda", "hielo"];
    assert xs[1..][1..][1..] == ["soda", "hielo"];
    assert xs[1..][1..][1..][1..] == ["hielo"];
    assert xs[1..][1..][1..][1..][1..] == [];
    assert Pieces(xs) == Piece("tequila") + Piece("limon") + Piece("sal") + Piece("soda") + Piece("hielo");
  }

  /**
   * The cocktail of the program: each piece is `" " + e + ", "`, so two
   * spaces stand between consecutive ingredients and the separator after
   * the last one stays.
   */
  lemma MargaritaIngredients()
    ensures IngredientsInfo(MargaritaList()) == " tequila,  limon,  sal,  soda,  hielo, "
  {
    MargaritaPieces();
  }
}
