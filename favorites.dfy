/** The favourites page: its own unit conversion, which lowercases the unit
    and knows kilograms, densities and grams per piece; the sums behind each
    favourite's figures, which may count calories per piece; and the removal
    of a favourite from the page's list. The dish page uses the same
    conversion and sums. */
module Favorites {
  import opened Wrappers
  import opened Seqs
  import opened Domain
  import opened DishStats
  import DishList

  /** `x ?? d`. */
  function OrElse(x: Option<real>, d: real): real {
    if x.Some? then x.value else d
  }

  /** `unit?.toLowerCase() || 'г'`; `lower` stands for `toLowerCase`. */
  function Lowered(unit: string, lower: string -> string): (u: string)
    ensures u != ""
  {
    if lower(unit) == "" then "г" else lower(unit)
  }

  /** `convertToGrams(quantity, unit, {gramsPerPiece, densityGPerMl})`. */
  function ConvertToGrams(quantity: real, unit: string, lower: string -> string, gramsPerPiece: Option<real>, densityGPerMl: Option<real>): real {
    var u := Lowered(unit, lower);
    if u == "г" || u == "g" || u == "гр" then quantity
    else if u == "кг" then quantity * 1000.0
    else if u == "мл" then quantity * OrElse(densityGPerMl, 1.0)
    else if u == "шт" then quantity * OrElse(gramsPerPiece, 0.0)
    else if u == "ст.л." then quantity * 15.0
    else if u == "ч.л." then quantity * 5.0
    else if u == "стакан" then quantity * 200.0
    else quantity
  }

  /** A row's weight in grams, with its ingredient's piece weight and
      density. */
  function Grams(lower: string -> string, di: DishIngredient): real {
    ConvertToGrams(di.quantity, DishList.UnitOf(di), lower, di.ingredient.gramsPerPiece, di.ingredient.densityGPerMl)
  }

  /** Whether a row's calories are counted per piece: its unit, as written
      and not lowercased, is `шт` and its ingredient has a per-piece
      value. */
  predicate PerPiece(di: DishIngredient) {
    DishList.UnitOf(di) == "шт" && di.ingredient.caloriesPerPiece.Some?
  }

  /** What one row adds. */
  function Contribution(lower: string -> string, di: DishIngredient): Totals {
    var g := Grams(lower, di);
    var ing := di.ingredient;
    if g <= 0.0 then ZERO
    else Totals(
      if PerPiece(di) then ing.caloriesPerPiece.value * di.quantity
      else if ing.caloriesPer100g > 0.0 then ing.caloriesPer100g * g / 100.0
      else 0.0,
      ing.glycemicIndex * g,
      g,
      ing.breadUnitsIn1g * g)
  }

  /** `Contribution` for a fixed `toLowerCase`, as the sums take it. */
  function Adder(lower: string -> string): DishIngredient -> Totals {
    di => Contribution(lower, di)
  }

  /** One row's addition spelled out for its weight in grams. */
  lemma ContributionOf(lower: string -> string, di: DishIngredient, g: real)
    requires g == Grams(lower, di)
    ensures g <= 0.0 ==> Contribution(lower, di) == ZERO
    ensures g > 0.0 ==> Contribution(lower, di) == Totals(
      if PerPiece(di) then di.ingredient.caloriesPerPiece.value * di.quantity
      else if di.ingredient.caloriesPer100g > 0.0 then di.ingredient.caloriesPer100g * g / 100.0
      else 0.0,
      di.ingredient.glycemicIndex * g, g, di.ingredient.breadUnitsIn1g * g)
  {
  }

  /** The `forEach` callback of `calculateDishStats`: adds one row to the
      four running sums. */
  method AddIngredient(lower: string -> string, di: DishIngredient, calories: real, totalGi: real, totalWeight: real, totalBreadUnits: real)
    returns (calories': real, totalGi': real, totalWeight': real, totalBreadUnits': real)
    ensures Totals(calories', totalGi', totalWeight', totalBreadUnits') == Plus(Totals(calories, totalGi, totalWeight, totalBreadUnits), Contribution(lower, di))
  {
    calories', totalGi', totalWeight', totalBreadUnits' := calories, totalGi, totalWeight, totalBreadUnits;
    var ing := di.ingredient;
    var unit := DishList.UnitOf(di);
    var grams := ConvertToGrams(di.quantity, unit, lower, ing.gramsPerPiece, ing.densityGPerMl);
    ContributionOf(lower, di, grams);
    if grams > 0.0 {
      totalWeight' := totalWeight' + grams;
      if unit == "шт" && ing.caloriesPerPiece.Some? {
        calories' := calories' + ing.caloriesPerPiece.value * di.quantity;
      } else if ing.caloriesPer100g > 0.0 {
        calories' := calories' + ing.caloriesPer100g * grams / 100.0;
      }
      totalGi' := totalGi' + ing.glycemicIndex * grams;
      totalBreadUnits' := totalBreadUnits' + ing.breadUnitsIn1g * grams;
    }
  }

  /** `calculateDishStats` before rounding: the rows added one by one to the
      four running sums. */
  method CalculateTotals(rows: seq<DishIngredient>, lower: string -> string) returns (t: Totals)
    ensures t == SumTotals(rows, Adder(lower))
  {
    var calories, totalGi, totalWeight, totalBreadUnits := 0.0, 0.0, 0.0, 0.0;
    var i := 0;
    SumStart(rows, Adder(lower));
    while i < |rows|
      invariant 0 <= i <= |rows|
      invariant Plus(Totals(calories, totalGi, totalWeight, totalBreadUnits), SumTotals(rows[i..], Adder(lower))) == SumTotals(rows, Adder(lower))
    {
      ghost var before := Totals(calories, totalGi, totalWeight, totalBreadUnits);
      calories, totalGi, totalWeight, totalBreadUnits := AddIngredient(lower, rows[i], calories, totalGi, totalWeight, totalBreadUnits);
      SumStep(rows, Adder(lower), i, before, Totals(calories, totalGi, totalWeight, totalBreadUnits));
      i := i + 1;
    }
    SumEnd(rows, Adder(lower), Totals(calories, totalGi, totalWeight, totalBreadUnits));
    t := Totals(calories, totalGi, totalWeight, totalBreadUnits);
  }

  /** The favourites with `dishId` removed, in their order. */
  function Without(favorites: seq<Dish>, dishId: int): seq<Dish> {
    Filter(favorites, (d: Dish) => d.id != dishId)
  }

  /** The page's list of favourites. */
  class FavoritesPage {
    var favorites: seq<Dish>

    constructor (initial: seq<Dish>)
      ensures favorites == initial
    {
      favorites := initial;
    }

    /** `handleRemoveFavorite`: `removed` is what the server answered to the
        removal; the list changes only when it succeeded. */
    method RemoveFavorite(dishId: int, removed: Result<(), Thrown>)
      modifies this
      ensures removed.Success? ==> favorites == Without(old(favorites), dishId)
      ensures removed.Failure? ==> favorites == old(favorites)
    {
      if removed.Success? {
        favorites := Without(favorites, dishId);
      }
    }
  }

  // ----- Properties -----

  /** The unit is compared in lower case: two spellings with the same lower
      case weigh the same. */
  lemma CaseInsensitive(q: real, a: string, b: string, lower: string -> string, gramsPerPiece: Option<real>, densityGPerMl: Option<real>)
    requires lower(a) == lower(b)
    ensures ConvertToGrams(q, a, lower, gramsPerPiece, densityGPerMl) == ConvertToGrams(q, b, lower, gramsPerPiece, densityGPerMl)
  {
  }

  /** Apart from kilograms, millilitres and pieces this table agrees with the
      dish list's: grams, `g` and `гр` and unknown units keep the quantity,
      spoons and glasses have the same factors. */
  lemma AgreesWithListTable(q: real, unit: string, lower: string -> string, gramsPerPiece: Option<real>, densityGPerMl: Option<real>)
    requires unit != "" && lower(unit) == unit
    requires unit != "кг" && unit != "мл" && unit != "шт"
    ensures ConvertToGrams(q, unit, lower, gramsPerPiece, densityGPerMl) == DishList.ConvertToGrams(q, unit)
  {
  }

  /** Where the two tables differ: a kilogram is 1000 g here and 1 there, a
      millilitre weighs the density (1 without one) here, and a piece weighs
      the piece weight (0 without one) here but 1 there. */
  lemma WhereTablesDiffer(q: real, lower: string -> string, gramsPerPiece: Option<real>, densityGPerMl: Option<real>)
    requires lower("кг") == "кг" && lower("мл") == "мл" && lower("шт") == "шт"
    ensures ConvertToGrams(q, "кг", lower, gramsPerPiece, densityGPerMl) == 1000.0 * q && DishList.ConvertToGrams(q, "кг") == q
    ensures ConvertToGrams(q, "мл", lower, gramsPerPiece, densityGPerMl) == q * OrElse(densityGPerMl, 1.0) && DishList.ConvertToGrams(q, "мл") == q
    ensures ConvertToGrams(q, "шт", lower, gramsPerPiece, densityGPerMl) == q * OrElse(gramsPerPiece, 0.0) && DishList.ConvertToGrams(q, "шт") == q
    ensures gramsPerPiece.None? ==> ConvertToGrams(q, "шт", lower, gramsPerPiece, densityGPerMl) == 0.0
  {
    DishList.ConversionFactors(q, "кг");
  }

  /** A piece row whose ingredient has no piece weight weighs nothing and is
      skipped entirely, calories per piece included. */
  lemma PieceWithoutWeightSkipped(lower: string -> string, di: DishIngredient)
    requires Lowered(DishList.UnitOf(di), lower) == "шт" && di.ingredient.gramsPerPiece.None?
    ensures Grams(lower, di) == 0.0
    ensures Contribution(lower, di) == ZERO
  {
  }

  /** Calories of a counted row: per piece when its unit as written is `шт`
      and a per-piece value exists, otherwise from a positive per-100 g
      value, otherwise none. A unit that only lowercases to `шт` gets its
      weight from the piece weight but its calories per 100 g. */
  lemma RowCalories(lower: string -> string, di: DishIngredient)
    requires Grams(lower, di) > 0.0
    ensures PerPiece(di) ==> Contribution(lower, di).calories == di.ingredient.caloriesPerPiece.value * di.quantity
    ensures !PerPiece(di) && di.ingredient.caloriesPer100g > 0.0 ==>
      Contribution(lower, di).calories == di.ingredient.caloriesPer100g * Grams(lower, di) / 100.0
    ensures !PerPiece(di) && di.ingredient.caloriesPer100g <= 0.0 ==> Contribution(lower, di).calories == 0.0
    ensures DishList.UnitOf(di) != "шт" ==> !PerPiece(di)
  {
  }

  /** Rows that weigh nothing add nothing to the sums, and the total weight
      is the sum of the counted rows' weights. */
  lemma {:induction false} WeightOfCountedRows(rows: seq<DishIngredient>, lower: string -> string)
    ensures SumTotals(rows, Adder(lower)) == SumTotals(Filter(rows, di => Grams(lower, di) > 0.0), Adder(lower))
    ensures SumTotals(rows, Adder(lower)).totalWeight >= 0.0
    decreases |rows|
  {
    SkippedRowsAddNothing(rows, Adder(lower), di => Grams(lower, di) > 0.0);
    if rows != [] {
      WeightOfCountedRows(rows[1..], lower);
    }
  }

  /** Removing a favourite drops exactly the dishes with that id and keeps
      the others in their order; removing it again changes nothing. */
  lemma {:induction false} WithoutRemovesExactly(favorites: seq<Dish>, dishId: int)
    ensures forall d :: d in Without(favorites, dishId) <==> d in favorites && d.id != dishId
    ensures IsSubsequence(Without(favorites, dishId), favorites)
    ensures Without(Without(favorites, dishId), dishId) == Without(favorites, dishId)
  {
    forall d ensures d in Without(favorites, dishId) <==> d in favorites && d.id != dishId {
      FilterMembership(favorites, (d: Dish) => d.id != dishId, d);
    }
    FilterIsSubsequence(favorites, (d: Dish) => d.id != dishId);
    FilterKeepsAll(Without(favorites, dishId), (d: Dish) => d.id != dishId);
  }
}
