/** The dish list page: its unit table, the sums behind each dish's
    figures, which dishes a visitor may see, the filters of the `filters`
    slice applied to them, and the shortened description on each card.
    The "my dishes" page uses the same table, sums and shortening. */
module DishList {
  import opened Wrappers
  import opened Strings
  import opened Seqs
  import opened Domain
  import opened DishStats
  import opened FiltersSlice

  // ----- Units -----

  /** `conversionRates[unit]`: the table's entry for the unit, if any. */
  function TableRate(unit: string): Option<real> {
    if unit == "г" then Some(1.0)
    else if unit == "мл" then Some(1.0)
    else if unit == "шт" then Some(0.0)
    else if unit == "ст.л." then Some(15.0)
    else if unit == "ч.л." then Some(5.0)
    else if unit == "стакан" then Some(200.0)
    else None
  }

  /** `conversionRates[unit] || 1`: a missing entry, and the zero entry of
      `шт`, both become 1. */
  function Factor(unit: string): (f: real)
    ensures f >= 1.0
    ensures TableRate(unit).Some? && TableRate(unit).value != 0.0 ==> f == TableRate(unit).value
  {
    match TableRate(unit)
    case Some(r) => if r != 0.0 then r else 1.0
    case None => 1.0
  }

  /** `convertToGrams(quantity, unit)`. */
  function ConvertToGrams(quantity: real, unit: string): real {
    quantity * Factor(unit)
  }

  /** `di.unit || 'г'`. */
  function UnitOf(di: DishIngredient): (u: string)
    ensures u != ""
  {
    if Present(di.unit) then di.unit.value else "г"
  }

  function Grams(di: DishIngredient): real {
    ConvertToGrams(di.quantity, UnitOf(di))
  }

  /** What one row adds: nothing when it weighs nothing; calories only from
      a positive per-100 g value. */
  function Contribution(di: DishIngredient): Totals {
    var g := Grams(di);
    var ing := di.ingredient;
    if g <= 0.0 then ZERO
    else Totals(
      if ing.caloriesPer100g > 0.0 then ing.caloriesPer100g * g / 100.0 else 0.0,
      ing.glycemicIndex * g,
      g,
      ing.breadUnitsIn1g * g)
  }

  /** One row's addition spelled out for its weight in grams. */
  lemma ContributionOf(di: DishIngredient, g: real)
    requires g == Grams(di)
    ensures g <= 0.0 ==> Contribution(di) == ZERO
    ensures g > 0.0 ==> Contribution(di) == Totals(
      if di.ingredient.caloriesPer100g > 0.0 then di.ingredient.caloriesPer100g * g / 100.0 else 0.0,
      di.ingredient.glycemicIndex * g, g, di.ingredient.breadUnitsIn1g * g)
  {
  }

  /** The `forEach` callback of `calculateDishStats`: adds one row to the
      four running sums. */
  method AddIngredient(di: DishIngredient, calories: real, totalGi: real, totalWeight: real, totalBreadUnits: real)
    returns (calories': real, totalGi': real, totalWeight': real, totalBreadUnits': real)
    ensures Totals(calories', totalGi', totalWeight', totalBreadUnits') == Plus(Totals(calories, totalGi, totalWeight, totalBreadUnits), Contribution(di))
  {
    calories', totalGi', totalWeight', totalBreadUnits' := calories, totalGi, totalWeight, totalBreadUnits;
    var ing := di.ingredient;
    var grams := ConvertToGrams(di.quantity, UnitOf(di));
    ContributionOf(di, grams);
    if grams > 0.0 {
      totalWeight' := totalWeight' + grams;
      if ing.caloriesPer100g > 0.0 {
        calories' := calories' + ing.caloriesPer100g * grams / 100.0;
      }
      totalGi' := totalGi' + ing.glycemicIndex * grams;
      totalBreadUnits' := totalBreadUnits' + ing.breadUnitsIn1g * grams;
    }
  }

  /** `calculateDishStats` before rounding: the rows added one by one to the
      four running sums. */
  method CalculateTotals(rows: seq<DishIngredient>) returns (t: Totals)
    ensures t == SumTotals(rows, Contribution)
  {
    var calories, totalGi, totalWeight, totalBreadUnits := 0.0, 0.0, 0.0, 0.0;
    var i := 0;
    SumStart(rows, Contribution);
    while i < |rows|
      invariant 0 <= i <= |rows|
      invariant Plus(Totals(calories, totalGi, totalWeight, totalBreadUnits), SumTotals(rows[i..], Contribution)) == SumTotals(rows, Contribution)
    {
      ghost var before := Totals(calories, totalGi, totalWeight, totalBreadUnits);
      calories, totalGi, totalWeight, totalBreadUnits := AddIngredient(rows[i], calories, totalGi, totalWeight, totalBreadUnits);
      SumStep(rows, Contribution, i, before, Totals(calories, totalGi, totalWeight, totalBreadUnits));
      i := i + 1;
    }
    SumEnd(rows, Contribution, Totals(calories, totalGi, totalWeight, totalBreadUnits));
    t := Totals(calories, totalGi, totalWeight, totalBreadUnits);
  }

  // ----- Which dishes are listed -----

  /** Non-administrators see only accepted dishes. */
  function AvailableDishes(dishes: seq<Dish>, isAdmin: bool): (r: seq<Dish>)
    ensures isAdmin ==> r == dishes
    ensures !isAdmin ==> forall i :: 0 <= i < |r| ==> r[i].status == Accepted
  {
    if isAdmin then dishes else Filter(dishes, (d: Dish) => d.status == Accepted)
  }

  /** The rounded figures the threshold filters compare against. */
  datatype Stats = Stats(calories: int, glycemicIndex: int)

  predicate HasIngredient(d: Dish, id: int) {
    exists i :: 0 <= i < |d.ingredients| && d.ingredients[i].ingredientId == id
  }

  predicate UnderLimit(x: int, t: Threshold) {
    t.NoLimit? || x as real <= t.value
  }

  /** The test of `filteredDishes`; `statsOf` gives a dish's rounded
      figures. */
  predicate Listed(d: Dish, isAdmin: bool, f: DishFilters, lower: string -> string, statsOf: Dish -> Stats) {
    !(isAdmin && f.statusFilter.Only? && d.status != f.statusFilter.status) &&
    (f.searchQuery == "" || Contains(lower(d.name), lower(f.searchQuery))) &&
    (f.selectedIngredient.None? || HasIngredient(d, f.selectedIngredient.value)) &&
    UnderLimit(statsOf(d).glycemicIndex, f.maxGlycemicIndex) &&
    UnderLimit(statsOf(d).calories, f.maxCalories)
  }

  /** The dishes the list shows. */
  function Listing(dishes: seq<Dish>, isAdmin: bool, f: DishFilters, lower: string -> string, statsOf: Dish -> Stats): (r: seq<Dish>)
    ensures forall i :: 0 <= i < |r| ==> Listed(r[i], isAdmin, f, lower, statsOf)
  {
    Filter(AvailableDishes(dishes, isAdmin), d => Listed(d, isAdmin, f, lower, statsOf))
  }

  /** A description longer than 100 characters is cut to its first 100 and
      followed by `...`. */
  function Shorten(desc: string): (r: string)
    ensures |desc| <= 100 ==> r == desc
    ensures |desc| > 100 ==> |r| == 103 && r[..100] == desc[..100] && r[100..] == "..."
  {
    if |desc| > 100 then desc[..100] + "..." else desc
  }

  // ----- Properties -----

  /** The table's factors: `шт` and every unknown unit get factor 1 because
      of `|| 1`. */
  lemma ConversionFactors(q: real, unit: string)
    ensures ConvertToGrams(q, "г") == q && ConvertToGrams(q, "мл") == q
    ensures ConvertToGrams(q, "ст.л.") == 15.0 * q && ConvertToGrams(q, "ч.л.") == 5.0 * q && ConvertToGrams(q, "стакан") == 200.0 * q
    ensures ConvertToGrams(q, "шт") == q
    ensures TableRate(unit).None? ==> ConvertToGrams(q, unit) == q
  {
  }

  /** Every factor is positive, so a row is skipped exactly when its
      quantity is not positive. */
  lemma SkippedExactlyWhenQuantityNotPositive(di: DishIngredient)
    ensures Grams(di) <= 0.0 <==> di.quantity <= 0.0
    ensures di.quantity <= 0.0 ==> Contribution(di) == ZERO
  {
    var f := Factor(UnitOf(di));
    if di.quantity > 0.0 {
      assert di.quantity * f > 0.0;
    } else {
      assert di.quantity * f <= 0.0;
    }
  }

  /** One row adds no negative calories or weight, and an index scaled by
      its weight. */
  lemma RowWellScaled(di: DishIngredient, lo: real, hi: real)
    requires lo <= di.ingredient.glycemicIndex <= hi
    ensures WellScaled(Contribution(di), lo, hi)
  {
    var g := Grams(di);
    var gi := di.ingredient.glycemicIndex;
    if g > 0.0 {
      assert lo * g <= gi * g <= hi * g;
      var c := di.ingredient.caloriesPer100g;
      if c > 0.0 {
        assert c * g > 0.0;
      }
    }
  }

  /** Rows that weigh nothing add nothing to any sum; calories and weight
      are never negative; and the average index lies between the rows'
      smallest and largest, or is 0 when nothing weighs anything. */
  lemma {:induction false} StatsFacts(rows: seq<DishIngredient>, lo: real, hi: real)
    requires forall i :: 0 <= i < |rows| ==> lo <= rows[i].ingredient.glycemicIndex <= hi
    ensures SumTotals(rows, Contribution) == SumTotals(Filter(rows, di => Grams(di) > 0.0), Contribution)
    ensures var t := SumTotals(rows, Contribution);
      t.calories >= 0.0 && t.totalWeight >= 0.0 &&
      (t.totalWeight > 0.0 ==> lo <= AverageGi(t) <= hi) &&
      (t.totalWeight == 0.0 ==> AverageGi(t) == 0.0)
  {
    SkippedRowsAddNothing(rows, Contribution, di => Grams(di) > 0.0);
    forall i | 0 <= i < |rows| ensures WellScaled(Contribution(rows[i]), lo, hi) {
      RowWellScaled(rows[i], lo, hi);
    }
    SumWellScaled(rows, Contribution, lo, hi);
    AverageGiWithin(SumTotals(rows, Contribution), lo, hi);
  }

  /** Calories come only from positive per-100 g values: rows without one
      add weight but no calories. */
  lemma {:induction false} CaloriesOnlyFromPositive(rows: seq<DishIngredient>)
    requires forall i :: 0 <= i < |rows| ==> rows[i].ingredient.caloriesPer100g <= 0.0
    ensures SumTotals(rows, Contribution).calories == 0.0
    decreases |rows|
  {
    if rows != [] {
      CaloriesOnlyFromPositive(rows[1..]);
    }
  }

  /** The list is an order-preserving sublist of the loaded dishes; a
      non-administrator sees only accepted dishes, and the status filter
      applies only to administrators. */
  lemma {:induction false} ListingRules(dishes: seq<Dish>, isAdmin: bool, f: DishFilters, lower: string -> string, statsOf: Dish -> Stats)
    ensures IsSubsequence(Listing(dishes, isAdmin, f, lower, statsOf), AvailableDishes(dishes, isAdmin))
    ensures !isAdmin ==> forall d :: d in Listing(dishes, isAdmin, f, lower, statsOf) ==> d.status == Accepted
    ensures !isAdmin ==> Listing(dishes, isAdmin, f, lower, statsOf) == Listing(dishes, isAdmin, f.(statusFilter := All), lower, statsOf)
  {
    var avail := AvailableDishes(dishes, isAdmin);
    FilterIsSubsequence(avail, d => Listed(d, isAdmin, f, lower, statsOf));
    if !isAdmin {
      forall d | d in Listing(dishes, isAdmin, f, lower, statsOf) ensures d.status == Accepted {
        FilterMembership(avail, d => Listed(d, isAdmin, f, lower, statsOf), d);
      }
      var f2 := f.(statusFilter := All);
      FilterSameTest(avail, d => Listed(d, isAdmin, f, lower, statsOf), d => Listed(d, isAdmin, f2, lower, statsOf));
      assert Listing(dishes, isAdmin, f2, lower, statsOf) == Filter(avail, d => Listed(d, isAdmin, f2, lower, statsOf));
    }
  }

  /** With the initial filters every available dish is listed; a selected
      ingredient keeps only dishes with a row for it. */
  lemma {:induction false} FilterEffects(dishes: seq<Dish>, isAdmin: bool, f: DishFilters, lower: string -> string, statsOf: Dish -> Stats)
    ensures Listing(dishes, isAdmin, INITIAL_DISHES, lower, statsOf) == AvailableDishes(dishes, isAdmin)
    ensures f.selectedIngredient.Some? ==>
      forall d :: d in Listing(dishes, isAdmin, f, lower, statsOf) ==> HasIngredient(d, f.selectedIngredient.value)
  {
    FilterKeepsAll(AvailableDishes(dishes, isAdmin), d => Listed(d, isAdmin, INITIAL_DISHES, lower, statsOf));
  }

  /** A dish is available exactly when it was loaded and the viewer is an
      administrator or the dish is accepted; it is listed exactly when it is
      available and passes every filter test. */
  lemma ListingMembership(dishes: seq<Dish>, isAdmin: bool, f: DishFilters, lower: string -> string, statsOf: Dish -> Stats, d: Dish)
    ensures d in AvailableDishes(dishes, isAdmin) <==> d in dishes && (isAdmin || d.status == Accepted)
    ensures d in Listing(dishes, isAdmin, f, lower, statsOf) <==>
      d in AvailableDishes(dishes, isAdmin) && Listed(d, isAdmin, f, lower, statsOf)
  {
    if !isAdmin {
      FilterMembership(dishes, (d: Dish) => d.status == Accepted, d);
    }
    FilterMembership(AvailableDishes(dishes, isAdmin), d => Listed(d, isAdmin, f, lower, statsOf), d);
  }
}
