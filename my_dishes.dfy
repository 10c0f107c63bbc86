/** The "my dishes" page repeats the dish list's unit table, its sums and
    its shortened descriptions; these are the facts its cards rely on,
    stated over the shared definitions. */
module MyDishes {
  import opened Strings
  import opened Domain
  import opened DishStats
  import opened DishList

  /** `шт` and units outside the table weigh their quantity; no factor makes
      a non-negative quantity lighter. */
  lemma TableFactors(q: real, unit: string)
    ensures unit == "шт" || TableRate(unit).None? ==> ConvertToGrams(q, unit) == q
    ensures q >= 0.0 ==> ConvertToGrams(q, unit) >= q
  {
    var f := Factor(unit);
    if q >= 0.0 {
      assert q * f >= q * 1.0;
    }
  }

  /** A row without a unit is weighed in grams. */
  lemma MissingUnitCountsAsGrams(di: DishIngredient)
    requires !Present(di.unit)
    ensures Grams(di) == di.quantity
    ensures di.quantity <= 0.0 ==> Contribution(di) == ZERO
  {
  }

  /** A row adds calories exactly when both its per-100 g value and its
      quantity are positive. */
  lemma RowCaloriesWhenPositive(di: DishIngredient)
    ensures Contribution(di).calories != 0.0 <==> di.ingredient.caloriesPer100g > 0.0 && di.quantity > 0.0
  {
    SkippedExactlyWhenQuantityNotPositive(di);
    var g, c := Grams(di), di.ingredient.caloriesPer100g;
    if g > 0.0 && c > 0.0 {
      assert c * g > 0.0;
    }
  }

  /** When no row has a positive quantity nothing is weighed, every sum is 0
      and so is the average index. */
  lemma NothingWeighedAverageZero(rows: seq<DishIngredient>)
    requires forall i :: 0 <= i < |rows| ==> rows[i].quantity <= 0.0
    ensures SumTotals(rows, Contribution) == ZERO
    ensures AverageGi(SumTotals(rows, Contribution)) == 0.0
  {
    forall i | 0 <= i < |rows| ensures Contribution(rows[i]) == ZERO {
      SkippedExactlyWhenQuantityNotPositive(rows[i]);
    }
    SumOfNothing(rows, Contribution);
  }

  /** A shortened description is at most 103 characters, begins with the
      description's first characters, and shortening it again changes
      nothing. */
  lemma ShortenIdempotent(desc: string)
    ensures |Shorten(desc)| <= 103
    ensures |desc| <= 100 ==> Shorten(desc) == desc
    ensures |desc| > 100 ==> Shorten(desc) == desc[..100] + "..."
    ensures Shorten(Shorten(desc)) == Shorten(desc)
  {
    if |desc| > 100 {
      var r := Shorten(desc);
      assert r[..100] == desc[..100];
      assert r == desc[..100] + "...";
    }
  }
}
