/** The four running sums every `calculateDishStats` keeps (calories, the
    weight-scaled glycemic index, the total weight in grams and the bread
    units), before any rounding, and the facts that hold whatever a page
    adds for one ingredient row. */
module DishStats {
  import opened Seqs
  import opened Domain

  datatype Totals = Totals(calories: real, totalGi: real, totalWeight: real, totalBreadUnits: real)

  const ZERO: Totals := Totals(0.0, 0.0, 0.0, 0.0)

  function Plus(a: Totals, b: Totals): Totals {
    Totals(a.calories + b.calories, a.totalGi + b.totalGi, a.totalWeight + b.totalWeight, a.totalBreadUnits + b.totalBreadUnits)
  }

  /** The sums over all rows, given what one row adds. */
  function SumTotals(rows: seq<DishIngredient>, add: DishIngredient -> Totals): Totals
    decreases |rows|
  {
    if rows == [] then ZERO else Plus(add(rows[0]), SumTotals(rows[1..], add))
  }

  /** `totalWeight > 0 ? totalGi / totalWeight : 0`. */
  function AverageGi(t: Totals): (gi: real)
    ensures t.totalWeight <= 0.0 ==> gi == 0.0
  {
    if t.totalWeight > 0.0 then t.totalGi / t.totalWeight else 0.0
  }

  /** One row's addition: no negative calories or weight, and an index
      between `lo` and `hi` per gram. */
  predicate WellScaled(t: Totals, lo: real, hi: real) {
    t.calories >= 0.0 && t.totalWeight >= 0.0 && lo * t.totalWeight <= t.totalGi <= hi * t.totalWeight
  }

  // ----- Properties -----

  /** Adding row by row gives the same sums in any grouping. */
  lemma PlusAssoc(a: Totals, b: Totals, c: Totals)
    ensures Plus(Plus(a, b), c) == Plus(a, Plus(b, c))
  {
  }

  /** One step of a loop that adds the rows from the front: once row `i`
      is added to the running sums, the rows after it make up the rest. */
  lemma SumStep(rows: seq<DishIngredient>, add: DishIngredient -> Totals, i: nat, before: Totals, after: Totals)
    requires i < |rows|
    requires after == Plus(before, add(rows[i]))
    requires Plus(before, SumTotals(rows[i..], add)) == SumTotals(rows, add)
    ensures Plus(after, SumTotals(rows[i + 1..], add)) == SumTotals(rows, add)
  {
    assert rows[i..][1..] == rows[i + 1..];
    PlusAssoc(before, add(rows[i]), SumTotals(rows[i + 1..], add));
  }

  /** Where a loop that adds the rows from the front starts: nothing added
      yet, every row still to come. */
  lemma SumStart(rows: seq<DishIngredient>, add: DishIngredient -> Totals)
    ensures Plus(ZERO, SumTotals(rows[0..], add)) == SumTotals(rows, add)
  {
    assert rows[0..] == rows;
    var s := SumTotals(rows, add);
    assert Plus(ZERO, s) == Totals(s.calories, s.totalGi, s.totalWeight, s.totalBreadUnits);
  }

  /** Where it ends: no row left, the running sums are the result. */
  lemma SumEnd(rows: seq<DishIngredient>, add: DishIngredient -> Totals, acc: Totals)
    ensures Plus(acc, SumTotals(rows[|rows|..], add)) == acc
  {
    assert rows[|rows|..] == [];
    assert Plus(acc, ZERO) == Totals(acc.calories, acc.totalGi, acc.totalWeight, acc.totalBreadUnits);
  }

  /** Rows that add nothing can be dropped: the sums are those over the rows
      that count. */
  lemma {:induction false} SkippedRowsAddNothing(rows: seq<DishIngredient>, add: DishIngredient -> Totals, counts: DishIngredient -> bool)
    requires forall i :: 0 <= i < |rows| && !counts(rows[i]) ==> add(rows[i]) == ZERO
    ensures SumTotals(rows, add) == SumTotals(Filter(rows, counts), add)
    decreases |rows|
  {
    if rows != [] {
      SkippedRowsAddNothing(rows[1..], add, counts);
    }
  }

  /** Rows that all add nothing sum to nothing. */
  lemma {:induction false} SumOfNothing(rows: seq<DishIngredient>, add: DishIngredient -> Totals)
    requires forall i :: 0 <= i < |rows| ==> add(rows[i]) == ZERO
    ensures SumTotals(rows, add) == ZERO
    decreases |rows|
  {
    if rows != [] {
      SumOfNothing(rows[1..], add);
    }
  }

  /** Sums of well-scaled rows are well scaled: calories and weight are
      never negative and the index stays between the rows' bounds. */
  lemma {:induction false} SumWellScaled(rows: seq<DishIngredient>, add: DishIngredient -> Totals, lo: real, hi: real)
    requires forall i :: 0 <= i < |rows| ==> WellScaled(add(rows[i]), lo, hi)
    ensures WellScaled(SumTotals(rows, add), lo, hi)
    decreases |rows|
  {
    if rows != [] {
      SumWellScaled(rows[1..], add, lo, hi);
      var a, b := add(rows[0]), SumTotals(rows[1..], add);
      assert lo * (a.totalWeight + b.totalWeight) == lo * a.totalWeight + lo * b.totalWeight;
      assert hi * (a.totalWeight + b.totalWeight) == hi * a.totalWeight + hi * b.totalWeight;
    }
  }

  /** The average index of well-scaled sums lies between the bounds, or is
      0 when nothing weighs anything. */
  lemma AverageGiWithin(t: Totals, lo: real, hi: real)
    requires WellScaled(t, lo, hi)
    ensures t.totalWeight > 0.0 ==> lo <= AverageGi(t) <= hi
    ensures t.totalWeight == 0.0 ==> AverageGi(t) == 0.0
  {
    if t.totalWeight > 0.0 {
      var w, g := t.totalWeight, t.totalGi;
      assert g / w * w == g;
      if g / w < lo {
        assert g / w * w < lo * w;
      }
      if g / w > hi {
        assert g / w * w > hi * w;
      }
    }
  }
}
