/** The dish form's ingredient rows: where they start, the unit an
    ingredient brings with it, and the edits the form makes to the rows. */
module DishForm {
  import opened Wrappers
  import opened Strings
  import opened Seqs
  import opened Domain

  /** One row of the form: the chosen ingredient (0 for none), the quantity
      and the unit. */
  datatype FormRow = FormRow(ingredientId: int, quantity: real, unit: string)

  /** The row the form adds: no ingredient, no quantity, grams. */
  const NEW_ROW: FormRow := FormRow(0, 0.0, "г")

  /** A row of the dish being edited, its missing unit read as grams. */
  function RowOf(di: DishIngredient): FormRow {
    FormRow(di.ingredientId, di.quantity, if Present(di.unit) then di.unit.value else "г")
  }

  /** The rows the form starts with: one per ingredient row of the dish
      being edited (none when it has none, since an empty list is not
      replaced), or a single new row when a dish is being created. */
  function InitialRows(dish: Option<Dish>): (rows: seq<FormRow>)
    ensures dish.None? ==> rows == [NEW_ROW]
    ensures dish.Some? ==> |rows| == |dish.value.ingredients|
    ensures dish.Some? ==> forall i :: 0 <= i < |rows| ==> rows[i] == RowOf(dish.value.ingredients[i])
  {
    if dish.None? then [NEW_ROW]
    else seq(|dish.value.ingredients|, i requires 0 <= i < |dish.value.ingredients| => RowOf(dish.value.ingredients[i]))
  }

  /** The first ingredient with that id, if any. */
  function Find(ingredients: seq<Ingredient>, id: int): (r: Option<Ingredient>)
    ensures r.Some? ==> r.value in ingredients && r.value.id == id
    ensures r.None? ==> forall i :: 0 <= i < |ingredients| ==> ingredients[i].id != id
  {
    if ingredients == [] then None
    else if ingredients[0].id == id then Some(ingredients[0])
    else Find(ingredients[1..], id)
  }

  /** `getIngredientUnit`: grams for id 0, an unknown id, or an ingredient
      without a unit; otherwise the ingredient's unit. */
  function IngredientUnit(ingredients: seq<Ingredient>, id: int): (u: string)
    ensures u != ""
    ensures id == 0 || Find(ingredients, id).None? || !Present(Find(ingredients, id).value.unit) ==> u == "г"
    ensures id != 0 && Find(ingredients, id).Some? && Present(Find(ingredients, id).value.unit) ==> u == Find(ingredients, id).value.unit.value
  {
    if id == 0 then "г"
    else match Find(ingredients, id)
      case None => "г"
      case Some(ing) => if Present(ing.unit) then ing.unit.value else "г"
  }

  /** `Number(value) || 0`: `NaN` and zero both become 0. */
  function QuantityOf(n: Num): (q: real)
    ensures n.NaN? ==> q == 0.0
    ensures n.Finite? ==> q == n.value
  {
    if n.Finite? then n.value else 0.0
  }

  /** The form's rows, which its handlers replace or update in place. */
  class IngredientRows {
    var rows: seq<FormRow>

    constructor (dish: Option<Dish>)
      ensures rows == InitialRows(dish)
    {
      rows := InitialRows(dish);
    }

    /** `handleAddIngredient`: a new row at the end. */
    method AddIngredient()
      modifies this
      ensures rows == old(rows) + [NEW_ROW]
    {
      rows := rows + [NEW_ROW];
    }

    /** `handleRemoveIngredient`: drops row `index` unless it is the only
        row left. */
    method RemoveIngredient(index: int)
      modifies this
      ensures |old(rows)| > 1 ==> rows == RemoveAt(old(rows), index)
      ensures |old(rows)| <= 1 ==> rows == old(rows)
    {
      if |rows| > 1 {
        rows := RemoveAt(rows, index);
      }
    }

    /** Choosing an ingredient for row `index`: a real ingredient also
        brings its unit, "choose…" (id 0) keeps the row's unit. */
    method SetIngredientId(index: nat, id: int, ingredients: seq<Ingredient>)
      requires index < |rows|
      modifies this
      ensures rows == old(rows)[index := old(rows)[index].(
        ingredientId := id,
        unit := if id > 0 then IngredientUnit(ingredients, id) else old(rows)[index].unit)]
    {
      var row := rows[index].(ingredientId := id);
      if id > 0 {
        row := row.(unit := IngredientUnit(ingredients, id));
      }
      rows := rows[index := row];
    }

    /** Typing a quantity into row `index`. */
    method SetQuantity(index: nat, value: Num)
      requires index < |rows|
      modifies this
      ensures rows == old(rows)[index := old(rows)[index].(quantity := QuantityOf(value))]
    {
      rows := rows[index := rows[index].(quantity := QuantityOf(value))];
    }

    /** Choosing a unit for row `index`. */
    method SetUnit(index: nat, unit: string)
      requires index < |rows|
      modifies this
      ensures rows == old(rows)[index := old(rows)[index].(unit := unit)]
    {
      rows := rows[index := rows[index].(unit := unit)];
    }
  }

  // ----- Properties -----

  /** Every initial row has a unit; editing a dish whose ingredient list is
      empty starts with no rows at all. */
  lemma InitialRowsHaveUnits(dish: Option<Dish>)
    ensures forall i :: 0 <= i < |InitialRows(dish)| ==> InitialRows(dish)[i].unit != ""
    ensures dish.Some? && dish.value.ingredients == [] ==> InitialRows(dish) == []
    ensures dish.None? ==> |InitialRows(dish)| == 1
  {
  }

  /** Adding a row and removing the last one gives back the rows; removing a
      row keeps the others in order. */
  lemma {:induction false} AddThenRemoveLast(rows: seq<FormRow>)
    ensures RemoveAt(rows + [NEW_ROW], |rows|) == rows
    ensures forall i :: 0 <= i < |rows| ==> IsSubsequence(RemoveAt(rows, i), rows)
  {
    assert (rows + [NEW_ROW])[..|rows|] == rows;
    forall i | 0 <= i < |rows| ensures IsSubsequence(RemoveAt(rows, i), rows) {
      RemoveAtIsSubsequence(rows, i);
    }
  }
}
