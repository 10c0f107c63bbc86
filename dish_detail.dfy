/** The dish page: who may delete, update or edit the dish, when the page
    shows the "unavailable" view, the favourite toggle, and the
    administrator's status buttons. Its unit conversion and sums are the
    favourites page's. */
module DishDetail {
  import opened Wrappers
  import opened Domain
  import opened DishStats
  import opened AuthSlice
  import opened AuthHook
  import opened Favorites

  /** The four flags the page derives from the viewer and the dish. */
  datatype Flags = Flags(isOwner: bool, canDelete: bool, canUpdate: bool, canEdit: bool)

  /** `user?.id === dish.authorId`: never true without a user. */
  predicate IsOwner(auth: AuthView, dish: Dish) {
    auth.user.Some? && auth.user.value.id == dish.authorId
  }

  function PermissionFlags(auth: AuthView, dish: Dish): (f: Flags)
    ensures f.isOwner == IsOwner(auth, dish)
  {
    var isOwner := IsOwner(auth, dish);
    Flags(
      isOwner,
      isOwner || auth.isAdmin,
      isOwner && dish.status == Accepted,
      auth.isAdmin || (isOwner && dish.status == Pending))
  }

  /** The page shows only the "unavailable" notice. */
  predicate Unavailable(auth: AuthView, dish: Dish) {
    !auth.isAdmin && dish.status != Accepted && !IsOwner(auth, dish)
  }

  /** A request the favourite toggle sends. */
  datatype FavoriteCall = AddToFavorites(addId: int) | RemoveFromFavorites(removeId: int)

  /** The page's favourite state: `isFavorite` and `isLoadingFavorite`. The
      toggle is split at its `await`: `BeginToggle` runs up to the request,
      `EndToggle` from the answer to the `finally`. */
  class FavoriteToggle {
    var isFavorite: bool
    var isLoadingFavorite: bool

    constructor ()
      ensures !isFavorite && !isLoadingFavorite
    {
      isFavorite := false;
      isLoadingFavorite := false;
    }

    /** The effect that asks the server whether the dish is a favourite; a
        failure is only logged. */
    method CheckFavorite(answer: Result<bool, Thrown>)
      modifies this`isFavorite
      ensures answer.Success? ==> isFavorite == answer.value
      ensures answer.Failure? ==> isFavorite == old(isFavorite)
    {
      if answer.Success? {
        isFavorite := answer.value;
      }
    }

    /** A click: ignored while a toggle is in flight, otherwise marks the
        toggle in flight and sends the removal or the addition. */
    method BeginToggle(dishId: int) returns (call: Option<FavoriteCall>)
      modifies this`isLoadingFavorite
      ensures old(isLoadingFavorite) ==> call.None? && isLoadingFavorite
      ensures !old(isLoadingFavorite) ==>
        (isLoadingFavorite && call == Some(if isFavorite then RemoveFromFavorites(dishId) else AddToFavorites(dishId)))
    {
      if isLoadingFavorite {
        return None;
      }
      isLoadingFavorite := true;
      if isFavorite {
        call := Some(RemoveFromFavorites(dishId));
      } else {
        call := Some(AddToFavorites(dishId));
      }
    }

    /** The server's answer to `call`: on success the flag becomes what the
        call asked for; in every case the toggle is no longer in flight. */
    method EndToggle(call: FavoriteCall, answer: Result<(), Thrown>)
      modifies this
      ensures answer.Success? ==> isFavorite == call.AddToFavorites?
      ensures answer.Failure? ==> isFavorite == old(isFavorite)
      ensures !isLoadingFavorite
    {
      if answer.Success? {
        if call.RemoveFromFavorites? {
          isFavorite := false;
        } else {
          isFavorite := true;
        }
      }
      isLoadingFavorite := false;
    }
  }

  /** One of the administrator's status buttons: the status it submits and
      whether it is disabled. */
  datatype StatusButton = StatusButton(status: Status, disabled: bool)

  /** The status buttons, shown to administrators only; `submitting` is
      `navigation.state === 'submitting'`. */
  function StatusButtons(isAdmin: bool, dish: Dish, submitting: bool): seq<StatusButton> {
    if !isAdmin then []
    else [
      StatusButton(Accepted, dish.status == Accepted || submitting),
      StatusButton(Pending, dish.status == Pending || submitting),
      StatusButton(Rejected, dish.status == Rejected || submitting)]
  }

  // ----- Properties -----

  /** `canEdit` is the edit rule the update action and the form loader
      apply: an administrator, or the author of a pending dish. */
  lemma CanEditIsTheEditRule(s: AuthState, dish: Dish)
    ensures PermissionFlags(UseAuth(s), dish).canEdit <==>
      s.user.Some? && MayEdit(s.user.value.role, s.user.value.id, dish)
  {
  }

  /** Deleting is for the author or an administrator, updating for the
      author of an accepted dish; a non-administrator can never both update
      and edit. */
  lemma FlagRules(s: AuthState, dish: Dish)
    ensures var v := UseAuth(s);
      var f := PermissionFlags(v, dish);
      (f.canDelete <==> IsOwner(v, dish) || v.isAdmin) &&
      (f.canUpdate <==> s.user.Some? && s.user.value.id == dish.authorId && dish.status == Accepted) &&
      (!v.isAdmin ==> !(f.canUpdate && f.canEdit))
  {
  }

  /** A viewer who is neither administrator nor author sees a dish only once
      it is accepted; the notice hides every action. */
  lemma UnavailableRule(s: AuthState, dish: Dish)
    ensures var v := UseAuth(s);
      (Unavailable(v, dish) <==> (s.user.None? || s.user.value.role != ADMIN) && dish.status != Accepted && !IsOwner(v, dish)) &&
      (Unavailable(v, dish) ==> !PermissionFlags(v, dish).canDelete && !PermissionFlags(v, dish).canUpdate && !PermissionFlags(v, dish).canEdit)
  {
  }

  /** Administrators get one button per status in the order accepted,
      pending, rejected; while nothing is submitting exactly the current
      status's button is disabled, while something is every button is. */
  lemma StatusButtonRules(isAdmin: bool, dish: Dish, submitting: bool)
    ensures !isAdmin ==> StatusButtons(isAdmin, dish, submitting) == []
    ensures isAdmin ==>
      (|StatusButtons(isAdmin, dish, submitting)| == 3 &&
       StatusButtons(isAdmin, dish, submitting)[0].status == Accepted &&
       StatusButtons(isAdmin, dish, submitting)[1].status == Pending &&
       StatusButtons(isAdmin, dish, submitting)[2].status == Rejected)
    ensures forall b :: b in StatusButtons(isAdmin, dish, submitting) ==>
      (b.disabled <==> b.status == dish.status || submitting)
  {
  }

  /** Weighing with this conversion: a non-negative quantity with no
      negative piece weight or density never weighs less than nothing, and
      grams, `g`, `гр` and unknown units weigh the quantity. */
  lemma ConversionSigns(q: real, unit: string, lower: string -> string, gramsPerPiece: Option<real>, densityGPerMl: Option<real>)
    requires q >= 0.0
    requires OrElse(gramsPerPiece, 0.0) >= 0.0 && OrElse(densityGPerMl, 1.0) >= 0.0
    ensures ConvertToGrams(q, unit, lower, gramsPerPiece, densityGPerMl) >= 0.0
    ensures var u := Lowered(unit, lower);
      u !in ["кг", "мл", "шт", "ст.л.", "ч.л.", "стакан"] ==> ConvertToGrams(q, unit, lower, gramsPerPiece, densityGPerMl) == q
  {
    var d, p := OrElse(densityGPerMl, 1.0), OrElse(gramsPerPiece, 0.0);
    assert q * d >= 0.0 && q * p >= 0.0;
  }

  /** One row adds no negative calories or weight, and an index scaled by
      its weight. */
  lemma RowWellScaled(lower: string -> string, di: DishIngredient, lo: real, hi: real)
    requires lo <= di.ingredient.glycemicIndex <= hi
    requires di.quantity >= 0.0
    requires di.ingredient.caloriesPerPiece.Some? ==> di.ingredient.caloriesPerPiece.value >= 0.0
    ensures WellScaled(Contribution(lower, di), lo, hi)
  {
    var g := Grams(lower, di);
    ContributionOf(lower, di, g);
    if g > 0.0 {
      var gi := di.ingredient.glycemicIndex;
      assert lo * g <= gi * g <= hi * g;
      var c := di.ingredient.caloriesPer100g;
      if c > 0.0 {
        assert c * g > 0.0;
      }
      if PerPiece(di) {
        assert di.ingredient.caloriesPerPiece.value * di.quantity >= 0.0;
      }
    }
  }

  /** The page's figures: with no negative quantities or per-piece calories,
      calories and weight are never negative and the average index lies
      between the rows' smallest and largest, or is 0 when nothing weighs
      anything. */
  lemma AverageGiBetweenRows(rows: seq<DishIngredient>, lower: string -> string, lo: real, hi: real)
    requires forall i :: 0 <= i < |rows| ==> lo <= rows[i].ingredient.glycemicIndex <= hi && rows[i].quantity >= 0.0
    requires forall i :: 0 <= i < |rows| && rows[i].ingredient.caloriesPerPiece.Some? ==> rows[i].ingredient.caloriesPerPiece.value >= 0.0
    ensures var t := SumTotals(rows, Adder(lower));
      t.calories >= 0.0 && t.totalWeight >= 0.0 &&
      (t.totalWeight > 0.0 ==> lo <= AverageGi(t) <= hi) &&
      (t.totalWeight == 0.0 ==> AverageGi(t) == 0.0)
  {
    forall i | 0 <= i < |rows| ensures WellScaled(Adder(lower)(rows[i]), lo, hi) {
      RowWellScaled(lower, rows[i], lo, hi);
    }
    SumWellScaled(rows, Adder(lower), lo, hi);
    AverageGiWithin(SumTotals(rows, Adder(lower)), lo, hi);
  }
}
