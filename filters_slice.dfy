/** The Redux `filters` slice: the dish list's filters and the admin
    panel's filters, kept apart. The reducers are the pure `Reduce`; the
    class `FiltersStore` performs them in place, one field at a time. */
module FiltersSlice {
  import opened Wrappers
  import opened Domain

  /** `'ALL'` or one status. */
  datatype StatusFilter = All | Only(status: Status)

  /** A numeric limit, or `''` for none. */
  datatype Threshold = NoLimit | Limit(value: real)

  datatype DishFilters = DishFilters(
    searchQuery: string,
    selectedIngredient: Option<int>,
    maxGlycemicIndex: Threshold,
    maxCalories: Threshold,
    statusFilter: StatusFilter)

  datatype AdminFilters = AdminFilters(searchQuery: string, statusFilter: StatusFilter)

  datatype FiltersState = FiltersState(dishes: DishFilters, admin: AdminFilters)

  const INITIAL_DISHES: DishFilters := DishFilters("", None, NoLimit, NoLimit, All)
  const INITIAL_ADMIN: AdminFilters := AdminFilters("", All)
  const INITIAL: FiltersState := FiltersState(INITIAL_DISHES, INITIAL_ADMIN)

  /** The nine actions of the slice. */
  datatype Action =
    | SetDishSearchQuery(query: string)
    | SetDishSelectedIngredient(ingredient: Option<int>)
    | SetDishMaxGlycemicIndex(maxGi: Threshold)
    | SetDishMaxCalories(maxCal: Threshold)
    | SetDishStatusFilter(dishStatus: StatusFilter)
    | ResetDishFilters
    | SetAdminSearchQuery(adminQuery: string)
    | SetAdminStatusFilter(adminStatus: StatusFilter)
    | ResetAdminFilters

  function Reduce(s: FiltersState, a: Action): FiltersState {
    match a
    case SetDishSearchQuery(q) => s.(dishes := s.dishes.(searchQuery := q))
    case SetDishSelectedIngredient(i) => s.(dishes := s.dishes.(selectedIngredient := i))
    case SetDishMaxGlycemicIndex(t) => s.(dishes := s.dishes.(maxGlycemicIndex := t))
    case SetDishMaxCalories(t) => s.(dishes := s.dishes.(maxCalories := t))
    case SetDishStatusFilter(f) => s.(dishes := s.dishes.(statusFilter := f))
    case ResetDishFilters => s.(dishes := INITIAL_DISHES)
    case SetAdminSearchQuery(q) => s.(admin := s.admin.(searchQuery := q))
    case SetAdminStatusFilter(f) => s.(admin := s.admin.(statusFilter := f))
    case ResetAdminFilters => s.(admin := INITIAL_ADMIN)
  }

  /** The actions that concern the dish list's filters. */
  predicate IsDishAction(a: Action) {
    a.SetDishSearchQuery? || a.SetDishSelectedIngredient? || a.SetDishMaxGlycemicIndex? ||
    a.SetDishMaxCalories? || a.SetDishStatusFilter? || a.ResetDishFilters?
  }

  /** `a` and `b` set the same field. */
  predicate SameSetter(a: Action, b: Action) {
    (a.SetDishSearchQuery? && b.SetDishSearchQuery?) || (a.SetDishSelectedIngredient? && b.SetDishSelectedIngredient?) ||
    (a.SetDishMaxGlycemicIndex? && b.SetDishMaxGlycemicIndex?) || (a.SetDishMaxCalories? && b.SetDishMaxCalories?) ||
    (a.SetDishStatusFilter? && b.SetDishStatusFilter?) || (a.SetAdminSearchQuery? && b.SetAdminSearchQuery?) ||
    (a.SetAdminStatusFilter? && b.SetAdminStatusFilter?)
  }

  /** The five fields of the dish filters. */
  datatype DishField = QueryField | IngredientField | GiField | CaloriesField | StatusField

  /** Two dish filter records agree on every field except possibly `f`. */
  predicate SameExcept(x: DishFilters, y: DishFilters, f: DishField) {
    (f != QueryField ==> x.searchQuery == y.searchQuery) &&
    (f != IngredientField ==> x.selectedIngredient == y.selectedIngredient) &&
    (f != GiField ==> x.maxGlycemicIndex == y.maxGlycemicIndex) &&
    (f != CaloriesField ==> x.maxCalories == y.maxCalories) &&
    (f != StatusField ==> x.statusFilter == y.statusFilter)
  }

  // ----- Properties -----

  /** Initially nothing is filtered: empty queries, no ingredient, no
      limits, all statuses. */
  lemma InitialFiltersNothing()
    ensures INITIAL.dishes.searchQuery == "" && INITIAL.dishes.selectedIngredient.None?
    ensures INITIAL.dishes.maxGlycemicIndex.NoLimit? && INITIAL.dishes.maxCalories.NoLimit?
    ensures INITIAL.dishes.statusFilter.All? && INITIAL.admin.statusFilter.All? && INITIAL.admin.searchQuery == ""
  {
  }

  /** Each dish setter changes exactly its own field of the dish filters,
      to the payload, and leaves the admin filters alone. */
  lemma DishSettersChangeOwnField(s: FiltersState, q: string, i: Option<int>, gi: Threshold, cal: Threshold, f: StatusFilter)
    ensures var r := Reduce(s, SetDishSearchQuery(q));
      r.admin == s.admin && r.dishes.searchQuery == q && SameExcept(r.dishes, s.dishes, QueryField)
    ensures var r := Reduce(s, SetDishSelectedIngredient(i));
      r.admin == s.admin && r.dishes.selectedIngredient == i && SameExcept(r.dishes, s.dishes, IngredientField)
    ensures var r := Reduce(s, SetDishMaxGlycemicIndex(gi));
      r.admin == s.admin && r.dishes.maxGlycemicIndex == gi && SameExcept(r.dishes, s.dishes, GiField)
    ensures var r := Reduce(s, SetDishMaxCalories(cal));
      r.admin == s.admin && r.dishes.maxCalories == cal && SameExcept(r.dishes, s.dishes, CaloriesField)
    ensures var r := Reduce(s, SetDishStatusFilter(f));
      r.admin == s.admin && r.dishes.statusFilter == f && SameExcept(r.dishes, s.dishes, StatusField)
  {
  }

  /** Each admin setter changes exactly its own field of the admin filters
      and leaves the dish filters alone. */
  lemma AdminSettersChangeOwnField(s: FiltersState, q: string, f: StatusFilter)
    ensures var r := Reduce(s, SetAdminSearchQuery(q));
      r.dishes == s.dishes && r.admin.searchQuery == q && r.admin.statusFilter == s.admin.statusFilter
    ensures var r := Reduce(s, SetAdminStatusFilter(f));
      r.dishes == s.dishes && r.admin.statusFilter == f && r.admin.searchQuery == s.admin.searchQuery
  {
  }

  /** The two halves of the state are independent: a dish action never
      changes the admin filters, an admin action never the dish filters. */
  lemma HalvesIndependent(s: FiltersState, a: Action)
    ensures IsDishAction(a) ==> Reduce(s, a).admin == s.admin
    ensures !IsDishAction(a) ==> Reduce(s, a).dishes == s.dishes
  {
  }

  /** A dish action and an admin action can be applied in either order. */
  lemma DishAndAdminActionsCommute(s: FiltersState, a: Action, b: Action)
    requires IsDishAction(a) && !IsDishAction(b)
    ensures Reduce(Reduce(s, a), b) == Reduce(Reduce(s, b), a)
  {
  }

  /** The resets restore their half to the initial filters, leave the other
      half alone, and are idempotent. */
  lemma ResetsRestoreInitial(s: FiltersState)
    ensures Reduce(s, ResetDishFilters) == FiltersState(INITIAL_DISHES, s.admin)
    ensures Reduce(s, ResetAdminFilters) == FiltersState(s.dishes, INITIAL_ADMIN)
    ensures Reduce(Reduce(s, ResetDishFilters), ResetDishFilters) == Reduce(s, ResetDishFilters)
    ensures Reduce(Reduce(s, ResetAdminFilters), ResetAdminFilters) == Reduce(s, ResetAdminFilters)
    ensures Reduce(Reduce(s, ResetDishFilters), ResetAdminFilters) == INITIAL
  {
  }

  /** Every action is idempotent, and of two settings of the same field the
      later one wins. */
  lemma LastSettingWins(s: FiltersState, a: Action, b: Action)
    requires SameSetter(a, b) || a == b
    ensures Reduce(Reduce(s, a), b) == Reduce(s, b)
  {
  }

  /** The slice as the store holds it. */
  class FiltersStore {
    var dishes: DishFilters
    var admin: AdminFilters

    function State(): FiltersState
      reads this
    {
      FiltersState(dishes, admin)
    }

    constructor ()
      ensures State() == INITIAL
    {
      dishes := INITIAL_DISHES;
      admin := INITIAL_ADMIN;
    }

    method SetDishSearchQuery(q: string)
      modifies this`dishes
      ensures State() == Reduce(old(State()), Action.SetDishSearchQuery(q))
    {
      dishes := dishes.(searchQuery := q);
    }

    method SetDishSelectedIngredient(i: Option<int>)
      modifies this`dishes
      ensures State() == Reduce(old(State()), Action.SetDishSelectedIngredient(i))
    {
      dishes := dishes.(selectedIngredient := i);
    }

    method SetDishMaxGlycemicIndex(t: Threshold)
      modifies this`dishes
      ensures State() == Reduce(old(State()), Action.SetDishMaxGlycemicIndex(t))
    {
      dishes := dishes.(maxGlycemicIndex := t);
    }

    method SetDishMaxCalories(t: Threshold)
      modifies this`dishes
      ensures State() == Reduce(old(State()), Action.SetDishMaxCalories(t))
    {
      dishes := dishes.(maxCalories := t);
    }

    method SetDishStatusFilter(f: StatusFilter)
      modifies this`dishes
      ensures State() == Reduce(old(State()), Action.SetDishStatusFilter(f))
    {
      dishes := dishes.(statusFilter := f);
    }

    method ResetDishFilters()
      modifies this`dishes
      ensures State() == Reduce(old(State()), Action.ResetDishFilters)
    {
      dishes := INITIAL_DISHES;
    }

    method SetAdminSearchQuery(q: string)
      modifies this`admin
      ensures State() == Reduce(old(State()), Action.SetAdminSearchQuery(q))
    {
      admin := admin.(searchQuery := q);
    }

    method SetAdminStatusFilter(f: StatusFilter)
      modifies this`admin
      ensures State() == Reduce(old(State()), Action.SetAdminStatusFilter(f))
    {
      admin := admin.(statusFilter := f);
    }

    method ResetAdminFilters()
      modifies this`admin
      ensures State() == Reduce(old(State()), Action.ResetAdminFilters)
    {
      admin := INITIAL_ADMIN;
    }
  }
}
