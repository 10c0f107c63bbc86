/** The two lists of the admin panel: dishes filtered by status and by a
    search query, and users filtered by the same query. `lower` stands for
    `String.prototype.toLowerCase`. */
module AdminPanel {
  import opened Wrappers
  import opened Strings
  import opened Seqs
  import opened Domain
  import opened FiltersSlice

  /** The Russian labels a user's role is searched under. */
  const ADMIN_LABEL: string := "администратор"
  const USER_LABEL: string := "пользователь"

  predicate StatusPasses(f: StatusFilter, d: Dish) {
    f.All? || d.status == f.status
  }

  /** `query` (already lowercased) occurs in the dish's lowercased name,
      description, author name or author email, or in its decimal id. */
  predicate DishMatches(d: Dish, query: string, lower: string -> string) {
    Contains(lower(d.name), query) ||
    (d.description.Some? && Contains(lower(d.description.value), query)) ||
    Contains(lower(d.author.username), query) ||
    Contains(lower(d.author.email), query) ||
    Contains(IntToString(d.id), query)
  }

  predicate KeepDish(d: Dish, f: StatusFilter, searchQuery: string, lower: string -> string) {
    StatusPasses(f, d) && (Blank(searchQuery) || DishMatches(d, lower(searchQuery), lower))
  }

  /** `filteredDishes`. */
  function FilteredDishes(dishes: seq<Dish>, f: StatusFilter, searchQuery: string, lower: string -> string): (r: seq<Dish>)
    ensures forall i :: 0 <= i < |r| ==> KeepDish(r[i], f, searchQuery, lower)
  {
    Filter(dishes, d => KeepDish(d, f, searchQuery, lower))
  }

  /** The role label contains the query: the label is searched, not the
      query. */
  predicate RoleMatches(u: User, query: string) {
    (u.role == ADMIN && Contains(ADMIN_LABEL, query)) || (u.role == USER && Contains(USER_LABEL, query))
  }

  predicate UserMatches(u: User, query: string, lower: string -> string) {
    Contains(lower(u.username), query) ||
    Contains(lower(u.email), query) ||
    Contains(IntToString(u.id), query) ||
    RoleMatches(u, query)
  }

  predicate KeepUser(u: User, searchQuery: string, lower: string -> string) {
    Blank(searchQuery) || UserMatches(u, lower(searchQuery), lower)
  }

  /** `filteredUsers`. */
  function FilteredUsers(users: seq<User>, searchQuery: string, lower: string -> string): (r: seq<User>)
    ensures forall i :: 0 <= i < |r| ==> KeepUser(r[i], searchQuery, lower)
  {
    Filter(users, u => KeepUser(u, searchQuery, lower))
  }

  // ----- Properties -----

  /** Both lists are order-preserving sublists of their inputs, holding
      exactly the entries that pass their test. */
  lemma FilteredListsAreSublists(dishes: seq<Dish>, users: seq<User>, f: StatusFilter, q: string, lower: string -> string)
    ensures IsSubsequence(FilteredDishes(dishes, f, q, lower), dishes)
    ensures IsSubsequence(FilteredUsers(users, q, lower), users)
    ensures forall d :: d in FilteredDishes(dishes, f, q, lower) <==> d in dishes && KeepDish(d, f, q, lower)
    ensures forall u :: u in FilteredUsers(users, q, lower) <==> u in users && KeepUser(u, q, lower)
  {
    FilterIsSubsequence(dishes, d => KeepDish(d, f, q, lower));
    FilterIsSubsequence(users, u => KeepUser(u, q, lower));
    forall d ensures d in FilteredDishes(dishes, f, q, lower) <==> d in dishes && KeepDish(d, f, q, lower) {
      FilterMembership(dishes, d => KeepDish(d, f, q, lower), d);
    }
    forall u ensures u in FilteredUsers(users, q, lower) <==> u in users && KeepUser(u, q, lower) {
      FilterMembership(users, u => KeepUser(u, q, lower), u);
    }
  }

  /** A status other than `ALL` excludes every dish of another status,
      whatever the query. */
  lemma StatusFilterExcludes(dishes: seq<Dish>, s: Status, q: string, lower: string -> string)
    ensures forall d :: d in FilteredDishes(dishes, Only(s), q, lower) ==> d.status == s
  {
  }

  /** A blank or white-space query keeps every dish of the selected status
      and every user. */
  lemma {:induction false} BlankQueryFiltersNothing(dishes: seq<Dish>, users: seq<User>, f: StatusFilter, q: string, lower: string -> string)
    requires Blank(q)
    ensures FilteredDishes(dishes, f, q, lower) == Filter(dishes, d => StatusPasses(f, d))
    ensures FilteredUsers(users, q, lower) == users
    ensures f.All? ==> FilteredDishes(dishes, f, q, lower) == dishes
  {
    FilterSameTest(dishes, d => KeepDish(d, f, q, lower), d => StatusPasses(f, d));
    FilterKeepsAll(users, u => KeepUser(u, q, lower));
    if f.All? {
      FilterKeepsAll(dishes, d => KeepDish(d, f, q, lower));
    }
  }

  /** With a query that is not blank, a dish of the selected status is kept
      exactly when the lowercased query, untrimmed, occurs in one of its
      searched fields. */
  lemma QueryMatchesFields(dishes: seq<Dish>, f: StatusFilter, q: string, lower: string -> string, d: Dish)
    requires !Blank(q) && d in dishes && StatusPasses(f, d)
    ensures d in FilteredDishes(dishes, f, q, lower) <==> DishMatches(d, lower(q), lower)
  {
    FilterMembership(dishes, d => KeepDish(d, f, q, lower), d);
  }

  /** A user is found through their role when the role's label contains the
      query, never the other way round: a query longer than the label does
      not match it. */
  lemma {:induction false} RoleLabelContainsQuery(u: User, q: string, lower: string -> string)
    requires !Blank(q) && u.role == ADMIN
    requires !Contains(lower(u.username), lower(q)) && !Contains(lower(u.email), lower(q)) && !Contains(IntToString(u.id), lower(q))
    ensures u in FilteredUsers([u], q, lower) <==> Contains(ADMIN_LABEL, lower(q))
    ensures |lower(q)| > |ADMIN_LABEL| ==> u !in FilteredUsers([u], q, lower)
  {
    FilterMembership([u], u => KeepUser(u, q, lower), u);
    if Contains(ADMIN_LABEL, lower(q)) {
      ContainsNoLonger(ADMIN_LABEL, lower(q));
    }
  }
}
