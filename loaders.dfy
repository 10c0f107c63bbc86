/** The route loaders: the session gates every protected route runs first,
    what each loader asks the server for, and how each maps a failure to
    what the router sees. The server's answers are parameters; the list of
    calls a loader makes is part of its result. */
module Loaders {
  import opened Wrappers
  import opened Strings
  import opened Domain
  import opened BrowserStorage
  import opened ApiServices
  import opened DishService
  import Api

  const TOKEN_KEY: string := "token"

  /** `new Response('Not Found', { status: 404 })`. */
  const NOT_FOUND: Thrown := RouteResponse(404, "Not Found", None)

  /** The decision of `requireAuth` for the stored token: go on with the
      token, or throw a redirect to the login page. */
  function AuthGate(stored: Option<string>): (r: Result<string, Thrown>)
    ensures r.Success? <==> Present(stored)
    ensures r.Success? ==> r.value == stored.value
    ensures r.Failure? ==> r.error == Redirect("/login")
  {
    if Present(stored) then Success(stored.value) else Failure(Redirect("/login"))
  }

  /** `requireAuth()`: a present token is handed to every API service. */
  method RequireAuth(storage: Storage, api: ApiService) returns (r: Result<string, Thrown>)
    modifies api.userService, api.dishService, api.ingredientsService, api.nutrientsService
    ensures r == AuthGate(storage.GetItem(TOKEN_KEY))
    ensures r.Success? ==> var h := Some(Api.Bearer(r.value)); api.Headers() == [h, h, h, h]
    ensures r.Failure? ==> api.Headers() == old(api.Headers())
  {
    var stored := storage.GetItem(TOKEN_KEY);
    r := AuthGate(stored);
    if r.Success? {
      api.SetToken(r.value);
    }
  }

  /** `requireAdmin(user)`: what it throws, if anything. */
  function RequireAdmin(user: Option<User>): (thrown: Option<Thrown>)
    ensures thrown.None? <==> user.Some? && user.value.role == ADMIN
    ensures thrown.Some? ==> thrown.value == Redirect("/")
  {
    if user.None? || user.value.role != ADMIN then Some(Redirect("/")) else None
  }

  /** The test every loader applies to a caught error: status 401, or a
      message mentioning 401. */
  predicate Is401(t: Thrown) {
    StatusOf(t) == Some(401) || (MessageOf(t).Some? && Contains(MessageOf(t).value, "401"))
  }

  /** A call a loader makes to the server. */
  datatype ApiCall =
    | GetAllDishes(filters: Option<DishFilters>)
    | GetAllIngredients
    | GetAllUsers
    | GetDishById(id: Num)
    | GetUserById(userId: int)

  datatype LoaderData =
    | DishesData(dishes: seq<Dish>, ingredients: seq<Ingredient>)
    | DishData(dish: Dish)
    | FormData(formDish: Option<Dish>, formIngredients: seq<Ingredient>, isEdit: bool)
    | AdminData(allDishes: seq<Dish>, users: seq<User>)
    | MyDishesData(myDishes: seq<Dish>)

  /** The calls a loader made and what it returned or threw. */
  datatype LoaderRun = LoaderRun(calls: seq<ApiCall>, result: Result<LoaderData, Thrown>)

  /** The `catch` clause: what was thrown in the `try` block passes through
      `handler`. */
  function Caught(r: LoaderRun, handler: Thrown -> Thrown): LoaderRun {
    if r.result.Failure? then r.(result := Failure(handler(r.result.error))) else r
  }

  /** The catch clause of `dishesLoader`, `adminLoader` and `myDishesLoader`:
      a 401 becomes a redirect to the login page, anything else is
      rethrown. */
  function CatchRethrow(t: Thrown): Thrown {
    if Is401(t) then Redirect("/login") else t
  }

  /** The catch clause of `dishLoader`: 401 to the login page, a 404
      rethrown, anything else a 500. */
  function CatchDish(t: Thrown): Thrown {
    if Is401(t) then Redirect("/login")
    else if StatusOf(t) == Some(404) then t
    else RouteResponse(500, "Error loading dish", None)
  }

  /** The catch clause of `dishFormLoader`: 401 to the login page; 404, 403
      and 302 rethrown; anything else a 500. */
  function CatchForm(t: Thrown): Thrown {
    if Is401(t) then Redirect("/login")
    else if StatusOf(t) == Some(404) || StatusOf(t) == Some(403) then t
    else if StatusOf(t) == Some(302) then t
    else RouteResponse(500, "Error loading form data", None)
  }

  function DishesBody(stored: Option<string>, decode: Decoder, listing: Result<(seq<Dish>, seq<Ingredient>), Thrown>): LoaderRun {
    match AuthGate(stored)
    case Failure(e) => LoaderRun([], Failure(e))
    case Success(tok) =>
      match decode(tok)
      case Failure(m) => LoaderRun([], Failure(DecodeError(m)))
      case Success(c) =>
        if c.role == ADMIN then LoaderRun([], Failure(Redirect("/admin")))
        else
          var calls := [GetAllDishes(None), GetAllIngredients];
          match listing
          case Failure(e) => LoaderRun(calls, Failure(e))
          case Success((ds, ings)) => LoaderRun(calls, Success(DishesData(ds, ings)))
  }

  /** `dishesLoader`; `listing` is how the two parallel requests end. */
  function DishesLoader(stored: Option<string>, decode: Decoder, listing: Result<(seq<Dish>, seq<Ingredient>), Thrown>): LoaderRun {
    Caught(DishesBody(stored, decode, listing), CatchRethrow)
  }

  function DishBody(stored: Option<string>, id: Option<string>, toNumber: string -> Num, answer: Result<Option<Dish>, Thrown>): LoaderRun {
    match AuthGate(stored)
    case Failure(e) => LoaderRun([], Failure(e))
    case Success(_) =>
      if !Present(id) then LoaderRun([], Failure(NOT_FOUND))
      else
        var calls := [GetDishById(toNumber(id.value))];
        match answer
        case Failure(e) => LoaderRun(calls, Failure(e))
        case Success(None) => LoaderRun(calls, Failure(NOT_FOUND))
        case Success(Some(d)) => LoaderRun(calls, Success(DishData(d)))
  }

  /** `dishLoader` as written. */
  function DishLoader(stored: Option<string>, id: Option<string>, toNumber: string -> Num, answer: Result<Option<Dish>, Thrown>): LoaderRun {
    Caught(DishBody(stored, id, toNumber, answer), CatchDish)
  }

  /** `dishLoader`'s catch clause with the redirect rethrown, as
      `dishFormLoader` does. */
  function CatchDishCorrected(t: Thrown): Thrown {
    if Is401(t) then Redirect("/login")
    else if StatusOf(t) == Some(404) || StatusOf(t) == Some(302) then t
    else RouteResponse(500, "Error loading dish", None)
  }

  function DishLoaderCorrected(stored: Option<string>, id: Option<string>, toNumber: string -> Num, answer: Result<Option<Dish>, Thrown>): LoaderRun {
    Caught(DishBody(stored, id, toNumber, answer), CatchDishCorrected)
  }

  function FormBody(
    stored: Option<string>, id: Option<string>, decode: Decoder, toNumber: string -> Num,
    user: Result<User, Thrown>, ingredients: Result<seq<Ingredient>, Thrown>, dish: Result<Option<Dish>, Thrown>): LoaderRun
  {
    match AuthGate(stored)
    case Failure(e) => LoaderRun([], Failure(e))
    case Success(tok) =>
      match decode(tok)
      case Failure(m) => LoaderRun([], Failure(DecodeError(m)))
      case Success(c) =>
        var calls1 := [GetUserById(c.id)];
        match user
        case Failure(e) => LoaderRun(calls1, Failure(e))
        case Success(u) =>
          var calls2 := calls1 + [GetAllIngredients];
          match ingredients
          case Failure(e) => LoaderRun(calls2, Failure(e))
          case Success(ings) =>
            if !Present(id) then LoaderRun(calls2, Success(FormData(None, ings, false)))
            else
              var calls3 := calls2 + [GetDishById(toNumber(id.value))];
              match dish
              case Failure(e) => LoaderRun(calls3, Failure(e))
              case Success(None) => LoaderRun(calls3, Failure(NOT_FOUND))
              case Success(Some(d)) =>
                if !MayEdit(u.role, u.id, d) then LoaderRun(calls3, Failure(Redirect("/dishes/" + id.value)))
                else LoaderRun(calls3, Success(FormData(Some(d), ings, true)))
  }

  /** `dishFormLoader`: the permission check uses the user record the server
      returns for the token's id. */
  function DishFormLoader(
    stored: Option<string>, id: Option<string>, decode: Decoder, toNumber: string -> Num,
    user: Result<User, Thrown>, ingredients: Result<seq<Ingredient>, Thrown>, dish: Result<Option<Dish>, Thrown>): LoaderRun
  {
    Caught(FormBody(stored, id, decode, toNumber, user, ingredients, dish), CatchForm)
  }

  function AdminBody(stored: Option<string>, listing: Result<(seq<Dish>, seq<User>), Thrown>): LoaderRun {
    match AuthGate(stored)
    case Failure(e) => LoaderRun([], Failure(e))
    case Success(_) =>
      var calls := [GetAllDishes(None), GetAllUsers];
      match listing
      case Failure(e) => LoaderRun(calls, Failure(e))
      case Success((ds, us)) => LoaderRun(calls, Success(AdminData(ds, us)))
  }

  /** `adminLoader`. */
  function AdminLoader(stored: Option<string>, listing: Result<(seq<Dish>, seq<User>), Thrown>): LoaderRun {
    Caught(AdminBody(stored, listing), CatchRethrow)
  }

  function MyDishesBody(stored: Option<string>, decode: Decoder, dishes: Result<seq<Dish>, Thrown>): LoaderRun {
    match AuthGate(stored)
    case Failure(e) => LoaderRun([], Failure(e))
    case Success(tok) =>
      match decode(tok)
      case Failure(m) => LoaderRun([], Failure(DecodeError(m)))
      case Success(c) =>
        var calls := [GetAllDishes(Some(DishFilters(None, Some(c.id))))];
        match dishes
        case Failure(e) => LoaderRun(calls, Failure(e))
        case Success(ds) => LoaderRun(calls, Success(MyDishesData(ds)))
  }

  /** `myDishesLoader`: the dishes whose author is the token's user. */
  function MyDishesLoader(stored: Option<string>, decode: Decoder, dishes: Result<seq<Dish>, Thrown>): LoaderRun {
    Caught(MyDishesBody(stored, decode, dishes), CatchRethrow)
  }

  // ----- Properties -----

  /** A run that throws nothing the router would take for a 401. */
  predicate No401(r: LoaderRun) {
    r.result.Failure? ==> !Is401(r.result.error)
  }

  lemma RedirectIsNot401(to: string)
    ensures !Is401(Redirect(to))
  {
  }

  /** Every catch clause turns an unauthorised error into a redirect to the
      login page and lets no unauthorised error through; a `CatchRethrow`
      passes everything else on unchanged, redirects included. */
  lemma CatchersMap401ToLogin(t: Thrown)
    ensures Is401(t) ==> CatchRethrow(t) == Redirect("/login") && CatchDish(t) == Redirect("/login") && CatchForm(t) == Redirect("/login")
    ensures !Is401(CatchRethrow(t)) && !Is401(CatchDish(t)) && !Is401(CatchForm(t)) && !Is401(CatchDishCorrected(t))
    ensures !Is401(t) ==> CatchRethrow(t) == t
  {
    RedirectIsNot401("/login");
  }

  lemma {:induction false} CaughtNo401(r: LoaderRun, handler: Thrown -> Thrown)
    requires r.result.Failure? ==> !Is401(handler(r.result.error))
    ensures No401(Caught(r, handler))
  {
  }

  /** No loader ever throws an unauthorised error at the router: it is
      always turned into a redirect to the login page first. */
  lemma NoLoaderLeaks401(
    stored: Option<string>, id: Option<string>, decode: Decoder, toNumber: string -> Num,
    listing: Result<(seq<Dish>, seq<Ingredient>), Thrown>, answer: Result<Option<Dish>, Thrown>,
    user: Result<User, Thrown>, ingredients: Result<seq<Ingredient>, Thrown>,
    adminListing: Result<(seq<Dish>, seq<User>), Thrown>, mine: Result<seq<Dish>, Thrown>)
    ensures No401(DishesLoader(stored, decode, listing))
    ensures No401(DishLoader(stored, id, toNumber, answer))
    ensures No401(DishFormLoader(stored, id, decode, toNumber, user, ingredients, answer))
    ensures No401(AdminLoader(stored, adminListing))
    ensures No401(MyDishesLoader(stored, decode, mine))
  {
    var b1 := DishesBody(stored, decode, listing);
    if b1.result.Failure? { CatchersMap401ToLogin(b1.result.error); }
    CaughtNo401(b1, CatchRethrow);
    var b2 := DishBody(stored, id, toNumber, answer);
    if b2.result.Failure? { CatchersMap401ToLogin(b2.result.error); }
    CaughtNo401(b2, CatchDish);
    var b3 := FormBody(stored, id, decode, toNumber, user, ingredients, answer);
    if b3.result.Failure? { CatchersMap401ToLogin(b3.result.error); }
    CaughtNo401(b3, CatchForm);
    var b4 := AdminBody(stored, adminListing);
    if b4.result.Failure? { CatchersMap401ToLogin(b4.result.error); }
    CaughtNo401(b4, CatchRethrow);
    var b5 := MyDishesBody(stored, decode, mine);
    if b5.result.Failure? { CatchersMap401ToLogin(b5.result.error); }
    CaughtNo401(b5, CatchRethrow);
  }

  /** Without a stored token the dish list, the form, the admin panel and
      "my dishes" redirect to the login page without calling the server. */
  lemma NoTokenGoesToLogin(
    stored: Option<string>, id: Option<string>, decode: Decoder, toNumber: string -> Num,
    listing: Result<(seq<Dish>, seq<Ingredient>), Thrown>, answer: Result<Option<Dish>, Thrown>,
    user: Result<User, Thrown>, ingredients: Result<seq<Ingredient>, Thrown>,
    adminListing: Result<(seq<Dish>, seq<User>), Thrown>, mine: Result<seq<Dish>, Thrown>)
    requires !Present(stored)
    ensures var login := LoaderRun([], Failure(Redirect("/login")));
      DishesLoader(stored, decode, listing) == login &&
      DishFormLoader(stored, id, decode, toNumber, user, ingredients, answer) == login &&
      AdminLoader(stored, adminListing) == login &&
      MyDishesLoader(stored, decode, mine) == login
  {
    RedirectIsNot401("/login");
  }

  /** `dishesLoader` sends an administrator to the admin panel before asking
      the server for anything. */
  lemma DishesLoaderSendsAdminsAway(stored: string, decode: Decoder, listing: Result<(seq<Dish>, seq<Ingredient>), Thrown>)
    requires stored != "" && decode(stored).Success? && decode(stored).value.role == ADMIN
    ensures DishesLoader(Some(stored), decode, listing) == LoaderRun([], Failure(Redirect("/admin")))
  {
    RedirectIsNot401("/admin");
  }

  /** In edit mode the form opens exactly for an administrator or for the
      author of a pending dish; anybody else is sent to the dish's page.
      Without an id the form opens empty, in create mode. */
  lemma DishFormLoaderEditRule(
    stored: string, id: Option<string>, decode: Decoder, toNumber: string -> Num,
    u: User, ings: seq<Ingredient>, d: Dish)
    requires stored != "" && decode(stored).Success?
    ensures var r := DishFormLoader(Some(stored), id, decode, toNumber, Success(u), Success(ings), Success(Some(d))).result;
      (Present(id) && MayEdit(u.role, u.id, d) ==> r == Success(FormData(Some(d), ings, true))) &&
      (Present(id) && !MayEdit(u.role, u.id, d) ==> r == Failure(Redirect("/dishes/" + id.value))) &&
      (!Present(id) ==> r == Success(FormData(None, ings, false)))
  {
    if Present(id) {
      RedirectIsNot401("/dishes/" + id.value);
    }
  }

  /** `dishLoader` rethrows its own 404s and turns every other failure that
      is not a 401, the login redirect of `requireAuth` included, into a
      500. */
  lemma DishLoaderOutcomes(stored: Option<string>, id: Option<string>, toNumber: string -> Num, answer: Result<Option<Dish>, Thrown>)
    ensures Present(stored) && !Present(id) ==> DishLoader(stored, id, toNumber, answer).result == Failure(NOT_FOUND)
    ensures Present(stored) && Present(id) && answer == Success(None) ==>
      DishLoader(stored, id, toNumber, answer).result == Failure(NOT_FOUND)
    ensures !Present(stored) ==>
      DishLoader(stored, id, toNumber, answer).result == Failure(RouteResponse(500, "Error loading dish", None))
  {
    RedirectIsNot401("/login");
  }

  /** With the redirect rethrown, a visitor without a token is sent to the
      login page like on every other protected route, and nothing else
      changes. */
  lemma DishLoaderCorrectedGoesToLogin(stored: Option<string>, id: Option<string>, toNumber: string -> Num, answer: Result<Option<Dish>, Thrown>)
    requires answer.Failure? ==> StatusOf(answer.error) != Some(302)
    ensures !Present(stored) ==>
      DishLoaderCorrected(stored, id, toNumber, answer) == LoaderRun([], Failure(Redirect("/login")))
    ensures Present(stored) ==>
      DishLoaderCorrected(stored, id, toNumber, answer) == DishLoader(stored, id, toNumber, answer)
  {
    RedirectIsNot401("/login");
  }

  /** "My dishes" makes one request, filtered by the token's user id. An id
      of 0 is falsy, so `getAllDishes` drops it and the request is for every
      dish. */
  lemma MyDishesAsksForOwnDishes(stored: string, decode: Decoder, mine: Result<seq<Dish>, Thrown>)
    requires stored != "" && decode(stored).Success?
    ensures MyDishesLoader(Some(stored), decode, mine).calls == [GetAllDishes(Some(DishFilters(None, Some(decode(stored).value.id))))]
    ensures decode(stored).value.id == 0 ==>
      AllDishesUrl(MyDishesLoader(Some(stored), decode, mine).calls[0].filters) == "/dishes"
  {
    if decode(stored).value.id == 0 {
      ZeroAuthorOmitted(None);
      NoFilterNoQuery(None);
    }
  }

  /** A stored token that `jwtDecode` rejects: the library's error is
      caught like any other, so its message decides. A message mentioning
      401 sends the visitor to the login page; otherwise the list and "my
      dishes" loaders rethrow the error and the form loader turns it into a
      500. No request is made. */
  lemma DecodeFailureOutcomes(
    stored: string, decode: Decoder, id: Option<string>, toNumber: string -> Num,
    listing: Result<(seq<Dish>, seq<Ingredient>), Thrown>, mine: Result<seq<Dish>, Thrown>,
    user: Result<User, Thrown>, ingredients: Result<seq<Ingredient>, Thrown>, dish: Result<Option<Dish>, Thrown>)
    requires stored != "" && decode(stored).Failure?
    ensures var m := decode(stored).error;
      var rethrown := if Contains(m, "401") then Redirect("/login") else DecodeError(m);
      DishesLoader(Some(stored), decode, listing) == LoaderRun([], Failure(rethrown)) &&
      MyDishesLoader(Some(stored), decode, mine) == LoaderRun([], Failure(rethrown)) &&
      DishFormLoader(Some(stored), id, decode, toNumber, user, ingredients, dish) ==
        LoaderRun([], Failure(if Contains(m, "401") then Redirect("/login") else RouteResponse(500, "Error loading form data", None)))
  {
  }
}
