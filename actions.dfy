/** The route actions: what each form submission checks, which server calls
    it makes in which order, and what it returns (`{ error }`) or throws (a
    redirect, or an error it does not catch). The server's answers are an
    oracle parameter; the list of calls is part of each action's result. */
module Actions {
  import opened Wrappers
  import opened Strings
  import opened Domain
  import opened IngredientForm
  import opened DishService
  import Loaders

  // ----- Form data -----

  /** `formData.get(key)`: the value of the first entry with that key, or
      `null`. */
  function Get(entries: seq<(string, string)>, key: string): (r: Option<string>)
    ensures r.None? <==> forall i :: 0 <= i < |entries| ==> entries[i].0 != key
    decreases |entries|
  {
    if entries == [] then None
    else if entries[0].0 == key then Some(entries[0].1)
    else Get(entries[1..], key)
  }

  /** The value `Get` finds is that of the first entry with the key. */
  lemma {:induction false} GetIsFirst(entries: seq<(string, string)>, key: string)
    ensures Get(entries, key).Some? ==>
      exists i :: 0 <= i < |entries| && entries[i] == (key, Get(entries, key).value) &&
                  (forall j :: 0 <= j < i ==> entries[j].0 != key)
    decreases |entries|
  {
    if entries != [] && entries[0].0 != key {
      var r := Get(entries[1..], key);
      GetIsFirst(entries[1..], key);
      if r.Some? {
        var i :| 0 <= i < |entries[1..]| && entries[1..][i] == (key, r.value) &&
          forall j :: 0 <= j < i ==> entries[1..][j].0 != key;
        assert entries[i + 1] == (key, r.value);
        assert forall j :: 1 <= j < i + 1 ==> entries[j] == entries[1..][j - 1];
      }
    } else if entries != [] {
      assert entries[0] == (key, Get(entries, key).value);
    }
  }

  /** A submitted form: its text entries, and the size of the `image` file
      entry when there is one. */
  datatype Form = Form(entries: seq<(string, string)>, image: Option<nat>)

  /** `x || undefined` for an optional form text. */
  function OrUndefined(s: Option<string>): (r: Option<string>)
    ensures r.Some? <==> Present(s)
    ensures r.Some? ==> r == s
  {
    if Present(s) then s else None
  }

  /** `Number(params.id)`: `NaN` when the route has no id. */
  function IdNumber(id: Option<string>, toNumber: string -> Num): Num {
    if id.Some? then toNumber(id.value) else NaN
  }

  // ----- Server calls and answers -----

  datatype TokenPair = TokenPair(accessToken: string, refreshToken: Option<string>)

  datatype CreateDishInput = CreateDishInput(
    name: string,
    description: Option<string>,
    recipe: Option<string>,
    cookingTime: Option<Num>,
    authorId: Num,
    ingredients: Option<seq<IngredientInput>>)

  datatype UpdateDishInput = UpdateDishInput(
    name: string,
    description: Option<string>,
    recipe: Option<string>,
    cookingTime: Option<Num>)

  /** An effect an action has: a server request, or handing a token to the
      API services or to the token store. */
  datatype Call =
    | SetApiToken(token: string)
    | Login(email: string, password: string)
    | Register(email: string, username: string, password: string)
    | StoreTokens(access: string, refresh: Option<string>)
    | CreateDish(input: CreateDishInput)
    | UploadImage(dishId: Num)
    | GetDishById(id: Num)
    | UpdateDish(id: Num, update: UpdateDishInput)
    | UpdateDishIngredients(id: Num, ingredients: seq<IngredientInput>)
    | ChangeStatus(id: Num, status: string)
    | DeleteDish(id: Num)
    | ChangeRole(userId: Num, role: string)

  /** How the server answers: the login reply, the created dish, the fetched
      dish (`None` for an empty body), and whether any other request
      succeeds. */
  datatype Server = Server(
    login: Result<TokenPair, Thrown>,
    created: Result<Dish, Thrown>,
    fetched: Result<Option<Dish>, Thrown>,
    write: Call -> Result<(), Thrown>)

  /** An action returns `{ error }` or throws. */
  datatype Outcome = Returned(error: string) | Threw(thrown: Thrown)

  datatype ActionRun = ActionRun(calls: seq<Call>, outcome: Outcome)

  /** A router `Response` with status 302. */
  predicate IsRedirect(t: Thrown) {
    t.RouteResponse? && t.status == 302
  }

  /** The catch clause every action shares: a redirect is rethrown, any
      other error becomes `{ error: error.message || fallback }`. */
  function Catch(t: Thrown, fallback: string): (o: Outcome)
    ensures o.Threw? <==> IsRedirect(t)
    ensures o.Threw? ==> o.thrown == t
    ensures o.Returned? ==> o.error == if Present(MessageOf(t)) then MessageOf(t).value else fallback
  {
    if IsRedirect(t) then Threw(t)
    else Returned(if Present(MessageOf(t)) then MessageOf(t).value else fallback)
  }

  /** The requests of a `try` block run one after another; the first that
      fails ends the block. Returns the calls made and the error, if any. */
  function Perform(steps: seq<Call>, write: Call -> Result<(), Thrown>): (r: (seq<Call>, Option<Thrown>))
    ensures |r.0| <= |steps| && r.0 == steps[..|r.0|]
    ensures r.1.None? <==> r.0 == steps && forall i :: 0 <= i < |steps| ==> write(steps[i]).Success?
    ensures r.1.Some? ==> |r.0| >= 1 && write(r.0[|r.0| - 1]) == Failure(r.1.value) &&
                          (forall i :: 0 <= i < |r.0| - 1 ==> write(r.0[i]).Success?)
    decreases |steps|
  {
    if steps == [] then ([], None)
    else match write(steps[0])
      case Failure(e) => ([steps[0]], Some(e))
      case Success(_) =>
        var (rest, err) := Perform(steps[1..], write);
        PerformCons(steps, rest, err, write);
        ([steps[0]] + rest, err)
  }

  /** A successful first request followed by the run of the rest. */
  lemma PerformCons(steps: seq<Call>, rest: seq<Call>, err: Option<Thrown>, write: Call -> Result<(), Thrown>)
    requires |steps| >= 1 && write(steps[0]).Success?
    requires |rest| <= |steps[1..]| && rest == steps[1..][..|rest|]
    requires err.None? <==> rest == steps[1..] && forall i :: 0 <= i < |steps[1..]| ==> write(steps[1..][i]).Success?
    requires err.Some? ==> |rest| >= 1 && write(rest[|rest| - 1]) == Failure(err.value) &&
                           (forall i :: 0 <= i < |rest| - 1 ==> write(rest[i]).Success?)
    ensures var made := [steps[0]] + rest;
      |made| <= |steps| && made == steps[..|made|] &&
      (err.None? <==> made == steps && forall i :: 0 <= i < |steps| ==> write(steps[i]).Success?) &&
      (err.Some? ==> |made| >= 1 && write(made[|made| - 1]) == Failure(err.value) &&
                     (forall i :: 0 <= i < |made| - 1 ==> write(made[i]).Success?))
  {
    var made := [steps[0]] + rest;
    assert forall i :: 1 <= i < |steps| ==> steps[i] == steps[1..][i - 1];
    assert made == steps[..|made|];
    assert made == steps <==> rest == steps[1..];
    assert forall i :: 1 <= i < |made| ==> made[i] == rest[i - 1];
  }

  /** A `try` block of requests that ends by throwing a redirect to `to`,
      followed by the catch clause. */
  function TryThenRedirect(prefix: seq<Call>, steps: seq<Call>, write: Call -> Result<(), Thrown>, to: string, fallback: string): ActionRun {
    var (made, err) := Perform(steps, write);
    match err
    case None => ActionRun(prefix + made, Catch(Redirect(to), fallback))
    case Some(e) => ActionRun(prefix + made, Catch(e, fallback))
  }

  // ----- Messages -----

  const LOGIN_REQUIRED: string := "Email и пароль обязательны"
  const LOGIN_FAILED: string := "Ошибка входа"
  const ALL_FIELDS_REQUIRED: string := "Все поля обязательны"
  const PASSWORDS_DIFFER: string := "Пароли не совпадают"
  const PASSWORD_TOO_SHORT: string := "Пароль должен быть не менее 6 символов"
  const USERNAME_TOO_SHORT: string := "Имя пользователя должно быть не менее 3 символов"
  const REGISTER_FAILED: string := "Ошибка регистрации"
  const NAME_REQUIRED: string := "Название блюда обязательно"
  const CREATE_FAILED: string := "Ошибка создания блюда"
  const DISH_NOT_FOUND: string := "Блюдо не найдено"
  const NO_EDIT_RIGHTS: string := "У вас нет прав для редактирования этого блюда"
  const DISH_ID_MISSING: string := "ID блюда не указан"
  const UPDATE_FAILED: string := "Ошибка обновления блюда"
  const NOT_OWNER: string := "У вас нет прав для обновления этого блюда"
  const ONLY_ACCEPTED: string := "Можно обновить только одобренные блюда"
  const DELETE_FAILED: string := "Ошибка удаления блюда"
  const STATUS_MISSING: string := "Статус не указан"
  const STATUS_FAILED: string := "Ошибка изменения статуса"
  const USER_ID_MISSING: string := "ID пользователя не указан"
  const ROLE_MISSING: string := "Роль не указана"
  const ROLE_FAILED: string := "Ошибка изменения роли"

  // ----- Login and registration -----

  /** `loginAction`; `redirectParam` is the `redirect` search parameter of
      the request URL. */
  function LoginAction(form: Form, redirectParam: Option<string>, server: Server): ActionRun {
    var email := Get(form.entries, "email");
    var password := Get(form.entries, "password");
    if !Present(email) || !Present(password) then ActionRun([], Returned(LOGIN_REQUIRED))
    else
      var calls := [Login(email.value, password.value)];
      match server.login
      case Failure(e) => ActionRun(calls, Catch(e, LOGIN_FAILED))
      case Success(p) =>
        var to := if Present(redirectParam) then redirectParam.value else "/";
        ActionRun(calls + [StoreTokens(p.accessToken, p.refreshToken)], Catch(Redirect(to), LOGIN_FAILED))
  }

  /** The checks of `registerAction`, in order; the message of the first one
      that fails. */
  function RegisterCheck(email: Option<string>, username: Option<string>, password: Option<string>, confirm: Option<string>): (r: Option<string>)
    ensures var filled := Present(email) && Present(username) && Present(password) && Present(confirm);
      (r == Some(ALL_FIELDS_REQUIRED) <==> !filled) &&
      (r == Some(PASSWORDS_DIFFER) <==> filled && password != confirm) &&
      (r == Some(PASSWORD_TOO_SHORT) <==> filled && password == confirm && |password.value| < 6) &&
      (r == Some(USERNAME_TOO_SHORT) <==> filled && password == confirm && |password.value| >= 6 && |username.value| < 3) &&
      (r.None? <==> filled && password == confirm && |password.value| >= 6 && |username.value| >= 3)
  {
    if !Present(email) || !Present(username) || !Present(password) || !Present(confirm) then Some(ALL_FIELDS_REQUIRED)
    else if password.value != confirm.value then Some(PASSWORDS_DIFFER)
    else if |password.value| < 6 then Some(PASSWORD_TOO_SHORT)
    else if |username.value| < 3 then Some(USERNAME_TOO_SHORT)
    else None
  }

  /** `registerAction`: register, log in with the same credentials, store
      the tokens, go home. */
  function RegisterAction(form: Form, server: Server): ActionRun {
    var email := Get(form.entries, "email");
    var username := Get(form.entries, "username");
    var password := Get(form.entries, "password");
    var confirm := Get(form.entries, "confirmPassword");
    match RegisterCheck(email, username, password, confirm)
    case Some(msg) => ActionRun([], Returned(msg))
    case None =>
      var reg := Register(email.value, username.value, password.value);
      match server.write(reg)
      case Failure(e) => ActionRun([reg], Catch(e, REGISTER_FAILED))
      case Success(_) =>
        var calls := [reg, Login(email.value, password.value)];
        match server.login
        case Failure(e) => ActionRun(calls, Catch(e, REGISTER_FAILED))
        case Success(p) => ActionRun(calls + [StoreTokens(p.accessToken, p.refreshToken)], Catch(Redirect("/"), REGISTER_FAILED))
  }

  // ----- Dishes -----

  /** The ingredient rows a dish form carries, as both dish actions parse
      them. */
  function FormIngredients(form: Form, toNumber: string -> Num): seq<IngredientInput> {
    Emit(Collect(form.entries, toNumber))
  }

  /** `cookingTime ? Number(cookingTime) : undefined`. */
  function CookingTime(form: Form, toNumber: string -> Num): Option<Num> {
    var t := Get(form.entries, "cookingTime");
    if Present(t) then Some(toNumber(t.value)) else None
  }

  /** An image is uploaded when the form carries a non-empty file. */
  predicate HasImage(form: Form) {
    form.image.Some? && form.image.value > 0
  }

  /** The body of the create request: the form's texts, and the parsed
      rows when any survive. */
  function CreateInput(form: Form, name: string, authorId: string, toNumber: string -> Num): CreateDishInput {
    var ings := FormIngredients(form, toNumber);
    CreateDishInput(
      name,
      OrUndefined(Get(form.entries, "description")),
      OrUndefined(Get(form.entries, "recipe")),
      CookingTime(form, toNumber),
      toNumber(authorId),
      if |ings| > 0 then Some(ings) else None)
  }

  /** `createDishAction`, after the session gate. */
  function CreateDishBody(token: string, form: Form, toNumber: string -> Num, server: Server): ActionRun {
    var name := Get(form.entries, "name");
    var authorId := Get(form.entries, "authorId");
    var auth := [SetApiToken(token)];
    if !Present(name) || !Present(authorId) then ActionRun(auth, Returned(NAME_REQUIRED))
    else
      var calls := auth + [CreateDish(CreateInput(form, name.value, authorId.value, toNumber))];
      match server.created
      case Failure(e) => ActionRun(calls, Catch(e, CREATE_FAILED))
      case Success(dish) =>
        var upload := if HasImage(form) && dish.id != 0 then [UploadImage(Finite(dish.id as real))] else [];
        TryThenRedirect(calls, upload, server.write, DishPath(dish.id), CREATE_FAILED)
  }

  /** `createDishAction`: the local `requireAuth` runs outside the `try`
      block, so its redirect is thrown as is. */
  function CreateDishAction(stored: Option<string>, form: Form, toNumber: string -> Num, server: Server): ActionRun {
    match Loaders.AuthGate(stored)
    case Failure(e) => ActionRun([], Threw(e))
    case Success(token) => CreateDishBody(token, form, toNumber, server)
  }

  /** The body of the update request: the form's texts. */
  function UpdateInput(form: Form, name: string, toNumber: string -> Num): UpdateDishInput {
    UpdateDishInput(
      name,
      OrUndefined(Get(form.entries, "description")),
      OrUndefined(Get(form.entries, "recipe")),
      CookingTime(form, toNumber))
  }

  /** The requests of `updateDishAction`'s `try` block. */
  function UpdateSteps(id: Num, form: Form, name: string, toNumber: string -> Num): seq<Call> {
    var ings := FormIngredients(form, toNumber);
    [UpdateDish(id, UpdateInput(form, name, toNumber))] +
      (if |ings| > 0 then [UpdateDishIngredients(id, ings)] else []) +
      (if HasImage(form) then [UploadImage(id)] else [])
  }

  /** `updateDishAction`, after the session gate. The permission check uses
      the token's claims and runs before the id check and outside the `try`
      block, so a token that does not decode or a failed fetch is thrown as
      is. */
  function UpdateDishBody(token: string, id: Option<string>, form: Form, decode: Decoder, toNumber: string -> Num, server: Server): ActionRun {
    var auth := [SetApiToken(token)];
    match decode(token)
    case Failure(m) => ActionRun(auth, Threw(DecodeError(m)))
    case Success(c) =>
      var calls := auth + [GetDishById(IdNumber(id, toNumber))];
      match server.fetched
      case Failure(e) => ActionRun(calls, Threw(e))
      case Success(None) => ActionRun(calls, Returned(DISH_NOT_FOUND))
      case Success(Some(d)) =>
        if !MayEdit(c.role, c.id, d) then ActionRun(calls, Returned(NO_EDIT_RIGHTS))
        else if !Present(id) then ActionRun(calls, Returned(DISH_ID_MISSING))
        else
          var name := Get(form.entries, "name");
          if !Present(name) then ActionRun(calls, Returned(NAME_REQUIRED))
          else TryThenRedirect(calls, UpdateSteps(toNumber(id.value), form, name.value, toNumber), server.write, "/dishes/" + id.value, UPDATE_FAILED)
  }

  function UpdateDishAction(stored: Option<string>, id: Option<string>, form: Form, decode: Decoder, toNumber: string -> Num, server: Server): ActionRun {
    match Loaders.AuthGate(stored)
    case Failure(e) => ActionRun([], Threw(e))
    case Success(token) => UpdateDishBody(token, id, form, decode, toNumber, server)
  }

  /** The catch clause of `updateDishForOwnerAction`: redirects and
      anything with status 404 are rethrown. */
  function CatchOwner(t: Thrown): (o: Outcome)
    ensures o.Threw? <==> IsRedirect(t) || StatusOf(t) == Some(404)
    ensures o.Threw? ==> o.thrown == t
    ensures !IsRedirect(t) && StatusOf(t) != Some(404) ==> o == Catch(t, UPDATE_FAILED)
  {
    if IsRedirect(t) || StatusOf(t) == Some(404) then Threw(t) else Catch(t, UPDATE_FAILED)
  }

  /** `updateDishForOwnerAction`, after the session gate and the id check.
      Its second token check cannot fail: the same stored token just passed
      `requireAuth`. */
  function OwnerUpdateBody(token: string, id: string, decode: Decoder, toNumber: string -> Num, server: Server): ActionRun {
    var auth := [SetApiToken(token)];
    match decode(token)
    case Failure(m) => ActionRun(auth, CatchOwner(DecodeError(m)))
    case Success(c) =>
      var n := toNumber(id);
      var calls := auth + [GetDishById(n)];
      match server.fetched
      case Failure(e) => ActionRun(calls, CatchOwner(e))
      case Success(None) => ActionRun(calls, CatchOwner(Loaders.NOT_FOUND))
      case Success(Some(d)) =>
        if d.authorId != c.id then ActionRun(calls, Returned(NOT_OWNER))
        else if d.status != Accepted then ActionRun(calls, Returned(ONLY_ACCEPTED))
        else
          var change := ChangeStatus(n, StatusName(Pending));
          match server.write(change)
          case Failure(e) => ActionRun(calls + [change], CatchOwner(e))
          case Success(_) => ActionRun(calls + [change], CatchOwner(Redirect("/dishes/" + id + "/edit")))
  }

  function UpdateDishForOwnerAction(stored: Option<string>, id: Option<string>, decode: Decoder, toNumber: string -> Num, server: Server): ActionRun {
    match Loaders.AuthGate(stored)
    case Failure(e) => ActionRun([], Threw(e))
    case Success(token) =>
      if !Present(id) then ActionRun([SetApiToken(token)], Returned(DISH_ID_MISSING))
      else OwnerUpdateBody(token, id.value, decode, toNumber, server)
  }

  /** `deleteDishAction`. */
  function DeleteDishAction(stored: Option<string>, id: Option<string>, toNumber: string -> Num, server: Server): ActionRun {
    match Loaders.AuthGate(stored)
    case Failure(e) => ActionRun([], Threw(e))
    case Success(token) =>
      var auth := [SetApiToken(token)];
      if !Present(id) then ActionRun(auth, Returned(DISH_ID_MISSING))
      else TryThenRedirect(auth, [DeleteDish(toNumber(id.value))], server.write, "/", DELETE_FAILED)
  }

  /** `changeDishStatusAction`: the status text is sent as the form gives
      it. */
  function ChangeDishStatusAction(stored: Option<string>, id: Option<string>, form: Form, toNumber: string -> Num, server: Server): ActionRun {
    match Loaders.AuthGate(stored)
    case Failure(e) => ActionRun([], Threw(e))
    case Success(token) =>
      var auth := [SetApiToken(token)];
      if !Present(id) then ActionRun(auth, Returned(DISH_ID_MISSING))
      else
        var status := Get(form.entries, "status");
        if !Present(status) then ActionRun(auth, Returned(STATUS_MISSING))
        else TryThenRedirect(auth, [ChangeStatus(toNumber(id.value), status.value)], server.write, "/admin", STATUS_FAILED)
  }

  /** `changeUserRoleAction`: the role text is sent as the form gives it. */
  function ChangeUserRoleAction(stored: Option<string>, id: Option<string>, form: Form, toNumber: string -> Num, server: Server): ActionRun {
    match Loaders.AuthGate(stored)
    case Failure(e) => ActionRun([], Threw(e))
    case Success(token) =>
      var auth := [SetApiToken(token)];
      if !Present(id) then ActionRun(auth, Returned(USER_ID_MISSING))
      else
        var role := Get(form.entries, "role");
        if !Present(role) then ActionRun(auth, Returned(ROLE_MISSING))
        else TryThenRedirect(auth, [ChangeRole(toNumber(id.value), role.value)], server.write, "/admin", ROLE_FAILED)
  }

  // ----- Properties -----

  /** A run that throws nothing but a redirect. */
  predicate ThrowsOnlyRedirects(r: ActionRun) {
    r.outcome.Threw? ==> IsRedirect(r.outcome.thrown)
  }

  lemma {:induction false} TryThenRedirectThrowsOnlyRedirects(prefix: seq<Call>, steps: seq<Call>, write: Call -> Result<(), Thrown>, to: string, fallback: string)
    ensures ThrowsOnlyRedirects(TryThenRedirect(prefix, steps, write, to, fallback))
    ensures (forall i :: 0 <= i < |steps| ==> write(steps[i]).Success?) ==>
      TryThenRedirect(prefix, steps, write, to, fallback).outcome == Threw(Redirect(to))
    ensures !(forall i :: 0 <= i < |steps| ==> write(steps[i]).Success?) ==>
      exists i :: 0 <= i < |steps| && write(steps[i]).Failure? &&
        TryThenRedirect(prefix, steps, write, to, fallback).outcome == Catch(write(steps[i]).error, fallback)
  {
    var (made, err) := Perform(steps, write);
    if err.Some? {
      var k := |made| - 1;
      assert steps[k] == made[k];
    }
  }

  /** The login form never calls the server without both an email and a
      password. */
  lemma LoginNeedsBoth(form: Form, redirectParam: Option<string>, server: Server)
    requires !Present(Get(form.entries, "email")) || !Present(Get(form.entries, "password"))
    ensures LoginAction(form, redirectParam, server) == ActionRun([], Returned(LOGIN_REQUIRED))
  {
  }

  /** Creating a dish without a name or an author id returns the fixed
      error once the token is set, and sends no create request. */
  lemma CreateNeedsNameAndAuthor(token: string, form: Form, toNumber: string -> Num, server: Server)
    requires !Present(Get(form.entries, "name")) || !Present(Get(form.entries, "authorId"))
    ensures CreateDishBody(token, form, toNumber, server) == ActionRun([SetApiToken(token)], Returned(NAME_REQUIRED))
  {
  }

  /** A successful login stores both tokens the server returned and goes to
      the `redirect` parameter, or home when there is none. */
  lemma LoginSucceeds(form: Form, redirectParam: Option<string>, server: Server)
    requires Present(Get(form.entries, "email")) && Present(Get(form.entries, "password"))
    requires server.login.Success?
    ensures var p := server.login.value;
      var r := LoginAction(form, redirectParam, server);
      r.calls == [Login(Get(form.entries, "email").value, Get(form.entries, "password").value), StoreTokens(p.accessToken, p.refreshToken)] &&
      r.outcome == Threw(Redirect(if Present(redirectParam) then redirectParam.value else "/"))
  {
  }

  /** A failed login stores nothing; it reports the error's message, or the
      fixed text when the error has none. */
  lemma LoginFails(form: Form, redirectParam: Option<string>, server: Server)
    requires Present(Get(form.entries, "email")) && Present(Get(form.entries, "password"))
    requires server.login.Failure? && !IsRedirect(server.login.error)
    ensures var r := LoginAction(form, redirectParam, server);
      |r.calls| == 1 && r.calls[0].Login? &&
      r.outcome == Returned(if Present(MessageOf(server.login.error)) then MessageOf(server.login.error).value else LOGIN_FAILED)
  {
  }

  /** A registration that fails a check reports that check's message and
      calls nothing; one that passes them all registers first. */
  lemma RegisterValidatesFirst(form: Form, server: Server)
    ensures var e := form.entries;
      var check := RegisterCheck(Get(e, "email"), Get(e, "username"), Get(e, "password"), Get(e, "confirmPassword"));
      var r := RegisterAction(form, server);
      (check.Some? ==> r == ActionRun([], Returned(check.value))) &&
      (check.None? ==> |r.calls| >= 1 && r.calls[0] == Register(Get(e, "email").value, Get(e, "username").value, Get(e, "password").value))
  {
  }

  /** A successful registration logs in with the same credentials, stores
      the tokens and goes home. */
  lemma RegisterSucceeds(form: Form, server: Server)
    requires var e := form.entries;
      RegisterCheck(Get(e, "email"), Get(e, "username"), Get(e, "password"), Get(e, "confirmPassword")).None?
    requires server.login.Success?
    requires server.write(Register(Get(form.entries, "email").value, Get(form.entries, "username").value, Get(form.entries, "password").value)).Success?
    ensures var e := form.entries;
      var p := server.login.value;
      RegisterAction(form, server) == ActionRun(
        [Register(Get(e, "email").value, Get(e, "username").value, Get(e, "password").value),
         Login(Get(e, "email").value, Get(e, "password").value),
         StoreTokens(p.accessToken, p.refreshToken)],
        Threw(Redirect("/")))
  {
  }

  /** Without a stored token every dish and admin action throws the login
      redirect and calls nothing. */
  lemma NoTokenThrowsLogin(stored: Option<string>, id: Option<string>, form: Form, decode: Decoder, toNumber: string -> Num, server: Server)
    requires !Present(stored)
    ensures var login := ActionRun([], Threw(Redirect("/login")));
      CreateDishAction(stored, form, toNumber, server) == login &&
      UpdateDishAction(stored, id, form, decode, toNumber, server) == login &&
      UpdateDishForOwnerAction(stored, id, decode, toNumber, server) == login &&
      DeleteDishAction(stored, id, toNumber, server) == login &&
      ChangeDishStatusAction(stored, id, form, toNumber, server) == login &&
      ChangeUserRoleAction(stored, id, form, toNumber, server) == login
  {
  }

  /** Login and registration throw nothing but redirects: every other
      error is returned as `{ error }`. */
  lemma SessionActionsThrowOnlyRedirects(form: Form, redirectParam: Option<string>, server: Server)
    ensures ThrowsOnlyRedirects(LoginAction(form, redirectParam, server))
    ensures ThrowsOnlyRedirects(RegisterAction(form, server))
  {
  }

  /** Creating a dish throws nothing but redirects. */
  lemma CreateThrowsOnlyRedirects(stored: Option<string>, form: Form, toNumber: string -> Num, server: Server)
    ensures ThrowsOnlyRedirects(CreateDishAction(stored, form, toNumber, server))
  {
    if Present(stored) && Present(Get(form.entries, "name")) && Present(Get(form.entries, "authorId")) && server.created.Success? {
      var r := CreateDishBody(stored.value, form, toNumber, server);
      var dish := server.created.value;
      var upload := if HasImage(form) && dish.id != 0 then [UploadImage(Finite(dish.id as real))] else [];
      TryThenRedirectThrowsOnlyRedirects(r.calls[..2], upload, server.write, DishPath(dish.id), CREATE_FAILED);
    }
  }

  /** Deleting a dish, changing its status and changing a user's role throw
      nothing but redirects. */
  lemma AdminActionsThrowOnlyRedirects(stored: Option<string>, id: Option<string>, form: Form, toNumber: string -> Num, server: Server)
    ensures ThrowsOnlyRedirects(DeleteDishAction(stored, id, toNumber, server))
    ensures ThrowsOnlyRedirects(ChangeDishStatusAction(stored, id, form, toNumber, server))
    ensures ThrowsOnlyRedirects(ChangeUserRoleAction(stored, id, form, toNumber, server))
  {
    if Present(stored) && Present(id) {
      var auth := [SetApiToken(stored.value)];
      var n := toNumber(id.value);
      TryThenRedirectThrowsOnlyRedirects(auth, [DeleteDish(n)], server.write, "/", DELETE_FAILED);
      var status := Get(form.entries, "status");
      if Present(status) {
        TryThenRedirectThrowsOnlyRedirects(auth, [ChangeStatus(n, status.value)], server.write, "/admin", STATUS_FAILED);
      }
      var role := Get(form.entries, "role");
      if Present(role) {
        TryThenRedirectThrowsOnlyRedirects(auth, [ChangeRole(n, role.value)], server.write, "/admin", ROLE_FAILED);
      }
    }
  }

  /** A new dish is sent with ingredients exactly when some form row
      survives the parse, and then with exactly those rows. */
  lemma CreateSendsParsedIngredients(token: string, form: Form, toNumber: string -> Num, server: Server)
    requires Present(Get(form.entries, "name")) && Present(Get(form.entries, "authorId"))
    ensures var r := CreateDishBody(token, form, toNumber, server);
      var ings := FormIngredients(form, toNumber);
      |r.calls| >= 2 && r.calls[1].CreateDish? &&
      (r.calls[1].input.ingredients.None? <==> ings == []) &&
      (r.calls[1].input.ingredients.Some? ==> r.calls[1].input.ingredients.value == ings)
  {
  }

  /** The calls of a `try` block that ends in a redirect: the calls before
      it, then requests of the block, beginning with its first. */
  lemma TryThenRedirectCalls(prefix: seq<Call>, steps: seq<Call>, write: Call -> Result<(), Thrown>, to: string, fallback: string)
    ensures var r := TryThenRedirect(prefix, steps, write, to, fallback);
      |prefix| <= |r.calls| && r.calls[..|prefix|] == prefix &&
      (forall i :: |prefix| <= i < |r.calls| ==> r.calls[i] in steps) &&
      (steps != [] ==> |r.calls| > |prefix| && r.calls[|prefix|] == steps[0])
  {
    var (made, err) := Perform(steps, write);
    var r := TryThenRedirect(prefix, steps, write, to, fallback);
    assert r.calls == prefix + made;
    assert forall i :: |prefix| <= i < |r.calls| ==> r.calls[i] == made[i - |prefix|] == steps[i - |prefix|];
    if steps != [] {
      assert |made| >= 1;
      assert made[0] == steps[0];
    }
  }

  /** A created dish: the upload, if any, runs in a `try` block after the
      token and the create request. */
  lemma CreateDishBodyUploads(token: string, form: Form, toNumber: string -> Num, server: Server)
    requires Present(Get(form.entries, "name")) && Present(Get(form.entries, "authorId"))
    requires server.created.Success?
    ensures var dish := server.created.value;
      var calls := [SetApiToken(token)] + [CreateDish(CreateInput(form, Get(form.entries, "name").value, Get(form.entries, "authorId").value, toNumber))];
      var upload := if HasImage(form) && dish.id != 0 then [UploadImage(Finite(dish.id as real))] else [];
      CreateDishBody(token, form, toNumber, server) == TryThenRedirect(calls, upload, server.write, DishPath(dish.id), CREATE_FAILED)
  {
  }

  /** A `try` block of uploads after calls that upload nothing: an upload
      is among the calls exactly when the block has one. */
  lemma TryUploads(calls: seq<Call>, upload: seq<Call>, write: Call -> Result<(), Thrown>, to: string)
    requires forall i :: 0 <= i < |calls| ==> !calls[i].UploadImage?
    requires forall i :: 0 <= i < |upload| ==> upload[i].UploadImage?
    ensures var r := TryThenRedirect(calls, upload, write, to, CREATE_FAILED);
      (exists i :: 0 <= i < |r.calls| && r.calls[i].UploadImage?) <==> upload != []
  {
    var r := TryThenRedirect(calls, upload, write, to, CREATE_FAILED);
    TryThenRedirectCalls(calls, upload, write, to, CREATE_FAILED);
    if exists i :: 0 <= i < |r.calls| && r.calls[i].UploadImage? {
    }
    if upload != [] {
      assert r.calls[|calls|].UploadImage?;
    }
  }

  /** The image is uploaded only when the form carries a non-empty file and
      the created dish has a non-zero id; the action then goes to the new
      dish's page. */
  lemma CreateUploadsOnlyNonEmptyImage(token: string, form: Form, toNumber: string -> Num, server: Server)
    requires Present(Get(form.entries, "name")) && Present(Get(form.entries, "authorId"))
    requires server.created.Success?
    ensures var r := CreateDishBody(token, form, toNumber, server);
      var dish := server.created.value;
      (exists i :: 0 <= i < |r.calls| && r.calls[i].UploadImage?) <==> HasImage(form) && dish.id != 0
    ensures var r := CreateDishBody(token, form, toNumber, server);
      var dish := server.created.value;
      (!HasImage(form) || dish.id == 0 || server.write(UploadImage(Finite(dish.id as real))).Success?) ==>
        r.outcome == Threw(Redirect(DishPath(dish.id)))
  {
    var dish := server.created.value;
    var calls := [SetApiToken(token)] + [CreateDish(CreateInput(form, Get(form.entries, "name").value, Get(form.entries, "authorId").value, toNumber))];
    var upload := if HasImage(form) && dish.id != 0 then [UploadImage(Finite(dish.id as real))] else [];
    CreateDishBodyUploads(token, form, toNumber, server);
    TryUploads(calls, upload, server.write, DishPath(dish.id));
    TryThenRedirectThrowsOnlyRedirects(calls, upload, server.write, DishPath(dish.id), CREATE_FAILED);
  }

  /** The update was refused by the permission check: nothing but the
      fetch was sent, and the refusal was returned. */
  predicate RefusedEdit(r: ActionRun, token: string, id: Option<string>, toNumber: string -> Num) {
    r.calls == [SetApiToken(token), GetDishById(IdNumber(id, toNumber))] && r.outcome == Returned(NO_EDIT_RIGHTS)
  }

  /** `updateDishAction` edits exactly what the edit rule allows: a caller
      it refuses gets the refusal after the fetch, with no write; a caller
      it allows gets the update sent when the form names the dish. */
  lemma UpdateFollowsEditRule(token: string, id: Option<string>, form: Form, decode: Decoder, toNumber: string -> Num, server: Server)
    requires decode(token).Success? && server.fetched.Success? && server.fetched.value.Some?
    ensures var c := decode(token).value;
      var d := server.fetched.value.value;
      var r := UpdateDishBody(token, id, form, decode, toNumber, server);
      (!MayEdit(c.role, c.id, d) <==> RefusedEdit(r, token, id, toNumber)) &&
      (MayEdit(c.role, c.id, d) && Present(id) && Present(Get(form.entries, "name")) ==> |r.calls| > 2 && r.calls[2].UpdateDish?)
  {
    var c := decode(token).value;
    var d := server.fetched.value.value;
    if MayEdit(c.role, c.id, d) && Present(id) && Present(Get(form.entries, "name")) {
      var steps := UpdateSteps(toNumber(id.value), form, Get(form.entries, "name").value, toNumber);
      var auth := [SetApiToken(token), GetDishById(IdNumber(id, toNumber))];
      TryThenRedirectThrowsOnlyRedirects(auth, steps, server.write, "/dishes/" + id.value, UPDATE_FAILED);
    }
  }

  /** Every ingredients request among the update's steps carries the
      parsed rows, and only when there are some. */
  lemma UpdateStepsIngredients(id: Num, form: Form, name: string, toNumber: string -> Num)
    ensures forall c :: c in UpdateSteps(id, form, name, toNumber) && c.UpdateDishIngredients? ==>
      c.ingredients != [] && c.ingredients == FormIngredients(form, toNumber)
  {
  }

  /** `updateDishAction` stops after the token or the fetch, or runs its
      `try` block. */
  lemma UpdateDishBodyShape(token: string, id: Option<string>, form: Form, decode: Decoder, toNumber: string -> Num, server: Server)
    ensures var r := UpdateDishBody(token, id, form, decode, toNumber, server);
      var auth := [SetApiToken(token), GetDishById(IdNumber(id, toNumber))];
      r.calls == [SetApiToken(token)] || r.calls == auth ||
      (Present(id) && Present(Get(form.entries, "name")) &&
       r == TryThenRedirect(auth, UpdateSteps(toNumber(id.value), form, Get(form.entries, "name").value, toNumber),
                            server.write, "/dishes/" + id.value, UPDATE_FAILED))
  {
  }

  /** The update's `try` block sends the ingredients only with a non-empty
      list, and then with the parsed rows. */
  lemma UpdateTryIngredients(auth: seq<Call>, n: Num, form: Form, name: string, toNumber: string -> Num, write: Call -> Result<(), Thrown>, to: string)
    requires forall i :: 0 <= i < |auth| ==> !auth[i].UpdateDishIngredients?
    ensures var r := TryThenRedirect(auth, UpdateSteps(n, form, name, toNumber), write, to, UPDATE_FAILED);
      forall i :: 0 <= i < |r.calls| && r.calls[i].UpdateDishIngredients? ==>
        r.calls[i].ingredients != [] && r.calls[i].ingredients == FormIngredients(form, toNumber)
  {
    var steps := UpdateSteps(n, form, name, toNumber);
    var r := TryThenRedirect(auth, steps, write, to, UPDATE_FAILED);
    TryThenRedirectCalls(auth, steps, write, to, UPDATE_FAILED);
    UpdateStepsIngredients(n, form, name, toNumber);
  }

  /** `updateDishAction` calls the ingredients endpoint only with a
      non-empty list, and then with the parsed rows. */
  lemma UpdateSendsIngredientsOnlyWhenSome(token: string, id: Option<string>, form: Form, decode: Decoder, toNumber: string -> Num, server: Server)
    ensures var r := UpdateDishBody(token, id, form, decode, toNumber, server);
      forall i :: 0 <= i < |r.calls| && r.calls[i].UpdateDishIngredients? ==>
        r.calls[i].ingredients != [] && r.calls[i].ingredients == FormIngredients(form, toNumber)
  {
    var auth := [SetApiToken(token), GetDishById(IdNumber(id, toNumber))];
    UpdateDishBodyShape(token, id, form, decode, toNumber, server);
    if Present(id) && Present(Get(form.entries, "name")) {
      UpdateTryIngredients(auth, toNumber(id.value), form, Get(form.entries, "name").value, toNumber, server.write, "/dishes/" + id.value);
    }
  }

  /** The form loader and the update action apply one rule: for the same
      identity and dish, the loader opens the edit form exactly when the
      action does not refuse the edit. */
  lemma EditRuleAgreesWithFormLoader(
    token: string, id: string, form: Form, decode: Decoder, toNumber: string -> Num, server: Server,
    u: User, ings: seq<Ingredient>, d: Dish)
    requires token != "" && id != "" && decode(token).Success?
    requires decode(token).value.id == u.id && decode(token).value.role == u.role
    requires server.fetched == Success(Some(d))
    ensures var loaded := Loaders.DishFormLoader(Some(token), Some(id), decode, toNumber, Success(u), Success(ings), Success(Some(d))).result;
      var acted := UpdateDishAction(Some(token), Some(id), form, decode, toNumber, server);
      loaded.Success? <==> !RefusedEdit(acted, token, Some(id), toNumber)
  {
    Loaders.DishFormLoaderEditRule(token, Some(id), decode, toNumber, u, ings, d);
    UpdateFollowsEditRule(token, Some(id), form, decode, toNumber, server);
  }

  /** The owner's update of a published dish: refused for anyone but the
      author and for a dish that is not accepted; otherwise the dish goes
      back to moderation before the edit form opens. A missing dish is
      thrown as a 404. */
  lemma OwnerUpdateRule(token: string, id: string, decode: Decoder, toNumber: string -> Num, server: Server)
    requires decode(token).Success? && server.fetched.Success?
    ensures var c := decode(token).value;
      var r := OwnerUpdateBody(token, id, decode, toNumber, server);
      var change := ChangeStatus(toNumber(id), "PENDING");
      (server.fetched.value.None? ==> r.outcome == Threw(Loaders.NOT_FOUND)) &&
      (server.fetched.value.Some? ==>
        var d := server.fetched.value.value;
        (d.authorId != c.id ==> r.outcome == Returned(NOT_OWNER)) &&
        (d.authorId == c.id && d.status != Accepted ==> r.outcome == Returned(ONLY_ACCEPTED)) &&
        (d.authorId == c.id && d.status == Accepted ==>
          r.calls[|r.calls| - 1] == change &&
          (server.write(change).Success? ==> r.outcome == Threw(Redirect("/dishes/" + id + "/edit")))))
  {
  }

  /** The owner's update throws only redirects and 404s. */
  lemma OwnerUpdateThrowsOnlyRedirectsAnd404(stored: Option<string>, id: Option<string>, decode: Decoder, toNumber: string -> Num, server: Server)
    ensures var o := UpdateDishForOwnerAction(stored, id, decode, toNumber, server).outcome;
      o.Threw? ==> IsRedirect(o.thrown) || StatusOf(o.thrown) == Some(404)
  {
  }

  /** A token `jwtDecode` rejects: `updateDishAction` throws the library's
      error as is, while `updateDishForOwnerAction` catches it and returns
      its message, or the fixed text when the message is empty. */
  lemma DecodeFailureOutcomes(token: string, id: Option<string>, ownerId: string, form: Form, decode: Decoder, toNumber: string -> Num, server: Server)
    requires decode(token).Failure?
    ensures var m := decode(token).error;
      UpdateDishBody(token, id, form, decode, toNumber, server) == ActionRun([SetApiToken(token)], Threw(DecodeError(m))) &&
      OwnerUpdateBody(token, ownerId, decode, toNumber, server) ==
        ActionRun([SetApiToken(token)], Returned(if m != "" then m else UPDATE_FAILED))
  {
  }
}
