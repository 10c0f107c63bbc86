/** The records the client exchanges with the dish server, the decoded token
    claims, and the values a route loader or action can throw. Only the fields
    the modelled logic reads are kept. */
module Domain {
  import opened Wrappers
  import opened Strings

  /** Moderation status of a dish. */
  datatype Status = Pending | Rejected | Accepted

  /** The wire name of a status. */
  function StatusName(s: Status): string {
    match s
    case Pending => "PENDING"
    case Rejected => "REJECTED"
    case Accepted => "ACCEPTED"
  }

  /** Different statuses have different wire names. */
  lemma StatusNameInjective(a: Status, b: Status)
    requires StatusName(a) == StatusName(b)
    ensures a == b
  {
  }

  /** The role string that grants administrator rights. */
  const ADMIN: string := "ADMIN"
  const USER: string := "USER"

  /** A JavaScript number produced by `Number(...)`: finite, or `NaN`. */
  datatype Num = Finite(value: real) | NaN

  /** `n > 0`; false for `NaN`. */
  predicate Positive(n: Num) {
    n.Finite? && n.value > 0.0
  }

  /** An ingredient as the server describes it; the per-piece and density
      fields are optional. */
  datatype Ingredient = Ingredient(
    id: int,
    name: string,
    glycemicIndex: real,
    breadUnitsIn1g: real,
    caloriesPer100g: real,
    unit: Option<string>,
    gramsPerPiece: Option<real>,
    caloriesPerPiece: Option<real>,
    densityGPerMl: Option<real>)

  /** One ingredient row of a dish, with its ingredient's data. */
  datatype DishIngredient = DishIngredient(
    ingredientId: int,
    quantity: real,
    unit: Option<string>,
    ingredient: Ingredient)

  datatype Author = Author(id: int, username: string, email: string)

  datatype Dish = Dish(
    id: int,
    name: string,
    description: Option<string>,
    authorId: int,
    status: Status,
    author: Author,
    ingredients: seq<DishIngredient>)

  /** The user record kept in the auth state and returned by the server. */
  datatype User = User(
    id: int,
    email: string,
    username: string,
    role: string,
    createdAt: string,
    updatedAt: string)

  /** The claims `jwtDecode` extracts from an access token. */
  datatype Claims = Claims(
    id: int,
    email: string,
    username: string,
    role: string,
    iat: Option<int>,
    exp: Option<int>)

  /** A token decoder: the claims, or the message of the error `jwtDecode`
      throws. The library's messages carry details of the malformed part. */
  type Decoder = string -> Result<Claims, string>

  /** What a loader or action can throw: a router `Response` (a redirect is
      one with status 302 and a location) or an `Error`-like object with an
      optional `status` and `message`. */
  datatype Thrown =
    | RouteResponse(status: int, body: string, location: Option<string>)
    | ErrorObject(errStatus: Option<int>, message: Option<string>)

  /** `redirect(to)` from the router. */
  function Redirect(to: string): (t: Thrown)
    ensures t.RouteResponse? && t.status == 302 && t.location == Some(to)
  {
    RouteResponse(302, "", Some(to))
  }

  /** `error.status`. */
  function StatusOf(t: Thrown): Option<int> {
    match t
    case RouteResponse(s, _, _) => Some(s)
    case ErrorObject(s, _) => s
  }

  /** `error.message`; a router `Response` carries none. */
  function MessageOf(t: Thrown): Option<string> {
    match t
    case RouteResponse(_, _, _) => None
    case ErrorObject(_, m) => m
  }

  /** The error `jwtDecode` throws on a malformed token: no status, and the
      library's message. */
  function DecodeError(message: string): Thrown {
    ErrorObject(None, Some(message))
  }

  /** The edit rule: an administrator may edit any dish, its author only a
      dish awaiting moderation. */
  predicate MayEdit(role: string, userId: int, dish: Dish) {
    role == ADMIN || (userId == dish.authorId && dish.status == Pending)
  }
}
