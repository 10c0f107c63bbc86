/** The request paths of `DishService`: the list query with its optional
    filters and the per-dish endpoints. */
module DishService {
  import opened Wrappers
  import opened Strings
  import opened Domain

  /** The filters `getAllDishes` accepts. */
  datatype DishFilters = DishFilters(status: Option<Status>, authorId: Option<int>)

  const NO_FILTERS: DishFilters := DishFilters(None, None)

  /** `URLSearchParams.toString()` for the names and values used here (upper
      case letters, digits and '-', none of which is escaped). */
  function Encode(params: seq<(string, string)>): string
    decreases |params|
  {
    if params == [] then ""
    else if |params| == 1 then params[0].0 + "=" + params[0].1
    else params[0].0 + "=" + params[0].1 + "&" + Encode(params[1..])
  }

  /** The parameters `getAllDishes` appends, in order: `status` when given,
      then `authorId` when truthy (present and non-zero). */
  function QueryParams(f: Option<DishFilters>): seq<(string, string)> {
    var st := if f.Some? && f.value.status.Some? then [("status", StatusName(f.value.status.value))] else [];
    var au := if f.Some? && f.value.authorId.Some? && f.value.authorId.value != 0
              then [("authorId", IntToString(f.value.authorId.value))] else [];
    st + au
  }

  /** The path `getAllDishes(f)` requests. */
  function AllDishesUrl(f: Option<DishFilters>): string {
    var q := Encode(QueryParams(f));
    if q == "" then "/dishes" else "/dishes?" + q
  }

  /** `getAllDishes` building its query on a mutable parameter list. */
  method GetAllDishesUrl(f: Option<DishFilters>) returns (url: string)
    ensures url == AllDishesUrl(f)
  {
    var params: seq<(string, string)> := [];
    if f.Some? && f.value.status.Some? {
      params := params + [("status", StatusName(f.value.status.value))];
    }
    if f.Some? && f.value.authorId.Some? && f.value.authorId.value != 0 {
      params := params + [("authorId", IntToString(f.value.authorId.value))];
    }
    var query := Encode(params);
    url := if query == "" then "/dishes" else "/dishes?" + query;
  }

  /** With no filter (or none that applies) the path is `/dishes` with no
      `?`; otherwise the query follows a single `?`. */
  lemma NoFilterNoQuery(f: Option<DishFilters>)
    ensures QueryParams(f) == [] <==> AllDishesUrl(f) == "/dishes"
    ensures f.None? || f == Some(NO_FILTERS) ==> AllDishesUrl(f) == "/dishes"
  {
    var ps := QueryParams(f);
    if ps != [] {
      assert Encode(ps)[..|ps[0].0|] == ps[0].0;
      assert |Encode(ps)| > 0;
    }
  }

  /** Two parameters are joined by one `&`. */
  lemma EncodeTwo(k1: string, v1: string, k2: string, v2: string)
    ensures Encode([(k1, v1), (k2, v2)]) == k1 + "=" + v1 + "&" + k2 + "=" + v2
  {
    var ps := [(k1, v1), (k2, v2)];
    assert ps[1..] == [(k2, v2)];
  }

  /** The path for a status and an author, whatever their texts. */
  lemma UrlOfStatusAndAuthor(x: string, y: string)
    ensures var q := Encode([("status", x), ("authorId", y)]);
      q != "" && "/dishes?" + q == "/dishes?status=" + x + "&authorId=" + y
  {
    EncodeTwo("status", x, "authorId", y);
    var q := "status" + "=" + x + "&" + "authorId" + "=" + y;
    assert q[0] == 's';
  }

  /** `status` comes before `authorId` when both apply. */
  lemma StatusBeforeAuthor(s: Status, a: int)
    requires a != 0
    ensures AllDishesUrl(Some(DishFilters(Some(s), Some(a)))) ==
      "/dishes?status=" + StatusName(s) + "&authorId=" + IntToString(a)
  {
    var x, y := StatusName(s), IntToString(a);
    assert QueryParams(Some(DishFilters(Some(s), Some(a)))) == [("status", x)] + [("authorId", y)];
    assert [("status", x)] + [("authorId", y)] == [("status", x), ("authorId", y)];
    UrlOfStatusAndAuthor(x, y);
  }

  /** An `authorId` of 0, like a missing one, is left out of the query. */
  lemma ZeroAuthorOmitted(st: Option<Status>)
    ensures AllDishesUrl(Some(DishFilters(st, Some(0)))) == AllDishesUrl(Some(DishFilters(st, None)))
  {
  }

  /** `/dishes/<id>`. */
  function DishPath(id: int): string {
    "/dishes/" + IntToString(id)
  }

  function IngredientsPath(id: int): string { DishPath(id) + "/ingredients" }
  function StatusPath(id: int): string { DishPath(id) + "/status" }
  function ImagePath(id: int): string { DishPath(id) + "/image" }
  function FavoritePath(id: int): string { DishPath(id) + "/favorite" }

  const FAVORITES_PATH: string := "/dishes/favorites"

  /** Different dishes have different paths, and no dish path is the
      favourites list's path. */
  lemma DishPathsDistinct(a: int, b: int)
    ensures DishPath(a) == DishPath(b) ==> a == b
    ensures DishPath(a) != FAVORITES_PATH
  {
    var pre := "/dishes/";
    if DishPath(a) == DishPath(b) {
      assert IntToString(a) == DishPath(a)[|pre|..] == DishPath(b)[|pre|..] == IntToString(b);
      IntToStringInjective(a, b);
    }
    var s := IntToString(a);
    assert DishPath(a)[|pre|] == s[0];
    assert FAVORITES_PATH[|pre|] == 'f';
    if a >= 0 {
      assert IsDigit(s[0]);
    }
  }

  /** The per-dish endpoints of one dish are `/dishes/<id>` plus a fixed
      suffix, and the endpoints of different dishes differ. */
  lemma SubPathsOfDish(a: int, b: int)
    ensures StartsWith(IngredientsPath(a), DishPath(a)) && StartsWith(StatusPath(a), DishPath(a))
    ensures StartsWith(ImagePath(a), DishPath(a)) && StartsWith(FavoritePath(a), DishPath(a))
    ensures StatusPath(a) == StatusPath(b) ==> a == b
    ensures FavoritePath(a) == FavoritePath(b) ==> a == b
  {
    if StatusPath(a) == StatusPath(b) {
      assert DishPath(a) == StatusPath(a)[..|StatusPath(a)| - 7];
      assert DishPath(b) == StatusPath(b)[..|StatusPath(b)| - 7];
      DishPathsDistinct(a, b);
    }
    if FavoritePath(a) == FavoritePath(b) {
      assert DishPath(a) == FavoritePath(a)[..|FavoritePath(a)| - 9];
      assert DishPath(b) == FavoritePath(b)[..|FavoritePath(b)| - 9];
      DishPathsDistinct(a, b);
    }
    assert IngredientsPath(a)[..|DishPath(a)|] == DishPath(a);
    assert StatusPath(a)[..|DishPath(a)|] == DishPath(a);
    assert ImagePath(a)[..|DishPath(a)|] == DishPath(a);
    assert FavoritePath(a)[..|DishPath(a)|] == DishPath(a);
  }
}
