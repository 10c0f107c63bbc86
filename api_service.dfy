/** `APIService`: the four service instances the pages talk to, built with
    one base URL and token, and the fan-out of `setToken`/`logout` to all of
    them. */
module ApiServices {
  import opened Wrappers
  import opened Strings
  import opened Api
  import opened BrowserStorage

  /** The base URL the shared singleton is built with. */
  const SINGLETON_BASE_URL: string := "http://localhost:3000/api"

  class ApiService {
    const userService: ApiInstance
    const dishService: ApiInstance
    const ingredientsService: ApiInstance
    const nutrientsService: ApiInstance

    function Instances(): seq<ApiInstance> {
      [userService, dishService, ingredientsService, nutrientsService]
    }

    /** The four services are separate objects, each with its own header. */
    predicate Distinct() {
      forall i, j :: 0 <= i < j < 4 ==> Instances()[i] != Instances()[j]
    }

    /** The default `Authorization` header of each service, in declaration
        order. */
    function Headers(): seq<Option<string>>
      reads userService, dishService, ingredientsService, nutrientsService
    {
      [userService.authHeader, dishService.authHeader, ingredientsService.authHeader, nutrientsService.authHeader]
    }

    /** All four services get the same base URL and token. */
    constructor (baseUrl: string, token: Option<string>)
      ensures Distinct()
      ensures forall i :: 0 <= i < 4 ==> Instances()[i].baseUrl == baseUrl && Instances()[i].timeout == TIMEOUT_MS
      ensures var h := if Present(token) then Some(Bearer(token.value)) else None;
        Headers() == [h, h, h, h]
    {
      userService := new ApiInstance(baseUrl, token);
      dishService := new ApiInstance(baseUrl, token);
      ingredientsService := new ApiInstance(baseUrl, token);
      nutrientsService := new ApiInstance(baseUrl, token);
    }

    /** Every service now sends `Bearer t`. */
    method SetToken(t: string)
      modifies userService`authHeader, dishService`authHeader, ingredientsService`authHeader, nutrientsService`authHeader
      ensures var h := Some(Bearer(t)); Headers() == [h, h, h, h]
    {
      userService.SetAuthToken(t);
      dishService.SetAuthToken(t);
      ingredientsService.SetAuthToken(t);
      nutrientsService.SetAuthToken(t);
    }

    /** No service sends an `Authorization` header any more. */
    method Logout()
      modifies userService`authHeader, dishService`authHeader, ingredientsService`authHeader, nutrientsService`authHeader
      ensures Headers() == [None, None, None, None]
    {
      userService.ClearAuthToken();
      dishService.ClearAuthToken();
      ingredientsService.ClearAuthToken();
      nutrientsService.ClearAuthToken();
    }
  }

  /** The shared `apiService`: built against the fixed base URL with the
      token under storage key `token`, or with no header when that key is
      missing or empty. */
  method CreateSingleton(storage: Storage) returns (api: ApiService)
    ensures fresh(api) && api.Distinct()
    ensures forall i :: 0 <= i < 4 ==> api.Instances()[i].baseUrl == SINGLETON_BASE_URL
    ensures var t := storage.GetItem("token");
      var h := if Present(t) then Some(Bearer(t.value)) else None;
      api.Headers() == [h, h, h, h]
  {
    var stored := storage.GetItem("token");
    api := new ApiService(SINGLETON_BASE_URL, if Present(stored) then stored else None);
  }
}
