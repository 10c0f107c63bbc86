/** The error page: the status, status text and message it shows for
    whatever a route threw. */
module ErrorBoundary {
  import opened Wrappers
  import opened Strings
  import opened Domain
  import Loaders

  /** What `useRouteError` hands the page: a route error response (a thrown
      `Response`, its body parsed into `data`), an `Error`, or anything
      else. */
  datatype RouteError =
    | ErrorResponse(status: int, statusText: string, dataMessage: Option<string>)
    | PlainError(message: string)
    | OtherValue

  datatype ErrorPage = ErrorPage(status: int, statusText: string, message: string)

  const DEFAULT_STATUS_TEXT: string := "Internal Server Error"
  const DEFAULT_MESSAGE: string := "Произошла непредвиденная ошибка"
  const NOT_FOUND_MESSAGE: string := "Страница не найдена"
  const UNAUTHORIZED_MESSAGE: string := "Требуется авторизация"
  const FORBIDDEN_MESSAGE: string := "Доступ запрещен"

  /** The page for `error`. */
  function PageFor(error: RouteError): (p: ErrorPage)
    ensures error.OtherValue? ==> p == ErrorPage(500, DEFAULT_STATUS_TEXT, DEFAULT_MESSAGE)
    ensures error.PlainError? ==> p == ErrorPage(500, DEFAULT_STATUS_TEXT, error.message)
    ensures error.ErrorResponse? ==> p.status == error.status && p.statusText == error.statusText
    ensures error.ErrorResponse? && error.status == 404 ==> p.message == NOT_FOUND_MESSAGE
    ensures error.ErrorResponse? && error.status == 401 ==> p.message == UNAUTHORIZED_MESSAGE
    ensures error.ErrorResponse? && error.status == 403 ==> p.message == FORBIDDEN_MESSAGE
  {
    match error
    case ErrorResponse(status, statusText, data) =>
      var message :=
        if status == 404 then NOT_FOUND_MESSAGE
        else if status == 401 then UNAUTHORIZED_MESSAGE
        else if status == 403 then FORBIDDEN_MESSAGE
        else if Present(data) then data.value
        else if statusText != "" then statusText
        else DEFAULT_MESSAGE;
      ErrorPage(status, statusText, message)
    case PlainError(m) => ErrorPage(500, DEFAULT_STATUS_TEXT, m)
    case OtherValue => ErrorPage(500, DEFAULT_STATUS_TEXT, DEFAULT_MESSAGE)
  }

  /** A `Response` a loader throws, as the router hands it on: its status,
      an empty status text (the loaders give none) and a plain-text body,
      which has no `message`. */
  function FromResponse(t: Thrown): (e: RouteError)
    requires t.RouteResponse?
    ensures e.ErrorResponse? && e.status == t.status && e.statusText == "" && e.dataMessage.None?
  {
    ErrorResponse(t.status, "", None)
  }

  // ----- Properties -----

  /** For a response with another status the message is the body's
      `message`, else the status text, else the generic message; it is
      never empty unless the body's message is. */
  lemma OtherStatusesFallBack(status: int, statusText: string, data: Option<string>)
    requires status != 404 && status != 401 && status != 403
    ensures var p := PageFor(ErrorResponse(status, statusText, data));
      (Present(data) ==> p.message == data.value) &&
      (!Present(data) && statusText != "" ==> p.message == statusText) &&
      (!Present(data) && statusText == "" ==> p.message == DEFAULT_MESSAGE) &&
      p.message != ""
  {
  }

  /** The three fixed messages differ from each other and from the generic
      one, so the message tells the three statuses apart. */
  lemma FixedMessagesDistinct(a: int, b: int, ta: string, tb: string, da: Option<string>, db: Option<string>)
    requires a in {401, 403, 404} && b in {401, 403, 404}
    requires PageFor(ErrorResponse(a, ta, da)).message == PageFor(ErrorResponse(b, tb, db)).message
    ensures a == b
  {
  }

  /** What the loaders throw ends up as: the missing dish shows the
      not-found message, a failed load status 500 with no status text and
      the generic message. */
  lemma LoaderFailuresOnErrorPage(body: string)
    ensures PageFor(FromResponse(Loaders.NOT_FOUND)) == ErrorPage(404, "", NOT_FOUND_MESSAGE)
    ensures PageFor(FromResponse(RouteResponse(500, body, None))) == ErrorPage(500, "", DEFAULT_MESSAGE)
  {
  }
}
