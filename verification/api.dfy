/**
 * The HTTP client: the bearer-token store kept in `localStorage` under one key,
 * the request it builds (JSON content type, bearer header, body rule), and the
 * order in which it classifies a response (204, 401, body parsing, non-2xx).
 */
module Api {
  import opened Wrappers
  import opened Text
  import opened Json
  import opened Globals

  const AuthTokenKey := "auth_token"
  const SigninPath := "/signin"
  const UnauthorizedMessage := "Unauthorized - Please sign in again"

  // ---------------------------------------------------------------- token store

  /** `getToken()`: the stored token, or null when there is none or no window. */
  function GetToken(b: Browser): (token: Option<string>)
    reads b
    ensures token.Some? <==> b.hasWindow && AuthTokenKey in b.storage
    ensures token.Some? ==> token.value == b.storage[AuthTokenKey]
  {
    if b.hasWindow && AuthTokenKey in b.storage then Some(b.storage[AuthTokenKey]) else None
  }

  /** `isAuthenticated()`: a token is stored (an empty string counts). */
  predicate IsAuthenticated(b: Browser)
    reads b
    ensures IsAuthenticated(b) <==> b.hasWindow && AuthTokenKey in b.storage
  {
    GetToken(b) != None
  }

  /** A stored empty token counts as signed in, yet requests carry no `Authorization` header. */
  lemma EmptyTokenIsAuthenticatedWithoutHeader(b: Browser)
    requires b.hasWindow && AuthTokenKey in b.storage && b.storage[AuthTokenKey] == ""
    ensures IsAuthenticated(b) && "Authorization" !in Headers(GetToken(b))
  {
  }

  /** `setToken(token)`: a later `getToken()` returns `token`; without a window nothing happens. */
  method SetToken(b: Browser, token: string)
    modifies b`storage
    ensures b.storage == if b.hasWindow then old(b.storage)[AuthTokenKey := token] else old(b.storage)
    ensures GetToken(b) == if b.hasWindow then Some(token) else None
    ensures IsAuthenticated(b) == b.hasWindow
  {
    if !b.hasWindow { return; }
    b.storage := b.storage[AuthTokenKey := token];
  }

  /** `removeToken()`: afterwards no token is stored, and no other entry changed. */
  method RemoveToken(b: Browser)
    modifies b`storage
    ensures b.storage == if b.hasWindow then old(b.storage) - {AuthTokenKey} else old(b.storage)
    ensures GetToken(b) == None && !IsAuthenticated(b)
  {
    if !b.hasWindow { return; }
    b.storage := b.storage - {AuthTokenKey};
  }

  // ---------------------------------------------------------------- requests

  datatype HttpMethod = Get | Post | Put | Patch | Delete

  datatype Request = Request(verb: HttpMethod, endpoint: string, headers: map<string, string>, body: Option<Json>)

  /** The headers of every request: JSON content type, and a bearer header when the token is truthy. */
  function Headers(token: Option<string>): (h: map<string, string>)
    ensures "Content-Type" in h && h["Content-Type"] == "application/json"
    ensures "Authorization" in h <==> token.Some? && token.value != ""
    ensures "Authorization" in h ==> h["Authorization"] == "Bearer " + token.value
    ensures h.Keys <= {"Content-Type", "Authorization"}
  {
    var base := map["Content-Type" := "application/json"];
    if token.Some? && token.value != "" then base["Authorization" := "Bearer " + token.value] else base
  }

  /**
   * The body `apiGet`/`apiPost`/`apiPut`/`apiPatch`/`apiDelete` hand to `fetch`:
   * only post, put and patch send one, and only when the body argument is truthy.
   */
  function SentBody(verb: HttpMethod, body: Option<Json>): (r: Option<Json>)
    ensures r.Some? <==> (verb == Post || verb == Put || verb == Patch) && Truthy(body)
    ensures r.Some? ==> r == body
  {
    if (verb == Post || verb == Put || verb == Patch) && Truthy(body) then body else None
  }

  // ---------------------------------------------------------------- responses

  /** What `fetch` settled with: a response (its body `None` when it is not JSON), or a rejection. */
  datatype Response = Received(status: int, body: Option<Json>) | Unreachable

  datatype ApiError = ApiError(message: string, status: int, data: Option<Json>)

  /** What a rejected call carries. */
  datatype Thrown =
    | HttpError(error: ApiError)
    | NetworkError   // `fetch` itself rejected
    | TypeError      // a property was read from `null` or `undefined`
    | Failure(message: string)  // `new Error(message)` thrown by the modelled code itself

  /**
   * The `message` of a thrown error when the modelled code chose it; `None` for
   * the errors the JavaScript engine raises, whose text the engine decides.
   */
  function KnownMessage(t: Thrown): (m: Option<string>)
    ensures m.None? <==> t.NetworkError? || t.TypeError?
    ensures t.HttpError? ==> m == Some(t.error.message)
    ensures t.Failure? ==> m == Some(t.message)
  {
    match t
    case HttpError(e) => Some(e.message)
    case Failure(message) => Some(message)
    case _ => None
  }

  datatype FetchResult = NoContent | Data(value: Json) | Failed(thrown: Thrown)

  predicate IsOkStatus(status: int) { 200 <= status <= 299 }

  predicate IsUnauthorized(r: Response) { r.Received? && r.status == 401 }

  /** The message of a non-2xx error: `detail`, else `message`, else `HTTP error <status>`. */
  function ErrorMessage(data: Json, status: int): (m: string)
    ensures Truthy(Prop(data, "detail")) ==> m == JsString(Prop(data, "detail").value)
    ensures !Truthy(Prop(data, "detail")) && Truthy(Prop(data, "message")) ==>
              m == JsString(Prop(data, "message").value)
    ensures !Truthy(Prop(data, "detail")) && !Truthy(Prop(data, "message")) ==>
              m == "HTTP error " + IntToString(status)
  {
    var chosen := Or(Prop(data, "detail"), Prop(data, "message"));
    if Truthy(chosen) then JsString(chosen.value) else "HTTP error " + IntToString(status)
  }

  /** A truthy `detail` that renders empty, such as `[]`, wins over the fallback: the message is empty. */
  lemma EmptyArrayDetailGivesEmptyMessage(status: int)
    ensures var data := JObj(map["detail" := JArr([])]);
      Truthy(Prop(data, "detail")) && ErrorMessage(data, status) == ""
  {
    EmptyArrayIsTruthyButRendersEmpty();
  }

  /** The fallback message names the status, and reading its number back gives the status. */
  lemma FallbackMessageNamesStatus(data: Json, status: nat)
    requires !Truthy(Prop(data, "detail")) && !Truthy(Prop(data, "message"))
    ensures var m := ErrorMessage(data, status);
      StartsWith(m, "HTTP error ") && StringToNumber(m[11..]) == Finite(status)
  {
    var m := ErrorMessage(data, status);
    assert m[11..] == NatToString(status);
    StringToNumberOfRendering(status);
  }

  /**
   * The classification in `apiFetch`, in its order: 204 first, then 401, then
   * the body (null when not JSON), then the 2xx test.
   */
  function Classify(r: Response): (res: FetchResult)
    ensures r.Unreachable? ==> res == Failed(NetworkError)
    ensures r.Received? && r.status == 204 ==> res == NoContent
    ensures IsUnauthorized(r) ==> res == Failed(HttpError(ApiError(UnauthorizedMessage, 401, None)))
    ensures res.NoContent? <==> r.Received? && r.status == 204
    ensures res.Data? <==> r.Received? && IsOkStatus(r.status) && r.status != 204
    ensures res.Data? ==> res.value == r.body.GetOr(JNull)
    ensures res.Failed? && res.thrown.HttpError? ==>
              r.Received? && res.thrown.error.status == r.status && !IsOkStatus(r.status)
    ensures r.Received? && !IsOkStatus(r.status) && r.status != 401 ==>
              res == Failed(HttpError(ApiError(ErrorMessage(r.body.GetOr(JNull), r.status),
                                               r.status, Some(r.body.GetOr(JNull)))))
  {
    match r
    case Unreachable => Failed(NetworkError)
    case Received(status, body) =>
      if status == 204 then NoContent
      else if status == 401 then Failed(HttpError(ApiError(UnauthorizedMessage, 401, None)))
      else
        var data := body.GetOr(JNull);
        if !IsOkStatus(status) then Failed(HttpError(ApiError(ErrorMessage(data, status), status, Some(data))))
        else Data(data)
  }

  /**
   * `apiFetch`: builds the request from the stored token, then classifies the
   * response; a 401 purges the token and sends the window to the sign-in page.
   */
  method ApiFetch(b: Browser, verb: HttpMethod, endpoint: string, body: Option<Json>, response: Response)
    returns (request: Request, result: FetchResult)
    modifies b`storage, b`location
    ensures request == Request(verb, endpoint, Headers(old(GetToken(b))), body)
    ensures result == Classify(response)
    ensures IsUnauthorized(response) ==> GetToken(b) == None
    ensures IsUnauthorized(response) ==>
              b.storage == (if b.hasWindow then old(b.storage) - {AuthTokenKey} else old(b.storage)) &&
              b.location == (if b.hasWindow then SigninPath else old(b.location))
    ensures !IsUnauthorized(response) ==> b.storage == old(b.storage) && b.location == old(b.location)
  {
    var token := GetToken(b);
    request := Request(verb, endpoint, Headers(token), body);
    if response.Unreachable? {
      return request, Failed(NetworkError);
    }
    if response.status == 204 {
      return request, NoContent;
    }
    if response.status == 401 {
      RemoveToken(b);
      if b.hasWindow {
        b.location := SigninPath;
      }
      return request, Failed(HttpError(ApiError(UnauthorizedMessage, 401, None)));
    }
    var data := if response.body.Some? then response.body.value else JNull;
    if !IsOkStatus(response.status) {
      return request, Failed(HttpError(ApiError(ErrorMessage(data, response.status), response.status, Some(data))));
    }
    result := Data(data);
  }

  /**
   * The effect of one call on the session: a 401 removes the token and sends the
   * window to the sign-in page; any other outcome leaves both alone.
   */
  twostate predicate SessionAfter(b: Browser, response: Response)
    reads b
  {
    if IsUnauthorized(response) then
      && b.storage == (if b.hasWindow then old(b.storage) - {AuthTokenKey} else old(b.storage))
      && b.location == (if b.hasWindow then SigninPath else old(b.location))
    else
      b.storage == old(b.storage) && b.location == old(b.location)
  }

  /** `apiGet`, `apiPost`, `apiPut`, `apiPatch` and `apiDelete`: `apiFetch` with the body rule applied. */
  method ApiRequest(b: Browser, verb: HttpMethod, endpoint: string, body: Option<Json>, response: Response)
    returns (request: Request, result: FetchResult)
    modifies b`storage, b`location
    ensures request == Request(verb, endpoint, Headers(old(GetToken(b))), SentBody(verb, body))
    ensures result == Classify(response)
    ensures IsUnauthorized(response) ==> GetToken(b) == None
    ensures IsUnauthorized(response) ==>
              b.storage == (if b.hasWindow then old(b.storage) - {AuthTokenKey} else old(b.storage)) &&
              b.location == (if b.hasWindow then SigninPath else old(b.location))
    ensures !IsUnauthorized(response) ==> b.storage == old(b.storage) && b.location == old(b.location)
    ensures SessionAfter(b, response)
  {
    request, result := ApiFetch(b, verb, endpoint, SentBody(verb, body), response);
  }
}
