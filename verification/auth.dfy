/**
 * Client-side handling of the JWT-shaped bearer token (RFC 7519): the payload
 * is read without checking the signature, failures are closed (no user,
 * expired), expiry compares `exp` seconds with a millisecond clock, and the
 * sign-in, sign-up, sign-out and current-user steps act on the token store.
 */
module Auth {
  import opened Wrappers
  import opened Text
  import opened Json
  import opened Globals
  import opened Api

  /**
   * `JSON.parse(atob(segment))`: the parsed payload, or `None` when either step
   * throws. Base64 and JSON parsing are not part of this model.
   */
  type SegmentDecoder = string -> Option<Json>

  /**
   * The user read from a payload. The fields are whatever the payload holds
   * (`None` is `undefined`): nothing checks that they are strings.
   */
  datatype User = User(userId: Option<Json>, email: Option<Json>)

  /** The payload of a token: present when it has three segments and the middle one parses to a non-null value. */
  function Payload(token: string, decode: SegmentDecoder): (p: Option<Json>)
    ensures |Split(token, '.')| != 3 ==> p == None
    ensures p.Some? ==> !p.value.JNull? && decode(Split(token, '.')[1]) == p
  {
    var parts := Split(token, '.');
    if |parts| != 3 then None
    else match decode(parts[1])
      case None => None
      case Some(JNull) => None   // reading `payload.sub` from null throws
      case Some(v) => Some(v)
  }

  /** `decodeToken`: never throws; `user_id` is `sub` when truthy, else `user_id`; `email` is copied. */
  function DecodeToken(token: string, decode: SegmentDecoder): (u: Option<User>)
    ensures |Split(token, '.')| != 3 ==> u == None
    ensures u.Some? <==> Payload(token, decode).Some?
    ensures u.Some? ==> var p := Payload(token, decode).value;
      && (Truthy(Prop(p, "sub")) ==> u.value.userId == Prop(p, "sub"))
      && (!Truthy(Prop(p, "sub")) ==> u.value.userId == Prop(p, "user_id"))
      && u.value.email == Prop(p, "email")
  {
    match Payload(token, decode)
    case None => None
    case Some(p) => Some(User(Or(Prop(p, "sub"), Prop(p, "user_id")), Prop(p, "email")))
  }

  /** `decodeToken(response.token)`: a token that is not a string makes `split` throw, which is caught. */
  function DecodeTokenField(token: Option<Json>, decode: SegmentDecoder): (u: Option<User>)
    ensures u.Some? ==> token.Some? && token.value.JStr?
    ensures token.Some? && token.value.JStr? ==> u == DecodeToken(token.value.s, decode)
  {
    if token.Some? && token.value.JStr? then DecodeToken(token.value.s, decode) else None
  }

  /** The `exp` claim of a decodable token. */
  function Exp(token: string, decode: SegmentDecoder): Option<Json>
    requires Payload(token, decode).Some?
  {
    Prop(Payload(token, decode).value, "exp")
  }

  /** `isTokenExpired(token)` with `Date.now()` given as `now` (milliseconds). */
  function IsTokenExpired(token: string, decode: SegmentDecoder, now: int): (expired: bool)
    ensures expired <==> match ExpirationTime(token, decode, now)
                         case None => Payload(token, decode).None?
                         case Some(NaN) => false
                         case Some(Finite(left)) => left <= 0
  {
    match Payload(token, decode)
    case None => true
    case Some(p) =>
      var exp := Prop(p, "exp");
      if !Truthy(exp) then false
      else match ToNumber(exp.value)
        case Finite(e) => now >= e * 1000
        case NaN => false
  }

  /** `getTokenExpirationTime(token)`: milliseconds left, or `None`. */
  function ExpirationTime(token: string, decode: SegmentDecoder, now: int): (left: Option<Number>)
    ensures left.Some? <==> Payload(token, decode).Some? && Truthy(Exp(token, decode))
    ensures left.Some? && Exp(token, decode).value.JNum? ==>
              left == Some(Finite(Exp(token, decode).value.n * 1000 - now))
    ensures left.Some? && Exp(token, decode).value.JObj? ==> left == Some(NaN)
  {
    match Payload(token, decode)
    case None => None
    case Some(p) =>
      var exp := Prop(p, "exp");
      if !Truthy(exp) then None
      else match ToNumber(exp.value)
        case Finite(e) => Some(Finite(e * 1000 - now))
        case NaN => Some(NaN)
  }

  /** Fail closed: a token that does not split into three parts is expired and has no expiration time. */
  lemma MalformedTokenIsExpired(token: string, decode: SegmentDecoder, now: int)
    requires |Split(token, '.')| != 3
    ensures DecodeToken(token, decode) == None
    ensures IsTokenExpired(token, decode, now)
    ensures ExpirationTime(token, decode, now) == None
  {
  }

  /** Fail closed: a token that does not decode counts as expired, so an unexpired token always decodes. */
  lemma UndecodableTokenIsExpired(token: string, decode: SegmentDecoder, now: int)
    ensures DecodeToken(token, decode).None? ==> IsTokenExpired(token, decode, now)
    ensures !IsTokenExpired(token, decode, now) ==> DecodeToken(token, decode).Some?
  {
  }

  /** A decodable token with a missing or falsy `exp` (including 0) never expires and has no expiration time. */
  lemma NoExpClaimNeverExpires(token: string, decode: SegmentDecoder, now: int)
    requires Payload(token, decode).Some? && !Truthy(Exp(token, decode))
    ensures !IsTokenExpired(token, decode, now)
    ensures ExpirationTime(token, decode, now) == None
  {
  }

  /** A numeric `exp` of `e` seconds: expired exactly when `now >= e * 1000`, with `e * 1000 - now` ms left. */
  lemma NumericExpClaim(token: string, decode: SegmentDecoder, now: int, e: int)
    requires Payload(token, decode).Some? && Exp(token, decode) == Some(JNum(e)) && e != 0
    ensures IsTokenExpired(token, decode, now) <==> now >= e * 1000
    ensures ExpirationTime(token, decode, now) == Some(Finite(e * 1000 - now))
  {
  }

  /** Expired exactly when no time is left. */
  lemma ExpiredIffNoTimeLeft(token: string, decode: SegmentDecoder, now: int, left: int)
    requires ExpirationTime(token, decode, now) == Some(Finite(left))
    ensures IsTokenExpired(token, decode, now) <==> left <= 0
  {
  }

  /** Once expired, a token stays expired as the clock moves forward. */
  lemma ExpiryIsPermanent(token: string, decode: SegmentDecoder, now: int, later: int)
    requires now <= later && IsTokenExpired(token, decode, now)
    ensures IsTokenExpired(token, decode, later)
  {
  }

  /** A token assembled from a header, a payload segment and a signature (none containing '.') decodes its payload. */
  lemma {:induction false} DecodeAssembledToken(header: string, payload: string, signature: string,
                                                decode: SegmentDecoder, claims: map<string, Json>)
    requires '.' !in header && '.' !in payload && '.' !in signature
    requires decode(payload) == Some(JObj(claims))
    ensures var u := DecodeToken(header + "." + payload + "." + signature, decode);
      && u.Some?
      && u.value.email == (if "email" in claims then Some(claims["email"]) else None)
      && ("sub" in claims && Truthy(Some(claims["sub"])) ==> u.value.userId == Some(claims["sub"]))
  {
    var parts := [header, payload, signature];
    assert Join(parts, '.') == header + "." + payload + "." + signature by {
      assert Join(parts[2..], '.') == signature;
      assert parts[1..][1..] == parts[2..];
    }
    SplitJoin(parts, '.');
  }

  // ---------------------------------------------------------------- token store steps

  /** `{ email, password }` as sent to the sign-in and sign-up endpoints. */
  function Credentials(email: string, password: string): Json {
    JObj(map["email" := JStr(email), "password" := JStr(password)])
  }

  /** How a sign-in or sign-up call settles: the response object, or what it rejects with. */
  function CredentialsOutcome(response: Response): (r: Result<Json, Thrown>)
    ensures r.Ok? ==> Classify(response).Data? && r.value == Classify(response).value && !r.value.JNull?
    ensures Classify(response).Failed? ==> r == Err(Classify(response).thrown)
    ensures Classify(response).NoContent? ==> r == Err(TypeError)
  {
    match Classify(response)
    case Failed(t) => Err(t)
    case NoContent => Err(TypeError)       // `undefined.token`
    case Data(JNull) => Err(TypeError)     // `null.token`
    case Data(v) => Ok(v)
  }

  /** The `token` field of a successful sign-in or sign-up. */
  function TokenField(r: Result<Json, Thrown>): Option<Json> {
    if r.Ok? then Prop(r.value, "token") else None
  }

  /**
   * The session after a sign-in or sign-up call that settled as `r`: a 401
   * purged the token and redirected to the sign-in page; otherwise a truthy
   * token was stored as `String(token)`; with no window nothing changed.
   */
  twostate predicate SessionAfterSubmit(b: Browser, response: Response, r: Result<Json, Thrown>)
    reads b
  {
    && b.location == (if IsUnauthorized(response) && b.hasWindow then SigninPath else old(b.location))
    && b.storage == (if !b.hasWindow then old(b.storage)
                     else if IsUnauthorized(response) then old(b.storage) - {AuthTokenKey}
                     else if Truthy(TokenField(r)) then old(b.storage)[AuthTokenKey := JsString(TokenField(r).value)]
                     else old(b.storage))
  }

  /** The shared body of `signin` and `signup`: post the credentials, then store a truthy token. */
  method SubmitCredentials(b: Browser, endpoint: string, email: string, password: string, response: Response)
    returns (request: Request, r: Result<Json, Thrown>)
    modifies b`storage, b`location
    ensures request == Request(Post, endpoint, Headers(old(GetToken(b))), Some(Credentials(email, password)))
    ensures r == CredentialsOutcome(response)
    ensures IsUnauthorized(response) ==> r.Err? && GetToken(b) == None
    ensures Truthy(TokenField(r)) && b.hasWindow ==> GetToken(b) == Some(JsString(TokenField(r).value))
    ensures SessionAfterSubmit(b, response, r)
  {
    var fetched;
    request, fetched := ApiRequest(b, Post, endpoint, Some(Credentials(email, password)), response);
    r := CredentialsOutcome(response);
    var token := TokenField(r);
    if Truthy(token) {
      // `localStorage.setItem` stores `String(token)`
      SetToken(b, JsString(token.value));
    }
  }

  /** `signin`: posts the credentials to the sign-in endpoint and stores the returned token when it is truthy. */
  method SignIn(b: Browser, email: string, password: string, response: Response)
    returns (request: Request, r: Result<Json, Thrown>)
    modifies b`storage, b`location
    ensures request == Request(Post, "/api/auth/sign-in", Headers(old(GetToken(b))), Some(Credentials(email, password)))
    ensures r == CredentialsOutcome(response)
    ensures IsUnauthorized(response) ==> r.Err? && GetToken(b) == None
    ensures Truthy(TokenField(r)) && b.hasWindow ==> GetToken(b) == Some(JsString(TokenField(r).value))
    ensures SessionAfterSubmit(b, response, r)
  {
    request, r := SubmitCredentials(b, "/api/auth/sign-in", email, password, response);
  }

  /** `signup`: posts the credentials to the sign-up endpoint and stores the returned token when it is truthy. */
  method SignUp(b: Browser, email: string, password: string, response: Response)
    returns (request: Request, r: Result<Json, Thrown>)
    modifies b`storage, b`location
    ensures request == Request(Post, "/api/auth/sign-up", Headers(old(GetToken(b))), Some(Credentials(email, password)))
    ensures r == CredentialsOutcome(response)
    ensures IsUnauthorized(response) ==> r.Err? && GetToken(b) == None
    ensures Truthy(TokenField(r)) && b.hasWindow ==> GetToken(b) == Some(JsString(TokenField(r).value))
    ensures SessionAfterSubmit(b, response, r)
  {
    request, r := SubmitCredentials(b, "/api/auth/sign-up", email, password, response);
  }

  /**
   * `signout`: notifies the server only when a truthy token is stored, ignores
   * how that call ends, and always leaves the store without a token.
   */
  method SignOut(b: Browser, response: Response) returns (notified: Option<Request>)
    modifies b`storage, b`location
    ensures GetToken(b) == None
    ensures b.storage == if b.hasWindow then old(b.storage) - {AuthTokenKey} else old(b.storage)
    ensures notified.Some? <==> old(GetToken(b)).Some? && old(GetToken(b)).value != ""
    ensures notified.Some? ==> notified.value == Request(Post, "/api/auth/logout", Headers(old(GetToken(b))), None)
    ensures notified.Some? ==>
              && "Authorization" in notified.value.headers
              && notified.value.headers["Authorization"] == "Bearer " + old(GetToken(b)).value
    ensures b.location == if notified.Some? && IsUnauthorized(response) && b.hasWindow then SigninPath else old(b.location)
  {
    var token := GetToken(b);
    if token.Some? && token.value != "" {
      var request, ignored := ApiRequest(b, Post, "/api/auth/logout", None, response);
      notified := Some(request);
    } else {
      notified := None;
    }
    RemoveToken(b);
  }

  /**
   * `getCurrentUser`: no token (or an empty one) gives null; an expired token is
   * removed and gives null; otherwise the decoded token.
   */
  method GetCurrentUser(b: Browser, decode: SegmentDecoder, now: int) returns (u: Option<User>)
    modifies b`storage
    ensures var t := old(GetToken(b));
      && (t.None? || t.value == "" ==> u == None && b.storage == old(b.storage))
      && (t.Some? && t.value != "" && IsTokenExpired(t.value, decode, now) ==>
            u == None && GetToken(b) == None && b.storage == old(b.storage) - {AuthTokenKey})
      && (t.Some? && t.value != "" && !IsTokenExpired(t.value, decode, now) ==>
            u == DecodeToken(t.value, decode) && u.Some? && b.storage == old(b.storage))
  {
    var token := GetToken(b);
    if token.None? || token.value == "" {
      return None;
    }
    if IsTokenExpired(token.value, decode, now) {
      RemoveToken(b);
      return None;
    }
    UndecodableTokenIsExpired(token.value, decode, now);
    u := DecodeToken(token.value, decode);
  }
}
