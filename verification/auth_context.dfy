/**
 * The authentication provider: a `user` and an `isLoading` flag, restored from
 * the stored token on mount and changed by login, signup and logout.
 */
module AuthContext {
  import opened Wrappers
  import opened Json
  import opened Globals
  import opened Api
  import opened Auth

  /** The user a successful login or signup installs: the decoded `token` field, if it decodes. */
  function UserAfterSuccess(r: Result<Json, Thrown>, decode: SegmentDecoder, previous: Option<User>): Option<User> {
    var decoded := DecodeTokenField(TokenField(r), decode);
    if decoded.Some? then decoded else previous
  }

  class AuthProvider {
    const browser: Browser
    /** `JSON.parse(atob(...))` as used by `decodeToken` and `isTokenExpired`. */
    const decode: SegmentDecoder
    var user: Option<User>
    var isLoading: bool

    /** Before the mount effect: no user, still loading. */
    constructor (browser: Browser, decode: SegmentDecoder)
      ensures this.browser == browser && this.decode == decode
      ensures user == None && isLoading
    {
      this.browser := browser;
      this.decode := decode;
      user := None;
      isLoading := true;
    }

    /** `isAuthenticated` as exposed by the context. */
    predicate IsAuthenticated()
      reads this
      ensures IsAuthenticated() <==> user.Some?
    {
      user != None
    }

    /**
     * The mount effect `checkAuth`, with `Date.now()` given as `now`. Without a
     * window it returns before anything, leaving `isLoading` set.
     */
    method CheckAuth(now: int)
      modifies this, browser`storage
      ensures !browser.hasWindow ==> user == old(user) && isLoading == old(isLoading)
      ensures !browser.hasWindow ==> browser.storage == old(browser.storage)
      ensures browser.hasWindow ==> !isLoading
      ensures var t := old(GetToken(browser));
        && (t.None? || t.value == "" ==> user == old(user) && browser.storage == old(browser.storage))
        && (t.Some? && t.value != "" && IsTokenExpired(t.value, decode, now) ==>
              user == None && browser.storage == old(browser.storage) - {AuthTokenKey})
        && (t.Some? && t.value != "" && !IsTokenExpired(t.value, decode, now) ==>
              user == DecodeToken(t.value, decode) && user.Some? && browser.storage == old(browser.storage))
    {
      if !browser.hasWindow {
        return;
      }
      var token := GetToken(browser);
      if token.Some? && token.value != "" {
        if IsTokenExpired(token.value, decode, now) {
          RemoveToken(browser);
          user := None;
        } else {
          var decoded := DecodeToken(token.value, decode);
          if decoded.Some? {
            user := decoded;
          } else {
            // The source removes the token here; the branch cannot be taken,
            // because a token that does not decode is expired (Auth.UndecodableTokenIsExpired).
            assert false;
          }
        }
      }
      isLoading := false;
    }

    /**
     * `login`: a successful sign-in sets the user only if the returned token
     * decodes; a failure is rethrown unchanged with the user untouched. Loading
     * is cleared either way.
     */
    method Login(email: string, password: string, response: Response) returns (thrown: Option<Thrown>)
      modifies this, browser`storage, browser`location
      ensures var r := CredentialsOutcome(response);
        && (r.Err? ==> thrown == Some(r.error) && user == old(user))
        && (r.Ok? ==> thrown == None && user == UserAfterSuccess(r, decode, old(user)))
      ensures var token := TokenField(CredentialsOutcome(response));
        Truthy(token) && browser.hasWindow ==> GetToken(browser) == Some(JsString(token.value))
      ensures !isLoading
      ensures SessionAfterSubmit(browser, response, CredentialsOutcome(response))
    {
      isLoading := true;
      var request, r := SignIn(browser, email, password, response);
      if r.Ok? {
        var decoded := DecodeTokenField(TokenField(r), decode);
        if decoded.Some? {
          user := decoded;
        }
        thrown := None;
      } else {
        thrown := Some(r.error);
      }
      isLoading := false;
    }

    /** `signup`: the same contract as `login`, against the sign-up endpoint. */
    method Signup(email: string, password: string, response: Response) returns (thrown: Option<Thrown>)
      modifies this, browser`storage, browser`location
      ensures var r := CredentialsOutcome(response);
        && (r.Err? ==> thrown == Some(r.error) && user == old(user))
        && (r.Ok? ==> thrown == None && user == UserAfterSuccess(r, decode, old(user)))
      ensures var token := TokenField(CredentialsOutcome(response));
        Truthy(token) && browser.hasWindow ==> GetToken(browser) == Some(JsString(token.value))
      ensures !isLoading
      ensures SessionAfterSubmit(browser, response, CredentialsOutcome(response))
    {
      isLoading := true;
      var request, r := SignUp(browser, email, password, response);
      if r.Ok? {
        var decoded := DecodeTokenField(TokenField(r), decode);
        if decoded.Some? {
          user := decoded;
        }
        thrown := None;
      } else {
        thrown := Some(r.error);
      }
      isLoading := false;
    }

    /**
     * `logout`: clears the user, then signs out, which always empties the token
     * store; a 401 from the logout call also redirects to the sign-in page.
     */
    method Logout(response: Response)
      modifies this, browser`storage, browser`location
      ensures user == None && !IsAuthenticated()
      ensures GetToken(browser) == None
      ensures browser.storage == if browser.hasWindow then old(browser.storage) - {AuthTokenKey} else old(browser.storage)
      ensures var t := old(GetToken(browser));
        browser.location == if t.Some? && t.value != "" && IsUnauthorized(response) && browser.hasWindow
                            then SigninPath else old(browser.location)
      ensures isLoading == old(isLoading)
    {
      user := None;
      var notified := SignOut(browser, response);
    }
  }
}
