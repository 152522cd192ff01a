/**
 * The auth store and the session policy side by side. Both keep a copy of the
 * bearer token: the store in memory, the session policy in secure storage.
 * Logging in and out through both keeps the copies equal; a 401 clears only
 * the stored one.
 */
module AppSession {
  import opened Wrappers
  import AuthStore
  import Session

  /** The in-memory token and the stored token are the same. */
  predicate Agree(a: AuthStore.AuthState, s: Session.SessionState) {
    a.token == Session.Lookup(s.items, Session.AuthTokenKey)
  }

  function LoginParams(t: string): Session.ApiConfigParams {
    Session.ApiConfigParams(Some(true), Some(t))
  }

  /** Logging in on both sides, with a non-empty token, leaves the copies equal. */
  lemma LoginAgrees(a: AuthStore.AuthState, s: Session.SessionState, t: string, apiUrl: Option<string>)
    requires t != ""
    ensures Agree(a.Login(t), Session.Step(s, Session.Init(LoginParams(t), apiUrl)))
  {
  }

  /** Logging out on both sides (with `isLoggedIn` omitted or false) leaves the copies equal. */
  lemma LogoutAgrees(a: AuthStore.AuthState, s: Session.SessionState, p: Session.ApiConfigParams, apiUrl: Option<string>)
    requires !p.LoggedIn()
    ensures Agree(a.Logout(), Session.Step(s, Session.Init(p, apiUrl)))
  {
  }

  /**
   * A 401 breaks the agreement whenever the store holds a token: storage is
   * cleared and the store is not told.
   */
  lemma UnauthorizedDisagrees(a: AuthStore.AuthState, s: Session.SessionState, e: Session.AxiosError)
    requires Agree(a, s) && a.token != None && e.Unauthorized()
    ensures !Agree(a, Session.Step(s, Session.Settle(Session.Rejected(e))))
    ensures a.WellFormed() ==> a.CanAccessGuestProtectedRoute()
  {
  }

  /**
   * Logging in with the empty token also parts the copies: the store holds
   * `""`, while initialising with a falsy token leaves storage as it was.
   */
  lemma EmptyTokenLoginDisagrees(a: AuthStore.AuthState, s: Session.SessionState, apiUrl: Option<string>)
    requires Session.Lookup(s.items, Session.AuthTokenKey) != Some("")
    ensures Session.Step(s, Session.Init(LoginParams(""), apiUrl)).items == s.items
    ensures !Agree(a.Login(""), Session.Step(s, Session.Init(LoginParams(""), apiUrl)))
  {
  }

  /**
   * The 401 gap on the objects themselves: log in on the store and the
   * client, let a request fail with 401, and look at the three places the
   * credential lives. The store still lets the user through with the token,
   * secure storage is empty, and the next request still carries the token
   * baked into the client.
   */
  method UnauthorizedScenario(t: string, apiUrl: Option<string>, e: Session.AxiosError, req: Session.Request)
    returns (canAccess: bool, held: Option<string>, stored: Option<string>, sentAuthorization: Option<string>)
    requires t != "" && e.Unauthorized() && Session.AuthorizationHeader !in req.headers
    ensures canAccess && held == Some(t)
    ensures stored == None
    ensures sentAuthorization == Some(Session.Bearer(t))
  {
    var store := new AuthStore.Store();
    var secure := new Session.SecureStore(map[]);
    var api := new Session.Api(secure);

    store.Login(t);
    api.InitAxiosApi(LoginParams(t), apiUrl);
    var outcome := api.InterceptResponse(Session.Rejected(e));

    canAccess := store.State().CanAccessGuestProtectedRoute();
    held := store.token;
    stored := secure.GetItemAsync(Session.AuthTokenKey);
    var sent := api.Send(req);
    sentAuthorization := Session.Lookup(sent.value.headers, Session.AuthorizationHeader);
  }
}
