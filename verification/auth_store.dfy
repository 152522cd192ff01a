/**
 * The client-side authentication store (`useAuthStore`): one global record of
 * four fields, changed only by `login`, `loginAsGuest`, `logout` and `setUser`,
 * and read by `getUser` and `canAccessGuestProtectedRoute`.
 *
 * The store's value is the datatype `AuthState`; each mutator is a function on
 * that value, written with datatype update so that the fields the mutator does
 * not name keep their old values (the store merges a partial object into the
 * current state). The class `Store` is the mutable global itself.
 */
module AuthStore {
  import opened Wrappers

  /** The account kinds of `UserType`; its `null` is `None` of the `role` field. */
  datatype UserType = SalonAdmin | Customer

  /**
   * A user record. Every named field is optional; the record's further,
   * free-form fields are kept by name in `extra`.
   */
  datatype User = User(
    id: Option<string>,
    name: Option<string>,
    email: Option<string>,
    role: Option<UserType>,
    extra: map<string, string>)

  /** The store's four data fields; `None` stands for `null`. */
  datatype AuthState = AuthState(
    isAuthenticated: bool,
    isGuest: bool,
    token: Option<string>,
    user: Option<User>)
  {
    /**
     * The invariant of the store: a guest is authenticated and holds no
     * token, and whoever holds a token is authenticated and not a guest.
     */
    predicate WellFormed() {
      && (isGuest ==> isAuthenticated && token == None)
      && (token != None ==> isAuthenticated && !isGuest)
    }

    /** The three situations the store can actually be in. */
    predicate IsAnonymous() { !isAuthenticated && !isGuest && token == None }
    predicate IsGuestSession() { isAuthenticated && isGuest && token == None }
    predicate IsSignedIn() { isAuthenticated && !isGuest && token != None }
    predicate InPhase() { IsAnonymous() || IsGuestSession() || IsSignedIn() }

    /** `login(token)`: a full session holding `t`; the user record is kept. */
    function Login(t: string): (r: AuthState)
      ensures r.IsSignedIn() && r.WellFormed() && r.CanAccessGuestProtectedRoute()
      ensures r.token == Some(t) && r.user == user
    {
      this.(isAuthenticated := true, isGuest := false, token := Some(t))
    }

    /** `loginAsGuest()`: a guest session; any token held before is dropped, the user is kept. */
    function LoginAsGuest(): (r: AuthState)
      ensures r.IsGuestSession() && r.WellFormed() && !r.CanAccessGuestProtectedRoute()
      ensures r.user == user
    {
      this.(isAuthenticated := true, isGuest := true, token := None)
    }

    /** `logout()`: back to the initial state, whatever the state was. */
    function Logout(): (r: AuthState)
      ensures r == Initial
    {
      this.(isAuthenticated := false, isGuest := false, token := None, user := None)
    }

    /** `setUser(u)`: replaces the user record wholesale, in any state. */
    function SetUser(u: Option<User>): (r: AuthState)
      ensures r.user == u
      ensures r.isAuthenticated == isAuthenticated && r.isGuest == isGuest && r.token == token
    {
      this.(user := u)
    }

    /** `getUser()`: the current user record; storing it back changes nothing. */
    function GetUser(): (u: Option<User>)
      ensures this.SetUser(u) == this
    {
      user
    }

    /** `canAccessGuestProtectedRoute()`: signed in, and not as a guest. */
    function CanAccessGuestProtectedRoute(): (r: bool)
      ensures r ==> isAuthenticated       // never without signing in
      ensures isGuest ==> !r              // never for a guest
      ensures isAuthenticated && !isGuest ==> r
    {
      isAuthenticated && !isGuest
    }
  }

  /** The state the store is created with. */
  const Initial := AuthState(false, false, None, None)

  /** One call of a mutator of the store. */
  datatype Action =
    | Login(token: string)
    | LoginAsGuest
    | Logout
    | SetUser(user: Option<User>)

  function Apply(s: AuthState, a: Action): AuthState {
    match a
    case Login(t) => s.Login(t)
    case LoginAsGuest => s.LoginAsGuest()
    case Logout => s.Logout()
    case SetUser(u) => s.SetUser(u)
  }

  /** The state after the mutator calls `acts`, in order, starting from `s`. */
  function Run(s: AuthState, acts: seq<Action>): AuthState
    decreases |acts|
  {
    if acts == [] then s else Run(Apply(s, acts[0]), acts[1..])
  }

  /** The states some sequence of mutator calls leads to from the initial state. */
  ghost predicate Reachable(s: AuthState) {
    exists acts :: Run(Initial, acts) == s
  }

  /** Every mutator leads into one of the three situations, from any state at all. */
  lemma ApplyInPhase(s: AuthState, a: Action)
    requires s.InPhase()
    ensures Apply(s, a).InPhase()
  {
  }

  lemma {:induction false} RunInPhase(s: AuthState, acts: seq<Action>)
    requires s.InPhase()
    ensures Run(s, acts).InPhase()
    decreases |acts|
  {
    if acts != [] {
      ApplyInPhase(s, acts[0]);
      RunInPhase(Apply(s, acts[0]), acts[1..]);
    }
  }

  /** Running a trace and then one more call is running the longer trace. */
  lemma {:induction false} RunSnoc(s: AuthState, acts: seq<Action>, a: Action)
    ensures Run(s, acts + [a]) == Apply(Run(s, acts), a)
    decreases |acts|
  {
    if acts == [] {
      assert acts + [a] == [a];
    } else {
      assert (acts + [a])[1..] == acts[1..] + [a];
      RunSnoc(Apply(s, acts[0]), acts[1..], a);
    }
  }

  /** A trace of mutator calls that leads from the initial state to `s`. */
  function Witness(s: AuthState): seq<Action> {
    if s.isGuest then [Action.LoginAsGuest, Action.SetUser(s.user)]
    else if s.token.Some? then [Action.Login(s.token.value), Action.SetUser(s.user)]
    else [Action.SetUser(s.user)]
  }

  /**
   * The reachable states are exactly the three situations: anonymous, guest,
   * and signed in with a token (each with any user record).
   */
  lemma {:induction false} ReachableIffInPhase(s: AuthState)
    ensures Reachable(s) <==> s.InPhase()
  {
    if Reachable(s) {
      var acts :| Run(Initial, acts) == s;
      RunInPhase(Initial, acts);
    }
    if s.InPhase() {
      var w := Witness(s);
      if |w| == 2 {
        calc {
          Run(Initial, w);
          Run(Apply(Initial, w[0]), w[1..]);
          { assert w[1..][1..] == []; }
          Apply(Apply(Initial, w[0]), w[1]);
        }
      } else {
        assert w[1..] == [];
      }
      assert Run(Initial, w) == s;
    }
  }

  /** The store's invariant holds in every reachable state. */
  lemma ReachableWellFormed(s: AuthState)
    requires Reachable(s)
    ensures s.WellFormed()
  {
    ReachableIffInPhase(s);
  }

  /**
   * In a reachable state the route guard is exactly "holds a token"; the
   * invariant alone does not give this (an authenticated non-guest without a
   * token satisfies it but is never reached).
   */
  lemma ReachableRouteGuardIffToken(s: AuthState)
    requires Reachable(s)
    ensures s.CanAccessGuestProtectedRoute() <==> s.token != None
  {
    ReachableIffInPhase(s);
  }

  lemma LogoutIdempotent(s: AuthState)
    ensures s.Logout().Logout() == s.Logout()
  {
  }

  /**
   * `getUser` returns what `setUser` stored last; logging in, as a user or as
   * a guest, does not change it, and logging out clears it.
   */
  lemma GetUserSeesSetUser(s: AuthState, u: Option<User>, t: string)
    ensures s.SetUser(u).GetUser() == u
    ensures s.Login(t).GetUser() == s.GetUser() && s.LoginAsGuest().GetUser() == s.GetUser()
    ensures s.Logout().GetUser() == None
  {
  }

  /**
   * The global store. `history` is the sequence of mutator calls made on it
   * since it was created; the object invariant says the fields are what that
   * sequence produces from the initial state.
   */
  class Store {
    var isAuthenticated: bool
    var isGuest: bool
    var token: Option<string>
    var user: Option<User>
    ghost var history: seq<Action>

    function State(): AuthState
      reads this
    {
      AuthState(isAuthenticated, isGuest, token, user)
    }

    ghost predicate Valid()
      reads this
    {
      State() == Run(Initial, history)
    }

    constructor ()
      ensures Valid() && State() == Initial && history == []
    {
      isAuthenticated, isGuest, token, user := false, false, None, None;
      history := [];
    }

    /** Records one more call in the history and keeps the invariant. */
    ghost method Record(a: Action)
      requires State() == Apply(Run(Initial, history), a)
      modifies this`history
      ensures Valid() && history == old(history) + [a]
      ensures State().WellFormed() && State().InPhase()
    {
      RunSnoc(Initial, history, a);
      history := history + [a];
      RunInPhase(Initial, history);
    }

    method Login(t: string)
      requires Valid()
      modifies this
      ensures Valid() && history == old(history) + [Action.Login(t)]
      ensures State() == old(State()).Login(t)
      ensures State().WellFormed() && State().CanAccessGuestProtectedRoute()
    {
      isAuthenticated, isGuest, token := true, false, Some(t);
      Record(Action.Login(t));
    }

    method LoginAsGuest()
      requires Valid()
      modifies this
      ensures Valid() && history == old(history) + [Action.LoginAsGuest]
      ensures State() == old(State()).LoginAsGuest()
      ensures State().WellFormed() && !State().CanAccessGuestProtectedRoute()
    {
      isAuthenticated, isGuest, token := true, true, None;
      Record(Action.LoginAsGuest);
    }

    method Logout()
      requires Valid()
      modifies this
      ensures Valid() && history == old(history) + [Action.Logout]
      ensures State() == old(State()).Logout() == Initial
    {
      isAuthenticated, isGuest, token, user := false, false, None, None;
      Record(Action.Logout);
    }

    method SetUser(u: Option<User>)
      requires Valid()
      modifies this
      ensures Valid() && history == old(history) + [Action.SetUser(u)]
      ensures State() == old(State()).SetUser(u)
      ensures State().WellFormed()
    {
      user := u;
      Record(Action.SetUser(u));
    }
  }
}
