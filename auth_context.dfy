/**
 * The session state machine of the auth provider: a four-field state record
 * and the browser's two storage slots (`instagram_user`, `instagram_token`).
 *
 * The transitions are first stated as functions on a `Browser` value (the
 * state record together with both slots); the `AuthProvider` class below
 * performs them in place and is proved to agree with them. The awaited api
 * call is not executed: its outcome is an input.
 */
module AuthContext {
  import opened Wrappers
  import opened Records
  import Store

  /** The record kept with `useState`. */
  datatype AuthState = AuthState(isAuthenticated: bool, user: Option<Profile>, loading: bool, error: Option<string>)

  /** Before the session check has run: signed out and loading. */
  const Initial: AuthState := AuthState(false, None, true, None)

  /** Signed out and settled, as after a failed check or a logout. */
  const SignedOut: AuthState := AuthState(false, None, false, None)

  /** The state record together with what the browser has stored. The user
      slot holds the serialised profile, which is never the empty string, so
      it is either present or absent; the token slot is a plain string. */
  datatype Browser = Browser(state: AuthState, storedUser: Option<Profile>, storedToken: Option<string>)

  /** What the awaited `api.login`/`api.register` produced. */
  datatype ApiOutcome = Succeeded(user: Profile, token: string) | Failed(message: string)

  /** The mock service's reply as the provider sees it: a thrown error
      carries only its message. */
  function OutcomeOf(r: Result<Auth, ApiError>): (o: ApiOutcome)
    ensures o.Succeeded? <==> r.Success?
    ensures r.Success? ==> o.user == r.value.user && o.token == r.value.token
    ensures r.Failure? ==> o.message == r.error.Message()
  {
    match r
    case Success(a) => Succeeded(a.user, a.token)
    case Failure(e) => Failed(e.Message())
  }

  /** `if (user && token)`: both slots hold something truthy. */
  predicate HasStoredSession(b: Browser) {
    b.storedUser.Some? && b.storedToken.Some? && b.storedToken.value != ""
  }

  /** `checkAuth`: the session is restored from storage, or cleared. */
  function AfterCheckAuth(b: Browser): (r: Browser)
    ensures r.storedUser == b.storedUser && r.storedToken == b.storedToken
    ensures !r.state.loading && r.state.error == None
    ensures r.state.isAuthenticated <==> HasStoredSession(b)
    ensures r.state.isAuthenticated ==> r.state.user == b.storedUser
    ensures !r.state.isAuthenticated ==> r.state == SignedOut
  {
    if HasStoredSession(b) then b.(state := AuthState(true, b.storedUser, false, None))
    else b.(state := SignedOut)
  }

  /** `setState({ ...state, loading: true, error: null })`, the first step of
      `login` and `register`. */
  function AfterBegin(s: AuthState): (r: AuthState)
    ensures r.loading && r.error == None
    ensures r.isAuthenticated == s.isAuthenticated && r.user == s.user
  {
    s.(loading := true, error := None)
  }

  /** The end of `login`/`register`, once the api call has settled. On
      success both slots are written and the session starts. On failure the
      handler spreads the state it captured when it was called (`captured`),
      not the current one, and leaves storage alone. */
  function AfterSettle(b: Browser, captured: AuthState, outcome: ApiOutcome): (r: Browser)
    ensures outcome.Succeeded? ==>
      && r.state == AuthState(true, Some(outcome.user), false, None)
      && r.storedUser == Some(outcome.user) && r.storedToken == Some(outcome.token)
    ensures outcome.Failed? ==>
      && r.storedUser == b.storedUser && r.storedToken == b.storedToken
      && r.state.isAuthenticated == captured.isAuthenticated && r.state.user == captured.user
      && !r.state.loading && r.state.error == Some(outcome.message)
  {
    match outcome
    case Succeeded(user, token) => Browser(AuthState(true, Some(user), false, None), Some(user), Some(token))
    case Failed(message) => b.(state := captured.(loading := false, error := Some(message)))
  }

  /** A whole `login` or `register` call with nothing else happening while
      the api call is pending. */
  function AfterRequest(b: Browser, outcome: ApiOutcome): (r: Browser)
    ensures outcome.Succeeded? ==>
      r == Browser(AuthState(true, Some(outcome.user), false, None), Some(outcome.user), Some(outcome.token))
    ensures outcome.Failed? ==>
      && r.storedUser == b.storedUser && r.storedToken == b.storedToken
      && r.state == b.state.(loading := false, error := Some(outcome.message))
  {
    AfterSettle(b.(state := AfterBegin(b.state)), b.state, outcome)
  }

  /** `logout`: both slots are removed and the state is reset. */
  function AfterLogout(b: Browser): (r: Browser)
    ensures r.storedUser.None? && r.storedToken.None? && r.state == SignedOut
  {
    Browser(SignedOut, None, None)
  }

  /** `clearError`: only the error is cleared. */
  function AfterClearError(b: Browser): (r: Browser)
    ensures r.state.error == None
    ensures r == b.(state := r.state) && r.state == b.state.(error := None)
  {
    b.(state := b.state.(error := None))
  }

  // ------------------------------------------------------------------
  // Laws

  /** The session the state shows is the one a reload would restore from
      storage. */
  predicate ReloadStable(b: Browser) {
    var reloaded := AfterCheckAuth(b).state;
    b.state.isAuthenticated == reloaded.isAuthenticated && b.state.user == reloaded.user
  }

  /** After a successful request, a reload restores the same user, as long
      as the token is truthy. */
  lemma ReloadAfterSuccess(b: Browser, user: Profile, token: string)
    requires token != ""
    ensures var after := AfterRequest(b, Succeeded(user, token));
      && AfterCheckAuth(after).state == after.state
      && after.state.user == Some(user)
  {
  }

  /** An empty token is stored but not honoured on reload: the session the
      request started is lost. */
  lemma EmptyTokenLostOnReload(b: Browser, user: Profile)
    ensures AfterRequest(b, Succeeded(user, "")).state.isAuthenticated
    ensures !AfterCheckAuth(AfterRequest(b, Succeeded(user, ""))).state.isAuthenticated
  {
  }

  /** After logging out, a reload finds no session. */
  lemma ReloadAfterLogout(b: Browser)
    ensures AfterCheckAuth(AfterLogout(b)) == AfterLogout(b)
  {
  }

  /** A failed request keeps the session it found and stores nothing. */
  lemma FailureKeepsSession(b: Browser, message: string)
    ensures var after := AfterRequest(b, Failed(message));
      && after.state.isAuthenticated == b.state.isAuthenticated
      && after.state.user == b.state.user
      && after.storedUser == b.storedUser && after.storedToken == b.storedToken
      && after.state.error == Some(message)
  {
  }

  /** Every transition that runs to completion on its own keeps the state in
      step with storage, once the first check has run. */
  lemma TransitionsKeepReloadStable(b: Browser, outcome: ApiOutcome)
    requires outcome.Succeeded? ==> outcome.token != ""
    ensures ReloadStable(AfterCheckAuth(b))
    ensures ReloadStable(b) ==> ReloadStable(AfterRequest(b, outcome))
    ensures ReloadStable(b) ==> ReloadStable(b.(state := AfterBegin(b.state)))
    ensures ReloadStable(AfterLogout(b))
    ensures ReloadStable(b) ==> ReloadStable(AfterClearError(b))
  {
  }

  /** Two requests in flight: if the first fails after the second has
      succeeded, the failure puts back the state captured before either
      began, while storage keeps the second request's session. */
  lemma StaleFailureAfterSuccess(user: Profile, token: string, message: string)
    requires token != ""
    ensures var b0 := AfterCheckAuth(Browser(Initial, None, None));
      var captured1 := b0.state;
      var b1 := b0.(state := AfterBegin(captured1));
      var captured2 := b1.state;
      var b2 := b1.(state := AfterBegin(captured2));
      var b3 := AfterSettle(b2, captured2, Succeeded(user, token));
      var b4 := AfterSettle(b3, captured1, Failed(message));
      && ReloadStable(b3)
      && !b4.state.isAuthenticated && HasStoredSession(b4)
      && !ReloadStable(b4)
  {
  }

  /** Logging in against the mock service: the session starts exactly when
      some account matches, and a reload then restores it. */
  lemma LoginAgainstMockService(db: Store.Db, email: string, password: string, b: Browser)
    ensures var after := AfterRequest(b, OutcomeOf(Store.Login(db, email, password)));
      && (after.state.isAuthenticated <==>
           b.state.isAuthenticated
           || exists i :: 0 <= i < |db.users| && db.users[i].email == email && db.users[i].password == password)
      && (ReloadStable(b) ==> ReloadStable(after))
  {
    var r := Store.Login(db, email, password);
    if r.Success? {
      assert r.value.token == MockToken;
      assert MockToken[0] == 'm';
    }
  }

  // ------------------------------------------------------------------
  // The provider, updating its state and the storage slots in place

  class AuthProvider {
    var state: AuthState
    var storedUser: Option<Profile>
    var storedToken: Option<string>

    function Snapshot(): Browser
      reads this
    {
      Browser(state, storedUser, storedToken)
    }

    /** Mounting the provider: the initial state over whatever is stored. */
    constructor (user: Option<Profile>, token: Option<string>)
      ensures Snapshot() == Browser(Initial, user, token)
    {
      state := Initial;
      storedUser := user;
      storedToken := token;
    }

    method CheckAuth()
      modifies this
      ensures Snapshot() == AfterCheckAuth(old(Snapshot()))
    {
      if storedUser.Some? && storedToken.Some? && storedToken.value != "" {
        state := AuthState(true, storedUser, false, None);
      } else {
        state := AuthState(false, None, false, None);
      }
    }

    /** The synchronous start of `login`/`register`; returns the state the
        handler closed over, which its failure branch later spreads. */
    method BeginRequest() returns (captured: AuthState)
      modifies this
      ensures captured == old(state)
      ensures Snapshot() == old(Snapshot()).(state := AfterBegin(captured))
    {
      captured := state;
      state := state.(loading := true, error := None);
    }

    /** What the handler does once the api call has settled. */
    method SettleRequest(captured: AuthState, outcome: ApiOutcome)
      modifies this
      ensures Snapshot() == AfterSettle(old(Snapshot()), captured, outcome)
    {
      match outcome {
        case Succeeded(user, token) =>
          storedUser := Some(user);
          storedToken := Some(token);
          state := AuthState(true, Some(user), false, None);
        case Failed(message) =>
          state := captured.(loading := false, error := Some(message));
      }
    }

    /** `login(email, password)`, given what `api.login` produced. */
    method Login(outcome: ApiOutcome)
      modifies this
      ensures Snapshot() == AfterRequest(old(Snapshot()), outcome)
    {
      var captured := BeginRequest();
      SettleRequest(captured, outcome);
    }

    /** `register(...)`, given what `api.register` produced. */
    method Register(outcome: ApiOutcome)
      modifies this
      ensures Snapshot() == AfterRequest(old(Snapshot()), outcome)
    {
      var captured := BeginRequest();
      SettleRequest(captured, outcome);
    }

    method Logout()
      modifies this
      ensures Snapshot() == AfterLogout(old(Snapshot()))
    {
      storedUser := None;
      storedToken := None;
      state := AuthState(false, None, false, None);
    }

    method ClearError()
      modifies this
      ensures Snapshot() == AfterClearError(old(Snapshot()))
    {
      state := state.(error := None);
    }
  }
}
