/** The authentication slice: the four async thunks (`login`, `register`,
    `logout`, `checkAuth`) reduced to pure maps from an abstract service
    outcome to the action they dispatch, and the slice's reducer cases as a
    store whose fields are updated in place. */
module AuthSlice {
  import opened Outcomes

  datatype User = User(email: string)

  /** A snapshot of the slice's state. */
  datatype AuthState = AuthState(
    isAuthenticated: bool,
    token: Option<string>,
    user: Option<User>,
    loading: bool,
    error: Option<string>)

  /** What `authService.login` / `authService.register` resolve with. */
  datatype AuthResponse = AuthResponse(token: string, id: Option<int>, email: Option<string>)

  /** The HTTP exchange behind `authService.login` / `register`, reduced to
      what decides their result: a reply whose body may carry a token (and,
      for register, an id), or a refusal, which stands for a 400 reply, a
      transport error and a failed token write alike. */
  datatype Exchange = Answered(token: Option<string>, id: Option<int>) | Refused

  /** What `AsyncStorage.getItem('token')` produced: a value (null when the
      key is absent) or an exception. */
  datatype StoredToken = Read(value: Option<string>) | ReadFailed

  /** One action type per thunk and lifecycle phase, with its payload. */
  datatype AuthAction =
    | LoginPending | LoginFulfilled(response: AuthResponse) | LoginRejected(reason: string)
    | RegisterPending | RegisterFulfilled(response: AuthResponse) | RegisterRejected(reason: string)
    | LogoutPending | LogoutFulfilled | LogoutRejected(reason: string)
    | CheckAuthPending | CheckAuthFulfilled(token: string) | CheckAuthRejected(reason: string)

  /** A fulfilled sign-in action carries a non-empty token. */
  predicate CarriesToken(a: AuthAction)
  {
    match a
    case LoginFulfilled(r) => r.token != ""
    case RegisterFulfilled(r) => r.token != ""
    case CheckAuthFulfilled(t) => t != ""
    case _ => true
  }

  // ---------------------------------------------------------------------
  // The service layer's outcome (None: the call threw)

  /** `authService.login`: resolves with `{ token }` only when the reply's
      body carries a truthy token, and throws otherwise. */
  function ServiceLogin(e: Exchange): (r: Option<AuthResponse>)
    ensures r.Some? <==> e.Answered? && Truthy(e.token)
    ensures r.Some? ==> r.value == AuthResponse(e.token.value, None, None) && r.value.token != ""
  {
    match e
    case Answered(token, _) => if Truthy(token) then Some(AuthResponse(token.value, None, None)) else None
    case Refused => None
  }

  /** `authService.register`: resolves with `{ token, id }` only when the
      reply's body carries a truthy token, and throws otherwise. */
  function ServiceRegister(e: Exchange): (r: Option<AuthResponse>)
    ensures r.Some? <==> e.Answered? && Truthy(e.token)
    ensures r.Some? ==> r.value == AuthResponse(e.token.value, e.id, None) && r.value.token != ""
  {
    match e
    case Answered(token, id) => if Truthy(token) then Some(AuthResponse(token.value, id, None)) else None
    case Refused => None
  }

  // ---------------------------------------------------------------------
  // The thunks: the settled action each one dispatches

  /** `login`: the service response as payload, or any failure as
      `'Invalid credentials'`. */
  function LoginThunk(outcome: Option<AuthResponse>): (a: AuthAction)
    ensures a.LoginFulfilled? || a.LoginRejected?
    ensures a.LoginFulfilled? <==> outcome.Some?
    ensures a.LoginFulfilled? ==> a.response == outcome.value
    ensures a.LoginRejected? ==> a.reason == "Invalid credentials"
  {
    match outcome
    case Some(response) => LoginFulfilled(response)
    case None => LoginRejected("Invalid credentials")
  }

  /** `register`: the service response as payload, or any failure as
      `'Registration failed'`. */
  function RegisterThunk(outcome: Option<AuthResponse>): (a: AuthAction)
    ensures a.RegisterFulfilled? || a.RegisterRejected?
    ensures a.RegisterFulfilled? <==> outcome.Some?
    ensures a.RegisterFulfilled? ==> a.response == outcome.value
    ensures a.RegisterRejected? ==> a.reason == "Registration failed"
  {
    match outcome
    case Some(response) => RegisterFulfilled(response)
    case None => RegisterRejected("Registration failed")
  }

  /** `logout`: fulfilled when the token was removed from storage. */
  function LogoutThunk(removed: bool): (a: AuthAction)
    ensures a.LogoutFulfilled? || a.LogoutRejected?
    ensures a.LogoutFulfilled? <==> removed
    ensures a.LogoutRejected? ==> a.reason == "Logout failed"
  {
    if removed then LogoutFulfilled else LogoutRejected("Logout failed")
  }

  /** `checkAuth`: fulfilled exactly when storage yields a truthy token. */
  function CheckAuthThunk(stored: StoredToken): (a: AuthAction)
    ensures a.CheckAuthFulfilled? || a.CheckAuthRejected?
    ensures a.CheckAuthFulfilled? <==> stored.Read? && Truthy(stored.value)
    ensures a.CheckAuthFulfilled? ==> a.token == stored.value.value && a.token != ""
    ensures stored.Read? && !Truthy(stored.value) ==> a == CheckAuthRejected("No token found")
    ensures stored.ReadFailed? ==> a == CheckAuthRejected("Auth check failed")
  {
    match stored
    case Read(token) => if Truthy(token) then CheckAuthFulfilled(token.value) else CheckAuthRejected("No token found")
    case ReadFailed => CheckAuthRejected("Auth check failed")
  }

  /** Every action a thunk can settle with carries a non-empty token when it
      signs the user in: the service's token check and `checkAuth`'s
      truthiness test are what make the store's invariant hold. */
  lemma SettledActionsCarryToken(e: Exchange, removed: bool, stored: StoredToken)
    ensures CarriesToken(LoginThunk(ServiceLogin(e)))
    ensures CarriesToken(RegisterThunk(ServiceRegister(e)))
    ensures CarriesToken(LogoutThunk(removed))
    ensures CarriesToken(CheckAuthThunk(stored))
  {
  }

  /** `action.payload.email || ''`. */
  function EmailOrEmpty(email: Option<string>): string
  {
    if email.Some? then email.value else ""
  }

  // ---------------------------------------------------------------------
  // The slice's state and reducer

  class AuthStore {
    var isAuthenticated: bool
    var token: Option<string>
    var user: Option<User>
    var loading: bool
    var error: Option<string>

    function State(): AuthState
      reads this
    {
      AuthState(isAuthenticated, token, user, loading, error)
    }

    /** Signed in exactly when a non-empty token is held: every case that
        sets or clears the token sets or clears `isAuthenticated` with it. */
    predicate Consistent()
      reads this
    {
      isAuthenticated <==> Truthy(token)
    }

    /** `initialState`: anonymous, idle, no error. */
    constructor ()
      ensures State() == AuthState(false, None, None, false, None)
      ensures Consistent()
    {
      isAuthenticated, token, user, loading, error := false, None, None, false, None;
    }

    /** The `extraReducers` cases. Action types without a case (the pending
        phases of `logout` and `checkAuth`, and `logout` rejected) leave the
        state as it is. */
    method Apply(a: AuthAction)
      modifies this
      ensures a.LoginPending? || a.RegisterPending? ==>
        State() == old(State()).(loading := true, error := None)
      ensures a.LoginFulfilled? ==>
        State() == old(State()).(loading := false, isAuthenticated := true,
                                 token := Some(a.response.token),
                                 user := Some(User(EmailOrEmpty(a.response.email))))
      ensures a.RegisterFulfilled? ==>
        State() == old(State()).(loading := false, isAuthenticated := true,
                                 token := Some(a.response.token),
                                 user := Some(User(EmailOrEmpty(a.response.email))))
      ensures a.LoginRejected? || a.RegisterRejected? ==>
        State() == old(State()).(loading := false, error := Some(a.reason))
      ensures a.LogoutFulfilled? ==>
        State() == old(State()).(isAuthenticated := false, token := None, user := None, error := None)
      ensures a.CheckAuthFulfilled? ==>
        State() == old(State()).(isAuthenticated := true, token := Some(a.token))
      ensures a.CheckAuthRejected? ==>
        State() == old(State()).(isAuthenticated := false, token := None, user := None)
      ensures a.LogoutPending? || a.LogoutRejected? || a.CheckAuthPending? ==>
        State() == old(State())
      ensures old(Consistent()) && CarriesToken(a) ==> Consistent()
    {
      match a
      case LoginPending =>
        loading := true;
        error := None;
      case LoginFulfilled(response) =>
        loading := false;
        isAuthenticated := true;
        token := Some(response.token);
        user := Some(User(EmailOrEmpty(response.email)));
      case LoginRejected(reason) =>
        loading := false;
        error := Some(reason);
      case RegisterPending =>
        loading := true;
        error := None;
      case RegisterFulfilled(response) =>
        loading := false;
        isAuthenticated := true;
        token := Some(response.token);
        user := Some(User(EmailOrEmpty(response.email)));
      case RegisterRejected(reason) =>
        loading := false;
        error := Some(reason);
      case LogoutFulfilled =>
        isAuthenticated := false;
        token := None;
        user := None;
        error := None;
      case CheckAuthFulfilled(t) =>
        isAuthenticated := true;
        token := Some(t);
      case CheckAuthRejected(_) =>
        isAuthenticated := false;
        token := None;
        user := None;
      case LogoutPending =>
      case LogoutRejected(_) =>
      case CheckAuthPending =>
    }

    /** Dispatching `login`: the pending action, then the settled one. */
    method Login(e: Exchange)
      modifies this
      ensures !loading
      ensures ServiceLogin(e).Some? ==>
        && isAuthenticated && token == Some(e.token.value)
        && user == Some(User("")) && error == None
      ensures ServiceLogin(e).None? ==>
        && error == Some("Invalid credentials")
        && isAuthenticated == old(isAuthenticated) && token == old(token) && user == old(user)
      ensures old(Consistent()) ==> Consistent()
    {
      Apply(LoginPending);
      Apply(LoginThunk(ServiceLogin(e)));
    }

    /** Dispatching `register`: the pending action, then the settled one. */
    method Register(e: Exchange)
      modifies this
      ensures !loading
      ensures ServiceRegister(e).Some? ==>
        && isAuthenticated && token == Some(e.token.value)
        && user == Some(User("")) && error == None
      ensures ServiceRegister(e).None? ==>
        && error == Some("Registration failed")
        && isAuthenticated == old(isAuthenticated) && token == old(token) && user == old(user)
      ensures old(Consistent()) ==> Consistent()
    {
      Apply(RegisterPending);
      Apply(RegisterThunk(ServiceRegister(e)));
    }

    /** Dispatching `logout`: a signed-out state when the token was removed,
        no change otherwise; `loading` is never touched. */
    method Logout(removed: bool)
      modifies this
      ensures removed ==>
        State() == old(State()).(isAuthenticated := false, token := None, user := None, error := None)
      ensures !removed ==> State() == old(State())
      ensures old(Consistent()) ==> Consistent()
    {
      Apply(LogoutPending);
      Apply(LogoutThunk(removed));
    }

    /** Dispatching `checkAuth`: restores the stored token without asking
        the backend, and signs out otherwise. `user`, `loading` and `error`
        are kept on success. */
    method CheckAuth(stored: StoredToken)
      modifies this
      ensures stored.Read? && Truthy(stored.value) ==>
        State() == old(State()).(isAuthenticated := true, token := stored.value)
      ensures !(stored.Read? && Truthy(stored.value)) ==>
        State() == old(State()).(isAuthenticated := false, token := None, user := None)
      ensures Consistent()
    {
      Apply(CheckAuthPending);
      Apply(CheckAuthThunk(stored));
    }
  }
}
