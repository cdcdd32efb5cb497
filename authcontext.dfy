/** The authentication session of `AuthProvider`: four pieces of in-memory
    state, one persisted credential, and the five operations that read and
    change them. Each server reply is a parameter; each operation is one
    atomic step.

    The pure `Step*` functions say what each operation does to the whole
    state (session and store); the `AuthProvider` class performs the same
    operations field by field and is proved against them. */
module AuthContext {
  import opened Common
  import opened SecureStore

  datatype User = User(id: string, email: string, name: string, picture: string)

  /** The React state `isAuthenticated`, `user`, `token` and `loading`. */
  datatype Session = Session(isAuthenticated: bool, user: Option<User>, token: Option<string>, loading: bool)

  /** The session together with the value persisted in the secure store. */
  datatype AuthState = AuthState(session: Session, stored: Option<string>)

  /** Unauthenticated and not yet decided. */
  const InitialSession := Session(false, None, None, true)

  /** Authenticated exactly when a token is held, and a token exactly when a user is. */
  predicate Consistent(s: Session) {
    && (s.isAuthenticated <==> s.token.Some?)
    && (s.token.Some? <==> s.user.Some?)
  }

  /** The two sessions agree on everything except `loading`. */
  predicate SameAuth(a: Session, b: Session) {
    a.isAuthenticated == b.isAuthenticated && a.user == b.user && a.token == b.token
  }

  /** Body of a `/auth/verify` answer. */
  datatype VerifyData = VerifyData(success: bool, valid: bool, user: User)

  /** Body of a `/auth/google`, `/auth/login` or `/auth/signup` answer. */
  datatype AuthData = AuthData(success: bool, token: string, user: User)

  /** Which of the three sign-in operations is meant: `login`,
      `loginWithEmail` or `signup`. */
  datatype SignInKind = Google | EmailLogin | Signup

  /** What a rejected operation throws: the original error (`login`) or a
      new `Error` with a message (`loginWithEmail`, `signup`). */
  datatype Failure = Rethrown(cause: HttpError) | Error(message: string)

  /** How the promise of an operation settles. */
  datatype Completion = Done | Failed(failure: Failure)

  datatype Step = Step(state: AuthState, completion: Completion)

  const LoginFallback := "Login failed. Please try again."
  const SignupFallback := "Signup failed. Please try again."

  /** `error.response?.data?.error || fallback` */
  function ErrorMessage(e: HttpError, fallback: string): (m: string)
    ensures e.response.Some? && Truthy(e.response.value.error) ==> m == e.response.value.error.value
    ensures !(e.response.Some? && Truthy(e.response.value.error)) ==> m == fallback
    ensures fallback != "" ==> m != ""
  {
    match e.response
    case None => fallback
    case Some(resp) => OrElse(resp.error, fallback)
  }

  /** What the sign-in operation of the given kind throws for `e`. */
  function FailureOf(kind: SignInKind, e: HttpError): (f: Failure) {
    match kind
    case Google => Rethrown(e)
    case EmailLogin => Error(ErrorMessage(e, LoginFallback))
    case Signup => Error(ErrorMessage(e, SignupFallback))
  }

  /** The verify reply admits the stored token. */
  predicate Accepts(reply: Reply<VerifyData>) {
    reply.Resolved? && reply.data.success && reply.data.valid
  }

  /** `checkAuthStatus`: verify a stored token at startup. */
  function StepCheckAuthStatus(st: AuthState, reply: Reply<VerifyData>): (r: AuthState)
    // the `finally` block: every path settles
    ensures !r.session.loading
    // nothing stored (or the empty string): no auth field and not the store changes
    ensures !Truthy(st.stored) ==> SameAuth(r.session, st.session) && r.stored == st.stored
    // the server vouches for the stored token: it becomes the session's
    ensures Truthy(st.stored) && Accepts(reply) ==>
      && r.session.isAuthenticated
      && r.session.token == st.stored
      && r.session.user == Some(reply.data.user)
      && r.stored == st.stored
    // an invalid answer or a thrown error: the store is emptied, the session kept
    ensures Truthy(st.stored) && !Accepts(reply) ==>
      SameAuth(r.session, st.session) && r.stored == None
    ensures Consistent(st.session) ==> Consistent(r.session)
  {
    var settled := st.session.(loading := false);
    if !Truthy(st.stored) then
      AuthState(settled, st.stored)
    else if Accepts(reply) then
      AuthState(settled.(token := st.stored, user := Some(reply.data.user), isAuthenticated := true), st.stored)
    else
      AuthState(settled, None)
  }

  /** `login`, `loginWithEmail` and `signup`: send credentials, and on a
      `success` answer persist the returned token and adopt the returned user. */
  function StepSignIn(kind: SignInKind, st: AuthState, reply: Reply<AuthData>): (r: Step)
    ensures reply.Resolved? && reply.data.success ==>
      && r.completion == Done
      && r.state.stored == Some(reply.data.token)
      && r.state.session.token == r.state.stored
      && r.state.session.user == Some(reply.data.user)
      && r.state.session.isAuthenticated
      && r.state.session.loading == st.session.loading
    // a `success: false` answer that does not throw changes nothing
    ensures reply.Resolved? && !reply.data.success ==> r == Step(st, Done)
    // a thrown error changes nothing and is rethrown
    ensures reply.Thrown? ==> r.state == st && r.completion.Failed?
    ensures reply.Thrown? && kind == Google ==> r.completion.failure == Rethrown(reply.error)
    ensures reply.Thrown? && kind == EmailLogin ==>
      r.completion.failure == Error(ErrorMessage(reply.error, LoginFallback))
    ensures reply.Thrown? && kind == Signup ==>
      r.completion.failure == Error(ErrorMessage(reply.error, SignupFallback))
    ensures Consistent(st.session) ==> Consistent(r.state.session)
  {
    match reply
    case Thrown(e) => Step(st, Failed(FailureOf(kind, e)))
    case Resolved(data) =>
      if data.success then
        var session := st.session.(token := Some(data.token), user := Some(data.user), isAuthenticated := true);
        Step(AuthState(session, Some(data.token)), Done)
      else
        Step(st, Done)
  }

  /** `logout`: local-first, with no server involved. */
  function StepLogout(st: AuthState): (r: AuthState)
    ensures r.stored == None
    ensures r.session.token == None && r.session.user == None && !r.session.isAuthenticated
    ensures r.session.loading == st.session.loading
    ensures Consistent(r.session)
  {
    AuthState(st.session.(token := None, user := None, isAuthenticated := false), None)
  }

  class AuthProvider {
    var isAuthenticated: bool
    var user: Option<User>
    var token: Option<string>
    var loading: bool
    /** The secure store this provider persists its credential in. */
    const store: CredentialStore

    function Current(): Session
      reads this
    {
      Session(isAuthenticated, user, token, loading)
    }

    function Snapshot(): AuthState
      reads this, store
    {
      AuthState(Current(), store.value)
    }

    predicate Valid()
      reads this
    {
      Consistent(Current())
    }

    /** The `useState` initial values. */
    constructor (store: CredentialStore)
      ensures this.store == store
      ensures Snapshot() == AuthState(InitialSession, store.value)
      ensures Valid()
    {
      isAuthenticated := false;
      user := None;
      token := None;
      loading := true;
      this.store := store;
    }

    method CheckAuthStatus(reply: Reply<VerifyData>)
      requires Valid()
      modifies this, store
      ensures Valid()
      ensures Snapshot() == StepCheckAuthStatus(old(Snapshot()), reply)
    {
      var storedToken := store.GetItem();
      if Truthy(storedToken) {
        match reply
        case Resolved(data) =>
          if data.success && data.valid {
            token := storedToken;
            user := Some(data.user);
            isAuthenticated := true;
          } else {
            store.DeleteItem();
          }
        case Thrown(_) =>
          store.DeleteItem();
      }
      loading := false;
    }

    /** Persist `jwt`, then adopt it and `userData` as the session. */
    method Establish(jwt: string, userData: User)
      modifies this, store
      ensures store.value == Some(jwt)
      ensures Current() == old(Current()).(token := Some(jwt), user := Some(userData), isAuthenticated := true)
    {
      store.SetItem(jwt);
      token := Some(jwt);
      user := Some(userData);
      isAuthenticated := true;
    }

    /** `login(idToken)`: the id token goes in the request body only; the
        server's answer is `reply`. */
    method Login(reply: Reply<AuthData>) returns (c: Completion)
      requires Valid()
      modifies this, store
      ensures Valid()
      ensures Step(Snapshot(), c) == StepSignIn(Google, old(Snapshot()), reply)
    {
      match reply
      case Thrown(e) =>
        c := Failed(Rethrown(e));
      case Resolved(data) =>
        if data.success {
          Establish(data.token, data.user);
        }
        c := Done;
    }

    /** `loginWithEmail(email, password)` */
    method LoginWithEmail(reply: Reply<AuthData>) returns (c: Completion)
      requires Valid()
      modifies this, store
      ensures Valid()
      ensures Step(Snapshot(), c) == StepSignIn(EmailLogin, old(Snapshot()), reply)
    {
      match reply
      case Thrown(e) =>
        c := Failed(Error(ErrorMessage(e, LoginFallback)));
      case Resolved(data) =>
        if data.success {
          Establish(data.token, data.user);
        }
        c := Done;
    }

    /** `signup(email, password, name)` */
    method Signup(reply: Reply<AuthData>) returns (c: Completion)
      requires Valid()
      modifies this, store
      ensures Valid()
      ensures Step(Snapshot(), c) == StepSignIn(SignInKind.Signup, old(Snapshot()), reply)
    {
      match reply
      case Thrown(e) =>
        c := Failed(Error(ErrorMessage(e, SignupFallback)));
      case Resolved(data) =>
        if data.success {
          Establish(data.token, data.user);
        }
        c := Done;
    }

    method Logout()
      modifies this, store
      ensures Valid()
      ensures Snapshot() == StepLogout(old(Snapshot()))
    {
      store.DeleteItem();
      token := None;
      user := None;
      isAuthenticated := false;
    }
  }
}
