/** Whole runs of the client: any sequence of session operations, with the
    HTTP gateway's response stage acting on the same secure store in
    between. Each event is one atomic step. */
module Lifecycle {
  import opened Common
  import opened AuthContext
  import opened Api
  import opened SecureStore

  datatype Event =
    | CheckAuth(verify: Reply<VerifyData>)
    | SignIn(kind: SignInKind, reply: Reply<AuthData>)
    | Logout
      // the gateway's response stage saw this error on some other call
    | GatewayRejected(error: HttpError)

  function Apply(st: AuthState, e: Event): (r: AuthState) {
    match e
    case CheckAuth(reply) => StepCheckAuthStatus(st, reply)
    case SignIn(kind, reply) => StepSignIn(kind, st, reply).state
    case Logout => StepLogout(st)
    case GatewayRejected(err) => st.(stored := StoreAfterRejection(st.stored, err))
  }

  function Run(st: AuthState, events: seq<Event>): (r: AuthState)
    decreases |events|
  {
    if events == [] then st else Run(Apply(st, events[0]), events[1..])
  }

  /** The event hands the client a session: a sign-in answered `success`. */
  predicate Grants(e: Event) {
    e.SignIn? && e.reply.Resolved? && e.reply.data.success
  }

  /** Every run keeps `isAuthenticated` iff `token != null` iff `user != null`. */
  lemma {:induction false} RunPreservesConsistent(st: AuthState, events: seq<Event>)
    requires Consistent(st.session)
    ensures Consistent(Run(st, events).session)
    decreases |events|
  {
    if events != [] {
      var next := Apply(st, events[0]);
      assert Consistent(next.session);
      RunPreservesConsistent(next, events[1..]);
    }
  }

  /** Without a usable stored credential and without a successful sign-in,
      no run reaches the authenticated state: startup verification never
      invents a session, and logout and the gateway only remove one. */
  lemma {:induction false} NoCredentialNeverAuthenticates(st: AuthState, events: seq<Event>)
    requires !st.session.isAuthenticated && !Truthy(st.stored)
    requires forall i :: 0 <= i < |events| ==> !Grants(events[i])
    ensures !Run(st, events).session.isAuthenticated
    ensures !Truthy(Run(st, events).stored)
    decreases |events|
  {
    if events != [] {
      var next := Apply(st, events[0]);
      assert !Grants(events[0]);
      assert !next.session.isAuthenticated && !Truthy(next.stored);
      assert forall i :: 0 <= i < |events[1..]| ==> events[1..][i] == events[i + 1];
      NoCredentialNeverAuthenticates(next, events[1..]);
    }
  }

  /** Once decided, the client never goes back to `loading`. */
  lemma {:induction false} LoadingStaysCleared(st: AuthState, events: seq<Event>)
    requires !st.session.loading
    ensures !Run(st, events).session.loading
    decreases |events|
  {
    if events != [] {
      LoadingStaysCleared(Apply(st, events[0]), events[1..]);
    }
  }

  /** Startup verification decides the session whatever follows it. */
  lemma StartupSettles(persisted: Option<string>, verify: Reply<VerifyData>, events: seq<Event>)
    ensures !Run(AuthState(InitialSession, persisted), [CheckAuth(verify)] + events).session.loading
  {
    var first := Apply(AuthState(InitialSession, persisted), CheckAuth(verify));
    assert ([CheckAuth(verify)] + events)[1..] == events;
    LoadingStaysCleared(first, events);
  }

  /** After a successful sign-in with a non-empty token, the next request
      through the gateway carries that token, the one the session holds. */
  lemma SignedInRequestsCarryToken(kind: SignInKind, st: AuthState, data: AuthData, headers: map<string, string>)
    requires data.success && data.token != ""
    ensures var after := StepSignIn(kind, st, Resolved(data)).state;
      && after.session.token == Some(data.token)
      && Decorate(headers, after.stored)[Authorization] == "Bearer " + after.session.token.value
  {
  }

  /** A 401 or 403 seen by the gateway empties the store, so the very next
      request goes out without a bearer header; the session itself is left
      as it was (no code path flips it to unauthenticated). */
  lemma AuthFailureEndsCredentialNotSession(st: AuthState, e: HttpError, headers: map<string, string>)
    requires ClearsCredential(e)
    ensures var after := Apply(st, GatewayRejected(e));
      && after.stored == None
      && after.session == st.session
      && Decorate(headers, after.stored) == headers
  {
  }

  /** A signed-in session whose credential the gateway then cleared stays
      marked authenticated while its requests go out without a token. */
  lemma StaleSessionAfterAuthFailure(data: AuthData, headers: map<string, string>)
    requires data.success && data.token != "" && Authorization !in headers
    ensures var st := Run(AuthState(InitialSession, None),
                          [SignIn(EmailLogin, Resolved(data)),
                           GatewayRejected(HttpError(Some(ErrorResponse(401, None))))]);
      && st.session.isAuthenticated
      && st.session.token == Some(data.token)
      && Authorization !in Decorate(headers, st.stored)
  {
    var e := HttpError(Some(ErrorResponse(401, None)));
    var evs := [SignIn(EmailLogin, Resolved(data)), GatewayRejected(e)];
    var s0 := AuthState(InitialSession, None);
    var s1 := Apply(s0, evs[0]);
    var s2 := Apply(s1, evs[1]);
    assert evs[1..] == [evs[1]] && evs[1..][1..] == [];
    assert Run(s1, [evs[1]]) == Run(s2, []);
    assert Run(s0, evs) == Run(s1, [evs[1]]);
  }

  /** The session and the gateway share one store object. On a fresh
      install, after startup and an email login, a request goes out with the
      new token; when it is answered 401 the store is cleared, so the next
      request goes out bare, while the provider still reports itself
      authenticated. */
  method SharedStoreScenario(data: AuthData, headers: map<string, string>)
      returns (first: map<string, string>, second: map<string, string>, stillAuthenticated: bool)
    requires data.success && data.token != "" && Authorization !in headers
    ensures first == headers[Authorization := "Bearer " + data.token]
    ensures second == headers
    ensures stillAuthenticated
  {
    var store := new CredentialStore(None);
    var auth := new AuthProvider(store);
    auth.CheckAuthStatus(Thrown(HttpError(None)));
    var signedIn := auth.LoginWithEmail(Resolved(data));
    var config := new RequestConfig(headers);
    var answer: Reply<string>;
    first, answer := Send(store, config, Thrown(HttpError(Some(ErrorResponse(401, None)))));
    var retry := new RequestConfig(headers);
    second, answer := Send(store, retry, Resolved("[]"));
    stillAuthenticated := auth.isAuthenticated;
  }
}
