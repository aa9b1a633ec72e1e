/** The authentication operations: login and logout change the token store;
    registration, profile fetch and profile update are plain calls that
    throw an `Error` whose message follows the shared precedence chain. */
module AuthApi {
  import opened Js
  import opened Http
  import opened Storage
  import opened Client
  import opened Routes
  import Config

  /** The URL of the health check, outside the axios instance. */
  const HEALTH_URL: string := "http://localhost:5000/health"

  lemma HealthUrlIsConfigured()
    ensures HEALTH_URL == Config.GetApiUrl("/health")
  {
  }

  /** `testBackendConnection`: `response.ok` when the fetch returns, `false`
      when it throws; it never throws itself. */
  function TestBackendConnection(fetch: FetchOutcome): (ok: bool)
    ensures ok ==> fetch.Responded?
    ensures fetch.Responded? ==> (ok <==> 200 <= fetch.status < 300)
  {
    match fetch
    case Responded(status) => StatusOk(status)
    case FetchFailed => false
  }

  /** The login request: POST `/auth/login` with exactly the two credentials. */
  function LoginRequest(civilID: string, password: string): (r: Request)
    ensures r.verb == POST && r.body.Obj? && r.body.fields.Keys == {"civilID", "password"}
    ensures Get(r.body, "civilID") == Str(civilID) && Get(r.body, "password") == Str(password)
    ensures Reaches(r, AuthLogin, None)
  {
    assert "/" + "auth" + "/" + "login" == "/auth/login";
    RenderFixedTwo("auth", "login", "");
    assert PatternOf(AuthLogin) == [Lit(""), Lit("auth"), Lit("login")];
    Request(POST, "/auth/login", Obj(map["civilID" := Str(civilID), "password" := Str(password)]))
  }

  const LOGIN_FALLBACK: string := "Login failed"

  /** What the success branch does with the response body: `data.token` wins,
      then `data.accessToken`; a `null` or `undefined` body makes `data.token`
      throw, and the catch turns that TypeError into the thrown `Error`. */
  datatype LoginEffect = Save(token: string) | Keep | Throw(message: string)

  function OnLoginBody(data: Value): LoginEffect {
    match Member(data, "token")
    case TypeError(message) => Throw(message)
    case Found(token) =>
      if Truthy(token) then Save(ToJsString(token))
      else if Truthy(Get(data, "accessToken")) then Save(ToJsString(Get(data, "accessToken")))
      else Keep
  }

  /** The token store after `loginPatient` has seen `outcome`. */
  function LoginStore(entries: map<string, string>, outcome: Outcome): map<string, string> {
    if outcome.Ok? then
      match OnLoginBody(outcome.data)
      case Save(token) => Saved(entries, TOKEN_KEY, token)
      case _ => entries
    else AfterResponse(entries, outcome)
  }

  /** How `loginPatient` settles once the transport has reported `outcome`. */
  function LoginResult(outcome: Outcome): Settled {
    if outcome.Ok? then
      match OnLoginBody(outcome.data)
      case Throw(message) => Rejected(Raised(ToJsString(Precedence(Undefined, message, LOGIN_FALLBACK))))
      case _ => Resolved(outcome.data)
    else Rejected(Raised(ErrorMessage(outcome, LOGIN_FALLBACK)))
  }

  /** `loginPatient(civilID, password)` through `session`. */
  method LoginPatient(session: Session, civilID: string, password: string, outcome: Outcome)
    returns (sent: Sent, result: Settled)
    modifies session.store
    ensures sent == Outgoing(LoginRequest(civilID, password), StoredToken(old(session.store.entries)))
    ensures result == LoginResult(outcome)
    ensures session.store.entries == LoginStore(old(session.store.entries), outcome)
  {
    var response;
    sent, response := session.Send(LoginRequest(civilID, password), outcome);
    if !response.Ok? {
      result := Rejected(Raised(ErrorMessage(response, LOGIN_FALLBACK)));
      return;
    }
    var data := response.data;
    var token := Member(data, "token");
    if token.TypeError? {
      result := Rejected(Raised(ToJsString(Precedence(Undefined, token.message, LOGIN_FALLBACK))));
      return;
    }
    if Truthy(token.value) {
      session.store.SaveToken(TOKEN_KEY, ToJsString(token.value));
    } else if Truthy(Get(data, "accessToken")) {
      session.store.SaveToken(TOKEN_KEY, ToJsString(Get(data, "accessToken")));
    }
    result := Resolved(data);
  }

  /** A truthy `token` is stored even when `accessToken` is also present. */
  lemma LoginPrefersToken(entries: map<string, string>, status: int, data: Value)
    requires Truthy(Get(data, "token"))
    ensures StoredToken(LoginStore(entries, Ok(status, data))) == Some(ToJsString(Get(data, "token")))
    ensures LoginResult(Ok(status, data)) == Resolved(data)
  {
  }

  /** Without a truthy `token`, a truthy `accessToken` is stored. */
  lemma LoginFallsBackToAccessToken(entries: map<string, string>, status: int, data: Value)
    requires data.Obj? && !Truthy(Get(data, "token")) && Truthy(Get(data, "accessToken"))
    ensures StoredToken(LoginStore(entries, Ok(status, data))) == Some(ToJsString(Get(data, "accessToken")))
    ensures LoginResult(Ok(status, data)) == Resolved(data)
  {
  }

  /** With neither field the store is untouched and the body still returned. */
  lemma LoginWithoutTokenKeepsStore(entries: map<string, string>, status: int, data: Value)
    requires data != Null && data != Undefined
    requires !Truthy(Get(data, "token")) && !Truthy(Get(data, "accessToken"))
    ensures LoginStore(entries, Ok(status, data)) == entries
    ensures LoginResult(Ok(status, data)) == Resolved(data)
  {
  }

  /** A `null` body leaves the store alone and rejects with the TypeError's message. */
  lemma LoginNullBodyThrows(entries: map<string, string>, status: int)
    ensures LoginStore(entries, Ok(status, Null)) == entries
    ensures LoginResult(Ok(status, Null)) == Rejected(Raised("Cannot read properties of null (reading 'token')"))
  {
    var message := "Cannot read properties of null (reading '" + "token" + "')";
    assert message == "Cannot read properties of null (reading 'token')";
    assert Precedence(Undefined, message, LOGIN_FALLBACK) == Str(message);
  }

  /** The two response shapes of the login examples. */
  lemma LoginExamples(entries: map<string, string>)
    ensures StoredToken(LoginStore(entries, Ok(200, Obj(map["token" := Str("abc")])))) == Some("abc")
    ensures StoredToken(LoginStore(entries, Ok(200, Obj(map["accessToken" := Str("xyz")])))) == Some("xyz")
  {
    assert Get(Obj(map["accessToken" := Str("xyz")]), "token") == Undefined;
  }

  /** A failed login rejects with the precedence message ending in "Login
      failed"; only a 401 touches the store, by clearing it. */
  lemma LoginFailure(entries: map<string, string>, outcome: Outcome)
    requires !outcome.Ok?
    ensures LoginResult(outcome) == Rejected(Raised(ErrorMessage(outcome, "Login failed")))
    ensures LoginStore(entries, outcome) == AfterResponse(entries, outcome)
  {
  }

  /** Login writes nothing but the `"token"` entry, whatever happens. */
  lemma LoginOnlyTouchesToken(entries: map<string, string>, outcome: Outcome)
    ensures forall k | k != TOKEN_KEY :: (k in LoginStore(entries, outcome) <==> k in entries)
    ensures forall k | k != TOKEN_KEY && k in entries :: LoginStore(entries, outcome)[k] == entries[k]
  {
  }

  const LOGOUT_REQUEST: Request := Request(POST, "/auth/logout", Undefined)

  lemma LogoutRoute()
    ensures Reaches(LOGOUT_REQUEST, AuthLogout, None)
  {
    assert "/" + "auth" + "/" + "logout" == "/auth/logout";
    RenderFixedTwo("auth", "logout", "");
    assert PatternOf(AuthLogout) == [Lit(""), Lit("auth"), Lit("logout")];
  }

  /** `logoutPatient` through `session`: the server's answer is logged and
      swallowed, and the `finally` clears the token on every path. */
  method LogoutPatient(session: Session, outcome: Outcome) returns (sent: Sent, result: Settled)
    modifies session.store
    ensures sent == Outgoing(LOGOUT_REQUEST, StoredToken(old(session.store.entries)))
    ensures result == Resolved(Undefined)
    ensures session.store.entries == Cleared(old(session.store.entries))
  {
    var response;
    sent, response := session.Send(LOGOUT_REQUEST, outcome);
    session.store.ClearToken();
    result := Resolved(Undefined);
  }

  /** `registerPatient(patient)`: the patient's fields with `role` forced to
      "Patient". */
  function RegisterPatient(patient: map<string, Value>): (c: Call)
    ensures c.Network? && c.policy == RaiseWith("Registration failed")
    ensures c.request.verb == POST && Reaches(c.request, AuthRegister, None)
    ensures c.request.body.Obj? && c.request.body.fields.Keys == patient.Keys + {"role"}
    ensures c.request.body.fields["role"] == Str("Patient")
    ensures forall k | k in patient && k != "role" :: c.request.body.fields[k] == patient[k]
  {
    assert "/" + "auth" + "/" + "register" == "/auth/register";
    RenderFixedTwo("auth", "register", "");
    assert PatternOf(AuthRegister) == [Lit(""), Lit("auth"), Lit("register")];
    Network(Request(POST, "/auth/register", Obj(patient["role" := Str("Patient")])), RaiseWith("Registration failed"))
  }

  /** `getMyProfile()`. */
  const GET_MY_PROFILE: Call := Network(Request(GET, "/auth/me", Undefined), RaiseWith("Failed to fetch profile"))

  lemma GetMyProfileRoute()
    ensures Reaches(GET_MY_PROFILE.request, AuthMe, None)
  {
    assert "/" + "auth" + "/" + "me" == "/auth/me";
    RenderFixedTwo("auth", "me", "");
    assert PatternOf(AuthMe) == [Lit(""), Lit("auth"), Lit("me")];
  }

  /** `updatePatientProfile(updates)`: the updates are sent unchanged. */
  function UpdatePatientProfile(updates: Value): (c: Call)
    ensures c.Network? && c.policy == RaiseWith("Failed to update profile")
    ensures c.request.verb == PUT && c.request.body == updates
    ensures Reaches(c.request, AuthProfile, None)
  {
    assert "/" + "auth" + "/" + "profile" == "/auth/profile";
    RenderFixedTwo("auth", "profile", "");
    assert PatternOf(AuthProfile) == [Lit(""), Lit("auth"), Lit("profile")];
    Network(Request(PUT, "/auth/profile", updates), RaiseWith("Failed to update profile"))
  }

  /** Each operation throws with its own fallback when neither the server nor
      the transport supplies a message. */
  lemma FallbacksPerOperation(patient: map<string, Value>, updates: Value)
    ensures Settle(RegisterPatient(patient).policy, Transport("")) == Rejected(Raised("Registration failed"))
    ensures Settle(GET_MY_PROFILE.policy, Transport("")) == Rejected(Raised("Failed to fetch profile"))
    ensures Settle(UpdatePatientProfile(updates).policy, Transport("")) == Rejected(Raised("Failed to update profile"))
    ensures LoginResult(Transport("")) == Rejected(Raised("Login failed"))
  {
  }
}
