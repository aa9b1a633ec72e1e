/** The stand-alone login screen. */
module LoginScreen {
  import opened Js
  import opened Http
  import opened Storage
  import opened Client
  import opened Forms
  import AuthApi

  class LoginForm {
    var civilID: string
    var password: string
    var isLoading: bool
    var backendStatus: string

    constructor()
      ensures civilID == "" && password == "" && !isLoading && backendStatus == "Checking..."
    {
      civilID := "";
      password := "";
      isLoading := false;
      backendStatus := "Checking...";
    }

    /** `checkBackendConnection()` on mount. `testBackendConnection` catches
        every fetch failure itself, so the "Connection Failed" text is never
        shown. */
    method CheckBackendConnection(fetch: FetchOutcome)
      modifies this`backendStatus
      ensures backendStatus == BackendStatus(Some(AuthApi.TestBackendConnection(fetch)))
      ensures backendStatus == "Connected ✅" <==> fetch.Responded? && StatusOk(fetch.status)
      ensures backendStatus != "Connection Failed ❌"
    {
      var connected := AuthApi.TestBackendConnection(fetch);
      backendStatus := BackendStatus(Some(connected));
    }

    /** `handleLogin()` through `session`, `outcome` standing for the
        server's answer. */
    method HandleLogin(session: Session, outcome: Outcome) returns (sent: Option<Sent>, alert: Alert)
      modifies this`isLoading, session.store
      ensures sent.None? <==> IsBlank(civilID) || IsBlank(password)
      ensures sent.None? ==> alert == Alert("Error", "Please fill in all fields")
      ensures sent.None? ==> session.store.entries == old(session.store.entries) && isLoading == old(isLoading)
      ensures sent.Some? ==> sent.value == Outgoing(AuthApi.LoginRequest(Trim(civilID), password),
                                                    StoredToken(old(session.store.entries)))
      ensures sent.Some? ==> session.store.entries == AuthApi.LoginStore(old(session.store.entries), outcome)
      ensures sent.Some? ==> alert == LoginAlert(AuthApi.LoginResult(outcome)) && !isLoading
    {
      if IsBlank(civilID) || IsBlank(password) {
        sent := None;
        alert := Alert("Error", "Please fill in all fields");
        return;
      }
      isLoading := true;
      var request, result := AuthApi.LoginPatient(session, Trim(civilID), password, outcome);
      sent := Some(request);
      alert := LoginAlert(result);
      isLoading := false;
    }
  }

  /** The civil id is trimmed before it is sent, the password is not. */
  lemma OnlyCivilIdTrimmed(civilID: string, password: string)
    requires !IsBlank(civilID) && !IsBlank(password)
    ensures AuthApi.LoginRequest(Trim(civilID), password).body.fields["civilID"] == Str(Trim(civilID))
    ensures AuthApi.LoginRequest(Trim(civilID), password).body.fields["password"] == Str(password)
    ensures AuthApi.LoginRequest(Trim(" 123 "), " pw ").body.fields["password"] == Str(" pw ")
  {
  }
}
