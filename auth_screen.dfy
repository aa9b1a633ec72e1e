/** The combined login/register screen. */
module AuthScreen {
  import opened Js
  import opened Http
  import opened Storage
  import opened Client
  import opened Forms
  import AuthApi

  datatype FormData = FormData(
    civilId: string, password: string, confirmPassword: string, fullName: string, phoneNumber: string,
    email: string, gender: string, birthDay: string, bloodType: string, height: string, weight: string)

  const EMPTY_FORM: FormData := FormData("", "", "", "", "", "", "", "", "", "", "")

  /** The registration tab's required fields, in the order they are listed. */
  function RequiredFields(form: FormData): seq<(string, string)> {
    [("fullName", form.fullName), ("civilId", form.civilId), ("phoneNumber", form.phoneNumber),
     ("password", form.password), ("confirmPassword", form.confirmPassword)]
  }

  /** The object handed to `registerPatient`: five fields renamed for the
      server; gender, birthday, blood type, height and weight stay behind. */
  function RegistrationPayload(form: FormData): (payload: map<string, Value>)
    ensures payload.Keys == {"name", "email", "phone", "civilID", "password"}
    ensures payload["name"] == Str(form.fullName) && payload["email"] == Str(form.email)
    ensures payload["phone"] == Str(form.phoneNumber) && payload["civilID"] == Str(form.civilId)
    ensures payload["password"] == Str(form.password)
  {
    map["name" := Str(form.fullName), "email" := Str(form.email), "phone" := Str(form.phoneNumber),
        "civilID" := Str(form.civilId), "password" := Str(form.password)]
  }

  /** The registration payload does not depend on the fields it leaves out. */
  lemma PayloadIgnoresProfileFields(form: FormData, gender: string, birthDay: string, bloodType: string, height: string, weight: string)
    ensures RegistrationPayload(form.(gender := gender, birthDay := birthDay, bloodType := bloodType, height := height, weight := weight))
            == RegistrationPayload(form)
  {
  }

  /** The registration tab's checks before any request: the blank required
      fields first, then the password confirmation. */
  function RegisterRefusal(form: FormData): (refusal: Option<Alert>)
    ensures var missing := MissingFields(RequiredFields(form));
            (missing != [] ==> refusal == Some(Alert("Error", MissingFieldsMessage(missing)))) &&
            (missing == [] && form.password != form.confirmPassword ==> refusal == Some(Alert("Error", "Passwords do not match"))) &&
            (refusal.None? <==> missing == [] && form.password == form.confirmPassword)
  {
    var missing := MissingFields(RequiredFields(form));
    if |missing| > 0 then Some(Alert("Error", MissingFieldsMessage(missing)))
    else if form.password != form.confirmPassword then Some(Alert("Error", "Passwords do not match"))
    else None
  }

  /** A mismatched confirmation is reported only once every required field is
      filled: a blank name wins, and the alert lists it. */
  lemma BlankFieldReportedBeforeMismatch(form: FormData)
    requires IsBlank(form.fullName) && form.password != form.confirmPassword
    ensures var missing := MissingFields(RequiredFields(form));
            "fullName" in missing && RegisterRefusal(form) == Some(Alert("Error", MissingFieldsMessage(missing)))
    ensures RegisterRefusal(form).value.message != "Passwords do not match"
  {
    var fields := RequiredFields(form);
    BlankFieldsMissing(fields);
    assert fields[0] == ("fullName", form.fullName);
    var message := MissingFieldsMessage(MissingFields(fields));
    assert message[1] == 'l';
  }

  /** A 2xx registration shows the success alert; any other answer shows the
      precedence message that `registerPatient` throws. */
  lemma RegisterAlertFollowsOutcome(patient: map<string, Value>, outcome: Outcome)
    ensures outcome.Ok? ==> RegisterAlert(Settle(AuthApi.RegisterPatient(patient).policy, outcome)).title == "Success"
    ensures !outcome.Ok? ==>
              RegisterAlert(Settle(AuthApi.RegisterPatient(patient).policy, outcome))
              == Alert("Error", var m := ErrorMessage(outcome, "Registration failed");
                                if m != "" then m else REGISTER_FAILED_FALLBACK)
  {
  }

  class AuthForm {
    var activeTab: string
    var isLoading: bool
    var backendStatus: string
    var formData: FormData

    constructor()
      ensures activeTab == "login" && !isLoading && backendStatus == "Checking..." && formData == EMPTY_FORM
    {
      activeTab := "login";
      isLoading := false;
      backendStatus := "Checking...";
      formData := EMPTY_FORM;
    }

    /** `checkBackendConnection()`; the failure text is unreachable because the
        health check never throws. */
    method CheckBackendConnection(fetch: FetchOutcome)
      modifies this`backendStatus
      ensures backendStatus == BackendStatus(Some(AuthApi.TestBackendConnection(fetch)))
      ensures backendStatus != "Connection Failed ❌"
    {
      backendStatus := BackendStatus(Some(AuthApi.TestBackendConnection(fetch)));
    }

    /** `handleLogin()` through `session`. */
    method HandleLogin(session: Session, outcome: Outcome) returns (sent: Option<Sent>, alert: Alert)
      modifies this`isLoading, session.store
      ensures sent.None? <==> IsBlank(formData.civilId) || IsBlank(formData.password)
      ensures sent.None? ==> alert == Alert("Error", "Please fill in all required fields")
      ensures sent.None? ==> session.store.entries == old(session.store.entries) && isLoading == old(isLoading)
      ensures sent.Some? ==> sent.value == Outgoing(AuthApi.LoginRequest(Trim(formData.civilId), formData.password),
                                                    StoredToken(old(session.store.entries)))
      ensures sent.Some? ==> session.store.entries == AuthApi.LoginStore(old(session.store.entries), outcome)
      ensures sent.Some? ==> alert == LoginAlert(AuthApi.LoginResult(outcome)) && !isLoading
    {
      if IsBlank(formData.civilId) || IsBlank(formData.password) {
        sent := None;
        alert := Alert("Error", "Please fill in all required fields");
        return;
      }
      isLoading := true;
      var request, result := AuthApi.LoginPatient(session, Trim(formData.civilId), formData.password, outcome);
      sent := Some(request);
      alert := LoginAlert(result);
      isLoading := false;
    }

    /** `handleRegister()` through `session`, `outcome` standing for the
        server's answer: the request carries the stored token, and a 401
        clears it. */
    method HandleRegister(session: Session, outcome: Outcome) returns (sent: Option<Sent>, alert: Alert)
      modifies this`isLoading, session.store
      ensures sent.None? <==> RegisterRefusal(formData).Some?
      ensures sent.None? ==> alert == RegisterRefusal(formData).value && isLoading == old(isLoading)
      ensures sent.None? ==> session.store.entries == old(session.store.entries)
      ensures sent.Some? ==> sent.value == Outgoing(AuthApi.RegisterPatient(RegistrationPayload(formData)).request,
                                                    StoredToken(old(session.store.entries)))
      ensures sent.Some? ==> session.store.entries == AfterResponse(old(session.store.entries), outcome)
      ensures sent.Some? ==> alert == RegisterAlert(Settle(RaiseWith("Registration failed"), outcome)) && !isLoading
    {
      var refusal := RegisterRefusal(formData);
      if refusal.Some? {
        sent := None;
        alert := refusal.value;
        return;
      }
      isLoading := true;
      var result;
      sent, result := session.Perform(AuthApi.RegisterPatient(RegistrationPayload(formData)), outcome);
      alert := RegisterAlert(result);
      isLoading := false;
    }

    /** The OK button of the success alert switches to the login tab. */
    method AcknowledgeRegistration()
      modifies this`activeTab
      ensures activeTab == "login"
    {
      activeTab := "login";
    }
  }

  /** A form whose only gap is a blank phone number is refused with exactly
      that field named. */
  lemma MissingPhoneExample(form: FormData)
    requires !IsBlank(form.fullName) && !IsBlank(form.civilId) && IsBlank(form.phoneNumber)
    requires !IsBlank(form.password) && !IsBlank(form.confirmPassword)
    ensures MissingFields(RequiredFields(form)) == ["phoneNumber"]
  {
    var fields := RequiredFields(form);
    assert MissingFields(fields[4..]) == [];
    assert MissingFields(fields[3..]) == [];
    assert MissingFields(fields[2..]) == ["phoneNumber"];
    assert MissingFields(fields[1..]) == ["phoneNumber"];
    assert fields == fields[0..];
  }
}
