/** What the sign-in and registration screens share: the list of blank
    required fields, the greeting after a login, and the backend status line. */
module Forms {
  import opened Js
  import opened Http

  datatype Alert = Alert(title: string, message: string)

  function Names(fields: seq<(string, string)>): (names: seq<string>)
    ensures |names| == |fields| && forall i | 0 <= i < |fields| :: names[i] == fields[i].0
  {
    if fields == [] then [] else [fields[0].0] + Names(fields[1..])
  }

  /** `requiredFields.filter(field => !form[field].trim())` over the
      (name, value) pairs of the required fields, in the order listed. */
  function MissingFields(fields: seq<(string, string)>): (missing: seq<string>)
    ensures missing == [] <==> forall i | 0 <= i < |fields| :: !IsBlank(fields[i].1)
  {
    if fields == [] then []
    else (if IsBlank(fields[0].1) then [fields[0].0] else []) + MissingFields(fields[1..])
  }

  /** The missing fields are, in the order listed, names of the fields. */
  lemma {:induction false} MissingFieldsInOrder(fields: seq<(string, string)>)
    ensures IsSubsequence(MissingFields(fields), Names(fields))
  {
    if fields != [] {
      MissingFieldsInOrder(fields[1..]);
      var rest := MissingFields(fields[1..]);
      var names := Names(fields);
      assert names[1..] == Names(fields[1..]);
      if IsBlank(fields[0].1) {
        var missing := [fields[0].0] + rest;
        assert MissingFields(fields) == missing;
        assert missing[1..] == rest;
      } else {
        assert MissingFields(fields) == rest;
        if rest != [] {
          assert IsSubsequence(rest, names[1..]);
        }
      }
    }
  }

  /** Every blank field is named. */
  lemma {:induction false} BlankFieldsMissing(fields: seq<(string, string)>)
    ensures forall i | 0 <= i < |fields| && IsBlank(fields[i].1) :: fields[i].0 in MissingFields(fields)
  {
    if fields != [] {
      BlankFieldsMissing(fields[1..]);
      var rest := MissingFields(fields[1..]);
      assert rest <= MissingFields(fields) || MissingFields(fields)[1..] == rest;
      forall i | 1 <= i < |fields| && IsBlank(fields[i].1)
        ensures fields[i].0 in MissingFields(fields)
      {
        assert fields[1..][i - 1] == fields[i];
      }
    }
  }

  /** Every name in the list belongs to a blank field. */
  lemma {:induction false} MissingFieldsBlank(fields: seq<(string, string)>)
    ensures forall n | n in MissingFields(fields) ::
              exists i | 0 <= i < |fields| :: fields[i].0 == n && IsBlank(fields[i].1)
  {
    if fields != [] {
      MissingFieldsBlank(fields[1..]);
      var rest := MissingFields(fields[1..]);
      forall n | n in rest
        ensures exists i | 0 <= i < |fields| :: fields[i].0 == n && IsBlank(fields[i].1)
      {
        var k :| 0 <= k < |fields[1..]| && fields[1..][k].0 == n && IsBlank(fields[1..][k].1);
        assert fields[k + 1] == fields[1..][k];
      }
    }
  }

  /** The alert text for a non-empty list of missing fields. */
  function MissingFieldsMessage(missing: seq<string>): string {
    "Please fill in all required fields: " + Join(missing, ", ")
  }

  /** `data.user?.name || data.name || data.patient?.name || "User"`; reading
      `data.user` throws when `data` is `null` or `undefined`. */
  function GreetingName(data: Value): (r: Read)
    ensures r.TypeError? <==> data == Null || data == Undefined
    ensures r.Found? ==> Truthy(r.value)
    ensures r.Found? && Truthy(Get(Get(data, "user"), "name")) ==> r.value == Get(Get(data, "user"), "name")
    ensures r.Found? && !Truthy(Get(Get(data, "user"), "name")) && Truthy(Get(data, "name")) ==> r.value == Get(data, "name")
    ensures r.Found? && !Truthy(Get(Get(data, "user"), "name")) && !Truthy(Get(data, "name")) ==>
              r.value == Or(Get(Get(data, "patient"), "name"), Str("User"))
  {
    match Member(data, "user")
    case TypeError(message) => TypeError(message)
    case Found(user) => Found(Or(Get(user, "name"), Or(Get(data, "name"), Or(Get(Get(data, "patient"), "name"), Str("User")))))
  }

  const LOGIN_FAILED_FALLBACK: string := "Invalid credentials. Please try again."

  /** The alert both login handlers raise once `loginPatient` has settled. */
  function LoginAlert(result: Settled): (alert: Alert)
    ensures alert.title in {"Login Successful", "Login Failed"}
    ensures result.Resolved? && result.value != Null && result.value != Undefined ==>
              alert == Alert("Login Successful", "Welcome " + ToJsString(GreetingName(result.value).value))
    ensures result.ResolvedResponse? ==> alert == Alert("Login Successful", "Welcome User")
    ensures result.Rejected? && result.failure.Raised? ==>
              alert == Alert("Login Failed", if result.failure.message != "" then result.failure.message else LOGIN_FAILED_FALLBACK)
  {
    match result
    case Resolved(data) =>
      (match GreetingName(data)
       case Found(name) => Alert("Login Successful", "Welcome " + ToJsString(name))
       case TypeError(message) => Alert("Login Failed", message))
    case ResolvedResponse(_, _) => Alert("Login Successful", "Welcome User")
    case Rejected(Raised(message)) => Alert("Login Failed", if message != "" then message else LOGIN_FAILED_FALLBACK)
    case Rejected(Propagated(error)) =>
      Alert("Login Failed", if !error.Ok? && error.message != "" then error.message else LOGIN_FAILED_FALLBACK)
  }

  const REGISTER_FAILED_FALLBACK: string := "Registration failed. Please try again."

  /** The alert both registration handlers raise once `registerPatient` has
      settled: success when it resolved, else the thrown message, or the
      screens' own fallback when that message is empty. */
  function RegisterAlert(result: Settled): (alert: Alert)
    ensures alert.title == "Success" <==> !result.Rejected?
    ensures result.Rejected? && result.failure.Raised? ==>
              alert == Alert("Error", if result.failure.message != "" then result.failure.message else REGISTER_FAILED_FALLBACK)
  {
    match result
    case Rejected(failure) =>
      Alert("Error", if failure.Raised? && failure.message != "" then failure.message else REGISTER_FAILED_FALLBACK)
    case _ => Alert("Success", "Registration completed successfully! You can now login.")
  }

  /** The three greetings of the login examples. */
  lemma GreetingExamples()
    ensures GreetingName(Obj(map["user" := Obj(map["name" := Str("Sara")]), "name" := Str("X")])) == Found(Str("Sara"))
    ensures GreetingName(Obj(map["patient" := Obj(map["name" := Str("Ali")])])) == Found(Str("Ali"))
    ensures GreetingName(Obj(map[])) == Found(Str("User"))
  {
    assert Get(Obj(map["patient" := Obj(map["name" := Str("Ali")])]), "user") == Undefined;
  }

  /** What `checkBackendConnection` shows: `Some(b)` when the health check
      resolved to `b`, `None` when it threw. */
  function BackendStatus(check: Option<bool>): (status: string)
    ensures check == Some(true) ==> status == "Connected ✅"
    ensures check == Some(false) ==> status == "Not Connected ❌"
    ensures check == None ==> status == "Connection Failed ❌"
  {
    match check
    case Some(connected) => if connected then "Connected ✅" else "Not Connected ❌"
    case None => "Connection Failed ❌"
  }
}
