/** The stand-alone registration screen: the five required fields, the email
    pattern, and the call to `registerPatient` with the form as it stands. */
module RegisterScreen {
  import opened Js
  import opened Http
  import opened Forms
  import AuthApi
  import AuthScreen
  import opened Client
  import opened Storage

  datatype RegisterForm = RegisterForm(name: string, email: string, phone: string, civilID: string, password: string)

  const EMPTY_FORM: RegisterForm := RegisterForm("", "", "", "", "")

  /** The required fields, in the order they are listed; here every field of
      the form is required. */
  function RequiredFields(form: RegisterForm): seq<(string, string)> {
    [("name", form.name), ("email", form.email), ("phone", form.phone),
     ("civilID", form.civilID), ("password", form.password)]
  }

  /** The form object handed unchanged to `registerPatient`. */
  function FormObject(form: RegisterForm): (patient: map<string, Value>)
    ensures patient.Keys == {"name", "email", "phone", "civilID", "password"}
    ensures patient["name"] == Str(form.name) && patient["email"] == Str(form.email)
    ensures patient["phone"] == Str(form.phone) && patient["civilID"] == Str(form.civilID)
    ensures patient["password"] == Str(form.password)
  {
    map["name" := Str(form.name), "email" := Str(form.email), "phone" := Str(form.phone),
        "civilID" := Str(form.civilID), "password" := Str(form.password)]
  }

  /** The characters `[^\s@]` matches. */
  predicate Plain(c: char) {
    !IsSpace(c) && c != '@'
  }

  predicate AllPlain(s: string) {
    forall k | 0 <= k < |s| :: Plain(s[k])
  }

  /** `/^[^\s@]+@[^\s@]+\.[^\s@]+$/` matches `s` with its `@` at `i` and the
      `.` it uses at `j`. */
  predicate MatchesAt(s: string, i: int, j: int) {
    0 < i && i + 1 < j < |s| - 1 &&
    AllPlain(s[..i]) && s[i] == '@' && AllPlain(s[i + 1..j]) && s[j] == '.' && AllPlain(s[j + 1..])
  }

  /** `emailRegex.test(s)`: some split of `s` matches the pattern. */
  predicate EmailRegex(s: string) {
    exists i, j | 0 <= i < |s| && 0 <= j < |s| :: MatchesAt(s, i, j)
  }

  predicate NoSpace(s: string) {
    forall k | 0 <= k < |s| :: !IsSpace(s[k])
  }

  /** `s[i]` is the one `@` of `s`. */
  predicate OnlyAt(s: string, i: int) {
    0 <= i < |s| && s[i] == '@' && forall k | 0 <= k < |s| && s[k] == '@' :: k == i
  }

  predicate DotInside(s: string, i: int) {
    exists j | 0 <= i && i + 1 < j < |s| - 1 :: s[j] == '.'
  }

  /** What the pattern accepts, said plainly: no white space, exactly one
      `@` with something before it, and after it a `.` that is neither the
      first nor the last character of the domain. */
  predicate EmailShape(s: string) {
    NoSpace(s) && exists i | 0 < i < |s| :: OnlyAt(s, i) && DotInside(s, i)
  }

  lemma ShapeOfMatch(s: string, i: int, j: int)
    requires MatchesAt(s, i, j)
    ensures NoSpace(s) && OnlyAt(s, i) && DotInside(s, i)
  {
    forall k | 0 <= k < |s|
      ensures !IsSpace(s[k]) && (s[k] == '@' ==> k == i)
    {
      if k < i {
        assert s[..i][k] == s[k];
      } else if i < k < j {
        assert s[i + 1..j][k - i - 1] == s[k];
      } else if j < k {
        assert s[j + 1..][k - j - 1] == s[k];
      }
    }
  }

  lemma PlainSlice(s: string, lo: int, hi: int)
    requires 0 <= lo <= hi <= |s|
    requires forall k | lo <= k < hi :: Plain(s[k])
    ensures AllPlain(s[lo..hi])
  {
    forall k | 0 <= k < hi - lo
      ensures Plain(s[lo..hi][k])
    {
      assert s[lo..hi][k] == s[lo + k];
    }
  }

  lemma MatchOfShape(s: string, i: int, j: int)
    requires NoSpace(s) && OnlyAt(s, i) && 0 < i && i + 1 < j < |s| - 1 && s[j] == '.'
    ensures MatchesAt(s, i, j)
  {
    PlainSlice(s, 0, i);
    PlainSlice(s, i + 1, j);
    PlainSlice(s, j + 1, |s|);
    assert s[..i] == s[0..i] && s[j + 1..] == s[j + 1..|s|];
  }

  /** The pattern accepts exactly the strings of that shape. */
  lemma EmailRegexIsShape(s: string)
    ensures EmailRegex(s) <==> EmailShape(s)
  {
    if EmailRegex(s) {
      var i, j :| 0 <= i < |s| && 0 <= j < |s| && MatchesAt(s, i, j);
      ShapeOfMatch(s, i, j);
    }
    if EmailShape(s) {
      var i :| 0 < i < |s| && OnlyAt(s, i) && DotInside(s, i);
      var j :| i + 1 < j < |s| - 1 && s[j] == '.';
      MatchOfShape(s, i, j);
    }
  }

  /** Two examples: a plain address passes, one with a second `@` does not. */
  lemma EmailExamples()
    ensures EmailRegex("a@b.co")
    ensures !EmailRegex("a@b@c.d")
  {
    assert MatchesAt("a@b.co", 1, 3) by {
      assert "a@b.co"[..1] == "a";
      assert "a@b.co"[2..3] == "b";
      assert "a@b.co"[4..] == "co";
    }
    var s := "a@b@c.d";
    forall i | 0 < i < |s|
      ensures !OnlyAt(s, i)
    {
      assert s[1] == '@' && s[3] == '@';
    }
    EmailRegexIsShape(s);
  }

  /** A blank email cannot match, so the required-field check always speaks
      first about it. */
  lemma BlankEmailNeverMatches(s: string)
    requires IsBlank(s)
    ensures !EmailRegex(s)
  {
    forall i, j | 0 <= i < |s| && 0 <= j < |s|
      ensures !MatchesAt(s, i, j)
    {
      assert IsSpace(s[i]);
    }
  }

  const INVALID_EMAIL: string := "Please enter a valid email address"

  /** The checks `handleRegister` makes before any request: the blank
      required fields first, then the email pattern. */
  function RegisterRefusal(form: RegisterForm): (refusal: Option<Alert>)
    ensures var missing := MissingFields(RequiredFields(form));
            (missing != [] ==> refusal == Some(Alert("Error", MissingFieldsMessage(missing)))) &&
            (missing == [] && !EmailRegex(form.email) ==> refusal == Some(Alert("Error", INVALID_EMAIL))) &&
            (refusal.None? <==> missing == [] && EmailRegex(form.email))
  {
    var missing := MissingFields(RequiredFields(form));
    if |missing| > 0 then Some(Alert("Error", MissingFieldsMessage(missing)))
    else if !EmailRegex(form.email) then Some(Alert("Error", INVALID_EMAIL))
    else None
  }

  /** The two refusal texts differ. */
  lemma RefusalTextsDiffer(missing: seq<string>)
    ensures MissingFieldsMessage(missing) != INVALID_EMAIL
  {
    assert MissingFieldsMessage(missing)[7] == 'f' && INVALID_EMAIL[7] == 'e';
  }

  /** The email alert appears only for a form with every field filled and an
      address of the wrong shape. */
  lemma EmailCheckedAfterRequired(form: RegisterForm)
    requires RegisterRefusal(form) == Some(Alert("Error", INVALID_EMAIL))
    ensures forall i | 0 <= i < |RequiredFields(form)| :: !IsBlank(RequiredFields(form)[i].1)
    ensures !EmailShape(form.email)
  {
    RefusalTextsDiffer(MissingFields(RequiredFields(form)));
    EmailRegexIsShape(form.email);
  }

  /** The object this screen registers has the same five keys as the
      combined auth screen's payload, filled from the matching fields. */
  lemma SameBodyAsAuthScreen(f: AuthScreen.FormData)
    ensures FormObject(RegisterForm(f.fullName, f.email, f.phoneNumber, f.civilId, f.password))
            == AuthScreen.RegistrationPayload(f)
  {
  }

  class RegisterScreenState {
    var form: RegisterForm
    var isLoading: bool

    constructor()
      ensures form == EMPTY_FORM && !isLoading
    {
      form := EMPTY_FORM;
      isLoading := false;
    }

    /** `handleRegister()` through `session`, `outcome` standing for the
        server's answer. A refused form sends nothing and leaves the flag and
        the store alone; a sent one carries the stored token, clears it on a
        401, and ends with the flag down whatever the answer. */
    method HandleRegister(session: Session, outcome: Outcome) returns (sent: Option<Sent>, alert: Alert)
      modifies this`isLoading, session.store
      ensures sent.None? <==> RegisterRefusal(form).Some?
      ensures sent.None? ==> alert == RegisterRefusal(form).value && isLoading == old(isLoading)
      ensures sent.None? ==> session.store.entries == old(session.store.entries)
      ensures sent.Some? ==> sent.value == Outgoing(AuthApi.RegisterPatient(FormObject(form)).request,
                                                    StoredToken(old(session.store.entries))) && !isLoading
      ensures sent.Some? ==> session.store.entries == AfterResponse(old(session.store.entries), outcome)
      ensures sent.Some? ==> EmailShape(form.email) && MissingFields(RequiredFields(form)) == []
      ensures sent.Some? ==> alert == RegisterAlert(Settle(RaiseWith("Registration failed"), outcome))
    {
      var refusal := RegisterRefusal(form);
      if refusal.Some? {
        sent := None;
        alert := refusal.value;
        return;
      }
      EmailRegexIsShape(form.email);
      isLoading := true;
      var result;
      sent, result := session.Perform(AuthApi.RegisterPatient(FormObject(form)), outcome);
      alert := RegisterAlert(result);
      isLoading := false;
    }
  }
}
