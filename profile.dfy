/** The profile screen: the add-patient form and its validation, the quick
    person-in-care form, and the dependents list as the screen reads it. */
module Profile {
  import opened Js
  import opened Http
  import DependentsApi
  import Routes
  import opened Client
  import opened Storage

  datatype PatientForm = PatientForm(
    name: string, age: string, gender: string, contactNumber: string, relationship: string,
    birthday: string, medicalHistory: string, specialCareInstructions: string, confirmed: bool)

  /** The form as the screen opens it. */
  const INITIAL_FORM: PatientForm := PatientForm("", "", "", "", "Mother", "", "", "", false)

  /** The form after a successful add: the relationship is cleared too. */
  const RESET_FORM: PatientForm := PatientForm("", "", "", "", "", "", "", "", false)

  /** What `handleAddPatient` does: an alert, the mutation with a payload, or
      a TypeError thrown while building the payload. */
  datatype AddPatient = Alerted(title: string) | Submitted(payload: Value) | Crashed(message: string)

  /** `profile?._id || profile?.patient?._id`. */
  function CareGiverId(profile: Value): Value {
    Or(Get(profile, "_id"), Get(Get(profile, "patient"), "_id"))
  }

  /** The seven required-field tests, in the order of the condition. */
  predicate RequiredFilled(form: PatientForm, profile: Value) {
    !IsBlank(form.name) && !IsBlank(form.gender) && !IsBlank(form.contactNumber) &&
    !IsBlank(form.relationship) && !IsBlank(form.birthday) && Truthy(CareGiverId(profile)) && !IsBlank(form.age)
  }

  /** The payload sent once validation passes; `careGiver` is read as
      `profile.patient._id`. */
  function PatientPayload(form: PatientForm, careGiver: Value): (payload: Value)
    ensures payload.Obj? && "age" !in payload.fields && "confirmed" !in payload.fields
    ensures payload.fields.Keys == {"name", "gender", "contactNumber", "relationship", "birthday",
                                    "careGiver", "medicalHistory", "specialCareInstructions"}
    ensures payload.fields["careGiver"] == careGiver && payload.fields["name"] == Str(form.name)
    ensures payload.fields["birthday"] == Str(form.birthday) && payload.fields["relationship"] == Str(form.relationship)
    ensures payload.fields["gender"] == Str(form.gender) && payload.fields["contactNumber"] == Str(form.contactNumber)
    ensures payload.fields["medicalHistory"] == Str(form.medicalHistory)
    ensures payload.fields["specialCareInstructions"] == Str(form.specialCareInstructions)
  {
    Obj(map["name" := Str(form.name), "gender" := Str(form.gender), "contactNumber" := Str(form.contactNumber),
            "relationship" := Str(form.relationship), "birthday" := Str(form.birthday), "careGiver" := careGiver,
            "medicalHistory" := Str(form.medicalHistory), "specialCareInstructions" := Str(form.specialCareInstructions)])
  }

  /** `handleAddPatient()`. */
  function HandleAddPatient(form: PatientForm, profile: Value): (r: AddPatient)
    ensures !form.confirmed ==> r == Alerted("Confirmation Required")
    ensures form.confirmed && !RequiredFilled(form, profile) ==> r == Alerted("Required Fields")
    ensures r.Submitted? <==> form.confirmed && RequiredFilled(form, profile) && Get(profile, "patient") != Null && Get(profile, "patient") != Undefined
    ensures r.Submitted? ==> r.payload == PatientPayload(form, Get(Get(profile, "patient"), "_id"))
    ensures form.confirmed && RequiredFilled(form, profile) && Get(profile, "patient") in {Null, Undefined} ==> r.Crashed?
  {
    if !form.confirmed then Alerted("Confirmation Required")
    else if !RequiredFilled(form, profile) then Alerted("Required Fields")
    else
      match Member(Get(profile, "patient"), "_id")
      case TypeError(message) => Crashed(message)
      case Found(careGiver) => Submitted(PatientPayload(form, careGiver))
  }

  /** The TypeError of reading `_id` off `undefined`. */
  lemma ReadIdOfUndefined()
    ensures Member(Undefined, "_id") == TypeError("Cannot read properties of undefined (reading '_id')")
  {
    assert "Cannot read properties of undefined (reading '" + "_id" == "Cannot read properties of undefined (reading '_id";
    assert "Cannot read properties of undefined (reading '_id" + "')" == "Cannot read properties of undefined (reading '_id')";
  }

  /** Validation accepts a profile that has only a top-level `_id`. */
  lemma TopLevelIdPassesValidation(form: PatientForm, id: string)
    requires id != ""
    requires !IsBlank(form.name) && !IsBlank(form.gender) && !IsBlank(form.contactNumber)
    requires !IsBlank(form.relationship) && !IsBlank(form.birthday) && !IsBlank(form.age)
    ensures RequiredFilled(form, Obj(map["_id" := Str(id)]))
    ensures Get(Obj(map["_id" := Str(id)]), "patient") == Undefined
  {
    assert Truthy(CareGiverId(Obj(map["_id" := Str(id)])));
  }

  /** The payload, however, reads `profile.patient._id`: a confirmed form that
      passes validation on such a profile throws instead of submitting. */
  lemma MissingPatientThrows(form: PatientForm, profile: Value)
    requires form.confirmed && RequiredFilled(form, profile) && Get(profile, "patient") == Undefined
    ensures HandleAddPatient(form, profile) == Crashed("Cannot read properties of undefined (reading '_id')")
  {
    ReadIdOfUndefined();
  }

  /** When both ids are present, the payload names the nested patient, not the
      top-level id that validation looked at first. */
  lemma PayloadUsesNestedPatient(form: PatientForm, outer: string, inner: string)
    requires RequiredFilled(form, Obj(map["_id" := Str(outer), "patient" := Obj(map["_id" := Str(inner)])])) && form.confirmed
    ensures HandleAddPatient(form, Obj(map["_id" := Str(outer), "patient" := Obj(map["_id" := Str(inner)])]))
            .payload.fields["careGiver"] == Str(inner)
  {
  }

  /** The accepted payload is exactly what `addDependent` posts. */
  lemma PayloadIsPosted(form: PatientForm, profile: Value)
    requires HandleAddPatient(form, profile).Submitted?
    ensures DependentsApi.AddDependent(HandleAddPatient(form, profile).payload).request.body
            == HandleAddPatient(form, profile).payload
  {
  }

  /** The three-field object both the Add Patient button and the quick
      person-in-care form post: name, age and relationship, and nothing else
      (no patient id, no caregiver). */
  function PersonInCareBody(name: string, age: string, relationship: string): (body: Value)
    ensures body.Obj? && body.fields.Keys == {"name", "age", "relationship"}
    ensures Get(body, "name") == Str(name) && Get(body, "age") == Str(age)
    ensures Get(body, "relationship") == Str(relationship)
  {
    Obj(map["name" := Str(name), "age" := Str(age), "relationship" := Str(relationship)])
  }

  /** The Add Patient button: `mutate` of the `addDependent` mutation with
      the form's name, age and relationship, under no guard at all. */
  function AddPatientButton(form: PatientForm): (c: Call)
    ensures c.Network? && c.request.verb == POST
    ensures c.request.body == PersonInCareBody(form.name, form.age, form.relationship)
    ensures Routes.Reaches(c.request, Routes.DependentCreate, None)
  {
    DependentsApi.AddDependent(PersonInCareBody(form.name, form.age, form.relationship))
  }

  /** The mutation's alert once the server answers: its success text, or the
      bare "Error" whatever the failure. */
  function AddPatientButtonAlert(form: PatientForm, outcome: Outcome): (title: string)
    ensures outcome.Ok? <==> title == "The dependent was added successfully"
    ensures !outcome.Ok? ==> title == "Error"
  {
    if Settle(AddPatientButton(form).policy, outcome).Resolved? then "The dependent was added successfully" else "Error"
  }

  /** The button posts even a form that `handleAddPatient` refuses, and what
      it posts is not the validated payload: no caregiver, gender or contact. */
  lemma ButtonSkipsValidation(form: PatientForm, profile: Value)
    requires !form.confirmed || !RequiredFilled(form, profile)
    ensures HandleAddPatient(form, profile).Alerted?
    ensures AddPatientButton(form).Network? && AddPatientButton(form).request.verb == POST
    ensures AddPatientButton(form).request.body.Obj?
    ensures "careGiver" !in AddPatientButton(form).request.body.fields
    ensures "gender" !in AddPatientButton(form).request.body.fields
    ensures "contactNumber" !in AddPatientButton(form).request.body.fields
  {
  }

  /** `dependentsResponse?.dependents || []`, the response defaulting to
      `{dependents: []}` while absent. */
  function DependentsOf(response: Value): (dependents: Value)
    ensures Truthy(Get(response, "dependents")) ==> dependents == Get(response, "dependents")
    ensures !Truthy(Get(response, "dependents")) ==> dependents == Arr([])
    ensures Truthy(dependents)
  {
    var shown := if response == Undefined then Obj(map["dependents" := Arr([])]) else response;
    Or(Get(shown, "dependents"), Arr([]))
  }

  datatype Alert = Alert(title: string, message: string)

  const MISSING_DEPENDENT_FIELDS: string := "Please fill in all required fields for person in care."
  const ADD_DEPENDENT_FALLBACK: string := "Failed to add person in care."

  /** The quick form's state; `patientId` appears once its (only) input
      handler has run. */
  datatype DependentForm = DependentForm(name: string, age: string, relationship: string, patientId: Option<string>)

  /** The quick form's fields when empty. */
  const EMPTY_DEPENDENT: DependentForm := DependentForm("", "", "", None)

  /** The profile screen's form state. */
  class ProfileScreen {
    var patientForm: PatientForm
    var dependentData: DependentForm
    var isAddingDependent: bool
    var showModal: bool
    var datePickerVisible: bool
    var hasUploadedFile: bool

    constructor()
      ensures patientForm == INITIAL_FORM && dependentData == EMPTY_DEPENDENT
      ensures !isAddingDependent && !showModal && !datePickerVisible && !hasUploadedFile
    {
      patientForm := INITIAL_FORM;
      dependentData := EMPTY_DEPENDENT;
      isAddingDependent := false;
      showModal := false;
      datePickerVisible := false;
      hasUploadedFile := false;
    }

    /** `handleDependentInputChange("patientId", value)`, its one use. */
    method PatientIdChange(value: string)
      modifies this
      ensures dependentData == old(dependentData).(patientId := Some(value))
      ensures patientForm == old(patientForm) && isAddingDependent == old(isAddingDependent)
      ensures showModal == old(showModal) && datePickerVisible == old(datePickerVisible)
      ensures hasUploadedFile == old(hasUploadedFile)
    {
      dependentData := dependentData.(patientId := Some(value));
    }

    /** The add mutation's `onSuccess`: modal, picker and upload are closed
        and the form is reset to empty fields, unconfirmed. */
    method OnAddPatientSuccess()
      modifies this
      ensures patientForm == RESET_FORM && patientForm.relationship != INITIAL_FORM.relationship
      ensures !showModal && !datePickerVisible && !hasUploadedFile
      ensures dependentData == old(dependentData) && isAddingDependent == old(isAddingDependent)
    {
      showModal := false;
      patientForm := RESET_FORM;
      datePickerVisible := false;
      hasUploadedFile := false;
    }

    /** `handleAddDependent()` through `session`, with `outcome` standing for
        the server's answer to the `addDependent` call: the request carries
        the stored token, and a 401 clears it. */
    method HandleAddDependent(session: Session, outcome: Outcome) returns (sent: Option<Sent>, alert: Alert)
      modifies this`dependentData, this`isAddingDependent, session.store
      ensures patientForm == old(patientForm)
      ensures showModal == old(showModal) && datePickerVisible == old(datePickerVisible)
      ensures hasUploadedFile == old(hasUploadedFile)
      ensures sent.Some? <==> !IsBlank(old(dependentData).name) && !IsBlank(old(dependentData).age)
                              && !IsBlank(old(dependentData).relationship)
      ensures sent.None? ==> alert == Alert("Error", MISSING_DEPENDENT_FIELDS)
      ensures sent.None? ==> dependentData == old(dependentData) && isAddingDependent == old(isAddingDependent)
      ensures sent.None? ==> session.store.entries == old(session.store.entries)
      ensures sent.Some? ==> !isAddingDependent
      ensures sent.Some? ==> sent.value == Outgoing(DependentsApi.AddDependent(PersonInCareBody(old(dependentData).name, old(dependentData).age, old(dependentData).relationship)).request,
                                                    StoredToken(old(session.store.entries)))
      ensures sent.Some? ==> session.store.entries == AfterResponse(old(session.store.entries), outcome)
      ensures sent.Some? && outcome.Ok? ==> dependentData == EMPTY_DEPENDENT
      ensures sent.Some? && outcome.Ok? ==> alert == Alert("Success", "Person in care added successfully!")
      ensures sent.Some? && !outcome.Ok? ==> dependentData == old(dependentData) && alert.title == "Error"
      ensures sent.Some? && !outcome.Ok? ==>
                alert.message == (if outcome.message != "" then outcome.message else ADD_DEPENDENT_FALLBACK)
    {
      if IsBlank(dependentData.name) || IsBlank(dependentData.age) || IsBlank(dependentData.relationship) {
        alert := Alert("Error", MISSING_DEPENDENT_FIELDS);
        sent := None;
        return;
      }
      isAddingDependent := true;
      var call := DependentsApi.AddDependent(PersonInCareBody(dependentData.name, dependentData.age, dependentData.relationship));
      var settled;
      sent, settled := session.Perform(call, outcome);
      assert settled.Resolved? <==> outcome.Ok?;
      if settled.Resolved? {
        alert := Alert("Success", "Person in care added successfully!");
        dependentData := EMPTY_DEPENDENT;
      } else {
        alert := Alert("Error", if outcome.message != "" then outcome.message else ADD_DEPENDENT_FALLBACK);
      }
      isAddingDependent := false;
    }
  }
}
