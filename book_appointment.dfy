/** The booking screen: the provider list is narrowed by provider type and
    specialisation, the specialisation chips are the distinct non-empty
    specialisations of that type, and the handlers update the form state. */
module BookAppointmentScreen {
  import opened Js

  /** The three provider types with a role filter of their own. */
  const PROVIDER_TYPES: set<string> := {"Doctor", "Nurse", "Lab"}

  /** The filter callback of `filteredProviders`, test by test. */
  predicate Passes(providerType: string, specialization: string, p: Value) {
    if providerType == "Doctor" && Get(p, "role") != Str("Doctor") then false
    else if providerType == "Nurse" && Get(p, "role") != Str("Nurse") then false
    else if providerType == "Lab" && Get(p, "role") != Str("Lab") then false
    else if specialization != "" && Get(p, "specialization") != Str(specialization) then false
    else true
  }

  /** What the filter is meant to keep: the chosen type's role, when the type
      is one of the three, and the chosen specialisation, when one is chosen. */
  predicate Chosen(providerType: string, specialization: string, p: Value) {
    (providerType in PROVIDER_TYPES ==> Get(p, "role") == Str(providerType)) &&
    (specialization != "" ==> Get(p, "specialization") == Str(specialization))
  }

  /** `filteredProviders`: in their original order, every copy of each
      provider that is `Chosen` and no copy of any other. */
  function FilteredProviders(providerType: string, specialization: string, providers: seq<Value>): (r: seq<Value>)
    ensures IsSubsequence(r, providers)
    ensures providerType in PROVIDER_TYPES ==> forall p | p in r :: Get(p, "role") == Str(providerType)
    ensures specialization != "" ==> forall p | p in r :: Get(p, "specialization") == Str(specialization)
    ensures forall p | p in providers && Chosen(providerType, specialization, p) :: p in r
    ensures forall p :: multiset(r)[p] ==
              if Chosen(providerType, specialization, p) then multiset(providers)[p] else 0
    ensures providerType !in PROVIDER_TYPES && specialization == "" ==> r == providers
  {
    var keep := p => Passes(providerType, specialization, p);
    FilterIsSubsequence(keep, providers);
    FilterCounts(keep, providers);
    assert forall p :: keep(p) == Chosen(providerType, specialization, p);
    if providerType !in PROVIDER_TYPES && specialization == "" then
      FilterKeepsAll(keep, providers);
      Filter(keep, providers)
    else
      Filter(keep, providers)
  }

  /** `.map(p => p[key])`. */
  function Column(items: seq<Value>, key: string): (r: seq<Value>)
    ensures |r| == |items|
    ensures forall i | 0 <= i < |items| :: r[i] == Get(items[i], key)
    ensures forall x :: x in r <==> exists p :: p in items && Get(p, key) == x
  {
    if items == [] then []
    else
      var rest := Column(items[1..], key);
      assert forall p :: p in items <==> p == items[0] || p in items[1..];
      [Get(items[0], key)] + rest
  }

  /** `specializations`: each truthy specialisation of a provider whose role
      equals the chosen type, once, in order of first appearance. */
  function Specializations(providerType: string, providers: seq<Value>): (r: seq<Value>)
    ensures NoDuplicates(r)
    ensures forall s :: s in r <==> Truthy(s) && exists p :: p in providers && Get(p, "role") == Str(providerType) && Get(p, "specialization") == s
  {
    var ofType := Filter(p => Get(p, "role") == Str(providerType), providers);
    Dedup(Filter(Truthy, Column(ofType, "specialization")))
  }

  /** Every specialisation chip of one of the three types leaves at least one
      provider to choose from once it is picked. */
  lemma ChosenSpecializationHasProvider(providerType: string, providers: seq<Value>, s: string)
    requires providerType in PROVIDER_TYPES && Str(s) in Specializations(providerType, providers)
    ensures FilteredProviders(providerType, s, providers) != []
  {
    var p :| p in providers && Get(p, "role") == Str(providerType) && Get(p, "specialization") == Str(s);
    assert p in FilteredProviders(providerType, s, providers);
  }

  /** The purposes that share the `type` field with online/offline. */
  const PURPOSES: seq<string> := ["Consultation", "Follow-up", "Emergency", "Routine Check"]

  /** The duration menu's entries: the label and the minutes. */
  const DURATION_LABELS: seq<string> := ["30", "45", "60", "75", "90"]
  const DURATION_MINUTES: seq<int> := [30, 45, 60, 75, 90]

  /** The screen's form state: the provider type and specialisation chosen,
      the mode and duration label, and the `bookingData` record. */
  class BookingForm {
    var providerType: string
    var specialization: string
    var mode: string
    var durationLabel: string
    var bookingData: map<string, Value>

    /** The initial state of the screen. */
    constructor()
      ensures providerType == "Doctor" && specialization == "" && mode == "online" && durationLabel == ""
      ensures bookingData == map["doctorID" := Str(""), "date" := Str(""), "time" := Str(""),
                                 "type" := Str("online"), "duration" := Num(0)]
    {
      providerType := "Doctor";
      specialization := "";
      mode := "online";
      durationLabel := "";
      bookingData := map["doctorID" := Str(""), "date" := Str(""), "time" := Str(""),
                         "type" := Str("online"), "duration" := Num(0)];
    }

    /** The duration menu is shown only while the booking's type is "online". */
    predicate DurationVisible()
      reads this
    {
      "type" in bookingData && bookingData["type"] == Str("online")
    }

    /** `handleInputChange(field, value)`: one field of `bookingData` set. */
    method InputChange(field: string, value: string)
      modifies this
      ensures bookingData == old(bookingData)[field := Str(value)]
      ensures providerType == old(providerType) && specialization == old(specialization)
      ensures mode == old(mode) && durationLabel == old(durationLabel)
    {
      bookingData := bookingData[field := Str(value)];
    }

    /** `handleProviderTypeChange(type)` and the type buttons: the chosen
        specialisation and provider are forgotten. */
    method ProviderTypeChange(kind: string)
      modifies this
      ensures providerType == kind && specialization == ""
      ensures bookingData == old(bookingData)["doctorID" := Str("")]
      ensures mode == old(mode) && durationLabel == old(durationLabel)
    {
      providerType := kind;
      specialization := "";
      bookingData := bookingData["doctorID" := Str("")];
    }

    /** `handleSpecialtyChange(spec)` and the specialisation chips: the chosen
        provider is forgotten, nothing else in the booking changes. */
    method SpecialtyChange(spec: string)
      modifies this
      ensures specialization == spec && providerType == old(providerType)
      ensures bookingData == old(bookingData)["doctorID" := Str("")]
      ensures mode == old(mode) && durationLabel == old(durationLabel)
    {
      specialization := spec;
      bookingData := bookingData["doctorID" := Str("")];
    }

    /** `handleProviderSelect(id)` and the provider chips. */
    method ProviderSelect(id: string)
      modifies this
      ensures bookingData == old(bookingData)["doctorID" := Str(id)]
      ensures providerType == old(providerType) && specialization == old(specialization)
      ensures mode == old(mode) && durationLabel == old(durationLabel)
    {
      bookingData := bookingData["doctorID" := Str(id)];
    }

    /** `handleModeChange(mode)`: stores the mode under a `mode` key of its own. */
    method ModeChange(selectedMode: string)
      modifies this
      ensures mode == selectedMode && bookingData == old(bookingData)["mode" := Str(selectedMode)]
      ensures providerType == old(providerType) && specialization == old(specialization)
      ensures durationLabel == old(durationLabel)
    {
      mode := selectedMode;
      bookingData := bookingData["mode" := Str(selectedMode)];
    }

    /** The Online/Offline buttons: the lowercased label goes into `mode` and
        into the booking's `type`. */
    method ModeButton(modeType: string)
      modifies this
      ensures mode == Lower(modeType) && bookingData == old(bookingData)["type" := Str(Lower(modeType))]
      ensures providerType == old(providerType) && specialization == old(specialization)
      ensures durationLabel == old(durationLabel)
      ensures DurationVisible() <==> Lower(modeType) == "online"
    {
      mode := Lower(modeType);
      bookingData := bookingData["type" := Str(Lower(modeType))];
    }

    /** A purpose button: it writes the same `type` field, so picking one hides
        the duration menu. */
    method PurposeButton(i: nat)
      requires i < |PURPOSES|
      modifies this
      ensures bookingData == old(bookingData)["type" := Str(PURPOSES[i])]
      ensures !DurationVisible()
      ensures providerType == old(providerType) && specialization == old(specialization)
      ensures mode == old(mode) && durationLabel == old(durationLabel)
    {
      InputChange("type", PURPOSES[i]);
    }

    /** An entry of the duration menu. */
    method ChooseDuration(i: nat)
      requires i < |DURATION_MINUTES|
      modifies this
      ensures durationLabel == DURATION_LABELS[i]
      ensures bookingData == old(bookingData)["duration" := Num(DURATION_MINUTES[i])]
      ensures bookingData["duration"].n in {30, 45, 60, 75, 90}
      ensures providerType == old(providerType) && specialization == old(specialization) && mode == old(mode)
    {
      durationLabel := DURATION_LABELS[i];
      bookingData := bookingData["duration" := Num(DURATION_MINUTES[i])];
    }
  }
}
