/** The appointments screen: the fetched response is normalised to an array
    and split into tabs by the case-insensitive status of each appointment. */
module AppointmentsScreen {
  import opened Js

  /** `Array.isArray(response) ? response : []`; a missing response is the
      query's default `[]`, which this also yields. */
  function Normalize(response: Value): (appointments: seq<Value>)
    ensures response.Arr? ==> appointments == response.items
    ensures !response.Arr? ==> appointments == []
  {
    if response.Arr? then response.items else []
  }

  /** `app.status?.toLowerCase()` is one of `names`: a missing status reads as
      `undefined` and matches nothing. */
  predicate HasStatus(names: set<string>, app: Value) {
    Get(app, "status").Str? && Lower(Get(app, "status").s) in names
  }

  const UPCOMING: set<string> := {"confirmed", "pending"}
  const COMPLETED: set<string> := {"completed"}
  const CANCELED: set<string> := {"cancelled", "canceled"}

  /** `filterAppointments(tab)`: the three named tabs keep the appointments
      whose lowercased status is in their bucket, in their original order;
      any other tab keeps the whole list. */
  function FilterAppointments(tab: string, appointments: seq<Value>): (r: seq<Value>)
    ensures IsSubsequence(r, appointments)
    ensures tab == "upcoming" ==> forall x :: x in r <==> x in appointments && HasStatus(UPCOMING, x)
    ensures tab == "completed" ==> forall x :: x in r <==> x in appointments && HasStatus(COMPLETED, x)
    ensures tab == "canceled" ==> forall x :: x in r <==> x in appointments && HasStatus(CANCELED, x)
    ensures tab == "upcoming" ==> forall x :: multiset(r)[x] == if HasStatus(UPCOMING, x) then multiset(appointments)[x] else 0
    ensures tab == "completed" ==> forall x :: multiset(r)[x] == if HasStatus(COMPLETED, x) then multiset(appointments)[x] else 0
    ensures tab == "canceled" ==> forall x :: multiset(r)[x] == if HasStatus(CANCELED, x) then multiset(appointments)[x] else 0
    ensures tab !in {"upcoming", "completed", "canceled"} ==> r == appointments
  {
    var names := if tab == "upcoming" then UPCOMING else if tab == "completed" then COMPLETED else CANCELED;
    if tab in {"upcoming", "completed", "canceled"} then
      FilterIsSubsequence(x => HasStatus(names, x), appointments);
      FilterCounts(x => HasStatus(names, x), appointments);
      Filter(x => HasStatus(names, x), appointments)
    else
      SubsequenceOfItself(appointments);
      appointments
  }

  lemma {:induction false} SubsequenceOfItself<T>(s: seq<T>)
    ensures IsSubsequence(s, s)
  {
    if s != [] {
      SubsequenceOfItself(s[1..]);
    }
  }

  /** A response that is not an array shows nothing on any tab. */
  lemma NonArrayShowsNothing(response: Value, tab: string)
    requires !response.Arr?
    ensures FilterAppointments(tab, Normalize(response)) == []
  {
  }

  /** No appointment sits in two tabs, and one whose status is missing or
      unrecognised sits in none. */
  lemma TabsDisjoint(appointments: seq<Value>, app: Value)
    ensures !(app in FilterAppointments("upcoming", appointments) && app in FilterAppointments("completed", appointments))
    ensures !(app in FilterAppointments("upcoming", appointments) && app in FilterAppointments("canceled", appointments))
    ensures !(app in FilterAppointments("completed", appointments) && app in FilterAppointments("canceled", appointments))
    ensures !HasStatus(UPCOMING + COMPLETED + CANCELED, app) ==>
              app !in FilterAppointments("upcoming", appointments) &&
              app !in FilterAppointments("completed", appointments) &&
              app !in FilterAppointments("canceled", appointments)
  {
    var upcoming := FilterAppointments("upcoming", appointments);
    var completed := FilterAppointments("completed", appointments);
    var canceled := FilterAppointments("canceled", appointments);
    assert app in upcoming ==> HasStatus(UPCOMING, app);
    assert app in completed ==> HasStatus(COMPLETED, app);
    assert app in canceled ==> HasStatus(CANCELED, app);
  }

  /** The comparison ignores case: "Confirmed" is upcoming, "CANCELLED" canceled. */
  lemma StatusCaseIgnored()
    ensures HasStatus(UPCOMING, Obj(map["status" := Str("Confirmed")]))
    ensures HasStatus(CANCELED, Obj(map["status" := Str("CANCELLED")]))
  {
    assert Lower("Confirmed") == "confirmed";
    assert Lower("CANCELLED") == "cancelled";
  }
}
