/** The previous-appointments screen: the patient's bookings split into a
    completed and a canceled tab. */
module PreviousAppointments {
  import opened Js
  import opened AppointmentsScreen

  /** `formatTime(t)`: the time string as it came. */
  function FormatTime(time: string): (shown: string)
    ensures |shown| == |time| && forall i | 0 <= i < |time| :: shown[i] == time[i]
  {
    time
  }

  /** `filterAppointments(tab)` over the fetched bookings: anything but an
      array shows nothing; "completed" and "canceled" keep their bucket in
      order; any other tab keeps every booking. */
  function FilterBookings(tab: string, bookings: Value): (r: seq<Value>)
    ensures !bookings.Arr? ==> r == []
    ensures bookings.Arr? ==> IsSubsequence(r, bookings.items)
    ensures tab == "completed" ==> forall x :: x in r <==> x in Normalize(bookings) && HasStatus(COMPLETED, x)
    ensures tab == "canceled" ==> forall x :: x in r <==> x in Normalize(bookings) && HasStatus(CANCELED, x)
    ensures tab == "completed" ==> forall x :: multiset(r)[x] == if HasStatus(COMPLETED, x) then multiset(Normalize(bookings))[x] else 0
    ensures tab == "canceled" ==> forall x :: multiset(r)[x] == if HasStatus(CANCELED, x) then multiset(Normalize(bookings))[x] else 0
    ensures tab !in {"completed", "canceled"} ==> r == Normalize(bookings)
  {
    if !bookings.Arr? then []
    else if tab == "completed" || tab == "canceled" then FilterAppointments(tab, bookings.items)
    else
      SubsequenceOfItself(bookings.items);
      bookings.items
  }

  /** This screen has no "upcoming" tab: that name lists every booking. */
  lemma UpcomingIsNotATab(bookings: seq<Value>)
    ensures FilterBookings("upcoming", Arr(bookings)) == bookings
  {
  }

  /** The two tabs never share a booking. */
  lemma CompletedAndCanceledDisjoint(bookings: Value, b: Value)
    ensures !(b in FilterBookings("completed", bookings) && b in FilterBookings("canceled", bookings))
  {
  }
}
