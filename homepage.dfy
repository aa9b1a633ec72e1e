/** The patient homepage: the calendar's dots grouped by date, today's
    appointments, and the retry button. */
module Homepage {
  import opened Js

  /** The two fields of a fetched appointment the homepage reads. */
  datatype Appointment = Appointment(id: string, date: string)

  datatype Dot = Dot(key: string, color: string, selectedDotColor: string)

  const UPCOMING_COLOR: string := "#588157"
  const PAST_COLOR: string := "#a8d5b8"

  /** `a <= b` in the lexicographic order of character codes; on the
      `YYYY-MM-DD` dates of the screen it is the calendar order. */
  predicate LexLeq(a: string, b: string) {
    a == [] || (b != [] && (a[0] < b[0] || (a[0] == b[0] && LexLeq(a[1..], b[1..]))))
  }

  lemma {:induction false} LexLeqReflexive(a: string)
    ensures LexLeq(a, a)
  {
    if a != [] {
      LexLeqReflexive(a[1..]);
    }
  }

  /** `new Date(date) >= new Date(today)`. */
  predicate NotBefore(date: string, today: string) {
    LexLeq(today, date)
  }

  /** The dot drawn for one appointment. */
  function DotFor(appointment: Appointment, today: string): (dot: Dot)
    ensures dot.key == appointment.id && dot.selectedDotColor == dot.color
    ensures dot.color == UPCOMING_COLOR <==> NotBefore(appointment.date, today)
    ensures dot.color in {UPCOMING_COLOR, PAST_COLOR}
  {
    var color := if NotBefore(appointment.date, today) then UPCOMING_COLOR else PAST_COLOR;
    Dot(appointment.id, color, color)
  }

  function Dots(appointments: seq<Appointment>, today: string): (dots: seq<Dot>)
    ensures |dots| == |appointments|
    ensures forall i | 0 <= i < |dots| :: dots[i] == DotFor(appointments[i], today)
  {
    seq(|appointments|, i requires 0 <= i < |appointments| => DotFor(appointments[i], today))
  }

  lemma DotsAppend(s: seq<Appointment>, t: seq<Appointment>, today: string)
    ensures Dots(s + t, today) == Dots(s, today) + Dots(t, today)
  {
  }

  function DatedOn(date: string): Appointment -> bool {
    (a: Appointment) => a.date == date
  }

  /** The appointments on `date`, in their original order. */
  function OnDate(appointments: seq<Appointment>, date: string): seq<Appointment> {
    Filter(DatedOn(date), appointments)
  }

  function DatesOf(appointments: seq<Appointment>): set<string> {
    set a | a in appointments :: a.date
  }

  /** `marked` groups the dots of `appointments` by date. */
  predicate Grouped(appointments: seq<Appointment>, marked: map<string, seq<Dot>>, today: string) {
    && marked.Keys == DatesOf(appointments)
    && forall date | date in marked :: marked[date] == Dots(OnDate(appointments, date), today)
  }

  /** One reduce step: the appointment's dot appended under its date. */
  function Mark(marked: map<string, seq<Dot>>, appointment: Appointment, today: string): map<string, seq<Dot>> {
    var dots := if appointment.date in marked then marked[appointment.date] else [];
    marked[appointment.date := dots + [DotFor(appointment, today)]]
  }

  /** The `markedDates` reduce: one entry per date that has an appointment,
      holding one dot per appointment on that date, in input order. */
  method MarkDates(appointments: seq<Appointment>, today: string) returns (marked: map<string, seq<Dot>>)
    ensures marked.Keys == DatesOf(appointments)
    ensures forall date | date in marked :: marked[date] == Dots(OnDate(appointments, date), today)
  {
    marked := map[];
    for i := 0 to |appointments|
      invariant Grouped(appointments[..i], marked, today)
    {
      var appointment := appointments[i];
      MarkPreserved(appointments[..i], appointment, today, marked);
      assert appointments[..i + 1] == appointments[..i] + [appointment];
      var dots := if appointment.date in marked then marked[appointment.date] else [];
      marked := marked[appointment.date := dots + [DotFor(appointment, today)]];
    }
    assert appointments[..|appointments|] == appointments;
  }

  /** One step of the reduce: appending an appointment adds its dot to its own
      date and leaves every other date's dots alone. */
  lemma MarkStep(prefix: seq<Appointment>, appointment: Appointment, today: string)
    ensures DatesOf(prefix + [appointment]) == DatesOf(prefix) + {appointment.date}
    ensures appointment.date !in DatesOf(prefix) ==> OnDate(prefix, appointment.date) == []
    ensures Dots(OnDate(prefix + [appointment], appointment.date), today)
            == Dots(OnDate(prefix, appointment.date), today) + [DotFor(appointment, today)]
    ensures forall date | date != appointment.date :: OnDate(prefix + [appointment], date) == OnDate(prefix, date)
  {
    forall date
      ensures OnDate(prefix + [appointment], date) == OnDate(prefix, date) + OnDate([appointment], date)
    {
      FilterAppend(DatedOn(date), prefix, [appointment]);
    }
    assert OnDate([appointment], appointment.date) == [appointment];
    DotsAppend(OnDate(prefix, appointment.date), [appointment], today);
    if appointment.date !in DatesOf(prefix) {
      FilterDropsAll(DatedOn(appointment.date), prefix);
    }
  }

  /** The reduce's accumulator stays the grouping of the prefix seen so far. */
  lemma MarkPreserved(prefix: seq<Appointment>, appointment: Appointment, today: string, marked: map<string, seq<Dot>>)
    requires Grouped(prefix, marked, today)
    ensures Grouped(prefix + [appointment], Mark(marked, appointment, today), today)
  {
    MarkStep(prefix, appointment, today);
  }

  /** How many appointments fall on `date`. */
  function Count(appointments: seq<Appointment>, date: string): nat {
    |OnDate(appointments, date)|
  }

  /** The number of dots under the dates `dates`. */
  function TotalCount(dates: seq<string>, appointments: seq<Appointment>): nat {
    if dates == [] then 0 else Count(appointments, dates[0]) + TotalCount(dates[1..], appointments)
  }

  function Indicator(dates: seq<string>, date: string): nat {
    if dates == [] then 0 else (if dates[0] == date then 1 else 0) + Indicator(dates[1..], date)
  }

  lemma {:induction false} IndicatorOfDistinct(dates: seq<string>, date: string)
    requires NoDuplicates(dates)
    ensures Indicator(dates, date) == if date in dates then 1 else 0
  {
    if dates != [] {
      assert NoDuplicates(dates[1..]);
      IndicatorOfDistinct(dates[1..], date);
      if dates[0] == date {
        assert date !in dates[1..];
      }
    }
  }

  lemma {:induction false} TotalCountStep(dates: seq<string>, appointments: seq<Appointment>)
    requires appointments != []
    ensures TotalCount(dates, appointments) == Indicator(dates, appointments[0].date) + TotalCount(dates, appointments[1..])
  {
    if dates != [] {
      TotalCountStep(dates[1..], appointments);
      assert appointments == [appointments[0]] + appointments[1..];
      FilterAppend(DatedOn(dates[0]), [appointments[0]], appointments[1..]);
    }
  }

  /** Summed over distinct dates covering every appointment, the per-date
      counts add up to the number of appointments. */
  lemma {:induction false} TotalCountIsLength(dates: seq<string>, appointments: seq<Appointment>)
    requires NoDuplicates(dates) && DatesOf(appointments) <= set d | d in dates
    ensures TotalCount(dates, appointments) == |appointments|
  {
    if appointments == [] {
      TotalOfNothing(dates);
    } else {
      TotalCountStep(dates, appointments);
      IndicatorOfDistinct(dates, appointments[0].date);
      assert appointments[0].date in DatesOf(appointments);
      assert DatesOf(appointments[1..]) <= DatesOf(appointments) by {
        forall a | a in appointments[1..] ensures a in appointments { }
      }
      TotalCountIsLength(dates, appointments[1..]);
    }
  }

  lemma {:induction false} TotalOfNothing(dates: seq<string>)
    ensures TotalCount(dates, []) == 0
  {
    if dates != [] {
      TotalOfNothing(dates[1..]);
    }
  }

  /** The calendar carries exactly one dot per appointment: counted over its
      dates, the dots add up to the number of appointments. */
  lemma DotsTotal(appointments: seq<Appointment>, today: string, marked: map<string, seq<Dot>>, dates: seq<string>)
    requires marked.Keys == DatesOf(appointments)
    requires forall date | date in marked :: marked[date] == Dots(OnDate(appointments, date), today)
    requires NoDuplicates(dates) && (set d | d in dates) == marked.Keys
    ensures forall date | date in marked :: |marked[date]| == Count(appointments, date)
    ensures TotalCount(dates, appointments) == |appointments|
  {
    TotalCountIsLength(dates, appointments);
  }

  /** `todaysAppointments`: in order, the appointments dated today. */
  function TodaysAppointments(appointments: seq<Appointment>, today: string): (r: seq<Appointment>)
    ensures IsSubsequence(r, appointments)
    ensures forall a :: a in r <==> a in appointments && a.date == today
    ensures forall a :: multiset(r)[a] == if a.date == today then multiset(appointments)[a] else 0
  {
    var keep := (a: Appointment) => a.date == today && NotBefore(a.date, today);
    LexLeqReflexive(today);
    FilterIsSubsequence(keep, appointments);
    FilterCounts(keep, appointments);
    Filter(keep, appointments)
  }

  datatype Query = Profile | Appointments

  /** `handleRetry`: the queries it refetches, in order. */
  function Retry(isProfileError: bool, isAppointmentsError: bool): (refetched: seq<Query>)
    ensures Profile in refetched <==> isProfileError
    ensures Appointments in refetched <==> isAppointmentsError
    ensures NoDuplicates(refetched) && (|refetched| == 2 ==> refetched[0] == Profile)
  {
    (if isProfileError then [Profile] else []) + (if isAppointmentsError then [Appointments] else [])
  }
}
