/** The appointment operations: booking and cancelling throw an `Error` with
    the precedence message, the patient's list swallows every failure into
    `[]`, and three placeholders answer without any request. */
module AppointmentsApi {
  import opened Js
  import opened Http
  import opened Routes

  /** The body `bookAppointment` posts: the five booking fields, `providerType`
      fixed to "doctor". `date` is the Date object as the JSON encoder sees it. */
  function BookingBody(date: Value, time: string, kind: string, duration: int): (body: Value)
    ensures body.Obj? && body.fields.Keys == {"date", "time", "type", "duration", "providerType"}
    ensures Get(body, "date") == date && Get(body, "time") == Str(time) && Get(body, "type") == Str(kind)
    ensures Get(body, "duration") == Num(duration) && Get(body, "providerType") == Str("doctor")
  {
    Obj(map["date" := date, "time" := Str(time), "type" := Str(kind), "duration" := Num(duration),
            "providerType" := Str("doctor")])
  }

  /** `bookAppointment({doctorID, date, time, type, duration, notes})`. */
  function BookAppointment(doctorID: string, date: Value, time: string, kind: string, duration: int, notes: Option<string>): (c: Call)
    ensures c.Network? && c.policy == RaiseWith("Failed to book appointment")
    ensures c.request.verb == POST && c.request.body == BookingBody(date, time, kind, duration)
    ensures "notes" !in c.request.body.fields
    ensures ParamText(doctorID) ==> Reaches(c.request, AppointmentCreate, Some(doctorID))
    ensures c.request.path == "/appointments/create/" + doctorID
  {
    assert "/" + "appointments" + "/" + "create" + "/" == "/appointments/create/";
    RenderParamAfterTwo("appointments", "create", doctorID);
    assert PatternOf(AppointmentCreate) == [Lit(""), Lit("appointments"), Lit("create"), Param];
    Network(Request(POST, "/appointments/create/" + doctorID, BookingBody(date, time, kind, duration)),
            RaiseWith("Failed to book appointment"))
  }

  /** Whatever notes the caller supplies, the same request goes out. */
  lemma BookingIgnoresNotes(doctorID: string, date: Value, time: string, kind: string, duration: int, n1: Option<string>, n2: Option<string>)
    ensures BookAppointment(doctorID, date, time, kind, duration, n1) == BookAppointment(doctorID, date, time, kind, duration, n2)
  {
  }

  /** A failed booking throws the server's `message`, else its `error`, else
      the transport message, else "Failed to book appointment". */
  lemma BookingFailureMessage(doctorID: string, date: Value, time: string, kind: string, duration: int, notes: Option<string>, outcome: Outcome)
    requires !outcome.Ok?
    ensures Settle(BookAppointment(doctorID, date, time, kind, duration, notes).policy, outcome)
         == Rejected(Raised(ErrorMessage(outcome, "Failed to book appointment")))
    ensures outcome == Transport("") ==>
              Settle(BookAppointment(doctorID, date, time, kind, duration, notes).policy, outcome)
              == Rejected(Raised("Failed to book appointment"))
  {
  }

  /** `getMyAppointments()`. */
  const GET_MY_APPOINTMENTS: Call := Network(Request(GET, "/appointments/patient", Undefined), EmptyOnError(Arr([])))

  /** The patient's appointments come from `/appointments/patient`. */
  lemma MyAppointmentsRoute()
    ensures Reaches(GET_MY_APPOINTMENTS.request, AppointmentsOfPatient, None)
  {
    assert "/" + "appointments" + "/" + "patient" == "/appointments/patient";
    RenderFixedTwo("appointments", "patient", "");
    assert PatternOf(AppointmentsOfPatient) == [Lit(""), Lit("appointments"), Lit("patient")];
  }

  /** The patient's appointments: the body unchanged on success, `[]` on any
      failure, never a rejection. */
  lemma MyAppointmentsNeverRaise(outcome: Outcome)
    ensures outcome.Ok? ==> Settle(GET_MY_APPOINTMENTS.policy, outcome) == Resolved(outcome.data)
    ensures !outcome.Ok? ==> Settle(GET_MY_APPOINTMENTS.policy, outcome) == Resolved(Arr([]))
  {
  }

  /** `getAvailableDoctors()`, `getAppointmentDetails(id)`, `getDoctorSlots(id, date)`:
      placeholders that send nothing and resolve to a fixed value. */
  function GetAvailableDoctors(): (c: Call)
    ensures c == Placeholder(Arr([]))
  {
    Placeholder(Arr([]))
  }

  function GetAppointmentDetails(appointmentId: string): (c: Call)
    ensures c == Placeholder(Null)
  {
    Placeholder(Null)
  }

  function GetDoctorSlots(doctorID: string, date: string): (c: Call)
    ensures c == Placeholder(Arr([]))
  {
    Placeholder(Arr([]))
  }

  /** `cancelAppointment(id)`. */
  function CancelAppointment(appointmentId: string): (c: Call)
    ensures c.Network? && c.policy == RaiseWith("Failed to cancel appointment")
    ensures c.request.verb == DELETE && c.request.body == Undefined
    ensures ParamText(appointmentId) ==> Reaches(c.request, AppointmentDelete, Some(appointmentId))
    ensures c.request.path == "/appointments/" + appointmentId
  {
    assert "/" + "appointments" + "/" == "/appointments/";
    RenderParamLast("appointments", appointmentId);
    assert PatternOf(AppointmentDelete) == [Lit(""), Lit("appointments"), Param];
    Network(Request(DELETE, "/appointments/" + appointmentId, Undefined), RaiseWith("Failed to cancel appointment"))
  }
}
