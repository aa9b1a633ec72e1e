/** The booking operations. Only the patient's list catches failures (into
    `[]`); every other operation lets the axios error through unchanged. */
module BookingsApi {
  import opened Js
  import opened Http
  import opened Routes
  import AppointmentsApi

  /** `getAllBookings()`, `getPatientBookings()`, `getProviderBookings()`. */
  const GET_ALL_BOOKINGS: Call := Network(Request(GET, "/bookings", Undefined), Propagate)
  const GET_PATIENT_BOOKINGS: Call := Network(Request(GET, "/bookings", Undefined), EmptyOnError(Arr([])))
  const GET_PROVIDER_BOOKINGS: Call := Network(Request(GET, "/bookings/provider", Undefined), Propagate)

  /** The two patient-side lists fetch the same endpoint, the provider list
      another one. */
  lemma BookingListRoutes()
    ensures GET_ALL_BOOKINGS.request == GET_PATIENT_BOOKINGS.request
    ensures Reaches(GET_ALL_BOOKINGS.request, BookingsAll, None)
    ensures Reaches(GET_PROVIDER_BOOKINGS.request, BookingsOfProvider, None)
  {
    assert "" + "/" + "bookings" == "/bookings";
    assert "/bookings" + "/" + "provider" == "/bookings/provider";
  }

  /** Only the patient list swallows a failure, into `[]`. */
  lemma BookingListFailures(outcome: Outcome)
    requires !outcome.Ok?
    ensures Settle(GET_PATIENT_BOOKINGS.policy, outcome) == Resolved(Arr([]))
    ensures Settle(GET_ALL_BOOKINGS.policy, outcome) == Rejected(Propagated(outcome))
    ensures Settle(GET_PROVIDER_BOOKINGS.policy, outcome) == Rejected(Propagated(outcome))
  {
  }

  /** `createBooking(providerId, bookingData)`: the data goes out unchanged. */
  function CreateBooking(serviceProviderId: string, bookingData: Value): (c: Call)
    ensures c.Network? && c.policy == Propagate
    ensures c.request.verb == POST && c.request.body == bookingData
    ensures ParamText(serviceProviderId) ==> Reaches(c.request, BookingCreate, Some(serviceProviderId))
    ensures c.request.path == "/bookings/" + serviceProviderId
  {
    assert "/" + "bookings" + "/" == "/bookings/";
    RenderParamLast("bookings", serviceProviderId);
    assert PatternOf(BookingCreate) == [Lit(""), Lit("bookings"), Param];
    Network(Request(POST, "/bookings/" + serviceProviderId, bookingData), Propagate)
  }

  /** `updateBookingDate(id, date)`: the one-field body `{date}`. */
  function UpdateBookingDate(bookingId: string, date: string): (c: Call)
    ensures c.Network? && c.policy == Propagate && c.request.verb == PUT
    ensures c.request.body.Obj? && c.request.body.fields.Keys == {"date"} && Get(c.request.body, "date") == Str(date)
    ensures ParamText(bookingId) ==> Reaches(c.request, BookingDate, Some(bookingId))
    ensures c.request.path == "/bookings/" + bookingId + "/date"
  {
    assert "/" + "bookings" + "/" == "/bookings/" && "/" + "date" == "/date";
    RenderParamBetween("bookings", bookingId, "date");
    assert PatternOf(BookingDate) == [Lit(""), Lit("bookings"), Param, Lit("date")];
    Network(Request(PUT, "/bookings/" + bookingId + "/date", Obj(map["date" := Str(date)])), Propagate)
  }

  /** `updateBookingTime(id, time)`: the one-field body `{time}`. */
  function UpdateBookingTime(bookingId: string, time: string): (c: Call)
    ensures c.Network? && c.policy == Propagate && c.request.verb == PUT
    ensures c.request.body.Obj? && c.request.body.fields.Keys == {"time"} && Get(c.request.body, "time") == Str(time)
    ensures ParamText(bookingId) ==> Reaches(c.request, BookingTime, Some(bookingId))
    ensures c.request.path == "/bookings/" + bookingId + "/time"
  {
    assert "/" + "bookings" + "/" == "/bookings/" && "/" + "time" == "/time";
    RenderParamBetween("bookings", bookingId, "time");
    assert PatternOf(BookingTime) == [Lit(""), Lit("bookings"), Param, Lit("time")];
    Network(Request(PUT, "/bookings/" + bookingId + "/time", Obj(map["time" := Str(time)])), Propagate)
  }

  /** `updateBookingStatus(id, status)`: the one-field body `{status}`. */
  function UpdateBookingStatus(bookingId: string, status: string): (c: Call)
    ensures c.Network? && c.policy == Propagate && c.request.verb == PUT
    ensures c.request.body.Obj? && c.request.body.fields.Keys == {"status"} && Get(c.request.body, "status") == Str(status)
    ensures ParamText(bookingId) ==> Reaches(c.request, BookingStatus, Some(bookingId))
    ensures c.request.path == "/bookings/" + bookingId + "/status"
  {
    assert "/" + "bookings" + "/" == "/bookings/" && "/" + "status" == "/status";
    RenderParamBetween("bookings", bookingId, "status");
    assert PatternOf(BookingStatus) == [Lit(""), Lit("bookings"), Param, Lit("status")];
    Network(Request(PUT, "/bookings/" + bookingId + "/status", Obj(map["status" := Str(status)])), Propagate)
  }

  /** `deleteBooking(id)`. */
  function DeleteBooking(bookingId: string): (c: Call)
    ensures c.Network? && c.policy == Propagate
    ensures c.request.verb == DELETE && c.request.body == Undefined
    ensures ParamText(bookingId) ==> Reaches(c.request, BookingDelete, Some(bookingId))
    ensures c.request.path == "/bookings/" + bookingId
  {
    assert "/" + "bookings" + "/" == "/bookings/";
    RenderParamLast("bookings", bookingId);
    assert PatternOf(BookingDelete) == [Lit(""), Lit("bookings"), Param];
    Network(Request(DELETE, "/bookings/" + bookingId, Undefined), Propagate)
  }

  /** This module's `bookAppointment(appointmentData)`: `doctorID` is taken
      out of the object, interpolated into the path, and the remaining fields
      are posted; the whole axios response is returned. */
  function BookAppointment(appointmentData: map<string, Value>): (c: Call)
    ensures c.Network? && c.policy == WholeResponse && c.request.verb == POST
    ensures c.request.body.Obj? && c.request.body.fields.Keys == appointmentData.Keys - {"doctorID"}
    ensures forall k | k in c.request.body.fields :: c.request.body.fields[k] == appointmentData[k]
    ensures var id := ToJsString(Get(Obj(appointmentData), "doctorID"));
            ParamText(id) ==> Reaches(c.request, AppointmentForDoctor, Some(id))
    ensures c.request.path == "/appointments/" + ToJsString(Get(Obj(appointmentData), "doctorID"))
  {
    var id := ToJsString(Get(Obj(appointmentData), "doctorID"));
    assert "/" + "appointments" + "/" == "/appointments/";
    RenderParamLast("appointments", id);
    assert PatternOf(AppointmentForDoctor) == [Lit(""), Lit("appointments"), Param];
    Network(Request(POST, "/appointments/" + id, Obj(appointmentData - {"doctorID"})), WholeResponse)
  }

  /** Without a `doctorID` field the path reads `/appointments/undefined`. */
  lemma BookAppointmentWithoutDoctor(appointmentData: map<string, Value>)
    requires "doctorID" !in appointmentData
    ensures Reaches(BookAppointment(appointmentData).request, AppointmentForDoctor, Some("undefined"))
  {
  }

  /** The two `bookAppointment`s send the same doctor to different endpoints:
      the appointments module to `/appointments/create/:id`, this one to
      `/appointments/:id`, which the create endpoint never receives. */
  lemma TwoBookingEndpoints(doctorID: string, date: Value, time: string, kind: string, duration: int,
                            notes: Option<string>, appointmentData: map<string, Value>)
    requires ParamText(doctorID)
    requires "doctorID" in appointmentData && appointmentData["doctorID"] == Str(doctorID)
    ensures Reaches(AppointmentsApi.BookAppointment(doctorID, date, time, kind, duration, notes).request,
                    AppointmentCreate, Some(doctorID))
    ensures Reaches(BookAppointment(appointmentData).request, AppointmentForDoctor, Some(doctorID))
    ensures forall p :: !Reaches(BookAppointment(appointmentData).request, AppointmentCreate, p)
  {
    var request := BookAppointment(appointmentData).request;
    forall p | Reaches(request, AppointmentCreate, p)
      ensures false
    {
      Unambiguous(request, AppointmentCreate, p, AppointmentForDoctor, Some(doctorID));
    }
  }
}
