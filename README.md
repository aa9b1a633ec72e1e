# OnCall patient client: a Dafny model

This project models the logic of the OnCall patient app, a thin React Native
client for a clinic backend. The model covers:

- **The session.** This is the token store and the axios instance's two
  interceptors. The request interceptor attaches `Bearer <token>`. The
  response interceptor clears the token on a 401.
- **The API layer.** Each operation in `api/auth.ts`, `api/appointments.ts`,
  `api/bookings.ts`, `api/dependents.ts` and `api/providers.ts` maps its
  inputs to a request and to a failure policy. It either throws an `Error`
  with the precedence message (`data.message`, then `data.error`, then the
  transport message, then a fallback), swallows the failure into `[]`, hands
  the axios error on, or is a placeholder that sends nothing. The
  fetch-based `apiRequest` helper in `utils/api.ts` is modelled too.
- **The screens' logic.** This covers:
  - the status tabs and the provider filters;
  - the favourites toggle and the per-id list updates;
  - the calendar grouping;
  - the form validators and the payloads they build;
  - the login and registration handlers;
  - the analysis screen's two timers.

## How the model is organised

- `js.dfy` (`Js`) is the JavaScript value model. It covers truthiness,
  optional chaining, plain member access that throws a `TypeError` on `null`
  or `undefined`, `String(v)`, `trim` over ECMAScript white space, ASCII
  `toLowerCase`, `filter`, and `Set` de-duplication.
- `http.dfy` (`Http`) describes requests, the server's abstract answer
  `Outcome = Ok | HttpErr | Transport`, the failure policies, and `Settle`.
  `Settle` says how a call ends under its policy.
- `routes.dfy` (`Routes`) is a reference table of the backend endpoints
  that the paths are meant to hit. It uses Express-style `:param` matching
  and proves that no path reaches two endpoints. Each API function's
  contract says which endpoint its request reaches.
- `storage.dfy` and `client.dfy` model the token store and the axios
  session. These are classes whose methods update a `map<string, string>`.
  The request-config object is updated in place by the interceptor.
- Each screen is one module. Its pure parts are functions with lemmas. Its
  handlers are methods of a class that holds the screen's state.
  - Loops appear only where the source iterates. These are the
    `markedDates` reduce (`Homepage.MarkDates`) and the two interval timers
    (`AiAnalysis.AnalysisScreen.RunProgress` and `RunSteps`).
  - A server call inside a handler is a parameter: the `Outcome` it
    returns.

## Model

| member | source | states |
|---|---|---|
| Storage.TokenStore.SaveToken | api/storage.ts:3-5 | the entry under `key` becomes `token`; every other entry is unchanged |
| Storage.TokenStore.GetToken | api/storage.ts:7-9 | returns the entry under the fixed key "token", and returns nothing when that key is absent |
| Storage.TokenStore.ClearToken | api/storage.ts:11-13 | removes only the "token" entry |
| Storage.SaveThenGet | api/storage.ts:3-9 | after saving `t` under "token", reading the token gives `t` |
| Storage.LastWriteWins | api/storage.ts:3-5 | a second save under the same key overwrites the first |
| Storage.SaveOtherKeyInvisible | api/storage.ts:3-9 | a save under any other key does not change the token that is read |
| Storage.ClearThenGet | api/storage.ts:7-13 | after clearing, no token is read |
| Storage.ClearIdempotent | api/storage.ts:11-13 | clearing twice is the same as clearing once |
| Storage.ClearKeepsOtherKeys | api/storage.ts:11-13 | every other key keeps its presence and its value |
| Storage.Saved | api/storage.ts:3-5 | the store after a save: the keys gain `key`, which maps to `token`, and all other values are kept |
| Storage.Cleared | api/storage.ts:11-13 | the store after a clear: the keys lose "token", and all other values are kept |
| Config.GetApiUrl | utils/config.ts:20-22 | the URL is BACKEND_URL followed by the endpoint: its length is the sum of the two, it starts with BACKEND_URL, and the rest is the endpoint |
| Config.GetApiUrlInjective | utils/config.ts:20-22 | different endpoints give different URLs |
| Config.GetApiUrlNoSlashInserted | utils/config.ts:20-22 | no slash is inserted: "health" gives "http://localhost:5000health" |
| Client.WithBearer | api/index.ts:16-19 | with a non-empty token, the `Authorization` header is "Bearer " + token; without one, the headers are unchanged; other headers are never touched |
| Client.Session.InterceptRequest | api/index.ts:14-21 | returns the same config; only the headers change, as WithBearer says, and method, url and data are kept |
| Client.Session.InterceptResponseError | api/index.ts:35-43 | the error is rejected unchanged; a 401 clears the token and any other error leaves the store alone |
| Client.Session.Send | api/index.ts:5-44 | the request goes out with the stored token attached; the answer comes back unchanged; the store is cleared only on a 401 |
| Client.Session.Perform | api/index.ts:5-44 | a placeholder sends nothing and resolves to its value; a network call is sent, settles under its policy, and updates the store as Send does |
| Client.AuthTokenKeyIsStoreKey | utils/config.ts:14 | `STORAGE_KEYS.AUTH_TOKEN` is the key the store reads |
| Client.OutgoingDefaults | api/index.ts:5-11 | every request uses base URL BACKEND_URL, timeout 10000 and content type application/json, and keeps its method, path and body |
| Client.NoTokenNoAuthorization | api/index.ts:16-19 | with no token, or an empty one, no Authorization header is sent |
| Client.UnauthorizedClearsToken | api/index.ts:35-43 | after a 401 no token is stored; any other outcome leaves the store unchanged |
| Http.Precedence | api/auth.ts:55-59 | the message is the first truthy value of `data.message`, `data.error`, the transport message and the fallback |
| Http.ErrorMessageNonEmpty | api/auth.ts:55-59 | when the server's fields are strings or absent, the thrown message is never empty |
| Http.ErrorPrecedenceExamples | api/auth.ts:55-59 | `message` beats `error`, `error` beats the transport message, and an empty transport message gives the fallback |
| Http.Settle | api/appointments.ts:4-63 | a success resolves to the body, or to the whole response under WholeResponse; a failure is swallowed into the policy's empty value, propagated unchanged, or raised with the precedence message |
| AuthApi.HealthUrlIsConfigured | api/auth.ts:10 | the hard-coded health-check URL is the one `getApiUrl("/health")` builds |
| AuthApi.TestBackendConnection | api/auth.ts:7-22 | true exactly when the fetch answered with a 2xx status; false when it threw |
| AuthApi.LoginRequest | api/auth.ts:31 | POST `/auth/login` with a body of exactly `civilID` and `password` |
| AuthApi.LoginPatient | api/auth.ts:25-61 | sends the login request with the current token; the result and the new store are LoginResult and LoginStore of the outcome |
| AuthApi.LoginPrefersToken | api/auth.ts:35-36 | a truthy `data.token` is stored even when `accessToken` is present, and the body is returned |
| AuthApi.LoginFallsBackToAccessToken | api/auth.ts:37-38 | without a truthy `token`, a truthy `accessToken` is stored |
| AuthApi.LoginWithoutTokenKeepsStore | api/auth.ts:35-41 | with neither field, the store is unchanged and the body is still returned |
| AuthApi.LoginNullBodyThrows | api/auth.ts:35 | a `null` body rejects with the TypeError's message and leaves the store alone |
| AuthApi.LoginExamples | api/auth.ts:35-38 | `{token:"abc"}` stores "abc"; `{accessToken:"xyz"}` stores "xyz" |
| AuthApi.LoginFailure | api/auth.ts:55-59 | a failed login rejects with the precedence message ending in "Login failed"; the store changes only as the 401 rule says |
| AuthApi.LoginOnlyTouchesToken | api/auth.ts:35-38 | login never changes any entry other than "token" |
| AuthApi.LogoutRoute | api/auth.ts:124 | logout POSTs to the logout endpoint |
| AuthApi.LogoutPatient | api/auth.ts:122-131 | the token is cleared on every path, and logout always resolves |
| AuthApi.RegisterPatient | api/auth.ts:64-94 | POST `/auth/register` with the patient's fields plus `role: "Patient"`, overriding any given role; a failure raises with fallback "Registration failed" |
| AuthApi.GetMyProfileRoute | api/auth.ts:100 | the profile fetch GETs `/auth/me` |
| AuthApi.UpdatePatientProfile | api/auth.ts:134-145 | PUT `/auth/profile` with the updates unchanged; a failure raises with fallback "Failed to update profile" |
| AuthApi.FallbacksPerOperation | api/auth.ts:88-91 | with no server or transport message, register, profile fetch, profile update and login each throw their own fallback |
| AppointmentsApi.BookingBody | api/appointments.ts:17-23 | the body is exactly date, time, type, duration and `providerType: "doctor"` |
| AppointmentsApi.BookAppointment | api/appointments.ts:4-48 | POST `/appointments/create/<doctorID>` with BookingBody and never `notes`; a failure raises with fallback "Failed to book appointment" |
| AppointmentsApi.BookingIgnoresNotes | api/appointments.ts:13-23 | the request does not depend on the notes |
| AppointmentsApi.BookingFailureMessage | api/appointments.ts:40-46 | a failed booking throws the precedence message ending in "Failed to book appointment" |
| AppointmentsApi.MyAppointmentsRoute | api/appointments.ts:53 | the patient's list is a GET of `/appointments/patient` |
| AppointmentsApi.MyAppointmentsNeverRaise | api/appointments.ts:51-63 | the body on success, `[]` on any failure, never a rejection |
| AppointmentsApi.GetAvailableDoctors | api/appointments.ts:66-74 | no request is sent; it resolves to `[]` |
| AppointmentsApi.GetAppointmentDetails | api/appointments.ts:94-107 | no request is sent; it resolves to `null` |
| AppointmentsApi.GetDoctorSlots | api/appointments.ts:110-123 | no request is sent; it resolves to `[]` |
| AppointmentsApi.CancelAppointment | api/appointments.ts:77-91 | DELETE `/appointments/<id>`; a failure raises with fallback "Failed to cancel appointment" |
| BookingsApi.BookingListRoutes | api/bookings.ts:4-25 | all bookings and patient bookings GET `/bookings`; provider bookings GET `/bookings/provider` |
| BookingsApi.BookingListFailures | api/bookings.ts:4-25 | only the patient list swallows a failure into `[]`; the other two propagate it |
| BookingsApi.CreateBooking | api/bookings.ts:28-32 | POST `/bookings/<providerId>` with the data unchanged; errors propagate |
| BookingsApi.UpdateBookingDate | api/bookings.ts:35-38 | PUT `/bookings/<id>/date` with the body `{date}` only |
| BookingsApi.UpdateBookingTime | api/bookings.ts:41-44 | PUT `/bookings/<id>/time` with the body `{time}` only |
| BookingsApi.UpdateBookingStatus | api/bookings.ts:47-50 | PUT `/bookings/<id>/status` with the body `{status}` only |
| BookingsApi.DeleteBooking | api/bookings.ts:53-56 | DELETE `/bookings/<id>` |
| BookingsApi.BookAppointment | api/bookings.ts:58-61 | POSTs every field except `doctorID` to `/appointments/<doctorID>` and returns the whole response |
| BookingsApi.BookAppointmentWithoutDoctor | api/bookings.ts:59-60 | without a `doctorID` the path is `/appointments/undefined` |
| BookingsApi.TwoBookingEndpoints | api/bookings.ts:58-61 | the two `bookAppointment`s send the same doctor to different endpoints, and this one never reaches the create endpoint |
| DependentsApi.AddDependent | api/dependents.ts:12-16 | POST `/dependents` with the object unchanged |
| DependentsApi.UpdateDependent | api/dependents.ts:19-22 | PUT `/dependents/<id>` with the updates unchanged |
| DependentsApi.DeleteDependent | api/dependents.ts:25-28 | DELETE `/dependents/<id>` |
| DependentsApi.DependentsPropagate | api/dependents.ts:4-28 | the list GETs `/dependents`; no dependents operation catches a failure |
| ProvidersApi.AllProvidersRoute | api/providers.ts:4-8 | GET `/api/providers/`, with the trailing slash |
| ProvidersApi.GetDoctorById | api/providers.ts:11-19 | GET `/doctors/<id>` with the id inserted unescaped; the original error is rethrown; a slash-free id reaches the by-id route |
| ProvidersApi.GetDoctorsBySpecialization | api/providers.ts:22-30 | GET `/doctors/specialization/<spec>` with the value inserted unescaped; the original error is rethrown; a slash-free value reaches the specialisation route |
| ProvidersApi.DoctorIdAliasesSpecialization | api/providers.ts:14 | an id of the form `specialization/<s>` issues the specialization query and reaches no doctor-by-id endpoint |
| FetchApi.BuildRequest | utils/api.ts:10-23 | the URL is BASE_URL (leading space) + endpoint; Content-Type is set iff not form data; Authorization is "Bearer " + token iff the token is truthy; there is no body iff the body is falsy, otherwise the body is raw form data or JSON |
| FetchApi.Interpret | utils/api.ts:23-28 | a rejected fetch rethrows its error; 204 resolves to `null`; otherwise a body that is not JSON rejects with its SyntaxError whatever the status; a parsed body resolves on another 2xx, and anything else raises `data.message` or "API Error" |
| FetchApi.ParseBeforeStatus | utils/api.ts:25-26 | the body is parsed before `res.ok` is checked: an unparsable body rejects the same way on a success status as on a failure, never with "API Error" |
| FetchApi.NoContentIgnoresBody | utils/api.ts:24 | a 204 never looks at the body, so even an unparsable one resolves to `null` |
| FetchApi.FailureMessage | utils/api.ts:26 | a failure raises the server's message, or "API Error" when that is falsy |
| AppointmentsScreen.Normalize | app/appointments.tsx:60 | an array response is kept; anything else becomes `[]` |
| AppointmentsScreen.FilterAppointments | app/appointments.tsx:75-98 | each tab gives an order-preserving subsequence that keeps every copy of each appointment whose lowercased status is in that tab's set and no copy of any other; any other tab gives the whole list |
| AppointmentsScreen.NonArrayShowsNothing | app/appointments.tsx:60 | a non-array response shows nothing on any tab |
| AppointmentsScreen.TabsDisjoint | app/appointments.tsx:82-95 | the three buckets are pairwise disjoint, and an unrecognised or missing status is in none of them |
| AppointmentsScreen.StatusCaseIgnored | app/appointments.tsx:82-95 | "Confirmed" counts as upcoming and "CANCELLED" as canceled |
| PreviousAppointments.FormatTime | app/previous-appointments.tsx:34-36 | the time is shown unchanged, character by character |
| PreviousAppointments.FilterBookings | app/previous-appointments.tsx:38-52 | a non-array gives `[]`; completed and canceled keep every copy of each matching booking and no other, in order; any other tab gives all of them |
| PreviousAppointments.UpcomingIsNotATab | app/previous-appointments.tsx:51 | "upcoming" is not a bucket on this screen and shows everything |
| PreviousAppointments.CompletedAndCanceledDisjoint | app/previous-appointments.tsx:41-49 | no booking is both completed and canceled |
| BookAppointmentScreen.FilteredProviders | app/book-appointment.tsx:107-117 | an order-preserving subsequence keeping every copy of each provider that passes both tests and no copy of any other; with another type and no specialisation, every provider |
| BookAppointmentScreen.Column | app/book-appointment.tsx:123 | `map(p => p[key])`: pointwise, and its members are exactly the providers' values |
| BookAppointmentScreen.Specializations | app/book-appointment.tsx:119-126 | duplicate-free, and it holds exactly the truthy specialisations of providers whose role is the chosen type |
| BookAppointmentScreen.ChosenSpecializationHasProvider | app/book-appointment.tsx:107-126 | choosing an offered specialisation never leaves the provider list empty |
| BookAppointmentScreen.BookingForm.InputChange | app/book-appointment.tsx:128-130 | only the named field of the booking data changes |
| BookAppointmentScreen.BookingForm.ProviderTypeChange | app/book-appointment.tsx:132-136 | sets the type, resets the specialisation and clears `doctorID`; nothing else changes |
| BookAppointmentScreen.BookingForm.SpecialtyChange | app/book-appointment.tsx:138-141 | sets the specialisation and clears `doctorID`; date, time, type and duration are kept |
| BookAppointmentScreen.BookingForm.ProviderSelect | app/book-appointment.tsx:143-145 | only `doctorID` changes |
| BookAppointmentScreen.BookingForm.ModeChange | app/book-appointment.tsx:147-150 | sets `mode` and the booking's `mode` field; nothing else changes |
| BookAppointmentScreen.BookingForm.ModeButton | app/book-appointment.tsx:292-297 | stores the lowercased label in `mode` and in `type`; the duration picker shows iff that is "online" |
| BookAppointmentScreen.BookingForm.PurposeButton | app/book-appointment.tsx:339-342 | a purpose overwrites `type`, so the duration picker is hidden; provider type, specialisation, mode and duration label are kept |
| BookAppointmentScreen.BookingForm.ChooseDuration | app/book-appointment.tsx:316-320 | `duration` becomes one of 30, 45, 60, 75 or 90, with its label |
| Favourites.Toggle | app/_layout.tsx:43-48 | a present id is removed everywhere, leaving a subsequence of the rest; an absent doctor is appended at the end |
| Favourites.ToggleTwiceRestores | app/_layout.tsx:43-48 | toggling an absent doctor twice restores the list |
| Favourites.FilterIdempotent | app/_layout.tsx:46 | filtering twice with the same test equals filtering once |
| Favourites.OthersKeepOrder | app/_layout.tsx:46 | entries with other ids keep their values and relative order |
| Favourites.FilterKeepsUniqueIds | app/_layout.tsx:46 | filtering keeps ids unique |
| Favourites.TogglePreservesUniqueIds | app/_layout.tsx:45-46 | unique ids stay unique after a toggle |
| Home.DoctorOf | app/home.tsx:126-131 | the doctor has the appointment's doctor id, name and specialty, and an empty image |
| Home.FlipFavourite | app/home.tsx:136-142 | only `isFavourite` of the matching appointment flips; length and all other fields are kept |
| Home.FlipTwiceRestores | app/home.tsx:136-142 | flipping twice restores the list |
| Home.Rate | app/home.tsx:145-153 | only the matching appointment's rating changes |
| Home.LastRatingWins | app/home.tsx:145-153 | a second rating replaces the first |
| Home.FilledStars | app/home.tsx:398-412 | the number of filled stars is the rating clamped to 0..5 |
| Home.SyncFavourites | app/home.tsx:156-165 | each `isFavourite` becomes whether its doctor is a favourite; all other fields are kept |
| Home.HandlerAgreesWithSync | app/home.tsx:126-165 | after the toggle handler, the sync updater leaves the list in sync and agrees with the handler's flip on the toggled appointment |
| Homepage.DotFor | app/homepage.tsx:78-82 | the key is the appointment id; the colour is the upcoming colour iff the date is not before today; the selected colour equals the colour |
| Homepage.Dots | app/homepage.tsx:78-82 | one dot per appointment, in order |
| Homepage.DotsAppend | app/homepage.tsx:78-82 | dots of a concatenation are the concatenated dots |
| Homepage.MarkDates | app/homepage.tsx:75-84 | the keys are exactly the appointment dates, and each date holds the dots of that date's appointments, in input order |
| Homepage.MarkStep | app/homepage.tsx:77-82 | one reduce step adds the date and appends one dot under it; other dates are untouched |
| Homepage.MarkPreserved | app/homepage.tsx:77-82 | one reduce step keeps the grouping invariant |
| Homepage.LexLeqReflexive | app/homepage.tsx:76 | every date is on or after itself |
| Homepage.IndicatorOfDistinct | app/homepage.tsx:75-84 | over distinct dates, a date is counted once if present and otherwise not at all |
| Homepage.TotalCountStep | app/homepage.tsx:75-84 | counting splits over the first appointment |
| Homepage.TotalCountIsLength | app/homepage.tsx:75-84 | summing the per-date counts gives the number of appointments |
| Homepage.DotsTotal | app/homepage.tsx:75-84 | each date holds as many dots as it has appointments, and the total is the number of appointments |
| Homepage.TodaysAppointments | app/homepage.tsx:86-88 | an order-preserving subsequence keeping every copy of each appointment dated today and no other |
| Homepage.Retry | app/homepage.tsx:68-71 | the profile is refetched iff its query failed, and the appointments iff theirs did |
| Profile.PatientPayload | app/profile.tsx:216-225 | the eight listed keys, each holding its form field (the caregiver the given id), with no age and no confirmation flag |
| Profile.HandleAddPatient | app/profile.tsx:191-226 | the handler is defined but no element of the screen calls it (the Add Patient button posts through `AddPatientButton` instead); unconfirmed gives "Confirmation Required"; missing fields give "Required Fields"; otherwise the payload is posted with `profile.patient._id`, and a null or undefined `profile.patient` makes the read throw |
| Profile.ReadIdOfUndefined | app/profile.tsx:222 | reading `_id` of `undefined` throws the TypeError |
| Profile.TopLevelIdPassesValidation | app/profile.tsx:202-214 | a top-level `_id` satisfies the check even without `patient` |
| Profile.MissingPatientThrows | app/profile.tsx:202-222 | then building the payload throws |
| Profile.PayloadUsesNestedPatient | app/profile.tsx:222 | `careGiver` is the nested patient id even when a different top-level id exists |
| Profile.PayloadIsPosted | app/profile.tsx:216-225 | the accepted payload is posted unchanged to the dependents endpoint |
| Profile.AddPatientButton | app/profile.tsx:695-701 | the button POSTs name, age and relationship to `/dependents` through `addDependent`, under no guard |
| Profile.AddPatientButtonAlert | app/profile.tsx:227-237 | "The dependent was added successfully" exactly when the post succeeds, otherwise the bare "Error" |
| Profile.ButtonSkipsValidation | app/profile.tsx:697-701 | on a form the handler refuses, the button still posts, and its body carries no caregiver, gender or contact number |
| Profile.DependentsOf | app/profile.tsx:98 | `response.dependents`, or `[]` when that is falsy |
| Profile.PersonInCareBody | app/profile.tsx:270-274 | exactly name, age and relationship: no patient id and no caregiver; the Add Patient button (697-701) posts the same object |
| Profile.ProfileScreen.PatientIdChange | app/profile.tsx:259-261 | only `patientId` of the dependent data changes; the patient form, the flag, the modal, the picker and the upload state are kept |
| Profile.ProfileScreen.OnAddPatientSuccess | app/profile.tsx:106-117 | the form resets with every text empty, relationship included, and confirmed false |
| Profile.ProfileScreen.HandleAddDependent | app/profile.tsx:263-283 | the handler is defined but no element of the screen calls it; through the session, the request carries the stored token and a 401 clears it; no call unless name, age and relationship are non-blank; after a call the flag is down; success clears the data and shows "Person in care added successfully!"; failure keeps it and shows the message or the fallback; the patient form, modal, picker and upload state are never touched |
| Forms.MissingFields | app/register.tsx:27-33 | empty iff no required field is blank |
| Forms.MissingFieldsInOrder | app/register.tsx:28 | the missing names keep the listed order |
| Forms.BlankFieldsMissing | app/register.tsx:28 | every blank field is named |
| Forms.MissingFieldsBlank | app/register.tsx:28 | only blank fields are named |
| Forms.GreetingName | app/auth.tsx:96 | `user.name`, else `name`, else `patient.name`, else "User"; the read throws on a null or undefined body |
| Forms.GreetingExamples | app/login.tsx:47 | the three response shapes greet "Sara", "Ali" and "User" |
| Forms.LoginAlert | app/login.tsx:46-52 | success welcomes the greeting name ("User" for a response object without a name); a failure shows its message, or "Invalid credentials. Please try again." when that is empty |
| Forms.RegisterAlert | app/register.tsx:47-55 | success iff the call did not reject; otherwise the message, or "Registration failed. Please try again." |
| Forms.BackendStatus | app/login.tsx:25-32 | "Connected ✅", "Not Connected ❌" or "Connection Failed ❌" for true, false or a throw |
| LoginScreen.LoginForm.CheckBackendConnection | app/login.tsx:25-32 | "Connected ✅" iff the health check got a 2xx; "Connection Failed ❌" never shows |
| LoginScreen.LoginForm.HandleLogin | app/login.tsx:34-56 | no call when civil id or password is blank; otherwise the trimmed id and untrimmed password are sent, the store follows the login, and the flag ends down |
| LoginScreen.OnlyCivilIdTrimmed | app/login.tsx:43 | only the civil id is trimmed |
| AuthScreen.RegistrationPayload | app/auth.tsx:125-131 | five keys, renamed for the server |
| AuthScreen.PayloadIgnoresProfileFields | app/auth.tsx:125-131 | gender, birthday, blood type, height and weight are never sent |
| AuthScreen.RegisterRefusal | app/auth.tsx:109-120 | blank fields are reported first; then a password mismatch; otherwise nothing is refused |
| AuthScreen.BlankFieldReportedBeforeMismatch | app/auth.tsx:109-120 | with a blank name and a mismatch, the blank field is reported |
| AuthScreen.MissingPhoneExample | app/auth.tsx:109-114 | only a blank phone gives `["phoneNumber"]` |
| AuthScreen.RegisterAlertFollowsOutcome | app/auth.tsx:134-143 | a 2xx shows success; otherwise the thrown precedence message |
| AuthScreen.AuthForm.CheckBackendConnection | app/auth.tsx:62-69 | the status is the health check's text, never "Connection Failed ❌" |
| AuthScreen.AuthForm.HandleLogin | app/auth.tsx:83-105 | as on the login screen, with "Please fill in all required fields" |
| AuthScreen.AuthForm.HandleRegister | app/auth.tsx:107-147 | a refused form sends nothing and leaves the store; otherwise `registerPatient(payload)` goes out through the session with the stored token, a 401 clears the token, the alert of its result, and the flag ends down |
| AuthScreen.AuthForm.AcknowledgeRegistration | app/auth.tsx:136-139 | the OK button switches to the login tab |
| RegisterScreen.FormObject | app/register.tsx:16-22 | the form's five fields as the object sent |
| RegisterScreen.EmailRegexIsShape | app/register.tsx:36 | the pattern accepts a string iff it has no white space, exactly one `@` with text before it, and after it a `.` that is neither first nor last |
| RegisterScreen.ShapeOfMatch | app/register.tsx:36 | a match gives that shape |
| RegisterScreen.MatchOfShape | app/register.tsx:36 | that shape gives a match |
| RegisterScreen.EmailExamples | app/register.tsx:36 | "a@b.co" passes; "a@b@c.d" fails |
| RegisterScreen.BlankEmailNeverMatches | app/register.tsx:36 | a blank email never matches |
| RegisterScreen.RegisterRefusal | app/register.tsx:27-40 | blank fields are reported first; then an email that fails the pattern; otherwise nothing is refused |
| RegisterScreen.RefusalTextsDiffer | app/register.tsx:31-38 | the two refusal texts differ |
| RegisterScreen.EmailCheckedAfterRequired | app/register.tsx:28-41 | the email alert implies every field is filled and the address is malformed |
| RegisterScreen.SameBodyAsAuthScreen | app/register.tsx:45 | this screen sends the same object as the auth screen for matching fields |
| RegisterScreen.RegisterScreenState.HandleRegister | app/register.tsx:25-59 | a refused form sends nothing and leaves the store; otherwise the form is sent unchanged through the session with the stored token (a 401 clears it), only with a well-shaped email, and the flag ends down |
| AiAnalysis.NextProgress | app/ai-analysis.tsx:39-45 | 100 once at 100, otherwise ten more; a multiple of ten in 0..100 stays one |
| AiAnalysis.ProgressAfterIsCapped | app/ai-analysis.tsx:39-45 | n ticks add 10n, capped at 100 |
| AiAnalysis.ProgressFromZero | app/ai-analysis.tsx:19-45 | from 0, progress stays within 0..100 and is 100 iff at least 10 ticks passed; the panel shows iff it is 100 |
| AiAnalysis.IndexOf | app/ai-analysis.tsx:64 | a position holding the text, or -1 exactly when the text is absent |
| AiAnalysis.IndexOfIsFirst | app/ai-analysis.tsx:64 | no earlier position holds the text, so it is the first occurrence |
| AiAnalysis.IndexOfDistinct | app/ai-analysis.tsx:64 | in a list without repeats, every entry is found at its own position |
| AiAnalysis.NextStep | app/ai-analysis.tsx:63-70 | always a listed step |
| AiAnalysis.StepsAreDistinct | app/ai-analysis.tsx:52-60 | no step text repeats |
| AiAnalysis.DistinctPositioned | app/ai-analysis.tsx:64 | in a list without repeats, `indexOf` finds each entry at its own index |
| AiAnalysis.NextStepAdvances | app/ai-analysis.tsx:64-69 | moves one place along the list; the last step stays |
| AiAnalysis.UnknownStepRestarts | app/ai-analysis.tsx:64-69 | text outside the list moves to the first step |
| AiAnalysis.AdvanceOnce | app/ai-analysis.tsx:63-70 | for a list whose entries sit at their own positions, one tick moves to the next entry, or stays on the last |
| AiAnalysis.AdvanceAfterIsCapped | app/ai-analysis.tsx:62-71 | for such a list, n ticks from entry i reach entry min(i + n, last) |
| AiAnalysis.StepAfterIsCapped | app/ai-analysis.tsx:62-71 | n ticks move n places, stopping at the last |
| AiAnalysis.StepsReachLast | app/ai-analysis.tsx:62-71 | from the first step, the status line shows the last step exactly from its sixth tick on |
| AiAnalysis.ProgressFinishesBeforeSteps | app/ai-analysis.tsx:38-71 | with ticks every 500 ms and every 1000 ms, the panel shows exactly from 5 s and the last step exactly from 6 s; whenever the last step shows, so does the panel, and between 5 s and 6 s the panel shows over the next-to-last step |
| AiAnalysis.AnalysisScreen.ProgressTick | app/ai-analysis.tsx:39-45 | one tick; the timer clears when it finds 100 |
| AiAnalysis.AnalysisScreen.StepTick | app/ai-analysis.tsx:62-71 | one tick; the timer clears on the last step |
| AiAnalysis.AnalysisScreen.RunProgress | app/ai-analysis.tsx:38-46 | the value after the ticks fired is capped at 100; the timer stops only at 100 |
| AiAnalysis.AnalysisScreen.RunSteps | app/ai-analysis.tsx:62-71 | the step after the ticks fired; the timer stops only on the last step |

## Left out

- Rendering, styling and navigation are not modelled. This includes `router.push` and the tab switches, with one exception: `AuthForm.AcknowledgeRegistration` models the auth screen's OK button, which switches the tab.
- Network I/O is not modelled. Each server answer is an `Outcome` parameter, and `testBackendConnection`'s fetch is a `FetchOutcome` parameter.
- For AsyncStorage, only the map is modelled. Durability and async scheduling are not.
- react-query's retries, caching, invalidation and in-flight overlap are not modelled. `Homepage.Retry` only says which refetches run.
- The `setInterval` scheduling is not modelled. A tick is one callback run. `AiAnalysis.ProgressFinishesBeforeSteps` assumes both intervals start at mount and fire exactly every 500 ms and 1000 ms, with no drift.
- The `onError` alert of `addDependentMutation` ("Error", "Failed to add dependent", app/profile.tsx) is not modelled; its `onSuccess` is `Profile.ProfileScreen.OnAddPatientSuccess`.
- Logging (`console.*`) is not modelled.
- `Homepage.NotBefore`: `new Date(a) >= new Date(today)` is modelled as lexicographic order on ISO `YYYY-MM-DD` strings. JavaScript date parsing is left out.
- The `toISOString`, `toLocaleDateString` and `toTimeString` formatting is not modelled. On the booking screen the `Date` object is an opaque `Value`.
- `Js.Lower` lowercases ASCII letters only. The statuses and mode labels compared are ASCII, so the comparisons come out the same.
- `BookAppointmentScreen.Passes`, `BookAppointmentScreen.FilteredProviders`, `BookAppointmentScreen.Specializations`: a `null` or `undefined` entry in the provider list reads as having no role and no specialisation, so it is dropped or kept by the tests. In the source, reading `p.role` or `p.specialization` off such an entry throws a TypeError, and the specialisation list reads `p.role` on every render.
- `AppointmentsScreen.HasStatus`: a status that is not a string is treated as matching no tab. In the source, `toLowerCase` on a non-string status (a number, say) would throw. Entries that are `null` or `undefined` are treated the same way.
- `Homepage.MarkDates` models appointments as (id, date) records. The source crashes when the response is not an array; that crash is not modelled.
- `Js.ToJsString`: `JSON.stringify` of a request body is not modelled. A body is kept as a `Value`.
- `Js.ToJsString` renders objects as "[object Object]" and integers in decimal. Fractions are not modelled.
- Axios's combining of `baseURL` with the path is not modelled. A request carries its path, and `Client.OutgoingDefaults` says the base URL is `BACKEND_URL`.
- `Routes`: the endpoint table reflects the backend's assumed Express routes. The backend is not part of this model.
- `BookAppointmentScreen.BookingForm.InputChange` and `Profile.ProfileScreen.PatientIdChange`: the generic `[field]` input handlers are modelled only for the fields the screens pass.
- The register screen's own input handler is not modelled as a method. It is the same `[field]` spread.
- `handleBookAppointment` (app/book-appointment.tsx) is not modelled. It builds a payload whose submission is commented out, so it sends nothing. The Book button does book, though: its own `onPress` calls the booking mutation inline with doctorID, `new Date(date)`, time, type and duration, through `bookAppointment` of api/appointments.ts. That button call is not modelled; `AppointmentsApi.BookAppointment` states what the request it sends looks like.
- The document picker, the `Linking` calls and the mock-data screens (records, messages, calls) are not modelled. Neither are the hard-coded records on the home screen.
- `api/register.tsx` is not modelled because it is entirely commented out.
- `AuthApi.TestBackendConnection` keeps only the status and whether the fetch threw. The headers of the health-check request are not modelled.
