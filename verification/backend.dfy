/** The request handlers of the CityCare backend (main.py) as pure functions
    over the four in-memory collections. The wall clock is the parameter
    `now` (milliseconds); writing a collection back to its JSON file is
    recorded as the `saved` tag of the reply. */
module Backend {
  import opened Outcomes
  import opened Seqs
  import opened Strings
  import opened Records

  /** The JSON file a handler rewrites. */
  datatype Collection = PatientsFile | FacilitiesFile | AppointmentsFile | AlertsFile

  /** The module-level lists `patients`, `facilities`, `appointments` and
      `alerts`, in insertion order. */
  datatype Store = Store(
    patients: seq<Patient>,
    facilities: seq<Facility>,
    appointments: seq<Appointment>,
    alerts: seq<Alert>)

  /** A mutating handler's outcome: the collections afterwards, the reply
      body or HTTP error, and the file written back, if any. */
  datatype Handled<T> = Handled(store: Store, reply: Result<T, HttpError>, saved: Option<Collection>)

  /** The one PIN every doctor account shares. */
  const DoctorPin := "1234"
  const DoctorRole := "doctor"
  const PatientRole := "patient"

  const InvalidDoctorPin := HttpError(401, "Invalid Doctor PIN.")
  const PatientNotFound := HttpError(404, "Patient not found")
  const NotFoundOrInvalidPin := HttpError(404, "Patient not found or invalid PIN.")

  // ---------------------------------------------------------------------
  // Auth
  // ---------------------------------------------------------------------

  /** The id names a doctor account: its first three characters are "doc"
      in any mix of upper and lower case. */
  predicate IsDoctorId(id: string) {
    && |id| >= 3
    && (id[0] == 'd' || id[0] == 'D')
    && (id[1] == 'o' || id[1] == 'O')
    && (id[2] == 'c' || id[2] == 'C')
  }

  /** Testing the lower-cased id for the prefix "doc" is the same as testing
      its first three characters case-insensitively. */
  lemma DoctorPrefixIgnoresCase(id: string)
    ensures StartsWith(LowerAscii(id), "doc") <==> IsDoctorId(id)
  {
  }

  /** `POST /auth/login`. A doctor id is accepted only with the shared doctor
      PIN; any other id is let in as a patient whatever the PIN. */
  function Login(req: LoginReq): (r: Result<User, HttpError>)
    ensures IsDoctorId(req.userId) && req.pin == DoctorPin ==> r == Ok(User(req.userId, DoctorRole))
    ensures IsDoctorId(req.userId) && req.pin != DoctorPin ==> r == Err(InvalidDoctorPin)
    ensures !IsDoctorId(req.userId) ==> r == Ok(User(req.userId, PatientRole))
  {
    DoctorPrefixIgnoresCase(req.userId);
    if StartsWith(LowerAscii(req.userId), "doc") then
      if req.pin == DoctorPin then Ok(User(req.userId, DoctorRole))
      else Err(InvalidDoctorPin)
    else Ok(User(req.userId, PatientRole))
  }

  // ---------------------------------------------------------------------
  // Facilities
  // ---------------------------------------------------------------------

  /** The four facilities the catalogue is seeded with. */
  const SeedFacilities: seq<Facility> := [
    Facility("IND_HSP_001", "Indore General", "hospital", Float("22.757113"), Float("75.957443"),
             Some("South"), Some("+91-731-2000001"), Some(100)),
    Facility("IND_HSP_002", "Vijay Nagar Care", "hospital", Float("22.674035"), Float("75.899024"),
             Some("East"), Some("+91-731-2000002"), Some(120)),
    Facility("IND_CLN_003", "Rajwada Clinic", "clinic", Float("22.782558"), Float("75.839607"),
             Some("Central"), Some("+91-731-2000003"), Some(15)),
    Facility("IND_HSP_004", "MR-10 Trauma Center", "hospital", Float("22.674416"), Float("75.976310"),
             Some("North"), Some("+91-731-2000004"), Some(80))
  ]

  /** `GET /facilities`. An empty catalogue is seeded with the four fixed
      facilities and written back; a non-empty one is returned as it is and
      nothing is written. */
  function GetFacilities(st: Store): (h: Handled<seq<Facility>>)
    ensures h.reply == Ok(h.store.facilities)
    ensures h.store == st.(facilities := h.store.facilities)
    ensures |st.facilities| == 0 ==> h.store.facilities == SeedFacilities && h.saved == Some(FacilitiesFile)
    ensures |st.facilities| > 0 ==> h.store == st && h.saved == None
  {
    if |st.facilities| == 0 then
      var st' := st.(facilities := SeedFacilities);
      Handled(st', Ok(SeedFacilities), Some(FacilitiesFile))
    else
      Handled(st, Ok(st.facilities), None)
  }

  // ---------------------------------------------------------------------
  // Patients
  // ---------------------------------------------------------------------

  /** The record carries identifier `userId`. */
  function IdIs(userId: string): Patient -> bool {
    (p: Patient) => p.userId == userId
  }

  /** The record carries both `userId` and `pin`. */
  function CredentialsAre(userId: string, pin: string): Patient -> bool {
    (p: Patient) => p.userId == userId && p.pin == pin
  }

  /** `POST /patients/register`. The submitted record, stamped with `now` as
      both creation and update time, is appended; no existing record is
      consulted, so an identifier already present is added a second time. */
  function RegisterPatient(st: Store, body: PatientBody, now: int): (h: Handled<Patient>)
    ensures h.saved == Some(PatientsFile)
    ensures h.store == st.(patients := h.store.patients)
    ensures |h.store.patients| == |st.patients| + 1
    ensures h.store.patients[..|st.patients|] == st.patients
    ensures h.reply.Ok? && h.store.patients[|st.patients|] == h.reply.value
    ensures h.reply.value.createdAt == Some(now) && h.reply.value.updatedAt == Some(now)
    ensures SameExceptTimestamps(h.reply.value, FromBody(body))
  {
    var p := Stamp(FromBody(body), Some(now), Some(now));
    var ps := st.patients + [p];
    assert ps[..|st.patients|] == st.patients;
    Handled(st.(patients := ps), Ok(p), Some(PatientsFile))
  }

  /** `GET /patients`: every record in insertion order. */
  function ListPatients(st: Store): seq<Patient> {
    st.patients
  }

  /** `GET /patients/{user_id}`: the first record with that identifier, or a
      404 when there is none. */
  function GetPatientById(st: Store, userId: string): (r: Result<Patient, HttpError>)
    ensures r.Err? <==> forall i :: 0 <= i < |st.patients| ==> st.patients[i].userId != userId
    ensures r.Err? ==> r.error == PatientNotFound
    ensures forall i :: IsFirst(st.patients, IdIs(userId), i) ==> r == Ok(st.patients[i])
  {
    match FirstWhere(st.patients, IdIs(userId))
    case None => Err(PatientNotFound)
    case Some(i) =>
      assert forall j :: IsFirst(st.patients, IdIs(userId), j) ==> j == i;
      Ok(st.patients[i])
  }

  /** The record that replaces `existing` on a successful update: the submitted
      record, with the creation time of `existing` and update time `now`. */
  function Replacement(existing: Patient, body: PatientBody, now: int): Patient {
    Stamp(FromBody(body), existing.createdAt, Some(now))
  }

  /** `POST /patients/update`. The first record whose identifier AND pin both
      match the body is replaced by the submitted record (not merged with it),
      keeping only its creation time; every other position is left alone. An
      unknown identifier and a wrong pin give the same 404 and change nothing. */
  function UpdatePatient(st: Store, body: PatientBody, now: int): (h: Handled<Patient>)
    ensures h.store == st.(patients := h.store.patients)
    ensures |h.store.patients| == |st.patients|
    ensures h.reply.Err? <==> !Any(st.patients, CredentialsAre(body.userId, body.pin))
    ensures h.reply.Err? ==> h.reply.error == NotFoundOrInvalidPin && h.store == st && h.saved == None
    ensures forall i :: IsFirst(st.patients, CredentialsAre(body.userId, body.pin), i) ==>
      && h.reply == Ok(Replacement(st.patients[i], body, now))
      && h.store.patients == st.patients[i := h.reply.value]
      && h.saved == Some(PatientsFile)
  {
    match FirstWhere(st.patients, CredentialsAre(body.userId, body.pin))
    case None => Handled(st, Err(NotFoundOrInvalidPin), None)
    case Some(i) =>
      assert forall j :: IsFirst(st.patients, CredentialsAre(body.userId, body.pin), j) ==> j == i;
      var rec := Replacement(st.patients[i], body, now);
      Handled(st.(patients := st.patients[i := rec]), Ok(rec), Some(PatientsFile))
  }

  // ---------------------------------------------------------------------
  // Appointments
  // ---------------------------------------------------------------------

  /** `POST /appointments/book`: unconditional append. */
  function BookAppointment(st: Store, a: Appointment): (h: Handled<Appointment>)
    ensures h.saved == Some(AppointmentsFile) && h.reply == Ok(a)
    ensures h.store == st.(appointments := h.store.appointments)
    ensures |h.store.appointments| == |st.appointments| + 1
    ensures h.store.appointments[..|st.appointments|] == st.appointments
    ensures h.store.appointments[|st.appointments|] == a
  {
    var as' := st.appointments + [a];
    assert as'[..|st.appointments|] == st.appointments;
    Handled(st.(appointments := as'), Ok(a), Some(AppointmentsFile))
  }

  /** `GET /appointments`: every appointment in booking order. */
  function ListAppointments(st: Store): seq<Appointment> {
    st.appointments
  }

  /** The appointment is with doctor `doctorId`. */
  function DoctorIs(doctorId: string): Appointment -> bool {
    (a: Appointment) => a.doctorId == doctorId
  }

  /** `GET /appointments/for_doctor/{doctor_id}`: exactly the appointments
      with that doctor, in booking order. */
  function ListForDoctor(st: Store, doctorId: string): (r: seq<Appointment>)
    ensures forall a :: a in r ==> a.doctorId == doctorId
    ensures forall i :: 0 <= i < |st.appointments| && st.appointments[i].doctorId == doctorId ==>
      st.appointments[i] in r
    ensures |r| == Count(st.appointments, DoctorIs(doctorId))
    ensures IsSubsequence(r, st.appointments)
  {
    Filter(st.appointments, DoctorIs(doctorId))
  }

  // ---------------------------------------------------------------------
  // Alerts
  // ---------------------------------------------------------------------

  /** `POST /alerts/create`: the alert is stamped with `now`, overriding any
      `ts` the caller sent, and appended. */
  function CreateAlert(st: Store, a: Alert, now: int): (h: Handled<Alert>)
    ensures h.saved == Some(AlertsFile)
    ensures h.store == st.(alerts := h.store.alerts)
    ensures |h.store.alerts| == |st.alerts| + 1
    ensures h.store.alerts[..|st.alerts|] == st.alerts
    ensures h.reply.Ok? && h.store.alerts[|st.alerts|] == h.reply.value
    ensures h.reply.value.ts == Some(now)
    ensures h.reply.value.(ts := a.ts) == a
  {
    var stamped := a.(ts := Some(now));
    var al := st.alerts + [stamped];
    assert al[..|st.alerts|] == st.alerts;
    Handled(st.(alerts := al), Ok(stamped), Some(AlertsFile))
  }

  /** `GET /alerts`: every alert in creation order. */
  function ListAlerts(st: Store): seq<Alert> {
    st.alerts
  }

  // ---------------------------------------------------------------------
  // Health
  // ---------------------------------------------------------------------

  datatype HealthReport = HealthReport(
    ok: bool, patients: nat, appointments: nat, alerts: nat, facilities: nat)

  /** `GET /health`: the size of each collection. */
  function Health(st: Store): (r: HealthReport)
    ensures r.ok
    ensures r.patients == |ListPatients(st)| && r.appointments == |ListAppointments(st)|
    ensures r.alerts == |ListAlerts(st)| && r.facilities == |st.facilities|
  {
    HealthReport(true, |st.patients|, |st.appointments|, |st.alerts|, |st.facilities|)
  }
}
