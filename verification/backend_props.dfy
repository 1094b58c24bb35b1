/** Properties that relate several CityCare backend handlers: what a
    sequence of requests leaves in the collections and what later requests
    then see. */
module StoreProperties {
  import opened Outcomes
  import opened Seqs
  import opened Records
  import opened Backend

  // ---------------------------------------------------------------------
  // Registration
  // ---------------------------------------------------------------------

  /** Registration never rejects a duplicate: registering an identifier adds
      one more record carrying it, however many were there before. */
  lemma RegisterAddsDuplicate(st: Store, body: PatientBody, now: int)
    ensures var h := RegisterPatient(st, body, now);
      Count(h.store.patients, IdIs(body.userId)) == Count(st.patients, IdIs(body.userId)) + 1
  {
    var h := RegisterPatient(st, body, now);
    assert h.store.patients == st.patients + [h.reply.value];
    CountAppend(st.patients, h.reply.value, IdIs(body.userId));
  }

  /** A lookup after registration finds the new record only when the
      identifier was unused; otherwise the earlier record keeps answering,
      so a re-registered identifier is shadowed by its first record. */
  lemma RegisterThenGet(st: Store, body: PatientBody, now: int)
    ensures var h := RegisterPatient(st, body, now);
      GetPatientById(h.store, body.userId) ==
        if Any(st.patients, IdIs(body.userId)) then GetPatientById(st, body.userId)
        else Ok(h.reply.value)
  {
    var h := RegisterPatient(st, body, now);
    var s := st.patients;
    var s' := h.store.patients;
    assert s' == s + [h.reply.value];
    match FirstWhere(s, IdIs(body.userId))
    case Some(i) =>
      assert IsFirst(s', IdIs(body.userId), i);
    case None =>
      assert IsFirst(s', IdIs(body.userId), |s|);
  }

  /** The listings return the collections in insertion order: each create
      handler's record comes last, after everything listed before. */
  lemma ListingsFollowInsertionOrder(st: Store, body: PatientBody, a: Appointment, al: Alert, now: int)
    ensures var h := RegisterPatient(st, body, now);
      ListPatients(h.store) == ListPatients(st) + [h.reply.value]
    ensures ListAppointments(BookAppointment(st, a).store) == ListAppointments(st) + [a]
    ensures var h := CreateAlert(st, al, now);
      ListAlerts(h.store) == ListAlerts(st) + [al.(ts := Some(now))]
  {
    var h1 := RegisterPatient(st, body, now);
    assert h1.store.patients == h1.store.patients[..|st.patients|] + [h1.store.patients[|st.patients|]];
    var h2 := BookAppointment(st, a);
    assert h2.store.appointments == h2.store.appointments[..|st.appointments|] + [a];
    var h3 := CreateAlert(st, al, now);
    assert h3.store.alerts == h3.store.alerts[..|st.alerts|] + [h3.store.alerts[|st.alerts|]];
  }

  // ---------------------------------------------------------------------
  // Update
  // ---------------------------------------------------------------------

  /** An update leaves every record's identifier and pin as they were, so
      the set of credentials in the store is invariant. */
  lemma UpdateKeepsCredentials(st: Store, body: PatientBody, now: int)
    ensures var h := UpdatePatient(st, body, now);
      forall j :: 0 <= j < |st.patients| ==>
        h.store.patients[j].userId == st.patients[j].userId
        && h.store.patients[j].pin == st.patients[j].pin
  {
    match FirstWhere(st.patients, CredentialsAre(body.userId, body.pin))
    case None =>
    case Some(i) =>
      assert CredentialsAre(body.userId, body.pin)(st.patients[i]);
  }

  /** An update replaces rather than patches: a body carrying only the
      credentials resets every profile field of the matched record to its
      default, whatever it held before; only the creation time survives. */
  lemma UpdateResetsOmittedFields(st: Store, userId: string, pin: string, now: int, i: int)
    requires IsFirst(st.patients, CredentialsAre(userId, pin), i)
    ensures var h := UpdatePatient(st, MinimalBody(userId, pin), now);
      && h.reply == Ok(Stamp(BlankPatient(userId, pin), st.patients[i].createdAt, Some(now)))
      && h.store.patients[i] == h.reply.value
  {
    OmittedFieldsTakeDefaults(userId, pin);
  }

  /** Repeating an update only moves the update time: the second call hits
      the same record, and the store ends as if only the later call had been
      made. */
  lemma UpdateTwiceIsUpdateOnce(st: Store, body: PatientBody, t1: int, t2: int)
    ensures UpdatePatient(UpdatePatient(st, body, t1).store, body, t2) == UpdatePatient(st, body, t2)
  {
    var p := CredentialsAre(body.userId, body.pin);
    var h1 := UpdatePatient(st, body, t1);
    match FirstWhere(st.patients, p)
    case None =>
    case Some(i) =>
      var s1 := h1.store.patients;
      assert s1 == st.patients[i := Replacement(st.patients[i], body, t1)];
      assert IsFirst(s1, p, i);
      assert Replacement(s1[i], body, t2) == Replacement(st.patients[i], body, t2);
  }

  /** An update right after a registration with credentials no earlier record
      carries hits the newly registered record and keeps its creation time. */
  lemma RegisterThenUpdate(st: Store, reg: PatientBody, upd: PatientBody, t1: int, t2: int)
    requires upd.userId == reg.userId && upd.pin == reg.pin
    requires !Any(st.patients, CredentialsAre(reg.userId, reg.pin))
    ensures var s := RegisterPatient(st, reg, t1).store;
      var h := UpdatePatient(s, upd, t2);
      && h.reply == Ok(Stamp(FromBody(upd), Some(t1), Some(t2)))
      && h.store.patients == st.patients + [h.reply.value]
  {
    var s := RegisterPatient(st, reg, t1).store;
    var p := CredentialsAre(reg.userId, reg.pin);
    assert s.patients == st.patients + [s.patients[|st.patients|]];
    assert IsFirst(s.patients, p, |st.patients|);
  }

  /** Because duplicates are allowed, an update can land on a record that
      lookups never reach: when an earlier record carries the same identifier
      with another pin, `GET /patients/{user_id}` answers exactly as before
      the update. */
  lemma UpdateBehindShadowIsInvisible(st: Store, body: PatientBody, now: int, i: int, j: int)
    requires IsFirst(st.patients, CredentialsAre(body.userId, body.pin), i)
    requires IsFirst(st.patients, IdIs(body.userId), j)
    requires j < i
    ensures GetPatientById(UpdatePatient(st, body, now).store, body.userId) == GetPatientById(st, body.userId)
  {
    var s' := UpdatePatient(st, body, now).store.patients;
    assert s' == st.patients[i := s'[i]];
    assert IsFirst(s', IdIs(body.userId), j);
  }

  /** A failed update tells the caller nothing about which identifiers exist:
      any two stores in which no record matches the credentials give the
      same reply, whether the identifier is unknown or the pin is wrong. */
  lemma UpdateErrorHidesExistence(st1: Store, st2: Store, body: PatientBody, t1: int, t2: int)
    requires !Any(st1.patients, CredentialsAre(body.userId, body.pin))
    requires !Any(st2.patients, CredentialsAre(body.userId, body.pin))
    ensures UpdatePatient(st1, body, t1).reply == UpdatePatient(st2, body, t2).reply
  {
  }

  // ---------------------------------------------------------------------
  // Appointments
  // ---------------------------------------------------------------------

  /** The doctor listing is the only order-preserving selection of the
      doctor's appointments that leaves none of them out. */
  lemma ListForDoctorIsExact(st: Store, doctorId: string, r: seq<Appointment>)
    requires IsSubsequence(r, st.appointments)
    requires forall a :: a in r ==> a.doctorId == doctorId
    requires |r| == Count(st.appointments, DoctorIs(doctorId))
    ensures r == ListForDoctor(st, doctorId)
  {
    FilterUnique(r, st.appointments, DoctorIs(doctorId));
  }

  /** Booking an appointment with doctor `d` adds it at the end of `d`'s
      listing and leaves every other doctor's listing as it was. */
  lemma BookThenListForDoctor(st: Store, a: Appointment, doctorId: string)
    ensures var s := BookAppointment(st, a).store;
      ListForDoctor(s, doctorId) ==
        if a.doctorId == doctorId then ListForDoctor(st, doctorId) + [a]
        else ListForDoctor(st, doctorId)
  {
    var s := BookAppointment(st, a).store;
    assert s.appointments == st.appointments + [a];
    FilterAppend(st.appointments, a, DoctorIs(doctorId));
  }

  // ---------------------------------------------------------------------
  // Facilities and health
  // ---------------------------------------------------------------------

  /** A second facilities request changes nothing and writes nothing: the
      seeding happens at most once. */
  lemma GetFacilitiesIdempotent(st: Store)
    ensures var h := GetFacilities(st);
      GetFacilities(h.store) == Handled(h.store, h.reply, None)
    ensures |GetFacilities(st).store.facilities| > 0
  {
  }

  /** The health counters move exactly with the handlers that add records:
      one more patient, appointment or alert per create call, none for an
      update, four facilities after seeding an empty catalogue. */
  lemma HealthTracksHandlers(st: Store, body: PatientBody, a: Appointment, al: Alert, now: int)
    ensures var r := Health(RegisterPatient(st, body, now).store);
      r == Health(st).(patients := Health(st).patients + 1)
    ensures var r := Health(BookAppointment(st, a).store);
      r == Health(st).(appointments := Health(st).appointments + 1)
    ensures var r := Health(CreateAlert(st, al, now).store);
      r == Health(st).(alerts := Health(st).alerts + 1)
    ensures Health(UpdatePatient(st, body, now).store) == Health(st)
    ensures |st.facilities| == 0 ==> Health(GetFacilities(st).store).facilities == 4
  {
  }
}
