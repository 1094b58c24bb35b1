/** The flat records the CityCare backend keeps in its JSON collections and
    receives as request bodies (the pydantic models of main.py). */
module Records {
  import opened Outcomes

  /** A JSON number carried as the decimal literal it was written with; the
      model never does arithmetic on coordinates, heights, weights or BMI. */
  datatype Float = Float(literal: string)

  /** An `HTTPException`: status code and detail message. */
  datatype HttpError = HttpError(status: int, detail: string)

  /** Body of `POST /auth/login`. */
  datatype LoginReq = LoginReq(userId: string, pin: string)

  /** The `user` object of a login reply; `role` is "doctor" or "patient". */
  datatype User = User(id: string, role: string)

  datatype Facility = Facility(
    id: string,
    name: string,
    kind: string,            // hospital | clinic | pharmacy | ...
    lat: Float,
    lon: Float,
    zone: Option<string>,
    contact: Option<string>,
    beds: Option<int>)

  /** A stored patient record: every optional field may hold JSON null. */
  datatype Patient = Patient(
    userId: string,
    pin: string,
    name: Option<string>,
    age: Option<int>,
    gender: Option<string>,
    heightCm: Option<Float>,
    weightKg: Option<Float>,
    bmi: Option<Float>,
    phone: Option<string>,
    email: Option<string>,
    emergencyContact: Option<string>,
    conditions: Option<string>,
    allergies: Option<string>,
    meds: Option<string>,
    consent: Option<string>,            // none | all | doctors | custom
    shareWith: Option<seq<string>>,
    assignedDoctorId: Option<string>,
    facilityId: Option<string>,
    createdAt: Option<int>,
    updatedAt: Option<int>)

  /** A field of a request body: left out of the JSON object, or sent (possibly
      as null). */
  datatype Field<T> = Omitted | Sent(value: T)

  function OrDefault<T>(f: Field<T>, default: T): T {
    match f
    case Omitted => default
    case Sent(v) => v
  }

  /** The JSON body of `/patients/register` and `/patients/update`;
      `user_id` and `pin` are required, every other field may be left out. */
  datatype PatientBody = PatientBody(
    userId: string,
    pin: string,
    name: Field<Option<string>>,
    age: Field<Option<int>>,
    gender: Field<Option<string>>,
    heightCm: Field<Option<Float>>,
    weightKg: Field<Option<Float>>,
    bmi: Field<Option<Float>>,
    phone: Field<Option<string>>,
    email: Field<Option<string>>,
    emergencyContact: Field<Option<string>>,
    conditions: Field<Option<string>>,
    allergies: Field<Option<string>>,
    meds: Field<Option<string>>,
    consent: Field<Option<string>>,
    shareWith: Field<Option<seq<string>>>,
    assignedDoctorId: Field<Option<string>>,
    facilityId: Field<Option<string>>,
    createdAt: Field<Option<int>>,
    updatedAt: Field<Option<int>>)

  /** The record pydantic builds from a body: each omitted field takes the
      model's default (empty text, no number, consent "none", empty share
      list, no timestamps). */
  function FromBody(b: PatientBody): Patient {
    Patient(
      b.userId, b.pin,
      OrDefault(b.name, Some("")),
      OrDefault(b.age, None),
      OrDefault(b.gender, Some("")),
      OrDefault(b.heightCm, None),
      OrDefault(b.weightKg, None),
      OrDefault(b.bmi, None),
      OrDefault(b.phone, Some("")),
      OrDefault(b.email, Some("")),
      OrDefault(b.emergencyContact, Some("")),
      OrDefault(b.conditions, Some("")),
      OrDefault(b.allergies, Some("")),
      OrDefault(b.meds, Some("")),
      OrDefault(b.consent, Some("none")),
      OrDefault(b.shareWith, Some([])),
      OrDefault(b.assignedDoctorId, Some("")),
      OrDefault(b.facilityId, Some("")),
      OrDefault(b.createdAt, None),
      OrDefault(b.updatedAt, None))
  }

  /** A body carrying only the two required fields. */
  function MinimalBody(userId: string, pin: string): PatientBody {
    PatientBody(userId, pin, Omitted, Omitted, Omitted, Omitted, Omitted, Omitted,
                Omitted, Omitted, Omitted, Omitted, Omitted, Omitted, Omitted,
                Omitted, Omitted, Omitted, Omitted, Omitted)
  }

  /** The record for `userId`/`pin` with every other field at its default,
      written out field by field as the model class declares it. */
  function BlankPatient(userId: string, pin: string): Patient {
    Patient(userId, pin, Some(""), None, Some(""), None, None, None, Some(""),
            Some(""), Some(""), Some(""), Some(""), Some(""), Some("none"),
            Some([]), Some(""), Some(""), None, None)
  }

  /** Every field the caller leaves out is reset to the model default: a body
      with only the credentials yields the blank record. */
  lemma OmittedFieldsTakeDefaults(userId: string, pin: string)
    ensures FromBody(MinimalBody(userId, pin)) == BlankPatient(userId, pin)
  {
  }

  /** `p` with its two timestamps set. */
  function Stamp(p: Patient, created: Option<int>, updated: Option<int>): Patient {
    p.(createdAt := created, updatedAt := updated)
  }

  /** `p` and `q` agree on every field except the timestamps. */
  predicate SameExceptTimestamps(p: Patient, q: Patient) {
    Stamp(p, None, None) == Stamp(q, None, None)
  }

  datatype Appointment = Appointment(
    patientId: string,
    doctorId: string,
    date: string,
    time: string,
    reason: string)

  datatype Alert = Alert(
    title: string,
    msg: string,
    kind: string,            // med | report | emergency | other
    target: Option<string>,
    ts: Option<int>)
}
