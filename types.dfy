/** The client's record types (src/types/index.ts). Instants that the
    source keeps as ISO strings are integer milliseconds since the epoch. */
module Types {

  datatype Option<+T> = None | Some(value: T)

  /** Milliseconds since the epoch. */
  type Instant = int

  datatype Role = Unassigned | PatientRole | DoctorRole | AdminRole

  datatype VerificationStatus = Pending | Verified | Rejected

  datatype User = User(
    id: string,
    clerkUserId: string,
    email: string,
    name: string,
    imageUrl: Option<string>,
    role: Role,
    credits: int,
    specialty: Option<string>,
    experience: Option<real>,
    credentialUrl: Option<string>,
    description: Option<string>,
    verificationStatus: Option<VerificationStatus>,
    createdAt: string,
    updatedAt: string)

  /** A user whose role is DOCTOR: the profile fields are mandatory. */
  datatype Doctor = Doctor(
    id: string,
    clerkUserId: string,
    email: string,
    name: string,
    imageUrl: Option<string>,
    credits: int,
    specialty: string,
    experience: real,
    credentialUrl: string,
    description: string,
    verificationStatus: VerificationStatus,
    createdAt: string,
    updatedAt: string)

  datatype Status = Scheduled | Completed | Cancelled

  datatype Appointment = Appointment(
    id: string,
    patientId: string,
    doctorId: string,
    startTime: Instant,
    endTime: Instant,
    status: Status,
    notes: Option<string>,
    patientDescription: Option<string>,
    videoSessionId: Option<string>,
    videoSessionToken: Option<string>,
    createdAt: string,
    updatedAt: string)

  datatype AvailabilityStatus = Available | Booked | Blocked

  datatype Availability = Availability(
    id: string,
    doctorId: string,
    startTime: Instant,
    endTime: Instant,
    status: AvailabilityStatus)

  datatype TimeSlot = TimeSlot(startTime: Instant, endTime: Instant, formatted: string, day: string)

  datatype AvailableDay = AvailableDay(date: string, displayDate: string, slots: seq<TimeSlot>)

  /** The wire name of an appointment status: one of the three names of the
      `status` union. */
  function StatusName(s: Status): (r: string)
    ensures r in {"SCHEDULED", "COMPLETED", "CANCELLED"}
  {
    match s
    case Scheduled => "SCHEDULED"
    case Completed => "COMPLETED"
    case Cancelled => "CANCELLED"
  }

  /** Distinct statuses have distinct wire names, so a screen that switches
      on the name tells the statuses apart. */
  lemma StatusNamesDistinct(s: Status, t: Status)
    ensures s != t ==> StatusName(s) != StatusName(t)
  {
  }
}
