/**
 * The record shapes of the portal (types.ts): patient and doctor profiles,
 * booked appointments, and the two roles a session can take.
 * Optional fields of the source (`email?`, `doctorEmail?`, `string | null`)
 * are explicit `Option` values.
 */
module Records {

  datatype Option<+T> = None | Some(value: T)

  /** The outcome of an operation that may throw while decoding a stored value. */
  datatype Result<+T> = Ok(value: T) | Err(error: Failure)

  datatype Failure =
    | DecodeError     // a stored value that JSON.parse rejects or that has the wrong shape

  datatype Role = Patient | Doctor

  /** The role's name as it appears inside storage keys. */
  function RoleName(r: Role): (s: string)
    ensures |s| > 0
  {
    match r
    case Patient => "patient"
    case Doctor => "doctor"
  }

  datatype PatientDetails = PatientDetails(
    fullName: string,
    dateOfBirth: string,
    age: string,
    bloodGroup: string,
    height: string,
    weight: string,
    lastBloodTest: string,
    hasBloodPressure: bool,
    hasBloodSugar: bool,
    hasThyroid: bool,
    recentSurgeries: string,
    previousDoctor: string,
    latestMedicines: seq<string>,
    profilePicture: Option<string>)

  datatype DoctorDetails = DoctorDetails(
    email: Option<string>,
    fullName: string,
    age: string,
    specialization: string,
    hospitalName: string,
    experienceYears: string,
    licenseNumber: string,
    consultationFee: string,
    profilePicture: Option<string>)

  datatype PaymentStatus = Paid | Pending | Refunded

  datatype BookedAppointment = BookedAppointment(
    id: string,
    date: string,
    area: string,
    hospital: string,
    doctor: string,
    doctorEmail: Option<string>,   // present only for a registered doctor
    time: string,
    patientEmail: string,
    patientName: string,
    paymentStatus: PaymentStatus)

  /** The `details` of a stored profile: a patient's or a doctor's form. */
  datatype Profile = PatientProfile(patient: PatientDetails) | DoctorProfile(doctor: DoctorDetails)

  function ProfileRole(p: Profile): (r: Role)
    ensures r == Patient <==> p.PatientProfile?
  {
    match p
    case PatientProfile(_) => Patient
    case DoctorProfile(_) => Doctor
  }
}
