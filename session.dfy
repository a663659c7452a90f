/**
 * The portal's session (App.tsx, `App` and `LoginView`): which screen is
 * shown, who is signed in, the profile in use and the loaded ledger, and the
 * handlers that move between screens and write to the store.
 */
module Session {
  import opened Records
  import opened Text
  import opened Store
  import opened Ledger
  import opened Booking

  datatype View = Welcome | Login | Onboarding | Home | Dashboard | Prescriptions | Settings | Appointments

  /** The screens drawn inside the sidebar layout, shown only once signed in. */
  predicate InShell(v: View)
  {
    v != Welcome && v != Login && v != Onboarding
  }

  /** The sidebar's entries. */
  datatype NavTarget = GoHome | GoDashboard | GoAppointments | GoPrescriptions | GoSettings | GoLogout

  function TargetView(t: NavTarget): (v: View)
    requires t != GoLogout
    ensures InShell(v)
  {
    match t
    case GoHome => Home
    case GoDashboard => Dashboard
    case GoAppointments => Appointments
    case GoPrescriptions => Prescriptions
    case GoSettings => Settings
  }

  /** The outcome of the login form's checks, in the order they are made. */
  datatype LoginCheck = Accepted | InvalidEmail | BadPin

  /** `LoginView.handleSubmit`: the email must contain '@' (reported first),
      then the PIN must be exactly six UTF-16 units long. */
  function CheckLogin(email: string, pin: string): (r: LoginCheck)
    ensures r == Accepted <==> '@' in email && Utf16Length(pin) == 6
    ensures r == InvalidEmail <==> '@' !in email
    ensures r == BadPin <==> '@' in email && Utf16Length(pin) != 6
  {
    if '@' !in email then InvalidEmail
    else if Utf16Length(pin) != 6 then BadPin
    else Accepted
  }

  /** A PIN of six characters of the Basic Multilingual Plane passes the length check. */
  lemma SixDigitPinAccepted(email: string, pin: string)
    requires '@' in email && |pin| == 6
    requires forall i :: 0 <= i < |pin| ==> IsDigit(pin[i])
    ensures CheckLogin(email, pin) == Accepted
  {
  }

  /**
   * The store after a profile is saved (onboarding or settings): a doctor is
   * first upserted into the registry under the session email, then the
   * profile is written under the role's key for the normalised session
   * email. An unreadable registry makes the doctor's save throw before
   * anything is written.
   */
  function SaveProfile(entries: Entries, role: Role, userEmail: string, p: Profile): (r: Result<Entries>)
    requires ProfileRole(p) == role
    ensures r.Err? <==> role == Doctor && GetGlobalDoctors(entries).Err?
  {
    var key := ProfileKey(role, Normalize(userEmail));
    match p
    case PatientProfile(_) => Ok(entries[key := ProfileRecord(p)])
    case DoctorProfile(d) =>
      match GetGlobalDoctors(entries)
      case Err(e) => Err(e)
      case Ok(reg) => Ok(entries[DoctorsKey := DoctorList(Upsert(reg, d.(email := Some(userEmail))))][key := ProfileRecord(p)])
  }

  /**
   * A saved patient profile is what a later login reads back, for any email
   * that normalises to the session email, and what the patient lookup
   * finds; the registry and the ledger are untouched.
   */
  lemma SavedPatientIsFound(entries: Entries, loginEmail: string, p: PatientDetails, nextLogin: string)
    requires Normalize(nextLogin) == Normalize(loginEmail)
    ensures SaveProfile(entries, Patient, Normalize(loginEmail), PatientProfile(p)).Ok?
    ensures var e := SaveProfile(entries, Patient, Normalize(loginEmail), PatientProfile(p)).value;
      && LoadProfile(e, Patient, Normalize(nextLogin)) == Ok(Some(PatientProfile(p)))
      && GetPatientDataByEmail(e, nextLogin) == Ok(Some(p))
      && GetGlobalDoctors(e) == GetGlobalDoctors(entries)
      && GetGlobalAppointments(e) == GetGlobalAppointments(entries)
  {
    var session := Normalize(loginEmail);
    NormalizeIdempotent(loginEmail);
    ProfileRoundTrip(entries, Patient, session, PatientProfile(p));
    PatientLookupRoundTrip(entries, nextLogin, session, p);
    ProfileWriteKeepsCollections(entries, Patient, session, ProfileRecord(PatientProfile(p)));
  }

  /**
   * A saved doctor profile is what a later login reads back, for any email
   * that normalises to the session email; the registry then holds exactly
   * one entry under the session email, the form's details with that email;
   * the ledger is untouched.
   */
  lemma SavedDoctorIsFound(entries: Entries, loginEmail: string, d: DoctorDetails, nextLogin: string)
    requires Normalize(nextLogin) == Normalize(loginEmail)
    requires GetGlobalDoctors(entries).Ok?
    ensures SaveProfile(entries, Doctor, Normalize(loginEmail), DoctorProfile(d)).Ok?
    ensures var e := SaveProfile(entries, Doctor, Normalize(loginEmail), DoctorProfile(d)).value;
      && LoadProfile(e, Doctor, Normalize(nextLogin)) == Ok(Some(DoctorProfile(d)))
      && GetGlobalDoctors(e).Ok?
      && WithEmail(GetGlobalDoctors(e).value, Some(Normalize(loginEmail))) == [d.(email := Some(Normalize(loginEmail)))]
      && GetGlobalAppointments(e) == GetGlobalAppointments(entries)
  {
    var session := Normalize(loginEmail);
    NormalizeIdempotent(loginEmail);
    DoctorSaveWrites(entries, session, d);
    UpsertOwnEntry(GetGlobalDoctors(entries).value, d.(email := Some(session)));
  }

  /** The two writes of a doctor's save, under an already normalised session email. */
  lemma DoctorSaveWrites(entries: Entries, session: string, d: DoctorDetails)
    requires GetGlobalDoctors(entries).Ok? && Normalize(session) == session
    ensures SaveProfile(entries, Doctor, session, DoctorProfile(d)).Ok?
    ensures var e := SaveProfile(entries, Doctor, session, DoctorProfile(d)).value;
      && LoadProfile(e, Doctor, session) == Ok(Some(DoctorProfile(d)))
      && GetGlobalDoctors(e) == Ok(Upsert(GetGlobalDoctors(entries).value, d.(email := Some(session))))
      && GetGlobalAppointments(e) == GetGlobalAppointments(entries)
  {
    var e := SaveProfile(entries, Doctor, session, DoctorProfile(d)).value;
    assert AppointmentsKey in e <==> AppointmentsKey in entries;
  }

  /** The key onboarding writes (session email normalised again) is the key login reads. */
  lemma OnboardingKeyIsLoginKey(role: Role, email: string)
    ensures ProfileKey(role, Normalize(Normalize(email))) == ProfileKey(role, Normalize(email))
  {
    NormalizeIdempotent(email);
  }

  /**
   * A save under a normalised session email, of a doctor profile carrying
   * that email, keeps every stored doctor profile under its own email.
   */
  lemma SaveProfileKeepsOwnEmails(entries: Entries, role: Role, userEmail: string, p: Profile)
    requires ProfileRole(p) == role && DoctorProfilesOwnEmail(entries)
    requires Normalize(userEmail) == userEmail
    requires p.DoctorProfile? ==> p.doctor.email == Some(userEmail)
    requires SaveProfile(entries, role, userEmail, p).Ok?
    ensures DoctorProfilesOwnEmail(SaveProfile(entries, role, userEmail, p).value)
  {
    var key := ProfileKey(role, userEmail);
    var e := SaveProfile(entries, role, userEmail, p).value;
    forall x | ProfileKey(Doctor, x) in e && e[ProfileKey(Doctor, x)].ProfileRecord?
      && e[ProfileKey(Doctor, x)].details.DoctorProfile?
      ensures e[ProfileKey(Doctor, x)].details.doctor.email == Some(x)
    {
      if ProfileKey(Doctor, x) != key {
        assert ProfileKey(Doctor, x) in entries && e[ProfileKey(Doctor, x)] == entries[ProfileKey(Doctor, x)];
      }
    }
  }

  /** The app component's state, over a record store it shares with nothing else. */
  class Portal {
    const storage: LocalStore
    var role: Role
    var view: View
    var userEmail: string
    var patientDetails: Option<PatientDetails>
    var doctorDetails: Option<DoctorDetails>
    var appointments: seq<BookedAppointment>

    /**
     * Only the current role's profile is ever loaded; nothing is loaded
     * before login; and a screen of the sidebar layout always has the role's
     * profile to show.
     */
    ghost predicate Valid()
      reads this, storage
    {
      && IsLowered(userEmail) && Trimmed(userEmail)
      && DoctorProfilesOwnEmail(storage.entries)
      && (doctorDetails.Some? ==> doctorDetails.value.email == Some(userEmail))
      && (role == Patient ==> doctorDetails.None?)
      && (role == Doctor ==> patientDetails.None?)
      && ((view == Welcome || view == Login) ==> patientDetails.None? && doctorDetails.None?)
      && (InShell(view) ==> (role == Patient ==> patientDetails.Some?) && (role == Doctor ==> doctorDetails.Some?))
    }

    /** `filteredAppointments`: the loaded bookings the signed-in user may see. */
    function Filtered(): (r: seq<BookedAppointment>)
      reads this
      ensures |r| <= |appointments|
    {
      Visible(appointments, role, userEmail)
    }

    /** `patientDetails?.fullName || ''`, the name a new booking carries. */
    function BookingPatientName(): (name: string)
      reads this
      ensures patientDetails.None? ==> name == ""
      ensures patientDetails.Some? ==> name == patientDetails.value.fullName
    {
      if patientDetails.Some? then patientDetails.value.fullName else ""
    }

    /** `myQueue` of the doctor's dashboard: bookings carrying the profile's email. */
    function DashboardQueue(): (r: seq<BookedAppointment>)
      reads this
      requires doctorDetails.Some?
      ensures |r| <= |appointments|
    {
      DoctorQueue(appointments, doctorDetails.value.email)
    }

    /**
     * On a consistent state the dashboard's queue is the doctor's visible
     * list, so a booking with a staff doctor (no email) is on neither.
     */
    lemma DashboardQueueIsFiltered(a: BookedAppointment)
      requires Valid() && doctorDetails.Some?
      ensures DashboardQueue() == Filtered()
      ensures a.doctorEmail.None? ==> a !in DashboardQueue()
    {
      assert role == Doctor;
      if a.doctorEmail.None? {
        StaffBookingInNoQueue(appointments, a, userEmail);
      }
    }

    /** What a login leaves behind, given the state before it. */
    ghost predicate LoggedIn(email: string, entries: Entries, view0: View,
                             patient0: Option<PatientDetails>, doctor0: Option<DoctorDetails>)
      reads this
    {
      && userEmail == Normalize(email)
      && match LoadProfile(entries, role, userEmail)
         case Err(_) => view == view0 && patientDetails == patient0 && doctorDetails == doctor0
         case Ok(None) => view == Onboarding && patientDetails == patient0 && doctorDetails == doctor0
         case Ok(Some(p)) =>
           && view == Home
           && (p.PatientProfile? ==> patientDetails == Some(p.patient) && doctorDetails == doctor0)
           && (p.DoctorProfile? ==> doctorDetails == Some(p.doctor) && patientDetails == patient0)
    }

    constructor (store: LocalStore)
      requires DoctorProfilesOwnEmail(store.entries)
      ensures storage == store && Valid()
      ensures role == Patient && view == Welcome && userEmail == ""
      ensures patientDetails == None && doctorDetails == None && appointments == []
    {
      storage := store;
      role, view, userEmail := Patient, Welcome, "";
      patientDetails, doctorDetails, appointments := None, None, [];
    }

    /** Choosing a portal on the welcome screen. */
    method SelectRole(r: Role)
      requires view == Welcome && Valid()
      modifies this
      ensures Valid()
      ensures role == r && view == Login
      ensures userEmail == old(userEmail) && patientDetails == old(patientDetails)
      ensures doctorDetails == old(doctorDetails) && appointments == old(appointments)
    {
      role := r;
      view := Login;
    }

    /** "Back to Portal Selection" on the login screen. */
    method BackToWelcome()
      requires view == Login && Valid()
      modifies this
      ensures Valid()
      ensures view == Welcome
      ensures role == old(role) && userEmail == old(userEmail) && patientDetails == old(patientDetails)
      ensures doctorDetails == old(doctorDetails) && appointments == old(appointments)
    {
      view := Welcome;
    }

    /**
     * `handleLoginSuccess`: the email is normalised and becomes the session
     * email; a stored profile for (role, email) is loaded and leads home,
     * none leads to onboarding. A stored value that does not decode makes
     * the handler throw after the session email was set.
     */
    method HandleLoginSuccess(email: string) returns (ok: bool)
      requires view == Login && Valid()
      modifies this
      ensures Valid()
      ensures ok <==> LoadProfile(storage.entries, role, userEmail).Ok?
      ensures LoggedIn(email, storage.entries, old(view), old(patientDetails), old(doctorDetails))
      ensures role == old(role) && appointments == old(appointments)
    {
      var normalized := Normalize(email);
      NormalizeShape(email);
      userEmail := normalized;
      var loaded := LoadProfile(storage.entries, role, normalized);
      match loaded {
        case Err(_) =>
          return false;
        case Ok(None) =>
          view := Onboarding;
        case Ok(Some(p)) =>
          if p.PatientProfile? {
            patientDetails := Some(p.patient);
          } else {
            doctorDetails := Some(p.doctor);
          }
          view := Home;
      }
      ok := true;
    }

    /** Submitting the login form: the checks, then the login itself. */
    method SubmitLogin(email: string, pin: string) returns (check: LoginCheck, ok: bool)
      requires view == Login && Valid()
      modifies this
      ensures Valid()
      ensures check == CheckLogin(email, pin)
      ensures check != Accepted ==> !ok && unchanged(this)
      ensures check == Accepted ==> (ok <==> LoadProfile(storage.entries, role, Normalize(email)).Ok?)
      ensures check == Accepted ==> LoggedIn(email, storage.entries, old(view), old(patientDetails), old(doctorDetails))
      ensures role == old(role) && appointments == old(appointments)
    {
      check := CheckLogin(email, pin);
      if check != Accepted {
        return check, false;
      }
      ok := HandleLoginSuccess(email);
    }

    /**
     * The store half of a profile save: a doctor is upserted into the
     * registry under the session email, then the profile is written under
     * the role's key; an unreadable registry stops the save before any write.
     */
    method WriteProfile(details: Profile) returns (ok: bool)
      requires ProfileRole(details) == role
      modifies storage
      ensures ok <==> SaveProfile(old(storage.entries), role, userEmail, details).Ok?
      ensures ok ==> storage.entries == SaveProfile(old(storage.entries), role, userEmail, details).value
      ensures !ok ==> storage.entries == old(storage.entries)
    {
      var key := ProfileKey(role, Normalize(userEmail));
      if details.DoctorProfile? {
        var saved := storage.SaveGlobalDoctor(details.doctor.(email := Some(userEmail)));
        if !saved {
          return false;
        }
      }
      storage.SetItem(key, ProfileRecord(details));
      ok := true;
    }

    /**
     * What onboarding and settings share: the profile becomes the role's
     * loaded profile, and it is saved to the store.
     */
    method SaveDetails(details: Profile) returns (ok: bool)
      requires ProfileRole(details) == role
      modifies this, storage
      ensures role == old(role) && userEmail == old(userEmail)
      ensures ok <==> SaveProfile(old(storage.entries), role, userEmail, details).Ok?
      ensures ok ==> storage.entries == SaveProfile(old(storage.entries), role, userEmail, details).value
      ensures !ok ==> storage.entries == old(storage.entries)
      ensures role == Patient ==> patientDetails == Some(details.patient) && doctorDetails == old(doctorDetails)
      ensures role == Doctor ==> doctorDetails == Some(details.doctor) && patientDetails == old(patientDetails)
      ensures view == old(view) && appointments == old(appointments)
    {
      if details.PatientProfile? {
        patientDetails := Some(details.patient);
      } else {
        doctorDetails := Some(details.doctor);
      }
      ok := WriteProfile(details);
    }

    /** `handleOnboardingComplete`: save the new profile, then go home. */
    method HandleOnboardingComplete(details: Profile) returns (ok: bool)
      requires view == Onboarding && ProfileRole(details) == role && Valid()
      requires details.DoctorProfile? ==> details.doctor.email == Some(userEmail)
      modifies this, storage
      ensures role == old(role) && userEmail == old(userEmail)
      ensures Valid()
      ensures ok <==> SaveProfile(old(storage.entries), role, userEmail, details).Ok?
      ensures ok ==> storage.entries == SaveProfile(old(storage.entries), role, userEmail, details).value && view == Home
      ensures !ok ==> storage.entries == old(storage.entries) && view == old(view)
      ensures role == Patient ==> patientDetails == Some(details.patient) && doctorDetails == old(doctorDetails)
      ensures role == Doctor ==> doctorDetails == Some(details.doctor) && patientDetails == old(patientDetails)
      ensures appointments == old(appointments)
    {
      NormalFormIsFixed(userEmail);
      ghost var before := storage.entries;
      ok := SaveDetails(details);
      if ok {
        SaveProfileKeepsOwnEmails(before, role, userEmail, details);
        view := Home;
      }
    }

    /** `handleUpdateDetails` (the settings form): save the profile, stay on the screen. */
    method HandleUpdateDetails(details: Profile) returns (ok: bool)
      requires view == Settings && ProfileRole(details) == role && Valid()
      requires details.DoctorProfile? ==> details.doctor.email == Some(userEmail)
      modifies this, storage
      ensures role == old(role) && userEmail == old(userEmail)
      ensures Valid()
      ensures ok <==> SaveProfile(old(storage.entries), role, userEmail, details).Ok?
      ensures ok ==> storage.entries == SaveProfile(old(storage.entries), role, userEmail, details).value
      ensures !ok ==> storage.entries == old(storage.entries)
      ensures role == Patient ==> patientDetails == Some(details.patient) && doctorDetails == old(doctorDetails)
      ensures role == Doctor ==> doctorDetails == Some(details.doctor) && patientDetails == old(patientDetails)
      ensures view == old(view) && appointments == old(appointments)
    {
      NormalFormIsFixed(userEmail);
      ghost var before := storage.entries;
      ok := SaveDetails(details);
      if ok {
        SaveProfileKeepsOwnEmails(before, role, userEmail, details);
      }
    }

    /**
     * `handleBooking`: the booking is appended to the stored ledger and to
     * the loaded list, so it joins the list of whoever may see it. An
     * unreadable ledger makes the save throw and nothing changes.
     */
    method HandleBooking(a: BookedAppointment) returns (ok: bool)
      requires Valid()
      modifies this, storage
      ensures Valid()
      ensures ok <==> old(GetGlobalAppointments(storage.entries)).Ok?
      ensures ok ==> GetGlobalAppointments(storage.entries) == Ok(old(GetGlobalAppointments(storage.entries)).value + [a])
      ensures ok ==> storage.entries == old(storage.entries)[AppointmentsKey := AppointmentList(old(GetGlobalAppointments(storage.entries)).value + [a])]
      ensures ok ==> appointments == old(appointments) + [a]
      ensures ok ==> Filtered() == old(Filtered()) + (if a in Visible([a], role, userEmail) then [a] else [])
      ensures !ok ==> storage.entries == old(storage.entries) && appointments == old(appointments)
      ensures role == old(role) && view == old(view) && userEmail == old(userEmail)
      ensures patientDetails == old(patientDetails) && doctorDetails == old(doctorDetails)
    {
      ok := storage.SaveGlobalAppointment(a);
      if ok {
        VisibleAfterAppend(appointments, a, role, userEmail);
        appointments := appointments + [a];
      }
    }

    /** The effect that reloads the ledger; reading an unreadable ledger throws. */
    method RefreshAppointments() returns (ok: bool)
      requires Valid()
      modifies this
      ensures Valid()
      ensures ok <==> GetGlobalAppointments(storage.entries).Ok?
      ensures ok ==> appointments == GetGlobalAppointments(storage.entries).value
      ensures !ok ==> appointments == old(appointments)
      ensures role == old(role) && view == old(view) && userEmail == old(userEmail)
      ensures patientDetails == old(patientDetails) && doctorDetails == old(doctorDetails)
    {
      var read := GetGlobalAppointments(storage.entries);
      if read.Err? {
        return false;
      }
      appointments := read.value;
      ok := true;
    }

    /** `handleLogout`: back to the welcome screen with no one signed in; the store is kept. */
    method HandleLogout()
      requires Valid()
      modifies this
      ensures Valid()
      ensures view == Welcome && userEmail == "" && patientDetails == None && doctorDetails == None
      ensures role == old(role) && appointments == old(appointments)
      ensures storage.entries == old(storage.entries)
    {
      view, userEmail := Welcome, "";
      patientDetails, doctorDetails := None, None;
    }

    /** A sidebar click: log out, or switch screen. */
    method Navigate(t: NavTarget)
      requires InShell(view) && Valid()
      modifies this
      ensures Valid()
      ensures t == GoLogout ==> view == Welcome && userEmail == "" && patientDetails == None && doctorDetails == None
      ensures t != GoLogout ==>
        view == TargetView(t) && userEmail == old(userEmail)
        && patientDetails == old(patientDetails) && doctorDetails == old(doctorDetails)
      ensures role == old(role) && appointments == old(appointments)
      ensures storage.entries == old(storage.entries)
    {
      if t == GoLogout {
        HandleLogout();
      } else {
        view := TargetView(t);
      }
    }

    /**
     * "Confirm & Pay" in the booking dialog: the form's booking, made out to
     * the session's patient, is handed to `handleBooking`; an incomplete
     * form books nothing.
     */
    method ConfirmBooking(form: BookingForm, id: string) returns (r: Option<BookedAppointment>, ok: bool)
      requires InShell(view) && Valid()
      modifies this, storage
      ensures Valid()
      ensures r.None? <==> form.doctor.None? || form.date == "" || form.time == ""
      ensures r.Some? ==> r.value == BookedAppointment(id, form.date, form.area, form.hospital, form.doctor.value.name,
        form.doctor.value.email, form.time, old(userEmail), old(BookingPatientName()), Paid)
      ensures r.None? ==> !ok && unchanged(this) && storage.entries == old(storage.entries)
      ensures r.Some? ==> (ok <==> old(GetGlobalAppointments(storage.entries)).Ok?)
      ensures ok ==> appointments == old(appointments) + [r.value]
      ensures ok ==> GetGlobalAppointments(storage.entries) == Ok(old(GetGlobalAppointments(storage.entries)).value + [r.value])
      ensures ok && role == Patient ==> Filtered() == old(Filtered()) + [r.value]
      ensures role == old(role) && view == old(view) && userEmail == old(userEmail)
      ensures patientDetails == old(patientDetails) && doctorDetails == old(doctorDetails)
    {
      r := form.Confirm(id, BookingPatientName(), userEmail);
      if r.None? {
        return r, false;
      }
      ok := HandleBooking(r.value);
    }
  }
}
