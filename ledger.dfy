/**
 * Who sees which booking: the patient's list and the sidebar badge filter
 * the ledger on the patient's email, the doctor's views filter it on the
 * doctor's email (App.tsx, `myQueue` and `filteredAppointments`).
 */
module Ledger {
  import opened Records

  /** `appointments.filter(a => a.patientEmail === email)`. */
  function PatientBookings(ledger: seq<BookedAppointment>, email: string): (r: seq<BookedAppointment>)
    ensures |r| <= |ledger|
  {
    if ledger == [] then []
    else (if ledger[0].patientEmail == email then [ledger[0]] else []) + PatientBookings(ledger[1..], email)
  }

  /** `appointments.filter(a => a.doctorEmail === email)`; an absent email on
      either side is `undefined`, and `undefined === undefined` holds. */
  function DoctorQueue(ledger: seq<BookedAppointment>, email: Option<string>): (r: seq<BookedAppointment>)
    ensures |r| <= |ledger|
  {
    if ledger == [] then []
    else (if ledger[0].doctorEmail == email then [ledger[0]] else []) + DoctorQueue(ledger[1..], email)
  }

  /** `filteredAppointments`: the session's own bookings, by role. */
  function Visible(ledger: seq<BookedAppointment>, role: Role, userEmail: string): (r: seq<BookedAppointment>)
    ensures role == Patient ==> r == PatientBookings(ledger, userEmail)
    ensures role == Doctor ==> r == DoctorQueue(ledger, Some(userEmail))
  {
    match role
    case Patient => PatientBookings(ledger, userEmail)
    case Doctor => DoctorQueue(ledger, Some(userEmail))
  }

  /** The patient list keeps exactly the bookings made under that email. */
  lemma {:induction false} PatientBookingsMembers(ledger: seq<BookedAppointment>, email: string, a: BookedAppointment)
    ensures a in PatientBookings(ledger, email) <==> a in ledger && a.patientEmail == email
  {
    if ledger != [] {
      PatientBookingsMembers(ledger[1..], email, a);
      assert ledger == [ledger[0]] + ledger[1..];
    }
  }

  /** A doctor's queue keeps exactly the bookings that carry that doctor's email. */
  lemma {:induction false} DoctorQueueMembers(ledger: seq<BookedAppointment>, email: Option<string>, a: BookedAppointment)
    ensures a in DoctorQueue(ledger, email) <==> a in ledger && a.doctorEmail == email
  {
    if ledger != [] {
      DoctorQueueMembers(ledger[1..], email, a);
      assert ledger == [ledger[0]] + ledger[1..];
    }
  }

  /** A booking of a staff doctor (no email) is in no signed-in doctor's list. */
  lemma StaffBookingInNoQueue(ledger: seq<BookedAppointment>, a: BookedAppointment, userEmail: string)
    requires a.doctorEmail.None?
    ensures a !in Visible(ledger, Doctor, userEmail)
  {
    DoctorQueueMembers(ledger, Some(userEmail), a);
  }

  /** The queues of two different emails share no booking. */
  lemma QueuesDisjoint(ledger: seq<BookedAppointment>, e1: string, e2: string, a: BookedAppointment)
    requires e1 != e2
    ensures !(a in PatientBookings(ledger, e1) && a in PatientBookings(ledger, e2))
    ensures !(a in DoctorQueue(ledger, Some(e1)) && a in DoctorQueue(ledger, Some(e2)))
  {
    PatientBookingsMembers(ledger, e1, a);
    PatientBookingsMembers(ledger, e2, a);
    DoctorQueueMembers(ledger, Some(e1), a);
    DoctorQueueMembers(ledger, Some(e2), a);
  }

  lemma {:induction false} PatientBookingsAppend(ledger: seq<BookedAppointment>, a: BookedAppointment, email: string)
    ensures PatientBookings(ledger + [a], email) == PatientBookings(ledger, email) + PatientBookings([a], email)
  {
    if ledger == [] {
      assert ledger + [a] == [a];
    } else {
      assert (ledger + [a])[0] == ledger[0];
      assert (ledger + [a])[1..] == ledger[1..] + [a];
      PatientBookingsAppend(ledger[1..], a, email);
      var h := if ledger[0].patientEmail == email then [ledger[0]] else [];
      assert PatientBookings(ledger + [a], email) == h + (PatientBookings(ledger[1..], email) + PatientBookings([a], email));
    }
  }

  lemma {:induction false} DoctorQueueAppend(ledger: seq<BookedAppointment>, a: BookedAppointment, email: Option<string>)
    ensures DoctorQueue(ledger + [a], email) == DoctorQueue(ledger, email) + DoctorQueue([a], email)
  {
    if ledger == [] {
      assert ledger + [a] == [a];
    } else {
      assert (ledger + [a])[0] == ledger[0];
      assert (ledger + [a])[1..] == ledger[1..] + [a];
      DoctorQueueAppend(ledger[1..], a, email);
      var h := if ledger[0].doctorEmail == email then [ledger[0]] else [];
      assert DoctorQueue(ledger + [a], email) == h + (DoctorQueue(ledger[1..], email) + DoctorQueue([a], email));
    }
  }

  /**
   * Appending a booking to the ledger appends it to the list of whoever may
   * see it and leaves every other list as it was.
   */
  lemma VisibleAfterAppend(ledger: seq<BookedAppointment>, a: BookedAppointment, role: Role, userEmail: string)
    ensures Visible(ledger + [a], role, userEmail) ==
      Visible(ledger, role, userEmail) + (if a in Visible([a], role, userEmail) then [a] else [])
  {
    PatientBookingsAppend(ledger, a, userEmail);
    DoctorQueueAppend(ledger, a, Some(userEmail));
  }
}
