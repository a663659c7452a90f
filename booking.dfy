/**
 * The booking dialog (App.tsx, `BookingModal`): the list of candidate
 * doctors for the selected area and hospital, picking a doctor by display
 * name, and turning a filled-in form into a booked appointment.
 */
module Booking {
  import opened Records
  import opened Catalog

  /** A dropdown entry: a staff doctor has no email, a registered one has theirs. */
  datatype Candidate = Candidate(name: string, email: Option<string>)

  /** `MEDICAL_DATA.areas.find(area)?.hospitals.find(hospital)?.doctors || []`. */
  function StaffOf(areas: seq<Area>, area: string, hospital: string): (r: seq<string>)
    ensures r != [] ==> exists a, h :: a in areas && a.name == area && h in a.hospitals && h.name == hospital && h.doctors == r
  {
    match FindArea(areas, area)
    case None => []
    case Some(a) =>
      match FindHospital(a.hospitals, hospital)
      case None => []
      case Some(h) => h.doctors
  }

  /** `registeredDoctors.filter(d => d.hospitalName === hospital)`. */
  function AtHospital(registry: seq<DoctorDetails>, hospital: string): (r: seq<DoctorDetails>)
    ensures |r| <= |registry|
  {
    if registry == [] then []
    else (if registry[0].hospitalName == hospital then [registry[0]] else []) + AtHospital(registry[1..], hospital)
  }

  lemma {:induction false} AtHospitalMembers(registry: seq<DoctorDetails>, hospital: string, d: DoctorDetails)
    ensures d in AtHospital(registry, hospital) <==> d in registry && d.hospitalName == hospital
  {
    if registry != [] {
      AtHospitalMembers(registry[1..], hospital, d);
      assert registry == [registry[0]] + registry[1..];
    }
  }

  /** The filter distributes over concatenation, so it keeps the registry's
      order and each matching entry as often as it occurs. */
  lemma {:induction false} AtHospitalConcat(a: seq<DoctorDetails>, b: seq<DoctorDetails>, hospital: string)
    ensures AtHospital(a + b, hospital) == AtHospital(a, hospital) + AtHospital(b, hospital)
  {
    if a == [] {
      assert a + b == b;
    } else {
      var head := if a[0].hospitalName == hospital then [a[0]] else [];
      assert (a + b)[0] == a[0] && (a + b)[1..] == a[1..] + b;
      AtHospitalConcat(a[1..], b, hospital);
      calc {
        AtHospital(a + b, hospital);
        head + AtHospital(a[1..] + b, hospital);
        head + (AtHospital(a[1..], hospital) + AtHospital(b, hospital));
        (head + AtHospital(a[1..], hospital)) + AtHospital(b, hospital);
        AtHospital(a, hospital) + AtHospital(b, hospital);
      }
    }
  }

  /** The display name of a registered doctor. */
  function RegisteredName(d: DoctorDetails): (r: string)
    ensures |r| == |d.fullName| + 4 && r[..4] == "Dr. " && r[4..] == d.fullName
  {
    "Dr. " + d.fullName
  }

  /** `doctorsList`: the staff of the selected hospital in the selected area,
      then every registered doctor whose hospital name is the selected one. */
  function DoctorsList(areas: seq<Area>, area: string, hospital: string, registry: seq<DoctorDetails>): seq<Candidate>
  {
    var staff := StaffOf(areas, area, hospital);
    var registered := AtHospital(registry, hospital);
    seq(|staff|, i requires 0 <= i < |staff| => Candidate(staff[i], None))
      + seq(|registered|, i requires 0 <= i < |registered| => Candidate(RegisteredName(registered[i]), registered[i].email))
  }

  /**
   * The list is not de-duplicated: the staff come first, each without an
   * email, followed by one entry per registered doctor at that hospital,
   * each with their display name and email, in registry order.
   */
  lemma DoctorsListShape(areas: seq<Area>, area: string, hospital: string, registry: seq<DoctorDetails>)
    ensures var list := DoctorsList(areas, area, hospital, registry);
      var staff := StaffOf(areas, area, hospital);
      var registered := AtHospital(registry, hospital);
      && |list| == |staff| + |registered|
      && (forall i :: 0 <= i < |staff| ==> list[i] == Candidate(staff[i], None))
      && (forall i :: 0 <= i < |registered| ==>
            list[|staff| + i] == Candidate(RegisteredName(registered[i]), registered[i].email))
  {
    var staff := StaffOf(areas, area, hospital);
    var registered := AtHospital(registry, hospital);
    var listed := seq(|staff|, i requires 0 <= i < |staff| => Candidate(staff[i], None));
    var joined := seq(|registered|, i requires 0 <= i < |registered| => Candidate(RegisteredName(registered[i]), registered[i].email));
    assert DoctorsList(areas, area, hospital, registry) == listed + joined;
  }

  /** `doctorsList.find(d => d.name === name)`: the first entry with that name. */
  function FindByName(list: seq<Candidate>, name: string): (r: Option<Candidate>)
    ensures r.Some? <==> exists i :: 0 <= i < |list| && list[i].name == name
    ensures r.Some? ==> exists i :: (0 <= i < |list| && list[i] == r.value && r.value.name == name
      && forall j :: 0 <= j < i ==> list[j].name != name)
  {
    if list == [] then None
    else if list[0].name == name then Some(list[0])
    else
      var r := FindByName(list[1..], name);
      if r.None? then r
      else
        var i :| 0 <= i < |list[1..]| && list[1..][i] == r.value && r.value.name == name
          && forall j :: 0 <= j < i ==> list[1..][j].name != name;
        assert list[i + 1] == r.value;
        r
  }

  lemma {:induction false} FindByNameFirst(list: seq<Candidate>, name: string, k: int)
    requires 0 <= k < |list| && list[k].name == name
    requires forall j :: 0 <= j < k ==> list[j].name != name
    ensures FindByName(list, name) == Some(list[k])
  {
    if k > 0 {
      FindByNameFirst(list[1..], name, k - 1);
    }
  }

  /**
   * A staff doctor shadows a registered doctor with the same display name:
   * choosing that name selects the staff entry, which carries no email.
   */
  lemma StaffShadowsRegistered(areas: seq<Area>, area: string, hospital: string, registry: seq<DoctorDetails>, name: string)
    requires name in StaffOf(areas, area, hospital)
    ensures FindByName(DoctorsList(areas, area, hospital, registry), name) == Some(Candidate(name, None))
  {
    var staff := StaffOf(areas, area, hospital);
    var list := DoctorsList(areas, area, hospital, registry);
    DoctorsListShape(areas, area, hospital, registry);
    var r := FindByName(list, name);
    var k :| 0 <= k < |staff| && staff[k] == name;
    assert list[k].name == name;
    var i :| 0 <= i < |list| && list[i] == r.value && r.value.name == name && forall j :: 0 <= j < i ==> list[j].name != name;
    assert i <= k;
  }

  /**
   * A registered doctor is selected, with their email, when no staff doctor
   * and no earlier registered doctor at that hospital has the same display name.
   */
  lemma RegisteredSelected(areas: seq<Area>, area: string, hospital: string, registry: seq<DoctorDetails>, k: int)
    requires var registered := AtHospital(registry, hospital);
      0 <= k < |registered|
      && RegisteredName(registered[k]) !in StaffOf(areas, area, hospital)
      && forall j :: 0 <= j < k ==> RegisteredName(registered[j]) != RegisteredName(registered[k])
    ensures var d := AtHospital(registry, hospital)[k];
      FindByName(DoctorsList(areas, area, hospital, registry), RegisteredName(d)) == Some(Candidate(RegisteredName(d), d.email))
  {
    var staff := StaffOf(areas, area, hospital);
    var registered := AtHospital(registry, hospital);
    var list := DoctorsList(areas, area, hospital, registry);
    var name := RegisteredName(registered[k]);
    DoctorsListShape(areas, area, hospital, registry);
    forall j | 0 <= j < |staff| + k ensures list[j].name != name {
      if j >= |staff| {
        assert list[j] == Candidate(RegisteredName(registered[j - |staff|]), registered[j - |staff|].email);
      } else {
        assert list[j].name == staff[j];
      }
    }
    FindByNameFirst(list, name, |staff| + k);
  }

  /** In the portal's directory, a hospital chosen in its own area offers its staff. */
  lemma StaffOfOwnArea(a: Area, h: Hospital)
    requires a in MedicalData && h in a.hospitals
    ensures StaffOf(MedicalData, a.name, h.name) == h.doctors
  {
    AreaCount();
    HospitalNamesDistinct();
    FindAreaFindsOwn(MedicalData, a);
    FindHospitalFindsOwn(a.hospitals, h);
  }

  /** The staff part is scoped to the selected area: with another area
      selected, a hospital of this one contributes no staff. */
  lemma StaffOfOtherArea(a: Area, other: Area, h: Hospital)
    requires a in MedicalData && other in MedicalData && a != other && h in a.hospitals
    ensures StaffOf(MedicalData, other.name, h.name) == []
  {
    AreaCount();
    CatalogHospitalNamesUnique();
    FindAreaFindsOwn(MedicalData, other);
    var m := MedicalData;
    var i1 :| 0 <= i1 < |m| && m[i1] == a;
    var i2 :| 0 <= i2 < |m| && m[i2] == other;
    HospitalInOneArea(m, i1, i2, h);
  }

  // ---------------------------------------------------------------- the dialog's form

  /** The dialog's selections; "" and `None` mean "not chosen yet". */
  class BookingForm {
    var area: string
    var hospital: string
    var doctor: Option<Candidate>
    var date: string
    var time: string

    constructor ()
      ensures area == "" && hospital == "" && doctor == None && date == "" && time == ""
    {
      area, hospital, doctor, date, time := "", "", None, "", "";
    }

    /** Choosing an area clears the hospital; the chosen doctor is kept. */
    method SelectArea(name: string)
      modifies this
      ensures area == name && hospital == ""
      ensures doctor == old(doctor) && date == old(date) && time == old(time)
    {
      area := name;
      hospital := "";
    }

    method SelectHospital(name: string)
      modifies this
      ensures hospital == name
      ensures area == old(area) && doctor == old(doctor) && date == old(date) && time == old(time)
    {
      hospital := name;
    }

    /** Choosing a name selects the first candidate with that name; an unknown
        name leaves the selection as it was. */
    method SelectDoctor(name: string, registry: seq<DoctorDetails>)
      modifies this
      ensures var found := FindByName(DoctorsList(MedicalData, area, hospital, registry), name);
        doctor == if found.Some? then found else old(doctor)
      ensures area == old(area) && hospital == old(hospital) && date == old(date) && time == old(time)
    {
      var found := FindByName(DoctorsList(MedicalData, area, hospital, registry), name);
      if found.Some? {
        doctor := found;
      }
    }

    method SetDate(d: string)
      modifies this
      ensures date == d
      ensures area == old(area) && hospital == old(hospital) && doctor == old(doctor) && time == old(time)
    {
      date := d;
    }

    method SetTime(t: string)
      modifies this
      ensures time == t
      ensures area == old(area) && hospital == old(hospital) && doctor == old(doctor) && date == old(date)
    {
      time := t;
    }

    /**
     * "Confirm & Pay": refused unless a doctor, a date and a time are chosen;
     * otherwise the paid booking of the session's patient with the chosen
     * doctor (and the doctor's email, if any), place, date and time.
     */
    method Confirm(id: string, patientName: string, patientEmail: string) returns (r: Option<BookedAppointment>)
      ensures r.None? <==> doctor.None? || date == "" || time == ""
      ensures r.Some? ==> r.value == BookedAppointment(id, date, area, hospital, doctor.value.name,
        doctor.value.email, time, patientEmail, patientName, Paid)
    {
      if doctor.None? || date == "" || time == "" {
        return None;
      }
      r := Some(BookedAppointment(id, date, area, hospital, doctor.value.name, doctor.value.email,
        time, patientEmail, patientName, Paid));
    }
  }
}
