/**
 * The record store: the browser's `localStorage` as a map from key to the
 * value stored there, the key scheme, the read helpers of App.tsx and the
 * two helpers that rewrite a whole collection (the doctor registry and the
 * appointment ledger).
 */
module Store {
  import opened Records
  import opened Text

  /**
   * What a key holds, after decoding. `EmptyText` is the empty string, which
   * the source's truthiness tests treat like a missing key; `Unparsable`
   * stands for text `JSON.parse` rejects and for a value of the wrong shape:
   * reading it throws, it is never "absent".
   */
  datatype Stored =
    | EmptyText
    | Unparsable
    | DoctorList(doctors: seq<DoctorDetails>)
    | AppointmentList(appointments: seq<BookedAppointment>)
    | ProfileRecord(details: Profile)

  /**
   * The keys the portal uses: the two collections and one profile per role
   * and normalised email. `KeyText` spells each key out; since distinct keys
   * have distinct spellings, the store can be indexed by `Key`.
   */
  datatype Key = DoctorsKey | AppointmentsKey | ProfileKey(role: Role, email: string)

  const ProfilePrefix: string := "healthlink_data_"

  function KeyText(k: Key): (t: string)
    ensures |t| > 18 && t[..11] == "healthlink_"
    ensures k.ProfileKey? ==> t[11..16] == "data_"
    ensures !k.ProfileKey? ==> t[11..18] == "global_"
    ensures k.ProfileKey? <==> t[11] == 'd'
  {
    match k
    case DoctorsKey =>
      assert "healthlink_global_doctors"[11..18] == "global_";
      "healthlink_global_doctors"
    case AppointmentsKey =>
      assert "healthlink_global_appointments"[11..18] == "global_";
      "healthlink_global_appointments"
    case ProfileKey(role, email) => ProfilePrefix + RoleName(role) + "_" + email
  }

  type Entries = map<Key, Stored>

  /** Two keys are spelt alike exactly when they are the same key
      (`healthlink_data_{role}_{email}` determines role and email). */
  lemma KeyTextInjective(k1: Key, k2: Key)
    ensures KeyText(k1) == KeyText(k2) <==> k1 == k2
  {
    var t1, t2 := KeyText(k1), KeyText(k2);
    if t1 == t2 {
      if k1.ProfileKey? {
        assert t1[16] == RoleName(k1.role)[0] && t2[16] == RoleName(k2.role)[0];
        assert k1.role == k2.role;
        var n := |ProfilePrefix + RoleName(k1.role) + "_"|;
        assert t1[n..] == k1.email && t2[n..] == k2.email;
      } else {
        assert |t1| == |t2|;
      }
    }
  }

  // ---------------------------------------------------------------- reads

  /** `getGlobalDoctors`: the registry, `[]` when nothing (or "") is stored. */
  function GetGlobalDoctors(entries: Entries): (r: Result<seq<DoctorDetails>>)
    ensures DoctorsKey !in entries || entries[DoctorsKey].EmptyText? ==> r == Ok([])
    ensures DoctorsKey in entries && entries[DoctorsKey].DoctorList? ==> r == Ok(entries[DoctorsKey].doctors)
    ensures r.Ok? <==> DoctorsKey !in entries || entries[DoctorsKey].EmptyText? || entries[DoctorsKey].DoctorList?
  {
    if DoctorsKey !in entries then Ok([])
    else match entries[DoctorsKey]
      case EmptyText => Ok([])
      case DoctorList(ds) => Ok(ds)
      case _ => Err(DecodeError)
  }

  /** `getGlobalAppointments`: the ledger, `[]` when nothing (or "") is stored. */
  function GetGlobalAppointments(entries: Entries): (r: Result<seq<BookedAppointment>>)
    ensures AppointmentsKey !in entries || entries[AppointmentsKey].EmptyText? ==> r == Ok([])
    ensures AppointmentsKey in entries && entries[AppointmentsKey].AppointmentList? ==> r == Ok(entries[AppointmentsKey].appointments)
    ensures r.Ok? <==> AppointmentsKey !in entries || entries[AppointmentsKey].EmptyText? || entries[AppointmentsKey].AppointmentList?
  {
    if AppointmentsKey !in entries then Ok([])
    else match entries[AppointmentsKey]
      case EmptyText => Ok([])
      case AppointmentList(list) => Ok(list)
      case _ => Err(DecodeError)
  }

  /**
   * The profile stored for `role` under an already normalised email, as the
   * login handler reads it: `None` when the key is missing or empty, the
   * stored `details` when they are a profile of that role, an error otherwise.
   */
  function LoadProfile(entries: Entries, role: Role, email: string): (r: Result<Option<Profile>>)
    ensures r == Ok(None) <==> ProfileKey(role, email) !in entries || entries[ProfileKey(role, email)].EmptyText?
    ensures r.Ok? <==> (ProfileKey(role, email) !in entries || entries[ProfileKey(role, email)].EmptyText?
      || (entries[ProfileKey(role, email)].ProfileRecord? && ProfileRole(entries[ProfileKey(role, email)].details) == role))
    ensures r.Ok? && r.value.Some? ==>
      ProfileKey(role, email) in entries && entries[ProfileKey(role, email)] == ProfileRecord(r.value.value)
      && ProfileRole(r.value.value) == role
  {
    var key := ProfileKey(role, email);
    if key !in entries then Ok(None)
    else match entries[key]
      case EmptyText => Ok(None)
      case ProfileRecord(p) => if ProfileRole(p) == role then Ok(Some(p)) else Err(DecodeError)
      case _ => Err(DecodeError)
  }

  /** `getPatientDataByEmail`: the patient profile under the normalised email, or null. */
  function GetPatientDataByEmail(entries: Entries, email: string): (r: Result<Option<PatientDetails>>)
    ensures r.Ok? <==> LoadProfile(entries, Patient, Normalize(email)).Ok?
    ensures r == Ok(None) <==> LoadProfile(entries, Patient, Normalize(email)) == Ok(None)
  {
    match LoadProfile(entries, Patient, Normalize(email))
    case Ok(Some(p)) => Ok(Some(p.patient))
    case Ok(None) => Ok(None)
    case Err(e) => Err(e)
  }

  /** With nothing stored, the registry and the ledger read as empty and no patient is found. */
  lemma EmptyStoreReads(email: string)
    ensures GetGlobalDoctors(map[]) == Ok([])
    ensures GetGlobalAppointments(map[]) == Ok([])
    ensures GetPatientDataByEmail(map[], email) == Ok(None)
  {
  }

  /**
   * The doctor profile stored under a doctor's key carries that key's email:
   * onboarding fills the doctor form's email with the session email, and the
   * settings form keeps the loaded one.
   */
  ghost predicate DoctorProfilesOwnEmail(entries: Entries)
  {
    forall e :: ProfileKey(Doctor, e) in entries && entries[ProfileKey(Doctor, e)].ProfileRecord?
      && entries[ProfileKey(Doctor, e)].details.DoctorProfile?
      ==> entries[ProfileKey(Doctor, e)].details.doctor.email == Some(e)
  }

  /** A value that does not decode makes the read fail; it is not read as empty. */
  lemma UnparsableIsNotAbsent(entries: Entries, email: string)
    ensures DoctorsKey in entries && entries[DoctorsKey] == Unparsable ==> GetGlobalDoctors(entries).Err?
    ensures AppointmentsKey in entries && entries[AppointmentsKey] == Unparsable ==> GetGlobalAppointments(entries).Err?
    ensures var key := ProfileKey(Patient, Normalize(email));
      key in entries && entries[key] == Unparsable ==> GetPatientDataByEmail(entries, email).Err?
  {
  }

  /** A profile written under (role, email) is what a login with that email loads. */
  lemma ProfileRoundTrip(entries: Entries, role: Role, email: string, p: Profile)
    requires ProfileRole(p) == role
    ensures LoadProfile(entries[ProfileKey(role, email) := ProfileRecord(p)], role, email) == Ok(Some(p))
  {
  }

  /** A patient profile written under the normalised email is what the patient lookup finds. */
  lemma PatientLookupRoundTrip(entries: Entries, loginEmail: string, email: string, p: PatientDetails)
    requires Normalize(loginEmail) == email
    ensures GetPatientDataByEmail(entries[ProfileKey(Patient, email) := ProfileRecord(PatientProfile(p))], loginEmail) == Ok(Some(p))
  {
    ProfileRoundTrip(entries, Patient, email, PatientProfile(p));
  }

  /** Writing a profile does not affect the registry or the ledger. */
  lemma ProfileWriteKeepsCollections(entries: Entries, role: Role, email: string, v: Stored)
    ensures GetGlobalDoctors(entries[ProfileKey(role, email) := v]) == GetGlobalDoctors(entries)
    ensures GetGlobalAppointments(entries[ProfileKey(role, email) := v]) == GetGlobalAppointments(entries)
  {
    var e := entries[ProfileKey(role, email) := v];
    assert DoctorsKey in e <==> DoctorsKey in entries;
    assert AppointmentsKey in e <==> AppointmentsKey in entries;
  }

  // ---------------------------------------------------------------- registry

  /** `list.filter(d => d.email !== email)`. */
  function Without(reg: seq<DoctorDetails>, email: Option<string>): (r: seq<DoctorDetails>)
    ensures |r| <= |reg|
  {
    if reg == [] then []
    else (if reg[0].email != email then [reg[0]] else []) + Without(reg[1..], email)
  }

  /** `list.filter(d => d.email === email)`. */
  function WithEmail(reg: seq<DoctorDetails>, email: Option<string>): (r: seq<DoctorDetails>)
    ensures |r| <= |reg|
  {
    if reg == [] then []
    else (if reg[0].email == email then [reg[0]] else []) + WithEmail(reg[1..], email)
  }

  /** The registry after `saveGlobalDoctor(d)`: earlier entries with d's email dropped, d appended. */
  function Upsert(reg: seq<DoctorDetails>, d: DoctorDetails): (r: seq<DoctorDetails>)
    ensures r != [] && |r| <= |reg| + 1 && r[|r| - 1] == d
  {
    Without(reg, d.email) + [d]
  }

  /** The two filters keep exactly the entries with (resp. without) the email. */
  lemma {:induction false} FilterMembers(reg: seq<DoctorDetails>, email: Option<string>, x: DoctorDetails)
    ensures x in Without(reg, email) <==> x in reg && x.email != email
    ensures x in WithEmail(reg, email) <==> x in reg && x.email == email
  {
    if reg != [] {
      FilterMembers(reg[1..], email, x);
      assert reg == [reg[0]] + reg[1..];
    }
  }

  lemma {:induction false} WithoutConcat(a: seq<DoctorDetails>, b: seq<DoctorDetails>, email: Option<string>)
    ensures Without(a + b, email) == Without(a, email) + Without(b, email)
  {
    if a == [] {
      assert a + b == b;
    } else {
      var h := if a[0].email != email then [a[0]] else [];
      assert (a + b)[0] == a[0] && (a + b)[1..] == a[1..] + b;
      WithoutConcat(a[1..], b, email);
      calc {
        Without(a + b, email);
        h + Without(a[1..] + b, email);
        h + (Without(a[1..], email) + Without(b, email));
        (h + Without(a[1..], email)) + Without(b, email);
        Without(a, email) + Without(b, email);
      }
    }
  }

  lemma {:induction false} WithEmailConcat(a: seq<DoctorDetails>, b: seq<DoctorDetails>, email: Option<string>)
    ensures WithEmail(a + b, email) == WithEmail(a, email) + WithEmail(b, email)
  {
    if a == [] {
      assert a + b == b;
    } else {
      var h := if a[0].email == email then [a[0]] else [];
      assert (a + b)[0] == a[0] && (a + b)[1..] == a[1..] + b;
      WithEmailConcat(a[1..], b, email);
      calc {
        WithEmail(a + b, email);
        h + WithEmail(a[1..] + b, email);
        h + (WithEmail(a[1..], email) + WithEmail(b, email));
        (h + WithEmail(a[1..], email)) + WithEmail(b, email);
        WithEmail(a, email) + WithEmail(b, email);
      }
    }
  }

  lemma {:induction false} WithoutIdempotent(reg: seq<DoctorDetails>, e: Option<string>)
    ensures Without(Without(reg, e), e) == Without(reg, e)
  {
    if reg != [] {
      var w := Without(reg[1..], e);
      WithoutIdempotent(reg[1..], e);
      if reg[0].email != e {
        assert Without(reg, e) == [reg[0]] + w;
        assert ([reg[0]] + w)[1..] == w;
      } else {
        assert Without(reg, e) == [] + w == w;
      }
    }
  }

  lemma {:induction false} WithEmailOfWithout(reg: seq<DoctorDetails>, e1: Option<string>, e2: Option<string>)
    ensures WithEmail(Without(reg, e1), e2) == if e1 == e2 then [] else WithEmail(reg, e2)
  {
    if reg != [] {
      var w := Without(reg[1..], e1);
      WithEmailOfWithout(reg[1..], e1, e2);
      if reg[0].email != e1 {
        assert Without(reg, e1) == [reg[0]] + w;
        assert ([reg[0]] + w)[1..] == w;
      } else {
        assert Without(reg, e1) == [] + w == w;
      }
    }
  }

  /**
   * Last write wins: after the upsert the registry holds exactly one entry
   * with d's email, it is d and it is the last element, and removing that
   * email from the registry before and after gives the same sequence, so
   * every other entry keeps its content and relative order.
   */
  lemma UpsertLastWriteWins(reg: seq<DoctorDetails>, d: DoctorDetails)
    ensures var r := Upsert(reg, d);
      && r[|r| - 1] == d
      && WithEmail(r, d.email) == [d]
      && Without(r, d.email) == Without(reg, d.email)
      && (forall e :: e != d.email ==> WithEmail(r, e) == WithEmail(reg, e))
  {
    var w := Without(reg, d.email);
    UpsertOwnEntry(reg, d);
    WithoutConcat(w, [d], d.email);
    WithoutIdempotent(reg, d.email);
    assert Without([d], d.email) == [];
    forall e | e != d.email ensures WithEmail(Upsert(reg, d), e) == WithEmail(reg, e) {
      WithEmailConcat(w, [d], e);
      WithEmailOfWithout(reg, d.email, e);
      assert WithEmail([d], e) == [];
    }
  }

  /** After the upsert, the only entry with d's email is d. */
  lemma UpsertOwnEntry(reg: seq<DoctorDetails>, d: DoctorDetails)
    ensures WithEmail(Upsert(reg, d), d.email) == [d]
  {
    var w := Without(reg, d.email);
    WithEmailConcat(w, [d], d.email);
    WithEmailOfWithout(reg, d.email, d.email);
    assert WithEmail([d], d.email) == [d];
  }

  /** Upserting the same record again changes nothing. */
  lemma UpsertIdempotent(reg: seq<DoctorDetails>, d: DoctorDetails)
    ensures Upsert(Upsert(reg, d), d) == Upsert(reg, d)
  {
    UpsertLastWriteWins(reg, d);
  }

  ghost predicate UniqueEmails(reg: seq<DoctorDetails>)
  {
    forall i, j :: 0 <= i < j < |reg| ==> reg[i].email != reg[j].email
  }

  /** A registry with one entry per email keeps that property under upsert. */
  lemma {:induction false} UpsertKeepsUnique(reg: seq<DoctorDetails>, d: DoctorDetails)
    requires UniqueEmails(reg)
    ensures UniqueEmails(Upsert(reg, d))
  {
    WithoutUnique(reg, d.email);
    var w := Without(reg, d.email);
    var r := w + [d];
    forall i, j | 0 <= i < j < |r| ensures r[i].email != r[j].email {
      if j == |r| - 1 {
        assert r[i] in w;
        FilterMembers(reg, d.email, r[i]);
      }
    }
  }

  lemma {:induction false} WithoutUnique(reg: seq<DoctorDetails>, email: Option<string>)
    requires UniqueEmails(reg)
    ensures UniqueEmails(Without(reg, email))
  {
    if reg != [] {
      var t := reg[1..];
      assert UniqueEmails(t) by {
        forall i, j | 0 <= i < j < |t| ensures t[i].email != t[j].email {
          assert t[i] == reg[i + 1] && t[j] == reg[j + 1];
        }
      }
      WithoutUnique(t, email);
      var w := Without(t, email);
      if reg[0].email != email {
        var r := [reg[0]] + w;
        forall i, j | 0 <= i < j < |r| ensures r[i].email != r[j].email {
          if i == 0 {
            assert r[j] in w;
            FilterMembers(t, email, r[j]);
            var k :| 0 <= k < |t| && t[k] == r[j];
            assert reg[k + 1] == r[j];
          } else {
            assert r[i] == w[i - 1] && r[j] == w[j - 1];
          }
        }
      }
    }
  }

  // ---------------------------------------------------------------- the store object

  /** `localStorage`, with the helpers that rewrite its two collections. */
  class LocalStore {
    var entries: Entries

    constructor (initial: Entries)
      ensures entries == initial
    {
      entries := initial;
    }

    /** `localStorage.setItem(key, value)`. */
    method SetItem(key: Key, value: Stored)
      modifies this
      ensures entries == old(entries)[key := value]
    {
      entries := entries[key := value];
    }

    /**
     * `saveGlobalDoctor`: reads the registry, drops every entry with the
     * doctor's email, appends the doctor and writes the whole list back.
     * When the stored registry does not decode, the read throws and nothing
     * is written.
     */
    method SaveGlobalDoctor(d: DoctorDetails) returns (ok: bool)
      modifies this
      ensures ok <==> old(GetGlobalDoctors(entries)).Ok?
      ensures ok ==> entries == old(entries)[DoctorsKey := DoctorList(Upsert(old(GetGlobalDoctors(entries)).value, d))]
      ensures ok ==> GetGlobalDoctors(entries) == Ok(Upsert(old(GetGlobalDoctors(entries)).value, d))
      ensures !ok ==> entries == old(entries)
    {
      var current := GetGlobalDoctors(entries);
      if current.Err? {
        return false;
      }
      var filtered := Without(current.value, d.email);
      entries := entries[DoctorsKey := DoctorList(filtered + [d])];
      ok := true;
    }

    /**
     * `saveGlobalAppointment`: reads the ledger, appends the booking and
     * writes the whole list back; nothing is written when the read throws.
     */
    method SaveGlobalAppointment(a: BookedAppointment) returns (ok: bool)
      modifies this
      ensures ok <==> old(GetGlobalAppointments(entries)).Ok?
      ensures ok ==> entries == old(entries)[AppointmentsKey := AppointmentList(old(GetGlobalAppointments(entries)).value + [a])]
      ensures ok ==> GetGlobalAppointments(entries) == Ok(old(GetGlobalAppointments(entries)).value + [a])
      ensures !ok ==> entries == old(entries)
    {
      var current := GetGlobalAppointments(entries);
      if current.Err? {
        return false;
      }
      entries := entries[AppointmentsKey := AppointmentList(current.value + [a])];
      ok := true;
    }
  }
}
