/**
 * The static directory (constants.tsx, MEDICAL_DATA): areas, the hospitals
 * in each area and the staff doctors of each hospital. It never changes;
 * the booking selector and the doctor onboarding form read it.
 */
module Catalog {
  import opened Records

  datatype Hospital = Hospital(name: string, doctors: seq<string>)
  datatype Area = Area(name: string, hospitals: seq<Hospital>)

  const MedicalData: seq<Area> := [
    BanjaraHills, JubileeHills, Gachibowli, Madhapur, Kukatpally, Secunderabad, LbNagar]

  const BanjaraHills: Area := Area("Banjara Hills", [
      Hospital("Apollo Hospitals", ["Dr. Nikhilesh", "Dr. B. Somaraju", "Dr. Manjula Anagani", "Dr. S. K. Reddy"]),
      Hospital("Care Hospital", ["Dr. Kaushik", "Dr. V. Rao", "Dr. P. Raghu Ram"]),
      Hospital("Rainbow Children\U{2019}s Hospital", ["Dr. Dinesh Kumar", "Dr. Preeti Sharma"])
  ])
  const JubileeHills: Area := Area("Jubilee Hills", [
      Hospital("LV Prasad Eye Institute", ["Dr. Gullapalli N Rao", "Dr. Prashant Garg", "Dr. M. Sastry"]),
      Hospital("Apollo Health City", ["Dr. Sangita Reddy", "Dr. K. Hari Prasad"])
  ])
  const Gachibowli: Area := Area("Gachibowli", [
      Hospital("Continental Hospitals", ["Dr. Guru N Reddy", "Dr. Meeraji Rao"]),
      Hospital("AIG Hospitals", ["Dr. D. Nageshwar Reddy", "Dr. G.V. Rao"]),
      Hospital("Care Hospitals Gachibowli", ["Dr. T. Venkat", "Dr. S. Lakshmi"])
  ])
  const Madhapur: Area := Area("Madhapur", [
      Hospital("Medicover Hospitals", ["Dr. Srikanth Marri", "Dr. Anil Krishna", "Dr. L. Prasad"]),
      Hospital("Image Hospitals", ["Dr. Thraimabica Sastry", "Dr. J. Kumar"])
  ])
  const Kukatpally: Area := Area("Kukatpally", [
      Hospital("Omni Hospitals", ["Dr. S. Sekhar", "Dr. Radha Rani"]),
      Hospital("KIMS Hospitals", ["Dr. Bhaskar Rao", "Dr. Sambit Das"])
  ])
  const Secunderabad: Area := Area("Secunderabad", [
      Hospital("Yashoda Hospitals", ["Dr. G.S. Rao", "Dr. P. Sreekanth"]),
      Hospital("Sunshine Hospitals", ["Dr. A.V. Gurava Reddy", "Dr. Adarsh Annapareddy"])
  ])
  const LbNagar: Area := Area("LB Nagar", [
      Hospital("Kamineni Hospitals", ["Dr. K. Shashidhar", "Dr. Surya Prakash"]),
      Hospital("Aware Gleneagles Global", ["Dr. Sharath reddy", "Dr. Govind Verma"])
  ])

  ghost predicate Distinct<T>(s: seq<T>)
  {
    forall i, j :: 0 <= i < j < |s| ==> s[i] != s[j]
  }

  function AreaNames(areas: seq<Area>): (r: seq<string>)
    ensures |r| == |areas|
    ensures forall i :: 0 <= i < |areas| ==> r[i] == areas[i].name
  {
    if areas == [] then [] else [areas[0].name] + AreaNames(areas[1..])
  }

  /** The same projection over a hospital list: the onboarding list
      (App.tsx:316) and the per-area lookups need names of hospitals as well
      as of areas, and Dafny has no common field over the two record types. */
  function HospitalNames(hs: seq<Hospital>): (r: seq<string>)
    ensures |r| == |hs|
    ensures forall i :: 0 <= i < |hs| ==> r[i] == hs[i].name
  {
    if hs == [] then [] else [hs[0].name] + HospitalNames(hs[1..])
  }

  /** `MEDICAL_DATA.areas.flatMap(a => a.hospitals.map(h => h.name))`: the
      hospitals a doctor may pick at onboarding, area by area. */
  function AllHospitalNames(areas: seq<Area>): (r: seq<string>)
  {
    if areas == [] then [] else HospitalNames(areas[0].hospitals) + AllHospitalNames(areas[1..])
  }

  /** The onboarding list offers exactly the hospitals of the directory. */
  lemma {:induction false} AllHospitalNamesMembers(areas: seq<Area>)
    ensures forall a, h :: a in areas && h in a.hospitals ==> h.name in AllHospitalNames(areas)
    ensures forall n :: n in AllHospitalNames(areas) ==> exists a, h :: a in areas && h in a.hospitals && h.name == n
  {
    if areas != [] {
      AllHospitalNamesMembers(areas[1..]);
      var hs := areas[0].hospitals;
      forall h | h in hs ensures h.name in HospitalNames(hs) {
        var i :| 0 <= i < |hs| && hs[i] == h;
        assert HospitalNames(hs)[i] == h.name;
      }
      forall n | n in AllHospitalNames(areas) ensures exists a, h :: a in areas && h in a.hospitals && h.name == n {
        if n in HospitalNames(hs) {
          var i :| 0 <= i < |hs| && HospitalNames(hs)[i] == n;
          assert areas[0] in areas && hs[i] in areas[0].hospitals;
        } else {
          assert n in AllHospitalNames(areas[1..]);
          var a, h :| a in areas[1..] && h in a.hospitals && h.name == n;
          assert a in areas;
        }
      }
    }
  }

  /** `areas.find(a => a.name === name)`. */
  function FindArea(areas: seq<Area>, name: string): (r: Option<Area>)
    ensures r.Some? <==> name in AreaNames(areas)
    ensures r.Some? ==> r.value in areas && r.value.name == name
  {
    if areas == [] then None
    else if areas[0].name == name then Some(areas[0])
    else FindArea(areas[1..], name)
  }

  /** `hospitals.find(h => h.name === name)`. */
  function FindHospital(hs: seq<Hospital>, name: string): (r: Option<Hospital>)
    ensures r.Some? <==> name in HospitalNames(hs)
    ensures r.Some? ==> r.value in hs && r.value.name == name
  {
    if hs == [] then None
    else if hs[0].name == name then Some(hs[0])
    else FindHospital(hs[1..], name)
  }

  /** With distinct area names, looking an area up by its own name finds it. */
  lemma {:induction false} FindAreaFindsOwn(areas: seq<Area>, a: Area)
    requires Distinct(AreaNames(areas)) && a in areas
    ensures FindArea(areas, a.name) == Some(a)
  {
    if areas[0] != a {
      assert a in areas[1..];
      var k :| 0 <= k < |areas| && areas[k] == a;
      assert AreaNames(areas)[0] != AreaNames(areas)[k];
      assert Distinct(AreaNames(areas[1..])) by {
        forall i, j | 0 <= i < j < |areas| - 1 ensures AreaNames(areas[1..])[i] != AreaNames(areas[1..])[j] {
          assert AreaNames(areas)[i + 1] != AreaNames(areas)[j + 1];
        }
      }
      FindAreaFindsOwn(areas[1..], a);
    }
  }

  /** With distinct hospital names, looking a hospital up by its own name finds it. */
  lemma {:induction false} FindHospitalFindsOwn(hs: seq<Hospital>, h: Hospital)
    requires Distinct(HospitalNames(hs)) && h in hs
    ensures FindHospital(hs, h.name) == Some(h)
  {
    if hs[0] != h {
      assert h in hs[1..];
      var k :| 0 <= k < |hs| && hs[k] == h;
      assert HospitalNames(hs)[0] != HospitalNames(hs)[k];
      assert Distinct(HospitalNames(hs[1..])) by {
        forall i, j | 0 <= i < j < |hs| - 1 ensures HospitalNames(hs[1..])[i] != HospitalNames(hs[1..])[j] {
          assert HospitalNames(hs)[i + 1] != HospitalNames(hs)[j + 1];
        }
      }
      FindHospitalFindsOwn(hs[1..], h);
    }
  }

  // ------------------------------------------------ structural facts of the catalog

  /** The directory lists exactly seven areas, no two with the same name. */
  lemma AreaCount()
    ensures |MedicalData| == 7
    ensures Distinct(AreaNames(MedicalData))
  {
    var s := AreaNames(MedicalData);
    assert s == ["Banjara Hills", "Jubilee Hills", "Gachibowli", "Madhapur", "Kukatpally", "Secunderabad", "LB Nagar"];
    forall i, j | 0 <= i < j < |s| ensures s[i] != s[j] {
      assert s[i][0] != s[j][0];
    }
  }

  /**
   * Every hospital name occurs at exactly one position (area, hospital) of
   * the directory.
   */
  ghost predicate UniqueHospitalNames(areas: seq<Area>)
  {
    forall i1, j1, i2, j2 ::
      (0 <= i1 < |areas| && 0 <= j1 < |areas[i1].hospitals| && 0 <= i2 < |areas| && 0 <= j2 < |areas[i2].hospitals|
       && areas[i1].hospitals[j1].name == areas[i2].hospitals[j2].name) ==> i1 == i2 && j1 == j2
  }

  /** Two hospitals of the directory, the first listed before the second, have different names. */
  lemma EarlierHospitalNamesDiffer(i1: int, j1: int, i2: int, j2: int)
    requires 0 <= i1 < |MedicalData| && 0 <= j1 < |MedicalData[i1].hospitals|
    requires 0 <= i2 < |MedicalData| && 0 <= j2 < |MedicalData[i2].hospitals|
    requires i1 < i2 || (i1 == i2 && j1 < j2)
    ensures MedicalData[i1].hospitals[j1].name != MedicalData[i2].hospitals[j2].name
  {
    var x, y := MedicalData[i1].hospitals[j1].name, MedicalData[i2].hospitals[j2].name;
    assert |x| != |y| || x[0] != y[0];
  }

  /** No two positions of the directory hold hospitals with the same name. */
  lemma CatalogHospitalNamesUnique()
    ensures UniqueHospitalNames(MedicalData)
  {
    var m := MedicalData;
    forall i1, j1, i2, j2 | 0 <= i1 < |m| && 0 <= j1 < |m[i1].hospitals| && 0 <= i2 < |m| && 0 <= j2 < |m[i2].hospitals| && (i1 != i2 || j1 != j2)
      ensures m[i1].hospitals[j1].name != m[i2].hospitals[j2].name
    {
      if i1 < i2 || (i1 == i2 && j1 < j2) {
        EarlierHospitalNamesDiffer(i1, j1, i2, j2);
      } else {
        EarlierHospitalNamesDiffer(i2, j2, i1, j1);
      }
    }
  }

  /** With names unique across the directory, a hospital's name is listed by its own area only. */
  lemma HospitalInOneArea(areas: seq<Area>, i1: int, i2: int, h: Hospital)
    requires UniqueHospitalNames(areas)
    requires 0 <= i1 < |areas| && 0 <= i2 < |areas| && i1 != i2 && h in areas[i1].hospitals
    ensures h.name !in HospitalNames(areas[i2].hospitals)
  {
  }

  /** Uniqueness survives dropping the first area. */
  lemma UniqueWithoutFirst(areas: seq<Area>)
    requires areas != [] && UniqueHospitalNames(areas)
    ensures UniqueHospitalNames(areas[1..])
  {
    var rest := areas[1..];
    forall i1, j1, i2, j2 | 0 <= i1 < |rest| && 0 <= j1 < |rest[i1].hospitals| && 0 <= i2 < |rest| && 0 <= j2 < |rest[i2].hospitals|
      && rest[i1].hospitals[j1].name == rest[i2].hospitals[j2].name
      ensures i1 == i2 && j1 == j2
    {
      assert areas[i1 + 1] == rest[i1] && areas[i2 + 1] == rest[i2];
    }
  }

  /** With unique names, a hospital of the first area is named by no later area. */
  lemma FirstAreaNameNotLater(areas: seq<Area>, i: nat)
    requires areas != [] && UniqueHospitalNames(areas) && i < |areas[0].hospitals|
    ensures areas[0].hospitals[i].name !in AllHospitalNames(areas[1..])
  {
    var rest := areas[1..];
    forall a, h | a in rest && h in a.hospitals
      ensures h.name != areas[0].hospitals[i].name
    {
      var k :| 0 <= k < |rest| && rest[k] == a;
      var m :| 0 <= m < |a.hospitals| && a.hospitals[m] == h;
      assert areas[k + 1].hospitals[m] == h;
    }
    AllHospitalNamesMembers(rest);
  }

  /** Names unique across the directory make the flattened onboarding list duplicate-free. */
  lemma {:induction false} FlattenedHospitalsDistinct(areas: seq<Area>)
    requires UniqueHospitalNames(areas)
    ensures Distinct(AllHospitalNames(areas))
  {
    if areas != [] {
      var rest := areas[1..];
      UniqueWithoutFirst(areas);
      FlattenedHospitalsDistinct(rest);
      var head := HospitalNames(areas[0].hospitals);
      var tail := AllHospitalNames(rest);
      forall i, j | 0 <= i < j < |head + tail| ensures (head + tail)[i] != (head + tail)[j] {
        if j < |head| {
          assert head[i] == areas[0].hospitals[i].name && head[j] == areas[0].hospitals[j].name;
        } else if i < |head| {
          FirstAreaNameNotLater(areas, i);
          assert (head + tail)[j] == tail[j - |head|];
        } else {
          assert (head + tail)[i] == tail[i - |head|] && (head + tail)[j] == tail[j - |head|];
        }
      }
    }
  }

  /** Names unique across the directory are unique within each area. */
  lemma UniqueWithinArea(areas: seq<Area>)
    requires UniqueHospitalNames(areas)
    ensures forall a :: a in areas ==> Distinct(HospitalNames(a.hospitals))
  {
    forall a | a in areas ensures Distinct(HospitalNames(a.hospitals)) {
      var k :| 0 <= k < |areas| && areas[k] == a;
      forall i, j | 0 <= i < j < |a.hospitals| ensures HospitalNames(a.hospitals)[i] != HospitalNames(a.hospitals)[j] {
        assert areas[k].hospitals[i].name != areas[k].hospitals[j].name;
      }
    }
  }

  /** No hospital name occurs twice in the whole directory, so the onboarding
      list of hospitals has no duplicates, nor has any one area's list. */
  lemma HospitalNamesDistinct()
    ensures Distinct(AllHospitalNames(MedicalData))
    ensures forall a :: a in MedicalData ==> Distinct(HospitalNames(a.hospitals))
  {
    CatalogHospitalNamesUnique();
    FlattenedHospitalsDistinct(MedicalData);
    UniqueWithinArea(MedicalData);
  }

  /** Every area lists two or three hospitals; every hospital at least two staff doctors. */
  lemma CatalogSizes()
    ensures forall a :: a in MedicalData ==> 2 <= |a.hospitals| <= 3
    ensures forall a, h :: a in MedicalData && h in a.hospitals ==> |h.doctors| >= 2
  {
    forall a | a in MedicalData ensures 2 <= |a.hospitals| <= 3 && forall h :: h in a.hospitals ==> |h.doctors| >= 2 {
      assert a == BanjaraHills || a == JubileeHills || a == Gachibowli || a == Madhapur
        || a == Kukatpally || a == Secunderabad || a == LbNagar;
    }
  }

  /** The name starts with "Dr. ". */
  predicate Titled(d: string) { |d| >= 4 && d[0] == 'D' && d[1] == 'r' && d[2] == '.' && d[3] == ' ' }

  /** Every staff doctor's display name starts with "Dr. ". */
  predicate StaffOfTitled(h: Hospital) { forall d :: d in h.doctors ==> Titled(d) }

  lemma StaffTitled()
    ensures forall a, h, d :: a in MedicalData && h in a.hospitals && d in h.doctors ==> Titled(d)
  {
    StaffTitledInBanjaraHills();
    StaffTitledInJubileeHills();
    StaffTitledInGachibowli();
    StaffTitledInMadhapur();
    StaffTitledInKukatpally();
    StaffTitledInSecunderabad();
    StaffTitledInLbNagar();
  }

  lemma StaffTitledInBanjaraHills() ensures forall h :: h in BanjaraHills.hospitals ==> StaffOfTitled(h) { }
  lemma StaffTitledInJubileeHills() ensures forall h :: h in JubileeHills.hospitals ==> StaffOfTitled(h) { }
  lemma StaffTitledInGachibowli() ensures forall h :: h in Gachibowli.hospitals ==> StaffOfTitled(h) { }
  lemma StaffTitledInMadhapur() ensures forall h :: h in Madhapur.hospitals ==> StaffOfTitled(h) { }
  lemma StaffTitledInKukatpally() ensures forall h :: h in Kukatpally.hospitals ==> StaffOfTitled(h) { }
  lemma StaffTitledInSecunderabad() ensures forall h :: h in Secunderabad.hospitals ==> StaffOfTitled(h) { }
  lemma StaffTitledInLbNagar() ensures forall h :: h in LbNagar.hospitals ==> StaffOfTitled(h) { }

  /** Within a hospital, no two staff doctors share a display name. */
  lemma StaffDistinct()
    ensures forall a, h :: a in MedicalData && h in a.hospitals ==> Distinct(h.doctors)
  {
    forall a, h | a in MedicalData && h in a.hospitals ensures Distinct(h.doctors) {
      var s := h.doctors;
      forall i, j | 0 <= i < j < |s| ensures s[i] != s[j] {
        assert |s[i]| != |s[j]| || s[i][4] != s[j][4];
      }
    }
  }
}
