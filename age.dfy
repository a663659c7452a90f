/**
 * `calculateAge` (App.tsx): the age in completed years shown on the patient
 * form, computed from the date of birth and today's date. Dates arrive
 * already split into (year, month, day); today's date is a parameter.
 */
module Age {
  import opened Text

  datatype Date = Date(year: int, month: int, day: int)

  /** The date-of-birth field: empty, text `Date` cannot read (every getter
      then yields NaN), or a calendar date. */
  datatype DobInput = NoDob | InvalidDob | Dob(birth: Date)

  /** Calendar order: by year, then month, then day. */
  predicate NotAfter(a: Date, b: Date)
  {
    a.year < b.year || (a.year == b.year && (a.month < b.month || (a.month == b.month && a.day <= b.day)))
  }

  /** The k-th anniversary of a date (same month and day, k years later). */
  function Anniversary(birth: Date, k: int): Date
  {
    Date(birth.year + k, birth.month, birth.day)
  }

  /**
   * The number of completed years between birth and today: the k-th
   * anniversary has been reached exactly when k is at most this number.
   * It is negative when the birth date lies in the future.
   */
  function CompletedYears(birth: Date, today: Date): (n: int)
    ensures forall k :: NotAfter(Anniversary(birth, k), today) <==> k <= n
  {
    today.year - birth.year
      - (if today.month < birth.month || (today.month == birth.month && today.day < birth.day) then 1 else 0)
  }

  /** What `calculateAge` returns: "" without a date, the completed years
      written in decimal, floored at "0". */
  function AgeText(dob: DobInput, today: Date): (r: string)
    ensures r == "" <==> dob.NoDob?
    ensures r != "" ==> forall i :: 0 <= i < |r| ==> IsDigit(r[i])
    ensures r != "" ==> |r| == 1 || r[0] != '0'
    ensures dob.InvalidDob? ==> r == "0"
    ensures dob.Dob? ==> DecimalValue(r) == if CompletedYears(dob.birth, today) >= 0 then CompletedYears(dob.birth, today) else 0
  {
    match dob
    case NoDob => ""
    case InvalidDob => "0"
    case Dob(birth) =>
      var n := CompletedYears(birth, today);
      if n >= 0 then DecimalRoundTrip(n); Decimal(n) else "0"
  }

  /**
   * `calculateAge`: the year difference, decremented when this year's
   * birthday is still ahead, then printed (negative ages print "0").
   */
  method CalculateAge(dob: DobInput, today: Date) returns (r: string)
    ensures r == AgeText(dob, today)
  {
    if dob.NoDob? {
      return "";
    }
    if dob.InvalidDob? {
      return "0";
    }
    var birth := dob.birth;
    var age := today.year - birth.year;
    var m := today.month - birth.month;
    if m < 0 || (m == 0 && today.day < birth.day) {
      age := age - 1;
    }
    if age >= 0 {
      r := Decimal(age);
    } else {
      r := "0";
    }
  }

  /** On the k-th birthday the shown age is k; on the day before it (same month) it is k - 1. */
  lemma AgeOnBirthday(birth: Date, k: nat)
    ensures AgeText(Dob(birth), Anniversary(birth, k)) == Decimal(k)
    ensures k > 0 ==> AgeText(Dob(birth), Date(birth.year + k, birth.month, birth.day - 1)) == Decimal(k - 1)
  {
    assert NotAfter(Anniversary(birth, k), Anniversary(birth, k));
    assert !NotAfter(Anniversary(birth, k + 1), Anniversary(birth, k));
  }

  /** Ages one day before and on the 24th birthday of 15 June 2000, and a birth date in the future. */
  lemma AgeExamples()
    ensures AgeText(Dob(Date(2000, 6, 15)), Date(2024, 6, 14)) == "23"
    ensures AgeText(Dob(Date(2000, 6, 15)), Date(2024, 6, 15)) == "24"
    ensures AgeText(Dob(Date(2030, 1, 1)), Date(2024, 6, 15)) == "0"
    ensures AgeText(NoDob, Date(2024, 6, 15)) == ""
  {
    assert CompletedYears(Date(2000, 6, 15), Date(2024, 6, 14)) == 23;
    assert Decimal(23) == Decimal(2) + [DigitChar(3)];
    assert Decimal(24) == Decimal(2) + [DigitChar(4)];
  }
}
