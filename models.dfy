/**
 * The records of the stroke unit and the small pieces of logic attached to
 * them: a patient's age, display name and sex, the hospital-ID generator run
 * when a patient is first saved, the tPA treatment window of a consultation,
 * and alert acknowledgement.
 *
 * Timestamps are whole seconds; dates are (year, month, day) triples. The
 * current date and time are passed in rather than read from a clock.
 */
module Models {
  import opened Wrappers
  import opened PyText

  // ---------------------------------------------------------------------------
  // Dates and age
  // ---------------------------------------------------------------------------

  datatype Date = Date(year: int, month: int, day: int)

  /** Python's comparison of (month, day) pairs: by month, then by day. */
  predicate MonthDayBefore(month: int, day: int, month': int, day': int)
  {
    month < month' || (month == month' && day < day')
  }

  /** Calendar order on dates: year, then month, then day. */
  predicate Before(x: Date, y: Date)
  {
    x.year < y.year || (x.year == y.year && MonthDayBefore(x.month, x.day, y.month, y.day))
  }

  /** The birthday on which someone born on `dob` turns `n`. */
  function Anniversary(dob: Date, n: int): Date
  {
    Date(dob.year + n, dob.month, dob.day)
  }

  /**
   * `Patient.age`: the year difference, less one when this year's birthday
   * has not come yet. It is the number of birthdays already reached: the
   * `age`-th anniversary is on or before `today` and the next one is after.
   */
  function Age(dob: Date, today: Date): (age: int)
    ensures !Before(today, Anniversary(dob, age))
    ensures Before(today, Anniversary(dob, age + 1))
    ensures !Before(today, dob) ==> age >= 0
  {
    today.year - dob.year - (if MonthDayBefore(today.month, today.day, dob.month, dob.day) then 1 else 0)
  }

  // ---------------------------------------------------------------------------
  // Display properties
  // ---------------------------------------------------------------------------

  /** `Patient.name`: first name, one space, last name. */
  function FullName(first: string, last: string): (name: string)
    ensures |name| == |first| + 1 + |last|
    ensures name[..|first|] == first && name[|first|] == ' ' && name[|first| + 1..] == last
  {
    first + " " + last
  }

  /** `Patient.sex`: the label for the stored gender code; every code other than M and F reads "Other". */
  function Sex(gender: string): (shown: string)
    ensures shown == "Male" <==> gender == "M"
    ensures shown == "Female" <==> gender == "F"
    ensures shown == "Other" <==> gender != "M" && gender != "F"
  {
    if gender == "M" then "Male" else if gender == "F" then "Female" else "Other"
  }

  // ---------------------------------------------------------------------------
  // Hospital IDs
  // ---------------------------------------------------------------------------

  /** The ID given to the first patient, and whenever the previous patient has none. */
  const FirstHospitalId: string := "P-1001"

  /**
   * The ID `Patient.save` assigns to a patient saved without one, from the ID
   * of the most recently created patient (`None` when there is no patient):
   * "P-" and one more than the number after the first '-', zero-padded to
   * four digits. An ID without a '-' raises IndexError; one whose second
   * field is not an integer raises ValueError.
   */
  function NextHospitalId(lastId: Option<string>): (r: Result<string, PyError>)
    ensures lastId.None? || lastId == Some("") ==> r == Ok(FirstHospitalId)
    ensures lastId.Some? && lastId.value != "" && '-' !in lastId.value ==> r == Err(IndexError)
    ensures lastId.Some? && lastId.value != "" && '-' in lastId.value && IdNumber(lastId.value).None? ==>
      r == Err(ValueError)
    ensures lastId.Some? && lastId.value != "" ==> (r.Ok? <==> IdNumber(lastId.value).Some?)
    ensures r.Ok? ==> |r.value| >= 6 && r.value[..2] == "P-"
  {
    if lastId.None? || lastId.value == "" then Ok(FirstHospitalId)
    else
      var fields := Split(lastId.value, '-');
      if |fields| < 2 then Err(IndexError)
      else
        match ParseInt(fields[1])
        case None => Err(ValueError)
        case Some(n) =>
          ParseIntSign(fields[1]);
          Ok("P-" + Format04(n + 1))
  }

  /** The numeric part of an ID the way `Patient.save` reads it: the second '-'-separated field. */
  function IdNumber(id: string): Option<int>
  {
    var fields := Split(id, '-');
    if |fields| < 2 then None else ParseInt(fields[1])
  }

  /**
   * "P-" followed by a dash-free field splits into "P" and that field, so the
   * number read back is the field parsed as an integer.
   */
  lemma IdNumberOfField(field: string)
    requires '-' !in field
    ensures Split("P-" + field, '-') == ["P", field]
    ensures IdNumber("P-" + field) == ParseInt(field)
  {
    SplitPair("P", '-', field);
    assert "P-" + field == "P" + ['-'] + field;
  }

  /**
   * The ID of a new patient carries the previous patient's number plus one,
   * written after "P-" with `:04d`, whatever form the previous ID had.
   */
  lemma NextIdIncrements(lastId: string)
    requires lastId != "" && IdNumber(lastId).Some?
    ensures NextHospitalId(Some(lastId)).Ok?
    ensures IdNumber(NextHospitalId(Some(lastId)).value) == Some(IdNumber(lastId).value + 1)
    ensures IdNumber(lastId).value >= 0
    ensures NextHospitalId(Some(lastId)) == Ok("P-" + Format04(IdNumber(lastId).value + 1))
  {
    var n := IdNumber(lastId).value;
    ParseIntSign(Split(lastId, '-')[1]);
    IdNumberOfField(Format04(n + 1));
    ParseFormat04(n + 1);
  }

  /** Saving after a patient numbered `n` gives exactly the next number in the same format. */
  lemma NextIdAfterFormatted(n: nat)
    ensures NextHospitalId(Some("P-" + Format04(n))) == Ok("P-" + Format04(n + 1))
  {
    IdNumberOfField(Format04(n));
    ParseFormat04(n);
  }

  // ---------------------------------------------------------------------------
  // Patients
  // ---------------------------------------------------------------------------

  /**
   * A patient record. Only the hospital ID is written by the operations
   * modelled here; the other fields are fixed once the record exists.
   */
  class Patient {
    var hospitalId: string
    const firstName: string
    const lastName: string
    const dateOfBirth: Date
    const gender: string

    constructor (hospitalId: string, firstName: string, lastName: string, dateOfBirth: Date, gender: string)
      ensures this.hospitalId == hospitalId && this.firstName == firstName && this.lastName == lastName
      ensures this.dateOfBirth == dateOfBirth && this.gender == gender
    {
      this.hospitalId := hospitalId;
      this.firstName := firstName;
      this.lastName := lastName;
      this.dateOfBirth := dateOfBirth;
      this.gender := gender;
    }

    /**
     * `Patient.save`, up to the write itself: a patient that already has an
     * ID keeps it; otherwise it receives `NextHospitalId` of the most recent
     * patient's ID, and when that raises the ID stays empty and the error is
     * returned.
     */
    method Save(lastId: Option<string>) returns (error: Option<PyError>)
      modifies this`hospitalId
      ensures old(hospitalId) != "" ==> hospitalId == old(hospitalId) && error.None?
      ensures old(hospitalId) == "" && NextHospitalId(lastId).Ok? ==>
        hospitalId == NextHospitalId(lastId).value && error.None?
      ensures old(hospitalId) == "" && NextHospitalId(lastId).Err? ==>
        hospitalId == "" && error == Some(NextHospitalId(lastId).error)
    {
      error := None;
      if hospitalId == "" {
        if lastId.Some? && lastId.value != "" {
          var fields := Split(lastId.value, '-');
          if |fields| < 2 {
            assert NextHospitalId(lastId) == Err(IndexError);
            return Some(IndexError);
          }
          var lastNumber := ParseInt(fields[1]);
          if lastNumber.None? {
            assert NextHospitalId(lastId) == Err(ValueError);
            return Some(ValueError);
          }
          ParseIntSign(fields[1]);
          hospitalId := "P-" + Format04(lastNumber.value + 1);
          assert NextHospitalId(lastId) == Ok(hospitalId);
        } else {
          hospitalId := FirstHospitalId;
        }
      }
    }
  }

  // ---------------------------------------------------------------------------
  // Clinical records read by the alert rules
  // ---------------------------------------------------------------------------

  /** Vital signs; blood pressure is the text "SYS/DIA" as entered. */
  datatype Vitals = Vitals(
    bloodPressure: string,
    heartRate: int,
    oxygenSaturation: real,
    temperature: real,
    bloodGlucose: Option<int>,
    respiratoryRate: Option<int>)

  /** A consultation: `date` is when it was recorded, `symptomOnsetTime` when symptoms began. */
  datatype Consultation = Consultation(
    date: int,
    symptomOnsetTime: Option<int>,
    vitals: Vitals,
    nihssScore: int)

  datatype RecentEvents = RecentEvents(
    recentSurgery: bool,
    recentBiopsy: bool,
    recentHeadTrauma: bool,
    recentStroke: bool,
    recentMi: bool)

  /** The laboratory values the rules read: INR and the platelet count. */
  datatype LabResults = LabResults(inr: Option<real>, plateletCount: Option<int>)

  datatype Consent = Consent(tpaConsent: bool)

  /** Four and a half hours, in seconds. */
  const TpaWindowSeconds: int := 16200

  /**
   * `Consultation.within_tpa_window`: unknown without an onset time;
   * otherwise whether at most 4.5 hours passed between onset and the
   * consultation (an onset recorded after the consultation counts as inside).
   */
  function WithinTpaWindow(c: Consultation): (within: Option<bool>)
    ensures within.None? <==> c.symptomOnsetTime.None?
    ensures within == Some(true) <==> c.symptomOnsetTime.Some? && c.date - c.symptomOnsetTime.value <= 4 * 3600 + 1800
  {
    if c.symptomOnsetTime.None? then None
    else Some(c.date - c.symptomOnsetTime.value <= TpaWindowSeconds)
  }

  // ---------------------------------------------------------------------------
  // Alerts
  // ---------------------------------------------------------------------------

  datatype AlertKind = Critical | Warning | Info

  /**
   * What an alert says, with the values it quotes. Each constructor stands
   * for the description text of one rule of the alert check.
   */
  datatype Reason =
    | NihssElevated(score: int)
    | HighBloodPressure(reading: string)
    | AbnormalHeartRate(bpm: int)
    | LowOxygenSaturation(percent: real)
    | AbnormalTemperature(celsius: real)
    | AbnormalRespiratoryRate(breathsPerMinute: int)
    | GlucoseOutOfRange(mgPerDl: int)
    | BelowTpaAge(age: int)
    | RecentSurgery
    | RecentBiopsy
    | RecentHeadTrauma
    | RecentStroke
    | RecentMyocardialInfarction
    | HighInr(inr: real)
    | LowPlateletCount(count: int)
    | OutsideTpaWindow
    | NoTpaConsent

  datatype User = User(username: string)

  /** An alert raised for a patient; only the acknowledgement fields ever change. */
  class Alert {
    const kind: AlertKind
    const reason: Reason
    const patient: Patient
    const timestamp: int
    var acknowledged: bool
    var acknowledgedBy: Option<User>
    var acknowledgedAt: Option<int>

    /** A new alert is unacknowledged. */
    constructor (kind: AlertKind, reason: Reason, patient: Patient, timestamp: int)
      ensures this.kind == kind && this.reason == reason && this.patient == patient && this.timestamp == timestamp
      ensures !acknowledged && acknowledgedBy.None? && acknowledgedAt.None?
    {
      this.kind := kind;
      this.reason := reason;
      this.patient := patient;
      this.timestamp := timestamp;
      acknowledged := false;
      acknowledgedBy := None;
      acknowledgedAt := None;
    }

    /** `Alert.acknowledge`: record who acknowledged the alert and when. */
    method Acknowledge(user: User, now: int)
      modifies this
      ensures acknowledged && acknowledgedBy == Some(user) && acknowledgedAt == Some(now)
    {
      acknowledged := true;
      acknowledgedBy := Some(user);
      acknowledgedAt := Some(now);
    }
  }
}
