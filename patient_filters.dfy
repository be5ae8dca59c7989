/**
 * The `get_systolic` template filter: the systolic number of a "SYS/DIA"
 * blood-pressure reading, for display, with 0 in place of any error.
 */
module PatientFilters {
  import opened Wrappers
  import opened PyText
  import Views

  /**
   * `get_systolic(blood_pressure)`: the integer before the first '/', or the
   * whole reading when it has no '/'. A missing value (`None` has no
   * `split`, an AttributeError) and a piece `int()` rejects (a ValueError)
   * both give 0. Splitting always yields at least one piece, so the
   * IndexError the filter also catches cannot occur for a string.
   */
  function GetSystolic(bloodPressure: Option<string>): (systolic: int)
    ensures bloodPressure.None? ==> systolic == 0
    ensures bloodPressure.Some? && '/' !in bloodPressure.value ==> systolic == ParseInt(bloodPressure.value).GetOr(0)
    ensures bloodPressure.Some? && '/' in bloodPressure.value ==>
      systolic == ParseInt(bloodPressure.value[..FirstIndex(bloodPressure.value, '/')]).GetOr(0)
  {
    if bloodPressure.None? then 0
    else ParseInt(Split(bloodPressure.value, '/')[0]).GetOr(0)
  }

  /** A reading "S/..." whose first field is `str(S)` gives back S, whatever follows the slash. */
  lemma SystolicOfReading(systolic: int, rest: string)
    ensures GetSystolic(Some(ShowInt(systolic) + "/" + rest)) == systolic
  {
    var s := ShowInt(systolic);
    assert s + "/" + rest == s + ['/'] + rest;
    SplitHead(s, '/', rest);
    ParseShowInt(systolic);
  }

  /** A reading without '/' that `str()` wrote for an integer gives that integer back: "120" gives 120. */
  lemma SystolicOfWholeReading(reading: string)
    requires '/' !in reading
    ensures forall n: int :: reading == ShowInt(n) ==> GetSystolic(Some(reading)) == n
  {
    assert Split(reading, '/') == [reading];
    forall n: int | reading == ShowInt(n)
      ensures GetSystolic(Some(reading)) == n
    {
      ParseShowInt(n);
    }
  }

  /**
   * On every reading the alert check accepts, the filter shows the same
   * systolic value the check compares against 185.
   */
  lemma SystolicAgreesWithCheck(reading: string)
    ensures Views.ParseBloodPressure(reading).Some? ==>
      GetSystolic(Some(reading)) == Views.ParseBloodPressure(reading).value.0
  {
  }
}
