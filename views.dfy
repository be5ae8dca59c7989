/**
 * The alert check run after a consultation is recorded. It applies a fixed
 * sequence of threshold rules to the patient and the consultation and, for
 * each rule that fires, appends one alert for the patient to the alert store.
 *
 * The rules are described once, as data (`RuleId`, `Fires`, `ReasonFor`);
 * `Evaluate` gives the batch a run creates, and `AlertStore.CheckAlerts` is
 * the step-by-step procedure, proved to append exactly that batch.
 */
module Views {
  import opened Wrappers
  import opened PyText
  import opened Models

  // ---------------------------------------------------------------------------
  // Blood-pressure reading
  // ---------------------------------------------------------------------------

  /**
   * `systolic, diastolic = map(int, reading.split('/'))`: exactly two
   * '/'-separated fields, each an integer; anything else raises ValueError
   * (`None`).
   */
  function ParseBloodPressure(reading: string): (pressure: Option<(int, int)>)
    ensures '/' !in reading ==> pressure.None?
    ensures pressure.Some? ==> '/' in reading && '/' !in reading[FirstIndex(reading, '/') + 1..]
  {
    SplitInTwo(reading, '/');
    var fields := Split(reading, '/');
    if |fields| == 2 && ParseInt(fields[0]).Some? && ParseInt(fields[1]).Some? then
      Some((ParseInt(fields[0]).value, ParseInt(fields[1]).value))
    else None
  }

  /**
   * A reading made of two slash-free fields around one '/' parses iff both
   * fields are integers, and then gives the two integers in order.
   */
  lemma ParseBloodPressureOfFields(systolic: string, diastolic: string)
    requires '/' !in systolic && '/' !in diastolic
    ensures ParseBloodPressure(systolic + "/" + diastolic) ==
      if ParseInt(systolic).Some? && ParseInt(diastolic).Some? then
        Some((ParseInt(systolic).value, ParseInt(diastolic).value))
      else None
  {
    assert systolic + "/" + diastolic == systolic + ['/'] + diastolic;
    SplitPair(systolic, '/', diastolic);
  }

  /** A reading written as "SYS/DIA" parses back to the two numbers. */
  lemma ParseBloodPressureOfReading(systolic: int, diastolic: int)
    ensures ParseBloodPressure(ShowInt(systolic) + "/" + ShowInt(diastolic)) == Some((systolic, diastolic))
  {
    var s, d := ShowInt(systolic), ShowInt(diastolic);
    assert s + "/" + d == s + ['/'] + d;
    SplitPair(s, '/', d);
    ParseShowInt(systolic);
    ParseShowInt(diastolic);
  }

  // ---------------------------------------------------------------------------
  // The rules
  // ---------------------------------------------------------------------------

  /**
   * Everything one run of the check reads: the patient's age, the
   * consultation with its related records, and the consultation's
   * blood-pressure reading as parsed (`None` when it does not parse).
   */
  datatype Assessment = Assessment(
    age: int,
    consultation: Consultation,
    pressure: Option<(int, int)>,
    recentEvents: Option<RecentEvents>,
    labResults: Option<LabResults>,
    consent: Option<Consent>)

  /** The assessment of a consultation: the blood-pressure field is the parse of its reading. */
  function Assess(age: int, consultation: Consultation, recentEvents: Option<RecentEvents>,
                  labResults: Option<LabResults>, consent: Option<Consent>): Assessment
  {
    Assessment(age, consultation, ParseBloodPressure(consultation.vitals.bloodPressure), recentEvents, labResults, consent)
  }

  datatype RuleId =
    | NihssRule | BloodPressureRule | HeartRateRule | OxygenRule | TemperatureRule
    | RespiratoryRateRule | GlucoseRule | AgeRule
    | SurgeryRule | BiopsyRule | HeadTraumaRule | StrokeRule | MyocardialInfarctionRule
    | InrRule | PlateletRule | TpaWindowRule | ConsentRule

  /** The position at which the check applies each rule. */
  function Rank(rule: RuleId): nat
  {
    match rule
    case NihssRule => 0
    case BloodPressureRule => 1
    case HeartRateRule => 2
    case OxygenRule => 3
    case TemperatureRule => 4
    case RespiratoryRateRule => 5
    case GlucoseRule => 6
    case AgeRule => 7
    case SurgeryRule => 8
    case BiopsyRule => 9
    case HeadTraumaRule => 10
    case StrokeRule => 11
    case MyocardialInfarctionRule => 12
    case InrRule => 13
    case PlateletRule => 14
    case TpaWindowRule => 15
    case ConsentRule => 16
  }

  /** Every rule, in the order the check applies them. */
  const AllRules: seq<RuleId> := [
    NihssRule, BloodPressureRule, HeartRateRule, OxygenRule, TemperatureRule,
    RespiratoryRateRule, GlucoseRule, AgeRule,
    SurgeryRule, BiopsyRule, HeadTraumaRule, StrokeRule, MyocardialInfarctionRule,
    InrRule, PlateletRule, TpaWindowRule, ConsentRule]

  /** The alert type each rule raises. */
  function KindOf(rule: RuleId): AlertKind
  {
    match rule
    case NihssRule => Warning
    case HeartRateRule => Warning
    case OxygenRule => Warning
    case TemperatureRule => Warning
    case RespiratoryRateRule => Warning
    case _ => Critical
  }

  /**
   * The condition under which each rule raises its alert. Optional inputs
   * that are missing switch their rule off; the respiratory rate, the INR
   * and the platelet count are also skipped when zero, since the check tests
   * them for truth, while a glucose of zero is compared with its range.
   */
  predicate Fires(rule: RuleId, a: Assessment)
  {
    var c := a.consultation;
    var v := c.vitals;
    match rule
    case NihssRule => c.nihssScore >= 4
    case BloodPressureRule => a.pressure.Some? && (a.pressure.value.0 > 185 || a.pressure.value.1 > 110)
    case HeartRateRule => v.heartRate < 60 || v.heartRate > 100
    case OxygenRule => v.oxygenSaturation < 95.0
    case TemperatureRule => v.temperature < 36.1 || v.temperature > 38.0
    case RespiratoryRateRule =>
      v.respiratoryRate.Some? && v.respiratoryRate.value != 0
      && (v.respiratoryRate.value < 12 || v.respiratoryRate.value > 20)
    case GlucoseRule =>
      v.bloodGlucose.Some? && (v.bloodGlucose.value < 50 || v.bloodGlucose.value > 400)
    case AgeRule => a.age < 18
    case InrRule =>
      a.labResults.Some? && a.labResults.value.inr.Some?
      && a.labResults.value.inr.value != 0.0 && a.labResults.value.inr.value > 1.7
    case PlateletRule =>
      a.labResults.Some? && a.labResults.value.plateletCount.Some?
      && a.labResults.value.plateletCount.value != 0 && a.labResults.value.plateletCount.value < 100000
    case TpaWindowRule => c.symptomOnsetTime.Some? && WithinTpaWindow(c) == Some(false)
    case SurgeryRule => a.recentEvents.Some? && a.recentEvents.value.recentSurgery
    case BiopsyRule => a.recentEvents.Some? && a.recentEvents.value.recentBiopsy
    case HeadTraumaRule => a.recentEvents.Some? && a.recentEvents.value.recentHeadTrauma
    case StrokeRule => a.recentEvents.Some? && a.recentEvents.value.recentStroke
    case MyocardialInfarctionRule => a.recentEvents.Some? && a.recentEvents.value.recentMi
    case ConsentRule => a.consent.Some? && !a.consent.value.tpaConsent
  }

  /** Which rule an alert description belongs to. */
  function RuleOf(reason: Reason): RuleId
  {
    match reason
    case NihssElevated(_) => NihssRule
    case HighBloodPressure(_) => BloodPressureRule
    case AbnormalHeartRate(_) => HeartRateRule
    case LowOxygenSaturation(_) => OxygenRule
    case AbnormalTemperature(_) => TemperatureRule
    case AbnormalRespiratoryRate(_) => RespiratoryRateRule
    case GlucoseOutOfRange(_) => GlucoseRule
    case BelowTpaAge(_) => AgeRule
    case RecentSurgery => SurgeryRule
    case RecentBiopsy => BiopsyRule
    case RecentHeadTrauma => HeadTraumaRule
    case RecentStroke => StrokeRule
    case RecentMyocardialInfarction => MyocardialInfarctionRule
    case HighInr(_) => InrRule
    case LowPlateletCount(_) => PlateletRule
    case OutsideTpaWindow => TpaWindowRule
    case NoTpaConsent => ConsentRule
  }

  /** The description a rule writes, quoting the values it compared. */
  function ReasonFor(rule: RuleId, a: Assessment): (reason: Reason)
    ensures RuleOf(reason) == rule
  {
    var c := a.consultation;
    var v := c.vitals;
    match rule
    case NihssRule => NihssElevated(c.nihssScore)
    case BloodPressureRule => HighBloodPressure(v.bloodPressure)
    case HeartRateRule => AbnormalHeartRate(v.heartRate)
    case OxygenRule => LowOxygenSaturation(v.oxygenSaturation)
    case TemperatureRule => AbnormalTemperature(v.temperature)
    case RespiratoryRateRule => AbnormalRespiratoryRate(v.respiratoryRate.GetOr(0))
    case GlucoseRule => GlucoseOutOfRange(v.bloodGlucose.GetOr(0))
    case AgeRule => BelowTpaAge(a.age)
    case SurgeryRule => RecentSurgery
    case BiopsyRule => RecentBiopsy
    case HeadTraumaRule => RecentHeadTrauma
    case StrokeRule => RecentStroke
    case MyocardialInfarctionRule => RecentMyocardialInfarction
    case InrRule => HighInr(if a.labResults.Some? then a.labResults.value.inr.GetOr(0.0) else 0.0)
    case PlateletRule =>
      LowPlateletCount(if a.labResults.Some? then a.labResults.value.plateletCount.GetOr(0) else 0)
    case TpaWindowRule => OutsideTpaWindow
    case ConsentRule => NoTpaConsent
  }

  /** The alert one rule contributes: its description when it fires, nothing otherwise. */
  function Emit(rule: RuleId, a: Assessment): seq<Reason>
  {
    if Fires(rule, a) then [ReasonFor(rule, a)] else []
  }

  /** The alerts raised by applying `rules` one after the other. */
  function Emitted(rules: seq<RuleId>, a: Assessment): seq<Reason>
    decreases |rules|
  {
    if rules == [] then []
    else Emitted(rules[..|rules| - 1], a) + Emit(rules[|rules| - 1], a)
  }

  /** The rules a run gets to: all of them, or only the NIHSS rule when the blood-pressure reading raises. */
  function RulesReached(a: Assessment): seq<RuleId>
  {
    if a.pressure.None? then AllRules[..1] else AllRules
  }

  /** What one run of the check produces: the alerts it appends, and the exception it stops with, if any. */
  datatype Evaluation = Evaluation(reasons: seq<Reason>, failure: Option<PyError>)

  function Evaluate(a: Assessment): Evaluation
  {
    Evaluation(
      Emitted(RulesReached(a), a),
      if a.pressure.None? then Some(ValueError) else None)
  }

  // ---------------------------------------------------------------------------
  // Properties of the batch
  // ---------------------------------------------------------------------------

  /** `rules` lists rules in check order, each at most once. */
  predicate Ranked(rules: seq<RuleId>)
  {
    forall i, j :: 0 <= i < j < |rules| ==> Rank(rules[i]) < Rank(rules[j])
  }

  /** Alerts ordered by the position of their rules, hence at most one per rule. */
  predicate InRuleOrder(reasons: seq<Reason>)
  {
    forall i, j :: 0 <= i < j < |reasons| ==> Rank(RuleOf(reasons[i])) < Rank(RuleOf(reasons[j]))
  }

  /** An alert of `rule` is among `reasons`. */
  predicate Raised(rule: RuleId, reasons: seq<Reason>)
  {
    exists x :: x in reasons && RuleOf(x) == rule
  }

  /** The rules among `rules` whose condition holds. */
  function FiredAmong(rules: seq<RuleId>, a: Assessment): set<RuleId>
  {
    set rule | rule in rules && Fires(rule, a)
  }

  lemma EmittedStep(rules: seq<RuleId>, k: nat, a: Assessment)
    requires k < |rules|
    ensures Emitted(rules[..k + 1], a) == Emitted(rules[..k], a) + Emit(rules[k], a)
  {
    assert rules[..k + 1][..k] == rules[..k];
  }

  /** Every alert comes from a rule that was applied and fired, and quotes that rule's values. */
  lemma {:induction false} EmittedSound(rules: seq<RuleId>, a: Assessment)
    ensures forall x :: x in Emitted(rules, a) ==>
      RuleOf(x) in rules && Fires(RuleOf(x), a) && x == ReasonFor(RuleOf(x), a)
    decreases |rules|
  {
    if rules != [] {
      var prefix := rules[..|rules| - 1];
      EmittedSound(prefix, a);
      assert forall r :: r in prefix ==> r in rules;
    }
  }

  /** Every applied rule that fires contributes its alert. */
  lemma {:induction false} EmittedComplete(rules: seq<RuleId>, a: Assessment)
    ensures forall rule :: rule in rules && Fires(rule, a) ==> ReasonFor(rule, a) in Emitted(rules, a)
    decreases |rules|
  {
    if rules != [] {
      var prefix := rules[..|rules| - 1];
      EmittedComplete(prefix, a);
      assert rules == prefix + [rules[|rules| - 1]];
    }
  }

  /** Rules applied in check order give alerts in check order. */
  lemma {:induction false} EmittedInOrder(rules: seq<RuleId>, a: Assessment)
    requires Ranked(rules)
    ensures InRuleOrder(Emitted(rules, a))
    decreases |rules|
  {
    if rules != [] {
      var prefix := rules[..|rules| - 1];
      var last := rules[|rules| - 1];
      EmittedInOrder(prefix, a);
      EmittedSound(prefix, a);
      var before := Emitted(prefix, a);
      forall i | 0 <= i < |before|
        ensures Rank(RuleOf(before[i])) < Rank(last)
      {
        assert before[i] in before;
        var k :| 0 <= k < |prefix| && prefix[k] == RuleOf(before[i]);
      }
    }
  }

  /** One alert per fired rule: the batch is as long as the set of rules that fired. */
  lemma {:induction false} EmittedCount(rules: seq<RuleId>, a: Assessment)
    requires Ranked(rules)
    ensures |Emitted(rules, a)| == |FiredAmong(rules, a)|
    decreases |rules|
  {
    if rules == [] {
      assert FiredAmong(rules, a) == {};
    } else {
      var prefix := rules[..|rules| - 1];
      var last := rules[|rules| - 1];
      assert Ranked(prefix);
      EmittedCount(prefix, a);
      var before := FiredAmong(prefix, a);
      forall k | 0 <= k < |prefix|
        ensures prefix[k] != last
      {
        assert Rank(rules[k]) < Rank(rules[|rules| - 1]);
      }
      assert last !in before;
      assert rules == prefix + [last];
      FiredAmongSnoc(prefix, last, a);
    }
  }

  lemma FiredAmongSnoc(rules: seq<RuleId>, last: RuleId, a: Assessment)
    ensures FiredAmong(rules + [last], a) == FiredAmong(rules, a) + (if Fires(last, a) then {last} else {})
  {
  }

  lemma AllRulesRanked()
    ensures Ranked(AllRules) && Ranked(AllRules[..1])
    ensures forall rule :: rule in AllRules
    ensures AllRules[..1] == [NihssRule]
  {
    assert forall i :: 0 <= i < |AllRules| ==> Rank(AllRules[i]) == i;
    forall rule ensures rule in AllRules {
      assert AllRules[Rank(rule)] == rule;
    }
  }

  /** The rules a run reaches: all of them when the reading parses, the NIHSS rule alone otherwise. */
  lemma RulesReachedByPressure(a: Assessment)
    ensures a.pressure.None? ==> RulesReached(a) == [NihssRule]
    ensures a.pressure.Some? ==> RulesReached(a) == AllRules
    ensures forall rule :: rule in RulesReached(a) <==> rule == NihssRule || a.pressure.Some?
  {
    AllRulesRanked();
  }

  /**
   * The batch of one run of the check: it stops with ValueError exactly when
   * the blood-pressure reading is malformed, and then only the NIHSS rule has
   * run; among the rules reached, a rule's alert is present iff its condition
   * holds; every alert quotes the values of its rule; alerts follow the rule
   * order, so no rule raises twice; and the batch is as long as the number of
   * rules reached that fired.
   */
  lemma CheckAlertsBatch(a: Assessment)
    ensures var e := Evaluate(a);
      && (e.failure.Some? <==> a.pressure.None?)
      && (e.failure.Some? ==> e.failure == Some(ValueError) && RulesReached(a) == [NihssRule])
      && (e.failure.None? ==> RulesReached(a) == AllRules)
      && (forall rule :: ReasonFor(rule, a) in e.reasons <==> rule in RulesReached(a) && Fires(rule, a))
      && (forall rule :: Raised(rule, e.reasons) <==> rule in RulesReached(a) && Fires(rule, a))
      && (forall x :: x in e.reasons ==> x == ReasonFor(RuleOf(x), a))
      && InRuleOrder(e.reasons)
      && |e.reasons| == |FiredAmong(RulesReached(a), a)|
  {
    var rules := RulesReached(a);
    AllRulesRanked();
    EmittedSound(rules, a);
    EmittedComplete(rules, a);
    EmittedInOrder(rules, a);
    EmittedCount(rules, a);
  }

  /**
   * One rule in one run: its alert is present iff the rule is reached (it is
   * the NIHSS rule, or the blood-pressure reading parsed) and its condition
   * holds; an alert of the rule quotes the rule's values; and the rule
   * raises at most once.
   */
  lemma RuleOutcome(rule: RuleId, a: Assessment)
    ensures var e := Evaluate(a); var reached := rule == NihssRule || e.failure.None?;
      && (ReasonFor(rule, a) in e.reasons <==> reached && Fires(rule, a))
      && (Raised(rule, e.reasons) <==> reached && Fires(rule, a))
      && (forall x :: x in e.reasons && RuleOf(x) == rule ==> x == ReasonFor(rule, a))
      && (forall i, j :: 0 <= i < j < |e.reasons| ==> RuleOf(e.reasons[i]) != RuleOf(e.reasons[j]))
  {
    CheckAlertsBatch(a);
    RulesReachedByPressure(a);
  }

  /** NIHSS (`NihssRule`, rank 0): one warning quoting the score iff the score is at least 4, even when a later rule raises. */
  lemma NihssRuleHolds(a: Assessment)
    ensures var e := Evaluate(a); var score := a.consultation.nihssScore;
      && (NihssElevated(score) in e.reasons <==> score >= 4)
      && (forall x :: x in e.reasons && x.NihssElevated? ==> x == NihssElevated(score))
      && KindOf(NihssRule) == Warning
  {
    RuleOutcome(NihssRule, a);
  }

  /**
   * Blood pressure (`BloodPressureRule`, rank 1): a malformed reading stops the check with
   * ValueError, leaving only what the NIHSS rule appended; a well-formed one
   * raises a critical alert iff systolic > 185 or diastolic > 110.
   */
  lemma BloodPressureRuleHolds(age: int, consultation: Consultation, recentEvents: Option<RecentEvents>,
                               labResults: Option<LabResults>, consent: Option<Consent>)
    ensures var e := Evaluate(Assess(age, consultation, recentEvents, labResults, consent));
      var reading := consultation.vitals.bloodPressure; var score := consultation.nihssScore;
      && (ParseBloodPressure(reading).None? ==>
            e.failure == Some(ValueError) && e.reasons == (if score >= 4 then [NihssElevated(score)] else []))
      && (ParseBloodPressure(reading).Some? ==>
            var (systolic, diastolic) := ParseBloodPressure(reading).value;
            e.failure.None? && (HighBloodPressure(reading) in e.reasons <==> systolic > 185 || diastolic > 110))
      && KindOf(BloodPressureRule) == Critical
  {
    var a := Assess(age, consultation, recentEvents, labResults, consent);
    if a.pressure.None? {
      FailedRunHoldsFirstRule(a);
    } else {
      RuleOutcome(BloodPressureRule, a);
    }
  }

  /**
   * Vital signs (ranks 2 to 6), once the blood pressure has parsed: heart
   * rate outside [60, 100], oxygen saturation below 95, temperature outside
   * [36.1, 38], a nonzero respiratory rate outside [12, 20] and a recorded
   * glucose outside [50, 400] each raise their alert, and nothing else does.
   */
  lemma VitalSignRulesHold(a: Assessment)
    ensures var e := Evaluate(a); var v := a.consultation.vitals;
      && (Raised(HeartRateRule, e.reasons) <==> e.failure.None? && (v.heartRate < 60 || v.heartRate > 100))
      && (Raised(OxygenRule, e.reasons) <==> e.failure.None? && v.oxygenSaturation < 95.0)
      && (Raised(TemperatureRule, e.reasons) <==> e.failure.None? && (v.temperature < 36.1 || v.temperature > 38.0))
      && (Raised(RespiratoryRateRule, e.reasons) <==>
            e.failure.None? && v.respiratoryRate.Some? && v.respiratoryRate.value != 0
            && (v.respiratoryRate.value < 12 || v.respiratoryRate.value > 20))
      && (Raised(GlucoseRule, e.reasons) <==>
            e.failure.None? && v.bloodGlucose.Some? && (v.bloodGlucose.value < 50 || v.bloodGlucose.value > 400))
      && (forall x :: x in e.reasons && x.AbnormalHeartRate? ==> x.bpm == v.heartRate)
      && (forall x :: x in e.reasons && x.LowOxygenSaturation? ==> x.percent == v.oxygenSaturation)
      && (forall x :: x in e.reasons && x.AbnormalTemperature? ==> x.celsius == v.temperature)
      && (forall x :: x in e.reasons && x.AbnormalRespiratoryRate? ==> Some(x.breathsPerMinute) == v.respiratoryRate)
      && (forall x :: x in e.reasons && x.GlucoseOutOfRange? ==> Some(x.mgPerDl) == v.bloodGlucose)
      && KindOf(HeartRateRule) == KindOf(OxygenRule) == KindOf(TemperatureRule) == Warning
      && KindOf(RespiratoryRateRule) == Warning && KindOf(GlucoseRule) == Critical
  {
    RuleOutcome(HeartRateRule, a);
    RuleOutcome(OxygenRule, a);
    RuleOutcome(TemperatureRule, a);
    RuleOutcome(RespiratoryRateRule, a);
    RuleOutcome(GlucoseRule, a);
  }

  /** Age (`AgeRule`, rank 7): a critical alert quoting the age iff the patient is under 18. */
  lemma AgeRuleHolds(a: Assessment)
    ensures var e := Evaluate(a);
      && (BelowTpaAge(a.age) in e.reasons <==> e.failure.None? && a.age < 18)
      && (forall x :: x in e.reasons && x.BelowTpaAge? ==> x.age == a.age)
      && KindOf(AgeRule) == Critical
  {
    RuleOutcome(AgeRule, a);
  }

  /**
   * Recent events (ranks 8 to 12): with a record, one critical alert per
   * flag that is set; without a record, none.
   */
  lemma RecentEventRulesHold(a: Assessment)
    ensures var e := Evaluate(a); var present := e.failure.None? && a.recentEvents.Some?;
      && (RecentSurgery in e.reasons <==> present && a.recentEvents.value.recentSurgery)
      && (RecentBiopsy in e.reasons <==> present && a.recentEvents.value.recentBiopsy)
      && (RecentHeadTrauma in e.reasons <==> present && a.recentEvents.value.recentHeadTrauma)
      && (RecentStroke in e.reasons <==> present && a.recentEvents.value.recentStroke)
      && (RecentMyocardialInfarction in e.reasons <==> present && a.recentEvents.value.recentMi)
      && KindOf(SurgeryRule) == KindOf(BiopsyRule) == KindOf(HeadTraumaRule) == Critical
      && KindOf(StrokeRule) == KindOf(MyocardialInfarctionRule) == Critical
  {
    RuleOutcome(SurgeryRule, a);
    RuleOutcome(BiopsyRule, a);
    RuleOutcome(HeadTraumaRule, a);
    RuleOutcome(StrokeRule, a);
    RuleOutcome(MyocardialInfarctionRule, a);
  }


  /**
   * Laboratory results (ranks 13 and 14): with a record, a nonzero INR above
   * 1.7 and a nonzero platelet count below 100000 each raise a critical
   * alert quoting the value; without a record, neither does.
   */
  lemma LabRulesHold(a: Assessment)
    ensures var e := Evaluate(a); var labs := a.labResults;
      && (Raised(InrRule, e.reasons) <==>
            e.failure.None? && labs.Some? && labs.value.inr.Some?
            && labs.value.inr.value != 0.0 && labs.value.inr.value > 1.7)
      && (Raised(PlateletRule, e.reasons) <==>
            e.failure.None? && labs.Some? && labs.value.plateletCount.Some?
            && labs.value.plateletCount.value != 0 && labs.value.plateletCount.value < 100000)
      && (forall x :: x in e.reasons && x.HighInr? ==> labs.Some? && Some(x.inr) == labs.value.inr)
      && (forall x :: x in e.reasons && x.LowPlateletCount? ==>
            labs.Some? && Some(x.count) == labs.value.plateletCount)
      && KindOf(InrRule) == KindOf(PlateletRule) == Critical
  {
    RuleOutcome(InrRule, a);
    RuleOutcome(PlateletRule, a);
  }

  /**
   * Treatment window and consent (ranks 15 and 16): the window alert is
   * raised iff an onset time is recorded and more than 16200 seconds passed
   * before the consultation; the consent alert iff a consent record exists
   * and refuses tPA. A missing consent record raises nothing.
   */
  lemma WindowAndConsentRulesHold(a: Assessment)
    ensures var e := Evaluate(a); var c := a.consultation;
      && (OutsideTpaWindow in e.reasons <==>
            e.failure.None? && c.symptomOnsetTime.Some? && c.date - c.symptomOnsetTime.value > 16200)
      && (NoTpaConsent in e.reasons <==> e.failure.None? && a.consent.Some? && !a.consent.value.tpaConsent)
      && KindOf(TpaWindowRule) == KindOf(ConsentRule) == Critical
  {
    RuleOutcome(TpaWindowRule, a);
    RuleOutcome(ConsentRule, a);
  }

  /** A failed parse leaves the batch of the first rule alone, with ValueError. */
  lemma FailedRunHoldsFirstRule(a: Assessment)
    ensures a.pressure.None? ==> Evaluate(a) == Evaluation(Emit(NihssRule, a), Some(ValueError))
  {
    EmittedStep(AllRules, 0, a);
    assert AllRules[..0] == [];
  }

  /**
   * The batch of a run, written rule by rule in check order: the first rule
   * alone, and all seventeen.
   */
  lemma CheckOrder(a: Assessment)
    ensures Emitted(AllRules[..1], a) == [] + Emit(NihssRule, a)
    ensures Emitted(AllRules, a) == [] + Emit(NihssRule, a) + Emit(BloodPressureRule, a)
      + Emit(HeartRateRule, a) + Emit(OxygenRule, a) + Emit(TemperatureRule, a)
      + Emit(RespiratoryRateRule, a) + Emit(GlucoseRule, a) + Emit(AgeRule, a)
      + Emit(SurgeryRule, a) + Emit(BiopsyRule, a) + Emit(HeadTraumaRule, a)
      + Emit(StrokeRule, a) + Emit(MyocardialInfarctionRule, a)
      + Emit(InrRule, a) + Emit(PlateletRule, a) + Emit(TpaWindowRule, a) + Emit(ConsentRule, a)
  {
    assert AllRules[..0] == [];
    EmittedStep(AllRules, 0, a);
    EmittedStep(AllRules, 1, a);
    EmittedStep(AllRules, 2, a);
    EmittedStep(AllRules, 3, a);
    EmittedStep(AllRules, 4, a);
    EmittedStep(AllRules, 5, a);
    EmittedStep(AllRules, 6, a);
    EmittedStep(AllRules, 7, a);
    EmittedStep(AllRules, 8, a);
    EmittedStep(AllRules, 9, a);
    EmittedStep(AllRules, 10, a);
    EmittedStep(AllRules, 11, a);
    EmittedStep(AllRules, 12, a);
    EmittedStep(AllRules, 13, a);
    EmittedStep(AllRules, 14, a);
    EmittedStep(AllRules, 15, a);
    EmittedStep(AllRules, 16, a);
    assert AllRules[..17] == AllRules;
  }

  // ---------------------------------------------------------------------------
  // The alert store and the check itself
  // ---------------------------------------------------------------------------

  /** What a stored alert records when it is created: type, description, patient and time. */
  datatype AlertRecord = AlertRecord(kind: AlertKind, reason: Reason, patient: Patient, timestamp: int)

  function RecordOf(alert: Alert): AlertRecord
  {
    AlertRecord(alert.kind, alert.reason, alert.patient, alert.timestamp)
  }

  /** The records of a list of alerts, in order. */
  function Records(alerts: seq<Alert>): seq<AlertRecord>
  {
    if alerts == [] then [] else [RecordOf(alerts[0])] + Records(alerts[1..])
  }

  /** The record of an alert the check creates for `reason`: its rule's type, for `patient`, at `now`. */
  function NewRecord(reason: Reason, patient: Patient, now: int): AlertRecord
  {
    AlertRecord(KindOf(RuleOf(reason)), reason, patient, now)
  }

  /** The alerts the check creates for `reasons`, in order. */
  function Planned(reasons: seq<Reason>, patient: Patient, now: int): seq<AlertRecord>
  {
    if reasons == [] then [] else [NewRecord(reasons[0], patient, now)] + Planned(reasons[1..], patient, now)
  }

  lemma {:induction false} RecordsAppend(xs: seq<Alert>, ys: seq<Alert>)
    ensures Records(xs + ys) == Records(xs) + Records(ys)
    decreases |xs|
  {
    if xs == [] {
      assert xs + ys == ys;
    } else {
      assert (xs + ys)[1..] == xs[1..] + ys;
      RecordsAppend(xs[1..], ys);
      var head := [RecordOf(xs[0])];
      assert head + (Records(xs[1..]) + Records(ys)) == head + Records(xs[1..]) + Records(ys);
    }
  }

  lemma {:induction false} PlannedAppend(rs: seq<Reason>, more: seq<Reason>, patient: Patient, now: int)
    ensures Planned(rs + more, patient, now) == Planned(rs, patient, now) + Planned(more, patient, now)
    decreases |rs|
  {
    if rs == [] {
      assert rs + more == more;
    } else {
      assert (rs + more)[1..] == rs[1..] + more;
      PlannedAppend(rs[1..], more, patient, now);
      var head := [NewRecord(rs[0], patient, now)];
      assert head + (Planned(rs[1..], patient, now) + Planned(more, patient, now))
          == head + Planned(rs[1..], patient, now) + Planned(more, patient, now);
    }
  }

  /** Planned alerts one by one: as many as reasons, the `k`-th for the `k`-th reason. */
  lemma {:induction false} PlannedAt(reasons: seq<Reason>, patient: Patient, now: int)
    ensures |Planned(reasons, patient, now)| == |reasons|
    ensures forall k :: 0 <= k < |reasons| ==> Planned(reasons, patient, now)[k] == NewRecord(reasons[k], patient, now)
    decreases |reasons|
  {
    if reasons != [] {
      PlannedAt(reasons[1..], patient, now);
    }
  }

  /** The alerts one rule of the check creates: its own alert when it fires, nothing otherwise. */
  function Created(rule: RuleId, a: Assessment, patient: Patient, now: int): seq<AlertRecord>
  {
    if Fires(rule, a) then [AlertRecord(KindOf(rule), ReasonFor(rule, a), patient, now)] else []
  }

  /** Planning one more rule's alerts appends what that rule creates. */
  lemma PlannedSnoc(done: seq<Reason>, rule: RuleId, a: Assessment, patient: Patient, now: int)
    ensures Planned(done + Emit(rule, a), patient, now) == Planned(done, patient, now) + Created(rule, a, patient, now)
  {
    PlannedAppend(done, Emit(rule, a), patient, now);
    if Fires(rule, a) {
      assert Emit(rule, a)[1..] == [];
    }
  }

  /** The alerts of a run, written rule by rule in check order. */
  lemma PlannedCheckOrder(a: Assessment, patient: Patient, now: int)
    ensures a.pressure.None? ==> Planned(Evaluate(a).reasons, patient, now) == [] + Created(NihssRule, a, patient, now)
    ensures a.pressure.Some? ==> (Planned(Evaluate(a).reasons, patient, now) == []
      + Created(NihssRule, a, patient, now)
      + Created(BloodPressureRule, a, patient, now)
      + Created(HeartRateRule, a, patient, now)
      + Created(OxygenRule, a, patient, now)
      + Created(TemperatureRule, a, patient, now)
      + Created(RespiratoryRateRule, a, patient, now)
      + Created(GlucoseRule, a, patient, now)
      + Created(AgeRule, a, patient, now)
      + Created(SurgeryRule, a, patient, now)
      + Created(BiopsyRule, a, patient, now)
      + Created(HeadTraumaRule, a, patient, now)
      + Created(StrokeRule, a, patient, now)
      + Created(MyocardialInfarctionRule, a, patient, now)
      + Created(InrRule, a, patient, now)
      + Created(PlateletRule, a, patient, now)
      + Created(TpaWindowRule, a, patient, now)
      + Created(ConsentRule, a, patient, now))
  {
    CheckOrder(a);
    var reasons: seq<Reason>, rows: seq<AlertRecord> := [], [];
    PlannedSnoc(reasons, NihssRule, a, patient, now);
    reasons, rows := reasons + Emit(NihssRule, a), rows + Created(NihssRule, a, patient, now);
    assert Planned(Emitted(AllRules[..1], a), patient, now) == rows;
    PlannedSnoc(reasons, BloodPressureRule, a, patient, now);
    reasons, rows := reasons + Emit(BloodPressureRule, a), rows + Created(BloodPressureRule, a, patient, now);
    PlannedSnoc(reasons, HeartRateRule, a, patient, now);
    reasons, rows := reasons + Emit(HeartRateRule, a), rows + Created(HeartRateRule, a, patient, now);
    PlannedSnoc(reasons, OxygenRule, a, patient, now);
    reasons, rows := reasons + Emit(OxygenRule, a), rows + Created(OxygenRule, a, patient, now);
    PlannedSnoc(reasons, TemperatureRule, a, patient, now);
    reasons, rows := reasons + Emit(TemperatureRule, a), rows + Created(TemperatureRule, a, patient, now);
    PlannedSnoc(reasons, RespiratoryRateRule, a, patient, now);
    reasons, rows := reasons + Emit(RespiratoryRateRule, a), rows + Created(RespiratoryRateRule, a, patient, now);
    PlannedSnoc(reasons, GlucoseRule, a, patient, now);
    reasons, rows := reasons + Emit(GlucoseRule, a), rows + Created(GlucoseRule, a, patient, now);
    PlannedSnoc(reasons, AgeRule, a, patient, now);
    reasons, rows := reasons + Emit(AgeRule, a), rows + Created(AgeRule, a, patient, now);
    PlannedSnoc(reasons, SurgeryRule, a, patient, now);
    reasons, rows := reasons + Emit(SurgeryRule, a), rows + Created(SurgeryRule, a, patient, now);
    PlannedSnoc(reasons, BiopsyRule, a, patient, now);
    reasons, rows := reasons + Emit(BiopsyRule, a), rows + Created(BiopsyRule, a, patient, now);
    PlannedSnoc(reasons, HeadTraumaRule, a, patient, now);
    reasons, rows := reasons + Emit(HeadTraumaRule, a), rows + Created(HeadTraumaRule, a, patient, now);
    PlannedSnoc(reasons, StrokeRule, a, patient, now);
    reasons, rows := reasons + Emit(StrokeRule, a), rows + Created(StrokeRule, a, patient, now);
    PlannedSnoc(reasons, MyocardialInfarctionRule, a, patient, now);
    reasons, rows := reasons + Emit(MyocardialInfarctionRule, a), rows + Created(MyocardialInfarctionRule, a, patient, now);
    PlannedSnoc(reasons, InrRule, a, patient, now);
    reasons, rows := reasons + Emit(InrRule, a), rows + Created(InrRule, a, patient, now);
    PlannedSnoc(reasons, PlateletRule, a, patient, now);
    reasons, rows := reasons + Emit(PlateletRule, a), rows + Created(PlateletRule, a, patient, now);
    PlannedSnoc(reasons, TpaWindowRule, a, patient, now);
    reasons, rows := reasons + Emit(TpaWindowRule, a), rows + Created(TpaWindowRule, a, patient, now);
    PlannedSnoc(reasons, ConsentRule, a, patient, now);
    reasons, rows := reasons + Emit(ConsentRule, a), rows + Created(ConsentRule, a, patient, now);
  }

  /** The stored alerts, oldest first. The check only ever appends to it. */
  class AlertStore {
    var alerts: seq<Alert>

    constructor ()
      ensures alerts == []
    {
      alerts := [];
    }

    /** What the store holds: the record of each stored alert, oldest first. */
    function Rows(): seq<AlertRecord>
      reads this
    {
      Records(alerts)
    }

    /**
     * The store still holds the alerts `before`, in place and unchanged, and
     * after them exactly the alerts planned for `reasons`.
     */
    ghost predicate Holds(before: seq<Alert>, rows: seq<AlertRecord>)
      reads this
    {
      before <= alerts && Rows() == Records(before) + rows
    }

    /** `Alert.objects.create`: a new, unacknowledged alert appended to the store. */
    method Create(kind: AlertKind, reason: Reason, patient: Patient, now: int) returns (alert: Alert)
      modifies this
      ensures fresh(alert) && alerts == old(alerts) + [alert]
      ensures Rows() == old(Rows()) + [AlertRecord(kind, reason, patient, now)]
      ensures !alert.acknowledged && alert.acknowledgedBy.None? && alert.acknowledgedAt.None?
    {
      alert := new Alert(kind, reason, patient, now);
      RecordsAppend(alerts, [alert]);
      alerts := alerts + [alert];
    }

    /**
     * One rule of the check, applied after the rules whose alerts are
     * `done`: when the rule's condition, as the check writes it, holds, the
     * alert with its description is created; otherwise the store is left
     * alone.
     */
    method Raise(rule: RuleId, condition: bool, reason: Reason, patient: Patient, now: int,
                 ghost a: Assessment, ghost before: seq<Alert>, ghost done: seq<AlertRecord>)
      requires condition == Fires(rule, a) && (condition ==> reason == ReasonFor(rule, a))
      requires Holds(before, done)
      modifies this
      ensures Holds(before, done + Created(rule, a, patient, now))
    {
      if condition {
        var alert := Create(KindOf(rule), reason, patient, now);
      } else {
        assert done + Created(rule, a, patient, now) == done;
      }
    }

    /**
     * The vital-sign block of the check after the blood pressure: heart
     * rate, oxygen saturation, temperature, respiratory rate (skipped when
     * missing or zero) and blood glucose (skipped when missing).
     */
    method CheckVitalSigns(patient: Patient, vitals: Vitals, systolic: int, diastolic: int, now: int,
                           ghost a: Assessment, ghost before: seq<Alert>, ghost done: seq<AlertRecord>)
      requires a.consultation.vitals == vitals && a.pressure == Some((systolic, diastolic))
      requires Holds(before, done)
      modifies this
      ensures Holds(before, done + Created(BloodPressureRule, a, patient, now)
          + Created(HeartRateRule, a, patient, now) + Created(OxygenRule, a, patient, now)
          + Created(TemperatureRule, a, patient, now) + Created(RespiratoryRateRule, a, patient, now)
          + Created(GlucoseRule, a, patient, now))
    {
      ghost var reasons := done;
      Raise(BloodPressureRule, systolic > 185 || diastolic > 110, HighBloodPressure(vitals.bloodPressure),
            patient, now, a, before, reasons);
      reasons := reasons + Created(BloodPressureRule, a, patient, now);
      Raise(HeartRateRule, vitals.heartRate < 60 || vitals.heartRate > 100,
            AbnormalHeartRate(vitals.heartRate), patient, now, a, before, reasons);
      reasons := reasons + Created(HeartRateRule, a, patient, now);
      Raise(OxygenRule, vitals.oxygenSaturation < 95.0, LowOxygenSaturation(vitals.oxygenSaturation),
            patient, now, a, before, reasons);
      reasons := reasons + Created(OxygenRule, a, patient, now);
      Raise(TemperatureRule, vitals.temperature < 36.1 || vitals.temperature > 38.0,
            AbnormalTemperature(vitals.temperature), patient, now, a, before, reasons);
      reasons := reasons + Created(TemperatureRule, a, patient, now);
      var rate := vitals.respiratoryRate.GetOr(0);
      Raise(RespiratoryRateRule, rate != 0 && (rate < 12 || rate > 20), AbnormalRespiratoryRate(rate),
            patient, now, a, before, reasons);
      reasons := reasons + Created(RespiratoryRateRule, a, patient, now);
      // A glucose of zero is compared too: only a missing value is skipped.
      var glucose := vitals.bloodGlucose.GetOr(0);
      Raise(GlucoseRule, vitals.bloodGlucose.Some? && (glucose < 50 || glucose > 400),
            GlucoseOutOfRange(glucose), patient, now, a, before, reasons);
    }

    /** The recent-events block: nothing without a record, otherwise `CheckEventFlags`. */
    method CheckRecentEvents(patient: Patient, recentEvents: Option<RecentEvents>, now: int,
                             ghost a: Assessment, ghost before: seq<Alert>, ghost done: seq<AlertRecord>)
      requires a.recentEvents == recentEvents
      requires Holds(before, done)
      modifies this
      ensures Holds(before, done + Created(SurgeryRule, a, patient, now)
          + Created(BiopsyRule, a, patient, now) + Created(HeadTraumaRule, a, patient, now)
          + Created(StrokeRule, a, patient, now) + Created(MyocardialInfarctionRule, a, patient, now))
    {
      if recentEvents.Some? {
        CheckEventFlags(patient, recentEvents.value, now, a, before, done);
      } else {
        assert done + Created(SurgeryRule, a, patient, now)
            + Created(BiopsyRule, a, patient, now) + Created(HeadTraumaRule, a, patient, now)
            + Created(StrokeRule, a, patient, now) + Created(MyocardialInfarctionRule, a, patient, now) == done;
      }
    }

    /** The five flags of a recent-events record: one alert per flag that is set. */
    method CheckEventFlags(patient: Patient, events: RecentEvents, now: int,
                           ghost a: Assessment, ghost before: seq<Alert>, ghost done: seq<AlertRecord>)
      requires a.recentEvents == Some(events)
      requires Holds(before, done)
      modifies this
      ensures Holds(before, done + Created(SurgeryRule, a, patient, now)
          + Created(BiopsyRule, a, patient, now) + Created(HeadTraumaRule, a, patient, now)
          + Created(StrokeRule, a, patient, now) + Created(MyocardialInfarctionRule, a, patient, now))
    {
      ghost var reasons := done;
      Raise(SurgeryRule, events.recentSurgery, RecentSurgery, patient, now, a, before, reasons);
      reasons := reasons + Created(SurgeryRule, a, patient, now);
      Raise(BiopsyRule, events.recentBiopsy, RecentBiopsy, patient, now, a, before, reasons);
      reasons := reasons + Created(BiopsyRule, a, patient, now);
      Raise(HeadTraumaRule, events.recentHeadTrauma, RecentHeadTrauma, patient, now, a, before, reasons);
      reasons := reasons + Created(HeadTraumaRule, a, patient, now);
      Raise(StrokeRule, events.recentStroke, RecentStroke, patient, now, a, before, reasons);
      reasons := reasons + Created(StrokeRule, a, patient, now);
      Raise(MyocardialInfarctionRule, events.recentMi, RecentMyocardialInfarction, patient, now, a, before, reasons);
    }

    /** The laboratory block: INR and platelet count, each skipped when missing or zero. */
    method CheckLabResults(patient: Patient, labResults: Option<LabResults>, now: int,
                           ghost a: Assessment, ghost before: seq<Alert>, ghost done: seq<AlertRecord>)
      requires a.labResults == labResults
      requires Holds(before, done)
      modifies this
      ensures Holds(before, done + Created(InrRule, a, patient, now) + Created(PlateletRule, a, patient, now))
    {
      if labResults.Some? {
        var labs := labResults.value;
        var inr := labs.inr.GetOr(0.0);
        Raise(InrRule, inr != 0.0 && inr > 1.7, HighInr(inr), patient, now, a, before, done);
        var platelets := labs.plateletCount.GetOr(0);
        Raise(PlateletRule, platelets != 0 && platelets < 100000, LowPlateletCount(platelets),
              patient, now, a, before, done + Created(InrRule, a, patient, now));
      } else {
        assert done + Created(InrRule, a, patient, now) + Created(PlateletRule, a, patient, now) == done;
      }
    }

    /**
     * The last four blocks of the check, which look for tPA contraindications: recent events,
     * laboratory results, the treatment window and consent.
     */
    method CheckContraindications(patient: Patient, consultation: Consultation,
                               recentEvents: Option<RecentEvents>, labResults: Option<LabResults>,
                               consent: Option<Consent>, now: int,
                               ghost a: Assessment, ghost before: seq<Alert>, ghost done: seq<AlertRecord>)
      requires a.consultation == consultation && a.recentEvents == recentEvents
      requires a.labResults == labResults && a.consent == consent
      requires Holds(before, done)
      modifies this
      ensures Holds(before, done + Created(SurgeryRule, a, patient, now)
          + Created(BiopsyRule, a, patient, now) + Created(HeadTraumaRule, a, patient, now)
          + Created(StrokeRule, a, patient, now) + Created(MyocardialInfarctionRule, a, patient, now)
          + Created(InrRule, a, patient, now) + Created(PlateletRule, a, patient, now)
          + Created(TpaWindowRule, a, patient, now) + Created(ConsentRule, a, patient, now))
    {
      ghost var reasons := done;
      CheckRecentEvents(patient, recentEvents, now, a, before, reasons);
      reasons := reasons + Created(SurgeryRule, a, patient, now)
          + Created(BiopsyRule, a, patient, now) + Created(HeadTraumaRule, a, patient, now)
          + Created(StrokeRule, a, patient, now) + Created(MyocardialInfarctionRule, a, patient, now);
      CheckLabResults(patient, labResults, now, a, before, reasons);
      reasons := reasons + Created(InrRule, a, patient, now) + Created(PlateletRule, a, patient, now);
      // Outside the window: an onset time is recorded and `within_tpa_window` is not true.
      Raise(TpaWindowRule, consultation.symptomOnsetTime.Some? && WithinTpaWindow(consultation) != Some(true),
            OutsideTpaWindow, patient, now, a, before, reasons);
      reasons := reasons + Created(TpaWindowRule, a, patient, now);
      Raise(ConsentRule, consent.Some? && !consent.value.tpaConsent, NoTpaConsent, patient, now, a, before, reasons);
    }

    /**
     * `check_alerts`: applies the seventeen rules in order to `patient` and
     * the consultation with its related records, appending one alert per rule
     * that fires, stamped `now`; `today` is the date `Patient.age` reads. The
     * alerts already stored stay in place, and after them come exactly the
     * alerts of `Evaluate`'s batch, in order. A blood-pressure reading that
     * does not parse stops the check with ValueError once the NIHSS rule has
     * run, and its alert, if any, stays stored.
     */
    method CheckAlerts(patient: Patient, consultation: Consultation, recentEvents: Option<RecentEvents>,
                       labResults: Option<LabResults>, consent: Option<Consent>, today: Date, now: int)
      returns (failure: Option<PyError>)
      modifies this
      ensures var e := Evaluate(Assess(Age(patient.dateOfBirth, today), consultation, recentEvents, labResults, consent));
        && failure == e.failure
        && old(alerts) <= alerts
        && Rows() == old(Rows()) + Planned(e.reasons, patient, now)
    {
      ghost var a := Assess(Age(patient.dateOfBirth, today), consultation, recentEvents, labResults, consent);
      ghost var before := alerts;
      ghost var done: seq<AlertRecord> := [];
      var vitals := consultation.vitals;

      Raise(NihssRule, consultation.nihssScore >= 4, NihssElevated(consultation.nihssScore),
            patient, now, a, before, done);
      done := done + Created(NihssRule, a, patient, now);

      var pressure := ParseBloodPressure(vitals.bloodPressure);
      if pressure.None? {
        PlannedCheckOrder(a, patient, now);
        return Some(ValueError);
      }
      CheckVitalSigns(patient, vitals, pressure.value.0, pressure.value.1, now, a, before, done);
      done := done + Created(BloodPressureRule, a, patient, now)
          + Created(HeartRateRule, a, patient, now) + Created(OxygenRule, a, patient, now)
          + Created(TemperatureRule, a, patient, now) + Created(RespiratoryRateRule, a, patient, now)
          + Created(GlucoseRule, a, patient, now);

      var age := Age(patient.dateOfBirth, today);
      Raise(AgeRule, age < 18, BelowTpaAge(age), patient, now, a, before, done);
      done := done + Created(AgeRule, a, patient, now);

      CheckContraindications(patient, consultation, recentEvents, labResults, consent, now, a, before, done);
      PlannedCheckOrder(a, patient, now);
      return None;
    }
  }
}
