# Stroke-unit patient system: alert check, patient records and hospital IDs

This project models the core of a Django application used on a stroke unit.
Technicians and neurologists record patients and consultations (vital signs,
NIHSS score, symptom onset, laboratory results, recent events, consent to
thrombolysis). After each consultation the application runs an alert check.
It applies seventeen threshold rules in a fixed order and stores one alert per
rule that fires. The alerts flag abnormal vital signs and contraindications to
tPA, the clot-dissolving drug. A neurologist later acknowledges each alert.

The model covers:

- **`Views`** (`views.dfy`): the alert check.
  - The rules are described once, as data: `RuleId`, `Fires` (the condition) and `ReasonFor` (the description with its quoted values).
  - `Evaluate` is the specification of a run: the alerts it creates, in order, and the exception it stops with.
  - `AlertStore.CheckAlerts` is the check itself, written rule by rule as in the source. It is a method on a store of `Alert` objects.
  - It is proved to append exactly `Evaluate`'s batch after the alerts already stored.
  - Lemmas state what each rule does, and what holds of every batch: soundness, completeness, check order and one alert per rule.
- **`Models`** (`models.dfy`):
  - `Patient.age`, `Patient.name` and `Patient.sex`;
  - the hospital-ID generator of `Patient.save`, with its IndexError and ValueError paths;
  - `Consultation.within_tpa_window`;
  - the `Patient` and `Alert` classes, with `Alert.acknowledge` and the unacknowledged default.
- **`PatientFilters`** (`patient_filters.dfy`): the `get_systolic` template filter.
- **`HospitalIdMigration`** (`populate_hospital_ids.dfy`): the data migration that numbers the existing patients from P-1001.
- **`PyText`** (`pytext.dfy`): the Python text primitives the code relies on, each proved against its inverse:
  - `str.split` with a one-character separator;
  - `int()` on a string (whitespace, sign, underscores);
  - `str()` of an integer;
  - the `:04d` format.
- **`Wrappers`** (`wrappers.dfy`): `Option` and `Result`.

The clock is a parameter. `CheckAlerts` takes `today`, the date `Patient.age` reads, and `now`, the alert timestamp. `Acknowledge` also takes `now`. Timestamps are whole seconds.

Three behaviours of the code are worth knowing when reading the model:

- The check writes each alert as soon as its rule fires. A blood-pressure reading that does not parse therefore raises ValueError after the NIHSS alert has been stored. `CheckAlerts` returns that error and keeps the partial batch.
- The respiratory-rate, INR and platelet rules test their value's truth, so a value of 0 is skipped. The glucose rule only skips a missing value, so a glucose of 0 is compared with the range and raises.
- The migration runs on Django's historical model, so its `save()` only persists. It does not go through the ID generator of `Patient.save`. `PopulateHospitalIds` therefore only assigns the IDs.

## Model

| member | source | states |
|---|---|---|
| Views.Evaluate | patientsystem/views.py:197-331 | The batch of one run: the alerts of the rules reached, in check order, and ValueError when the reading does not parse. Its properties are the contracts of `Views.CheckAlertsBatch` and the rule lemmas below. |
| Views.Fires | patientsystem/views.py:197-331 | The seventeen rule conditions as the check writes them, missing optional records switching their rule off. What each condition means for a run is stated by the rule lemmas below. |
| Views.KindOf | patientsystem/views.py:197-331 | The alert type of each rule: warning for the NIHSS, heart-rate, oxygen, temperature and respiratory-rate rules, critical for the other twelve. |
| Views.ReasonFor | patientsystem/views.py:197-331 | The description each rule writes, quoting its values; every description belongs to the rule that wrote it. |
| Views.ParseBloodPressure | patientsystem/views.py:208 | Unpacking `reading.split('/')` into two integers: a reading parses only if it holds exactly one '/'. With no '/' there is one value and with two or more there are too many, and either raises ValueError. With `Views.ParseBloodPressureOfFields`, a reading parses iff it has one '/' and both fields are integers. |
| Views.ParseBloodPressureOfFields | patientsystem/views.py:208 | Two slash-free fields around one '/' parse iff both are integers, and then give those two integers in order. |
| Views.AlertStore.CheckAlerts | patientsystem/views.py:197-331 | The run returns `Evaluate`'s failure (ValueError exactly when the reading does not parse). The stored alerts stay in place as a prefix. The new rows are exactly `Planned` of `Evaluate`'s batch: in check order, each with its rule's type and description, for the patient, stamped `now`. |
| Views.CheckAlertsBatch | patientsystem/views.py:197-331 | For every input: the run fails iff the blood pressure does not parse, and a failed run reaches only the NIHSS rule. A rule's alert is present iff the rule is reached and its condition holds. Every alert quotes its rule's values. Alerts are in rule order, hence at most one per rule. The batch is as long as the set of rules that fired. |
| Views.RuleOutcome | patientsystem/views.py:197-331 | For any single rule: its alert is present iff the rule is reached and fires. Any alert of the rule quotes its values. No two alerts of a run share a rule. |
| Views.PlannedCheckOrder | patientsystem/views.py:197-331 | The alerts of a run are the concatenation, in check order, of what each rule creates. A failed run creates only the NIHSS rule's alerts. |
| Views.CheckOrder | patientsystem/views.py:197-331 | The batch of a run is the rules' contributions concatenated in the order the source applies them. |
| Views.FailedRunHoldsFirstRule | patientsystem/views.py:207-208 | When the reading does not parse, the run ends with ValueError and holds only the NIHSS rule's alert. |
| Views.EmittedSound | patientsystem/views.py:197-331 | Every alert comes from a rule that was applied and fired, and it carries that rule's description. |
| Views.EmittedComplete | patientsystem/views.py:197-331 | Every applied rule that fires contributes its alert. |
| Views.EmittedInOrder | patientsystem/views.py:197-331 | Rules applied in check order give alerts in check order. |
| Views.EmittedCount | patientsystem/views.py:197-331 | Applying distinct rules gives one alert per rule that fired. |
| Views.RulesReachedByPressure | patientsystem/views.py:207-208 | A run reaches all seventeen rules iff the blood-pressure reading parses, and otherwise only the NIHSS rule. |
| Views.AllRulesRanked | patientsystem/views.py:197-331 | The rule list is in check order with no repeats, holds every rule, and starts with the NIHSS rule. |
| Views.NihssRuleHolds | patientsystem/views.py:199-205 | A warning quoting the score is raised iff the NIHSS score is at least 4. It is raised even when the run then fails. |
| Views.BloodPressureRuleHolds | patientsystem/views.py:207-214 | A malformed reading ends the run with ValueError, keeping only the NIHSS alert. A parsed reading raises a critical alert iff systolic > 185 or diastolic > 110. |
| Views.ParseBloodPressureOfReading | patientsystem/views.py:208 | A reading written as "SYS/DIA" from two integers parses back to those two integers. |
| Views.VitalSignRulesHold | patientsystem/views.py:216-255 | Each of these raises iff the reading parsed and its condition holds: heart rate outside [60, 100]; oxygen saturation below 95; temperature outside [36.1, 38]; a nonzero respiratory rate outside [12, 20]; a recorded glucose outside [50, 400]. Each alert quotes its measured value. The heart-rate, oxygen, temperature and respiratory-rate alerts are warnings; the glucose alert is critical. |
| Views.AgeRuleHolds | patientsystem/views.py:257-263 | A critical alert quoting the age is raised iff the run got past the blood pressure and the patient is under 18. |
| Views.RecentEventRulesHold | patientsystem/views.py:265-297 | With a recent-events record, one critical alert per set flag (surgery, biopsy, head trauma, stroke, myocardial infarction); without a record, none. |
| Views.LabRulesHold | patientsystem/views.py:299-313 | With a lab record: a nonzero INR above 1.7 raises; a nonzero platelet count below 100000 raises. Each alert quotes its value. Without a record, neither raises. Both alerts are critical. |
| Views.WindowAndConsentRulesHold | patientsystem/views.py:315-331 | The window alert is raised iff an onset time is recorded and more than 16200 s passed before the consultation. The consent alert is raised iff a consent record exists and refuses tPA. A missing consent record raises nothing. Both alerts are critical. |
| Views.PlannedAt | patientsystem/views.py:197-331 | The planned alerts are as many as the reasons. The k-th is the k-th reason's alert, with its rule's type, for the patient, at `now`. |
| Views.AlertStore.Create | patientsystem/views.py:200-204 | Creating an alert appends one fresh, unacknowledged alert with the given type, description, patient and time, and changes nothing else in the store. |
| Views.AlertStore.Raise | patientsystem/views.py:200-205 | One rule as the check writes it: the store gains that rule's alert exactly when its condition holds, after what earlier rules added. |
| Views.AlertStore.CheckVitalSigns | patientsystem/views.py:209-255 | The blood-pressure and vital-sign blocks append exactly what their six rules create, in order. |
| Views.AlertStore.CheckRecentEvents | patientsystem/views.py:265-297 | The recent-events block appends the five flag rules' alerts, in order, or nothing without a record. |
| Views.AlertStore.CheckEventFlags | patientsystem/views.py:267-297 | The five flag tests append one alert per set flag, in order. |
| Views.AlertStore.CheckLabResults | patientsystem/views.py:299-313 | The lab block appends the INR and platelet alerts that fire, in order, or nothing without a record. |
| Views.AlertStore.CheckContraindications | patientsystem/views.py:265-331 | The events, labs, window and consent blocks append exactly what their nine rules create, in order. |
| Models.Age | patientsystem/models.py:61-64 | The age is the number of birthdays reached: the age-th anniversary of the birth date is on or before today, and the next is after. It is non-negative when the birth date is not in the future. |
| Models.FullName | patientsystem/models.py:57-59 | The name is the first name, one space, then the last name. |
| Models.Sex | patientsystem/models.py:66-68 | "Male" iff the code is M, "Female" iff it is F, "Other" for every other code. |
| Models.NextHospitalId | patientsystem/models.py:43-51 | With no previous patient, or one whose ID is empty, the result is "P-1001". An ID with no '-' gives IndexError; one with a '-' whose second field is not an integer gives ValueError. For a non-empty ID the result is an ID iff its number is readable, and that ID is the one `Models.NextIdIncrements` fixes exactly. Every ID produced starts with "P-" and is at least six characters long. |
| Models.NextIdIncrements | patientsystem/models.py:47-49 | When the previous ID's number n is readable, it is non-negative and the new ID is exactly "P-" followed by n + 1 as `:04d`, whatever form the previous ID had. The new ID's number reads back as n + 1. |
| Models.NextIdAfterFormatted | patientsystem/models.py:47-49 | After "P-" + n as `:04d`, the next ID is "P-" + (n + 1) as `:04d`. |
| Models.IdNumberOfField | patientsystem/models.py:48 | "P-" followed by a dash-free field splits into "P" and that field, so the number read back is the field as an integer. |
| Models.Patient.Save | patientsystem/models.py:43-52 | A patient with an ID keeps it. Otherwise it receives `NextHospitalId` of the last patient's ID. When that raises, the ID stays empty and the error is returned. |
| Models.Patient.constructor | patientsystem/models.py:25-29 | A new patient holds the given ID, names, birth date and gender. |
| Models.WithinTpaWindow | patientsystem/models.py:83-88 | Unknown iff no onset time is recorded. Otherwise true iff at most 4.5 h (16200 s) passed between onset and consultation. |
| Models.Alert.constructor | patientsystem/models.py:97-103 | A new alert holds its type, description, patient and time, and is unacknowledged, with no acknowledging user or time. |
| Models.Alert.Acknowledge | patientsystem/models.py:108-112 | After acknowledging, the alert is acknowledged by the given user at the given time. |
| Models.IdNumber | patientsystem/models.py:48 | The number `Patient.save` reads from an ID: the second '-'-separated field through `int()`. Its properties are the contracts of `Models.IdNumberOfField` and `Models.NextIdIncrements`. |
| PatientFilters.GetSystolic | patientsystem/templatetags/patient_filters.py:6-11 | A missing value gives 0. A reading with '/' gives `int()` of the text before the first '/', and a reading without one gives `int()` of the whole reading. In both cases it is 0 when `int()` rejects the text, so "abc/80" gives 0 and " 120 /x" gives 120. |
| HospitalIdMigration.MigrationId | patientsystem/migrations/0005_populate_hospital_ids.py:5-6 | The ID of the k-th patient: "P-" and 1001 + k as `:04d`. Its properties are the migration lemmas below. |
| PyText.ParseInt | patientsystem/models.py:48 | `int()` of a string: surrounding ASCII whitespace, an optional sign, then digits with single underscores between digits; anything else is the ValueError. It is inverted by `PyText.ParseShowInt` and `PyText.ParseFormat04`. |
| PyText.ShowInt | patientsystem/views.py:203 | `str()` of an integer: digits only, with a leading '-' exactly when the number is negative. |
| PyText.Format04 | patientsystem/models.py:49 | `:04d` of a non-negative number: digits only, at least four of them, and exactly four below 1000. |
| PatientFilters.SystolicOfReading | patientsystem/templatetags/patient_filters.py:6-11 | For a reading "S/…" with S written by `str`, the filter returns S, whatever follows the slash. |
| PatientFilters.SystolicOfWholeReading | patientsystem/templatetags/patient_filters.py:6-11 | A reading without '/' that is an integer written by `str()` gives back that integer. |
| PatientFilters.SystolicAgreesWithCheck | patientsystem/templatetags/patient_filters.py:6-11 | On every reading the alert check accepts, the filter shows the systolic value the check compares with 185. |
| HospitalIdMigration.PopulateHospitalIds | patientsystem/migrations/0005_populate_hospital_ids.py:3-7 | The k-th patient ends with ID "P-" + (1001 + k) as `:04d`, and no two patients share an ID. |
| HospitalIdMigration.MigrationIdNumber | patientsystem/migrations/0005_populate_hospital_ids.py:5-6 | The number read back from the k-th migrated ID is 1001 + k. |
| HospitalIdMigration.FirstMigrationId | patientsystem/migrations/0005_populate_hospital_ids.py:5-6 | The first migrated ID is "P-1001", the same as the first ID `Patient.save` gives. |
| HospitalIdMigration.MigrationIdsDistinct | patientsystem/migrations/0005_populate_hospital_ids.py:5-6 | Different positions get different IDs. |
| HospitalIdMigration.SaveContinuesMigration | patientsystem/migrations/0005_populate_hospital_ids.py:5-6 | After the k-th migrated ID, `Patient.save` assigns the (k + 1)-th, so new patients continue the sequence. |
| PyText.Split | patientsystem/models.py:48 | A split has at least one piece, no piece holds the separator, and joining the pieces gives back the string. |
| PyText.SplitJoin | patientsystem/models.py:48 | Splitting what was joined gives back the parts, when no part holds the separator. |
| PyText.SplitPair | patientsystem/views.py:208 | A string made of two separator-free pieces around one separator splits into exactly those two pieces. |
| PyText.SplitHead | patientsystem/templatetags/patient_filters.py:9 | The first piece of a split is everything before the first separator. |
| PyText.ParseShowInt | patientsystem/views.py:208 | `int(str(n)) == n` for every integer n, negative ones included. |
| PyText.ParseFormat04 | patientsystem/models.py:48-49 | `int()` of n as `:04d` is n: the leading zeros are ignored. |
| PyText.Format04Wide | patientsystem/models.py:49 | A number of four or more digits is written as `str()` writes it, without padding. |
| PyText.ParseIntSign | patientsystem/models.py:48 | `int()` gives a negative number only for a string containing '-'. |
| PyText.StripWithin | patientsystem/models.py:48 | Stripping the surrounding whitespace before `int()` keeps only characters of the input. |

## Left out

- Django itself is not part of this model. That covers requests, views other than `check_alerts`, forms, templates, authentication and role checks, messages, the database, transactions and signals.
- The `.first()` lookups of the related recent-events, lab-results and consent records are not modelled as queries. The record they return is an input (`None` when there is none).
- The description texts of the alerts, including the `.1f` formatting of floats, are modelled as `Reason` values. Each value carries the numbers the text quotes, but not its characters.
- Float semantics are left out: the oxygen saturation, temperature and INR are `real`, with no rounding or NaN.
- `int()` is modelled for ASCII digits and the ASCII whitespace it skips. Other Unicode digits and spaces are left out.
- The clock is not modelled. `datetime.now()` and the `auto_now`/`auto_now_add` timestamps are parameters (`today`, `now`) or fixed inputs.
- `Models.Patient.Save`: the lookup of the most recent patient (`order_by('-id').first()`) is an input, `lastId`. The write to the database is left out.
- `Models.Alert.Acknowledge`: the database write at its end is left out.
- `Views.AlertStore.CheckAlerts` states the new alerts through their records: type, description, patient and time. The freshness and unacknowledged state of each new alert is stated by `Views.AlertStore.Create` and `Models.Alert.constructor`, not repeated in its contract.
- `HospitalIdMigration.PopulateHospitalIds` requires the enumerated patients to be distinct objects, as rows of one table are. The queryset's ordering is an input: the sequence given.
- The `format_date` template filter is display formatting and is not part of this model.
