/**
 * The data migration that back-fills hospital IDs: every existing patient,
 * in enumeration order, is given the next ID of a counter starting at 1001.
 */
module HospitalIdMigration {
  import opened Wrappers
  import opened PyText
  import opened Models

  /** The ID the migration writes into the `k`-th patient (counting from 0): "P-" and `1001 + k` as `:04d`. */
  function MigrationId(k: nat): string
  {
    "P-" + Format04(1001 + k)
  }

  /** The number `Patient.save` would read back from the `k`-th migrated ID is `1001 + k`. */
  lemma MigrationIdNumber(k: nat)
    ensures IdNumber(MigrationId(k)) == Some(1001 + k)
  {
    IdNumberOfField(Format04(1001 + k));
    ParseFormat04(1001 + k);
  }

  /** The first patient gets "P-1001", the same ID `Patient.save` gives the first patient of an empty table. */
  lemma FirstMigrationId()
    ensures MigrationId(0) == FirstHospitalId == "P-1001"
  {
    Format04Wide(1001);
    assert ShowInt(1001) == "1001";
  }

  /** The counter only goes up, so no two patients receive the same ID. */
  lemma MigrationIdsDistinct(j: nat, k: nat)
    requires j != k
    ensures MigrationId(j) != MigrationId(k)
  {
    MigrationIdNumber(j);
    MigrationIdNumber(k);
  }

  /**
   * After the migration, a new patient saved without an ID continues the
   * sequence: `Patient.save` following the `k`-th migrated ID assigns the
   * `k + 1`-th.
   */
  lemma SaveContinuesMigration(k: nat)
    ensures NextHospitalId(Some(MigrationId(k))) == Ok(MigrationId(k + 1))
  {
    NextIdAfterFormatted(1001 + k);
  }

  /**
   * `populate_hospital_ids`: walks the patients in order with a counter
   * starting at 1001 and overwrites each patient's ID, set or not, with
   * "P-" and the counter as `:04d`. Nothing but the hospital IDs changes,
   * and the list of patients itself is left as it is.
   */
  method PopulateHospitalIds(patients: seq<Patient>)
    requires forall i, j :: 0 <= i < j < |patients| ==> patients[i] != patients[j]
    modifies set p | p in patients
    ensures forall k :: 0 <= k < |patients| ==> patients[k].hospitalId == MigrationId(k)
    ensures forall i, j :: 0 <= i < j < |patients| ==> patients[i].hospitalId != patients[j].hospitalId
  {
    var number := 1001;
    for k := 0 to |patients|
      invariant number == 1001 + k
      invariant forall i :: 0 <= i < k ==> patients[i].hospitalId == MigrationId(i)
    {
      patients[k].hospitalId := "P-" + Format04(number);
      number := number + 1;
    }
    forall i, j | 0 <= i < j < |patients|
      ensures patients[i].hospitalId != patients[j].hospitalId
    {
      MigrationIdsDistinct(i, j);
    }
  }
}
