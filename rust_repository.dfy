/**
 * The repository of the SeaORM/libsql crate. Every operation reads the
 * connection `get_connection()` returns and fails with "No database
 * connection" without it. Deletes are soft: they stamp `deleted_at`,
 * deleting a medication stamps its reminders too, and every update or
 * delete reports `true` whether or not a row matched.
 */
module RustRepository {
  import opened Common
  import opened Libsql
  import opened RustModels
  import RustDatabase

  // ----- decoding a row into a record -----

  /** A medications row as the repository reads it: a NULL timestamp
      becomes the empty string. */
  function DecodeMedication(id: int, row: MedRow): (m: Medication)
    ensures m.id == Some(id) && m.reminders == []
    ensures m.name == row.name && m.dosage == row.dosage && m.description == row.description
    ensures m.createdAt == row.createdAt.GetOr("") && m.updatedAt == row.updatedAt.GetOr("")
    ensures m.deletedAt == row.deletedAt
  {
    Medication(Some(id), row.name, row.dosage, row.description,
               row.createdAt.GetOr(""), row.updatedAt.GetOr(""), row.deletedAt, [])
  }

  /** A reminders row as the repository reads it: a NULL `is_active`
      counts as active, any other value as active unless zero. */
  function DecodeReminder(id: int, row: RemRow): (r: Reminder)
    ensures r.id == Some(id) && r.medicationId == row.medicationId
    ensures r.time == row.time && r.days == row.days
    ensures r.isActive <==> row.isActive.None? || row.isActive.value != 0
    ensures r.createdAt == row.createdAt.GetOr("") && r.updatedAt == row.updatedAt.GetOr("")
    ensures r.deletedAt == row.deletedAt
  {
    Reminder(Some(id), row.medicationId, row.time, row.days,
             match row.isActive case None => true case Some(v) => v != 0,
             row.createdAt.GetOr(""), row.updatedAt.GetOr(""), row.deletedAt)
  }

  /** The rows `ids` of `t`, decoded in order. */
  function DecodeReminders(t: RemTable, ids: seq<int>): seq<Reminder>
    requires forall k :: k in ids ==> k in t
  {
    seq(|ids|, i requires 0 <= i < |ids| => DecodeReminder(ids[i], t[ids[i]]))
  }

  lemma DecodeRemindersSnoc(t: RemTable, ids: seq<int>, x: int)
    requires forall k :: k in ids ==> k in t
    requires x in t
    ensures DecodeReminders(t, ids + [x]) == DecodeReminders(t, ids) + [DecodeReminder(x, t[x])]
  {
  }

  /** What `get_all_medications` returns: the live medications in id
      order, each carrying its own live reminders. */
  function Listing(mt: MedTable, rt: RemTable): seq<Medication> {
    var ids := LiveMedicationIds(mt);
    seq(|ids|, i requires 0 <= i < |ids| =>
      DecodeMedication(ids[i], mt[ids[i]]).(reminders := DecodeReminders(rt, ReminderIdsFor(rt, ids[i]))))
  }

  /** The listing holds exactly the live medications, each with exactly the
      live reminders that name it. */
  lemma ListingContents(mt: MedTable, rt: RemTable)
    ensures var l := Listing(mt, rt);
      && (forall k :: (exists i :: 0 <= i < |l| && l[i].id == Some(k)) <==> k in mt && mt[k].Live())
      && (forall i, j :: 0 <= i < j < |l| ==> l[i].id.value < l[j].id.value)
      && (forall i, q :: 0 <= i < |l| && 0 <= q < |l[i].reminders| ==>
            l[i].reminders[q].medicationId == l[i].id.value && l[i].reminders[q].deletedAt.None? &&
            l[i].reminders[q].id.value in rt)
  {
    var l := Listing(mt, rt);
    var ids := LiveMedicationIds(mt);
    forall k ensures (exists i :: 0 <= i < |l| && l[i].id == Some(k)) <==> k in mt && mt[k].Live() {
      if k in mt && mt[k].Live() {
        assert k in ids;
        var i :| 0 <= i < |ids| && ids[i] == k;
        assert l[i].id == Some(k);
      }
    }
    forall i, q | 0 <= i < |l| && 0 <= q < |l[i].reminders|
      ensures l[i].reminders[q].medicationId == l[i].id.value && l[i].reminders[q].deletedAt.None? &&
              l[i].reminders[q].id.value in rt
    {
      var rids := ReminderIdsFor(rt, ids[i]);
      assert rids[q] in rids;
    }
  }

  /** A live reminder whose medication is deleted or missing appears
      nowhere in the listing. */
  lemma ListingDropsOrphans(mt: MedTable, rt: RemTable, x: int)
    requires x in rt && rt[x].Live()
    requires !(rt[x].medicationId in mt && mt[rt[x].medicationId].Live())
    ensures forall i, q :: 0 <= i < |Listing(mt, rt)| && 0 <= q < |Listing(mt, rt)[i].reminders| ==>
      Listing(mt, rt)[i].reminders[q].id != Some(x)
  {
    var l := Listing(mt, rt);
    var ids := LiveMedicationIds(mt);
    forall i, q | 0 <= i < |l| && 0 <= q < |l[i].reminders| ensures l[i].reminders[q].id != Some(x) {
      var rids := ReminderIdsFor(rt, ids[i]);
      assert rids[q] in rids;
      assert ids[i] in ids;
    }
  }

  /** A live reminder of a live medication appears in that medication's entry. */
  lemma ListingKeepsOwned(mt: MedTable, rt: RemTable, x: int)
    requires x in rt && rt[x].Live()
    requires rt[x].medicationId in mt && mt[rt[x].medicationId].Live()
    ensures exists i, q ::
      && 0 <= i < |Listing(mt, rt)| && 0 <= q < |Listing(mt, rt)[i].reminders|
      && Listing(mt, rt)[i].reminders[q] == DecodeReminder(x, rt[x])
  {
    var l := Listing(mt, rt);
    var ids := LiveMedicationIds(mt);
    var m := rt[x].medicationId;
    assert m in ids;
    var i :| 0 <= i < |ids| && ids[i] == m;
    var rids := ReminderIdsFor(rt, m);
    assert x in rids;
    var q :| 0 <= q < |rids| && rids[q] == x;
    assert l[i].reminders[q] == DecodeReminder(x, rt[x]);
  }

  /** `iter_mut().find(|m| m.id == Some(mid))`: the first medication with that id. */
  function Find(meds: seq<Medication>, mid: int): (k: Option<nat>)
    ensures k.Some? ==> k.value < |meds| && meds[k.value].id == Some(mid)
    ensures k.Some? ==> forall i :: 0 <= i < k.value ==> meds[i].id != Some(mid)
    ensures k.None? ==> forall i :: 0 <= i < |meds| ==> meds[i].id != Some(mid)
  {
    if meds == [] then None
    else if meds[0].id == Some(mid) then Some(0)
    else match Find(meds[1..], mid)
      case None => None
      case Some(k) => Some(k + 1)
  }

  // ----- the operations -----

  /** `create_medication` */
  method CreateMedication(db: RustDatabase.Manager, med: Medication, now: string) returns (r: Result<int>)
    modifies db.Open()
    ensures db.database.None? ==> r == Err(NoConnection)
    ensures db.database.Some? ==>
      var c := db.database.value;
      && r.Ok? && r.value !in old(c.medications)
      && r.value == NextId(old(c.medications).Keys, old(c.medicationSeq))
      && c.medications == old(c.medications)[r.value := MedRow(med.name, med.dosage, med.description, Some(now), Some(now), None)]
      && c.medicationSeq == r.value
      && c.reminders == old(c.reminders) && c.reminderSeq == old(c.reminderSeq)
  {
    var conn := db.GetConnection();
    if conn.None? {
      return Err(NoConnection);
    }
    var id := conn.value.InsertMedication(med.name, med.dosage, med.description, now, now);
    r := Ok(id);
  }

  /** `get_medication`: the live medication with that id, without reminders. */
  method GetMedication(db: RustDatabase.Manager, id: int) returns (r: Result<Option<Medication>>)
    ensures db.database.None? ==> r == Err(NoConnection)
    ensures db.database.Some? ==>
      var mt := db.database.value.medications;
      && r.Ok?
      && (r.value.Some? <==> id in mt && mt[id].Live())
      && (r.value.Some? ==> r.value.value == DecodeMedication(id, mt[id]) && r.value.value.reminders == [])
  {
    var conn := db.GetConnection();
    if conn.None? {
      return Err(NoConnection);
    }
    var mt := conn.value.medications;
    if id in mt && mt[id].Live() {
      r := Ok(Some(DecodeMedication(id, mt[id])));
    } else {
      r := Ok(None);
    }
  }

  /** `get_all_medications`: read the live medications, then hand each live
      reminder to the first medication whose id it names. */
  method GetAllMedications(db: RustDatabase.Manager) returns (r: Result<seq<Medication>>)
    ensures db.database.None? ==> r == Err(NoConnection)
    ensures db.database.Some? ==> r == Ok(Listing(db.database.value.medications, db.database.value.reminders))
  {
    var conn := db.GetConnection();
    if conn.None? {
      return Err(NoConnection);
    }
    var meds := CollectMedications(conn.value.medications);
    AttachStart(conn.value.medications, conn.value.reminders, meds);
    meds := AttachReminders(conn.value.medications, conn.value.reminders, meds);
    r := Ok(meds);
  }

  /** The first loop of `get_all_medications`: decode the live medications
      in id order, each with an empty reminder list. */
  method CollectMedications(mt: MedTable) returns (meds: seq<Medication>)
    ensures |meds| == |LiveMedicationIds(mt)|
    ensures forall k :: 0 <= k < |meds| ==>
      meds[k] == DecodeMedication(LiveMedicationIds(mt)[k], mt[LiveMedicationIds(mt)[k]])
  {
    var ids := LiveMedicationIds(mt);
    meds := [];
    var i := 0;
    while i < |ids|
      invariant 0 <= i <= |ids| && |meds| == i
      invariant forall k :: 0 <= k < i ==> meds[k] == DecodeMedication(ids[k], mt[ids[k]])
    {
      meds := meds + [DecodeMedication(ids[i], mt[ids[i]])];
      i := i + 1;
    }
  }

  /** The second loop of `get_all_medications`: each live reminder goes to
      the first medication whose id it names, and is dropped when none does. */
  method AttachReminders(mt: MedTable, rt: RemTable, meds0: seq<Medication>) returns (meds: seq<Medication>)
    requires Attached(mt, rt, 0, meds0)
    ensures meds == Listing(mt, rt)
  {
    meds := meds0;
    var rems := LiveReminderIds(rt);
    var j := 0;
    while j < |rems|
      invariant 0 <= j <= |rems|
      invariant Attached(mt, rt, j, meds)
    {
      var x := rems[j];
      var reminder := DecodeReminder(x, rt[x]);
      var found := Find(meds, rt[x].medicationId);
      ghost var before := meds;
      if found.Some? {
        var k := found.value;
        meds := meds[k := meds[k].(reminders := meds[k].reminders + [reminder])];
      }
      AttachStep(mt, rt, j, before, meds, found);
      j := j + 1;
    }
    AttachDone(mt, rt, meds);
  }

  /** The association loop's invariant after `j` reminder rows: every
      medication carries the decoded reminders among those rows that name it. */
  ghost predicate Attached(mt: MedTable, rt: RemTable, j: nat, meds: seq<Medication>) {
    var ids := LiveMedicationIds(mt);
    var rems := LiveReminderIds(rt);
    && j <= |rems| && |meds| == |ids|
    && forall k :: 0 <= k < |ids| ==>
         meds[k] == DecodeMedication(ids[k], mt[ids[k]]).(reminders := DecodeReminders(rt, KeepIn(rems[..j], OwnedBy(rt, ids[k]))))
  }

  lemma AttachStart(mt: MedTable, rt: RemTable, meds: seq<Medication>)
    requires |meds| == |LiveMedicationIds(mt)|
    requires forall k :: 0 <= k < |meds| ==>
      meds[k] == DecodeMedication(LiveMedicationIds(mt)[k], mt[LiveMedicationIds(mt)[k]])
    ensures Attached(mt, rt, 0, meds)
  {
  }

  lemma AttachDone(mt: MedTable, rt: RemTable, meds: seq<Medication>)
    requires Attached(mt, rt, |LiveReminderIds(rt)|, meds)
    ensures meds == Listing(mt, rt)
  {
    var ids := LiveMedicationIds(mt);
    var rems := LiveReminderIds(rt);
    assert rems[..|rems|] == rems;
    forall k | 0 <= k < |ids| ensures meds[k] == Listing(mt, rt)[k] {
      LiveThenOwned(rt, ids[k]);
    }
  }

  /** One turn of the association loop keeps every medication's list equal
      to the decoded owned reminders seen so far. */
  lemma AttachStep(mt: MedTable, rt: RemTable, j: nat,
                   before: seq<Medication>, after: seq<Medication>, found: Option<nat>)
    requires j < |LiveReminderIds(rt)|
    requires Attached(mt, rt, j, before)
    requires found == Find(before, rt[LiveReminderIds(rt)[j]].medicationId)
    requires found.None? ==> after == before
    requires found.Some? ==>
      var x := LiveReminderIds(rt)[j];
      after == before[found.value := before[found.value].(reminders := before[found.value].reminders + [DecodeReminder(x, rt[x])])]
    ensures Attached(mt, rt, j + 1, after)
  {
    var ids := LiveMedicationIds(mt);
    var rems := LiveReminderIds(rt);
    forall k | 0 <= k < |ids|
      ensures after[k] == DecodeMedication(ids[k], mt[ids[k]]).(reminders := DecodeReminders(rt, KeepIn(rems[..j+1], OwnedBy(rt, ids[k]))))
    {
      AttachStepAt(mt, rt, j, before, after, found, k);
    }
  }

  /** The step of `AttachStep` for the medication at position `k`. */
  lemma AttachStepAt(mt: MedTable, rt: RemTable, j: nat,
                     before: seq<Medication>, after: seq<Medication>, found: Option<nat>, k: nat)
    requires j < |LiveReminderIds(rt)|
    requires Attached(mt, rt, j, before)
    requires found == Find(before, rt[LiveReminderIds(rt)[j]].medicationId)
    requires found.None? ==> after == before
    requires found.Some? ==>
      var x := LiveReminderIds(rt)[j];
      after == before[found.value := before[found.value].(reminders := before[found.value].reminders + [DecodeReminder(x, rt[x])])]
    requires k < |LiveMedicationIds(mt)|
    ensures var ids := LiveMedicationIds(mt);
      after[k] == DecodeMedication(ids[k], mt[ids[k]]).(reminders := DecodeReminders(rt, KeepIn(LiveReminderIds(rt)[..j+1], OwnedBy(rt, ids[k]))))
  {
    var ids := LiveMedicationIds(mt);
    var rems := LiveReminderIds(rt);
    var x := rems[j];
    assert rems[..j+1] == rems[..j] + [x];
    assert x in rems;
    var owned := OwnedBy(rt, ids[k]);
    KeepInSnoc(rems[..j], x, owned);
    var front := KeepIn(rems[..j], owned);
    assert forall y :: y in front ==> y in rt;
    DecodeRemindersSnoc(rt, front, x);
    assert before[k].id == Some(ids[k]);
    if found.Some? && found.value == k {
      assert x in owned;
    } else {
      if found.Some? && k > found.value {
        assert ids[found.value] < ids[k];
      }
      assert x !in owned;
    }
  }

  /** `update_medication`: refuses a record without id before touching the
      database, otherwise rewrites the live row with that id and reports
      `true` even when no row matched. */
  method UpdateMedication(db: RustDatabase.Manager, med: Medication, now: string) returns (r: Result<bool>)
    modifies db.Open()
    ensures med.id.None? ==> r == Err(MedicationIdRequired)
    ensures med.id.None? && db.database.Some? ==> unchanged(db.database.value)
    ensures med.id.Some? && db.database.None? ==> r == Err(NoConnection)
    ensures med.id.Some? && db.database.Some? ==>
      var c := db.database.value;
      && r == Ok(true)
      && c.medications == RewriteMedication(old(c.medications), med.id.value, med.name, med.dosage, med.description, now)
      && c.reminders == old(c.reminders)
      && c.medicationSeq == old(c.medicationSeq) && c.reminderSeq == old(c.reminderSeq)
  {
    if med.id.None? {
      return Err(MedicationIdRequired);
    }
    var conn := db.GetConnection();
    if conn.None? {
      return Err(NoConnection);
    }
    var _ := conn.value.RewriteMedicationRow(med.id.value, med.name, med.dosage, med.description, now);
    r := Ok(true);
  }

  /** `delete_medication`: stamps the medication, deleted or not, and every
      reminder naming it; always reports `true`. */
  method DeleteMedication(db: RustDatabase.Manager, id: int, now: string) returns (r: Result<bool>)
    modifies db.Open()
    ensures db.database.None? ==> r == Err(NoConnection)
    ensures db.database.Some? ==>
      var c := db.database.value;
      && r == Ok(true)
      && c.medications == StampMedication(old(c.medications), id, now, false)
      && c.reminders == StampRemindersOf(old(c.reminders), id, now)
      && c.medicationSeq == old(c.medicationSeq) && c.reminderSeq == old(c.reminderSeq)
  {
    var conn := db.GetConnection();
    if conn.None? {
      return Err(NoConnection);
    }
    var _ := conn.value.StampMedicationRow(id, now, false);
    var _ := conn.value.StampRemindersOfRows(id, now);
    r := Ok(true);
  }

  /** `create_reminder` */
  method CreateReminder(db: RustDatabase.Manager, reminder: Reminder, now: string) returns (r: Result<int>)
    modifies db.Open()
    ensures db.database.None? ==> r == Err(NoConnection)
    ensures db.database.Some? ==>
      var c := db.database.value;
      && r.Ok? && r.value !in old(c.reminders)
      && r.value == NextId(old(c.reminders).Keys, old(c.reminderSeq))
      && c.reminders == old(c.reminders)[r.value := RemRow(reminder.medicationId, reminder.time, reminder.days,
                                                           Some(BoolColumn(reminder.isActive)), Some(now), Some(now), None)]
      && c.reminderSeq == r.value
      && c.medications == old(c.medications) && c.medicationSeq == old(c.medicationSeq)
  {
    var conn := db.GetConnection();
    if conn.None? {
      return Err(NoConnection);
    }
    var id := conn.value.InsertReminder(reminder.medicationId, reminder.time, reminder.days,
                                        BoolColumn(reminder.isActive), now, now);
    r := Ok(id);
  }

  /** `update_reminder` */
  method UpdateReminder(db: RustDatabase.Manager, reminder: Reminder, now: string) returns (r: Result<bool>)
    modifies db.Open()
    ensures reminder.id.None? ==> r == Err(ReminderIdRequired)
    ensures reminder.id.None? && db.database.Some? ==> unchanged(db.database.value)
    ensures reminder.id.Some? && db.database.None? ==> r == Err(NoConnection)
    ensures reminder.id.Some? && db.database.Some? ==>
      var c := db.database.value;
      && r == Ok(true)
      && c.reminders == RewriteReminder(old(c.reminders), reminder.id.value, reminder.time, reminder.days,
                                        BoolColumn(reminder.isActive), now)
      && c.medications == old(c.medications)
      && c.medicationSeq == old(c.medicationSeq) && c.reminderSeq == old(c.reminderSeq)
  {
    if reminder.id.None? {
      return Err(ReminderIdRequired);
    }
    var conn := db.GetConnection();
    if conn.None? {
      return Err(NoConnection);
    }
    var _ := conn.value.RewriteReminderRow(reminder.id.value, reminder.time, reminder.days,
                                           BoolColumn(reminder.isActive), now);
    r := Ok(true);
  }

  /** `delete_reminder`: stamps that reminder, deleted or not. */
  method DeleteReminder(db: RustDatabase.Manager, id: int, now: string) returns (r: Result<bool>)
    modifies db.Open()
    ensures db.database.None? ==> r == Err(NoConnection)
    ensures db.database.Some? ==>
      var c := db.database.value;
      && r == Ok(true)
      && c.reminders == StampReminder(old(c.reminders), id, now, false)
      && c.medications == old(c.medications)
      && c.medicationSeq == old(c.medicationSeq) && c.reminderSeq == old(c.reminderSeq)
  {
    var conn := db.GetConnection();
    if conn.None? {
      return Err(NoConnection);
    }
    var _ := conn.value.StampReminderRow(id, now, false);
    r := Ok(true);
  }

  /** Decode the rows `ids` one at a time, as the `while let` loops do. */
  method CollectReminders(rt: RemTable, ids: seq<int>) returns (rs: seq<Reminder>)
    requires forall k :: k in ids ==> k in rt
    ensures rs == DecodeReminders(rt, ids)
  {
    rs := [];
    var i := 0;
    while i < |ids|
      invariant 0 <= i <= |ids|
      invariant rs == DecodeReminders(rt, ids[..i])
    {
      assert ids[..i+1] == ids[..i] + [ids[i]];
      DecodeRemindersSnoc(rt, ids[..i], ids[i]);
      rs := rs + [DecodeReminder(ids[i], rt[ids[i]])];
      i := i + 1;
    }
    assert ids[..i] == ids;
  }

  /** `get_reminders_for_medication`: the live reminders naming `m`,
      active or not. */
  method GetRemindersForMedication(db: RustDatabase.Manager, m: int) returns (r: Result<seq<Reminder>>)
    ensures db.database.None? ==> r == Err(NoConnection)
    ensures db.database.Some? ==> r == Ok(DecodeReminders(db.database.value.reminders, ReminderIdsFor(db.database.value.reminders, m)))
    ensures r.Ok? ==> forall q :: 0 <= q < |r.value| ==> r.value[q].medicationId == m && r.value[q].deletedAt.None?
  {
    var conn := db.GetConnection();
    if conn.None? {
      return Err(NoConnection);
    }
    var rt := conn.value.reminders;
    var ids := ReminderIdsFor(rt, m);
    var rs := CollectReminders(rt, ids);
    assert forall q :: 0 <= q < |ids| ==> ids[q] in ids;
    r := Ok(rs);
  }

  /** `get_active_reminders`: the live reminders whose `is_active` is 1. */
  method GetActiveReminders(db: RustDatabase.Manager) returns (r: Result<seq<Reminder>>)
    ensures db.database.None? ==> r == Err(NoConnection)
    ensures db.database.Some? ==> r == Ok(DecodeReminders(db.database.value.reminders, ActiveReminderIds(db.database.value.reminders)))
    ensures r.Ok? ==> forall q :: 0 <= q < |r.value| ==> r.value[q].isActive && r.value[q].deletedAt.None?
  {
    var conn := db.GetConnection();
    if conn.None? {
      return Err(NoConnection);
    }
    var rt := conn.value.reminders;
    var ids := ActiveReminderIds(rt);
    var rs := CollectReminders(rt, ids);
    assert forall q :: 0 <= q < |ids| ==> ids[q] in ids;
    r := Ok(rs);
  }
}
