/**
 * The two SQL tables both repositories read and write, and the libsql
 * connection that runs their statements against them.
 *
 * A table is a map from the `id` primary key to the row's other columns.
 * A SELECT delivers the rows of a table scan (ascending id, the order
 * SQLite visits an INTEGER PRIMARY KEY table) that satisfy its WHERE
 * clause; an UPDATE rewrites exactly the rows its WHERE clause selects and
 * reports how many it rewrote; an INSERT into an AUTOINCREMENT table takes
 * an id one past the largest the table ever held.
 */
module Libsql {
  import opened Common

  /** A row of `medications`; nullable TEXT columns are `Option`s. */
  datatype MedRow = MedRow(
    name: string,
    dosage: string,
    description: string,
    createdAt: Option<string>,
    updatedAt: Option<string>,
    deletedAt: Option<string>)
  {
    /** `deleted_at IS NULL` */
    predicate Live() { deletedAt.None? }
  }

  /** A row of `reminders`; `is_active` is an INTEGER column that may be NULL. */
  datatype RemRow = RemRow(
    medicationId: int,
    time: string,
    days: string,
    isActive: Option<int>,
    createdAt: Option<string>,
    updatedAt: Option<string>,
    deletedAt: Option<string>)
  {
    /** `deleted_at IS NULL` */
    predicate Live() { deletedAt.None? }

    /** `is_active = 1 AND deleted_at IS NULL` */
    predicate Active() { isActive == Some(1) && deletedAt.None? }
  }

  type MedTable = map<int, MedRow>
  type RemTable = map<int, RemRow>

  /** A libsql `Database` handle, as its builder was configured. */
  datatype Handle = RemoteDatabase(url: string, authToken: string) | LocalDatabase(path: string)

  /** The integer a boolean parameter is stored as. */
  function BoolColumn(b: bool): int { if b then 1 else 0 }

  /** The id an AUTOINCREMENT insert assigns, given the keys present and
      the table's `sqlite_sequence` entry. */
  function NextId(keys: set<int>, sequence: nat): (id: int)
    ensures id > sequence && id >= 1
    ensures forall k :: k in keys ==> k < id
  {
    if keys == {} then sequence + 1
    else
      var top := MaxOf(keys);
      (if top > sequence then top else sequence) + 1
  }

  // ----- the WHERE clauses of the SELECT statements -----

  function LiveMedications(t: MedTable): set<int> {
    set k | k in t && t[k].Live()
  }

  function LiveReminders(t: RemTable): set<int> {
    set k | k in t && t[k].Live()
  }

  function ActiveReminders(t: RemTable): set<int> {
    set k | k in t && t[k].Active()
  }

  /** `medication_id = m` */
  function OwnedBy(t: RemTable, m: int): set<int> {
    set k | k in t && t[k].medicationId == m
  }

  /** `medication_id = m AND deleted_at IS NULL` */
  function LiveRemindersOf(t: RemTable, m: int): set<int> {
    set k | k in t && t[k].medicationId == m && t[k].Live()
  }

  /** `SELECT ... FROM medications WHERE deleted_at IS NULL [ORDER BY id]` */
  function LiveMedicationIds(t: MedTable): (ids: seq<int>)
    ensures Increasing(ids)
    ensures forall k {:trigger k in ids} :: k in ids <==> k in t && t[k].Live()
    ensures forall i :: 0 <= i < |ids| ==> ids[i] in t && t[ids[i]].Live()
  {
    var ids := KeepIn(SortedIds(t.Keys), LiveMedications(t));
    assert forall i :: 0 <= i < |ids| ==> ids[i] in ids;
    ids
  }

  /** `SELECT ... FROM reminders WHERE deleted_at IS NULL` */
  function LiveReminderIds(t: RemTable): (ids: seq<int>)
    ensures Increasing(ids)
    ensures forall k {:trigger k in ids} :: k in ids <==> k in t && t[k].Live()
    ensures forall i :: 0 <= i < |ids| ==> ids[i] in t && t[ids[i]].Live()
  {
    var ids := KeepIn(SortedIds(t.Keys), LiveReminders(t));
    assert forall i :: 0 <= i < |ids| ==> ids[i] in ids;
    ids
  }

  /** `SELECT ... FROM reminders WHERE is_active = 1 AND deleted_at IS NULL` */
  function ActiveReminderIds(t: RemTable): (ids: seq<int>)
    ensures Increasing(ids)
    ensures forall k {:trigger k in ids} :: k in ids <==> k in t && t[k].isActive == Some(1) && t[k].Live()
    ensures forall i :: 0 <= i < |ids| ==> ids[i] in t && t[ids[i]].Active()
  {
    var ids := KeepIn(SortedIds(t.Keys), ActiveReminders(t));
    assert forall i :: 0 <= i < |ids| ==> ids[i] in ids;
    ids
  }

  /** `SELECT ... FROM reminders WHERE medication_id = ? AND deleted_at IS NULL` */
  function ReminderIdsFor(t: RemTable, m: int): (ids: seq<int>)
    ensures Increasing(ids)
    ensures forall k {:trigger k in ids} :: k in ids <==> k in t && t[k].medicationId == m && t[k].Live()
    ensures forall i :: 0 <= i < |ids| ==> ids[i] in t && t[ids[i]].medicationId == m && t[ids[i]].Live()
  {
    var ids := KeepIn(SortedIds(t.Keys), LiveRemindersOf(t, m));
    assert forall i :: 0 <= i < |ids| ==> ids[i] in ids;
    ids
  }

  /** Picking the reminders of medication `m` out of all live reminders
      gives what the per-medication query returns. */
  lemma LiveThenOwned(t: RemTable, m: int)
    ensures KeepIn(LiveReminderIds(t), OwnedBy(t, m)) == ReminderIdsFor(t, m)
  {
    KeepInTwice(SortedIds(t.Keys), LiveReminders(t), OwnedBy(t, m));
    assert LiveReminders(t) * OwnedBy(t, m) == LiveRemindersOf(t, m);
  }

  // ----- the SET clauses of the UPDATE statements -----

  /** `UPDATE medications SET name = ?, dosage = ?, description = ?,
      updated_at = ? WHERE id = ? AND deleted_at IS NULL` */
  function RewriteMedication(t: MedTable, id: int, name: string, dosage: string,
                             description: string, now: string): (u: MedTable)
    ensures u.Keys == t.Keys
    ensures forall k :: k in t ==> u[k].createdAt == t[k].createdAt && u[k].deletedAt == t[k].deletedAt
    ensures forall k :: k in t && (k != id || !t[k].Live()) ==> u[k] == t[k]
    ensures id in t && t[id].Live() ==>
      u[id].name == name && u[id].dosage == dosage && u[id].description == description &&
      u[id].updatedAt == Some(now)
  {
    if id in t && t[id].Live() then
      t[id := t[id].(name := name, dosage := dosage, description := description, updatedAt := Some(now))]
    else t
  }

  /** `UPDATE medications SET deleted_at = ? WHERE id = ?`, with
      `AND deleted_at IS NULL` when `onlyLive` */
  function StampMedication(t: MedTable, id: int, now: string, onlyLive: bool): (u: MedTable)
    ensures u.Keys == t.Keys
    ensures forall k :: k in t && k != id ==> u[k] == t[k]
    ensures id in t ==> u[id] == if onlyLive && !t[id].Live() then t[id] else t[id].(deletedAt := Some(now))
  {
    if id in t && (!onlyLive || t[id].Live()) then t[id := t[id].(deletedAt := Some(now))] else t
  }

  /** `UPDATE reminders SET deleted_at = ? WHERE medication_id = ?` */
  function StampRemindersOf(t: RemTable, m: int, now: string): (u: RemTable)
    ensures u.Keys == t.Keys
    ensures forall k :: k in t ==> u[k] == if t[k].medicationId == m then t[k].(deletedAt := Some(now)) else t[k]
  {
    map k | k in t :: if t[k].medicationId == m then t[k].(deletedAt := Some(now)) else t[k]
  }

  /** `UPDATE reminders SET time = ?, days = ?, is_active = ?, updated_at = ?
      WHERE id = ? AND deleted_at IS NULL` */
  function RewriteReminder(t: RemTable, id: int, time: string, days: string,
                           isActive: int, now: string): (u: RemTable)
    ensures u.Keys == t.Keys
    ensures forall k :: k in t ==>
      u[k].medicationId == t[k].medicationId && u[k].createdAt == t[k].createdAt && u[k].deletedAt == t[k].deletedAt
    ensures forall k :: k in t && (k != id || !t[k].Live()) ==> u[k] == t[k]
    ensures id in t && t[id].Live() ==>
      u[id].time == time && u[id].days == days && u[id].isActive == Some(isActive) && u[id].updatedAt == Some(now)
  {
    if id in t && t[id].Live() then
      t[id := t[id].(time := time, days := days, isActive := Some(isActive), updatedAt := Some(now))]
    else t
  }

  /** `UPDATE reminders SET deleted_at = ? WHERE id = ?`, with
      `AND deleted_at IS NULL` when `onlyLive` */
  function StampReminder(t: RemTable, id: int, now: string, onlyLive: bool): (u: RemTable)
    ensures u.Keys == t.Keys
    ensures forall k :: k in t && k != id ==> u[k] == t[k]
    ensures id in t ==> u[id] == if onlyLive && !t[id].Live() then t[id] else t[id].(deletedAt := Some(now))
  {
    if id in t && (!onlyLive || t[id].Live()) then t[id := t[id].(deletedAt := Some(now))] else t
  }

  /** The rows-affected count of an UPDATE keyed on the primary key. */
  function Matched(found: bool): nat { if found then 1 else 0 }

  /** A libsql connection: the tables it reaches and their AUTOINCREMENT
      sequences, with one method per statement the repositories prepare. */
  class Connection {
    var medications: MedTable
    var reminders: RemTable
    var medicationSeq: nat
    var reminderSeq: nat

    /** A database whose tables were just created. */
    constructor ()
      ensures medications == map[] && reminders == map[]
      ensures medicationSeq == 0 && reminderSeq == 0
    {
      medications, reminders := map[], map[];
      medicationSeq, reminderSeq := 0, 0;
    }

    /** `INSERT INTO medications (name, dosage, description, created_at,
        updated_at) VALUES (?, ?, ?, ?, ?) RETURNING id` */
    method InsertMedication(name: string, dosage: string, description: string,
                            createdAt: string, updatedAt: string) returns (id: int)
      modifies this
      ensures id == NextId(old(medications).Keys, old(medicationSeq))
      ensures medications == old(medications)[id := MedRow(name, dosage, description, Some(createdAt), Some(updatedAt), None)]
      ensures medicationSeq == id
      ensures reminders == old(reminders) && reminderSeq == old(reminderSeq)
    {
      id := NextId(medications.Keys, medicationSeq);
      medications := medications[id := MedRow(name, dosage, description, Some(createdAt), Some(updatedAt), None)];
      medicationSeq := id;
    }

    /** `INSERT INTO reminders (medication_id, time, days, is_active,
        created_at, updated_at) VALUES (?, ?, ?, ?, ?, ?) RETURNING id` */
    method InsertReminder(medicationId: int, time: string, days: string, isActive: int,
                          createdAt: string, updatedAt: string) returns (id: int)
      modifies this
      ensures id == NextId(old(reminders).Keys, old(reminderSeq))
      ensures reminders == old(reminders)[id := RemRow(medicationId, time, days, Some(isActive), Some(createdAt), Some(updatedAt), None)]
      ensures reminderSeq == id
      ensures medications == old(medications) && medicationSeq == old(medicationSeq)
    {
      id := NextId(reminders.Keys, reminderSeq);
      reminders := reminders[id := RemRow(medicationId, time, days, Some(isActive), Some(createdAt), Some(updatedAt), None)];
      reminderSeq := id;
    }

    method RewriteMedicationRow(id: int, name: string, dosage: string, description: string,
                                now: string) returns (rowsAffected: nat)
      modifies this
      ensures rowsAffected == Matched(id in old(medications) && old(medications)[id].Live())
      ensures medications == RewriteMedication(old(medications), id, name, dosage, description, now)
      ensures reminders == old(reminders)
      ensures medicationSeq == old(medicationSeq) && reminderSeq == old(reminderSeq)
    {
      rowsAffected := Matched(id in medications && medications[id].Live());
      medications := RewriteMedication(medications, id, name, dosage, description, now);
    }

    method StampMedicationRow(id: int, now: string, onlyLive: bool) returns (rowsAffected: nat)
      modifies this
      ensures rowsAffected == Matched(id in old(medications) && (!onlyLive || old(medications)[id].Live()))
      ensures medications == StampMedication(old(medications), id, now, onlyLive)
      ensures reminders == old(reminders)
      ensures medicationSeq == old(medicationSeq) && reminderSeq == old(reminderSeq)
    {
      rowsAffected := Matched(id in medications && (!onlyLive || medications[id].Live()));
      medications := StampMedication(medications, id, now, onlyLive);
    }

    method StampRemindersOfRows(m: int, now: string) returns (rowsAffected: nat)
      modifies this
      ensures rowsAffected == |OwnedBy(old(reminders), m)|
      ensures reminders == StampRemindersOf(old(reminders), m, now)
      ensures medications == old(medications)
      ensures medicationSeq == old(medicationSeq) && reminderSeq == old(reminderSeq)
    {
      rowsAffected := |OwnedBy(reminders, m)|;
      reminders := StampRemindersOf(reminders, m, now);
    }

    method RewriteReminderRow(id: int, time: string, days: string, isActive: int,
                              now: string) returns (rowsAffected: nat)
      modifies this
      ensures rowsAffected == Matched(id in old(reminders) && old(reminders)[id].Live())
      ensures reminders == RewriteReminder(old(reminders), id, time, days, isActive, now)
      ensures medications == old(medications)
      ensures medicationSeq == old(medicationSeq) && reminderSeq == old(reminderSeq)
    {
      rowsAffected := Matched(id in reminders && reminders[id].Live());
      reminders := RewriteReminder(reminders, id, time, days, isActive, now);
    }

    method StampReminderRow(id: int, now: string, onlyLive: bool) returns (rowsAffected: nat)
      modifies this
      ensures rowsAffected == Matched(id in old(reminders) && (!onlyLive || old(reminders)[id].Live()))
      ensures reminders == StampReminder(old(reminders), id, now, onlyLive)
      ensures medications == old(medications)
      ensures medicationSeq == old(medicationSeq) && reminderSeq == old(reminderSeq)
    {
      rowsAffected := Matched(id in reminders && (!onlyLive || reminders[id].Live()));
      reminders := StampReminder(reminders, id, now, onlyLive);
    }
  }

  // ----- what the statements mean for later queries -----

  /** A soft-deleted medication is gone from every later medication query. */
  lemma StampedMedicationHidden(t: MedTable, id: int, now: string, onlyLive: bool)
    ensures id !in LiveMedicationIds(StampMedication(t, id, now, onlyLive))
    ensures forall k :: k != id ==> (k in LiveMedicationIds(StampMedication(t, id, now, onlyLive)) <==> k in LiveMedicationIds(t))
  {
  }

  /** After the cascade, no reminder of `m` is returned by the
      per-medication query or by the active-reminders query. */
  lemma CascadeHidesReminders(t: RemTable, m: int, now: string)
    ensures ReminderIdsFor(StampRemindersOf(t, m, now), m) == []
    ensures forall k :: k in ActiveReminderIds(StampRemindersOf(t, m, now)) ==> t[k].medicationId != m
  {
    var r := ReminderIdsFor(StampRemindersOf(t, m, now), m);
    NonEmptyHasMember(r);
  }

  /** The cascade leaves the reminders of every other medication as they were. */
  lemma CascadeSparesOthers(t: RemTable, m: int, now: string, m': int)
    requires m' != m
    ensures ReminderIdsFor(StampRemindersOf(t, m, now), m') == ReminderIdsFor(t, m')
  {
    var u := StampRemindersOf(t, m, now);
    assert u.Keys == t.Keys;
    assert LiveRemindersOf(u, m') == LiveRemindersOf(t, m');
  }

  /** A second guarded soft delete of the same id matches no row and leaves
      the table as the first one left it. */
  lemma GuardedStampOnce(t: MedTable, id: int, now: string, later: string)
    ensures var u := StampMedication(t, id, now, true);
      !(id in u && u[id].Live()) && StampMedication(u, id, later, true) == u
  {
  }

  /** An unguarded soft delete of an already deleted medication rewrites its
      `deleted_at` with the new time. */
  lemma UnguardedStampRestamps(t: MedTable, id: int, now: string)
    requires id in t && !t[id].Live()
    ensures StampMedication(t, id, now, false)[id].deletedAt == Some(now)
    ensures StampMedication(t, id, now, false) != t <==> t[id].deletedAt != Some(now)
  {
  }

  /** Rewriting a medication never brings back a deleted one. */
  lemma RewriteKeepsLiveness(t: MedTable, id: int, name: string, dosage: string,
                             description: string, now: string)
    ensures LiveMedicationIds(RewriteMedication(t, id, name, dosage, description, now)) == LiveMedicationIds(t)
  {
    assert LiveMedications(RewriteMedication(t, id, name, dosage, description, now)) == LiveMedications(t);
  }
}
