/**
 * Call sequences a client of each crate can make from a fresh process,
 * with what each step reports.
 */
module Scenarios {
  import opened Common
  import opened Libsql
  import RustDatabase
  import RustRepository
  import RustModels
  import NativeDatabase
  import NativeRepository
  import NativeModels

  /** Whichever init comes first claims the database type; the second is
      refused before it connects, and a SeaORM init never provides the
      libsql connection the repository needs. */
  method RustSecondInitRefused(connects: bool, url: string, authToken: string)
    returns (second: Result<()>, conn: Option<Connection>, listing: Result<seq<RustModels.Medication>>)
    ensures second == Err(SetTypeFailed)
    ensures conn.None?
    ensures listing == Err(NoConnection)
  {
    var m := new RustDatabase.Manager();
    var first := m.InitInMemory(connects);
    var backend := new Connection();
    second := m.InitRemoteDb(url, authToken, Some(backend));
    conn := m.GetConnection();
    listing := RustRepository.GetAllMedications(m);
  }

  /** A remote init whose connection fails still consumes the type, so a
      retry is refused and there is never a connection. */
  method RustFailedConnectConsumesType(url: string, authToken: string)
    returns (first: Result<()>, retry: Result<()>, remote: bool, conn: Option<Connection>)
    ensures first == Err(ConnectFailed)
    ensures retry == Err(SetTypeFailed)
    ensures remote && conn.None?
  {
    var m := new RustDatabase.Manager();
    first := m.InitRemoteDb(url, authToken, None);
    var backend := new Connection();
    retry := m.InitRemoteDb(url, authToken, Some(backend));
    remote := m.IsRemote();
    conn := m.GetConnection();
  }

  /** After an in-memory init the type is set, sync is a no-op, and every
      repository call reports the missing connection. */
  method RustInMemoryHasNoConnection(med: RustModels.Medication, now: string)
    returns (init: Result<()>, sync: Result<int>, remote: bool, created: Result<int>, deleted: Result<bool>)
    ensures init == Ok(()) && sync == Ok(0) && !remote
    ensures created == Err(NoConnection) && deleted == Err(NoConnection)
  {
    var m := new RustDatabase.Manager();
    init := m.InitInMemory(true);
    sync := m.SyncDatabase(false);
    remote := m.IsRemote();
    created := RustRepository.CreateMedication(m, med, now);
    deleted := RustRepository.DeleteMedication(m, 1, now);
  }

  /** Deleting a medication hides its reminders from both reminder queries
      and the medication from the listing. */
  method RustDeleteCascades(url: string, authToken: string, med: RustModels.Medication,
                            rem: RustModels.Reminder, now: string, later: string)
    returns (owned: Result<seq<RustModels.Reminder>>, active: Result<seq<RustModels.Reminder>>,
             listing: Result<seq<RustModels.Medication>>)
    ensures owned == Ok([]) && active == Ok([]) && listing == Ok([])
  {
    var m, backend, medId := RustCreateThenDelete(url, authToken, med, rem, now, later);
    owned := RustRepository.GetRemindersForMedication(m, medId);
    active := RustRepository.GetActiveReminders(m);
    listing := RustRepository.GetAllMedications(m);
    assert |RustRepository.DecodeReminders(backend.reminders, [])| == 0;
    assert |RustRepository.Listing(backend.medications, backend.reminders)| == 0;
  }

  /** One medication with one reminder of its own, created and then deleted. */
  method RustCreateThenDelete(url: string, authToken: string, med: RustModels.Medication,
                              rem: RustModels.Reminder, now: string, later: string)
    returns (m: RustDatabase.Manager, backend: Connection, medId: int)
    ensures fresh(m) && fresh(backend) && m.database == Some(backend)
    ensures LiveMedicationIds(backend.medications) == []
    ensures ActiveReminderIds(backend.reminders) == []
    ensures ReminderIdsFor(backend.reminders, medId) == []
  {
    m, backend, medId := RustCreateOne(url, authToken, med, rem, now);
    ghost var rt0 := backend.reminders;
    var deleted := RustRepository.DeleteMedication(m, medId, later);
    CascadeHidesReminders(rt0, medId, later);
    NoLiveRows(backend.medications);
    NoActiveReminders(backend.reminders);
  }

  /** A remote database holding one medication and one reminder naming it. */
  method RustCreateOne(url: string, authToken: string, med: RustModels.Medication,
                       rem: RustModels.Reminder, now: string)
    returns (m: RustDatabase.Manager, backend: Connection, medId: int)
    ensures fresh(m) && fresh(backend) && m.database == Some(backend)
    ensures backend.medications.Keys == {medId}
    ensures forall k :: k in backend.reminders ==> backend.reminders[k].medicationId == medId
  {
    m := new RustDatabase.Manager();
    backend := new Connection();
    var init := m.InitRemoteDb(url, authToken, Some(backend));
    var created := RustRepository.CreateMedication(m, med, now);
    medId := created.value;
    var remId := RustRepository.CreateReminder(m, rem.(medicationId := medId), now);
  }

  lemma NoLiveRows(mt: MedTable)
    requires forall k :: k in mt ==> !mt[k].Live()
    ensures LiveMedicationIds(mt) == []
  {
    NonEmptyHasMember(LiveMedicationIds(mt));
  }

  lemma NoActiveReminders(rt: RemTable)
    requires forall k :: k in rt ==> !rt[k].Live()
    ensures ActiveReminderIds(rt) == []
  {
    NonEmptyHasMember(ActiveReminderIds(rt));
  }

  /** A medication created and read back carries the name, dosage and
      description it was created with, both timestamps `now`, and no
      reminders. */
  method RustCreateThenGet(url: string, authToken: string, med: RustModels.Medication, now: string)
    returns (got: Result<Option<RustModels.Medication>>)
    ensures got.Ok? && got.value.Some?
    ensures var m := got.value.value;
      && m.name == med.name && m.dosage == med.dosage && m.description == med.description
      && m.createdAt == now && m.updatedAt == now && m.deletedAt.None? && m.reminders == []
  {
    var m := new RustDatabase.Manager();
    var b := new Connection();
    var init := m.InitRemoteDb(url, authToken, Some(b));
    var id := RustRepository.CreateMedication(m, med, now);
    got := RustRepository.GetMedication(m, id.value);
  }

  /** The guarded delete of the libsql-only crate reports `true` once and
      `false` when repeated. */
  method NativeDeleteTwice(url: string, authToken: string, med: NativeModels.Medication,
                           now: string, later: string)
    returns (first: Result<bool>, second: Result<bool>)
    ensures first == Ok(true) && second == Ok(false)
  {
    var n := new NativeDatabase.Manager();
    var b := new Connection();
    var init := n.InitTursoDb(url, authToken, Some(b));
    var id := NativeRepository.CreateMedication(n, med, now);
    first := NativeRepository.DeleteMedication(n, id.value, later);
    second := NativeRepository.DeleteMedication(n, id.value, later);
  }

  /** The unguarded delete of the other crate keeps reporting `true`. */
  method RustDeleteTwice(url: string, authToken: string, med: RustModels.Medication,
                         now: string, later: string)
    returns (first: Result<bool>, second: Result<bool>)
    ensures first == Ok(true) && second == Ok(true)
  {
    var m := new RustDatabase.Manager();
    var b := new Connection();
    var init := m.InitRemoteDb(url, authToken, Some(b));
    var id := RustRepository.CreateMedication(m, med, now);
    first := RustRepository.DeleteMedication(m, id.value, later);
    second := RustRepository.DeleteMedication(m, id.value, later);
  }

  /** A second native init reaches its database but is refused, and the
      first connection stays in place. */
  method NativeSecondInitKeepsFirst(url: string, authToken: string, path: string)
    returns (first: Result<()>, second: Result<()>, kept: bool, sync: Result<int>)
    ensures first == Ok(()) && second == Err(SetConnectionFailed)
    ensures kept
    ensures sync == Ok(0)
  {
    var n := new NativeDatabase.Manager();
    var b1 := new Connection();
    var b2 := new Connection();
    first := n.InitTursoDb(url, authToken, Some(b1));
    second := n.InitLocalDb(path, Some(b2));
    var conn := n.GetConnection();
    kept := conn == Some(b1);
    sync := n.SyncDatabase(true);
  }

  /** A native update of a record without id targets id 0, which no
      insert ever assigns, so it reports `false`. */
  method NativeUpdateWithoutId(url: string, authToken: string, med: NativeModels.Medication, now: string)
    returns (updated: Result<bool>)
    requires med.id.None?
    ensures updated == Ok(false)
  {
    var n := new NativeDatabase.Manager();
    var b := new Connection();
    var init := n.InitTursoDb(url, authToken, Some(b));
    var created := NativeRepository.CreateMedication(n, med, now);
    updated := NativeRepository.UpdateMedication(n, med, now);
  }
}
