/**
 * The records of the libsql-only crate: timestamps are `DateTime<Utc>`
 * values, read back from the text columns by a parser.
 */
module NativeModels {
  import opened Common

  /** A `DateTime<Utc>`, identified by its RFC 3339 rendering. */
  datatype DateTime = DateTime(rfc3339: string)

  datatype Reminder = Reminder(
    id: Option<int>,
    medicationId: int,
    time: string,
    days: string,
    isActive: bool,
    createdAt: DateTime,
    updatedAt: DateTime,
    deletedAt: Option<DateTime>)

  datatype Medication = Medication(
    id: Option<int>,
    name: string,
    dosage: string,
    description: string,
    createdAt: DateTime,
    updatedAt: DateTime,
    deletedAt: Option<DateTime>,
    reminders: seq<Reminder>)

  /** `Medication::default()`: `first` and `second` are the two separate
      clock readings taken for `created_at` and `updated_at`. */
  function DefaultMedication(first: DateTime, second: DateTime): (m: Medication)
    ensures m.id.None? && m.name == "" && m.dosage == "" && m.description == ""
    ensures m.createdAt == first && m.updatedAt == second
    ensures m.deletedAt.None? && m.reminders == []
  {
    Medication(None, "", "", "", first, second, None, [])
  }

  /** `Reminder::default()`, again with two clock readings. */
  function DefaultReminder(first: DateTime, second: DateTime): (r: Reminder)
    ensures r.id.None? && r.medicationId == 0 && r.time == "" && r.days == ""
    ensures r.isActive
    ensures r.createdAt == first && r.updatedAt == second
    ensures r.deletedAt.None?
  {
    Reminder(None, 0, "", "", true, first, second, None)
  }

  /** The defaults promise equal creation and update times only when the
      two clock readings agree. */
  lemma DefaultTimesAgreeOnlyOnEqualReadings(first: DateTime, second: DateTime)
    ensures DefaultMedication(first, second).createdAt == DefaultMedication(first, second).updatedAt <==> first == second
    ensures DefaultReminder(first, second).createdAt == DefaultReminder(first, second).updatedAt <==> first == second
  {
  }

  /** Readings a tick apart give a default whose two times differ. */
  lemma DefaultTimesMayDiffer()
    ensures exists a: DateTime, b: DateTime :: DefaultMedication(a, b).createdAt != DefaultMedication(a, b).updatedAt
  {
    var a, b := DateTime("2024-01-01T00:00:00Z"), DateTime("2024-01-01T00:00:01Z");
    assert DefaultMedication(a, b).createdAt != DefaultMedication(a, b).updatedAt;
  }

  /** A serialized medication as the deserializer sees it. */
  datatype MedicationRecord = MedicationRecord(
    id: Option<int>,
    name: string,
    dosage: string,
    description: string,
    createdAt: DateTime,
    updatedAt: DateTime,
    deletedAt: Option<DateTime>,
    reminders: Option<seq<Reminder>>)

  /** The derived deserializer; `#[serde(default)]` fills a missing
      `reminders` with the empty list. */
  function Deserialize(rec: MedicationRecord): (m: Medication)
    ensures rec.reminders.None? ==> m.reminders == []
    ensures rec.reminders.Some? ==> m.reminders == rec.reminders.value
    ensures m.id == rec.id && m.name == rec.name && m.dosage == rec.dosage && m.description == rec.description
    ensures m.createdAt == rec.createdAt && m.updatedAt == rec.updatedAt && m.deletedAt == rec.deletedAt
  {
    Medication(rec.id, rec.name, rec.dosage, rec.description, rec.createdAt, rec.updatedAt,
               rec.deletedAt, rec.reminders.GetOr([]))
  }

  /** The derived serializer, which always writes `reminders`. */
  function Serialize(m: Medication): (rec: MedicationRecord)
    ensures rec.reminders == Some(m.reminders)
  {
    MedicationRecord(m.id, m.name, m.dosage, m.description, m.createdAt, m.updatedAt,
                     m.deletedAt, Some(m.reminders))
  }

  lemma RoundTrip(m: Medication)
    ensures Deserialize(Serialize(m)) == m
  {
  }

  lemma MissingRemindersAreEmpty(rec: MedicationRecord)
    requires rec.reminders.None?
    ensures Deserialize(rec) == Deserialize(rec.(reminders := Some([])))
    ensures Serialize(Deserialize(rec)) == rec.(reminders := Some([]))
  {
  }
}
