/**
 * The records of the SeaORM/libsql crate: timestamps travel as RFC 3339
 * text, so every timestamp field is a string.
 */
module RustModels {
  import opened Common

  datatype Reminder = Reminder(
    id: Option<int>,
    medicationId: int,
    time: string,          // "HH:MM"
    days: string,          // "Mon,Wed,Fri" or "Daily"
    isActive: bool,
    createdAt: string,
    updatedAt: string,
    deletedAt: Option<string>)

  datatype Medication = Medication(
    id: Option<int>,
    name: string,
    dosage: string,
    description: string,
    createdAt: string,
    updatedAt: string,
    deletedAt: Option<string>,
    reminders: seq<Reminder>)

  /** `Medication::default()`, where `now` is its single clock reading. */
  function DefaultMedication(now: string): (m: Medication)
    ensures m.id.None? && m.name == "" && m.dosage == "" && m.description == ""
    ensures m.createdAt == now && m.updatedAt == m.createdAt
    ensures m.deletedAt.None? && m.reminders == []
  {
    Medication(None, "", "", "", now, now, None, [])
  }

  /** `Reminder::default()`, where `now` is its single clock reading. */
  function DefaultReminder(now: string): (r: Reminder)
    ensures r.id.None? && r.medicationId == 0 && r.time == "" && r.days == ""
    ensures r.isActive
    ensures r.createdAt == now && r.updatedAt == r.createdAt
    ensures r.deletedAt.None?
  {
    Reminder(None, 0, "", "", true, now, now, None)
  }

  /** A serialized medication as the deserializer sees it: every field but
      `reminders` is required. */
  datatype MedicationRecord = MedicationRecord(
    id: Option<int>,
    name: string,
    dosage: string,
    description: string,
    createdAt: string,
    updatedAt: string,
    deletedAt: Option<string>,
    reminders: Option<seq<Reminder>>)

  /** The derived deserializer; `#[serde(default)]` fills a missing
      `reminders` with the empty list. */
  function Deserialize(rec: MedicationRecord): (m: Medication)
    ensures rec.reminders.None? ==> m.reminders == []
    ensures rec.reminders.Some? ==> m.reminders == rec.reminders.value
    ensures m.id == rec.id && m.name == rec.name && m.dosage == rec.dosage && m.description == rec.description
    ensures m.createdAt == rec.createdAt && m.updatedAt == rec.updatedAt && m.deletedAt == rec.deletedAt
  {
    Medication(rec.id, rec.name, rec.dosage, rec.description, rec.createdAt, rec.updatedAt,
               rec.deletedAt, rec.reminders.GetOr([]))
  }

  /** The derived serializer, which always writes `reminders`. */
  function Serialize(m: Medication): (rec: MedicationRecord)
    ensures rec.reminders == Some(m.reminders)
  {
    MedicationRecord(m.id, m.name, m.dosage, m.description, m.createdAt, m.updatedAt,
                     m.deletedAt, Some(m.reminders))
  }

  /** Serializing then deserializing gives back the medication. */
  lemma RoundTrip(m: Medication)
    ensures Deserialize(Serialize(m)) == m
  {
  }

  /** A record without `reminders` reads the same as one with an empty list. */
  lemma MissingRemindersAreEmpty(rec: MedicationRecord)
    requires rec.reminders.None?
    ensures Deserialize(rec) == Deserialize(rec.(reminders := Some([])))
    ensures Serialize(Deserialize(rec)) == rec.(reminders := Some([]))
  {
  }

  /** The default medication survives a round trip through a record that
      leaves out `reminders`. */
  lemma DefaultFromRecord(now: string)
    ensures Deserialize(Serialize(DefaultMedication(now)).(reminders := None)) == DefaultMedication(now)
  {
  }
}
