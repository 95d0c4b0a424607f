/**
 * The repository of the libsql-only crate. Reading a row can fail: the
 * timestamp columns and `is_active` are read as non-NULL values and the
 * timestamps are parsed. Deletes are soft and guarded by
 * `deleted_at IS NULL`, deleting a medication leaves its reminders alone,
 * and every update or delete reports whether a row was affected.
 */
module NativeRepository {
  import opened Common
  import opened Libsql
  import opened NativeModels
  import NativeDatabase

  /** The timestamp parser `str::parse::<DateTime<Utc>>`. */
  type Parser = string -> Option<DateTime>

  // ----- decoding a row into a record -----

  /** `row.get::<String>(i)?.parse()?`: a NULL column or unparsable text fails. */
  function ParseColumn(col: Option<string>, parse: Parser): (r: Result<DateTime>)
    ensures r == Err(NullColumn) <==> col.None?
    ensures r == Err(BadTimestamp) <==> col.Some? && parse(col.value).None?
    ensures r.Ok? ==> col.Some? && parse(col.value) == Some(r.value)
  {
    match col
    case None => Err(NullColumn)
    case Some(s) =>
      match parse(s)
      case None => Err(BadTimestamp)
      case Some(d) => Ok(d)
  }

  /** `deleted_at`: NULL and unparsable text both read as no deletion time. */
  function ParseOptional(col: Option<string>, parse: Parser): (d: Option<DateTime>)
    ensures col.None? ==> d.None?
    ensures col.Some? ==> d == parse(col.value)
  {
    if col.None? then None else parse(col.value)
  }

  /** A medications row read back; the first failing column decides the error. */
  function DecodeMedication(id: int, row: MedRow, parse: Parser): (r: Result<Medication>)
    ensures r.Ok? <==> ParseColumn(row.createdAt, parse).Ok? && ParseColumn(row.updatedAt, parse).Ok?
    ensures ParseColumn(row.createdAt, parse).Err? ==> r == Err(ParseColumn(row.createdAt, parse).error)
    ensures ParseColumn(row.createdAt, parse).Ok? && ParseColumn(row.updatedAt, parse).Err? ==>
      r == Err(ParseColumn(row.updatedAt, parse).error)
    ensures r.Ok? ==>
      && r.value.id == Some(id) && r.value.reminders == []
      && r.value.name == row.name && r.value.dosage == row.dosage && r.value.description == row.description
      && Some(r.value.createdAt) == parse(row.createdAt.value)
      && Some(r.value.updatedAt) == parse(row.updatedAt.value)
      && r.value.deletedAt == ParseOptional(row.deletedAt, parse)
  {
    match ParseColumn(row.createdAt, parse)
    case Err(e) => Err(e)
    case Ok(created) =>
      match ParseColumn(row.updatedAt, parse)
      case Err(e) => Err(e)
      case Ok(updated) =>
        Ok(Medication(Some(id), row.name, row.dosage, row.description, created, updated,
                      ParseOptional(row.deletedAt, parse), []))
  }

  /** A reminders row read back: a NULL `is_active` is an error, any other
      value is active unless zero. */
  function DecodeReminder(id: int, row: RemRow, parse: Parser): (r: Result<Reminder>)
    ensures row.isActive.None? ==> r == Err(NullColumn)
    ensures row.isActive.Some? && ParseColumn(row.createdAt, parse).Err? ==>
      r == Err(ParseColumn(row.createdAt, parse).error)
    ensures row.isActive.Some? && ParseColumn(row.createdAt, parse).Ok? && ParseColumn(row.updatedAt, parse).Err? ==>
      r == Err(ParseColumn(row.updatedAt, parse).error)
    ensures r.Ok? <==> row.isActive.Some? && ParseColumn(row.createdAt, parse).Ok? && ParseColumn(row.updatedAt, parse).Ok?
    ensures r.Ok? ==>
      && r.value.id == Some(id) && r.value.medicationId == row.medicationId
      && r.value.time == row.time && r.value.days == row.days
      && (r.value.isActive <==> row.isActive.value != 0)
      && Some(r.value.createdAt) == parse(row.createdAt.value)
      && Some(r.value.updatedAt) == parse(row.updatedAt.value)
      && r.value.deletedAt == ParseOptional(row.deletedAt, parse)
  {
    match row.isActive
    case None => Err(NullColumn)
    case Some(v) =>
      match ParseColumn(row.createdAt, parse)
      case Err(e) => Err(e)
      case Ok(created) =>
        match ParseColumn(row.updatedAt, parse)
        case Err(e) => Err(e)
        case Ok(updated) =>
          Ok(Reminder(Some(id), row.medicationId, row.time, row.days, v != 0, created, updated,
                      ParseOptional(row.deletedAt, parse)))
  }

  /** The rows `ids` of `t` decoded in order; the first failing row decides the error. */
  function DecodeMedications(t: MedTable, ids: seq<int>, parse: Parser): (r: Result<seq<Medication>>)
    requires forall k :: k in ids ==> k in t
    ensures r.Ok? <==> forall i :: 0 <= i < |ids| ==> DecodeMedication(ids[i], t[ids[i]], parse).Ok?
    ensures r.Ok? ==> |r.value| == |ids|
    ensures r.Ok? ==> forall i :: 0 <= i < |ids| ==> DecodeMedication(ids[i], t[ids[i]], parse) == Ok(r.value[i])
  {
    if ids == [] then Ok([])
    else
      var last := ids[|ids| - 1];
      assert last in ids;
      match DecodeMedications(t, ids[..|ids| - 1], parse)
      case Err(e) => Err(e)
      case Ok(ms) =>
        match DecodeMedication(last, t[last], parse)
        case Err(e) => Err(e)
        case Ok(m) => Ok(ms + [m])
  }

  function DecodeReminders(t: RemTable, ids: seq<int>, parse: Parser): (r: Result<seq<Reminder>>)
    requires forall k :: k in ids ==> k in t
    ensures r.Ok? <==> forall i :: 0 <= i < |ids| ==> DecodeReminder(ids[i], t[ids[i]], parse).Ok?
    ensures r.Ok? ==> |r.value| == |ids|
    ensures r.Ok? ==> forall i :: 0 <= i < |ids| ==> DecodeReminder(ids[i], t[ids[i]], parse) == Ok(r.value[i])
  {
    if ids == [] then Ok([])
    else
      var last := ids[|ids| - 1];
      assert last in ids;
      match DecodeReminders(t, ids[..|ids| - 1], parse)
      case Err(e) => Err(e)
      case Ok(rs) =>
        match DecodeReminder(last, t[last], parse)
        case Err(e) => Err(e)
        case Ok(rem) => Ok(rs + [rem])
  }

  /** Once a prefix of the rows fails to decode, reading further rows
      keeps that first error. */
  lemma {:induction false} MedicationErrorStays(t: MedTable, ids: seq<int>, n: nat, parse: Parser)
    requires forall k :: k in ids ==> k in t
    requires n <= |ids|
    requires DecodeMedications(t, ids[..n], parse).Err?
    ensures DecodeMedications(t, ids, parse) == DecodeMedications(t, ids[..n], parse)
    decreases |ids| - n
  {
    if n < |ids| {
      var front := ids[..|ids| - 1];
      assert front[..n] == ids[..n];
      MedicationErrorStays(t, front, n, parse);
    } else {
      assert ids[..n] == ids;
    }
  }

  lemma {:induction false} ReminderErrorStays(t: RemTable, ids: seq<int>, n: nat, parse: Parser)
    requires forall k :: k in ids ==> k in t
    requires n <= |ids|
    requires DecodeReminders(t, ids[..n], parse).Err?
    ensures DecodeReminders(t, ids, parse) == DecodeReminders(t, ids[..n], parse)
    decreases |ids| - n
  {
    if n < |ids| {
      var front := ids[..|ids| - 1];
      assert front[..n] == ids[..n];
      ReminderErrorStays(t, front, n, parse);
    } else {
      assert ids[..n] == ids;
    }
  }

  /** The decoded reminders that name medication `m`, in order. */
  function Owned(rs: seq<Reminder>, m: int): (o: seq<Reminder>)
    ensures |o| <= |rs|
    ensures forall q :: 0 <= q < |o| ==> o[q].medicationId == m
  {
    if rs == [] then []
    else
      var front := Owned(rs[..|rs| - 1], m);
      if rs[|rs| - 1].medicationId == m then front + [rs[|rs| - 1]] else front
  }

  lemma OwnedSnoc(rs: seq<Reminder>, x: Reminder, m: int)
    ensures Owned(rs + [x], m) == Owned(rs, m) + (if x.medicationId == m then [x] else [])
  {
    assert (rs + [x])[..|rs|] == rs;
  }

  /** Picking the reminders of `m` out of the decoded rows gives the decoded
      rows the query `medication_id = m` selects. */
  lemma {:induction false} OwnedIsSelection(t: RemTable, ids: seq<int>, m: int, parse: Parser)
    requires forall k :: k in ids ==> k in t
    requires DecodeReminders(t, ids, parse).Ok?
    ensures var o := Owned(DecodeReminders(t, ids, parse).value, m);
      var sel := KeepIn(ids, OwnedBy(t, m));
      && |o| == |sel|
      && forall q :: 0 <= q < |o| ==> sel[q] in t && DecodeReminder(sel[q], t[sel[q]], parse) == Ok(o[q])
  {
    if ids != [] {
      var front := ids[..|ids| - 1];
      var x := ids[|ids| - 1];
      assert ids == front + [x];
      assert x in ids;
      OwnedIsSelection(t, front, m, parse);
      var rs := DecodeReminders(t, ids, parse).value;
      var rsFront := DecodeReminders(t, front, parse).value;
      var rx := DecodeReminder(x, t[x], parse).value;
      assert rs == rsFront + [rx];
      assert rs[..|rs| - 1] == rsFront;
      OwnedSnoc(rsFront, rx, m);
      KeepInSnoc(front, x, OwnedBy(t, m));
      assert rx.medicationId == t[x].medicationId;
      var sel := KeepIn(ids, OwnedBy(t, m));
      forall k | k in sel ensures k in t {
      }
    }
  }

  /** What `get_all_medications` returns: the first decode error, or the
      live medications each carrying the decoded live reminders that name
      it; with no live medications the reminders are never read. */
  function Listing(mt: MedTable, rt: RemTable, parse: Parser): Result<seq<Medication>> {
    var ids := LiveMedicationIds(mt);
    match DecodeMedications(mt, ids, parse)
    case Err(e) => Err(e)
    case Ok(ms) =>
      if ms == [] then Ok([])
      else
        match DecodeReminders(rt, LiveReminderIds(rt), parse)
        case Err(e) => Err(e)
        case Ok(rs) => Ok(seq(|ms|, i requires 0 <= i < |ms| => ms[i].(reminders := Owned(rs, ids[i]))))
  }

  /** Without live medications the listing is empty, whatever the reminders hold. */
  lemma ListingShortCircuits(mt: MedTable, rt: RemTable, parse: Parser)
    requires forall k :: k in mt ==> !mt[k].Live()
    ensures Listing(mt, rt, parse) == Ok([])
  {
    NonEmptyHasMember(LiveMedicationIds(mt));
  }

  /** A successful listing holds the live medications in id order, each
      carrying exactly the live reminders that name it. */
  lemma ListingContents(mt: MedTable, rt: RemTable, parse: Parser)
    requires Listing(mt, rt, parse).Ok?
    ensures var l := Listing(mt, rt, parse).value;
      var ids := LiveMedicationIds(mt);
      && |l| == |ids|
      && forall i :: 0 <= i < |l| ==>
           && l[i].id == Some(ids[i])
           && |l[i].reminders| == |ReminderIdsFor(rt, ids[i])|
           && forall q :: 0 <= q < |l[i].reminders| ==>
                var x := ReminderIdsFor(rt, ids[i])[q];
                x in rt && DecodeReminder(x, rt[x], parse) == Ok(l[i].reminders[q])
  {
    var l := Listing(mt, rt, parse).value;
    var ids := LiveMedicationIds(mt);
    var ms := DecodeMedications(mt, ids, parse).value;
    if ms != [] {
      var rems := LiveReminderIds(rt);
      forall i | 0 <= i < |l|
        ensures l[i].id == Some(ids[i])
        ensures |l[i].reminders| == |ReminderIdsFor(rt, ids[i])|
        ensures forall q :: 0 <= q < |l[i].reminders| ==>
                  var x := ReminderIdsFor(rt, ids[i])[q];
                  x in rt && DecodeReminder(x, rt[x], parse) == Ok(l[i].reminders[q])
      {
        OwnedIsSelection(rt, rems, ids[i], parse);
        LiveThenOwned(rt, ids[i]);
      }
    }
  }

  // ----- the operations -----

  /** `create_medication` */
  method CreateMedication(db: NativeDatabase.Manager, med: Medication, now: string) returns (r: Result<int>)
    modifies db.Open()
    ensures db.database.None? ==> r == Err(NoConnection)
    ensures db.database.Some? ==>
      var c := db.database.value;
      && r.Ok? && r.value !in old(c.medications)
      && r.value == NextId(old(c.medications).Keys, old(c.medicationSeq))
      && c.medications == old(c.medications)[r.value := MedRow(med.name, med.dosage, med.description, Some(now), Some(now), None)]
      && c.medicationSeq == r.value
      && c.reminders == old(c.reminders) && c.reminderSeq == old(c.reminderSeq)
  {
    var conn := db.GetConnection();
    if conn.None? {
      return Err(NoConnection);
    }
    var id := conn.value.InsertMedication(med.name, med.dosage, med.description, now, now);
    r := Ok(id);
  }

  /** `get_all_medications` */
  method GetAllMedications(db: NativeDatabase.Manager, parse: Parser) returns (r: Result<seq<Medication>>)
    ensures db.database.None? ==> r == Err(NoConnection)
    ensures db.database.Some? ==> r == Listing(db.database.value.medications, db.database.value.reminders, parse)
  {
    var conn := db.GetConnection();
    if conn.None? {
      return Err(NoConnection);
    }
    var mt, rt := conn.value.medications, conn.value.reminders;
    var decoded := CollectMedications(mt, parse);
    if decoded.Err? {
      return Err(decoded.error);
    }
    var meds := decoded.value;
    if meds == [] {
      return Ok([]);
    }
    r := AttachReminders(mt, rt, parse, meds);
  }

  /** The first loop of `get_all_medications`. */
  method CollectMedications(mt: MedTable, parse: Parser) returns (r: Result<seq<Medication>>)
    ensures r == DecodeMedications(mt, LiveMedicationIds(mt), parse)
  {
    var ids := LiveMedicationIds(mt);
    var meds: seq<Medication> := [];
    var i := 0;
    while i < |ids|
      invariant 0 <= i <= |ids|
      invariant DecodeMedications(mt, ids[..i], parse) == Ok(meds)
    {
      var d := DecodeMedication(ids[i], mt[ids[i]], parse);
      DecodeMedicationStep(mt, ids, i, parse, meds);
      if d.Err? {
        return Err(d.error);
      }
      meds := meds + [d.value];
      i := i + 1;
    }
    assert ids[..i] == ids;
    r := Ok(meds);
  }

  /** One more row of a scan whose first `i` rows decoded to `ms`. */
  lemma DecodeMedicationStep(mt: MedTable, ids: seq<int>, i: nat, parse: Parser, ms: seq<Medication>)
    requires forall k :: k in ids ==> k in mt
    requires i < |ids|
    requires DecodeMedications(mt, ids[..i], parse) == Ok(ms)
    ensures ids[i] in mt
    ensures DecodeMedication(ids[i], mt[ids[i]], parse).Err? ==>
      DecodeMedications(mt, ids, parse) == Err(DecodeMedication(ids[i], mt[ids[i]], parse).error)
    ensures DecodeMedication(ids[i], mt[ids[i]], parse).Ok? ==>
      DecodeMedications(mt, ids[..i+1], parse) == Ok(ms + [DecodeMedication(ids[i], mt[ids[i]], parse).value])
  {
    assert ids[i] in ids;
    assert ids[..i+1][..i] == ids[..i];
    if DecodeMedication(ids[i], mt[ids[i]], parse).Err? {
      MedicationErrorStays(mt, ids, i + 1, parse);
    }
  }

  /** The association loop's invariant after `j` reminder rows decoded as
      `seen`: every medication carries the seen reminders that name it. */
  ghost predicate Attached(mt: MedTable, rt: RemTable, parse: Parser, ms: seq<Medication>,
                           j: nat, seen: seq<Reminder>, meds: seq<Medication>)
  {
    var ids := LiveMedicationIds(mt);
    var rems := LiveReminderIds(rt);
    && DecodeMedications(mt, ids, parse) == Ok(ms)
    && j <= |rems|
    && DecodeReminders(rt, rems[..j], parse) == Ok(seen)
    && |meds| == |ms|
    && forall k :: 0 <= k < |ms| ==> meds[k] == ms[k].(reminders := Owned(seen, ids[k]))
  }

  /** The second loop of `get_all_medications`: each decoded reminder is
      pushed onto the first medication with its id, then the scan breaks. */
  method AttachReminders(mt: MedTable, rt: RemTable, parse: Parser, ms: seq<Medication>)
    returns (r: Result<seq<Medication>>)
    requires DecodeMedications(mt, LiveMedicationIds(mt), parse) == Ok(ms)
    requires ms != []
    ensures r == Listing(mt, rt, parse)
  {
    var rems := LiveReminderIds(rt);
    var meds := ms;
    ghost var seen: seq<Reminder> := [];
    var j := 0;
    while j < |rems|
      invariant 0 <= j <= |rems|
      invariant Attached(mt, rt, parse, ms, j, seen, meds)
    {
      var x := rems[j];
      var d := DecodeReminder(x, rt[x], parse);
      if d.Err? {
        AttachFails(mt, rt, parse, ms, j, seen, meds, d.error);
        return Err(d.error);
      }
      var reminder := d.value;
      ghost var before := meds;
      meds := PushToFirst(meds, reminder);
      AttachStep(mt, rt, parse, ms, j, seen, before, meds, reminder);
      seen := seen + [reminder];
      j := j + 1;
    }
    AttachDone(mt, rt, parse, ms, seen, meds);
    r := Ok(meds);
  }

  /** Whether `k` is the first position whose medication has id `mid`. */
  predicate FirstWith(meds: seq<Medication>, mid: int, k: nat)
    requires k < |meds|
  {
    meds[k].id == Some(mid) && forall q :: 0 <= q < k ==> meds[q].id != Some(mid)
  }

  /** The inner `for med in &mut medications` loop: push onto the first
      medication with the reminder's id, then break. */
  method PushToFirst(before: seq<Medication>, reminder: Reminder) returns (meds: seq<Medication>)
    ensures |meds| == |before|
    ensures forall k :: 0 <= k < |before| ==>
      meds[k] == if FirstWith(before, reminder.medicationId, k)
                 then before[k].(reminders := before[k].reminders + [reminder])
                 else before[k]
  {
    meds := before;
    var k := 0;
    while k < |meds|
      invariant 0 <= k <= |meds| && meds == before
      invariant forall q :: 0 <= q < k ==> meds[q].id != Some(reminder.medicationId)
    {
      if meds[k].id.Some? && meds[k].id.value == reminder.medicationId {
        meds := meds[k := meds[k].(reminders := meds[k].reminders + [reminder])];
        break;
      }
      k := k + 1;
    }
  }

  /** A reminder row that does not decode ends the listing with its error. */
  lemma AttachFails(mt: MedTable, rt: RemTable, parse: Parser, ms: seq<Medication>, j: nat,
                    seen: seq<Reminder>, meds: seq<Medication>, e: Error)
    requires ms != []
    requires Attached(mt, rt, parse, ms, j, seen, meds)
    requires j < |LiveReminderIds(rt)|
    requires DecodeReminder(LiveReminderIds(rt)[j], rt[LiveReminderIds(rt)[j]], parse) == Err(e)
    ensures Listing(mt, rt, parse) == Err(e)
  {
    var rems := LiveReminderIds(rt);
    assert rems[..j+1][..j] == rems[..j];
    ReminderErrorStays(rt, rems, j + 1, parse);
  }

  lemma AttachStep(mt: MedTable, rt: RemTable, parse: Parser, ms: seq<Medication>, j: nat,
                   seen: seq<Reminder>, before: seq<Medication>, after: seq<Medication>,
                   reminder: Reminder)
    requires Attached(mt, rt, parse, ms, j, seen, before)
    requires j < |LiveReminderIds(rt)|
    requires DecodeReminder(LiveReminderIds(rt)[j], rt[LiveReminderIds(rt)[j]], parse) == Ok(reminder)
    requires |after| == |before|
    requires forall k :: 0 <= k < |before| ==>
      after[k] == if FirstWith(before, reminder.medicationId, k)
                  then before[k].(reminders := before[k].reminders + [reminder])
                  else before[k]
    ensures Attached(mt, rt, parse, ms, j + 1, seen + [reminder], after)
  {
    var ids := LiveMedicationIds(mt);
    DecodeReminderStep(rt, LiveReminderIds(rt), j, parse, seen);
    forall k | 0 <= k < |ms| ensures after[k] == ms[k].(reminders := Owned(seen + [reminder], ids[k])) {
      AttachStepAt(mt, parse, ms, seen, before, after, reminder, k);
    }
  }

  /** The step of `AttachStep` for the medication at position `k`. */
  lemma AttachStepAt(mt: MedTable, parse: Parser, ms: seq<Medication>, seen: seq<Reminder>,
                     before: seq<Medication>, after: seq<Medication>,
                     reminder: Reminder, k: nat)
    requires DecodeMedications(mt, LiveMedicationIds(mt), parse) == Ok(ms)
    requires |before| == |ms| && k < |ms|
    requires forall q :: 0 <= q < |ms| ==> before[q] == ms[q].(reminders := Owned(seen, LiveMedicationIds(mt)[q]))
    requires |after| == |before|
    requires forall k :: 0 <= k < |before| ==>
      after[k] == if FirstWith(before, reminder.medicationId, k)
                  then before[k].(reminders := before[k].reminders + [reminder])
                  else before[k]
    ensures after[k] == ms[k].(reminders := Owned(seen + [reminder], LiveMedicationIds(mt)[k]))
  {
    var ids := LiveMedicationIds(mt);
    OwnedSnoc(seen, reminder, ids[k]);
    assert before[k].id == Some(ids[k]);
    if before[k].id == Some(reminder.medicationId) {
      forall q | 0 <= q < k ensures before[q].id != Some(reminder.medicationId) {
        assert before[q].id == Some(ids[q]) && ids[q] < ids[k];
      }
    }
  }

  lemma AttachDone(mt: MedTable, rt: RemTable, parse: Parser, ms: seq<Medication>,
                   seen: seq<Reminder>, meds: seq<Medication>)
    requires ms != []
    requires Attached(mt, rt, parse, ms, |LiveReminderIds(rt)|, seen, meds)
    ensures Listing(mt, rt, parse) == Ok(meds)
  {
    var ids := LiveMedicationIds(mt);
    var rems := LiveReminderIds(rt);
    assert rems[..|rems|] == rems;
    assert DecodeReminders(rt, rems, parse) == Ok(seen);
    var l := seq(|ms|, i requires 0 <= i < |ms| => ms[i].(reminders := Owned(seen, ids[i])));
    assert l == meds;
  }

  /** `update_medication`: a record without id updates id 0; reports
      whether a live row was rewritten. */
  method UpdateMedication(db: NativeDatabase.Manager, med: Medication, now: string) returns (r: Result<bool>)
    modifies db.Open()
    ensures db.database.None? ==> r == Err(NoConnection)
    ensures db.database.Some? ==>
      var c := db.database.value;
      var id := med.id.GetOr(0);
      && r == Ok(id in old(c.medications) && old(c.medications)[id].Live())
      && c.medications == RewriteMedication(old(c.medications), id, med.name, med.dosage, med.description, now)
      && c.reminders == old(c.reminders)
      && c.medicationSeq == old(c.medicationSeq) && c.reminderSeq == old(c.reminderSeq)
  {
    var conn := db.GetConnection();
    if conn.None? {
      return Err(NoConnection);
    }
    var rowsAffected := conn.value.RewriteMedicationRow(med.id.GetOr(0), med.name, med.dosage, med.description, now);
    r := Ok(rowsAffected > 0);
  }

  /** `delete_medication`: stamps the medication only while it is live and
      leaves its reminders alone. */
  method DeleteMedication(db: NativeDatabase.Manager, id: int, now: string) returns (r: Result<bool>)
    modifies db.Open()
    ensures db.database.None? ==> r == Err(NoConnection)
    ensures db.database.Some? ==>
      var c := db.database.value;
      && r == Ok(id in old(c.medications) && old(c.medications)[id].Live())
      && c.medications == StampMedication(old(c.medications), id, now, true)
      && c.reminders == old(c.reminders)
      && c.medicationSeq == old(c.medicationSeq) && c.reminderSeq == old(c.reminderSeq)
  {
    var conn := db.GetConnection();
    if conn.None? {
      return Err(NoConnection);
    }
    var rowsAffected := conn.value.StampMedicationRow(id, now, true);
    r := Ok(rowsAffected > 0);
  }

  /** `create_reminder` */
  method CreateReminder(db: NativeDatabase.Manager, reminder: Reminder, now: string) returns (r: Result<int>)
    modifies db.Open()
    ensures db.database.None? ==> r == Err(NoConnection)
    ensures db.database.Some? ==>
      var c := db.database.value;
      && r.Ok? && r.value !in old(c.reminders)
      && r.value == NextId(old(c.reminders).Keys, old(c.reminderSeq))
      && c.reminders == old(c.reminders)[r.value := RemRow(reminder.medicationId, reminder.time, reminder.days,
                                                           Some(BoolColumn(reminder.isActive)), Some(now), Some(now), None)]
      && c.reminderSeq == r.value
      && c.medications == old(c.medications) && c.medicationSeq == old(c.medicationSeq)
  {
    var conn := db.GetConnection();
    if conn.None? {
      return Err(NoConnection);
    }
    var id := conn.value.InsertReminder(reminder.medicationId, reminder.time, reminder.days,
                                        BoolColumn(reminder.isActive), now, now);
    r := Ok(id);
  }

  /** Decode the rows `ids` one at a time, stopping at the first failure. */
  method CollectReminders(rt: RemTable, ids: seq<int>, parse: Parser) returns (r: Result<seq<Reminder>>)
    requires forall k :: k in ids ==> k in rt
    ensures r == DecodeReminders(rt, ids, parse)
  {
    var rs: seq<Reminder> := [];
    var i := 0;
    while i < |ids|
      invariant 0 <= i <= |ids|
      invariant DecodeReminders(rt, ids[..i], parse) == Ok(rs)
    {
      assert ids[i] in ids;
      var d := DecodeReminder(ids[i], rt[ids[i]], parse);
      DecodeReminderStep(rt, ids, i, parse, rs);
      if d.Err? {
        return Err(d.error);
      }
      rs := rs + [d.value];
      i := i + 1;
    }
    assert ids[..i] == ids;
    r := Ok(rs);
  }

  /** One more row of a scan whose first `i` rows decoded to `rs`. */
  lemma DecodeReminderStep(rt: RemTable, ids: seq<int>, i: nat, parse: Parser, rs: seq<Reminder>)
    requires forall k :: k in ids ==> k in rt
    requires i < |ids|
    requires DecodeReminders(rt, ids[..i], parse) == Ok(rs)
    ensures ids[i] in rt
    ensures DecodeReminder(ids[i], rt[ids[i]], parse).Err? ==>
      DecodeReminders(rt, ids, parse) == Err(DecodeReminder(ids[i], rt[ids[i]], parse).error)
    ensures DecodeReminder(ids[i], rt[ids[i]], parse).Ok? ==>
      DecodeReminders(rt, ids[..i+1], parse) == Ok(rs + [DecodeReminder(ids[i], rt[ids[i]], parse).value])
  {
    assert ids[i] in ids;
    assert ids[..i+1][..i] == ids[..i];
    if DecodeReminder(ids[i], rt[ids[i]], parse).Err? {
      ReminderErrorStays(rt, ids, i + 1, parse);
    }
  }

  /** `get_active_reminders` */
  method GetActiveReminders(db: NativeDatabase.Manager, parse: Parser) returns (r: Result<seq<Reminder>>)
    ensures db.database.None? ==> r == Err(NoConnection)
    ensures db.database.Some? ==>
      r == DecodeReminders(db.database.value.reminders, ActiveReminderIds(db.database.value.reminders), parse)
    ensures r.Ok? ==> forall q :: 0 <= q < |r.value| ==> r.value[q].isActive
  {
    var conn := db.GetConnection();
    if conn.None? {
      return Err(NoConnection);
    }
    var rt := conn.value.reminders;
    var ids := ActiveReminderIds(rt);
    r := CollectReminders(rt, ids, parse);
  }

  /** `get_reminders_for_medication` */
  method GetRemindersForMedication(db: NativeDatabase.Manager, m: int, parse: Parser) returns (r: Result<seq<Reminder>>)
    ensures db.database.None? ==> r == Err(NoConnection)
    ensures db.database.Some? ==>
      r == DecodeReminders(db.database.value.reminders, ReminderIdsFor(db.database.value.reminders, m), parse)
    ensures r.Ok? ==> forall q :: 0 <= q < |r.value| ==> r.value[q].medicationId == m
  {
    var conn := db.GetConnection();
    if conn.None? {
      return Err(NoConnection);
    }
    var rt := conn.value.reminders;
    var ids := ReminderIdsFor(rt, m);
    r := CollectReminders(rt, ids, parse);
  }

  /** `update_reminder`: a record without id updates id 0; reports whether
      a live row was rewritten. */
  method UpdateReminder(db: NativeDatabase.Manager, reminder: Reminder, now: string) returns (r: Result<bool>)
    modifies db.Open()
    ensures db.database.None? ==> r == Err(NoConnection)
    ensures db.database.Some? ==>
      var c := db.database.value;
      var id := reminder.id.GetOr(0);
      && r == Ok(id in old(c.reminders) && old(c.reminders)[id].Live())
      && c.reminders == RewriteReminder(old(c.reminders), id, reminder.time, reminder.days,
                                        BoolColumn(reminder.isActive), now)
      && c.medications == old(c.medications)
      && c.medicationSeq == old(c.medicationSeq) && c.reminderSeq == old(c.reminderSeq)
  {
    var conn := db.GetConnection();
    if conn.None? {
      return Err(NoConnection);
    }
    var rowsAffected := conn.value.RewriteReminderRow(reminder.id.GetOr(0), reminder.time, reminder.days,
                                                      BoolColumn(reminder.isActive), now);
    r := Ok(rowsAffected > 0);
  }

  /** `delete_reminder`: stamps the reminder only while it is live. */
  method DeleteReminder(db: NativeDatabase.Manager, id: int, now: string) returns (r: Result<bool>)
    modifies db.Open()
    ensures db.database.None? ==> r == Err(NoConnection)
    ensures db.database.Some? ==>
      var c := db.database.value;
      && r == Ok(id in old(c.reminders) && old(c.reminders)[id].Live())
      && c.reminders == StampReminder(old(c.reminders), id, now, true)
      && c.medications == old(c.medications)
      && c.medicationSeq == old(c.medicationSeq) && c.reminderSeq == old(c.reminderSeq)
  {
    var conn := db.GetConnection();
    if conn.None? {
      return Err(NoConnection);
    }
    var rowsAffected := conn.value.StampReminderRow(id, now, true);
    r := Ok(rowsAffected > 0);
  }
}
