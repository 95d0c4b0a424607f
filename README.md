# libpillmom storage core in Dafny

libpillmom is the storage library behind a medication-reminder app. It keeps
two SQLite/libsql tables, `medications` and `reminders`. Rows are soft-deleted:
a delete stamps `deleted_at` instead of removing the row. A process-wide
connection manager hands the repository its connection. The library ships two
Rust crates that do this differently, and this project models both side by
side without reconciling them:

- **`rust/`** is the SeaORM/libsql crate. Its init functions claim a
  write-once `DB_TYPE` cell before they connect. Deleting a medication
  cascades to its reminders. Updates and deletes always report `true`.
- **`native/`** is the libsql-only crate. It has two write-once cells.
  Deletes are guarded by `deleted_at IS NULL` and do not cascade. Updates
  and deletes report whether a row was affected. Reading a row can fail on
  a NULL column or an unparsable timestamp.

The project also models the pure helpers of the Go GORM dialector for libsql
(`native/database/libsql_dialector.go`).

Layout:

- `common.dfy`: `Option`, `Result` and the error outcomes, plus strictly
  increasing id sequences, which are the order a table scan delivers rows.
- `libsql.dfy`: the rows, the two tables as maps from id to row, and the
  `AUTOINCREMENT` id rule. It has one function per `WHERE` clause the
  repositories query and one per `UPDATE … SET … WHERE` they issue. These
  run through a `Connection` class, one method per statement, so a statement
  changes the stored tables in place.
- `rust_models.dfy` and `native_models.dfy`: the `Medication`/`Reminder`
  records, their `Default` impls and the `#[serde(default)]` on `reminders`.
- `rust_database.dfy` and `native_database.dfy`: the connection managers, as
  a `Manager` class whose fields are the `OnceCell`s.
- `rust_repository.dfy` and `native_repository.dfy`: the repository
  operations, each taking the manager. The two association loops of
  `get_all_medications` are `while` loops proved against a reference
  `Listing` function.
- `libsql_dialector.dfy`: `DataTypeOf`, the quoting and placeholder writers
  on a `Writer` class, and the constant answers.
- `scenarios.dfy`: call sequences from a fresh process, with the outcome each
  step reports.

Inputs the code takes from its environment are parameters. The clock is
`now`. Whether a connection or a sync succeeds is a `bool`, or an
`Option<Connection>` holding the database the builder reached. The native
crate's timestamp parser is a function `string -> Option<DateTime>`.

Row order: every query returns rows in ascending id. The rust crate's
medication query has `ORDER BY id`; the native crate's queries use the plain
table scan, which for these rowid tables is id order. The rust crate's
reminder query orders by `medication_id`. That does not change which
medication a reminder joins. Within one medication, the model assumes ties
come back in id order.

## Model

| member | source | states |
|---|---|---|
| Libsql.NextId | packages/libpillmom/native/src/database.rs:18 | an `AUTOINCREMENT` id is at least 1, above the table's sequence counter, and above every id already present, so it never reuses a prior row's id |
| Libsql.LiveMedicationIds | packages/libpillmom/native/src/repository.rs:44-45 | the medication scan returns, in strictly increasing id order, exactly the rows whose `deleted_at` is NULL |
| Libsql.LiveReminderIds | packages/libpillmom/native/src/repository.rs:72-73 | the reminder scan returns, in increasing id order, exactly the live reminders |
| Libsql.ActiveReminderIds | packages/libpillmom/rust/src/repository.rs:279-280 | exactly the reminders stored with `is_active = 1` and NULL `deleted_at`, in id order |
| Libsql.ReminderIdsFor | packages/libpillmom/rust/src/repository.rs:249-250 | exactly the live reminders naming medication `m`, whatever their `is_active`, in id order |
| Libsql.LiveThenOwned | packages/libpillmom/rust/src/repository.rs:98-121 | picking the reminders of `m` out of all live reminders gives exactly the per-medication query |
| Libsql.RewriteMedication | packages/libpillmom/rust/src/repository.rs:135-136 | the update rewrites name, dosage, description and `updated_at` of the live row with that id only; `created_at`, `deleted_at`, every other row and the key set stay as they were |
| Libsql.StampMedication | packages/libpillmom/native/src/repository.rs:137 | sets `deleted_at` on the row with that id; with the liveness guard only if it is live; no other row or key changes |
| Libsql.StampRemindersOf | packages/libpillmom/rust/src/repository.rs:165 | stamps `deleted_at` on every reminder naming the medication, active or not, and on no other reminder |
| Libsql.RewriteReminder | packages/libpillmom/native/src/repository.rs:249-250 | rewrites time, days, `is_active` and `updated_at` of the live row with that id only; medication, `created_at` and `deleted_at` never change |
| Libsql.StampReminder | packages/libpillmom/native/src/repository.rs:271 | stamps the reminder with that id, guarded or not, and no other row |
| Libsql.Connection.InsertMedication | packages/libpillmom/rust/src/repository.rs:15-16 | adds one row at the next id with both timestamps given, leaves every other row and the reminders table alone |
| Libsql.Connection.InsertReminder | packages/libpillmom/rust/src/repository.rs:181-182 | adds one reminder row at the next id, leaves the rest alone |
| Libsql.Connection.RewriteMedicationRow | packages/libpillmom/native/src/repository.rs:115-116 | the table becomes the rewrite; rows affected is 1 exactly when a live row had that id |
| Libsql.Connection.StampMedicationRow | packages/libpillmom/native/src/repository.rs:137 | the table becomes the stamp; rows affected is 1 exactly when the row exists and, when guarded, is live |
| Libsql.Connection.StampRemindersOfRows | packages/libpillmom/rust/src/repository.rs:165 | the reminders table becomes the cascade; rows affected is the number of reminders naming the medication |
| Libsql.Connection.RewriteReminderRow | packages/libpillmom/native/src/repository.rs:249-250 | the reminders table becomes the rewrite; rows affected is 1 exactly when a live reminder had that id |
| Libsql.Connection.StampReminderRow | packages/libpillmom/native/src/repository.rs:271 | the reminders table becomes the stamp; rows affected is 1 exactly when the guarded row was live or the unguarded row exists |
| Libsql.StampedMedicationHidden | packages/libpillmom/native/src/repository.rs:137 | after a soft delete the medication is missing from every later medication query and the others are unaffected |
| Libsql.CascadeHidesReminders | packages/libpillmom/rust/src/repository.rs:158-168 | after the cascade no reminder of the deleted medication is returned by the per-medication query or the active query |
| Libsql.CascadeSparesOthers | packages/libpillmom/rust/src/repository.rs:165 | the cascade leaves the per-medication query of every other medication unchanged |
| Libsql.GuardedStampOnce | packages/libpillmom/native/src/repository.rs:137 | after a guarded delete the row is not live, and a second guarded delete matches nothing and changes nothing |
| Libsql.UnguardedStampRestamps | packages/libpillmom/rust/src/repository.rs:158 | the unguarded delete of an already deleted medication overwrites its `deleted_at`, and changes the table exactly when the time differs |
| Libsql.RewriteKeepsLiveness | packages/libpillmom/rust/src/repository.rs:135-136 | an update never revives or hides a medication |
| RustModels.DefaultMedication | packages/libpillmom/rust/src/models.rs:29-43 | no id, empty name, dosage and description, no deletion time, no reminders, and `created_at == updated_at == now` from one clock read |
| RustModels.DefaultReminder | packages/libpillmom/rust/src/models.rs:45-59 | no id, medication 0, empty time and days, active, no deletion time, `created_at == updated_at == now` |
| RustModels.Deserialize | packages/libpillmom/rust/src/models.rs:13-14 | a record without `reminders` reads as an empty list; every other field is copied |
| RustModels.Serialize | packages/libpillmom/rust/src/models.rs:4-15 | the derived serializer always writes `reminders`, so a serialized record never takes the `#[serde(default)]` path; that every other field survives is the RoundTrip row |
| RustModels.RoundTrip | packages/libpillmom/rust/src/models.rs:5-15 | deserializing a serialized medication gives it back |
| RustModels.MissingRemindersAreEmpty | packages/libpillmom/rust/src/models.rs:13-14 | a missing `reminders` field reads the same as an empty one, and re-serializes as the empty list |
| RustModels.DefaultFromRecord | packages/libpillmom/rust/src/models.rs:29-43 | the default medication, written without its `reminders`, reads back as the default |
| NativeModels.DefaultMedication | packages/libpillmom/native/src/models.rs:29-42 | no id, empty strings, no deletion time, no reminders, `created_at` from the first clock read and `updated_at` from the second |
| NativeModels.DefaultReminder | packages/libpillmom/native/src/models.rs:44-57 | no id, medication 0, empty time and days, active, no deletion time, the two times from two clock reads |
| NativeModels.DefaultTimesAgreeOnlyOnEqualReadings | packages/libpillmom/native/src/models.rs:36-37 | both defaults have equal creation and update times if and only if the two clock readings are equal |
| NativeModels.DefaultTimesMayDiffer | packages/libpillmom/native/src/models.rs:36-37 | some pair of readings gives a default whose two times differ, so equality is not promised |
| NativeModels.Deserialize | packages/libpillmom/native/src/models.rs:13-14 | a record without `reminders` reads as an empty list; every other field is copied |
| NativeModels.Serialize | packages/libpillmom/native/src/models.rs:4-15 | the derived serializer always writes `reminders`, so a serialized record never takes the `#[serde(default)]` path; that every other field survives is the RoundTrip row |
| NativeModels.RoundTrip | packages/libpillmom/native/src/models.rs:5-15 | deserializing a serialized medication gives it back |
| NativeModels.MissingRemindersAreEmpty | packages/libpillmom/native/src/models.rs:13-14 | a missing `reminders` field reads the same as an empty one |
| RustDatabase.Manager.constructor | packages/libpillmom/rust/src/database.rs:9-22 | all four cells start empty, which satisfies the cell invariant |
| RustDatabase.Manager.InitInMemory | packages/libpillmom/rust/src/database.rs:27-50 | a set `DB_TYPE` fails with "Failed to set database type" and changes nothing; otherwise the type becomes InMemory before connecting, a failed connect keeps it, only `SEA_DB` can be set, `DATABASE` never; the cell invariant is kept |
| RustDatabase.Manager.InitLocalDb | packages/libpillmom/rust/src/database.rs:53-77 | as the in-memory init with type Local and the pool URL `sqlite://{path}?mode=rwc` |
| RustDatabase.Manager.InitRemoteDb | packages/libpillmom/rust/src/database.rs:80-102 | a set `DB_TYPE` fails and changes nothing; otherwise the type becomes Remote first, a failed connect keeps it, a set `DATABASE` fails before anything is stored, a set `DB_HANDLE` fails after the connection was stored, and success stores both |
| RustDatabase.Manager.InitEmbeddedReplica | packages/libpillmom/rust/src/database.rs:106-134 | as the remote init with type EmbeddedReplica; path and sync period are ignored, and a remote handle is stored |
| RustDatabase.Manager.InitTursoDb | packages/libpillmom/rust/src/database.rs:138-140 | the same outcome and cells as the remote init |
| RustDatabase.Manager.SyncDatabase | packages/libpillmom/rust/src/database.rs:218-237 | "Database not initialized" exactly when no type is set; `Ok(0)` for Remote, InMemory and Local; for EmbeddedReplica, `Ok(0)` with a handle and a successful round trip, "No active database connection" exactly without a handle, and the sync error exactly when the round trip fails |
| RustDatabase.Manager.GetConnection | packages/libpillmom/rust/src/database.rs:246-248 | a connection is returned exactly when `DATABASE` holds one; it is the only object repository writes may touch; under the cell invariant it is present exactly when a handle is stored, and only with a remote type |
| RustDatabase.Manager.IsRemote | packages/libpillmom/rust/src/database.rs:254-259 | true if and only if the type is Remote or EmbeddedReplica; when false there is no connection |
| RustDatabase.Manager.IsTurso | packages/libpillmom/rust/src/database.rs:262-264 | equals `is_remote` |
| RustDatabase.CloseDatabase | packages/libpillmom/rust/src/database.rs:239-242 | always succeeds; it is a function of nothing, so it changes no cell |
| NativeDatabase.Manager.constructor | packages/libpillmom/native/src/database.rs:7-8 | both cells start empty |
| NativeDatabase.Manager.InitTursoDb | packages/libpillmom/native/src/database.rs:10-59 | a failed connect changes nothing; a set `DATABASE` fails with the original connection kept; a set `DB_HANDLE` fails after storing the connection; otherwise both cells are set; the invariant that both cells are set together is kept |
| NativeDatabase.Manager.InitLocalDb | packages/libpillmom/native/src/database.rs:61-109 | the same cell outcomes with a local handle |
| NativeDatabase.Manager.SyncDatabase | packages/libpillmom/native/src/database.rs:111-120 | `Ok(0)` if and only if a handle is stored and the sync succeeds; "No active database connection" exactly without a handle |
| NativeDatabase.Manager.GetConnection | packages/libpillmom/native/src/database.rs:122-124 | returns the stored connection, present exactly when a handle is stored under the invariant |
| NativeDatabase.CloseDatabase | packages/libpillmom/native/src/database.rs:126-130 | always succeeds and clears no cell |
| RustRepository.DecodeMedication | packages/libpillmom/rust/src/repository.rs:52-61 | the record carries the row's id and texts, each timestamp is the column's text or the empty string when NULL, and the reminders list is empty |
| RustRepository.DecodeReminder | packages/libpillmom/rust/src/repository.rs:107-116 | a NULL `is_active` reads as true and any other value as `v != 0`; each timestamp is the column's text or the empty string when NULL |
| RustRepository.ListingContents | packages/libpillmom/rust/src/repository.rs:67-125 | the listing holds exactly the live medications in increasing id order, and each carries only live reminders that name it |
| RustRepository.ListingDropsOrphans | packages/libpillmom/rust/src/repository.rs:118-121 | a live reminder whose medication is deleted or missing appears in no entry |
| RustRepository.ListingKeepsOwned | packages/libpillmom/rust/src/repository.rs:118-121 | a live reminder of a live medication appears, decoded, in the listing |
| RustRepository.Find | packages/libpillmom/rust/src/repository.rs:119 | returns the first position holding that id, or none when no entry holds it |
| RustRepository.CreateMedication | packages/libpillmom/rust/src/repository.rs:7-36 | without a connection, "No database connection"; otherwise a new row at a fresh id with name, dosage, description and both timestamps equal to `now`, nothing else changed, and that id returned |
| RustRepository.GetMedication | packages/libpillmom/rust/src/repository.rs:38-65 | `Some` exactly when a live row has that id, decoded with an empty reminders list |
| RustRepository.GetAllMedications | packages/libpillmom/rust/src/repository.rs:67-125 | returns the reference `Listing` of the stored tables |
| RustRepository.CollectMedications | packages/libpillmom/rust/src/repository.rs:82-93 | the first loop yields the decoded live medications in scan order, with empty reminder lists |
| RustRepository.AttachReminders | packages/libpillmom/rust/src/repository.rs:105-122 | the association loop, pushing each reminder into the first medication with its id and skipping orphans, produces exactly `Listing` |
| RustRepository.UpdateMedication | packages/libpillmom/rust/src/repository.rs:127-148 | a record without id fails with "Medication ID is required for update" before the connection is read; otherwise the medications table becomes the rewrite and the result is `true` even when no row matched |
| RustRepository.DeleteMedication | packages/libpillmom/rust/src/repository.rs:150-171 | stamps the medication without a liveness guard and every reminder naming it, then reports `true` |
| RustRepository.CreateReminder | packages/libpillmom/rust/src/repository.rs:173-203 | a new reminder row at a fresh id, `is_active` stored as 1 or 0, both timestamps `now` |
| RustRepository.UpdateReminder | packages/libpillmom/rust/src/repository.rs:205-226 | a record without id fails with "Reminder ID is required for update"; otherwise the live row is rewritten and the result is `true` |
| RustRepository.DeleteReminder | packages/libpillmom/rust/src/repository.rs:228-241 | stamps that reminder only, unguarded, and reports `true` |
| RustRepository.CollectReminders | packages/libpillmom/rust/src/repository.rs:256-268 | decodes the given rows in order |
| RustRepository.GetRemindersForMedication | packages/libpillmom/rust/src/repository.rs:243-271 | the decoded live reminders naming `m`, each naming `m` and live |
| RustRepository.GetActiveReminders | packages/libpillmom/rust/src/repository.rs:273-301 | the decoded reminders with `is_active = 1` and live, each active |
| NativeRepository.ParseColumn | packages/libpillmom/native/src/repository.rs:58-59 | a NULL column is the NULL error, an unparsable text the parse error, and otherwise the parsed time |
| NativeRepository.ParseOptional | packages/libpillmom/native/src/repository.rs:60-62 | a NULL `deleted_at` reads as no time, and a set one as exactly what the parser gives, so unparsable text also reads as no time |
| NativeRepository.DecodeMedication | packages/libpillmom/native/src/repository.rs:53-64 | succeeds exactly when both timestamps are present and parse; a failing `created_at` decides the error, else a failing `updated_at` does; the record copies the row's texts and parsed times, with no reminders |
| NativeRepository.DecodeReminder | packages/libpillmom/native/src/repository.rs:80-91 | a NULL `is_active` is an error, else a failing `created_at`, else a failing `updated_at`; success exactly when all three read; active means `v != 0` |
| NativeRepository.DecodeMedications | packages/libpillmom/native/src/repository.rs:52-66 | succeeds exactly when every row decodes, and then holds each row's record in order |
| NativeRepository.DecodeReminders | packages/libpillmom/native/src/repository.rs:79-102 | succeeds exactly when every row decodes, and then holds each row's record in order |
| NativeRepository.MedicationErrorStays | packages/libpillmom/native/src/repository.rs:52-66 | once a prefix of the rows fails, the whole scan fails with that first error |
| NativeRepository.ReminderErrorStays | packages/libpillmom/native/src/repository.rs:79-102 | once a prefix of the reminder rows fails, the whole scan fails with that first error |
| NativeRepository.Owned | packages/libpillmom/native/src/repository.rs:94-101 | the decoded reminders that name `m`, in order, all naming `m` |
| NativeRepository.OwnedIsSelection | packages/libpillmom/native/src/repository.rs:94-101 | the reminders pushed onto medication `m` are, one for one, the decoded rows the per-medication filter selects |
| NativeRepository.ListingShortCircuits | packages/libpillmom/native/src/repository.rs:69 | with no live medications the listing is empty, whatever the reminder rows hold |
| NativeRepository.ListingContents | packages/libpillmom/native/src/repository.rs:37-106 | a successful listing holds the live medications in id order, and each carries exactly its live reminders, decoded, in id order |
| NativeRepository.CreateMedication | packages/libpillmom/native/src/repository.rs:7-35 | a new row at a fresh id with the texts and both timestamps `now`, nothing else changed |
| NativeRepository.GetAllMedications | packages/libpillmom/native/src/repository.rs:37-106 | returns the reference `Listing`: the first decode error, the empty list without reading reminders, or the associated list |
| NativeRepository.CollectMedications | packages/libpillmom/native/src/repository.rs:52-66 | the first loop stops at the first undecodable row and otherwise yields every decoded live medication |
| NativeRepository.AttachReminders | packages/libpillmom/native/src/repository.rs:79-102 | the second loop returns the first reminder decode error, or exactly the associated `Listing` |
| NativeRepository.PushToFirst | packages/libpillmom/native/src/repository.rs:94-101 | the reminder is pushed onto the first medication with its id and no other, or nothing changes when none has it |
| NativeRepository.UpdateMedication | packages/libpillmom/native/src/repository.rs:108-128 | a record without id targets id 0; the table becomes the rewrite, reminders untouched; the result is `true` if and only if a live row had that id |
| NativeRepository.DeleteMedication | packages/libpillmom/native/src/repository.rs:130-143 | stamps the medication only while live, touches no reminder, and reports `true` if and only if it was live |
| NativeRepository.CreateReminder | packages/libpillmom/native/src/repository.rs:145-174 | a new reminder row at a fresh id, both timestamps `now` |
| NativeRepository.CollectReminders | packages/libpillmom/native/src/repository.rs:189-204 | decodes the given rows in order, stopping at the first failure with its error |
| NativeRepository.GetActiveReminders | packages/libpillmom/native/src/repository.rs:176-207 | the decoded reminders with `is_active = 1` and live, each active |
| NativeRepository.GetRemindersForMedication | packages/libpillmom/native/src/repository.rs:209-240 | the decoded live reminders naming `m`, each naming `m` |
| NativeRepository.UpdateReminder | packages/libpillmom/native/src/repository.rs:242-262 | a record without id targets id 0; `true` if and only if a live reminder was rewritten |
| NativeRepository.DeleteReminder | packages/libpillmom/native/src/repository.rs:264-277 | stamps the reminder only while live and reports `true` if and only if it was live |
| LibsqlDialector.Name | packages/libpillmom/native/database/libsql_dialector.go:18-20 | always "sqlite" |
| LibsqlDialector.DataTypeOf | packages/libpillmom/native/database/libsql_dialector.go:36-53 | bool to numeric, int and uint to integer, float to real, string to text, time to datetime, bytes to blob, and any other data type unchanged |
| LibsqlDialector.DefaultValueOf | packages/libpillmom/native/database/libsql_dialector.go:55-57 | always the expression `NULL` |
| LibsqlDialector.Quoted | packages/libpillmom/native/database/libsql_dialector.go:63-67 | a backtick, the identifier unchanged, a backtick |
| LibsqlDialector.QuoteRoundTrip | packages/libpillmom/native/database/libsql_dialector.go:63-67 | an identifier without backticks reads back, under SQLite's backtick-identifier rule, from its quoted form |
| LibsqlDialector.QuoteUnescaped | packages/libpillmom/native/database/libsql_dialector.go:63-67 | an identifier holding a backtick is written unescaped and does not read back as one identifier |
| LibsqlDialector.Writer.WriteByte | packages/libpillmom/native/database/libsql_dialector.go:64 | appends exactly that character to the buffer |
| LibsqlDialector.Writer.WriteString | packages/libpillmom/native/database/libsql_dialector.go:65 | appends exactly that text to the buffer |
| LibsqlDialector.BindVarTo | packages/libpillmom/native/database/libsql_dialector.go:59-61 | appends exactly one `?`, whatever the value |
| LibsqlDialector.QuoteTo | packages/libpillmom/native/database/libsql_dialector.go:63-67 | appends exactly the quoted identifier |
| LibsqlDialector.AlterColumn | packages/libpillmom/native/database/libsql_dialector.go:120-124 | always reports no error |
| LibsqlDialector.CreateConstraint | packages/libpillmom/native/database/libsql_dialector.go:126-130 | always reports no error |
| LibsqlDialector.CurrentDatabase | packages/libpillmom/native/database/libsql_dialector.go:132-134 | always "main" |
| Scenarios.RustSecondInitRefused | packages/libpillmom/rust/src/database.rs:80-83 | after any in-memory init a remote init fails with "Failed to set database type", there is no connection, and the listing fails with "No database connection" |
| Scenarios.RustFailedConnectConsumesType | packages/libpillmom/rust/src/database.rs:80-88 | a remote init whose connect fails still claims the type: a retry fails, `is_remote` holds and there is never a connection |
| Scenarios.RustInMemoryHasNoConnection | packages/libpillmom/rust/src/database.rs:27-50 | after an in-memory init, sync reports `Ok(0)`, `is_remote` is false and repository calls fail with "No database connection" |
| Scenarios.RustDeleteCascades | packages/libpillmom/rust/src/repository.rs:150-171 | after creating a medication with a reminder and deleting the medication, the per-medication query, the active query and the listing are all empty |
| Scenarios.RustCreateThenGet | packages/libpillmom/rust/src/repository.rs:7-65 | a created medication reads back with its name, dosage and description, both timestamps `now`, no deletion time and no reminders |
| Scenarios.RustDeleteTwice | packages/libpillmom/rust/src/repository.rs:150-171 | deleting the same medication twice reports `true` both times |
| Scenarios.NativeDeleteTwice | packages/libpillmom/native/src/repository.rs:130-143 | deleting the same medication twice reports `true`, then `false` |
| Scenarios.NativeSecondInitKeepsFirst | packages/libpillmom/native/src/database.rs:50-52 | a second init fails with "Failed to set database connection", the first connection stays stored, and sync succeeds |
| Scenarios.NativeUpdateWithoutId | packages/libpillmom/native/src/repository.rs:108-128 | updating a record without id after a create reports `false`, since no insert assigns id 0 |

## Left out

- Statement failures from the SQL engine are left out. This covers a failing `prepare`, `query` or `execute`, and a row read of the wrong type. Each of these would only add an `Err` path to every operation.
- The "Failed to create medication" / "Failed to create reminder" branch is left out. An `INSERT … RETURNING id` always yields its row, so the branch cannot be reached.
- NULL `name`, `dosage`, `description`, `time` or `days` columns are not modelled. Rows written by other programs could hold them; the modelled inserts never write them.
- The clock, timestamp formatting and chrono parsing are left out: `now` and the parser are inputs. What rfc3339 text the native crate writes, and whether its parser accepts that text, is not modelled.
- Building a libsql database, connecting to it, creating the tables and the replica sync round trip are left out. Each becomes an input saying whether it succeeds.
- Async execution, the `Mutex` around the connection and `OnceCell` thread safety are left out. Every operation is a sequential step.
- 64-bit integer ids are modelled as unbounded integers: ids never wrap around.
- SeaORM's pool, the DDL and the SQL engine's internals are left out. The only `AUTOINCREMENT` behaviour kept is the id rule.
- The FFI layer, `rust/src/api.rs`, the Go GORM repositories and connections, and the migrator's `Has*` queries against `sqlite_master` are not part of this model. `open_embedded_replica` in `api.rs` calls `init_remote_db`, so that path records the type Remote.
- RustDatabase.Manager.InitEmbeddedReplica does not model the replica's local file or its sync period, because the source never uses them.
- RustRepository.GetAllMedications does not model the order of a medication's reminders when they tie on `medication_id`; the model takes id order.
- NativeRepository.GetAllMedications does not model an unordered scan: the model takes the table scan to return rows in id order.
