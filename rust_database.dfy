/**
 * The connection manager of the SeaORM/libsql crate: four write-once
 * cells. `DB_TYPE` is claimed before any connection is attempted, so it
 * alone decides which init wins; `DATABASE` and `DB_HANDLE` receive the
 * libsql connection of a remote init, and `SEA_DB` receives the SeaORM
 * pool of an in-memory or local init.
 */
module RustDatabase {
  import opened Common
  import opened Libsql

  datatype DbType = InMemory | Local | Remote | EmbeddedReplica

  /** A SeaORM pool, identified by the URL it was opened with. */
  datatype SeaConnection = SeaConnection(url: string)

  const MemoryUrl: string := "sqlite::memory:"

  /** `sqlite://{path}?mode=rwc` */
  function LocalUrl(path: string): string {
    "sqlite://" + path + "?mode=rwc"
  }

  class Manager {
    var dbType: Option<DbType>          // DB_TYPE
    var database: Option<Connection>    // DATABASE
    var handle: Option<Handle>          // DB_HANDLE
    var seaDb: Option<SeaConnection>    // SEA_DB

    /** The cells as the process starts: all empty. */
    constructor ()
      ensures dbType.None? && database.None? && handle.None? && seaDb.None?
      ensures Valid()
    {
      dbType, database, handle, seaDb := None, None, None, None;
    }

    /** What the inits keep true of the cells: a libsql connection and its
        handle come together, only from a remote type, and a SeaORM pool
        only from an in-memory or local type. */
    predicate Valid()
      reads this
    {
      && (database.Some? <==> handle.Some?)
      && (database.Some? ==> dbType == Some(Remote) || dbType == Some(EmbeddedReplica))
      && (seaDb.Some? ==> dbType == Some(InMemory) || dbType == Some(Local))
    }

    /** The objects a repository statement may change: the stored connection. */
    function Open(): set<object>
      reads this
    {
      if database.Some? then {database.value} else {}
    }

    /** `init_in_memory`; `connects` is whether opening the pool and
        creating the tables succeeds. */
    method InitInMemory(connects: bool) returns (r: Result<()>)
      modifies this
      ensures old(dbType).Some? ==> r == Err(SetTypeFailed) && unchanged(this)
      ensures old(dbType).None? ==>
        && dbType == Some(InMemory) && database == old(database) && handle == old(handle)
        && (if !connects then r == Err(ConnectFailed) && seaDb == old(seaDb)
            else if old(seaDb).Some? then r == Err(SetSeaFailed) && seaDb == old(seaDb)
            else r == Ok(()) && seaDb == Some(SeaConnection(MemoryUrl)))
      ensures old(Valid()) ==> Valid()
    {
      r := OpenPool(InMemory, MemoryUrl, connects);
    }

    /** `init_local_db` */
    method InitLocalDb(path: string, connects: bool) returns (r: Result<()>)
      modifies this
      ensures old(dbType).Some? ==> r == Err(SetTypeFailed) && unchanged(this)
      ensures old(dbType).None? ==>
        && dbType == Some(Local) && database == old(database) && handle == old(handle)
        && (if !connects then r == Err(ConnectFailed) && seaDb == old(seaDb)
            else if old(seaDb).Some? then r == Err(SetSeaFailed) && seaDb == old(seaDb)
            else r == Ok(()) && seaDb == Some(SeaConnection(LocalUrl(path))))
      ensures old(Valid()) ==> Valid()
    {
      r := OpenPool(Local, LocalUrl(path), connects);
    }

    /** The steps both SeaORM inits share: claim the type, connect, store the pool. */
    method OpenPool(kind: DbType, url: string, connects: bool) returns (r: Result<()>)
      requires kind == InMemory || kind == Local
      modifies this
      ensures old(dbType).Some? ==> r == Err(SetTypeFailed) && unchanged(this)
      ensures old(dbType).None? ==>
        && dbType == Some(kind) && database == old(database) && handle == old(handle)
        && (if !connects then r == Err(ConnectFailed) && seaDb == old(seaDb)
            else if old(seaDb).Some? then r == Err(SetSeaFailed) && seaDb == old(seaDb)
            else r == Ok(()) && seaDb == Some(SeaConnection(url)))
      ensures old(Valid()) ==> Valid()
    {
      if dbType.Some? {
        return Err(SetTypeFailed);
      }
      dbType := Some(kind);
      if !connects {
        return Err(ConnectFailed);
      }
      if seaDb.Some? {
        return Err(SetSeaFailed);
      }
      seaDb := Some(SeaConnection(url));
      r := Ok(());
    }

    /** `init_remote_db`; `backend` is the database the builder reaches,
        with its tables created, or `None` when building, connecting or
        creating the tables fails. */
    method InitRemoteDb(url: string, authToken: string, backend: Option<Connection>) returns (r: Result<()>)
      modifies this
      ensures old(dbType).Some? ==> r == Err(SetTypeFailed) && unchanged(this)
      ensures old(dbType).None? ==> dbType == Some(Remote) && seaDb == old(seaDb)
      ensures old(dbType).None? ==> StoredRemote(old(database), old(handle), url, authToken, backend, r)
      ensures old(Valid()) ==> Valid()
    {
      r := OpenRemote(Remote, url, authToken, backend);
    }

    /** `init_embedded_replica`: the local path and the sync period are
        ignored and a remote connection is opened in place of a replica. */
    method InitEmbeddedReplica(path: string, url: string, authToken: string, syncPeriod: Option<nat>,
                               backend: Option<Connection>) returns (r: Result<()>)
      modifies this
      ensures old(dbType).Some? ==> r == Err(SetTypeFailed) && unchanged(this)
      ensures old(dbType).None? ==> dbType == Some(EmbeddedReplica) && seaDb == old(seaDb)
      ensures old(dbType).None? ==> StoredRemote(old(database), old(handle), url, authToken, backend, r)
      ensures old(Valid()) ==> Valid()
    {
      r := OpenRemote(EmbeddedReplica, url, authToken, backend);
    }

    /** `init_turso_db`, kept for the old API: exactly `init_remote_db`. */
    method InitTursoDb(url: string, authToken: string, backend: Option<Connection>) returns (r: Result<()>)
      modifies this
      ensures old(dbType).Some? ==> r == Err(SetTypeFailed) && unchanged(this)
      ensures old(dbType).None? ==> dbType == Some(Remote) && seaDb == old(seaDb)
      ensures old(dbType).None? ==> StoredRemote(old(database), old(handle), url, authToken, backend, r)
      ensures old(Valid()) ==> Valid()
    {
      r := InitRemoteDb(url, authToken, backend);
    }

    /** The cells `DATABASE` and `DB_HANDLE` and the outcome after a remote
        init that claimed the type, given their contents before it. */
    predicate StoredRemote(database0: Option<Connection>, handle0: Option<Handle>, url: string,
                           authToken: string, backend: Option<Connection>, r: Result<()>)
      reads this
    {
      match backend
      case None => r == Err(ConnectFailed) && database == database0 && handle == handle0
      case Some(c) =>
        if database0.Some? then r == Err(SetConnectionFailed) && database == database0 && handle == handle0
        else if handle0.Some? then r == Err(SetHandleFailed) && database == Some(c) && handle == handle0
        else r == Ok(()) && database == Some(c) && handle == Some(RemoteDatabase(url, authToken))
    }

    /** The steps the remote inits share: claim the type, connect, store
        the connection, then the handle. */
    method OpenRemote(kind: DbType, url: string, authToken: string, backend: Option<Connection>)
      returns (r: Result<()>)
      requires kind == Remote || kind == EmbeddedReplica
      modifies this
      ensures old(dbType).Some? ==> r == Err(SetTypeFailed) && unchanged(this)
      ensures old(dbType).None? ==> dbType == Some(kind) && seaDb == old(seaDb)
      ensures old(dbType).None? ==> StoredRemote(old(database), old(handle), url, authToken, backend, r)
      ensures old(Valid()) ==> Valid()
    {
      if dbType.Some? {
        return Err(SetTypeFailed);
      }
      dbType := Some(kind);
      if backend.None? {
        return Err(ConnectFailed);
      }
      if database.Some? {
        return Err(SetConnectionFailed);
      }
      database := backend;
      if handle.Some? {
        return Err(SetHandleFailed);
      }
      handle := Some(RemoteDatabase(url, authToken));
      r := Ok(());
    }

    /** `sync_database`; `syncSucceeds` is the outcome of the replica round trip. */
    function SyncDatabase(syncSucceeds: bool): (r: Result<int>)
      reads this
      ensures r.Ok? ==> r.value == 0
      ensures r == Err(NotInitialized) <==> dbType.None?
      ensures dbType == Some(Remote) || dbType == Some(InMemory) || dbType == Some(Local) ==> r == Ok(0)
      ensures r == Err(NoActiveConnection) <==> dbType == Some(EmbeddedReplica) && handle.None?
      ensures r == Err(SyncFailed) <==> dbType == Some(EmbeddedReplica) && handle.Some? && !syncSucceeds
      ensures dbType == Some(EmbeddedReplica) && handle.Some? && syncSucceeds ==> r == Ok(0)
    {
      match dbType
      case None => Err(NotInitialized)
      case Some(EmbeddedReplica) =>
        if handle.None? then Err(NoActiveConnection)
        else if syncSucceeds then Ok(0)
        else Err(SyncFailed)
      case Some(_) => Ok(0)
    }

    /** `get_connection`: the stored libsql connection, which only a remote
        init provides. */
    function GetConnection(): (c: Option<Connection>)
      reads this
      ensures c.Some? <==> database.Some?
      ensures c.Some? ==> Open() == {c.value}
      ensures Valid() ==> (c.Some? <==> handle.Some?)
      ensures Valid() && c.Some? ==> IsRemote()
    {
      database
    }

    /** `is_remote` */
    function IsRemote(): (b: bool)
      reads this
      ensures b <==> dbType.Some? && (dbType.value.Remote? || dbType.value.EmbeddedReplica?)
      ensures Valid() && !b ==> database.None?
    {
      dbType == Some(Remote) || dbType == Some(EmbeddedReplica)
    }

    /** `is_turso`, kept for the old API. */
    function IsTurso(): (b: bool)
      reads this
      ensures b == IsRemote()
    {
      IsRemote()
    }
  }

  /** `close_database`: connections close when dropped, so it reports
      success and touches no cell. */
  function CloseDatabase(): (r: Result<()>)
    ensures r.Ok?
  {
    Ok(())
  }
}
