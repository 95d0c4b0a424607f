/**
 * The connection manager of the libsql-only crate: two write-once cells,
 * `DATABASE` and `DB_HANDLE`. Each init connects and creates the tables
 * first and only then tries to store its connection, so a second init
 * reaches the database before it is refused.
 */
module NativeDatabase {
  import opened Common
  import opened Libsql

  class Manager {
    var database: Option<Connection>   // DATABASE
    var handle: Option<Handle>         // DB_HANDLE

    constructor ()
      ensures database.None? && handle.None?
      ensures Valid()
    {
      database, handle := None, None;
    }

    /** The inits store the connection and its handle together. */
    predicate Valid()
      reads this
    {
      database.Some? <==> handle.Some?
    }

    /** The objects a repository statement may change. */
    function Open(): set<object>
      reads this
    {
      if database.Some? then {database.value} else {}
    }

    /** `init_turso_db`; `backend` is the remote database reached with its
        tables created, or `None` when building, connecting or creating
        the tables fails. */
    method InitTursoDb(url: string, authToken: string, backend: Option<Connection>) returns (r: Result<()>)
      modifies this
      ensures Stored(old(database), old(handle), RemoteDatabase(url, authToken), backend, r)
      ensures old(Valid()) ==> Valid()
    {
      r := Store(RemoteDatabase(url, authToken), backend);
    }

    /** `init_local_db` */
    method InitLocalDb(path: string, backend: Option<Connection>) returns (r: Result<()>)
      modifies this
      ensures Stored(old(database), old(handle), LocalDatabase(path), backend, r)
      ensures old(Valid()) ==> Valid()
    {
      r := Store(LocalDatabase(path), backend);
    }

    /** The cells and the outcome after an init, given their contents before it. */
    predicate Stored(database0: Option<Connection>, handle0: Option<Handle>, h: Handle,
                     backend: Option<Connection>, r: Result<()>)
      reads this
    {
      match backend
      case None => r == Err(ConnectFailed) && database == database0 && handle == handle0
      case Some(c) =>
        if database0.Some? then r == Err(SetConnectionFailed) && database == database0 && handle == handle0
        else if handle0.Some? then r == Err(SetHandleFailed) && database == Some(c) && handle == handle0
        else r == Ok(()) && database == Some(c) && handle == Some(h)
    }

    /** The steps both inits share once connected: store the connection,
        then the handle. */
    method Store(h: Handle, backend: Option<Connection>) returns (r: Result<()>)
      modifies this
      ensures Stored(old(database), old(handle), h, backend, r)
      ensures old(Valid()) ==> Valid()
    {
      if backend.None? {
        return Err(ConnectFailed);
      }
      if database.Some? {
        return Err(SetConnectionFailed);
      }
      database := backend;
      if handle.Some? {
        return Err(SetHandleFailed);
      }
      handle := Some(h);
      r := Ok(());
    }

    /** `sync_database`; `syncSucceeds` is the outcome of the round trip. */
    function SyncDatabase(syncSucceeds: bool): (r: Result<int>)
      reads this
      ensures r.Ok? <==> handle.Some? && syncSucceeds
      ensures r.Ok? ==> r.value == 0
      ensures r == Err(NoActiveConnection) <==> handle.None?
    {
      if handle.None? then Err(NoActiveConnection)
      else if syncSucceeds then Ok(0)
      else Err(SyncFailed)
    }

    /** `get_connection` */
    function GetConnection(): (c: Option<Connection>)
      reads this
      ensures c.Some? ==> Open() == {c.value}
      ensures Valid() ==> (c.Some? <==> handle.Some?)
    {
      database
    }
  }

  /** `close_database`: neither cell is cleared; the outcome is always success. */
  function CloseDatabase(): (r: Result<()>)
    ensures r.Ok?
  {
    Ok(())
  }
}
