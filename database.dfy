/**
 * The connection registry of src/database.py: a process-wide dictionary from
 * a caller-chosen key to a DBConnection, with Connect, Disconnect, the
 * lookups used by Query and Update, ListConnections and CreateDatabase.
 */
module Database {
  import opened Types
  import opened Dispatch
  import opened KeyOrder

  /** One stored connection: its key, its engine and the path it was opened on. */
  datatype DBConnection = DBConnection(key: string, engine: Engine, path: string)

  /** One entry of ListConnections' result. */
  datatype KeyPath = KeyPath(key: string, path: string)

  /** Connect's confirmation line. */
  function SuccessMessage(key: string): string {
    "Successfully connected to the database with key '" + key + "'."
  }

  /** Disconnect's confirmation line. */
  function DisconnectMessage(key: string): string {
    "Disconnected from the database with key '" + key + "'."
  }

  /**
   * What Connect returns once the entry is stored: the confirmation, with
   * the notes or the notes reader's own error appended when notes were
   * asked for. Any other exception of the notes reader reaches Connect's
   * outer handler and is reported as a connection error, although the
   * entry stays stored.
   */
  function ConnectReply(key: string, readNotes: bool, notes: NotesOutcome): (r: Result<string>)
    ensures r.Ok? <==> !(readNotes && notes.NotesException?)
    ensures r.Ok? ==> SuccessMessage(key) <= r.value
    ensures r.Ok? && !readNotes ==> r.value == SuccessMessage(key)
    ensures r.Ok? && readNotes ==> |r.value| > |SuccessMessage(key)|
    ensures readNotes && notes.NotesText? ==>
      r.Ok? && EndsWith(r.value, notes.text)
    ensures readNotes && notes.NotesError? ==>
      r.Ok? && EndsWith(r.value, notes.reason)
    ensures r.Err? ==> r.error == ConnectionFailed(notes.reason)
  {
    if !readNotes then Ok(SuccessMessage(key))
    else match notes
      case NotesText(text) => Ok(SuccessMessage(key) + "\nNotes: " + text)
      case NotesError(reason) => Ok(SuccessMessage(key) + "\nError reading notes: " + reason)
      case NotesException(reason) => Err(ConnectionFailed(reason))
  }

  /**
   * CreateDatabase: refuse an existing target; otherwise, inside one
   * handler that re-wraps every failure as CreateFailed, create an empty
   * SQLite file, copy the empty Access template (for both Access
   * suffixes), or reject the extension. The file-system effects are the
   * parameters: whether the target and the template exist, and the outcome
   * of sqlite3.connect and of the copy.
   */
  function CreateDatabase(targetPath: string, targetExists: bool, templateExists: bool,
                          sqliteConnect: Outcome, templateCopy: Outcome): (r: Result<string>)
    ensures targetExists ==> r == Err(TargetExists(targetPath))
    ensures !targetExists && r.Err? ==> r.error.CreateFailed?
    ensures !targetExists && CreateTarget(targetPath).None? ==>
      r == Err(CreateFailed(UnsupportedExtension(targetPath)))
    ensures r.Ok? <==>
      && !targetExists
      && match CreateTarget(targetPath)
         case Some(SqliteStore) => sqliteConnect.Pass?
         case Some(AccessTemplate) => templateExists && templateCopy.Pass?
         case None => false
  {
    if targetExists then Err(TargetExists(targetPath))
    else match CreateTarget(targetPath)
      case Some(SqliteStore) =>
        if sqliteConnect.Fail? then Err(CreateFailed(LibraryError(sqliteConnect.reason)))
        else Ok("SQLite database created at " + targetPath)
      case Some(AccessTemplate) =>
        if !templateExists then Err(CreateFailed(TemplateMissing))
        else if templateCopy.Fail? then Err(CreateFailed(LibraryError(templateCopy.reason)))
        else Ok("MS Access database created at " + targetPath)
      case None => Err(CreateFailed(UnsupportedExtension(targetPath)))
  }

  /**
   * The dictionary of live connections. `order` is the dictionary's key
   * order (insertion order), which ListConnections follows.
   */
  class Registry {
    var connections: map<string, DBConnection>
    var order: seq<string>

    /** Every key is listed once in order, and each entry records its own key. */
    ghost predicate Valid()
      reads this
    {
      && Distinct(order)
      && (forall k :: k in order <==> k in connections)
      && (forall k :: k in connections ==> connections[k].key == k)
      && (forall k :: k in connections ==>
            connections[k].engine.key == k && connections[k].engine.path == connections[k].path)
    }

    constructor ()
      ensures Valid() && connections == map[] && order == []
    {
      connections := map[];
      order := [];
    }

    /** The stored entry for `key`, or NotConnected. */
    function GetConnection(key: string): (r: Result<DBConnection>)
      reads this
      requires Valid()
      ensures r.Ok? <==> key in connections
      ensures r.Ok? ==> r.value == connections[key] && r.value.key == key
      ensures r.Err? ==> r.error == NotConnected(key)
    {
      if key in connections then Ok(connections[key]) else Err(NotConnected(key))
    }

    /** The engine of the entry for `key`, or NotConnected. */
    function GetEngine(key: string): (r: Result<Engine>)
      reads this
      requires Valid()
      ensures r.Ok? <==> key in connections
      ensures r.Ok? ==> r.value == connections[key].engine
      ensures r.Ok? ==> r.value.key == key && r.value.path == connections[key].path
      ensures r.Err? ==> r.error == NotConnected(key)
    {
      match GetConnection(key)
      case Ok(conn) => Ok(conn.engine)
      case Err(e) => Err(e)
    }

    /** Key and path of the entries for `keys`, in that order. */
    function Listing(keys: seq<string>): (rows: seq<KeyPath>)
      reads this
      requires forall k :: k in keys ==> k in connections
      ensures |rows| == |keys|
      ensures forall i :: 0 <= i < |keys| ==>
        rows[i] == KeyPath(connections[keys[i]].key, connections[keys[i]].path)
    {
      if keys == [] then []
      else [KeyPath(connections[keys[0]].key, connections[keys[0]].path)] + Listing(keys[1..])
    }

    /** A snapshot with one {key, path} per entry, in the dictionary's order. */
    function ListConnections(): (rows: seq<KeyPath>)
      reads this
      requires Valid()
      ensures |rows| == |connections|
      ensures |rows| == |order| && forall i :: 0 <= i < |rows| ==> rows[i].key == order[i]
      ensures forall i :: 0 <= i < |rows| ==>
        rows[i].key in connections && rows[i].path == connections[rows[i].key].path
      ensures forall k :: k in connections ==> exists i :: 0 <= i < |rows| && rows[i].key == k
      ensures forall i, j :: 0 <= i < j < |rows| ==> rows[i].key != rows[j].key
    {
      DistinctCardinality(order, connections.Keys);
      var rows := Listing(order);
      assert forall i :: 0 <= i < |rows| ==> rows[i].key == order[i];
      assert forall k :: k in connections ==> exists i :: 0 <= i < |order| && order[i] == k;
      rows
    }

    /**
     * Connect: refuse a key already in use; pick the backend from the path;
     * create the engine and probe it with SELECT 1 (`probe` is the outcome
     * of both); store the entry only when that succeeds; then read the
     * notes if asked (`notes` is what the notes reader does).
     */
    method Connect(key: string, databasePath: string, readNotes: bool, probe: Outcome, notes: NotesOutcome)
      returns (r: Result<string>)
      requires Valid()
      modifies this
      ensures Valid()
      ensures old(key in connections) ==>
        && r == Err(AlreadyExists(key, old(connections[key].path)))
        && connections == old(connections) && order == old(order)
      ensures old(key !in connections) && ConnectBackend(databasePath).Err? ==>
        && r == Err(UnsupportedExtension(databasePath))
        && connections == old(connections) && order == old(order)
      ensures old(key !in connections) && ConnectBackend(databasePath).Ok? && probe.Fail? ==>
        && r == Err(ConnectionFailed(probe.reason))
        && connections == old(connections) && order == old(order)
      ensures old(key !in connections) && ConnectBackend(databasePath).Ok? && probe.Pass? ==>
        && connections == old(connections)[key := DBConnection(key, Engine(ConnectBackend(databasePath).value, databasePath, key), databasePath)]
        && order == old(order) + [key]
        && r == ConnectReply(key, readNotes, notes)
    {
      if key in connections {
        return Err(AlreadyExists(key, connections[key].path));
      }
      var backend := ConnectBackend(databasePath);
      if backend.Err? {
        return Err(backend.error);
      }
      if probe.Fail? {
        return Err(ConnectionFailed(probe.reason));
      }
      connections := connections[key := DBConnection(key, Engine(backend.value, databasePath, key), databasePath)];
      order := order + [key];
      r := ConnectReply(key, readNotes, notes);
    }

    /**
     * Disconnect: refuse an unknown key; dispose of the engine (`dispose`
     * is its outcome; an exception there propagates before the entry is
     * deleted); delete the entry.
     */
    method Disconnect(key: string, dispose: Outcome) returns (r: Result<string>)
      requires Valid()
      modifies this
      ensures Valid()
      ensures old(key !in connections) ==>
        && r == Err(NoActiveConnection(key))
        && connections == old(connections) && order == old(order)
      ensures old(key in connections) && dispose.Fail? ==>
        && r == Err(LibraryError(dispose.reason))
        && connections == old(connections) && order == old(order)
      ensures old(key in connections) && dispose.Pass? ==>
        && r == Ok(DisconnectMessage(key))
        && connections == old(connections) - {key}
        && order == Without(old(order), key)
        && GetConnection(key) == Err(NotConnected(key))
    {
      if key !in connections {
        return Err(NoActiveConnection(key));
      }
      if dispose.Fail? {
        return Err(LibraryError(dispose.reason));
      }
      connections := connections - {key};
      order := Without(order, key);
      r := Ok(DisconnectMessage(key));
    }

    /**
     * Query: resolve the key's engine, then run the statement through
     * pandas (`execute`, whose exceptions propagate unchanged). An unknown
     * key fails before anything is executed.
     */
    function Query(key: string, sql: string, params: Params,
                   execute: (Engine, string, Params) -> QueryOutcome): (r: Result<seq<Row>>)
      reads this
      requires Valid()
      ensures key !in connections ==> r == Err(NotConnected(key))
      ensures r.Err? ==> (r.error.NotConnected? <==> key !in connections)
      ensures key in connections ==>
        (r.Ok? <==> execute(connections[key].engine, sql, params).Rows?)
      ensures key in connections && r.Ok? ==>
        r.value == execute(connections[key].engine, sql, params).rows
      ensures key in connections && r.Err? ==>
        r.error == LibraryError(execute(connections[key].engine, sql, params).reason)
    {
      match GetEngine(key)
      case Err(e) => Err(e)
      case Ok(engine) =>
        match execute(engine, sql, params)
        case Rows(rows) => Ok(rows)
        case Failed(reason) => Err(LibraryError(reason))
    }

    /**
     * Update: resolve the key's engine, then execute the statement once per
     * parameter set inside one transaction (`execute`, whose exceptions
     * propagate unchanged); returns true. An unknown key fails before
     * anything is executed.
     */
    function Update(key: string, sql: string, params: seq<Params>,
                    execute: (Engine, string, seq<Params>) -> Outcome): (r: Result<bool>)
      reads this
      requires Valid()
      ensures key !in connections ==> r == Err(NotConnected(key))
      ensures key in connections ==>
        (r.Ok? <==> execute(connections[key].engine, sql, params).Pass?)
      ensures r.Ok? ==> r.value
      ensures r.Err? && key in connections ==>
        r.error == LibraryError(execute(connections[key].engine, sql, params).reason)
      ensures r.Err? ==> (r.error.NotConnected? <==> key !in connections)
    {
      match GetEngine(key)
      case Err(e) => Err(e)
      case Ok(engine) =>
        match execute(engine, sql, params)
        case Pass => Ok(true)
        case Fail(reason) => Err(LibraryError(reason))
    }

    /**
     * Connect on a fresh key whose path has a recognised suffix and whose
     * probe passes, then Disconnect with a passing dispose: both succeed
     * and the registry is back where it started.
     */
    method ConnectThenDisconnect(key: string, databasePath: string, readNotes: bool, notes: NotesOutcome)
      returns (connected: Result<string>, disconnected: Result<string>)
      requires Valid()
      requires key !in connections && ConnectBackend(databasePath).Ok?
      modifies this
      ensures Valid()
      ensures connected == ConnectReply(key, readNotes, notes)
      ensures disconnected == Ok(DisconnectMessage(key))
      ensures connections == old(connections) && order == old(order)
    {
      ghost var connections0, order0 := connections, order;
      connected := Connect(key, databasePath, readNotes, Pass, notes);
      disconnected := Disconnect(key, Pass);
      ConnectThenDisconnectRestores(connections0, order0, key,
        DBConnection(key, Engine(ConnectBackend(databasePath).value, databasePath, key), databasePath));
    }

    /** After a Connect whose entry was stored, the key resolves to exactly that entry. */
    lemma StoredEntryResolves(key: string, databasePath: string)
      requires Valid()
      requires key in connections && connections[key].path == databasePath
      ensures GetConnection(key).Ok? && GetConnection(key).value.path == databasePath
      ensures exists i :: 0 <= i < |ListConnections()| && ListConnections()[i] == KeyPath(key, databasePath)
    {
      var rows := ListConnections();
      var i :| 0 <= i < |rows| && rows[i].key == key;
      assert rows[i] == KeyPath(key, databasePath);
    }
  }

  /**
   * Connect followed by Disconnect on a fresh key gives back the dictionary
   * Connect started from: the same entries and the same key order.
   */
  lemma ConnectThenDisconnectRestores(connections: map<string, DBConnection>, order: seq<string>,
                                      key: string, entry: DBConnection)
    requires key !in connections
    requires forall k :: k in order <==> k in connections
    ensures connections[key := entry] - {key} == connections
    ensures Without(order + [key], key) == order
  {
    WithoutLastAppended(order, key);
  }
}
