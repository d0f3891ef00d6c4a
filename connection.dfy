/**
 * The asynchronous database connection: the registry of open cursors, the
 * idempotent close that cascades to cursors and to the owned system-engine
 * connection, and `connect`, which resolves the engine to talk to.
 *
 * `async`/`await` is read as plain sequencing. The two remote lookups that
 * `connect` performs, and the URL normalisation it applies, are parameters.
 */
module AsyncDb {
  import opened Wrappers
  import opened Errors
  import opened Sequences

  /** An authentication object. Python treats every such object as truthy. */
  class Auth {
    constructor () {}
  }

  /** The HTTP client a connection owns; of its state only "released" is modelled. */
  class Client {
    const baseUrl: string
    const accountName: string
    const auth: Auth
    const apiEndpoint: string
    var released: bool

    constructor (baseUrl: string, accountName: string, auth: Auth, apiEndpoint: string)
      ensures this.baseUrl == baseUrl && this.accountName == accountName
      ensures this.auth == auth && this.apiEndpoint == apiEndpoint
      ensures !released
    {
      this.baseUrl := baseUrl;
      this.accountName := accountName;
      this.auth := auth;
      this.apiEndpoint := apiEndpoint;
      released := false;
    }

    /** Releases the client's transport. */
    method AClose()
      modifies this
      ensures released
    {
      released := true;
    }
  }

  /** A cursor, bound for its whole life to one connection and that connection's client. */
  class Cursor {
    const client: Client
    const connection: Connection
    var closed: bool

    constructor (client: Client, connection: Connection)
      ensures this.client == client && this.connection == connection && !closed
    {
      this.client := client;
      this.connection := connection;
      closed := false;
    }

    /**
     * Closes the cursor and deregisters it from its connection. Closing a
     * cursor that is already closed changes nothing.
     */
    method Close()
      requires connection.Valid()
      modifies this, connection`cursors
      ensures closed && connection.Valid()
      ensures connection.cursors == Remove(old(connection.cursors), this)
      ensures this !in connection.cursors
      ensures old(closed) ==> connection.cursors == old(connection.cursors)
    {
      if closed {
        return;
      }
      closed := true;
      RemoveDistinct(connection.cursors, this);
      connection.cursors := Remove(connection.cursors, this);
    }
  }

  class Connection {
    const engineUrl: string
    const database: Option<string>
    const apiEndpoint: string
    const client: Client
    /** The system-engine connection this connection owns, if any. */
    const system: Connection?
    /** The open cursors created by this connection, oldest first. */
    var cursors: seq<Cursor>
    var closed: bool

    /** This connection, its client and its registered cursors. */
    ghost function LocalRepr(): set<object>
      reads this
    {
      {this, client} + set c | c in cursors
    }

    /** Everything a close of this connection may touch, the owned system connection included. */
    ghost function Footprint(): set<object>
      reads this, system
    {
      LocalRepr() + if system != null then system.LocalRepr() else {}
    }

    /**
     * The registry invariant: registered cursors are open, distinct and bound
     * to this connection and its client; the connection is closed exactly when
     * its client is released, and a closed connection has no cursors.
     */
    ghost predicate Registered()
      reads this, cursors, client
    {
      && Distinct(cursors)
      && (forall c :: c in cursors ==> c.connection == this && c.client == client && !c.closed)
      && (closed <==> client.released)
      && (closed ==> cursors == [])
    }

    /**
     * The ownership invariant on top of the registry invariant: an owned
     * system connection is another connection, with its own client and no
     * system connection of its own, and it is closed once this one is.
     */
    ghost predicate Valid()
      reads this, system, Footprint()
    {
      && Registered()
      && (system != null ==>
            && system != this
            && system.system == null
            && system.client != client
            && system.Registered()
            && (closed ==> system.closed))
    }

    constructor (engineUrl: string, database: Option<string>, auth: Auth, accountName: string,
                 system: Connection?, apiEndpoint: string)
      requires system != null ==> system.Valid() && system.system == null
      ensures Valid() && fresh(client)
      ensures this.engineUrl == engineUrl && this.database == database
      ensures this.apiEndpoint == apiEndpoint && this.system == system
      ensures client.baseUrl == engineUrl && client.accountName == accountName
      ensures client.auth == auth && client.apiEndpoint == apiEndpoint
      ensures cursors == [] && !closed
    {
      this.engineUrl := engineUrl;
      this.database := database;
      this.apiEndpoint := apiEndpoint;
      this.client := new Client(engineUrl, accountName, auth, apiEndpoint);
      this.system := system;
      cursors := [];
      closed := false;
    }

    /**
     * `cursor()`: refuses on a closed connection and otherwise registers a
     * new open cursor, bound to this connection and its client, at the end.
     */
    method CreateCursor() returns (r: Result<Cursor, Error>)
      requires Valid()
      modifies this`cursors
      ensures Valid()
      ensures closed ==> r == Failure(ConnectionClosedError("Unable to create cursor: connection closed."))
      ensures closed ==> cursors == old(cursors)
      ensures !closed ==> r.Success? && fresh(r.value) && cursors == old(cursors) + [r.value]
      ensures r.Success? ==> r.value.connection == this && r.value.client == client && !r.value.closed
    {
      if closed {
        return Failure(ConnectionClosedError("Unable to create cursor: connection closed."));
      }
      var c := new Cursor(client, this);
      DistinctSnoc(cursors, c);
      cursors := cursors + [c];
      return Success(c);
    }

    /** `async with connection`: entering a closed connection fails. */
    method AEnter() returns (r: Result<Connection, Error>)
      ensures closed ==> r == Failure(ConnectionClosedError("Connection is already closed."))
      ensures !closed ==> r == Success(this)
    {
      if closed {
        return Failure(ConnectionClosedError("Connection is already closed."));
      }
      return Success(this);
    }

    /**
     * Closes the connection: every cursor registered at the call, then the
     * client, then the owned system connection. On a closed connection it
     * does nothing.
     */
    method AClose()
      requires Valid()
      modifies Footprint()
      decreases if system == null then 0 else 1
      ensures Valid() && closed && cursors == [] && client.released
      ensures forall c :: c in old(cursors) ==> c.closed
      ensures system != null ==> system.closed && system.cursors == []
      ensures system != null ==> forall c :: c in old(system.cursors) ==> c.closed
      ensures old(closed) ==> unchanged(this, client)
      ensures old(closed) && system != null ==> unchanged(system, system.client)
    {
      if closed {
        return;
      }
      CloseCursors();
      client.AClose();
      closed := true;
      if system != null {
        assert forall c :: c in old(cursors) ==> c !in system.cursors;
        system.AClose();
      }
    }

    /**
     * Closes every cursor registered at the call. Cursors deregister
     * themselves while they close, so the loop runs over a copy of the list.
     */
    method CloseCursors()
      requires Valid() && !closed
      modifies this`cursors, cursors
      ensures Valid() && cursors == []
      ensures forall c :: c in old(cursors) ==> c.closed
    {
      var snapshot := cursors;
      var i := 0;
      while i < |snapshot|
        invariant 0 <= i <= |snapshot|
        invariant Valid()
        invariant cursors == snapshot[i..]
        invariant forall k :: 0 <= k < i ==> snapshot[k].closed
      {
        snapshot[i].Close();
        i := i + 1;
      }
    }

    /** Leaving `async with connection` closes it. */
    method AExit()
      requires Valid()
      modifies Footprint()
      ensures Valid() && closed && cursors == [] && client.released
      ensures forall c :: c in old(cursors) ==> c.closed
      ensures system != null ==> system.closed && system.cursors == []
      ensures system != null ==> forall c :: c in old(system.cursors) ==> c.closed
      ensures old(closed) ==> unchanged(this, client)
      ensures old(closed) && system != null ==> unchanged(system, system.client)
    {
      AClose();
    }
  }

  /** Python truthiness of an optional string: present and not empty. */
  predicate Truthy(o: Option<string>) {
    o.Some? && o.value != ""
  }

  /** What the engine lookup reports: the engine URL (possibly None), its status and its attached database. */
  datatype EngineInfo = EngineInfo(url: Option<string>, status: string, attachedDb: Option<string>)

  /** Where a connection to a named engine is opened: the engine URL and the database it uses. */
  datatype Target = Target(engineUrl: string, database: Option<string>)

  /** The arguments `connect` requires, in the order it checks them, each with whether it is truthy. */
  function RequiredArguments(auth: Auth?, accountName: Option<string>): (args: seq<(string, bool)>)
    ensures FirstFalsy(args).None? <==> auth != null && Truthy(accountName)
    ensures auth == null ==> FirstFalsy(args) == Some("auth")
    ensures auth != null && !Truthy(accountName) ==> FirstFalsy(args) == Some("account_name")
  {
    [("auth", auth != null), ("account_name", Truthy(accountName))]
  }

  /** The name of the first argument, in order, whose value is falsy. */
  function FirstFalsy(args: seq<(string, bool)>): (missing: Option<string>)
    ensures missing.None? <==> forall i :: 0 <= i < |args| ==> args[i].1
    ensures missing.Some? ==>
      exists i :: 0 <= i < |args| && !args[i].1 && args[i].0 == missing.value &&
                  forall j :: 0 <= j < i ==> args[j].1
  {
    if args == [] then None
    else if !args[0].1 then Some(args[0].0)
    else FirstFalsy(args[1..])
  }

  /** The error `connect` raises for a missing required argument. */
  function MissingArgumentError(name: string): Error {
    ConfigurationError(name + " is required to connect.")
  }

  /** The loop over the required arguments that raises on the first falsy one. */
  method CheckRequired(args: seq<(string, bool)>) returns (err: Option<Error>)
    ensures FirstFalsy(args).None? ==> err == None
    ensures FirstFalsy(args).Some? ==> err == Some(MissingArgumentError(FirstFalsy(args).value))
  {
    var i := 0;
    while i < |args|
      invariant 0 <= i <= |args|
      invariant FirstFalsy(args) == FirstFalsy(args[i..])
    {
      if !args[i].1 {
        return Some(MissingArgumentError(args[i].0));
      }
      assert args[i..][1..] == args[i + 1..];
      i := i + 1;
    }
    return None;
  }

  /** The message of the error raised when the engine serves another database than the requested one. */
  function MismatchMessage(engineName: string, database: string, attachedDb: Option<string>): string {
    "Engine " + engineName + " is not attached to " + database + ", but to " + Str(attachedDb)
  }

  /**
   * The decision `connect` takes on the engine lookup: the lookup's own
   * failure, an engine that is not running, a database mismatch and a
   * missing engine URL are errors, checked in that order; otherwise the
   * connection goes to the engine's URL and, whether or not a database was
   * given, uses the engine's attached database.
   */
  function ResolveEngine(engineName: string, database: Option<string>, lookup: Result<EngineInfo, Error>): (r: Result<Target, Error>)
    ensures lookup.Failure? ==> r == Failure(lookup.error)
    ensures lookup.Success? && lookup.value.status != "Running" ==>
      r == Failure(EngineNotRunningError(engineName))
    ensures lookup.Success? && lookup.value.status == "Running" && database.Some? && database != lookup.value.attachedDb ==>
      r == Failure(InterfaceError(MismatchMessage(engineName, database.value, lookup.value.attachedDb)))
    ensures r.Success? <==>
      && lookup.Success?
      && lookup.value.status == "Running"
      && (database.None? || database == lookup.value.attachedDb)
      && lookup.value.url.Some?
    ensures r.Success? ==> r.value.engineUrl == lookup.value.url.value && r.value.database == lookup.value.attachedDb
    ensures r.Failure? && lookup.Success? && lookup.value.status == "Running" && (database.None? || database == lookup.value.attachedDb) ==>
      r == Failure(AssertionError)
  {
    match lookup
    case Failure(e) => Failure(e)
    case Success(info) =>
      if info.status != "Running" then
        Failure(EngineNotRunningError(engineName))
      else if database.Some? && database != info.attachedDb then
        Failure(InterfaceError(MismatchMessage(engineName, database.value, info.attachedDb)))
      else
        var db := if database.None? then info.attachedDb else database;
        if info.url.None? then Failure(AssertionError)
        else Success(Target(info.url.value, db))
  }

  /**
   * `connect`. The system-engine URL lookup and the engine lookup are given
   * as their outcomes (a failed lookup is typically a `RemoteError`), and
   * `fixUrl` stands for the URL-scheme normalisation.
   * The ghost result `system` is the system-engine connection, if one was
   * built.
   */
  method Connect(auth: Auth?, accountName: Option<string>, database: Option<string>, engineName: Option<string>,
                 apiEndpoint: string, fixUrl: string -> string,
                 systemEngineUrl: Result<string, Error>, engine: Result<EngineInfo, Error>)
    returns (r: Result<Connection, Error>, ghost system: Connection?)
    ensures var missing := FirstFalsy(RequiredArguments(auth, accountName));
      missing.Some? ==> r == Failure(MissingArgumentError(missing.value)) && system == null
    ensures FirstFalsy(RequiredArguments(auth, accountName)).None? && systemEngineUrl.Failure? ==>
      r == Failure(systemEngineUrl.error) && system == null
    ensures FirstFalsy(RequiredArguments(auth, accountName)).None? && systemEngineUrl.Success? ==>
      && system != null && fresh(system) && fresh(system.client)
      && system.Valid() && system.system == null && system.cursors == []
      && system.engineUrl == fixUrl(systemEngineUrl.value) && system.database == database
      && system.apiEndpoint == fixUrl(apiEndpoint)
      && system.client.auth == auth && system.client.accountName == accountName.value
    ensures FirstFalsy(RequiredArguments(auth, accountName)).None? && systemEngineUrl.Success? && !Truthy(engineName) ==>
      r == Success(system) && system != null && !system.closed
    ensures FirstFalsy(RequiredArguments(auth, accountName)).None? && systemEngineUrl.Success? && Truthy(engineName) ==>
      system != null &&
      match ResolveEngine(engineName.value, database, engine)
      case Failure(e) => r == Failure(e) && system.closed
      case Success(target) =>
        && r.Success? && fresh(r.value) && fresh(r.value.client)
        && r.value.Valid() && !r.value.closed && r.value.cursors == []
        && r.value.system == system && !system.closed
        && r.value.engineUrl == fixUrl(target.engineUrl) && r.value.database == target.database
        && r.value.apiEndpoint == fixUrl(apiEndpoint)
        && r.value.client.auth == auth && r.value.client.accountName == accountName.value
  {
    system := null;
    var missing := CheckRequired(RequiredArguments(auth, accountName));
    if missing.Some? {
      return Failure(missing.value), null;
    }
    var endpoint := fixUrl(apiEndpoint);
    if systemEngineUrl.Failure? {
      return Failure(systemEngineUrl.error), null;
    }
    // The system connection is built without a system connection of its own.
    var sys := new Connection(fixUrl(systemEngineUrl.value), database, auth, accountName.value, null, endpoint);
    system := sys;
    if !Truthy(engineName) {
      return Success(sys), system;
    }
    var target := ResolveEngine(engineName.value, database, engine);
    if target.Failure? {
      // No system connection is leaked on a failed resolution.
      sys.AClose();
      return Failure(target.error), system;
    }
    var conn := new Connection(fixUrl(target.value.engineUrl), target.value.database, auth, accountName.value, sys, endpoint);
    return Success(conn), system;
  }

  /**
   * A closed connection refuses new cursors and refuses to be entered, and
   * closing it once more is harmless.
   */
  method ClosedConnectionRefuses(conn: Connection) returns (cursor: Result<Cursor, Error>, entered: Result<Connection, Error>)
    requires conn.Valid()
    modifies conn.Footprint()
    ensures cursor == Failure(ConnectionClosedError("Unable to create cursor: connection closed."))
    ensures entered == Failure(ConnectionClosedError("Connection is already closed."))
    ensures conn.Valid() && conn.closed && conn.cursors == []
  {
    conn.AClose();
    cursor := conn.CreateCursor();
    entered := conn.AEnter();
    conn.AClose();
  }

  /**
   * Two cursors opened on a fresh connection are both closed, and none is
   * left registered, once the connection closes; a second close changes nothing.
   */
  method CursorsClosedOnClose(conn: Connection) returns (c1: Cursor, c2: Cursor)
    requires conn.Valid() && !conn.closed && conn.cursors == []
    modifies conn.Footprint()
    ensures c1 != c2 && c1.connection == conn && c2.connection == conn
    ensures c1.closed && c2.closed
    ensures conn.Valid() && conn.closed && conn.cursors == []
  {
    var r1 := conn.CreateCursor();
    var r2 := conn.CreateCursor();
    c1, c2 := r1.value, r2.value;
    assert conn.cursors == [c1, c2];
    conn.AClose();
    conn.AClose();
  }
}
