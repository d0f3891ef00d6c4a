# Firebolt async connection: lifecycle and engine resolution

This project models the connection layer of the Firebolt Python SDK's
asynchronous DB-API driver (`src/firebolt/async_db/connection.py`). It covers two parts.

- **`Connection` as a state machine.** A connection has a closed flag, a list of
  registered cursors and, optionally, a "system engine" connection that it owns.
  `cursor()` refuses on a closed connection. Otherwise it appends a new cursor bound to
  the connection and its HTTP client. `aclose()` does nothing on a closed connection.
  Otherwise it closes every cursor registered at the call, iterating over a copy
  because cursors deregister themselves. It then releases the client, marks the
  connection closed and closes the owned system connection. Entering a closed
  connection as an async context manager fails.
- **`connect` as a decision procedure.** It checks that `auth` and `account_name` are
  present and non-empty, in that order. It then builds the system connection, which has
  no system connection of its own, and returns it when no engine name is given.
  Otherwise it resolves the engine. A lookup failure, a status other than `"Running"`,
  a database that differs from the engine's attached database, and a missing engine
  URL are errors. Each of them closes the system connection before it propagates. On
  success the new connection owns the system connection.

Files:

- `wrappers.dfy`: `Option` (Python's `None`) and `Result` (a raised exception).
- `sequences.dfy`: duplicate-free lists and `Remove`, which drops the first occurrence of an element and ignores a missing one.
- `errors.dfy`: the exceptions raised by this layer, with their messages.
- `connection.dfy`: the `Client`, `Cursor` and `Connection` classes, the argument check,
  `ResolveEngine` and `Connect`.

`async`/`await` is read as plain sequencing. The two remote lookups are parameters of
`Connect`, given as their outcomes. These are the system-engine URL lookup
(`_get_system_engine_url`) and the engine lookup (`_get_engine_url_status_db`). The URL
normalisation `fix_url_schema` is a parameter `fixUrl: string -> string`; its code is
not part of this model.

The invariant `Connection.Valid()` holds between operations. It says the following.

- Registered cursors are open, pairwise distinct, and bound to this connection and its client.
- A connection is closed exactly when its client is released.
- A closed connection has no cursors.
- An owned system connection is a different connection. It has a different client and no
  system connection of its own, which is why the close cascade stops after one step.
- The owned system connection is closed whenever the owner is.

Edge cases of `connect` as the code is written:

- `engine_name` is tested for truthiness, so `""` behaves like no engine name.
- `database` is tested with `is not None`, so `""` counts as a requested database.
- A missing engine URL trips an `assert`, which takes the same error path and also closes the system connection.
- When the engine resolves, the resulting connection always uses the engine's attached
  database. This holds whether or not a database was given (`ResolveEngine`'s contract).

## Model

| member | source | states |
|---|---|---|
| `Sequences.Remove` | tests/unit/async_db/test_connection.py:86-89 | deregistration drops exactly the first occurrence of the cursor and keeps the order of the others; a cursor that is not registered leaves the list as it is |
| `Sequences.RemoveDistinct` | tests/unit/async_db/test_connection.py:86-89 | on a duplicate-free cursor list, removal deletes the cursor entirely, keeps every other cursor and keeps the list duplicate-free |
| `AsyncDb.Cursor.Close` | tests/unit/async_db/test_connection.py:86-89 | closing a cursor marks it closed and removes it from its connection's cursors, preserving the connection invariant; closing it again changes nothing |
| `AsyncDb.Connection.constructor` | src/firebolt/async_db/connection.py:112-141 | a new connection is open with no cursors; it has a fresh client bound to its engine URL, account, auth and API endpoint, and it records the given system connection |
| `AsyncDb.Connection.CreateCursor` | src/firebolt/async_db/connection.py:143-149 | on a closed connection it fails with ConnectionClosedError and leaves the cursors unchanged; otherwise it appends exactly one new open cursor, bound to this connection and its client, and earlier cursors are untouched |
| `AsyncDb.Connection.AEnter` | src/firebolt/async_db/connection.py:152-155 | entering a closed connection fails with ConnectionClosedError; entering an open one yields the connection itself |
| `AsyncDb.Connection.AClose` | src/firebolt/async_db/connection.py:157-174 | after the call every cursor registered before it is closed, no cursor is registered, the client is released and the connection is closed; the owned system connection is closed the same way; on a closed connection nothing changes; the recursion ends because a system connection owns none |
| `AsyncDb.Connection.CloseCursors` | src/firebolt/async_db/connection.py:162-169 | looping over a copy of the cursor list closes every cursor registered at the start while each one deregisters itself; afterwards none is registered and the invariant holds |
| `AsyncDb.Connection.AExit` | src/firebolt/async_db/connection.py:176-179 | leaving the context has the effect of `aclose`: the connection, every cursor registered at the call, the system connection and its former cursors end up closed; an already-closed connection and its system connection are unchanged |
| `AsyncDb.RequiredArguments` | src/firebolt/async_db/connection.py:204-206 | the required arguments are all truthy exactly when auth is given and account_name is a non-empty string; a missing auth is reported before a missing account_name |
| `AsyncDb.FirstFalsy` | src/firebolt/async_db/connection.py:204-206 | nothing is reported exactly when every required argument is truthy; otherwise the reported name is that of a falsy argument with only truthy arguments before it |
| `AsyncDb.CheckRequired` | src/firebolt/async_db/connection.py:204-206 | the loop raises ConfigurationError("<name> is required to connect.") for the first falsy argument and nothing when all are truthy |
| `AsyncDb.ResolveEngine` | src/firebolt/async_db/connection.py:233-251 | a failed lookup propagates its error; a status other than "Running" gives EngineNotRunningError; a given database unequal to the attached one gives InterfaceError naming both; a missing URL fails the assertion; it succeeds exactly when none of these holds, and then targets the engine URL with the attached database |
| `AsyncDb.Connect` | src/firebolt/async_db/connection.py:182-263 | a missing argument fails with ConfigurationError before any connection exists; a failed system URL lookup builds none; without engine name the result is the open system connection; with one, every failure of the resolution leaves the system connection closed, and success returns a fresh open connection to the resolved engine that owns the open system connection |
| `AsyncDb.ClosedConnectionRefuses` | tests/unit/async_db/test_connection.py:19-31 | after close, creating a cursor and entering the connection both fail with ConnectionClosedError, and a second close is harmless |
| `AsyncDb.CursorsClosedOnClose` | tests/unit/async_db/test_connection.py:34-47 | two cursors opened on a connection are both closed and none is registered after close; closing twice is harmless |

## Left out

- `OverriddenHttpBackend` (TCP keepalive socket options) is left out. It is transport plumbing with no state the connection observes.
- Client construction is left out: the transport, the timeout and the user-agent header built from `additional_parameters`. The client is an object that records its base URL, account, auth and endpoint and whether it was released.
- The two remote lookups are outcomes passed in. Their code is not part of this model. Any cursors they may open on the system connection are therefore not modelled.
- `fix_url_schema` is an uninterpreted parameter; its code is not part of this model.
- `AsyncDb.Connect` has no default for `api_endpoint` (`DEFAULT_API_URL` in the source); callers always pass the endpoint.
- Concurrency is left out: the async scheduling and the thread-safety remarks in `aclose` (a cursor closed by another thread). The model is sequential.
- `AsyncDb.Connection.AClose` does not model an exception raised by the client's own `aclose`, which would abort the cascade. That code is not part of this model.
- `AsyncDb.Connection.constructor` requires a given system connection to satisfy the invariant and to own no system connection. Python accepts any connection there. `connect` only ever passes one built with `None`, which is what these requirements express.
- `AsyncDb.Cursor.Close` models only the deregistration and the closed flag. The cursor's own code is not modelled: only its binding at construction and its close are, the latter as the test shows its effect. Its release of result sets is not modelled.
- Cursor internals are left out: execution, type parsing, row coercion, parameter formatting, `nextset` and `SET` handling. Their sources are not part of this model.
- `commit`/`rollback` live in `BaseConnection`, which is not part of this model. The `closed` property it provides is modelled as the `closed` field.
