# Connection registry of an Access/SQLite MCP server, in Dafny

This project models the connection registry in `src/database.py`. The server
keeps a process-wide dictionary `connections` that maps a caller-chosen key to
a `DBConnection(key, engine, path)`. Its tools use that dictionary:

- `Connect` stores an entry. It refuses a key that is already in use, picks
  a backend from the path's suffix and probes the new engine with
  `SELECT 1`. Then it optionally appends the database's notes to its
  message.
- `Disconnect` disposes of the entry's engine and deletes the entry.
- `GetConnection`, `GetEngine` and `ListConnections` read the dictionary.
- `Query` and `Update` resolve a key to its engine and hand the statement to
  SQLAlchemy and pandas.
- `CreateDatabase` creates an empty SQLite file or copies an empty Access
  template. It dispatches on the same suffixes as `Connect`.

Files:

- `types.dfy` (module `Types`): results, the error kinds (one per message the
  code raises, plus `LibraryError` for exceptions of the libraries that
  propagate unchanged), the backend kinds, and the outcomes of the foreign calls.
- `dispatch.dfy` (module `Dispatch`): Python's `str.endswith`, the suffix
  dispatch of `Connect` (`ConnectBackend`), the suffix dispatch of
  `CreateDatabase` (`CreateTarget`), and lemmas about both.
- `keyorder.dfy` (module `KeyOrder`): the dictionary's key order.
  Insertion appends a key. `del` removes it and keeps the other keys in
  place.
- `database.dfy` (module `Database`): `DBConnection`, the `Registry` class
  (the dictionary, with `Connect` and `Disconnect` as methods that update it
  in place), the read-only lookups, `Query`, `Update` and `CreateDatabase`.

Foreign effects are parameters of the operations that perform them:

- engine creation together with the `SELECT 1` probe: an `Outcome`;
- the notes reader: a `NotesOutcome`, which returns text, raises the server's
  own error type, or raises any other exception;
- `engine.dispose()`: an `Outcome`;
- the file-existence tests: booleans;
- `sqlite3.connect` and the template copy: `Outcome`s;
- statement execution in `Query` and `Update`: function parameters applied
  to the resolved engine, returning a `QueryOutcome` (rows or a failure) and
  an `Outcome`.

Small helpers without rows of their own: `Dispatch.IsAccessPath` and
`Dispatch.IsSqlitePath` are the two `endswith` chains (src/database.py:77
and 115 for Access, 71 and 120 for SQLite). `Database.SuccessMessage` and
`Database.DisconnectMessage` are the confirmation lines of src/database.py:136
and 163.

Two behaviours of the code are worth knowing. Both follow from the model's
contracts:

- The notes reader can raise an exception other than the server's own error
  type. That exception is not caught by the inner handler (src/database.py:143),
  so it reaches the outer `except Exception`. `Connect` then reports
  "Error connecting to database" although the entry has already been stored
  (src/database.py:135). A retry with the same key then fails with "already
  exists". `Registry.Connect`'s last postcondition, together with
  `ConnectReply`, states this.
- `Connect`'s uniqueness test is `if existing:` on `connections.get(key)`.
  A `DBConnection` dataclass is always truthy, so that test is exactly
  "the key is present", and it is modelled that way.

## Model

| member | source | states |
|---|---|---|
| `Database.Registry.constructor` | src/database.py:35 | a fresh registry has no entries and an empty key order |
| `Database.Registry.GetConnection` | src/database.py:32-38 | succeeds exactly when the key is present, returning the stored entry, whose own key is the looked-up key; otherwise fails NotConnected(key) |
| `Database.Registry.GetEngine` | src/database.py:41-43 | succeeds exactly when the key is present, with that entry's engine, which is the engine created for that key and its path; otherwise fails with GetConnection's NotConnected(key) |
| `Database.Registry.Listing` | src/database.py:50 | one {key, path} record per given key, in the given order |
| `Database.Registry.ListConnections` | src/database.py:46-50 | as many records as entries, listed in the dictionary's insertion order; every record names a stored key with its stored path; every stored key appears; no key appears twice |
| `KeyOrder.DistinctCardinality` | src/database.py:49-50 | a duplicate-free key order has as many keys as the dictionary, which ListConnections uses for its length |
| `Dispatch.ConnectBackend` | src/database.py:109-124 | the in-memory store is chosen exactly for the empty path; a rejection is UnsupportedExtension(path), and only for a non-empty path |
| `Dispatch.SuffixGroupsDisjoint` | src/database.py:115-120 | no path ends with both an Access suffix and a SQLite suffix, so the order in which the two groups are tested does not matter |
| `Dispatch.RecognisedSuffixes` | src/database.py:111-124 | after any stem, `.mdb`/`.accdb` select Access ODBC and `.db`/`.sqlite`/`.sqlite3` a SQLite file, in Connect and in CreateDatabase |
| `Dispatch.UnrecognisedLastCharRejected` | src/database.py:123-124 | a non-empty path whose last character ends none of the five suffixes is rejected by both dispatches |
| `Dispatch.UpperCaseSuffixesRejected` | src/database.py:115-124 | matching is case-sensitive: `.DB`, `.MDB`, `.ACCDB`, `.SQLITE` and `.SQLITE3` are rejected whatever the stem |
| `Dispatch.UnrecognisedSuffixRejected` | src/database.py:123-124 | every non-empty path that is not a stem followed by one of the five suffixes is rejected as an unsupported extension by Connect's dispatch and matches no branch of CreateDatabase's |
| `Dispatch.BackendOnlyForRecognisedSuffix` | src/database.py:115-120 | Access ODBC (or the Access template) is chosen only for a stem followed by `.mdb`/`.accdb`, a SQLite file only for a stem followed by `.db`/`.sqlite`/`.sqlite3` |
| `Dispatch.EndsWithIffStem` | src/database.py:115 | `endswith(suffix)` holds exactly when the path is some stem followed by the suffix |
| `Dispatch.MixedCaseSuffixesRejected` | src/database.py:115-124 | `.Db`, `.xdb` and `.sqlitE` are rejected by both dispatches whatever the stem |
| `Dispatch.UpperCaseSqlite3Rejected` | src/database.py:120-124 | `.SQLITE3` is rejected, the one upper-case suffix whose last character matches a lower-case suffix |
| `Dispatch.DispatchAgrees` | src/database.py:71-89 | on a non-empty path CreateDatabase's suffix dispatch and Connect's classify identically; the empty path is in-memory for Connect and matches no branch of CreateDatabase's suffix dispatch |
| `Dispatch.CreateTarget` | src/database.py:71-89 | CreateDatabase never picks a backend for the empty path |
| `Database.CreateDatabase` | src/database.py:59-92 | an existing target fails TargetExists; every later failure, including an unsupported extension and a missing template, is wrapped as CreateFailed; it succeeds exactly when the suffix is recognised and that branch's file operation succeeds |
| `Database.ConnectReply` | src/database.py:136-146 | the reply starts with the confirmation line; without notes it is exactly that line; with notes it ends with the notes text, and with a caught notes error it still succeeds and ends with that error's text; only an uncaught notes exception turns it into ConnectionFailed |
| `Database.Registry.Connect` | src/database.py:95-149 | an existing key fails AlreadyExists with the existing path, leaving entries and order unchanged; an unsupported suffix or a failed probe fails and changes nothing; on a passed probe exactly one entry (key, a new engine for the chosen backend, that path and that key, path) is added and the key is appended to the order, with the reply from ConnectReply; the registry invariant is kept |
| `Database.Registry.Disconnect` | src/database.py:152-163 | an absent key fails and changes nothing; a failing dispose propagates and changes nothing; otherwise exactly that key is removed from entries and order, and GetConnection(key) then fails NotConnected |
| `KeyOrder.Without` | src/database.py:162 | deleting a key leaves exactly the other keys, keeps them duplicate-free, shortens a duplicate-free order by one, and is the identity on an absent key |
| `KeyOrder.WithoutLastAppended` | src/database.py:162 | deleting the key stored last gives back the previous key order |
| `Database.ConnectThenDisconnectRestores` | src/database.py:135-162 | a successful Connect on a fresh key followed by a successful Disconnect restores the entries and the key order |
| `Database.Registry.ConnectThenDisconnect` | src/database.py:95-163 | a successful Connect on a fresh key followed by a successful Disconnect of that key returns Connect's reply and Disconnect's confirmation and leaves the entries and the key order as they were |
| `Database.Registry.StoredEntryResolves` | src/database.py:46-50 | a stored entry resolves through GetConnection to its path and is listed by ListConnections as {key, path} |
| `Database.Registry.Query` | src/database.py:171-187 | an unknown key fails NotConnected before anything is executed; a known key returns exactly the rows that execution on that key's engine returns, or propagates the library's error; it fails NotConnected exactly when the key is unknown |
| `Database.Registry.Update` | src/database.py:190-203 | an unknown key fails NotConnected before anything is executed; on a known key it returns true exactly when execution on that key's engine succeeds, and otherwise propagates the library's error; it fails NotConnected exactly when the key is unknown |

## Left out

- The text of the error messages: each message is an `Error` constructor with the values the message interpolates, except as noted in the next lines. `TemplateMissing` omits the template's path, which is fixed by the deployment. CreateDatabase's unsupported-extension message carries extra text listing the supported extensions. The model uses the same `UnsupportedExtension` constructor for it, inside `CreateFailed`.
- `CreateDatabase`'s existence test is a parameter. In the code, `Path("")` is the working directory `.`, which exists, so `CreateDatabase("")` fails with "Target file already exists" before the dispatch. The model does not tie the parameter to the path, so for `""` it also admits the unsupported-extension failure the code never reaches.
- `CreateDatabase`'s confirmation message and its "Target file already exists" message use `str(Path(targetPath))`, which normalises the path (`./x.db` becomes `x.db`, `x.db/` becomes `x.db`, `""` becomes `.`). The model uses the path as given in both `TargetExists(targetPath)` and the confirmation, because path normalisation is library behaviour.
- The connection URL and the ODBC connection string built for each backend are not modelled. They are library formatting. An engine is identified by the backend kind chosen, the path and the key it was created for, so the engines of two live connections always differ. A key reconnected to the same path after a Disconnect gets an engine equal to the disposed one: object identity beyond that is not modelled.
- SQLAlchemy, pandas, the ODBC driver, `sqlite3`, `shutil` and `Path.exists` are not modelled. Their outcomes are parameters. Query results and parameters are maps from column name to a `Value`, which has no floating-point or date cases.
- Update's all-or-nothing transaction is provided by SQLAlchemy's `begin()` and is not modelled. Neither is the table state that `Query` and `Update` read and write.
- `ReadNotes` (module `src.notes`) is not part of this model. It is an oracle with three outcomes.
- An engine created by `Connect` whose probe fails is not disposed by the code. The model keeps no record of engines outside the registry, so that leak is not represented.
- Concurrency is not modelled. The code has no lock around the check-then-store in `Connect`, and every operation here is modelled as one sequential step.
- `getattr(ctx.fastmcp, "connections")` in `Connect` has no default and would raise if the attribute were missing. The model always has a registry.
- `KeyOrder.Without`: its contract does not state that the remaining keys keep their relative order. The body keeps it, and `WithoutLastAppended` covers the case that `Connect` followed by `Disconnect` needs.
- The demo scripts `scouting_mdb.py` and `scouting_db.py` are not modelled. They perform file I/O, driver calls and printing.
