# mylitedb core, modelled in Dafny

mylitedb serves many SQLite database files behind one MySQL-protocol
endpoint. Each client connection gets a session adapter. The adapter keeps
the selected database and routes every statement to one of three places:
the read path (`query`), the write path (`exec`), or a fake
acknowledgement. The read path turns every scanned cell into a null, an
int64, a float64 or text, and leaves a slice of any other element type
unconverted. Database handles come from a store, a cache from
lower-cased names to handles. At startup the store opens every `*.db` file
it finds in the data directory, and a later file with the same key replaces
an earlier one. After startup the store keeps the first handle it opens
successfully for a key, and never closes, removes or replaces an entry. A
failed open leaves the map unchanged, so the next lookup tries again.

The model has seven modules:

- `GoBase`: errors, `Option`, `Result`, `int64`/`uint64` and their
  reinterpreting conversions.
- `GoStrings`: ASCII `ToLower`, `SplitN(s, ":", 2)`, `Split(s, sep)[0]`
  (here `Before`), and a path join.
- `Sqlite`: the `Handle` class (an open `*sql.DB`), scanned values as a
  tagged union `Dyn` with their `reflect.Kind`, and the engine itself. The
  engine is an oracle `Engine`: a datatype of total functions that answer
  open, ping, exec, query and prepare, and each may fail.
- `Coercion`: the per-cell type switch of the read path.
- `DbStore`: the `Store` class, with `NewStore`, `GetDB` and `openlite`.
- `Session`: the `SessionHandler` class and the pure decisions it makes.
- `Credentials`: the split of the root `user:secret` setting.

The parser's output is an input to the model: a `Parsed` value, either
`ParseError` or a statement shape (`Show`, `Set`, `Select`, `Other`) with
its bind-variable count. `Select` stands for a plain `SELECT` only. A
`UNION`, a parenthesised select and every other statement type are `Other`,
and they take the write path.

The store keys names exactly as the code builds them:

- A startup file `foo.db` is stored under `foo` (store.go:41).
- `UseDB("foo")` asks the store for `foo.db` (session.go:39).
- So, for a file name without upper-case letters, a session never finds
  the startup handle. Selecting `foo` opens the same data source a second
  time, under `foo.db`. A name with upper-case letters can be found: the
  file `a.DB.db` is cut to `a.DB` and keyed `a.db`, which `UseDB("a")`
  asks for.
- `DbStore.StartupKeyNeverRequested` and
  `DbStore.StartupAndSessionKeysDiffer` state this.

A statement that the parser rejects goes to the read path, as session.go:54-55
does. It does not go to the write path.

`Store.Valid` is the store's invariant: every key is lower-case and no two
keys share a handle. `NewStore` establishes it, and `GetDB` and `UseDB`
preserve it.

## Model

| member | source | states |
|---|---|---|
| `Session.RouteOf` | session.go:53-67 | A parse error or a `Select` goes to the read path with the original text. A `Show` goes to the read path with the fixed catalog query instead of its own text. A `Set` gets the fake acknowledgement. Every other parsed statement goes to the write path with its text. There is no other case (each route holds iff its statement shapes hold). |
| `Session.SessionHandler.HandleQuery` | session.go:51-68 | The result is the read-path result for the text chosen above, the write-path result, or `Ok(fakeOK)` for `Set`. For `Set` the result does not depend on the engine or the selected handle, and the method changes nothing. |
| `Session.FakeOK` | session.go:108-113 | The fake acknowledgement reports zero affected rows, zero insert id and no result set. |
| `Session.WriteResult` | session.go:119-137 | The write path fails iff `Exec`, `RowsAffected` or `LastInsertId` fails, with the first of those errors. On success, the reported counters are the engine's int64 values reinterpreted as uint64 (converting back gives the engine's values), and there is no result set. |
| `Session.SessionHandler.Exec` | session.go:116-138 | `exec` returns exactly `WriteResult` of the engine's answer for the statement and its arguments on the selected handle. |
| `Session.SessionHandler.Query` | session.go:141-197 | `query` returns exactly `ReadResult` of the engine's answer. Its loop scans each row into a fresh array of one destination per column, coerces the cells in place, and appends the row. |
| `Session.ScanInto` | session.go:156-186 | One row of the read loop, built in a fresh array of one destination per column and coerced cell by cell, is exactly the coercion of the scanned cells, in column order. |
| `Session.ReadResult` | session.go:142-196 | The read path succeeds iff the query runs, `Columns()` succeeds and every row scans. The result then has the column names, the rows built from the scans, zero counters and a result set. On failure it returns the engine's error unchanged: the error of `Query`, else that of `Columns()`, else the error of the first row that fails to scan. |
| `Session.BuildRowsShape` | session.go:155-187 | Building succeeds iff no row fails to scan. On success there is one row per scanned row, in scan order. Each row has `len(fields)` cells, each the coercion of the scanned value. |
| `Session.BuildRowsFirstError` | session.go:161-163 | A failed build returns the error of the first row that fails to scan. Every earlier row scanned. |
| `Session.ReadRowsMatchFields` | session.go:156 | Every row of a successful read has exactly as many cells as there are columns. |
| `Coercion.Coerce` | session.go:164-185 | nil gives null. An int64 gives the same int64, a float64 the same float64, and a `[]uint8` or a string gives text with the same bytes. Any other value that survives the type assertions (a slice of non-byte elements) is left unconverted. |
| `Coercion.TypedSurvivesOnlyAsOtherSlice` | session.go:171-184 | A value of any other type passes the type assertions iff it is a slice whose elements are neither `uint` nor `uint8`. An `int32`, `int`, `float32`, `bool`, `[]uint` or struct value panics. |
| `Session.SessionHandler.UseDB` | session.go:34-48 | `currentdb` always becomes the lower-cased name, even when the call fails. The store is asked for `name + ".db"`. The call succeeds iff that key is cached or opening it succeeds, and then `db` is the store's handle for that key. On success the store changes at most at that key, which is bound to `db`. A newly opened handle is fresh, on the data source `basedir/name.db?options`. On failure it returns the store's open error unchanged, and `db` and the store are unchanged. The store stays valid. |
| `Session.SessionHandler.constructor` | session.go:24-31 | A new session selects `__default__`. A handle is selected iff `__default__.db` was already cached or opening it succeeds, and then it is the store's handle for that key, the store changes at most at that key, and a newly opened handle is fresh, on the data source `basedir/__default__.db?options`. It ignores a failure to open it: then no handle is selected and the store is unchanged. |
| `Session.SessionHandler.HandleFieldList` | session.go:71-73 | Field-list requests always fail with the not-supported error. |
| `Session.SessionHandler.HandleStmtPrepare` | session.go:76-89 | A parse error or a refusal by the engine's `Prepare` returns `(0, 0, err)`. Otherwise the result is `(k, k, nil)`, where `k` is the bind-variable count. |
| `Session.SessionHandler.HandleStmtExecute` | session.go:92-94 | A prepared statement always takes the write path with its arguments, whatever its shape. |
| `Session.SessionHandler.HandleStmtClose` | session.go:97-99 | Closing a prepared statement never fails. |
| `Session.SessionHandler.HandleOtherCommand` | session.go:102-105 | Any other command always fails with the not-supported error. |
| `DbStore.Store.GetDB` | store.go:48-66 | The name is lower-cased. A cached key returns its handle and leaves the map unchanged. Otherwise the store opens `basedir/key` with the options. If that fails, the error is returned and the map is unchanged. If it succeeds, exactly that key is added, bound to the new handle, and every other entry is unchanged. Entries are never removed or replaced, and the invariant is kept. |
| `DbStore.Store.Openlite` | store.go:69-71 | The engine is asked to open `filename + "?" + options`. The call fails iff the engine refuses. On success the handle is new and carries that data source name. |
| `DbStore.Store.NewStore` | store.go:18-45 | Construction fails iff opening or pinging some file fails, with the first such error. Otherwise every matched file is stored under its startup key with a new handle on its data source name (a later file with the same key replaces an earlier one), and the store is valid. |
| `DbStore.StartupFailureSticks` | store.go:31-39 | Once the scan has failed, scanning more files keeps the same failure. |
| `DbStore.StartupKeysAreFileKeys` | store.go:41 | The keys after startup are exactly the startup keys of the matched files. |
| `DbStore.StartupLastFileWins` | store.go:41 | Of several files with one startup key, the last scanned decides that key's handle. |
| `DbStore.StartupKeyNeverRequested` | store.go:41 | For a file name without upper-case letters, the startup key is never a key that `UseDB` asks for (`lower(name) + ".db"`). |
| `DbStore.StartupAndSessionKeysDiffer` | store.go:41 | For a lower-case name `foo` without dots, the file `foo.db` is keyed `foo` at startup, but selecting `foo` looks up `foo.db`, a different key. |
| `DbStore.RepeatedLookup` | store.go:54-56 | Two lookups of names that differ only in letter case return the same handle once the first has succeeded. |
| `GoStrings.ToLowerIdentifiesCase` | store.go:49 | Two names lower-case to the same key iff they differ only in ASCII letter case. |
| `Credentials.RootCredentials` | main.go:60-63 | The split always yields two parts. With no colon, the user is the whole string and the secret is empty. With a colon, the user has no colon, and user, colon and secret give back the original. |
| `Credentials.RootCredentialsInvertJoin` | main.go:60 | Splitting `user + ":" + secret` with a colon-free user gives back exactly that user and secret, later colons included. |

## Left out

- Network I/O, the accept loop, one goroutine per connection,
  `server.NewConn` and `HandleCommand` (main.go:42-75): these are I/O and
  concurrency outside the core.
- The store's `sync.RWMutex`: the store is modelled sequentially. The lock
  only serialises whole `NewStore`/`GetDB` calls.
- The SQL parser's internals (`sqlparser.Parse`, `GetBindvars`). The
  parser's verdict and the bind-variable count are inputs.
- The engine's state. The engine is an oracle: every answer is a function
  of the handle (or data source name), the text and the arguments. The
  contents of the database files, and how one statement affects the next,
  are not modelled.
- `rows.Close()` (session.go:146): releasing the cursor has no effect in
  the model.
- `rows.Next()` stopping on an iteration error looks like the end of the
  rows. The source never checks `rows.Err()`, and the model's cursor is
  simply the sequence of rows delivered.
- The wire encoding by `mysql.BuildSimpleResultset` (session.go:189-192).
  The model returns the field names and coerced rows as the result set. In
  the library that step can still reject a row, for example one holding an
  unconverted cell.
- Floating-point values: they are opaque tokens, with no numerics.
- The `reflect` machinery: a value is a tagged union with its kind.
  `Typed(kind)` stands for every value whose concrete type is not `int64`,
  `float64`, `[]uint8` or `string`.
- Session.SessionHandler.Query: it requires every cell the switch reaches
  to pass its type assertion (session.go:173, 178, 183). The source panics
  there instead, so the panic is a precondition rather than a modelled
  outcome.
- Session.SessionHandler.HandleQuery: the methods that use the selected
  handle require one. The source would dereference a nil `*sql.DB` when the
  default database failed to open.
- GoStrings.ToLower: it lower-cases ASCII letters only. Go's
  `strings.ToLower` also maps other Unicode letters.
- `filepath.Join`, `Abs`, `Glob`, `Base` and `MkdirAll`. Join is
  `dir + "/" + name` without path cleaning. `NewStore` receives the base
  names the glob matched, so the glob's own error (a malformed pattern,
  store.go:26-29) is not modelled.
- Flag parsing and the `debug` logging in helpers.go. The options string is
  a field of the store, given at construction.
- The `context` value that `HandleStmtPrepare` returns and
  `HandleStmtExecute` receives: it is always nil and is not modelled.
