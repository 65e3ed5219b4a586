/** The per-connection session adapter: it routes each statement to the read
    path, the write path or a fake acknowledgement, selects databases through
    the store, and shapes engine answers into protocol results. */
module Session {
  import opened GoBase
  import opened GoStrings
  import opened Sqlite
  import opened Coercion
  import opened DbStore

  /** The logical database a session selects when it starts. */
  const DefaultDatabase := "__default__"

  /** The catalog query that replaces every `SHOW` statement. */
  const CatalogQuery := "SELECT name FROM sqlite_master WHERE type='table'"

  const FieldListUnsupported := Failure("<field.list> not supported yet")
  const OtherUnsupported := Failure("<other> not supported yet")

  /** The statement shapes the session distinguishes. `Select` is a plain
      `SELECT` only: a `UNION`, a parenthesised select and every other
      statement type are `Other`. */
  datatype Statement = Show | Set | Select | Other

  /** The parser's verdict on a statement text: an error, or the statement's
      shape and the number of bind variables it holds. */
  datatype Parsed = ParseError(err: Error) | Parsed(stmt: Statement, bindvars: nat)

  /** A result set: column names and rows of coerced cells. */
  datatype Resultset = Resultset(fields: seq<string>, rows: seq<seq<Cell>>)

  /** `mysql.Result`: the write-path counters, or a result set. */
  datatype MyResult = MyResult(affectedRows: uint64, insertId: uint64, resultset: Option<Resultset>)

  /** Where a statement goes: the read path with a text, the write path with
      a text, or a fake acknowledgement. */
  datatype Route = ReadPath(text: string) | WritePath(text: string) | FakeAck

  /** The routing decision of `HandleQuery`. */
  function RouteOf(parsed: Parsed, query: string): (r: Route)
    ensures r.ReadPath? <==> parsed.ParseError? || parsed.stmt.Show? || parsed.stmt.Select?
    ensures r.WritePath? <==> parsed.Parsed? && parsed.stmt.Other?
    ensures r.FakeAck? <==> parsed.Parsed? && parsed.stmt.Set?
    ensures parsed.Parsed? && parsed.stmt.Show? ==> r == ReadPath(CatalogQuery)
    ensures r.ReadPath? && r.text != query ==> parsed.Parsed? && parsed.stmt.Show? && r.text == CatalogQuery
    ensures r.WritePath? ==> r.text == query
  {
    match parsed
    case ParseError(_) => ReadPath(query)
    case Parsed(Show, _) => ReadPath(CatalogQuery)
    case Parsed(Set, _) => FakeAck
    case Parsed(Select, _) => ReadPath(query)
    case Parsed(Other, _) => WritePath(query)
  }

  /** `fakeOK`: success, with nothing affected and no result set. */
  function FakeOK(query: string, args: seq<Dyn>): (r: MyResult)
    ensures r.affectedRows == 0 && r.insertId == 0 && r.resultset.None?
  {
    MyResult(0, 0, None)
  }

  /** The write path's outcome for the engine's answer to `Exec`. */
  function WriteResult(answer: ExecAnswer): (r: Result<MyResult>)
    ensures r.Err? <==> answer.ExecFailed? || answer.rowsAffected.Err? || answer.lastInsertId.Err?
    ensures r.Err? ==> r.error == (if answer.ExecFailed? then answer.err
                                   else if answer.rowsAffected.Err? then answer.rowsAffected.error
                                   else answer.lastInsertId.error)
    ensures r.Ok? ==> r.value.resultset.None?
    ensures r.Ok? ==> AsInt64(r.value.affectedRows) == answer.rowsAffected.value
    ensures r.Ok? ==> AsInt64(r.value.insertId) == answer.lastInsertId.value
  {
    match answer
    case ExecFailed(e) => Err(e)
    case Executed(rows, lastID) =>
      if rows.Err? then Err(rows.error)
      else if lastID.Err? then Err(lastID.error)
      else
        AsUint64RoundTrip(rows.value);
        AsUint64RoundTrip(lastID.value);
        Ok(MyResult(AsUint64(rows.value), AsUint64(lastID.value), None))
  }

  /** `rows.Scan` rejects the row: the driver failed, or the row does not
      have one value per column. */
  predicate ScanFails(fields: seq<string>, scan: RowScan) {
    scan.ScanFailed? || |scan.cells| != |fields|
  }

  function ScanError(fields: seq<string>, scan: RowScan): Error
    requires ScanFails(fields, scan)
  {
    if scan.ScanFailed? then scan.err else ScanArity(|scan.cells|, |fields|)
  }

  /** No cell of a row that scans successfully makes the type switch panic. */
  predicate RowCoercible(fields: seq<string>, scan: RowScan) {
    !ScanFails(fields, scan) ==> forall i :: 0 <= i < |scan.cells| ==> NoPanic(scan.cells[i])
  }

  /** The rows the read path reaches, up to the first that fails to scan,
      can all be coerced. */
  predicate ScansCoercible(fields: seq<string>, scans: seq<RowScan>)
    decreases |scans|
  {
    scans == [] ||
    (RowCoercible(fields, scans[0]) && (ScanFails(fields, scans[0]) || ScansCoercible(fields, scans[1..])))
  }

  /** The engine's answer to a read can be shaped without a panic. */
  predicate Coercible(answer: QueryAnswer) {
    answer.Cursor? && answer.columns.Ok? ==> ScansCoercible(answer.columns.value, answer.rows)
  }

  /** The rows of a result set: each scanned row coerced, in scan order, or
      the error of the first row that fails to scan. */
  function BuildRows(fields: seq<string>, scans: seq<RowScan>): Result<seq<seq<Cell>>>
    requires ScansCoercible(fields, scans)
    decreases |scans|
  {
    if scans == [] then Ok([])
    else if ScanFails(fields, scans[0]) then Err(ScanError(fields, scans[0]))
    else Combine([CoerceRow(scans[0].cells)], BuildRows(fields, scans[1..]))
  }

  /** Building succeeds exactly when every row scans; then there is one row
      per scan, in scan order, each with one cell per field. */
  lemma {:induction false} BuildRowsShape(fields: seq<string>, scans: seq<RowScan>)
    requires ScansCoercible(fields, scans)
    ensures BuildRows(fields, scans).Ok? <==> forall k :: 0 <= k < |scans| ==> !ScanFails(fields, scans[k])
    ensures BuildRows(fields, scans).Ok? ==>
              var rows := BuildRows(fields, scans).value;
              && |rows| == |scans|
              && forall k :: 0 <= k < |scans| ==>
                   |rows[k]| == |fields| && RowCoercible(fields, scans[k]) && rows[k] == CoerceRow(scans[k].cells)
    decreases |scans|
  {
    if scans != [] && !ScanFails(fields, scans[0]) {
      BuildRowsShape(fields, scans[1..]);
      assert forall k :: 1 <= k < |scans| ==> scans[k] == scans[1..][k - 1];
    }
  }

  /** A failed build reports the error of the first row that fails to scan. */
  lemma {:induction false} BuildRowsFirstError(fields: seq<string>, scans: seq<RowScan>)
    requires ScansCoercible(fields, scans)
    requires BuildRows(fields, scans).Err?
    ensures exists k :: 0 <= k < |scans| && ScanFails(fields, scans[k])
              && (forall j :: 0 <= j < k ==> !ScanFails(fields, scans[j]))
              && BuildRows(fields, scans).error == ScanError(fields, scans[k])
    decreases |scans|
  {
    if !ScanFails(fields, scans[0]) {
      BuildRowsFirstError(fields, scans[1..]);
      var k :| 0 <= k < |scans[1..]| && ScanFails(fields, scans[1..][k])
                && (forall j :: 0 <= j < k ==> !ScanFails(fields, scans[1..][j]))
                && BuildRows(fields, scans[1..]).error == ScanError(fields, scans[1..][k]);
      assert forall j :: 1 <= j < k + 1 ==> scans[j] == scans[1..][j - 1];
      assert ScanFails(fields, scans[k + 1]);
    } else {
      assert ScanFails(fields, scans[0]);
    }
  }

  /** The read path's outcome for the engine's answer to `Query`. */
  function ReadResult(answer: QueryAnswer): (r: Result<MyResult>)
    requires Coercible(answer)
    ensures r.Ok? ==> r.value.affectedRows == 0 && r.value.insertId == 0 && r.value.resultset.Some?
    ensures answer.QueryFailed? ==> r == Err(answer.err)
    ensures answer.Cursor? && answer.columns.Err? ==> r == Err(answer.columns.error)
    ensures answer.Cursor? && answer.columns.Ok? && BuildRows(answer.columns.value, answer.rows).Err? ==>
              r == Err(BuildRows(answer.columns.value, answer.rows).error)
    ensures r.Ok? <==> answer.Cursor? && answer.columns.Ok? && BuildRows(answer.columns.value, answer.rows).Ok?
    ensures r.Ok? ==> r.value.resultset.value == Resultset(answer.columns.value, BuildRows(answer.columns.value, answer.rows).value)
  {
    match answer
    case QueryFailed(e) => Err(e)
    case Cursor(columns, scans) =>
      if columns.Err? then Err(columns.error)
      else
        match BuildRows(columns.value, scans)
        case Err(e) => Err(e)
        case Ok(rows) => Ok(MyResult(0, 0, Some(Resultset(columns.value, rows))))
  }

  /** Every row of a successful read has exactly one cell per column. */
  lemma ReadRowsMatchFields(answer: QueryAnswer)
    requires Coercible(answer) && ReadResult(answer).Ok?
    ensures var rs := ReadResult(answer).value.resultset.value;
            forall row :: row in rs.rows ==> |row| == |rs.fields|
  {
    BuildRowsShape(answer.columns.value, answer.rows);
  }

  class SessionHandler {
    const store: Store
    /** The handle of the selected database; nil until a selection succeeds. */
    var db: Handle?
    var currentdb: string

    /** `NewSessionHandler`: binds the store and selects the default
        database, ignoring a failure to open it. */
    constructor (s: Store, eng: Engine)
      requires s.Valid()
      modifies s
      ensures store == s && s.Valid() && Grows(old(s.databases), s.databases)
      ensures currentdb == DefaultDatabase
      ensures db != null <==> DefaultDatabase + ".db" in old(s.databases)
                              || eng.open(Dsn(Join(s.basedir, DefaultDatabase + ".db"), s.options)).None?
      ensures db != null ==> DefaultDatabase + ".db" in s.databases && db == s.databases[DefaultDatabase + ".db"]
      ensures db != null ==> s.databases == old(s.databases)[DefaultDatabase + ".db" := db]
      ensures db != null && DefaultDatabase + ".db" !in old(s.databases) ==>
                fresh(db) && db.dsn == Dsn(Join(s.basedir, DefaultDatabase + ".db"), s.options)
      ensures db == null ==> s.databases == old(s.databases)
    {
      store := s;
      db := null;
      currentdb := "";
      new;
      DefaultIsLower();
      var _ := UseDB(DefaultDatabase, eng);
    }

    /** `UseDB`: records the lower-cased name, then asks the store for
        `name + ".db"`; only on success does the handle change. */
    method UseDB(dbname: string, eng: Engine) returns (err: Option<Error>)
      requires store.Valid()
      modifies this, store
      ensures store.Valid() && Grows(old(store.databases), store.databases)
      ensures currentdb == ToLower(dbname)
      ensures err.None? <==> ToLower(dbname) + ".db" in old(store.databases)
                             || eng.open(Dsn(Join(store.basedir, ToLower(dbname) + ".db"), store.options)).None?
      ensures err.None? ==> ToLower(dbname) + ".db" in store.databases
                            && db == store.databases[ToLower(dbname) + ".db"]
      ensures err.None? ==> store.databases == old(store.databases)[ToLower(dbname) + ".db" := db]
      ensures err.None? && ToLower(dbname) + ".db" !in old(store.databases) ==>
                fresh(db) && db.dsn == Dsn(Join(store.basedir, ToLower(dbname) + ".db"), store.options)
      ensures err.Some? ==> err == eng.open(Dsn(Join(store.basedir, ToLower(dbname) + ".db"), store.options))
      ensures err.Some? ==> db == old(db) && store.databases == old(store.databases)
    {
      var name := ToLower(dbname);
      currentdb := name;
      ToLowerIdempotent(dbname);
      ToLowerAppend(name, ".db");
      ExtensionIsLower();
      var r := store.GetDB(name + ".db", eng);
      if r.Err? {
        return Some(r.error);
      }
      db := r.value;
      currentdb := name;
      return None;
    }

    /** The path a routed statement may take: a fake acknowledgement always,
        the write path with a selected database, the read path with a
        selected database whose answer can be coerced. */
    predicate CanServe(route: Route, eng: Engine)
      reads this
    {
      match route
      case FakeAck => true
      case WritePath(_) => db != null
      case ReadPath(text) => db != null && Coercible(eng.query(db, text, []))
    }

    /** `HandleQuery`: routes the statement by its parsed shape. */
    method HandleQuery(query: string, parsed: Parsed, eng: Engine) returns (r: Result<MyResult>)
      requires CanServe(RouteOf(parsed, query), eng)
      ensures parsed.ParseError? ==> r == ReadResult(eng.query(db, query, []))
      ensures parsed.Parsed? && parsed.stmt.Show? ==> r == ReadResult(eng.query(db, CatalogQuery, []))
      ensures parsed.Parsed? && parsed.stmt.Set? ==> r == Ok(FakeOK(query, []))
      ensures parsed.Parsed? && parsed.stmt.Select? ==> r == ReadResult(eng.query(db, query, []))
      ensures parsed.Parsed? && parsed.stmt.Other? ==> r == WriteResult(eng.exec(db, query, []))
    {
      match RouteOf(parsed, query)
      case ReadPath(text) => r := Query(text, [], eng);
      case WritePath(text) => r := Exec(text, [], eng);
      case FakeAck => r := Ok(FakeOK(query, []));
    }

    /** `HandleFieldList`: not supported. */
    function HandleFieldList(table: string, fieldWildcard: string): (r: Result<seq<string>>)
      ensures r == Err(FieldListUnsupported)
    {
      Err(FieldListUnsupported)
    }

    /** `HandleStmtPrepare`: parses the statement, checks the engine can
        prepare it, and reports its bind-variable count as both the parameter
        and the column count. */
    method HandleStmtPrepare(query: string, parsed: Parsed, eng: Engine) returns (params: int, columns: int, err: Option<Error>)
      requires parsed.Parsed? ==> db != null
      ensures parsed.ParseError? ==> err == Some(parsed.err)
      ensures parsed.Parsed? ==> err == eng.prepare(db, query)
      ensures err.Some? ==> params == 0 && columns == 0
      ensures err.None? ==> parsed.Parsed? && params == parsed.bindvars && columns == parsed.bindvars
    {
      if parsed.ParseError? {
        return 0, 0, Some(parsed.err);
      }
      var refused := eng.prepare(db, query);
      if refused.Some? {
        return 0, 0, refused;
      }
      return parsed.bindvars, parsed.bindvars, None;
    }

    /** `HandleStmtExecute`: every prepared statement takes the write path. */
    method HandleStmtExecute(query: string, args: seq<Dyn>, eng: Engine) returns (r: Result<MyResult>)
      requires db != null
      ensures r == WriteResult(eng.exec(db, query, args))
    {
      r := Exec(query, args, eng);
    }

    /** `HandleStmtClose`: closing a prepared statement never fails. */
    function HandleStmtClose(): (err: Option<Error>)
      ensures err.None?
    {
      None
    }

    /** `HandleOtherCommand`: not supported, whatever the command. */
    function HandleOtherCommand(cmd: byte, data: seq<byte>): (err: Option<Error>)
      ensures err == Some(OtherUnsupported)
    {
      Some(OtherUnsupported)
    }

    /** `exec`: runs a statement that writes, and reports the affected-row
        count and the last inserted id. */
    method Exec(query: string, args: seq<Dyn>, eng: Engine) returns (r: Result<MyResult>)
      requires db != null
      ensures r == WriteResult(eng.exec(db, query, args))
    {
      var result := eng.exec(db, query, args);
      if result.ExecFailed? {
        return Err(result.err);
      }
      var rows := result.rowsAffected;
      if rows.Err? {
        return Err(rows.error);
      }
      var lastID := result.lastInsertId;
      if lastID.Err? {
        return Err(lastID.error);
      }
      return Ok(MyResult(AsUint64(rows.value), AsUint64(lastID.value), None));
    }

    /** `query`: runs a statement that reads, scans every row into one
        destination per column, coerces each cell in place and collects the
        rows in scan order. */
    method Query(query: string, args: seq<Dyn>, eng: Engine) returns (r: Result<MyResult>)
      requires db != null && Coercible(eng.query(db, query, args))
      ensures r == ReadResult(eng.query(db, query, args))
    {
      var answer := eng.query(db, query, args);
      if answer.QueryFailed? {
        return Err(answer.err);
      }
      if answer.columns.Err? {
        return Err(answer.columns.error);
      }
      var fields := answer.columns.value;
      var scans := answer.rows;
      var values: seq<seq<Cell>> := [];
      var k := 0;
      assert scans[k..] == scans;
      CombineEmpty(BuildRows(fields, scans));
      while k < |scans|
        invariant 0 <= k <= |scans|
        invariant ScansCoercible(fields, scans[k..])
        invariant BuildRows(fields, scans) == Combine(values, BuildRows(fields, scans[k..]))
      {
        var scan := scans[k];
        if ScanFails(fields, scan) {
          FailedScanStops(fields, scans, k);
          return Err(ScanError(fields, scan));
        }
        var row := ScanInto(fields, scan);
        ScannedRowStep(fields, scans, k, values);
        values := values + [row];
        k := k + 1;
      }
      assert scans[k..] == [] && values + [] == values;
      return Ok(MyResult(0, 0, Some(Resultset(fields, values))));
    }
  }

  /** One row of the read loop: a fresh array of one destination per column,
      each cell then coerced in place. */
  method ScanInto(fields: seq<string>, scan: RowScan) returns (row: seq<Cell>)
    requires !ScanFails(fields, scan) && RowCoercible(fields, scan)
    ensures row == CoerceRow(scan.cells)
  {
    var dest := new Cell[|fields|];
    for i := 0 to |fields|
      invariant forall j :: 0 <= j < i ==> dest[j] == Coerce(scan.cells[j])
    {
      dest[i] := Coerce(scan.cells[i]);
    }
    row := dest[..];
  }

  /** A row that fails to scan ends the read with its error. */
  lemma FailedScanStops(fields: seq<string>, scans: seq<RowScan>, k: nat)
    requires k < |scans| && ScansCoercible(fields, scans[k..]) && ScanFails(fields, scans[k])
    ensures BuildRows(fields, scans[k..]) == Err(ScanError(fields, scans[k]))
  {
    assert scans[k..][0] == scans[k];
  }

  /** A row that scans is followed by the rows after it. */
  lemma ScannedRowStep(fields: seq<string>, scans: seq<RowScan>, k: nat, values: seq<seq<Cell>>)
    requires k < |scans| && ScansCoercible(fields, scans[k..]) && !ScanFails(fields, scans[k])
    ensures RowCoercible(fields, scans[k]) && ScansCoercible(fields, scans[k + 1..])
    ensures Combine(values, BuildRows(fields, scans[k..]))
            == Combine(values + [CoerceRow(scans[k].cells)], BuildRows(fields, scans[k + 1..]))
  {
    assert scans[k..][0] == scans[k] && scans[k..][1..] == scans[k + 1..];
    CombineAppend(values, CoerceRow(scans[k].cells), BuildRows(fields, scans[k + 1..]));
  }

  /** `rows` followed by the outcome for the remaining scans. */
  function Combine(rows: seq<seq<Cell>>, rest: Result<seq<seq<Cell>>>): Result<seq<seq<Cell>>> {
    match rest
    case Ok(more) => Ok(rows + more)
    case Err(e) => Err(e)
  }

  lemma CombineEmpty(rest: Result<seq<seq<Cell>>>)
    ensures Combine([], rest) == rest
  {
    if rest.Ok? {
      assert [] + rest.value == rest.value;
    }
  }

  lemma CombineAppend(rows: seq<seq<Cell>>, row: seq<Cell>, rest: Result<seq<seq<Cell>>>)
    ensures Combine(rows, Combine([row], rest)) == Combine(rows + [row], rest)
  {
    if rest.Ok? {
      assert rows + ([row] + rest.value) == rows + [row] + rest.value;
    }
  }

  lemma DefaultIsLower()
    ensures ToLower(DefaultDatabase) == DefaultDatabase
  {
  }
}
