/** The embedded engine as the core sees it through Go's `database/sql`:
    handles, the dynamically typed values a scan produces, and an oracle that
    answers every engine call. */
module Sqlite {
  import opened GoBase

  /** An open `*sql.DB`. Identity matters (the store hands out the same handle
      again), so a handle is an object; it remembers the data source name it
      was opened with. */
  class Handle {
    const dsn: string

    constructor (dsn: string)
      ensures this.dsn == dsn
    {
      this.dsn := dsn;
    }
  }

  /** A 64-bit floating-point value, carried as an opaque token. */
  datatype Float = Float(token: nat)

  /** The `reflect.Kind` of a Go value. */
  datatype Kind =
    | BoolK | IntK | Int8K | Int16K | Int32K | Int64K
    | UintK | Uint8K | Uint16K | Uint32K | Uint64K
    | Float32K | Float64K | StringK | SliceK(elem: Kind) | StructK | OtherK

  /** The dynamic value held in a scanned `interface{}` cell: nil, a value of
      one of the predeclared types `int64`, `float64`, `[]uint8` and `string`,
      or a value of any other concrete type, known only by its kind (an
      `int32`, a `bool`, a `time.Time`, a `[]uint`, a named type, ...). */
  datatype Dyn =
    | Nil
    | Int64Val(i: int64)
    | Float64Val(f: Float)
    | Bytes(b: seq<byte>)
    | Str(s: seq<byte>)
    | Typed(kind: Kind)

  /** `reflect.TypeOf(v).Kind()` for a non-nil value. */
  function KindOf(d: Dyn): Kind
    requires !d.Nil?
  {
    match d
    case Int64Val(_) => Int64K
    case Float64Val(_) => Float64K
    case Bytes(_) => SliceK(Uint8K)
    case Str(_) => StringK
    case Typed(k) => k
  }

  /** What `result.Exec` reports: the call failed, or it ran and the two
      follow-up queries `RowsAffected` and `LastInsertId` may each fail. */
  datatype ExecAnswer =
    | ExecFailed(err: Error)
    | Executed(rowsAffected: Result<int64>, lastInsertId: Result<int64>)

  /** One step of `rows.Next()` / `rows.Scan`: the driver's row, or a scan error. */
  datatype RowScan = ScanFailed(err: Error) | Scanned(cells: seq<Dyn>)

  /** What `db.Query` reports: the call failed, or a cursor whose `Columns()`
      may fail and whose rows are delivered in order. */
  datatype QueryAnswer =
    | QueryFailed(err: Error)
    | Cursor(columns: Result<seq<string>>, rows: seq<RowScan>)

  /** The engine's answers to every call the core makes. `open` and `ping`
      answer for a data source name; `exec`, `query` and `prepare` for a
      statement text with its arguments on a handle. */
  datatype Engine = Engine(
    open: string -> Option<Error>,
    ping: string -> Option<Error>,
    exec: (Handle, string, seq<Dyn>) -> ExecAnswer,
    query: (Handle, string, seq<Dyn>) -> QueryAnswer,
    prepare: (Handle, string) -> Option<Error>)
}
