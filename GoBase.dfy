/** Value types shared by the whole model: Go's error returns, its fixed-width
    integers and bytes. */
module GoBase {

  /** An error value as returned by Go code. Errors coming from the embedded
      engine are opaque; the two kinds the model builds itself are named. */
  datatype Error =
    | Failure(msg: string)                   // any error with a fixed message
    | ScanArity(expected: nat, got: nat)     // database/sql: Scan given the wrong number of destinations

  datatype Option<+T> = None | Some(value: T)

  /** A Go `(value, error)` pair where exactly one half is meaningful. */
  datatype Result<+T> = Ok(value: T) | Err(error: Error)

  newtype byte = x: int | 0 <= x < 0x100

  type int64 = x: int | -0x8000_0000_0000_0000 <= x < 0x8000_0000_0000_0000
  type uint64 = x: int | 0 <= x < 0x1_0000_0000_0000_0000

  /** Go's conversion `uint64(x)` of an int64: the same 64 bits read as unsigned. */
  function AsUint64(x: int64): (u: uint64)
    ensures x >= 0 ==> u == x
    ensures u >= 0x8000_0000_0000_0000 <==> x < 0
  {
    if x < 0 then x + 0x1_0000_0000_0000_0000 else x
  }

  /** Go's conversion `int64(u)` of a uint64: the inverse reinterpretation. */
  function AsInt64(u: uint64): (x: int64)
    ensures u < 0x8000_0000_0000_0000 ==> x == u
  {
    if u >= 0x8000_0000_0000_0000 then u - 0x1_0000_0000_0000_0000 else u
  }

  /** Reinterpreting the bits as unsigned loses nothing: converting back gives
      the original signed value. */
  lemma AsUint64RoundTrip(x: int64)
    ensures AsInt64(AsUint64(x)) == x
  {
  }
}
