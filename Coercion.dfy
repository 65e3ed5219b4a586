/** The per-cell type switch of the read path: every scanned value becomes
    one of the value kinds the wire encoder accepts. */
module Coercion {
  import opened GoBase
  import opened Sqlite

  /** A cell of a result row. `Unconverted` is a scan destination the switch
      left in place: it still holds the scanned value. */
  datatype Cell =
    | Null
    | Int64Cell(i: int64)
    | Float64Cell(f: Float)
    | Text(s: seq<byte>)
    | Unconverted(d: Dyn)

  predicate IsIntKind(k: Kind) { k == IntK || k == Int32K || k == Int64K }
  predicate IsFloatKind(k: Kind) { k == Float32K || k == Float64K }
  predicate IsByteSliceKind(k: Kind) { k.SliceK? && (k.elem == UintK || k.elem == Uint8K) }

  /** The type assertion the switch makes for `d` succeeds: for integer kinds
      `.(int64)`, for float kinds `.(float64)`, for a slice of `uint` or
      `uint8` `.([]uint8)`, for every other non-slice kind `.(string)`. A value
      for which it fails makes the session panic. */
  predicate NoPanic(d: Dyn) {
    d.Nil? ||
    var k := KindOf(d);
    if IsIntKind(k) then d.Int64Val?
    else if IsFloatKind(k) then d.Float64Val?
    else if k.SliceK? then IsByteSliceKind(k) ==> d.Bytes?
    else d.Str?
  }

  /** The coercion of one scanned value, decided by its kind as the switch does. */
  function Coerce(d: Dyn): (c: Cell)
    requires NoPanic(d)
    ensures c.Null? <==> d.Nil?
    ensures d.Int64Val? ==> c == Int64Cell(d.i)
    ensures d.Float64Val? ==> c == Float64Cell(d.f)
    ensures d.Bytes? ==> c == Text(d.b)
    ensures d.Str? ==> c == Text(d.s)
    ensures d.Typed? ==> c == Unconverted(d)
  {
    if d.Nil? then Null
    else
      var k := KindOf(d);
      if IsIntKind(k) then Int64Cell(d.i)
      else if IsFloatKind(k) then Float64Cell(d.f)
      else if k.SliceK? then (if IsByteSliceKind(k) then Text(d.b) else Unconverted(d))
      else Text(d.s)
  }

  /** A value of a type other than the four predeclared ones survives the
      switch only when it is a slice whose elements are neither `uint` nor
      `uint8`; an `int32`, `int`, `float32`, `bool`, `[]uint` or struct value
      makes the type assertion fail. */
  lemma TypedSurvivesOnlyAsOtherSlice(k: Kind)
    ensures NoPanic(Typed(k)) <==> k.SliceK? && k.elem != UintK && k.elem != Uint8K
  {
  }

  /** Coercing a whole scanned row, cell by cell. */
  function CoerceRow(cells: seq<Dyn>): (row: seq<Cell>)
    requires forall i :: 0 <= i < |cells| ==> NoPanic(cells[i])
  {
    seq(|cells|, i requires 0 <= i < |cells| => Coerce(cells[i]))
  }
}
