/**
 * Plain values shared by the whole model: database cells, the duck-typed
 * instrument and timeframe records, prices that may be NaN, and time.
 */
module Models {
  /** Seconds since the Unix epoch; Python datetime arithmetic is exact, and so are reals. */
  type Time = real

  /** A value read from a database column or an object attribute; `NullCell` is Python's None. */
  datatype Cell = IntCell(i: int) | TextCell(s: string) | NullCell

  /** Python truthiness of a cell: 0, "" and None are false. */
  predicate Truthy(c: Cell) {
    match c
    case IntCell(i) => i != 0
    case TextCell(s) => s != []
    case NullCell => false
  }

  /** Python's `a or b`: the first operand when it is truthy, else the second. */
  function Or(a: Cell, b: Cell): Cell {
    if Truthy(a) then a else b
  }

  /**
   * A timeframe as callers see it: either a tuple row straight from the
   * driver, or an object whose attributes are looked up by name.
   */
  datatype Obj = TupleObj(items: seq<Cell>) | RecordObj(attrs: map<string, Cell>)

  /** `hasattr(o, name)`. */
  predicate HasAttr(o: Obj, name: string) {
    o.RecordObj? && name in o.attrs
  }

  /** `getattr(o, name, None)`. */
  function GetAttr(o: Obj, name: string): Cell {
    if HasAttr(o, name) then o.attrs[name] else NullCell
  }

  /** An instrument row: `Instrument(id, symbol)`. */
  datatype Instrument = Instrument(id: int, symbol: string)

  /**
   * `Timeframe(id, name)`: the constructor stores the same name under
   * `interval_name`, `name` and `timeframe_name`.
   */
  function TimeframeRecord(id: Cell, name: Cell): (tf: Obj)
    ensures HasAttr(tf, "id") && GetAttr(tf, "id") == id
    ensures forall a :: a in ["interval_name", "name", "timeframe_name"] ==> HasAttr(tf, a) && GetAttr(tf, a) == name
  {
    RecordObj(map["id" := id, "interval_name" := name, "name" := name, "timeframe_name" := name])
  }

  /** A float as pandas stores it: a number or NaN. */
  datatype Num = Val(v: real) | NaN

  /** Python `a >= b` on floats: false whenever either side is NaN. */
  predicate GreaterOrEqual(a: Num, b: Num) {
    a.Val? && b.Val? && a.v >= b.v
  }
}
