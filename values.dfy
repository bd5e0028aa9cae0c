/** The cell values a database driver hands back, and Python's `str()` of them. */
module Values {
  import opened Wrappers
  import opened Strings

  /** `Uuid`, `Bytes` (a `bytea` column arrives as a `memoryview`) and `Float`
      are the objects that have a `.hex` attribute; each carries the text its
      `str()` gives. `Opaque` is any other driver object (a `Decimal`, a
      `datetime`, ...): `display` is its `str()`, or `None` when that raises. */
  datatype Value =
    | Null
    | Boolean(b: bool)
    | Integer(i: int)
    | Str(s: string)
    | Uuid(uuidText: string)
    | Bytes(bytesText: string)
    | Float(floatText: string)
    | Opaque(display: Option<string>)

  /** `hasattr(v, 'hex')`. */
  predicate HasHex(v: Value)
    ensures HasHex(v) ==> Display(v).Some?
  {
    v.Uuid? || v.Bytes? || v.Float?
  }

  /** `str(v)`, or `None` when it raises. */
  function Display(v: Value): (r: Option<string>)
    ensures r.None? ==> v.Opaque?
    ensures v.Str? ==> r == Some(v.s)
  {
    match v
    case Null => Some("None")
    case Boolean(b) => Some(if b then "True" else "False")
    case Integer(i) => Some(IntToString(i))
    case Str(s) => Some(s)
    case Uuid(t) => Some(t)
    case Bytes(t) => Some(t)
    case Float(t) => Some(t)
    case Opaque(d) => d
  }
}
