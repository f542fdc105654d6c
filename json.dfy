/**
 * Decoded JSON as the handlers see it: a record is a dictionary from field
 * name to a scalar value. Nested arrays and objects do not occur in the
 * weather records and are not modelled.
 */
module Json {

  import opened Text

  newtype byte = x: int | 0 <= x < 256

  /** Raw object bodies, stream payloads and CSV output. */
  type Bytes = seq<byte>

  datatype Value = Null | Bool(b: bool) | Num(n: int) | Str(s: string)

  type Record = map<string, Value>

  /** A cell pandas treats as not missing: the field exists and is not JSON null. */
  predicate Present(r: Record, field: string)
  {
    field in r && r[field] != Null
  }

  /** Python's str() of a value, which is what an f-string interpolates. */
  function Show(v: Value): string
  {
    match v
    case Null => "None"
    case Bool(b) => if b then "True" else "False"
    case Num(n) => Decimal(n)
    case Str(s) => s
  }
}
