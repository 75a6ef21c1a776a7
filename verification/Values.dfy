/** The JSON-like values that cross the runtime's boundaries, and the Python conversions
    the runtime applies to them. */
module Values {

  datatype Option<+T> = None | Some(value: T)

  /** A Python value as the runtime sees it. `Other` is any object that is none of the
      exact built-in types; `text` is what `str()` gives for it. */
  datatype Value =
    | Null
    | Bool(b: bool)
    | Int(n: int)
    | Str(s: string)
    | List(items: seq<Value>)
    | Dict(fields: Mapping)
    | Other(text: string)

  type Mapping = map<string, Value>

  /** `m.get(key)`. */
  function Get(m: Mapping, key: string): Value {
    if key in m then m[key] else Null
  }

  /** Python truth value. */
  predicate Truthy(v: Value) {
    match v
    case Null => false
    case Bool(b) => b
    case Int(n) => n != 0
    case Str(s) => s != ""
    case List(items) => items != []
    case Dict(fields) => fields != map[]
    case Other(_) => true
  }

  /** The decimal digits of a natural number, as JSON and `str()` write them. */
  function Decimal(n: nat): (s: string)
    ensures |s| >= 1
  {
    if n < 10 then [('0' as int + n) as char]
    else Decimal(n / 10) + [('0' as int + n % 10) as char]
  }

  function DecimalInt(n: int): string {
    if n < 0 then "-" + Decimal(-n) else Decimal(n)
  }

  /** `str(value or "")`. The rendering of a non-empty list or mapping is left as a fixed
      text that no digest and no identifier equals. */
  function TextOr(v: Value): string {
    match v
    case Null => ""
    case Bool(b) => if b then "True" else ""
    case Int(n) => if n == 0 then "" else DecimalInt(n)
    case Str(s) => s
    case List(items) => if items == [] then "" else "[...]"
    case Dict(fields) => if fields == map[] then "" else "{...}"
    case Other(t) => t
  }

  predicate IsSpace(c: char) {
    c == ' ' || 9 <= c as int <= 13 || 28 <= c as int <= 31 || c as int == 0x85 || c as int == 0xA0
  }

  function StripLeft(s: string): string {
    if s != "" && IsSpace(s[0]) then StripLeft(s[1..]) else s
  }

  function StripRight(s: string): string {
    if s != "" && IsSpace(s[|s| - 1]) then StripRight(s[..|s| - 1]) else s
  }

  /** `text.strip()`. */
  function Strip(s: string): string {
    StripRight(StripLeft(s))
  }

  lemma {:induction false} StripOfUnpadded(s: string)
    requires s != "" && !IsSpace(s[0]) && !IsSpace(s[|s| - 1])
    ensures Strip(s) == s
  {
  }
}
