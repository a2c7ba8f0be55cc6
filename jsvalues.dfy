/**
 * JavaScript object records as the forms hold them: a map from field name to
 * a value, where a missing key reads as `undefined`. Object spreads, `[name]:
 * value` updates and `const { _id, ...rest } = obj` are map operations.
 */
module JsValues {
  import opened Optional
  import opened Text

  /** The browser `File` object's fields that the profile form inspects. */
  datatype FileInfo = FileInfo(name: string, size: nat, mimeType: string)

  /** The values a form field can hold. Numbers are integers (prices in whole units). */
  datatype Value = Undefined | Str(s: string) | Num(n: int) | FileRef(file: FileInfo)

  type Record = map<string, Value>

  /** `obj[k]`. */
  function Get(r: Record, k: string): Value {
    if k in r then r[k] else Undefined
  }

  /** `!!v`: JavaScript truthiness. */
  predicate Truthy(v: Value) {
    match v
    case Undefined => false
    case Str(s) => s != ""
    case Num(n) => n != 0
    case FileRef(_) => true
  }

  /** `Number(s)` for optionally negated decimal integers; None is `NaN`. */
  function StringToNumber(s: string): (r: Option<int>)
    ensures s == "" ==> r == Some(0)
    ensures s != "" && AllDigits(s) ==> r == Some(DigitsValue(s))
  {
    if s == "" then Some(0)
    else if AllDigits(s) then Some(DigitsValue(s))
    else if |s| > 1 && s[0] == '-' && AllDigits(s[1..]) then Some(0 - DigitsValue(s[1..]) as int)
    else None
  }

  /** `v <= 0` after JavaScript's coercion to number; a comparison with `NaN` is false. */
  predicate AtMostZero(v: Value) {
    match v
    case Undefined => false
    case Str(s) => StringToNumber(s).Some? && StringToNumber(s).value <= 0
    case Num(n) => n <= 0
    case FileRef(_) => false
  }

  /** An optional string as it lands in a record: missing is `undefined`. */
  function FromOption(o: Option<string>): Value {
    match o
    case Some(s) => Str(s)
    case None => Undefined
  }

  /** `{ ...r, [name]: v }`: the named field set, every other field as it was. */
  function SetField(r: Record, name: string, v: Value): (u: Record)
    ensures u.Keys == r.Keys + {name}
    ensures Get(u, name) == v
    ensures forall k :: k != name ==> Get(u, k) == Get(r, k)
  {
    r[name := v]
  }

  /** `const { key, ...rest } = r`: `rest` is every other field, unchanged. */
  function Without(r: Record, key: string): (u: Record)
    ensures u.Keys == r.Keys - {key}
    ensures Get(u, key) == Undefined
    ensures forall k :: k != key ==> Get(u, k) == Get(r, k)
  {
    r - {key}
  }

  /** A value interpolated into a URL path. */
  function PathText(v: Value): string {
    match v
    case Str(s) => s
    case Undefined => "undefined"
    case Num(n) => if n >= 0 then NatToString(n) else "-" + NatToString(-n)
    case FileRef(_) => "[object File]"
  }

  /** A `PUT` a page sends: the path under the API host and the JSON body, if any. */
  datatype PutRequest = PutRequest(path: string, body: Option<Record>)
}
