/**
 * A decoded JSON value, as Python's `json` module hands it back, together with
 * the few Python operators the question client and the workflow apply to such
 * values: `key in v`, `v[key]`, `str + v`, truthiness and `str(v)`.
 * JSON numbers are modelled as integers.
 */
module PyJson {
  import opened Wrappers

  datatype Json =
    | JNull
    | JBool(b: bool)
    | JNum(n: int)
    | JStr(s: string)
    | JArr(items: seq<Json>)
    | JObj(fields: map<string, Json>)

  /** The two exceptions a string-keyed lookup can raise. */
  datatype PyException = KeyError(key: string) | TypeError(message: string)

  /** Python's name for the type a decoded value has. */
  function TypeName(v: Json): string {
    match v
    case JNull => "NoneType"
    case JBool(_) => "bool"
    case JNum(_) => "int"
    case JStr(_) => "str"
    case JArr(_) => "list"
    case JObj(_) => "dict"
  }

  /** Python truthiness: `None`, `False`, `0` and empty containers are false. */
  predicate Truthy(v: Json) {
    match v
    case JNull => false
    case JBool(b) => b
    case JNum(n) => n != 0
    case JStr(s) => s != ""
    case JArr(items) => items != []
    case JObj(fields) => fields != map[]
  }

  /** `needle in hay` on two Python strings: substring containment. */
  predicate IsSubstring(needle: string, hay: string)
    decreases |hay|
  {
    (|needle| <= |hay| && hay[..|needle|] == needle)
    || (|hay| > 0 && IsSubstring(needle, hay[1..]))
  }

  /**
   * `key in v` for a string `key`: key membership for a dict, element equality
   * for a list, substring containment for a string; any other value raises.
   */
  function Contains(v: Json, key: string): (r: Result<bool, PyException>)
    ensures r.Failure? <==> !(v.JObj? || v.JArr? || v.JStr?)
    ensures v.JObj? ==> r == Success(key in v.fields)
    ensures r.Failure? ==> r.error.TypeError?
  {
    match v
    case JObj(fields) => Success(key in fields)
    case JArr(items) => Success(JStr(key) in items)
    case JStr(s) => Success(IsSubstring(key, s))
    case _ => Failure(TypeError("argument of type '" + TypeName(v) + "' is not iterable"))
  }

  /** `v[key]` for a string `key`: only a dict holding `key` answers. */
  function Subscript(v: Json, key: string): (r: Result<Json, PyException>)
    ensures r.Success? <==> v.JObj? && key in v.fields
    ensures r.Success? ==> r.value == v.fields[key]
    ensures r == Failure(KeyError(key)) <==> v.JObj? && key !in v.fields
  {
    match v
    case JObj(fields) =>
      if key in fields then Success(fields[key]) else Failure(KeyError(key))
    case JArr(_) => Failure(TypeError("list indices must be integers or slices, not str"))
    case JStr(_) => Failure(TypeError("string indices must be integers, not 'str'"))
    case _ => Failure(TypeError("'" + TypeName(v) + "' object is not subscriptable"))
  }

  /** `prefix + v` for a string `prefix`: only a string operand concatenates. */
  function ConcatStr(prefix: string, v: Json): (r: Result<string, PyException>)
    ensures r.Success? <==> v.JStr?
    ensures r.Success? ==> r.value == prefix + v.s
  {
    match v
    case JStr(s) => Success(prefix + s)
    case _ => Failure(TypeError("can only concatenate str (not \"" + TypeName(v) + "\") to str"))
  }

  /** `str(e)` for a caught exception; a KeyError prints its key quoted. */
  function Describe(e: PyException): string {
    match e
    case KeyError(key) => "'" + key + "'"
    case TypeError(message) => message
  }

  function DigitChar(d: nat): char
    requires d < 10
  {
    "0123456789"[d]
  }

  /** Decimal digits of a natural number, most significant first. */
  function NatToDecimal(n: nat): string
    decreases n
  {
    if n < 10 then [DigitChar(n)] else NatToDecimal(n / 10) + [DigitChar(n % 10)]
  }

  /**
   * `str(v)`, as an f-string renders a value. A list or dict is rendered as a
   * bracket pair only (see README).
   */
  function Str(v: Json): string {
    match v
    case JNull => "None"
    case JBool(b) => if b then "True" else "False"
    case JNum(n) => if n < 0 then "-" + NatToDecimal(-n) else NatToDecimal(n)
    case JStr(s) => s
    case JArr(_) => "[...]"
    case JObj(_) => "{...}"
  }
}
