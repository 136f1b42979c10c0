/** JSON values as the Python code sees them after `json.loads`, together with the
    three Python built-ins the scripts apply to them: truthiness (`if not data`),
    `dict.get` with a default, and `str()` as used by f-string interpolation. */
module JsonValue {

  datatype Option<+T> = None | Some(value: T) {
    function GetOr(default: T): T {
      match this
      case Some(v) => v
      case None => default
    }
  }

  /** A decoded JSON document. `JNull` is also Python's `None`: `json.loads` maps
      `null` to `None`, so the scripts cannot tell the two apart either.
      Numbers are integers only (floating point is not part of this model). */
  datatype JVal =
    | JNull
    | JBool(b: bool)
    | JNum(n: int)
    | JStr(s: string)
    | JArr(items: seq<JVal>)
    | JObj(fields: map<string, JVal>)

  /** `json.loads` is library code: every decoder takes it as a parameter.
      `None` stands for a raised `JSONDecodeError`. */
  type Parser = string -> Option<JVal>

  /** Python truthiness of a decoded value. */
  predicate Truthy(v: JVal)
  {
    match v
    case JNull => false
    case JBool(b) => b
    case JNum(n) => n != 0
    case JStr(s) => |s| > 0
    case JArr(items) => |items| > 0
    case JObj(fields) => |fields| > 0
  }

  /** Python's falsy values, listed the way the language reference lists them:
      None, False, zero, and the empty string, list and dict. */
  lemma FalsyValues(v: JVal)
    ensures !Truthy(v) <==> v in {JNull, JBool(false), JNum(0), JStr(""), JArr([]), JObj(map[])}
  {
    match v
    case JObj(fields) =>
      if |fields| == 0 {
        assert fields == map[];
      }
    case _ =>
  }

  /** `obj.get(key, default)` on a dict. */
  function Get(obj: JVal, key: string, default: JVal): JVal
    requires obj.JObj?
  {
    if key in obj.fields then obj.fields[key] else default
  }

  /** Values that an f-string can render without falling back to `repr`
      of a list or dict. */
  predicate IsScalar(v: JVal)
  {
    v.JNull? || v.JBool? || v.JNum? || v.JStr?
  }

  /** A field that is absent or holds a scalar. */
  predicate ScalarOrAbsent(obj: JVal, key: string)
    requires obj.JObj?
  {
    key !in obj.fields || IsScalar(obj.fields[key])
  }

  /** A field that is absent or holds a string. */
  predicate StrOrAbsent(obj: JVal, key: string)
    requires obj.JObj?
  {
    key !in obj.fields || obj.fields[key].JStr?
  }

  predicate AllScalar(vs: seq<JVal>)
  {
    forall i :: 0 <= i < |vs| ==> IsScalar(vs[i])
  }

  predicate AllStr(vs: seq<JVal>)
  {
    forall i :: 0 <= i < |vs| ==> vs[i].JStr?
  }

  predicate AllObj(vs: seq<JVal>)
  {
    forall i :: 0 <= i < |vs| ==> vs[i].JObj?
  }

  /** A field that is absent or holds a list. */
  predicate ListOrAbsent(obj: JVal, key: string)
    requires obj.JObj?
  {
    key !in obj.fields || obj.fields[key].JArr?
  }

  /** `obj.get(key, [])` iterated: the items of a list field, empty when absent. */
  function ListField(obj: JVal, key: string): seq<JVal>
    requires obj.JObj? && ListOrAbsent(obj, key)
  {
    if key in obj.fields then obj.fields[key].items else []
  }

  function Digit(d: nat): char
    requires d < 10
  {
    "0123456789"[d]
  }

  /** Decimal digits of a natural number, most significant first. */
  function NatToString(n: nat): (r: string)
    ensures |r| > 0
    ensures forall i :: 0 <= i < |r| ==> '0' <= r[i] <= '9'
    decreases n
  {
    if n < 10 then [Digit(n)] else NatToString(n / 10) + [Digit(n % 10)]
  }

  /** Python's `str()` of an `int`. */
  function IntToString(i: int): string
  {
    if i < 0 then "-" + NatToString(-i) else NatToString(i)
  }

  /** Python's `str()` of a scalar, which is what an f-string interpolates. */
  function Show(v: JVal): string
    requires IsScalar(v)
  {
    match v
    case JNull => "None"
    case JBool(b) => if b then "True" else "False"
    case JNum(n) => IntToString(n)
    case JStr(s) => s
  }

  /** `f"{obj.get(key, default)}"`. */
  function Interp(obj: JVal, key: string, default: string): string
    requires obj.JObj? && ScalarOrAbsent(obj, key)
  {
    Show(Get(obj, key, JStr(default)))
  }

  /** `obj.get(key, default)` used as a string as it is. */
  function RawStr(obj: JVal, key: string, default: string): string
    requires obj.JObj? && StrOrAbsent(obj, key)
  {
    Get(obj, key, JStr(default)).s
  }

  /** The strings of a list of strings. */
  function Strs(items: seq<JVal>): seq<string>
    requires AllStr(items)
  {
    seq(|items|, i requires 0 <= i < |items| => items[i].s)
  }
}
