/**
  Decoded JSON values as a Python program sees them after `response.json()`,
  and the few Python operations the server applies to them: `dict.get`,
  truthiness and `str()`.
 */
module JsonValue {

  /** A decoded JSON value. JSON numbers are modelled as integers. */
  datatype Json =
    | JNull
    | JBool(b: bool)
    | JInt(i: int)
    | JString(s: string)
    | JArray(items: seq<Json>)
    | JObject(fields: map<string, Json>)

  /** The exception that aborts a tool call, by kind. */
  datatype Fault =
    | RequestError   // transport failure, non-2xx status or a body that is not JSON
    | AttributeError // `.get` called on a value that is not a dict
    | NotSliceable   // `[:limit]` applied to a value that is neither a list nor a string;
                     // the exception class differs between values and Python versions
    | Unrendered     // `str()` of an array or object, which this model does not render

  datatype Result<T> = Ok(value: T) | Err(fault: Fault) {
    predicate IsFailure() { Err? }

    function PropagateFailure<U>(): Result<U>
      requires Err?
    {
      Err(fault)
    }

    function Extract(): T
      requires Ok?
    {
      value
    }
  }

  /** Python's `None` or a value. */
  datatype Option<T> = None | Some(value: T)

  const EmptyObject: Json := JObject(map[])
  const EmptyArray: Json := JArray([])

  /** `d.get(key, default)` on a value known to be a dict. */
  function Lookup(m: map<string, Json>, key: string, default: Json): Json {
    if key in m then m[key] else default
  }

  /** `obj.get(key, default)`: only a dict has a `get` method. */
  function Get(obj: Json, key: string, default: Json): Result<Json> {
    match obj
    case JObject(m) => Ok(Lookup(m, key, default))
    case _ => Err(AttributeError)
  }

  /** Python truthiness of a decoded value (`if v:`). */
  predicate Truthy(v: Json) {
    match v
    case JNull => false
    case JBool(b) => b
    case JInt(i) => i != 0
    case JString(s) => |s| > 0
    case JArray(a) => |a| > 0
    case JObject(m) => |m| > 0
  }

  /** The values whose `str()` the model renders. */
  predicate Renderable(v: Json) {
    !v.JArray? && !v.JObject?
  }

  /** Python's `str(v)`, used by an f-string; arrays and objects are not rendered. */
  function Str(v: Json): (r: Result<string>)
    ensures r.Ok? <==> Renderable(v)
    ensures v.JString? ==> r == Ok(v.s)
  {
    match v
    case JNull => Ok("None")
    case JBool(b) => Ok(if b then "True" else "False")
    case JInt(i) => Ok(if i < 0 then "-" + Digits(-i) else Digits(i))
    case JString(s) => Ok(s)
    case _ => Err(Unrendered)
  }

  /** Decimal digits of a natural number, most significant first. */
  function Digits(n: nat): (r: string)
    ensures |r| > 0
    ensures forall k :: 0 <= k < |r| ==> '0' <= r[k] <= '9'
  {
    if n < 10 then [DigitChar(n)] else Digits(n / 10) + [DigitChar(n % 10)]
  }

  /** The number a string of decimal digits denotes. */
  function DecimalValue(s: string): nat
    requires forall k :: 0 <= k < |s| ==> '0' <= s[k] <= '9'
  {
    if s == [] then 0 else DecimalValue(s[..|s| - 1]) * 10 + (s[|s| - 1] as int - 48)
  }

  /** `Digits(n)` is the decimal numeral of `n`, without leading zeros. */
  lemma {:induction false} DigitsDenote(n: nat)
    ensures DecimalValue(Digits(n)) == n
    ensures n > 0 ==> Digits(n)[0] != '0'
  {
    if n >= 10 {
      DigitsDenote(n / 10);
      var s := Digits(n / 10) + [DigitChar(n % 10)];
      assert s[..|s| - 1] == Digits(n / 10);
      assert s[0] == Digits(n / 10)[0];
    }
  }

  /** `str()` of an integer is its decimal numeral, with a minus sign when
      negative and no leading zeros: 0 is "0", -7 is "-7". */
  lemma IntStrIsDecimal(i: int)
    ensures Str(JInt(i)).Ok?
    ensures i >= 0 ==> DecimalValue(Str(JInt(i)).value) == i
    ensures i < 0 ==> Str(JInt(i)).value[0] == '-' && DecimalValue(Str(JInt(i)).value[1..]) == -i
    ensures i == 0 ==> Str(JInt(i)).value == "0"
    ensures i != 0 ==> Str(JInt(i)).value[if i < 0 then 1 else 0] != '0'
  {
    if i >= 0 {
      DigitsDenote(i);
    } else {
      DigitsDenote(-i);
      assert Str(JInt(i)).value[1..] == Digits(-i);
    }
  }

  function DigitChar(d: nat): (c: char)
    requires d < 10
    ensures '0' <= c <= '9'
  {
    (48 + d) as char
  }
}
