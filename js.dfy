/** JavaScript values as the screens see them after JSON parsing, and the few
    JavaScript operators the screens apply to them: truthiness, `||`, property
    reads (`o.k`, `o?.k`), `String(v)` and `===`. Numbers are integers here. */
module Js {

  datatype JsValue =
    | Undefined
    | Null
    | Bool(b: bool)
    | Num(n: int)
    | Str(s: string)
    | Arr(items: seq<JsValue>)
    | Obj(fields: map<string, JsValue>)
  {
    /** `null` or `undefined`: the two values whose properties cannot be read. */
    predicate Nullish() { Undefined? || Null? }
  }

  /** A plain object literal, as a map from keys to values. */
  type Record = map<string, JsValue>

  datatype Option<T> = None | Some(value: T)

  /** The outcome of anything that can throw: a value, or the message of the error thrown. */
  datatype Result<T> = Ok(value: T) | Err(message: string)

  /** JavaScript truthiness: `undefined`, `null`, `false`, `0` and `""` are falsy. */
  predicate Truthy(v: JsValue)
    ensures Truthy(v) ==> !v.Nullish()
  {
    match v
    case Undefined => false
    case Null => false
    case Bool(b) => b
    case Num(n) => n != 0
    case Str(s) => s != ""
    case Arr(_) => true
    case Obj(_) => true
  }

  /** `a || b`: the first operand when it is truthy, the second otherwise. */
  function Or(a: JsValue, b: JsValue): (r: JsValue)
    ensures Truthy(r) <==> Truthy(a) || Truthy(b)
    ensures Truthy(a) ==> r == a
    ensures !Truthy(a) ==> r == b
  {
    if Truthy(a) then a else b
  }

  /** The message V8 gives the TypeError of reading property `key` of `null` or `undefined`. */
  function ReadError(base: JsValue, key: string): string
    requires base.Nullish()
  {
    "Cannot read properties of " + (if base.Null? then "null" else "undefined") + " (reading '" + key + "')"
  }

  /** `base.key`: throws on `null`/`undefined`; an absent key (or a key of a
      primitive) reads as `undefined`. Keys inherited from prototypes are not modelled. */
  function Member(base: JsValue, key: string): (r: Result<JsValue>)
    ensures r.Err? <==> base.Nullish()
    ensures r.Err? ==> r.message == ReadError(base, key)
    ensures base.Obj? && key in base.fields ==> r == Ok(base.fields[key])
    ensures r.Ok? && !(base.Obj? && key in base.fields) ==> r.value == Undefined
  {
    match base
    case Undefined => Err(ReadError(base, key))
    case Null => Err(ReadError(base, key))
    case Obj(f) => Ok(if key in f then f[key] else Undefined)
    case _ => Ok(Undefined)
  }

  /** `base?.key`: `undefined` on a nullish base, `base.key` otherwise. */
  function OptionalMember(base: JsValue, key: string): (r: JsValue)
    ensures base.Nullish() ==> r == Undefined
    ensures !base.Nullish() ==> Member(base, key) == Ok(r)
  {
    if base.Nullish() then Undefined else Member(base, key).value
  }

  /** `rec.key` on an object literal built by the screen itself. */
  function Field(rec: Record, key: string): (r: JsValue)
    ensures Member(Obj(rec), key) == Ok(r)
  {
    if key in rec then rec[key] else Undefined
  }

  /** `a === b`. Two values parsed separately are never the same object, so
      arrays and objects are never strictly equal here. */
  predicate StrictEquals(a: JsValue, b: JsValue)
    ensures StrictEquals(a, b) ==> a == b
    ensures a.Arr? || a.Obj? ==> !StrictEquals(a, b)
  {
    a == b && !a.Arr? && !a.Obj?
  }

  function DigitChar(d: int): char
    requires 0 <= d < 10
  {
    ('0' as int + d) as char
  }

  /** The decimal numeral of a natural number, as `String(n)` writes it. */
  function NatDecimal(n: nat): (r: string)
    ensures |r| >= 1
    ensures forall i :: 0 <= i < |r| ==> '0' <= r[i] <= '9'
    ensures |r| > 1 ==> r[0] != '0'
    decreases n
  {
    if n < 10 then [DigitChar(n)] else NatDecimal(n / 10) + [DigitChar(n % 10)]
  }

  /** The value of a string of decimal digits: the inverse of NatDecimal. */
  function DigitsValue(s: string): nat
    requires forall i :: 0 <= i < |s| ==> '0' <= s[i] <= '9'
  {
    if s == [] then 0 else DigitsValue(s[..|s| - 1]) * 10 + (s[|s| - 1] as int - '0' as int)
  }

  /** Reading back the numeral `String(n)` gives `n` again. */
  lemma {:induction false} NatDecimalRoundTrip(n: nat)
    ensures DigitsValue(NatDecimal(n)) == n
    decreases n
  {
    var s := NatDecimal(n);
    if n >= 10 {
      NatDecimalRoundTrip(n / 10);
      assert s[..|s| - 1] == NatDecimal(n / 10);
    }
  }

  /** `String(n)` for an integer. */
  function Decimal(n: int): (r: string)
    ensures n >= 0 ==> r == NatDecimal(n)
    ensures n < 0 ==> r == "-" + NatDecimal(-n)
  {
    if n >= 0 then NatDecimal(n) else "-" + NatDecimal(-n)
  }

  /** `xs.join(",")`. */
  function JoinComma(xs: seq<string>): (r: string)
    ensures xs == [] ==> r == ""
    ensures |xs| == 1 ==> r == xs[0]
  {
    if |xs| == 0 then "" else if |xs| == 1 then xs[0] else xs[0] + "," + JoinComma(xs[1..])
  }

  /** `String(v)`, also what a template literal `${v}` and `FormData.append`
      write: arrays join their elements with commas, with `null` and
      `undefined` elements written as empty strings. */
  function ToStr(v: JsValue): (r: string)
    ensures v.Str? ==> r == v.s
    ensures v.Num? ==> r == Decimal(v.n)
    ensures v.Obj? ==> r == "[object Object]"
    ensures v.Undefined? ==> r == "undefined"
    decreases v
  {
    match v
    case Undefined => "undefined"
    case Null => "null"
    case Bool(b) => if b then "true" else "false"
    case Num(n) => Decimal(n)
    case Str(s) => s
    case Obj(_) => "[object Object]"
    case Arr(items) =>
      JoinComma(seq(|items|, i requires 0 <= i < |items| =>
        if items[i].Nullish() then "" else ToStr(items[i])))
  }
}
