/** The JavaScript values that reach the notification formatters and the
    webhook handler through `Record<string, unknown>`, with the coercions
    the code applies to them: `??`, truthiness, `String(v)`, template
    interpolation and `Number(v)`. */
module JsValues {
  import opened Text

  /** A field value as it arrives from a database row serialised to JSON.
      Numbers are the integral ones a row can hold. */
  datatype JsValue = Undefined | Null | Str(s: string) | Num(n: int)

  /** `Record<string, unknown>`: a missing key reads as `undefined`. */
  type JsRecord = map<string, JsValue>

  function Get(rec: JsRecord, key: string): (v: JsValue)
    ensures key !in rec ==> v == Undefined
    ensures key in rec ==> v == rec[key]
  {
    if key in rec then rec[key] else Undefined
  }

  /** `v ?? d` */
  function Coalesce(v: JsValue, d: JsValue): (r: JsValue)
    ensures (v.Undefined? || v.Null?) ==> r == d
    ensures !(v.Undefined? || v.Null?) ==> r == v
  {
    if v.Undefined? || v.Null? then d else v
  }

  /** JavaScript truthiness: `undefined`, `null`, `''` and `0` are falsy. */
  predicate Truthy(v: JsValue) {
    match v
    case Undefined => false
    case Null => false
    case Str(s) => s != ""
    case Num(n) => n != 0
  }

  /** `String(v)`, which is also what `${v}` in a template string produces. */
  function ToStr(v: JsValue): string {
    match v
    case Undefined => "undefined"
    case Null => "null"
    case Str(s) => s
    case Num(n) => IntToString(n)
  }

  /** `String(v ?? '')`: the text of a field, empty when it is missing. */
  function TextOf(v: JsValue): (r: string)
    ensures (v.Undefined? || v.Null?) ==> r == ""
    ensures v.Str? ==> r == v.s
  {
    ToStr(Coalesce(v, Str("")))
  }

  /** The result of `Number(v)`, for the inputs modelled here. */
  datatype Number = NaN | Int(i: int)

  /** `Number(v)`: `null` and blank strings give 0; a string of decimal
      digits, optionally after a `-` (surrounding whitespace allowed), gives
      its value; any other string gives NaN; `undefined` gives NaN. */
  function ToNumber(v: JsValue): Number {
    match v
    case Undefined => NaN
    case Null => Int(0)
    case Num(n) => Int(n)
    case Str(s) =>
      var t := Trim(s);
      if t == "" then Int(0)
      else if AllDigits(t) then Int(DigitsValue(t))
      else if t[0] == '-' && |t| >= 2 && AllDigits(t[1..]) then Int(-(DigitsValue(t[1..]) as int))
      else NaN
  }

  /** `${n}` for a number: `NaN`, or the integer's decimal text. */
  function NumberText(n: Number): (r: string)
    ensures |r| >= 1
    ensures n.NaN? <==> r == "NaN"
    ensures n.Int? && n.i >= 0 ==> AllDigits(r) && DigitsValue(r) == n.i
    ensures n.Int? && n.i < 0 ==> r[0] == '-' && AllDigits(r[1..]) && DigitsValue(r[1..]) == -n.i
  {
    match n
    case NaN => "NaN"
    case Int(i) => IntToString(i)
  }

  /** `Number(String(n))` gives `n` back for every integer. */
  lemma NumberTextRoundTrip(i: int)
    ensures ToNumber(Str(NumberText(Int(i)))) == Int(i)
  {
    var r := NumberText(Int(i));
    TrimOfTrimmed(r);
  }
}
