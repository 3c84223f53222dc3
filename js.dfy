/** The loosely typed JavaScript values the pages receive from forms and
    from the backend, the coercions the code applies to them (`Boolean(v)`,
    `Number(v)`, `String(n)`), and the shape of a REST call's outcome. */
module Js {
  import opened Wrappers
  import opened Text

  /** A JSON-like value. Numbers are integers; fractional numbers are not
      part of this model. */
  datatype Value =
    | Undefined
    | Null
    | Bool(b: bool)
    | Num(n: int)
    | Str(s: string)
    | Arr(items: seq<Value>)
    | Obj(fields: map<string, Value>)

  /** `Boolean(v)`. */
  predicate Truthy(v: Value) {
    match v
    case Undefined => false
    case Null => false
    case Bool(b) => b
    case Num(n) => n != 0
    case Str(s) => |s| > 0
    case Arr(_) => true
    case Obj(_) => true
  }

  /** `v?.[key]`: a present field of an object, else `undefined`. */
  function Field(v: Value, key: string): (r: Value)
    ensures v.Obj? && key in v.fields ==> r == v.fields[key]
    ensures !(v.Obj? && key in v.fields) ==> r == Undefined
  {
    if v.Obj? && key in v.fields then v.fields[key] else Undefined
  }

  /** `Number(v)`, with NaN written `None`. An array converts through its
      string form, so `[]` is 0 and a one-element array of a number or a
      numeric string is that number. */
  function ToNumber(v: Value): (r: Option<int>)
    ensures v.Num? ==> r == Some(v.n)
    ensures v.Str? ==> r == ParseNumber(v.s)
    ensures v.Undefined? || v.Obj? ==> r == None
  {
    match v
    case Undefined => None
    case Null => Some(0)
    case Bool(b) => Some(if b then 1 else 0)
    case Num(n) => Some(n)
    case Str(s) => ParseNumber(s)
    case Obj(_) => None
    case Arr(items) =>
      if |items| == 0 then Some(0)
      else if |items| > 1 then None
      else match items[0]
        case Num(n) => Some(n)
        case Str(s) => ParseNumber(s)
        case Null => Some(0)
        case Undefined => Some(0)
        case _ => None
  }

  /** `Number(v) || fallback`: NaN and 0 both give the fallback. */
  function NumberOr(v: Value, fallback: int): (r: int)
    ensures ToNumber(v).Some? && ToNumber(v).value != 0 ==> r == ToNumber(v).value
    ensures ToNumber(v).None? || ToNumber(v) == Some(0) ==> r == fallback
  {
    match ToNumber(v)
    case Some(n) => if n != 0 then n else fallback
    case None => fallback
  }

  /** `String(x)` for a number that may be NaN. */
  function NumberToString(x: Option<int>): (s: string)
    ensures x.None? ==> s == "NaN"
    ensures x.Some? ==> ParseNumber(s) == x
  {
    ParseNumberOfIntToStringAll();
    match x
    case None => "NaN"
    case Some(i) => IntToString(i)
  }

  lemma ParseNumberOfIntToStringAll()
    ensures forall i :: ParseNumber(IntToString(i)) == Some(i)
  {
    forall i ensures ParseNumber(IntToString(i)) == Some(i) {
      ParseNumberOfIntToString(i);
    }
  }

  /** `String(v)`. An array joins its entries' forms with commas, with
      `null` and `undefined` entries as empty text. */
  function StringOf(v: Value): (s: string)
    ensures v.Str? ==> s == v.s
    ensures v.Num? ==> s == IntToString(v.n) && ParseNumber(s) == Some(v.n)
    ensures v.Undefined? ==> s == "undefined"
    ensures v.Null? ==> s == "null"
    decreases v
  {
    match v
    case Undefined => "undefined"
    case Null => "null"
    case Bool(b) => if b then "true" else "false"
    case Num(n) => ParseNumberOfIntToString(n); IntToString(n)
    case Str(s) => s
    case Obj(_) => "[object Object]"
    case Arr(items) =>
      Join(seq(|items|, i requires 0 <= i < |items| =>
        if items[i].Null? || items[i].Undefined? then "" else StringOf(items[i])), ",")
  }

  /** How a REST call ended: it resolved with a value, or it threw an error
      whose `message` may be absent. */
  datatype ApiResult<T> = Success(value: T) | Failure(message: Option<string>)

  /** `err?.message || fallback`. */
  function ErrorText(message: Option<string>, fallback: string): (r: string)
    ensures message.Some? && message.value != "" ==> r == message.value
    ensures message.None? || message.value == "" ==> r == fallback
    ensures fallback != "" ==> r != ""
  {
    match message
    case Some(m) => if m != "" then m else fallback
    case None => fallback
  }
}
