/**
 * JavaScript values as the services see provider payloads: parsed JSON plus
 * `undefined` for a missing property. Only the operators the services apply
 * to payloads are modelled: truthiness, `||`, optional chaining and `Number()`.
 */
module Json {
  import opened Common
  import opened Text

  /** A JSON value, or `undefined`; numbers are integers (see README, "Left out"). */
  datatype Value =
    | Undef
    | Null
    | Bool(b: bool)
    | Num(n: int)
    | Str(s: string)
    | Arr(items: seq<Value>)
    | Obj(fields: map<string, Value>)

  /** JavaScript truthiness: `undefined`, `null`, `false`, `0` and `''` are falsy. */
  predicate Truthy(v: Value)
  {
    match v
    case Undef => false
    case Null => false
    case Bool(b) => b
    case Num(n) => n != 0
    case Str(s) => s != ""
    case Arr(_) => true
    case Obj(_) => true
  }

  /** `a || b`: the first operand when it is truthy, else the second. */
  function Or(a: Value, b: Value): Value
  {
    if Truthy(a) then a else b
  }

  /** `a || b` is truthy exactly when one of its operands is. */
  lemma OrTruthy(a: Value, b: Value)
    ensures Truthy(Or(a, b)) <==> Truthy(a) || Truthy(b)
  {
  }

  /** `v?.key`: the property of an object, `undefined` for anything else. */
  function Get(v: Value, key: string): Value
  {
    if v.Obj? && key in v.fields then v.fields[key] else Undef
  }

  /** A JavaScript string, or `null` for an absent one. */
  function OptStr(o: Option<string>): Value
  {
    match o
    case Some(s) => Str(s)
    case None => Null
  }

  predicate AllDigits(s: string)
  {
    forall k | 0 <= k < |s| :: IsDigit(s[k])
  }

  /** `Array.prototype.join` turns `null` and `undefined` elements into empty text. */
  function ElementText(v: Value): string
    decreases v, 1
  {
    match v
    case Undef => ""
    case Null => ""
    case Bool(b) => if b then "true" else "false"
    case Num(n) => IntToString(n)
    case Str(s) => s
    case Arr(items) => JoinValues(items, ",")
    case Obj(_) => "[object Object]"
  }

  /** `items.join(sep)` */
  function JoinValues(items: seq<Value>, sep: string): string
    decreases items, 0
  {
    if |items| == 0 then ""
    else if |items| == 1 then ElementText(items[0])
    else ElementText(items[0]) + sep + JoinValues(items[1..], sep)
  }

  /**
   * `Number(s)` of a string: unsigned decimal integers after trimming, `0`
   * for blank text; the other numeric spellings are not modelled and read
   * as `NaN`.
   */
  function TextNumber(s: string): (r: Option<int>)
    ensures Trim(s) == "" ==> r == Some(0)
    ensures r.Some? ==> r.value >= 0
  {
    var t := Trim(s);
    if t == "" then Some(0)
    else if AllDigits(t) then Some(DecimalValue(t))
    else None
  }

  /**
   * `Number(v)`; `None` stands for `NaN`. An array is converted through its
   * joined text, so `Number([])` is `0` and `Number(["85"])` is `85`.
   */
  function ToNumber(v: Value): (r: Option<int>)
    ensures v.Num? ==> r == Some(v.n)
    ensures v.Undef? || v.Obj? ==> r.None?
    ensures v.Null? || (v.Arr? && |v.items| == 0) ==> r == Some(0)
    ensures v.Str? ==> r == TextNumber(v.s)
    ensures v.Arr? ==> r == TextNumber(JoinValues(v.items, ","))
  {
    match v
    case Undef => None
    case Null => Some(0)
    case Bool(b) => Some(if b then 1 else 0)
    case Num(n) => Some(n)
    case Str(s) => TextNumber(s)
    case Arr(_) => TextNumber(JoinValues(v.items, ","))
    case Obj(_) => None
  }

  /** A one-element array converts like its element does, for text and naturals. */
  lemma SingletonArrayNumber(e: Value)
    requires e.Str? || (e.Num? && e.n >= 0)
    ensures ToNumber(Arr([e])) == ToNumber(e)
  {
    assert JoinValues([e], ",") == ElementText(e);
    if e.Num? {
      NumberOfDecimal(e.n);
    }
  }

  /** `Number` reads back the decimal rendering of any natural number. */
  lemma NumberOfDecimal(n: nat)
    ensures ToNumber(Str(NatToString(n))) == Some(n)
  {
    var s := NatToString(n);
    assert !IsWs(s[0]) && !IsWs(s[|s| - 1]);
    TrimNoWsBorders(s);
    DecimalRoundTrip(n);
  }

  /** A number in a template string: `NaN` or its decimal digits. */
  function NumberText(n: Option<int>): string
  {
    match n
    case None => "NaN"
    case Some(i) => IntToString(i)
  }
}
