/** Decoded JSON documents, which double as the dynamically typed values that the Python and
    JavaScript code inspects: request bodies, keyword arguments, configuration files and JSON
    columns. Truthiness and the number conversions differ between the two languages and are
    defined for each. */
module Json {
  import opened Text

  datatype Json =
    | Null
    | Bool(b: bool)
    | Num(x: real)
    | Str(s: string)
    | Arr(items: seq<Json>)
    | Obj(fields: map<string, Json>)

  /** Python truthiness: None, False, 0, "" and empty containers are false. */
  predicate PyTruthy(v: Json) {
    match v
    case Null => false
    case Bool(b) => b
    case Num(x) => x != 0.0
    case Str(s) => s != ""
    case Arr(items) => |items| > 0
    case Obj(fields) => |fields| > 0
  }

  /** JavaScript truthiness: arrays and objects are always true, even when empty. */
  predicate JsTruthy(v: Json) {
    match v
    case Null => false
    case Bool(b) => b
    case Num(x) => x != 0.0
    case Str(s) => s != ""
    case Arr(_) => true
    case Obj(_) => true
  }

  /** The two languages disagree only on empty containers. */
  lemma TruthinessAgreesOnScalars(v: Json)
    ensures !v.Arr? && !v.Obj? ==> (PyTruthy(v) <==> JsTruthy(v))
    ensures v == Arr([]) || v == Obj(map[]) ==> !PyTruthy(v) && JsTruthy(v)
  {
  }

  /** Python `dict.get(key, default)` on an object; None when the value is not a dict, where
      the attribute lookup raises. */
  function Get(v: Json, key: string, default: Json): (r: Option<Json>)
    ensures r.Some? <==> v.Obj?
    ensures v.Obj? && key in v.fields ==> r == Some(v.fields[key])
    ensures v.Obj? && key !in v.fields ==> r == Some(default)
  {
    match v
    case Obj(fields) => Some(if key in fields then fields[key] else default)
    case _ => None
  }

  function Pow10(n: nat): (r: nat)
    ensures r >= 1
  {
    if n == 0 then 1 else 10 * Pow10(n - 1)
  }

  predicate AllDigits(s: string) {
    forall i :: 0 <= i < |s| ==> IsDigit(s[i])
  }

  /** An unsigned decimal numeral: digits, optionally a point and more digits, with at least one
      digit in all. */
  function UnsignedDecimal(s: string): (r: Option<real>)
    ensures r.Some? ==> r.value >= 0.0
  {
    var k := IndexOf(s, '.');
    if k < 0 then
      if |s| > 0 && AllDigits(s) then Some(DigitsValue(s) as real) else None
    else
      var whole, frac := s[..k], s[k + 1..];
      if |whole| + |frac| > 0 && AllDigits(whole) && AllDigits(frac) then
        Some(DigitsValue(whole) as real + DigitsValue(frac) as real / Pow10(|frac|) as real)
      else None
  }

  /** Python `float(s)` on the plain decimal forms `[+|-]digits[.digits]`; any other text raises. */
  function ParseFloat(s: string): Option<real> {
    if |s| > 0 && (s[0] == '-' || s[0] == '+') then
      match UnsignedDecimal(s[1..])
      case None => None
      case Some(x) => Some(if s[0] == '-' then -x else x)
    else UnsignedDecimal(s)
  }

  /** Python `int(s)` on `[+|-]digits`; any other text raises. */
  function ParseInt(s: string): Option<int> {
    if |s| > 0 && (s[0] == '-' || s[0] == '+') then
      match ParseNat(s[1..])
      case None => None
      case Some(n) =>
        var v: int := if s[0] == '-' then -(n as int) else n;
        Some(v)
    else
      match ParseNat(s)
      case None => None
      case Some(n) => Some(n)
  }

  /** A run of digits reads the same as a float and as an int. */
  lemma DigitsParse(s: string)
    requires |s| > 0 && AllDigits(s)
    ensures ParseFloat(s) == Some(DigitsValue(s) as real)
    ensures ParseInt(s) == Some(DigitsValue(s) as int)
  {
    UnsignedDigits(s);
    assert IsDigit(s[0]);
  }

  lemma UnsignedDigits(s: string)
    requires |s| > 0 && AllDigits(s)
    ensures UnsignedDecimal(s) == Some(DigitsValue(s) as real)
    ensures ParseNat(s) == Some(DigitsValue(s))
  {
    NoPointInDigits(s);
  }

  lemma NoPointInDigits(s: string)
    requires AllDigits(s)
    ensures IndexOf(s, '.') < 0
  {
  }

  /** Python truncation of a float toward zero, as `int(x)` does. */
  function Truncate(x: real): (r: int)
    ensures x >= 0.0 ==> r as real <= x < r as real + 1.0
    ensures x < 0.0 ==> r as real - 1.0 < x <= r as real
  {
    if x >= 0.0 then x.Floor else -((-x).Floor)
  }

  /** Python `float(v)`: numbers and booleans convert, numeric text parses; None when Python
      raises (None, containers, other text). */
  function PyFloat(v: Json): (r: Option<real>)
    ensures v.Num? ==> r == Some(v.x)
    ensures v.Bool? ==> r == Some(if v.b then 1.0 else 0.0)
    ensures v.Null? || v.Arr? || v.Obj? ==> r.None?
  {
    match v
    case Num(x) => Some(x)
    case Bool(b) => Some(if b then 1.0 else 0.0)
    case Str(s) => ParseFloat(s)
    case _ => None
  }

  /** Python `int(v)`: floats truncate toward zero, booleans give 0/1, integer text parses;
      None when Python raises. */
  function PyInt(v: Json): (r: Option<int>)
    ensures v.Num? ==> r == Some(Truncate(v.x))
    ensures v.Bool? ==> r == Some(if v.b then 1 else 0)
    ensures v.Null? || v.Arr? || v.Obj? ==> r.None?
  {
    match v
    case Num(x) => Some(Truncate(x))
    case Bool(b) => Some(if b then 1 else 0)
    case Str(s) => ParseInt(s)
    case _ => None
  }
}
