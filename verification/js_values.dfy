/**
  The small part of JavaScript value semantics that the handlers in api.cjs rely on:
  the values a JSON request body or a stored document field can hold in this model,
  truthiness (what `a || b` tests), `String(v)` and `Number(s)` on strings.
  Numbers are integers (money is counted in cents); NaN, fractions and exponent
  notation are outside the model.
 */
module JsValues {
  import opened Optional

  /**
    A JSON scalar field value. `Undefined` stands for a field that is absent.
    Objects and arrays are not field values in this model.
   */
  datatype JsValue = Undefined | Null | Bool(b: bool) | Num(n: int) | Str(s: string)

  /** JavaScript truthiness: `undefined`, `null`, `false`, `0` and `""` are falsy. */
  predicate Truthy(v: JsValue)
  {
    match v
    case Undefined => false
    case Null => false
    case Bool(b) => b
    case Num(n) => n != 0
    case Str(s) => s != ""
  }

  /** The JSON value of an optional numeric field: `None` is an absent field. */
  function NumField(v: Option<int>): JsValue
  {
    match v
    case None => Undefined
    case Some(n) => Num(n)
  }

  /** The JSON value of an optional string field: `None` is an absent field. */
  function StrField(v: Option<string>): JsValue
  {
    match v
    case None => Undefined
    case Some(s) => Str(s)
  }

  /**
    `Number(v || fallback)` for a numeric field that may be absent (`None`): the field's
    value when it is truthy, the fallback when it is falsy.
   */
  function NumberOr(v: Option<int>, fallback: int): (r: int)
    ensures Truthy(NumField(v)) ==> NumField(v) == Num(r)
    ensures !Truthy(NumField(v)) ==> r == fallback
  {
    match v
    case Some(n) => if n != 0 then n else fallback
    case None => fallback
  }

  /**
    `v || fallback` for a string field that may be absent (`None`): the field's value when it
    is truthy, the fallback when it is falsy.
   */
  function StringOr(v: Option<string>, fallback: string): (r: string)
    ensures Truthy(StrField(v)) ==> StrField(v) == Str(r)
    ensures !Truthy(StrField(v)) ==> r == fallback
  {
    match v
    case Some(s) => if s != "" then s else fallback
    case None => fallback
  }

  /** How the MongoDB driver stores a value it is given: `undefined` is written as `null`. */
  function Stored(v: JsValue): (r: JsValue)
    ensures v == Undefined ==> r == Null
    ensures v != Undefined ==> r == v
  {
    if v == Undefined then Null else v
  }

  // ---------------------------------------------------------------- digits

  predicate IsDigit(c: char)
  {
    '0' <= c <= '9'
  }

  predicate AllDigits(s: string)
  {
    forall i :: 0 <= i < |s| ==> IsDigit(s[i])
  }

  function DigitChar(d: nat): (c: char)
    requires d < 10
    ensures IsDigit(c)
  {
    "0123456789"[d]
  }

  /** The value of a string of decimal digits, read most significant digit first. */
  function DigitsValue(s: string): nat
    requires AllDigits(s)
  {
    if s == [] then 0
    else DigitsValue(s[..|s| - 1]) * 10 + (s[|s| - 1] as int - '0' as int)
  }

  /** Decimal rendering of a natural number, without leading zeros. */
  function NatToString(n: nat): (s: string)
  {
    if n < 10 then [DigitChar(n)] else NatToString(n / 10) + [DigitChar(n % 10)]
  }

  /** `String(n)` for an integer `n` (written without exponent). */
  function NumberToString(n: int): (s: string)
  {
    if n < 0 then "-" + NatToString(-n) else NatToString(n)
  }

  /**
    `String(v)`: a string is kept as it is, and a number is written so that `Number` reads
    it back.
   */
  function ToString(v: JsValue): (s: string)
    ensures v.Str? ==> s == v.s
    ensures v.Num? ==> ToNumber(s) == Some(v.n)
    ensures v.Undefined? ==> s == "undefined"
    ensures v.Null? ==> s == "null"
    ensures v.Bool? ==> s == (if v.b then "true" else "false")
  {
    ToNumberOfNumberToString(if v.Num? then v.n else 0);
    match v
    case Undefined => "undefined"
    case Null => "null"
    case Bool(b) => if b then "true" else "false"
    case Num(n) => NumberToString(n)
    case Str(s) => s
  }

  /**
    `Number(s)` on a string, as a partial parse: `None` stands for NaN.
    The empty string converts to 0; otherwise an optional minus sign followed
    by one or more decimal digits converts to its value.
   */
  function ToNumber(s: string): (r: Option<int>)
    ensures s == "" ==> r == Some(0)
    ensures r.Some? && s != "" ==> s[0] == '-' || IsDigit(s[0])
  {
    if s == [] then Some(0)
    else if s[0] == '-' then
      if |s| > 1 && AllDigits(s[1..]) then Some(-(DigitsValue(s[1..]) as int)) else None
    else if AllDigits(s) then Some(DigitsValue(s))
    else None
  }

  // ---------------------------------------------------------------- lemmas

  /** Rendering a natural number gives a non-empty digit string that reads back as the number. */
  lemma {:induction false} NatToStringReadsBack(n: nat)
    ensures |NatToString(n)| > 0 && AllDigits(NatToString(n))
    ensures DigitsValue(NatToString(n)) == n
  {
    var s := NatToString(n);
    if n < 10 {
      assert s == [DigitChar(n)];
      assert s[..0] == [];
    } else {
      NatToStringReadsBack(n / 10);
      var t := NatToString(n / 10);
      assert s == t + [DigitChar(n % 10)];
      assert s[..|s| - 1] == t;
    }
  }

  /** `Number(String(n)) == n` for every integer in the model. */
  lemma ToNumberOfNumberToString(n: int)
    ensures ToNumber(NumberToString(n)) == Some(n)
  {
    var m: nat := if n < 0 then -n else n;
    var t := NatToString(m);
    NatToStringReadsBack(m);
    var s := NumberToString(n);
    if n < 0 {
      assert s == "-" + t;
      assert s[0] == '-' && s[1..] == t;
      assert ToNumber(s) == Some(-(DigitsValue(t) as int));
    } else {
      assert s == t;
      assert s[0] != '-' by {
        assert IsDigit(t[0]);
      }
      assert ToNumber(s) == Some(DigitsValue(t));
    }
  }
}
