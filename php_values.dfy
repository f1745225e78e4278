/**
 * The PHP values a constraint can be handed, and the runtime functions the
 * constraints use to inspect them: gettype, get_debug_type, is_scalar, the
 * "has a __toString method" test and the (string) cast.
 */
module PhpValues {

  import opened Wrappers

  /** PHP's integer range on a 64-bit build. */
  type PhpInt = i: int | -0x8000_0000_0000_0000 <= i < 0x8000_0000_0000_0000

  /**
   * A PHP value. A float is known only through the text its string cast
   * yields; an array only through its elements (keys are not modelled);
   * an object through its class name and, when its class declares
   * __toString, the text that method returns.
   */
  datatype Value =
    | Null
    | Bool(b: bool)
    | Int(i: PhpInt)
    | Float(text: string)
    | Str(s: string)
    | Arr(elements: seq<Value>)
    | Obj(className: string, toStringResult: Option<string>)

  /** gettype(): the kind of a value, spelled as PHP spells it. */
  function GetType(v: Value): (name: string)
    ensures name == "object" <==> v.Obj?
    ensures name == "NULL" <==> v.Null?
  {
    match v
    case Null => "NULL"
    case Bool(_) => "boolean"
    case Int(_) => "integer"
    case Float(_) => "double"
    case Str(_) => "string"
    case Arr(_) => "array"
    case Obj(_, _) => "object"
  }

  /**
   * get_debug_type(): like gettype, but an object is named by its class.
   * For a value the string gate refuses, it names an array or the object's class.
   */
  function DebugType(v: Value): (name: string)
    ensures !v.Null? && !IsStringable(v) ==>
      (v.Arr? && name == "array") || (v.Obj? && v.toStringResult.None? && name == v.className)
  {
    match v
    case Null => "null"
    case Bool(_) => "bool"
    case Int(_) => "int"
    case Float(_) => "float"
    case Str(_) => "string"
    case Arr(_) => "array"
    case Obj(c, _) => c
  }

  /** `null === $value || '' === $value`: strict, so false and 0 are not empty. */
  predicate IsNullOrEmptyString(v: Value) {
    v == Null || v == Str("")
  }

  /** is_scalar(): booleans, integers, floats and strings. */
  predicate IsScalar(v: Value) {
    v.Bool? || v.Int? || v.Float? || v.Str?
  }

  /** The gate shared by the email and numeric constraints: a scalar, or an object with __toString. */
  predicate IsStringable(v: Value) {
    IsScalar(v) || (v.Obj? && v.toStringResult.Some?)
  }

  function DigitChar(d: nat): (c: char)
    requires d < 10
    ensures '0' <= c <= '9'
  {
    "0123456789"[d]
  }

  /** Decimal digits of a natural number, most significant first, without leading zeros. */
  function NatToString(n: nat): (s: string)
    ensures |s| >= 1
    ensures forall k :: 0 <= k < |s| ==> '0' <= s[k] <= '9'
    ensures |s| > 1 ==> s[0] != '0'
    decreases n
  {
    if n < 10 then [DigitChar(n)] else NatToString(n / 10) + [DigitChar(n % 10)]
  }

  /** Numeric value of a string of decimal digits. */
  function DigitsValue(s: string): nat
    requires forall k :: 0 <= k < |s| ==> '0' <= s[k] <= '9'
  {
    if s == [] then 0 else 10 * DigitsValue(s[..|s| - 1]) + (s[|s| - 1] - '0') as nat
  }

  /** Reading the digits back gives the number: the decimal rendering loses nothing. */
  lemma {:induction false} NatToStringRoundTrip(n: nat)
    ensures DigitsValue(NatToString(n)) == n
    decreases n
  {
    if n >= 10 {
      NatToStringRoundTrip(n / 10);
      var s := NatToString(n);
      assert s[..|s| - 1] == NatToString(n / 10);
    }
  }

  /** The decimal text PHP gives an integer. */
  function IntToString(i: int): (s: string)
    ensures |s| >= 1
    ensures s[0] == '-' <==> i < 0
  {
    if i < 0 then "-" + NatToString(-i) else NatToString(i)
  }

  /** Text of the form PHP renders integers in: an optional minus sign, then at least one digit. */
  predicate IsDecimalText(s: string) {
    && |s| >= 1
    && (s[0] == '-' ==> |s| >= 2)
    && forall k :: 0 <= k < |s| && !(k == 0 && s[0] == '-') ==> '0' <= s[k] <= '9'
  }

  /** Signed reader for decimal text: the minus sign negates the value of the digits after it. */
  function DecimalValue(s: string): int
    requires IsDecimalText(s)
  {
    if s[0] == '-' then -(DigitsValue(s[1..]) as int) else DigitsValue(s)
  }

  /** Reading back the text of any integer, negative ones included, gives that integer. */
  lemma IntToStringRoundTrip(i: int)
    ensures IsDecimalText(IntToString(i))
    ensures DecimalValue(IntToString(i)) == i
  {
    var s := IntToString(i);
    if i < 0 {
      NatToStringRoundTrip(-i);
      assert s[1..] == NatToString(-i);
    } else {
      NatToStringRoundTrip(i);
    }
  }

  /**
   * `(string) $value` for a value that passes the IsStringable gate. The cast
   * yields the empty text only for false, the empty string, and a float or an
   * object whose text is empty; an integer's text reads back as the integer.
   */
  function StringCast(v: Value): (s: string)
    requires IsStringable(v)
    ensures s == "" <==>
      v == Bool(false) || v == Str("") || (v.Float? && v.text == "") || (v.Obj? && v.toStringResult == Some(""))
    ensures v.Int? ==> IsDecimalText(s) && DecimalValue(s) == v.i
  {
    match v
    case Bool(b) => if b then "1" else ""
    case Int(i) => IntToStringRoundTrip(i); IntToString(i)
    case Float(text) => text
    case Str(s) => s
    case Obj(_, toStringResult) => toStringResult.value
  }
}
