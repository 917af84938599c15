/** Decoded JSON values as the Python `json` module hands them to the bot. */
module Json {

  /** A decoded JSON value. A float is carried as the text Python's `repr` gives it. */
  datatype JsonValue =
    | JNull
    | JBool(b: bool)
    | JInt(i: int)
    | JFloat(text: string)
    | JStr(s: string)
    | JArr(items: seq<JsonValue>)
    | JObj(fields: map<string, JsonValue>)

  /** `type(v).__name__` of the Python object the decoder produces for `v`. */
  function TypeName(v: JsonValue): (r: string)
    ensures r == "int" <==> v.JInt?
    ensures r == "list" <==> v.JArr?
    ensures r == "dict" <==> v.JObj?
  {
    match v
    case JNull => "NoneType"
    case JBool(_) => "bool"
    case JInt(_) => "int"
    case JFloat(_) => "float"
    case JStr(_) => "str"
    case JArr(_) => "list"
    case JObj(_) => "dict"
  }

  function DigitChar(d: nat): (c: char)
    requires d < 10
    ensures '0' <= c <= '9' && DigitValue(c) == d
  {
    ('0' as int + d) as char
  }

  function DigitValue(c: char): nat
    requires '0' <= c <= '9'
  {
    c as int - '0' as int
  }

  /** Every character is a decimal digit. */
  predicate AllDigits(s: string)
  {
    forall k :: 0 <= k < |s| ==> '0' <= s[k] <= '9'
  }

  /** The number a string of decimal digits denotes, most significant first. */
  function DigitsValue(s: string): nat
    requires AllDigits(s)
    decreases |s|
  {
    if s == [] then 0 else DigitsValue(s[..|s| - 1]) * 10 + DigitValue(s[|s| - 1])
  }

  /** Python's decimal text of a natural number: digits only, no leading zero. */
  predicate Decimal(s: string)
  {
    |s| > 0 && AllDigits(s) && (s[0] == '0' ==> s == "0")
  }

  /** Decimal digits of a natural number, most significant first. */
  function NatToString(n: nat): (r: string)
    ensures Decimal(r) && DigitsValue(r) == n
    ensures r[0] == '0' <==> n == 0
    decreases n
  {
    if n < 10 then [DigitChar(n)]
    else
      var front := NatToString(n / 10);
      var r := front + [DigitChar(n % 10)];
      assert r[..|r| - 1] == front;
      r
  }

  /** `str(i)` for a Python int: a minus sign exactly for negatives, then the decimal digits. */
  function IntToString(i: int): (r: string)
    ensures |r| > 0 && (i < 0 <==> r[0] == '-')
    ensures i >= 0 ==> Decimal(r) && DigitsValue(r) == i
    ensures i < 0 ==> Decimal(r[1..]) && DigitsValue(r[1..]) == -i
  {
    if i < 0 then
      var digits := NatToString(-i);
      assert ("-" + digits)[1..] == digits;
      "-" + digits
    else NatToString(i)
  }

  /** `str(v)` of the decoded value, as an f-string renders it. */
  function Str(v: JsonValue): (r: string)
    ensures v.JStr? ==> r == v.s
    ensures v.JInt? && v.i >= 0 ==> Decimal(r) && DigitsValue(r) == v.i
    ensures v.JInt? && v.i < 0 ==> |r| > 0 && r[0] == '-' && Decimal(r[1..]) && DigitsValue(r[1..]) == -v.i
  {
    match v
    case JNull => "None"
    case JBool(b) => if b then "True" else "False"
    case JInt(i) => IntToString(i)
    case JFloat(t) => t
    case JStr(s) => s
    case JArr(_) => "[...]"
    case JObj(_) => "{...}"
  }
}
