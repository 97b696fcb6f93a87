/**
 * Typed extraction from decoded JSON (getString, getInt, getFloat64, getBool)
 * and the two string-to-number helpers (parseInt, parseFloat64). None of them
 * ever fails: a value of the wrong kind, or a string that is not a number,
 * yields the zero value of the target type.
 */
module Extract {
  import opened Wrappers
  import opened Json
  import opened Library

  /** The range of Go's int on the 64-bit platforms the client targets. */
  const MinInt64: int := -0x8000_0000_0000_0000
  const MaxInt64: int := 0x7fff_ffff_ffff_ffff

  predicate IsInt64(i: int)
  {
    MinInt64 <= i <= MaxInt64
  }

  function AbsReal(x: real): real
  {
    if x < 0.0 then -x else x
  }

  /** Go's int(f) for a float64 f in range: rounds toward zero. */
  function Truncate(x: real): (r: int)
    ensures AbsReal(r as real) <= AbsReal(x) < AbsReal(r as real) + 1.0
    ensures r > 0 ==> x > 0.0
    ensures r < 0 ==> x < 0.0
  {
    if x >= 0.0 then x.Floor else -((-x).Floor)
  }

  // ---------------------------------------------------------------------
  // get* helpers

  /** getString: a JSON string yields its text, anything else (or nothing) "". */
  function GetString(v: Json): (r: string)
    ensures v.Str? ==> r == v.s
    ensures !v.Str? ==> r == ""
  {
    if v.Str? then v.s else ""
  }

  /** getFloat64: a JSON number yields its value, anything else 0. */
  function GetFloat64(v: Json): (r: real)
    ensures v.Num? ==> r == v.n
    ensures !v.Num? ==> r == 0.0
  {
    if v.Num? then v.n else 0.0
  }

  /** getInt: a JSON number is truncated toward zero, anything else yields 0. */
  function GetInt(v: Json): (r: int)
    ensures v.Num? ==> AbsReal(r as real) <= AbsReal(v.n) < AbsReal(r as real) + 1.0
    ensures v.Num? && r != 0 ==> (r > 0 <==> v.n > 0.0)
    ensures !v.Num? ==> r == 0
  {
    if v.Num? then Truncate(v.n) else 0
  }

  /** getBool: a JSON boolean yields its value, anything else false. */
  function GetBool(v: Json): (r: bool)
    ensures r ==> v == Bool(true)
    ensures v == Bool(true) ==> r
  {
    v.Bool? && v.b
  }

  // ---------------------------------------------------------------------
  // Decimal digits

  predicate IsDigit(c: char)
  {
    '0' <= c <= '9'
  }

  predicate AllDigits(s: string)
  {
    forall i :: 0 <= i < |s| ==> IsDigit(s[i])
  }

  function DigitValue(c: char): (d: nat)
    requires IsDigit(c)
    ensures d < 10
  {
    c as int - '0' as int
  }

  function DigitChar(d: nat): (c: char)
    requires d < 10
    ensures IsDigit(c) && DigitValue(c) == d
  {
    ('0' as int + d) as char
  }

  /** The value of a non-empty run of decimal digits, most significant first. */
  function DecimalValue(s: string): nat
    requires AllDigits(s)
    decreases |s|
  {
    if s == [] then 0 else DecimalValue(s[..|s| - 1]) * 10 + DigitValue(s[|s| - 1])
  }

  /** The decimal text of a natural number, as fmt's %v prints it (no leading zeros). */
  function NatToDecimal(n: nat): (r: string)
    ensures |r| > 0 && AllDigits(r)
    ensures r[0] != '0' || n == 0
    ensures DecimalValue(r) == n
    decreases n
  {
    if n < 10 then [DigitChar(n)]
    else
      var prefix := NatToDecimal(n / 10);
      var r := prefix + [DigitChar(n % 10)];
      assert r[..|r| - 1] == prefix;
      r
  }

  /** fmt's %v rendering of an int: a minus sign for negative values, then the digits. */
  function IntToDecimal(i: int): (r: string)
    ensures |r| > 0
    ensures r[0] == '-' <==> i < 0
  {
    if i < 0 then "-" + NatToDecimal(-i) else NatToDecimal(i)
  }

  // ---------------------------------------------------------------------
  // parseInt = strconv.Atoi, 0 on error

  /** The digits that follow an optional leading sign. */
  function Unsigned(s: string): string
  {
    if |s| > 0 && (s[0] == '-' || s[0] == '+') then s[1..] else s
  }

  /** What strconv.Atoi accepts syntactically: an optional sign and at least one digit. */
  predicate IntegerSyntax(s: string)
  {
    |Unsigned(s)| > 0 && AllDigits(Unsigned(s))
  }

  /** The mathematical value of a well-formed integer text. */
  function SignedValue(s: string): int
    requires IntegerSyntax(s)
  {
    var magnitude: int := DecimalValue(Unsigned(s));
    if s[0] == '-' then -magnitude else magnitude
  }

  /**
   * parseInt: strconv.Atoi, which fails on bad syntax and on values outside
   * Go's 64-bit int; every failure yields 0.
   */
  function ParseInt(s: string): (r: int)
    ensures IsInt64(r)
    ensures !IntegerSyntax(s) ==> r == 0
    ensures IntegerSyntax(s) && IsInt64(SignedValue(s)) ==> r == SignedValue(s)
    ensures IntegerSyntax(s) && !IsInt64(SignedValue(s)) ==> r == 0
  {
    if IntegerSyntax(s) && IsInt64(SignedValue(s)) then SignedValue(s) else 0
  }

  /** parseInt reads back every int that %v prints. */
  lemma {:induction false} ParseIntRoundTrip(i: int)
    requires IsInt64(i)
    ensures ParseInt(IntToDecimal(i)) == i
  {
    var s := IntToDecimal(i);
    if i < 0 {
      assert Unsigned(s) == NatToDecimal(-i);
    } else {
      var d := NatToDecimal(i);
      assert d[0] != '-' && d[0] != '+' by { assert IsDigit(d[0]); }
      assert Unsigned(s) == d;
    }
  }

  /** parseFloat64: strconv.ParseFloat(s, 64), 0 on error. */
  function ParseFloat64(rt: Runtime, s: string): (r: real)
    ensures rt.parseFloat(s).Some? ==> r == rt.parseFloat(s).value
    ensures rt.parseFloat(s).None? ==> r == 0.0
  {
    match rt.parseFloat(s)
    case Some(f) => f
    case None => 0.0
  }

  /** time.Parse with the error dropped: a failed parse yields the zero time. */
  function ParseTimestamp(rt: Runtime, layout: Layout, s: string): (t: Time)
    ensures rt.parseTime(layout, s).Some? ==> t == rt.parseTime(layout, s).value
    ensures rt.parseTime(layout, s).None? ==> t == ZeroTime
  {
    match rt.parseTime(layout, s)
    case Some(t) => t
    case None => ZeroTime
  }

  /**
   * A JSON value of the wrong kind yields the zero value from every getter,
   * and the page dialect's parse-of-getString turns a JSON number into 0.
   */
  lemma WrongKindYieldsZero(rt: Runtime, v: Json)
    requires Sound(rt)
    ensures !v.Str? ==> GetString(v) == "" && ParseInt(GetString(v)) == 0 && ParseFloat64(rt, GetString(v)) == 0.0
    ensures !v.Num? ==> GetFloat64(v) == 0.0 && GetInt(v) == 0
    ensures !v.Bool? ==> !GetBool(v)
  {
    if !v.Str? {
      assert !IntegerSyntax("");
    }
  }
}
