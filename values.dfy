/** The dynamic value model shared by the builders, the pending value set and
    result rows, together with the pieces of the Java platform the accessors
    rely on: 32- and 64-bit integers, decimal text (Integer.toString and
    Integer.parseInt and their Long counterparts) and lower-casing. */
module Values {

  datatype Option<T> = None | Some(value: T)

  /** The outcome of a call that either returns a value or throws
      NumberFormatException on the given text. */
  datatype Parse<T> = Returned(value: T) | NumberFormatException(input: string)

  const INT32_MIN: int := -0x8000_0000
  const INT32_MAX: int := 0x7FFF_FFFF
  const INT64_MIN: int := -0x8000_0000_0000_0000
  const INT64_MAX: int := 0x7FFF_FFFF_FFFF_FFFF

  /** Java `int` and `long`. */
  type Int32 = x: int | INT32_MIN <= x <= INT32_MAX
  type Int64 = x: int | INT64_MIN <= x <= INT64_MAX

  /** A Java double, kept opaque: its `toString` text and its value rounded
      toward zero (0 for NaN; an infinity is any integer beyond the `long`
      range of the same sign).  Nothing else about floating point is modelled. */
  datatype JavaDouble = JavaDouble(text: string, whole: int)

  /** A java.util.Date, java.sql.Date or java.sql.Timestamp, kept opaque: its
      `toString` text. */
  datatype JavaDate = JavaDate(text: string)

  /** The objects that travel through the value maps and parameter lists.
      VNull is Java's `null` stored as a value (a SQL NULL, `setDate(c, null)`). */
  datatype Value =
    | VStr(s: string)
    | VInt(i: Int32)
    | VLong(l: Int64)
    | VBool(b: bool)
    | VDouble(d: JavaDouble)
    | VDate(date: JavaDate)
    | VNull
  {
    /** `instanceof Number` for the numeric kinds of the model. */
    predicate IsNumber() {
      VInt? || VLong? || VDouble?
    }
  }

  // ---------------------------------------------------------------- decimal text

  function DigitChar(d: nat): (c: char)
    requires d < 10
    ensures '0' <= c <= '9' && (c as int) - ('0' as int) == d
  {
    (('0' as int) + d) as char
  }

  predicate IsDigit(c: char) {
    '0' <= c <= '9'
  }

  predicate AllDigits(s: string) {
    forall i :: 0 <= i < |s| ==> IsDigit(s[i])
  }

  /** Decimal digits of a natural number, most significant first, no leading zeros. */
  function NatToDecimal(n: nat): (s: string)
    decreases n
  {
    if n < 10 then [DigitChar(n)] else NatToDecimal(n / 10) + [DigitChar(n % 10)]
  }

  /** Integer.toString / Long.toString: a minus sign for negative numbers. */
  function IntToDecimal(i: int): string {
    if i < 0 then "-" + NatToDecimal(-i) else NatToDecimal(i)
  }

  /** The value of a string of decimal digits, digits read left to right. */
  function DigitsValue(s: string): (n: nat)
    requires AllDigits(s)
    decreases |s|
  {
    if |s| == 0 then 0
    else DigitsValue(s[..|s| - 1]) * 10 + ((s[|s| - 1] as int) - ('0' as int))
  }

  /** The grammar Integer.parseInt and Long.parseLong accept, before the range
      check: an optional sign, then at least one decimal digit. */
  function ParseDecimal(s: string): (r: Option<int>)
    ensures r.Some? <==> (|s| > 0 && AllDigits(s)) || (|s| > 1 && s[0] in "+-" && AllDigits(s[1..]))
    ensures (|s| > 0 && AllDigits(s)) ==> r == Some(DigitsValue(s))
    ensures |s| > 1 && s[0] in "+-" && AllDigits(s[1..]) ==>
              var magnitude: int := DigitsValue(s[1..]); r == Some(if s[0] == '-' then -magnitude else magnitude)
  {
    if |s| > 0 && (s[0] == '-' || s[0] == '+') then
      var body := s[1..];
      if |body| > 0 && AllDigits(body) then
        var magnitude: int := DigitsValue(body);
        Some(if s[0] == '-' then -magnitude else magnitude)
      else None
    else if |s| > 0 && AllDigits(s) then Some(DigitsValue(s))
    else None
  }

  /** Integer.parseInt: the parse when it is in the `int` range. */
  function ParseInt32(s: string): (r: Option<Int32>)
    ensures r.Some? ==> ParseDecimal(s) == Some(r.value as int)
    ensures r.None? ==> ParseDecimal(s).None? || !(INT32_MIN <= ParseDecimal(s).value <= INT32_MAX)
  {
    match ParseDecimal(s)
    case Some(n) => if INT32_MIN <= n <= INT32_MAX then Some(n) else None
    case None => None
  }

  /** Long.parseLong: the parse when it is in the `long` range. */
  function ParseInt64(s: string): (r: Option<Int64>)
    ensures r.Some? ==> ParseDecimal(s) == Some(r.value as int)
    ensures r.None? ==> ParseDecimal(s).None? || !(INT64_MIN <= ParseDecimal(s).value <= INT64_MAX)
  {
    match ParseDecimal(s)
    case Some(n) => if INT64_MIN <= n <= INT64_MAX then Some(n) else None
    case None => None
  }

  lemma {:induction false} NatToDecimalDigits(n: nat)
    ensures |NatToDecimal(n)| > 0 && AllDigits(NatToDecimal(n))
    ensures DigitsValue(NatToDecimal(n)) == n
    decreases n
  {
    if n >= 10 {
      NatToDecimalDigits(n / 10);
      var s := NatToDecimal(n);
      assert s[..|s| - 1] == NatToDecimal(n / 10);
    }
  }

  /** Parsing the decimal text of a number gives the number back. */
  lemma DecimalRoundTrip(i: int)
    ensures ParseDecimal(IntToDecimal(i)) == Some(i)
  {
    NatToDecimalDigits(if i < 0 then -i else i);
    if i < 0 {
      assert IntToDecimal(i)[1..] == NatToDecimal(-i);
    }
  }

  lemma Int32RoundTrip(i: Int32)
    ensures ParseInt32(IntToDecimal(i)) == Some(i)
  {
    DecimalRoundTrip(i);
  }

  lemma Int64RoundTrip(i: Int64)
    ensures ParseInt64(IntToDecimal(i)) == Some(i)
  {
    DecimalRoundTrip(i);
  }

  /** Decimal text never holds a `?`, so numbers spliced into SQL text add no
      placeholder. */
  lemma {:induction false} NatToDecimalNoPlaceholder(n: nat)
    ensures CountPlaceholders(NatToDecimal(n)) == 0
    decreases n
  {
    if n >= 10 {
      NatToDecimalNoPlaceholder(n / 10);
      PlaceholdersAppend(NatToDecimal(n / 10), [DigitChar(n % 10)]);
    }
  }

  lemma DecimalNoPlaceholder(i: int)
    ensures CountPlaceholders(IntToDecimal(i)) == 0
  {
    NatToDecimalNoPlaceholder(if i < 0 then -i else i);
    if i < 0 {
      PlaceholdersAppend("-", NatToDecimal(-i));
    }
  }

  // ---------------------------------------------------------------- Java conversions

  /** (int) of a long: keeps the low 32 bits, as Long.intValue() does. */
  function WrapToInt32(x: int): (r: Int32)
    ensures (r - x) % 0x1_0000_0000 == 0
    ensures INT32_MIN <= x <= INT32_MAX ==> r == x
  {
    var m := x % 0x1_0000_0000;
    if m > INT32_MAX then m - 0x1_0000_0000 else m
  }

  /** (int) and (long) of a double already rounded toward zero: clamps to the range. */
  function SaturateToInt32(x: int): (r: Int32)
    ensures INT32_MIN <= x <= INT32_MAX ==> r == x
    ensures x > INT32_MAX ==> r == INT32_MAX
    ensures x < INT32_MIN ==> r == INT32_MIN
  {
    if x > INT32_MAX then INT32_MAX else if x < INT32_MIN then INT32_MIN else x
  }

  function SaturateToInt64(x: int): (r: Int64)
    ensures INT64_MIN <= x <= INT64_MAX ==> r == x
    ensures x > INT64_MAX ==> r == INT64_MAX
    ensures x < INT64_MIN ==> r == INT64_MIN
  {
    if x > INT64_MAX then INT64_MAX else if x < INT64_MIN then INT64_MIN else x
  }

  /** String.valueOf(v): the `toString` text of a value, "null" for null. */
  function ToText(v: Value): (r: string)
    ensures v.VStr? ==> r == v.s
    ensures v.VInt? ==> ParseInt32(r) == Some(v.i) && ParseInt64(r) == Some(v.i as int)
    ensures v.VLong? ==> ParseInt64(r) == Some(v.l)
    ensures v.VBool? ==> (IsTrueText(r) <==> v.b) && ParseDecimal(r).None?
    ensures v.VNull? ==> r == "null"
  {
    match v
    case VStr(s) => s
    case VInt(i) => Int32RoundTrip(i); Int64RoundTrip(i); IntToDecimal(i)
    case VLong(l) => Int64RoundTrip(l); IntToDecimal(l)
    case VBool(b) =>
      var text := if b then "true" else "false";
      TrueTextCases(text);
      assert !IsDigit(text[0]);
      text
    case VDouble(d) => d.text
    case VDate(d) => d.text
    case VNull => "null"
  }

  /** Number.intValue() of a numeric value. */
  function IntValue(v: Value): (r: Int32)
    requires v.IsNumber()
    ensures v.VInt? ==> r == v.i
    ensures v.VLong? ==> r == WrapToInt32(v.l)
    ensures v.VDouble? ==> r == SaturateToInt32(v.d.whole)
  {
    match v
    case VInt(i) => i
    case VLong(l) => WrapToInt32(l)
    case VDouble(d) => SaturateToInt32(d.whole)
  }

  /** Number.longValue() of a numeric value. */
  function LongValue(v: Value): (r: Int64)
    requires v.IsNumber()
    ensures v.VInt? ==> r == v.i
    ensures v.VLong? ==> r == v.l
    ensures v.VDouble? ==> r == SaturateToInt64(v.d.whole)
  {
    match v
    case VInt(i) => i
    case VLong(l) => l
    case VDouble(d) => SaturateToInt64(d.whole)
  }

  // ---------------------------------------------------------------- text helpers

  function LowerChar(c: char): char {
    if 'A' <= c <= 'Z' then ((c as int) + 32) as char else c
  }

  /** String.toLowerCase() on the ASCII letters. */
  function ToLower(s: string): (r: string)
    ensures |r| == |s|
    ensures forall i :: 0 <= i < |s| ==> r[i] == LowerChar(s[i])
  {
    seq(|s|, i requires 0 <= i < |s| => LowerChar(s[i]))
  }

  /** The text both getBoolean accessors accept as true: "true" in any case, or "1". */
  predicate IsTrueText(s: string) {
    var lower := ToLower(s);
    lower == "true" || lower == "1"
  }

  lemma TrueTextCases(s: string)
    ensures IsTrueText(s) <==>
      s == "1" ||
      (|s| == 4 && s[0] in "tT" && s[1] in "rR" && s[2] in "uU" && s[3] in "eE")
  {
    var lower := ToLower(s);
    if |s| == 4 && s[0] in "tT" && s[1] in "rR" && s[2] in "uU" && s[3] in "eE" {
      assert lower == "true";
    }
    if lower == "1" {
      assert s[0] == '1';
    }
  }

  /** The number of `?` placeholders in a piece of SQL text. */
  function CountPlaceholders(s: string): nat
    decreases |s|
  {
    if |s| == 0 then 0
    else CountPlaceholders(s[..|s| - 1]) + (if s[|s| - 1] == '?' then 1 else 0)
  }

  lemma {:induction false} PlaceholdersAppend(a: string, b: string)
    ensures CountPlaceholders(a + b) == CountPlaceholders(a) + CountPlaceholders(b)
    decreases |b|
  {
    if |b| > 0 {
      assert (a + b)[..|a + b| - 1] == a + b[..|b| - 1];
      PlaceholdersAppend(a, b[..|b| - 1]);
    } else {
      assert a + b == a;
    }
  }

  lemma {:induction false} NoPlaceholderWithoutMark(s: string)
    requires '?' !in s
    ensures CountPlaceholders(s) == 0
    decreases |s|
  {
    if |s| > 0 {
      assert s[..|s| - 1] + [s[|s| - 1]] == s;
      NoPlaceholderWithoutMark(s[..|s| - 1]);
    }
  }
}
