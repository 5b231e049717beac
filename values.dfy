/** Cell values and column dtypes of the tables the pipeline moves between layers,
    together with the text, number and calendar primitives the layers rely on:
    decimal digits, the numbers `to_numeric` reads, ISO dates, and the orders
    used when rows are sorted and partitions are grouped. */
module Values {
  import opened Wrappers

  type byte = bv8

  // ---------------------------------------------------------------------------
  // Calendar dates
  // ---------------------------------------------------------------------------

  datatype Date = Date(year: int, month: int, day: int)

  predicate IsLeapYear(y: int) {
    y % 4 == 0 && (y % 100 != 0 || y % 400 == 0)
  }

  function DaysInMonth(year: int, month: int): (n: int)
    requires 1 <= month <= 12
    ensures 28 <= n <= 31
    ensures month == 2 ==> (n == 29 <==> IsLeapYear(year))
  {
    if month == 2 then (if IsLeapYear(year) then 29 else 28)
    else if month == 4 || month == 6 || month == 9 || month == 11 then 30
    else 31
  }

  /** Strict date order on (year, month, day). */
  predicate DateLt(a: Date, b: Date) {
    a.year < b.year
    || (a.year == b.year && a.month < b.month)
    || (a.year == b.year && a.month == b.month && a.day < b.day)
  }

  predicate DateLe(a: Date, b: Date) {
    a == b || DateLt(a, b)
  }

  /** The first and last calendar days whose midnight a nanosecond timestamp holds. */
  const MinDate := Date(1677, 9, 22)
  const MaxDate := Date(2262, 4, 11)

  /** A real calendar day that a nanosecond-resolution timestamp can represent. */
  predicate ValidDate(d: Date) {
    1 <= d.month <= 12 && 1 <= d.day <= DaysInMonth(d.year, d.month)
    && DateLe(MinDate, d) && DateLe(d, MaxDate)
  }

  const SecondsPerDay: int := 86400

  // ---------------------------------------------------------------------------
  // Values and dtypes
  // ---------------------------------------------------------------------------

  /** One cell. `Null` stands for every missing marker (None, NaN, NaT, pd.NA). A
      timestamp is a calendar day and the second of that day. */
  datatype Value =
    | Null
    | IntV(i: int)
    | RealV(r: real)
    | TextV(s: string)
    | DateTimeV(date: Date, secs: int)

  /** The dtype tag of a column: integer, floating point, object (text and mixed) or
      datetime64. An integer column may hold nulls (the nullable Int64 dtype). */
  datatype DType = IntType | FloatType | ObjectType | DateTimeType

  predicate ValidValue(v: Value) {
    v.DateTimeV? ==> ValidDate(v.date) && 0 <= v.secs < SecondsPerDay
  }

  /** Whether a value may sit in a column of the given dtype. */
  predicate Fits(v: Value, dt: DType) {
    ValidValue(v) &&
    match dt
    case IntType => v.Null? || v.IntV?
    case FloatType => v.Null? || v.RealV?
    case DateTimeType => v.Null? || v.DateTimeV?
    case ObjectType => true
  }

  predicate IsWhole(r: real) {
    r == r.Floor as real
  }

  /** The number a value denotes when `to_numeric` coerces it, or None when it does not
      parse (coerced to NaN). */
  function NumericOf(v: Value): Option<real> {
    match v
    case IntV(i) => Some(i as real)
    case RealV(r) => Some(r)
    case TextV(s) =>
      (match ParseNumber(s)
       case Some(IntV(i)) => Some(i as real)
       case Some(RealV(r)) => Some(r)
       case _ => None)
    case _ => None
  }

  // ---------------------------------------------------------------------------
  // Decimal digits
  // ---------------------------------------------------------------------------

  predicate IsDigit(c: char) {
    '0' <= c <= '9'
  }

  predicate AllDigits(s: string) {
    forall i :: 0 <= i < |s| ==> IsDigit(s[i])
  }

  function DigitValue(c: char): nat
    requires IsDigit(c)
  {
    c as int - '0' as int
  }

  function DigitChar(n: nat): (c: char)
    requires n < 10
    ensures IsDigit(c) && DigitValue(c) == n
  {
    ('0' as int + n) as char
  }

  function Pow10(k: nat): (p: nat)
    ensures p >= 1
  {
    if k == 0 then 1 else 10 * Pow10(k - 1)
  }

  /** The number a string of decimal digits spells. */
  function DigitsValue(s: string): nat
    requires AllDigits(s)
  {
    if s == [] then 0 else DigitsValue(s[..|s| - 1]) * 10 + DigitValue(s[|s| - 1])
  }

  /** The last `width` decimal digits of `n`, zero padded (the `%04d`, `%02d` forms). */
  function PadDigits(n: nat, width: nat): (s: string)
    ensures |s| == width && AllDigits(s)
  {
    if width == 0 then [] else PadDigits(n / 10, width - 1) + [DigitChar(n % 10)]
  }

  lemma {:induction false} PadDigitsValue(n: nat, width: nat)
    requires n < Pow10(width)
    ensures DigitsValue(PadDigits(n, width)) == n
  {
    if width > 0 {
      var p := PadDigits(n / 10, width - 1);
      PadDigitsValue(n / 10, width - 1);
      assert (p + [DigitChar(n % 10)])[..|p|] == p;
    }
  }

  lemma {:induction false} DigitsValuePad(s: string)
    requires AllDigits(s)
    ensures DigitsValue(s) < Pow10(|s|)
    ensures PadDigits(DigitsValue(s), |s|) == s
  {
    if s != [] {
      var init := s[..|s| - 1];
      DigitsValuePad(init);
      var v := DigitsValue(s);
      assert v / 10 == DigitsValue(init) && v % 10 == DigitValue(s[|s| - 1]);
      assert DigitChar(DigitValue(s[|s| - 1])) == s[|s| - 1];
      assert s == init + [s[|s| - 1]];
    }
  }

  /** Decimal rendering of a natural number without leading zeros. */
  function NatToStr(n: nat): (s: string)
    ensures |s| > 0 && AllDigits(s)
  {
    if n < 10 then [DigitChar(n)] else NatToStr(n / 10) + [DigitChar(n % 10)]
  }

  lemma {:induction false} NatToStrValue(n: nat)
    ensures DigitsValue(NatToStr(n)) == n
  {
    if n >= 10 {
      var p := NatToStr(n / 10);
      NatToStrValue(n / 10);
      assert (p + [DigitChar(n % 10)])[..|p|] == p;
    } else {
      assert [DigitChar(n)][..0] == [];
    }
  }

  /** Decimal rendering of an integer, as Python's `str(int)` writes it. */
  function IntToStr(i: int): string {
    if i < 0 then "-" + NatToStr(-i) else NatToStr(i)
  }

  // ---------------------------------------------------------------------------
  // Numbers read from text
  // ---------------------------------------------------------------------------

  /** The position of the first occurrence of `c` in `s`. */
  function IndexOf(s: string, c: char): (r: Option<nat>)
    ensures r.Some? ==> r.value < |s| && s[r.value] == c && c !in s[..r.value]
    ensures r.None? ==> c !in s
  {
    if s == [] then None
    else if s[0] == c then Some(0)
    else match IndexOf(s[1..], c)
      case None => None
      case Some(k) => (assert s[..k + 1] == [s[0]] + s[1..][..k]; Some(k + 1))
  }

  /** The white space `to_numeric` skips around a number: blank, tab, line feed,
      vertical tab, form feed and carriage return. */
  predicate IsAsciiSpace(c: char) {
    c == ' ' || ('\t' <= c <= '\r')
  }

  predicate AllAsciiSpace(s: string) {
    forall k :: 0 <= k < |s| ==> IsAsciiSpace(s[k])
  }

  function TrimStart(s: string): string {
    if s != [] && IsAsciiSpace(s[0]) then TrimStart(s[1..]) else s
  }

  function TrimEnd(s: string): string {
    if s != [] && IsAsciiSpace(s[|s| - 1]) then TrimEnd(s[..|s| - 1]) else s
  }

  /** `digits[.digits]` with at least one digit, either side of the point: the
      unsigned value. */
  function ParseMantissa(m: string): (r: Option<real>)
    ensures r.Some? ==> r.value >= 0.0
  {
    match IndexOf(m, '.')
    case None =>
      if |m| > 0 && AllDigits(m) then Some(DigitsValue(m) as real) else None
    case Some(k) =>
      var whole, frac := m[..k], m[k + 1..];
      if |whole| + |frac| > 0 && AllDigits(whole) && AllDigits(frac) then
        Some(DigitsValue(whole) as real + DigitsValue(frac) as real / Pow10(|frac|) as real)
      else None
  }

  /** An exponent: an optional sign and at least one digit. */
  function ParseExponent(e: string): (r: Option<int>)
    ensures r.Some? && |e| > 0 && e[0] != '-' ==> r.value >= 0
  {
    var neg := |e| > 0 && e[0] == '-';
    var digits := if |e| > 0 && (e[0] == '-' || e[0] == '+') then e[1..] else e;
    if |digits| > 0 && AllDigits(digits) then
      var n: int := DigitsValue(digits);
      Some(if neg then -n else n)
    else None
  }

  /** `x` times ten to the power `e`. */
  function Scale(x: real, e: int): real {
    if e >= 0 then x * Pow10(e) as real else x / Pow10(-e) as real
  }

  /** The numbers `to_numeric` reads from text, once the white space around it is
      skipped: an optional sign, a mantissa of digits with an optional point (digits
      on at least one side), and an optional exponent `e` or `E` with an optional sign
      and digits. Text with neither a point nor an exponent is an integer, any other
      number a float. */
  function ParseNumber(s: string): (r: Option<Value>)
    ensures r.Some? ==> r.value.IntV? || r.value.RealV?
  {
    ReadNumber(TrimEnd(TrimStart(s)))
  }

  /** `ParseNumber` on text without surrounding white space: an optional sign, then
      the unsigned number. */
  function ReadNumber(t: string): (r: Option<Value>)
    ensures r.Some? ==> r.value.IntV? || r.value.RealV?
  {
    if |t| > 0 && t[0] == '-' then Negated(ReadUnsigned(t[1..]))
    else if |t| > 0 && t[0] == '+' then ReadUnsigned(t[1..])
    else ReadUnsigned(t)
  }

  function Negated(r: Option<Value>): (n: Option<Value>)
    ensures r.Some? && (r.value.IntV? || r.value.RealV?) ==> n.Some? && NegatedValue(n.value, r.value)
    ensures r.None? ==> n.None?
  {
    match r
    case Some(IntV(i)) => Some(IntV(-i))
    case Some(RealV(x)) => Some(RealV(-x))
    case _ => r
  }

  predicate NegatedValue(n: Value, v: Value) {
    (v.IntV? && n == IntV(-v.i)) || (v.RealV? && n == RealV(-v.r))
  }

  /** The position of the exponent marker, `e` or `E`. */
  function ExponentMark(body: string): (r: Option<nat>)
    ensures r.Some? ==> r.value < |body| && (body[r.value] == 'e' || body[r.value] == 'E')
    ensures r.None? ==> 'e' !in body && 'E' !in body
  {
    match IndexOf(body, 'e') case Some(i) => Some(i) case None => IndexOf(body, 'E')
  }

  function ReadUnsigned(body: string): (r: Option<Value>)
    ensures r.Some? ==> r.value.IntV? || r.value.RealV?
  {
    match ExponentMark(body)
    case None => ReadPlain(body)
    case Some(k) => ReadScaled(body[..k], body[k + 1..])
  }

  /** Without an exponent: digits alone are an integer, a mantissa with a point a float. */
  function ReadPlain(body: string): (r: Option<Value>)
    ensures r.Some? ==> r.value.IntV? || r.value.RealV?
  {
    if |body| > 0 && AllDigits(body) then Some(IntV(DigitsValue(body)))
    else match ParseMantissa(body)
      case Some(x) => Some(RealV(x))
      case None => None
  }

  /** With an exponent: always a float. */
  function ReadScaled(m: string, e: string): (r: Option<Value>)
    ensures r.Some? ==> r.value.RealV?
  {
    match (ParseMantissa(m), ParseExponent(e))
    case (Some(x), Some(n)) => Some(RealV(Scale(x, n)))
    case _ => None
  }

  /** Text that starts and ends with something other than white space is not trimmed. */
  lemma Untrimmed(s: string)
    requires s != [] && !IsAsciiSpace(s[0]) && !IsAsciiSpace(s[|s| - 1])
    ensures TrimEnd(TrimStart(s)) == s
  {
  }

  /** A string of digits holds no point and no exponent marker. */
  lemma DigitsHaveNoMarks(s: string)
    requires AllDigits(s)
    ensures '.' !in s && 'e' !in s && 'E' !in s
  {
    forall j | 0 <= j < |s| ensures s[j] != '.' && s[j] != 'e' && s[j] != 'E' {
      assert IsDigit(s[j]);
    }
  }

  /** Unsigned digits read as the integer they spell. */
  lemma ReadDigits(t: string)
    requires t != [] && AllDigits(t)
    ensures ReadNumber(t) == Some(IntV(DigitsValue(t)))
  {
    DigitsHaveNoMarks(t);
    assert IsDigit(t[0]);
    assert ReadUnsigned(t) == ReadPlain(t);
  }

  /** A minus sign and digits read as the negated integer. */
  lemma ReadNegativeDigits(t: string)
    requires t != [] && AllDigits(t)
    ensures ReadNumber("-" + t) == Some(IntV(-(DigitsValue(t) as int)))
  {
    DigitsHaveNoMarks(t);
    assert ("-" + t)[1..] == t;
    assert ReadUnsigned(t) == ReadPlain(t);
  }

  /** Text written by `str(int)` reads back as the same integer. */
  lemma ParseIntRoundTrip(i: int)
    ensures ParseNumber(IntToStr(i)) == Some(IntV(i))
  {
    var n: nat := if i < 0 then -i else i;
    var digits := NatToStr(n);
    NatToStrValue(n);
    var s := IntToStr(i);
    assert !IsAsciiSpace(s[|s| - 1]) by {
      assert s[|s| - 1] == digits[|digits| - 1];
      assert IsDigit(digits[|digits| - 1]);
    }
    assert !IsAsciiSpace(s[0]) by {
      if i >= 0 {
        assert IsDigit(digits[0]);
      }
    }
    Untrimmed(s);
    if i < 0 {
      ReadNegativeDigits(digits);
    } else {
      ReadDigits(digits);
    }
  }

  /** White space before and after a number does not change what it reads as. */
  lemma {:induction false} TrimStartSpace(pre: string, s: string)
    requires AllAsciiSpace(pre)
    ensures TrimStart(pre + s) == TrimStart(s)
    decreases |pre|
  {
    if pre != [] {
      assert (pre + s)[1..] == pre[1..] + s;
      TrimStartSpace(pre[1..], s);
    } else {
      assert pre + s == s;
    }
  }

  lemma {:induction false} TrimEndSpace(s: string, post: string)
    requires AllAsciiSpace(post)
    ensures TrimEnd(s + post) == TrimEnd(s)
    decreases |post|
  {
    if post != [] {
      var init := post[..|post| - 1];
      assert (s + post)[..|s + post| - 1] == s + init;
      TrimEndSpace(s, init);
    } else {
      assert s + post == s;
    }
  }

  lemma PaddedNumber(pre: string, s: string, post: string)
    requires AllAsciiSpace(pre) && AllAsciiSpace(post)
    requires s != [] && !IsAsciiSpace(s[0]) && !IsAsciiSpace(s[|s| - 1])
    ensures ParseNumber(pre + s + post) == ParseNumber(s)
  {
    assert pre + s + post == pre + (s + post);
    TrimStartSpace(pre, s + post);
    assert TrimStart(s + post) == s + post;
    TrimEndSpace(s, post);
    Untrimmed(s);
  }

  /** The first occurrence of a character that follows a run without it. */
  lemma IndexOfAt(s: string, c: char, k: nat)
    requires k < |s| && s[k] == c && c !in s[..k]
    ensures IndexOf(s, c) == Some(k)
  {
  }

  lemma MantissaDigits(a: string)
    requires a != [] && AllDigits(a)
    ensures ParseMantissa(a) == Some(DigitsValue(a) as real)
  {
    DigitsHaveNoMarks(a);
  }

  lemma ExponentDigits(b: string)
    requires b != [] && AllDigits(b)
    ensures ParseExponent(b) == Some(DigitsValue(b) as int)
  {
    assert IsDigit(b[0]);
  }

  /** Digits, `e`, digits, read as the float they denote. */
  lemma ReadScientific(a: string, b: string)
    requires a != [] && b != [] && AllDigits(a) && AllDigits(b)
    ensures ReadNumber(a + "e" + b) == Some(RealV(Scale(DigitsValue(a) as real, DigitsValue(b))))
  {
    var s := a + "e" + b;
    MarkAfterDigits(a, b);
    assert ReadNumber(s) == ReadUnsigned(s) by {
      assert IsDigit(a[0]) && s[0] == a[0];
    }
    ScaledDigits(a, b);
  }

  lemma MarkAfterDigits(a: string, b: string)
    requires AllDigits(a)
    ensures ReadUnsigned(a + "e" + b) == ReadScaled(a, b)
  {
    var s := a + "e" + b;
    DigitsHaveNoMarks(a);
    assert s[..|a|] == a && s[|a| + 1..] == b && s[|a|] == 'e';
    IndexOfAt(s, 'e', |a|);
  }

  lemma ScaledDigits(a: string, b: string)
    requires a != [] && b != [] && AllDigits(a) && AllDigits(b)
    ensures ReadScaled(a, b) == Some(RealV(Scale(DigitsValue(a) as real, DigitsValue(b))))
  {
    MantissaDigits(a);
    ExponentDigits(b);
  }

  /** Scientific notation: digits, `e`, digits read as the float they denote. */
  lemma ExponentForm(m: nat, e: nat)
    ensures ParseNumber(NatToStr(m) + "e" + NatToStr(e)) == Some(RealV(Scale(m as real, e)))
  {
    var a, b := NatToStr(m), NatToStr(e);
    var s := a + "e" + b;
    NatToStrValue(m);
    NatToStrValue(e);
    assert IsDigit(a[0]) && s[0] == a[0];
    assert IsDigit(b[|b| - 1]) && s[|s| - 1] == b[|b| - 1];
    Untrimmed(s);
    ReadScientific(a, b);
  }



  // ---------------------------------------------------------------------------
  // ISO dates and times of day
  // ---------------------------------------------------------------------------

  /** `YYYY-MM-DD`, the form `strftime("%Y-%m-%d")` and `date.isoformat()` write. */
  function FormatDate(d: Date): (s: string)
    ensures |s| == 10
  {
    PadDigits(if d.year < 0 then 0 else d.year, 4) + DateTail(d)
  }

  /** The `-MM-DD` tail of an ISO date. */
  function DateTail(d: Date): string {
    "-" + PadDigits(if d.month < 0 then 0 else d.month, 2)
    + ("-" + PadDigits(if d.day < 0 then 0 else d.day, 2))
  }

  /** Reads `%Y-%m-%d` the way `to_datetime` does with that format: four digits of
      year, a dash, one or two digits of month, a dash and one or two digits of day,
      naming a valid calendar day. */
  function ParseIsoDate(s: string): (r: Option<Date>)
    ensures r.Some? ==> ValidDate(r.value)
  {
    if |s| > 5 && s[4] == '-' && AllDigits(s[..4]) then
      var rest := s[5..];
      match IndexOf(rest, '-')
      case None => None
      case Some(k) =>
        var m, dd := rest[..k], rest[k + 1..];
        if 1 <= |m| <= 2 && 1 <= |dd| <= 2 && AllDigits(m) && AllDigits(dd) then
          var d := Date(DigitsValue(s[..4]), DigitsValue(m), DigitsValue(dd));
          if ValidDate(d) then Some(d) else None
        else None
    else None
  }

  /** One-digit months and days are read too. */
  lemma ShortIsoDate()
    ensures ParseIsoDate("2024-1-5") == Some(Date(2024, 1, 5))
  {
    var s := "2024-1-5";
    assert s[5..] == "1-5";
    IndexOfAt("1-5", '-', 1);
    assert "1-5"[..1] == "1" && "1-5"[2..] == "5";
    assert s[..4] == "2024";
    assert DigitsValue("2024") == 2024 by {
      assert "2024"[..3] == "202" && "202"[..2] == "20" && "20"[..1] == "2";
    }
  }

  lemma FormatDateParts(d: Date)
    requires ValidDate(d)
    ensures FormatDate(d)[..4] == PadDigits(d.year, 4)
    ensures FormatDate(d)[4] == '-' && FormatDate(d)[7] == '-'
    ensures FormatDate(d)[5..7] == PadDigits(d.month, 2)
    ensures FormatDate(d)[8..] == PadDigits(d.day, 2)
  {
  }

  /** Formatting a valid date and reading it back gives the date. */
  lemma IsoDateRoundTrip(d: Date)
    requires ValidDate(d)
    ensures ParseIsoDate(FormatDate(d)) == Some(d)
  {
    var s := FormatDate(d);
    FormatDateParts(d);
    IndexOfAt(s[5..], '-', 2);
    assert s[5..][..2] == s[5..7] && s[5..][3..] == s[8..];
    PadDigitsValue(d.year, 4);
    PadDigitsValue(d.month, 2);
    PadDigitsValue(d.day, 2);
  }

  /** Ten characters with dashes at 4 and 7, cut at the dashes. */
  lemma IsoShape(s: string)
    requires |s| == 10 && s[4] == '-' && s[7] == '-'
    ensures s == s[..4] + ("-" + s[5..7] + ("-" + s[8..]))
  {
    assert s[4..] == "-" + s[5..7] + ("-" + s[8..]);
    assert s == s[..4] + s[4..];
  }

  /** What a successful read of ten characters has seen: the padded form. */
  lemma ParsedIsoFields(s: string)
    requires ParseIsoDate(s).Some? && |s| == 10
    ensures s[4] == '-' && s[7] == '-'
    ensures AllDigits(s[..4]) && AllDigits(s[5..7]) && AllDigits(s[8..])
    ensures ParseIsoDate(s).value == Date(DigitsValue(s[..4]), DigitsValue(s[5..7]), DigitsValue(s[8..]))
  {
    var rest := s[5..];
    var k := IndexOf(rest, '-').value;
    assert k == 2;
    assert rest[..k] == s[5..7] && rest[k + 1..] == s[8..];
  }

  /** The ISO form of a date whose fields pad to the given digit strings. */
  lemma FormatOfPadded(d: Date, y: string, m: string, dd: string)
    requires d.year >= 0 && d.month >= 0 && d.day >= 0
    requires PadDigits(d.year, 4) == y && PadDigits(d.month, 2) == m && PadDigits(d.day, 2) == dd
    ensures FormatDate(d) == y + ("-" + m + ("-" + dd))
  {
  }

  /** Ten characters that read as a date are exactly that date's ISO form. */
  lemma IsoDateCanonical(s: string)
    requires ParseIsoDate(s).Some? && |s| == 10
    ensures FormatDate(ParseIsoDate(s).value) == s
  {
    ParsedIsoFields(s);
    var y, m, dd := s[..4], s[5..7], s[8..];
    DigitsValuePad(y);
    DigitsValuePad(m);
    DigitsValuePad(dd);
    FormatOfPadded(ParseIsoDate(s).value, y, m, dd);
    IsoShape(s);
  }

  /** Reads `HH:MM:SS` as the second of the day. */
  function ParseTimeOfDay(s: string): (r: Option<int>)
    ensures r.Some? ==> 0 <= r.value < SecondsPerDay
  {
    if |s| == 8 && s[2] == ':' && s[5] == ':'
       && AllDigits(s[..2]) && AllDigits(s[3..5]) && AllDigits(s[6..])
    then
      var h, m, sec := DigitsValue(s[..2]), DigitsValue(s[3..5]), DigitsValue(s[6..]);
      if h < 24 && m < 60 && sec < 60 then Some(h * 3600 + m * 60 + sec) else None
    else None
  }

  /** The timestamps `to_datetime` reads from text: a date as `ParseIsoDate` reads it,
      optionally followed by a space or `T` and `HH:MM:SS`. */
  function ParseDateTimeText(s: string): (r: Option<Value>)
    ensures r.Some? ==> r.value.DateTimeV? && ValidValue(r.value)
  {
    match ParseIsoDate(s)
    case Some(d) => Some(DateTimeV(d, 0))
    case None =>
      if |s| >= 9 && (s[|s| - 9] == ' ' || s[|s| - 9] == 'T') then
        match (ParseIsoDate(s[..|s| - 9]), ParseTimeOfDay(s[|s| - 8..]))
        case (Some(d), Some(t)) => Some(DateTimeV(d, t))
        case _ => None
      else None
  }

  // ---------------------------------------------------------------------------
  // Three-way comparisons
  // ---------------------------------------------------------------------------

  function IntCmp(a: int, b: int): int {
    if a < b then -1 else if a > b then 1 else 0
  }

  function RealCmp(a: real, b: real): int {
    if a < b then -1 else if a > b then 1 else 0
  }

  /** Lexicographic comparison of strings by code point, as Python orders `str`. */
  function StrCmp(a: string, b: string): (r: int)
    ensures -1 <= r <= 1
  {
    if a == [] && b == [] then 0
    else if a == [] then -1
    else if b == [] then 1
    else if a[0] < b[0] then -1
    else if a[0] > b[0] then 1
    else StrCmp(a[1..], b[1..])
  }

  lemma {:induction false} StrCmpEqual(a: string, b: string)
    ensures StrCmp(a, b) == 0 <==> a == b
  {
    if a != [] && b != [] && a[0] == b[0] {
      StrCmpEqual(a[1..], b[1..]);
      assert a == [a[0]] + a[1..] && b == [b[0]] + b[1..];
    }
  }

  lemma {:induction false} StrCmpAntisymmetric(a: string, b: string)
    ensures StrCmp(a, b) == -StrCmp(b, a)
  {
    if a != [] && b != [] && a[0] == b[0] {
      StrCmpAntisymmetric(a[1..], b[1..]);
    }
  }

  lemma {:induction false} StrCmpTransitive(a: string, b: string, c: string)
    requires StrCmp(a, b) <= 0 && StrCmp(b, c) <= 0
    ensures StrCmp(a, c) <= 0
  {
    if a != [] && b != [] && c != [] && a[0] == b[0] && b[0] == c[0] {
      StrCmpTransitive(a[1..], b[1..], c[1..]);
    }
  }

  /** Comparing two concatenations whose first parts have equal length compares the
      first parts, and the second parts when the first parts are equal. */
  lemma {:induction false} StrCmpConcat(a: string, b: string, c: string, d: string)
    requires |a| == |c|
    ensures StrCmp(a + b, c + d) == if a == c then StrCmp(b, d) else StrCmp(a, c)
  {
    if a != [] {
      assert (a + b)[1..] == a[1..] + b && (c + d)[1..] == c[1..] + d;
      StrCmpConcat(a[1..], b, c[1..], d);
      if a[0] == c[0] && a[1..] == c[1..] {
        assert a == c;
      }
      if a[0] == c[0] && a != c {
        assert a == [a[0]] + a[1..] && c == [c[0]] + c[1..];
      }
    } else {
      assert a + b == b && c + d == d;
    }
  }

  /** Zero-padded digit strings of one width compare as the numbers they spell. */
  lemma {:induction false} StrCmpPadDigits(n: nat, m: nat, width: nat)
    requires n < Pow10(width) && m < Pow10(width)
    ensures StrCmp(PadDigits(n, width), PadDigits(m, width)) == IntCmp(n, m)
  {
    if width > 0 {
      var p, q := PadDigits(n / 10, width - 1), PadDigits(m / 10, width - 1);
      StrCmpPadDigits(n / 10, m / 10, width - 1);
      StrCmpConcat(p, [DigitChar(n % 10)], q, [DigitChar(m % 10)]);
      StrCmpEqual(p, q);
      if p == q {
        assert n / 10 == m / 10;
        assert StrCmp([DigitChar(n % 10)], [DigitChar(m % 10)]) == IntCmp(n % 10, m % 10) by {
          assert [DigitChar(n % 10)][1..] == [] && [DigitChar(m % 10)][1..] == [];
        }
      }
    } else {
      assert n == 0 && m == 0;
    }
  }

  function DateCmp(a: Date, b: Date): (r: int)
    ensures r == 0 <==> a == b
    ensures r < 0 <==> DateLt(a, b)
  {
    if a.year != b.year then IntCmp(a.year, b.year)
    else if a.month != b.month then IntCmp(a.month, b.month)
    else IntCmp(a.day, b.day)
  }

  lemma DateTailOrder(a: Date, b: Date)
    requires ValidDate(a) && ValidDate(b)
    ensures StrCmp(DateTail(a), DateTail(b))
            == if a.month != b.month then IntCmp(a.month, b.month) else IntCmp(a.day, b.day)
  {
    var ma, mb := PadDigits(a.month, 2), PadDigits(b.month, 2);
    var da, db := PadDigits(a.day, 2), PadDigits(b.day, 2);
    StrCmpPadDigits(a.month, b.month, 2);
    StrCmpPadDigits(a.day, b.day, 2);
    StrCmpEqual(ma, mb);
    assert DateTail(a) == "-" + (ma + ("-" + da));
    assert DateTail(b) == "-" + (mb + ("-" + db));
    StrCmpConcat("-", ma + ("-" + da), "-", mb + ("-" + db));
    StrCmpConcat(ma, "-" + da, mb, "-" + db);
    StrCmpConcat("-", da, "-", db);
  }

  /** The ISO text of valid dates sorts exactly as the dates do; this is why grouping
      by the formatted day string and grouping by the day give the same groups, in the
      same order. */
  lemma FormatDateOrder(a: Date, b: Date)
    requires ValidDate(a) && ValidDate(b)
    ensures StrCmp(FormatDate(a), FormatDate(b)) == DateCmp(a, b)
  {
    var ya, yb := PadDigits(a.year, 4), PadDigits(b.year, 4);
    StrCmpPadDigits(a.year, b.year, 4);
    StrCmpEqual(ya, yb);
    StrCmpConcat(ya, DateTail(a), yb, DateTail(b));
    DateTailOrder(a, b);
  }

  lemma FormatDateInjective(a: Date, b: Date)
    requires ValidDate(a) && ValidDate(b) && FormatDate(a) == FormatDate(b)
    ensures a == b
  {
    FormatDateOrder(a, b);
    StrCmpEqual(FormatDate(a), FormatDate(b));
  }

  /** The position of each kind of value in a sort: nulls last, as `sort_values` places
      them; values of different kinds are kept apart by kind. */
  function Rank(v: Value): int {
    match v
    case IntV(_) => 0
    case RealV(_) => 1
    case TextV(_) => 2
    case DateTimeV(_, _) => 3
    case Null => 4
  }

  function ValueCmp(a: Value, b: Value): (r: int)
    ensures -1 <= r <= 1
  {
    if Rank(a) != Rank(b) then IntCmp(Rank(a), Rank(b))
    else match (a, b)
      case (IntV(x), IntV(y)) => IntCmp(x, y)
      case (RealV(x), RealV(y)) => RealCmp(x, y)
      case (TextV(x), TextV(y)) => StrCmp(x, y)
      case (DateTimeV(d, s), DateTimeV(e, t)) => if d != e then DateCmp(d, e) else IntCmp(s, t)
      case _ => 0
  }

  lemma ValueCmpProperties(a: Value, b: Value)
    ensures ValueCmp(a, b) == 0 <==> a == b
    ensures ValueCmp(a, b) == -ValueCmp(b, a)
  {
    if a.TextV? && b.TextV? {
      StrCmpEqual(a.s, b.s);
      StrCmpAntisymmetric(a.s, b.s);
    }
  }

  lemma ValueCmpTransitive(a: Value, b: Value, c: Value)
    requires ValueCmp(a, b) <= 0 && ValueCmp(b, c) <= 0
    ensures ValueCmp(a, c) <= 0
  {
    if a.TextV? && b.TextV? && c.TextV? {
      StrCmpTransitive(a.s, b.s, c.s);
    }
  }

  // ---------------------------------------------------------------------------
  // Text helpers
  // ---------------------------------------------------------------------------

  /** Python's `str.lower` on ASCII letters. */
  function LowerChar(c: char): char {
    if 'A' <= c <= 'Z' then (c as int + 32) as char else c
  }

  /** Python's `str.upper` on ASCII letters. */
  function UpperChar(c: char): char {
    if 'a' <= c <= 'z' then (c as int - 32) as char else c
  }

  function Lower(s: string): (r: string)
    ensures |r| == |s| && forall i :: 0 <= i < |s| ==> r[i] == LowerChar(s[i])
  {
    if s == [] then [] else [LowerChar(s[0])] + Lower(s[1..])
  }

  function Upper(s: string): (r: string)
    ensures |r| == |s| && forall i :: 0 <= i < |s| ==> r[i] == UpperChar(s[i])
  {
    if s == [] then [] else [UpperChar(s[0])] + Upper(s[1..])
  }

  /** Whether `sub` occurs in `s` (Python's `sub in s`). */
  predicate Contains(s: string, sub: string)
    decreases |s|
  {
    if |sub| > |s| then false
    else s[..|sub|] == sub || (|s| > 0 && Contains(s[1..], sub))
  }
}
