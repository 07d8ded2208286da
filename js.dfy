/**
 * JavaScript value semantics that the modelled code relies on: dynamic values,
 * truthiness and `||`, optional-chained `toLowerCase`, `includes`, string
 * `replace` with a string pattern, `slice(-n)`, `trim`, and the exceptions a
 * call on the wrong kind of value throws.
 */
module Js {

  datatype Option<+T> = None | Some(value: T)

  /** What a throwing expression throws. */
  datatype Exception =
    | TypeError          // calling a method the value does not have
    | RangeError         // toISOString() of an invalid Date
    | Error(message: string)

  /** The outcome of evaluating an expression that may throw. */
  datatype Result<+T> = Ok(value: T) | Throws(exception: Exception) {
    predicate IsFailure() { Throws? }
    function PropagateFailure<U>(): Result<U>
      requires Throws?
    {
      Throws(exception)
    }
    function Extract(): T
      requires Ok?
    {
      value
    }
  }

  /**
   * A dynamically typed value as the code sees it. `Date(iso)` is a valid Date
   * object whose toISOString() is `iso`; `InvalidDate` is a Date whose time is NaN.
   */
  datatype Value =
    | Undefined
    | Null
    | Bool(b: bool)
    | Num(n: real)
    | Str(s: string)
    | Date(iso: string)
    | InvalidDate

  predicate Truthy(v: Value) {
    match v
    case Undefined => false
    case Null => false
    case Bool(b) => b
    case Num(n) => n != 0.0
    case Str(s) => s != ""
    case Date(_) => true
    case InvalidDate => true
  }

  /** `a || b` */
  function Or(a: Value, b: Value): (r: Value)
    ensures Truthy(a) ==> r == a
    ensures !Truthy(a) ==> r == b
  {
    if Truthy(a) then a else b
  }

  /** `a || d` gives `a` back exactly when `a` is truthy or already is the default. */
  lemma OrKeeps(a: Value, d: Value)
    ensures Or(a, d) == a <==> Truthy(a) || a == d
  {
  }

  predicate Nullish(v: Value) {
    v == Undefined || v == Null
  }

  /** String.prototype.toLowerCase on the ASCII letters. */
  function LowerChar(c: char): char {
    if 'A' <= c <= 'Z' then (c as int + 32) as char else c
  }

  function Lower(s: string): (r: string)
    ensures |r| == |s|
    ensures forall i :: 0 <= i < |s| ==> r[i] == LowerChar(s[i])
  {
    seq(|s|, i requires 0 <= i < |s| => LowerChar(s[i]))
  }

  /** `v?.toLowerCase()`: undefined for a nullish value, a TypeError for a non-string. */
  function LowerOpt(v: Value): (r: Result<Option<string>>)
    ensures r.Ok? <==> (v.Str? || Nullish(v))
    ensures v.Str? ==> r == Ok(Some(Lower(v.s)))
    ensures Nullish(v) ==> r == Ok(None)
  {
    match v
    case Str(s) => Ok(Some(Lower(s)))
    case Undefined => Ok(None)
    case Null => Ok(None)
    case _ => Throws(TypeError)
  }

  /** `v.toLowerCase()` without optional chaining: only a string has it. */
  function LowerStrict(v: Value): (r: Result<string>)
    ensures r.Ok? <==> v.Str?
    ensures v.Str? ==> r.value == Lower(v.s)
  {
    if v.Str? then Ok(Lower(v.s)) else Throws(TypeError)
  }

  /** `s.includes(sub)` */
  predicate Contains(s: string, sub: string) {
    exists i | 0 <= i <= |s| - |sub| :: OccursAt(s, sub, i)
  }

  predicate OccursAt(s: string, sub: string, i: nat)
    requires i + |sub| <= |s|
  {
    s[i..i + |sub|] == sub
  }

  /** `s.indexOf(c)`: the first position of c, or -1. */
  function IndexOf(s: string, c: char): (k: int)
    ensures -1 <= k < |s|
    ensures k == -1 <==> c !in s
    ensures k >= 0 ==> s[k] == c && c !in s[..k]
  {
    if s == [] then -1
    else if s[0] == c then 0
    else
      var k := IndexOf(s[1..], c);
      assert k >= 0 ==> s[..k + 1] == [s[0]] + s[1..][..k];
      if k == -1 then -1 else k + 1
  }

  /** `s.replace(from, to)` with a one-character string pattern: only the first occurrence. */
  function ReplaceFirst(s: string, from: char, to: char): (r: string)
    ensures |r| == |s|
    ensures from !in s ==> r == s
  {
    var k := IndexOf(s, from);
    if k < 0 then s else s[..k] + [to] + s[k + 1..]
  }

  /** Only the first occurrence is replaced: whatever follows it is kept as it is. */
  lemma ReplaceSplit(pre: string, from: char, to: char, post: string)
    requires from !in pre
    ensures ReplaceFirst(pre + [from] + post, from, to) == pre + [to] + post
  {
    var s := pre + [from] + post;
    assert s[..|pre|] == pre && s[|pre|] == from;
    var k := IndexOf(s, from);
    assert forall i | 0 <= i < |pre| :: s[i] == pre[i];
    assert from in s[..|pre| + 1];
    assert k == |pre|;
    assert s[|pre| + 1..] == post;
  }

  /** `s.slice(-n)` for n > 0: the last n characters, or all of s when it is shorter. */
  function SliceLast(s: string, n: nat): (r: string)
    ensures |r| == if |s| < n then |s| else n
    ensures r == s[|s| - |r|..]
  {
    if |s| <= n then s else s[|s| - n..]
  }

  /** `v?.slice(-n)` on a value: undefined for nullish, a TypeError for a non-string. */
  function SliceLastOpt(v: Value, n: nat): (r: Result<Value>)
    ensures r.Ok? <==> (v.Str? || Nullish(v))
    ensures v.Str? ==> r == Ok(Str(SliceLast(v.s, n)))
    ensures Nullish(v) ==> r == Ok(Undefined)
  {
    match v
    case Str(s) => Ok(Str(SliceLast(s, n)))
    case Undefined => Ok(Undefined)
    case Null => Ok(Undefined)
    case _ => Throws(TypeError)
  }

  /** `a` is `b` with some elements dropped and the rest in their order (what `filter` keeps). */
  predicate Sublist<T(==)>(a: seq<T>, b: seq<T>)
    decreases |b|
  {
    if a == [] then true
    else if b == [] then false
    else if a[0] == b[0] then Sublist(a[1..], b[1..])
    else Sublist(a, b[1..])
  }

  /**
   * The characters String.prototype.trim removes: ECMAScript's WhiteSpace
   * (tab, vertical tab, form feed, space, no-break space, the byte-order
   * mark and the space separators of category Zs) and LineTerminator.
   */
  predicate IsSpace(c: char) {
    c == ' ' || c == '\t' || c == '\n' || c == '\r' || c == '\U{000B}' || c == '\U{000C}'
    || c == '\U{00A0}' || c == '\U{FEFF}' || c == '\U{1680}'
    || ('\U{2000}' <= c <= '\U{200A}')
    || c == '\U{2028}' || c == '\U{2029}' || c == '\U{202F}' || c == '\U{205F}' || c == '\U{3000}'
  }

  function TrimStart(s: string): (r: string)
    ensures |r| <= |s| && r == s[|s| - |r|..]
    ensures r != [] ==> !IsSpace(r[0])
    ensures forall i :: 0 <= i < |s| - |r| ==> IsSpace(s[i])
  {
    if s != [] && IsSpace(s[0]) then
      var r := TrimStart(s[1..]);
      assert s[|s| - |r|..] == s[1..][|s| - 1 - |r|..];
      assert forall i :: 1 <= i < |s| - |r| ==> s[i] == s[1..][i - 1];
      r
    else s
  }

  function TrimEnd(s: string): (r: string)
    ensures |r| <= |s| && r == s[..|r|]
    ensures r != [] ==> !IsSpace(r[|r| - 1])
    ensures forall i :: |r| <= i < |s| ==> IsSpace(s[i])
  {
    if s != [] && IsSpace(s[|s| - 1]) then TrimEnd(s[..|s| - 1]) else s
  }

  /** `s.trim()` */
  function Trim(s: string): string {
    TrimEnd(TrimStart(s))
  }

  predicate Blank(s: string) {
    forall i :: 0 <= i < |s| ==> IsSpace(s[i])
  }

  /** `!s.trim()` holds exactly for the strings made only of white space. */
  lemma TrimEmptyIffBlank(s: string)
    ensures Trim(s) == "" <==> Blank(s)
  {
    var t := TrimStart(s);
    if Trim(s) == "" {
      // What is left after the leading blanks starts with a non-blank, so nothing is left.
      assert t == [];
    }
  }

  /** `iso.split("T")[0]`: everything before the first 'T'. */
  function BeforeT(iso: string): (r: string)
    ensures 'T' !in r
    ensures |r| <= |iso| && r == iso[..|r|]
    ensures |r| < |iso| ==> iso[|r|] == 'T'
  {
    if iso == [] || iso[0] == 'T' then [] else [iso[0]] + BeforeT(iso[1..])
  }

  lemma {:induction false} BeforeTOfSplit(day: string, time: string)
    requires 'T' !in day
    ensures BeforeT(day + "T" + time) == day
  {
    if day != [] {
      assert (day + "T" + time)[1..] == day[1..] + "T" + time;
      BeforeTOfSplit(day[1..], time);
    }
  }

  predicate IsDigit(c: char) { '0' <= c <= '9' }

  function DigitValue(c: char): int { c as int - '0' as int }

  /** The shape of ECMAScript's date-only form `YYYY-MM-DD`: digits with dashes at 4 and 7. */
  predicate IsDateOnly(s: string) {
    && |s| == 10
    && s[4] == '-' && s[7] == '-'
    && forall i | 0 <= i < 10 && i != 4 && i != 7 :: IsDigit(s[i])
  }

  function YearOf(s: string): int
    requires IsDateOnly(s)
  {
    1000 * DigitValue(s[0]) + 100 * DigitValue(s[1]) + 10 * DigitValue(s[2]) + DigitValue(s[3])
  }

  function MonthOf(s: string): int
    requires IsDateOnly(s)
  {
    10 * DigitValue(s[5]) + DigitValue(s[6])
  }

  function DayOf(s: string): int
    requires IsDateOnly(s)
  {
    10 * DigitValue(s[8]) + DigitValue(s[9])
  }

  /** The bounds the date-time string format puts on its fields: MM in 01..12, DD in 01..31. */
  predicate InBounds(s: string)
    requires IsDateOnly(s)
  {
    1 <= MonthOf(s) <= 12 && 1 <= DayOf(s) <= 31
  }

  predicate IsLeapYear(y: int) {
    y % 4 == 0 && (y % 100 != 0 || y % 400 == 0)
  }

  /** The number of days of month m (1..12) of the proleptic Gregorian year y. */
  function DaysInMonth(y: int, m: int): (n: int)
    ensures 28 <= n <= 31
    ensures n == 31 <==> m != 2 && m != 4 && m != 6 && m != 9 && m != 11
    ensures m == 2 ==> (n == 29 <==> IsLeapYear(y))
  {
    if m == 2 then (if IsLeapYear(y) then 29 else 28)
    else if m == 4 || m == 6 || m == 9 || m == 11 then 30
    else 31
  }

  /** A `YYYY-MM-DD` string naming a day that exists. */
  predicate IsCalendarDate(s: string) {
    IsDateOnly(s) && 1 <= MonthOf(s) <= 12 && 1 <= DayOf(s) <= DaysInMonth(YearOf(s), MonthOf(s))
  }

  /** The shape toISOString() gives a Date with a four-digit year: a calendar date, then `T`. */
  predicate IsIsoInstant(iso: string) {
    |iso| > 11 && IsCalendarDate(iso[..10]) && iso[10] == 'T'
  }

  /** The largest time value a Date can hold, in milliseconds either side of the epoch. */
  const MaxTime: int := 8_640_000_000_000_000

  /** `new Date(0)`, the epoch. */
  const Epoch: string := "1970-01-01T00:00:00.000Z"

  /** ToIntegerOrInfinity on a finite number: truncation toward zero. */
  function Truncate(x: real): (t: int)
    ensures x >= 0.0 ==> t as real <= x < t as real + 1.0
    ensures x <= 0.0 ==> t as real - 1.0 < x <= t as real
  {
    if x >= 0.0 then x.Floor else -((-x).Floor)
  }

  /**
   * The time value `new Date(v)` gives an argument that is neither a Date nor a
   * string: ToNumber (undefined is NaN, null is 0, a boolean is 0 or 1), then
   * TimeClip (NaN or more than `MaxTime` either side gives none, otherwise the
   * number truncated).
   */
  function ClippedTime(v: Value): (t: Option<int>)
    requires !v.Date? && v != InvalidDate && !v.Str?
    ensures t.Some? ==> -MaxTime <= t.value <= MaxTime
    ensures t.None? <==> v == Undefined || (v.Num? && (v.n < -MaxTime as real || v.n > MaxTime as real))
  {
    match v
    case Undefined => None
    case Null => Some(0)
    case Bool(b) => Some(if b then 1 else 0)
    case Num(n) =>
      if n < -MaxTime as real || n > MaxTime as real then None
      else
        var t := Truncate(n);
        assert -MaxTime <= t <= MaxTime;
        Some(t)
  }

  /** `n` written with exactly `width` decimal digits (the low ones). */
  function Digits(n: nat, width: nat): (r: string)
    ensures |r| == width
    ensures forall i | 0 <= i < width :: IsDigit(r[i])
  {
    if width == 0 then [] else Digits(n / 10, width - 1) + [('0' as int + n % 10) as char]
  }

  /**
   * The proleptic Gregorian (year, month, day) of a count of days since
   * 1970-01-01, by the era-of-400-years method: days are shifted to start on
   * 0000-03-01, split into 146097-day eras, and a year is read as starting in March.
   */
  function CivilFromDays(days: int): (int, int, int) {
    var z := days + 719468;
    var era := z / 146097;
    var doe := z - era * 146097;
    var yoe := (doe - doe / 1460 + doe / 36524 - doe / 146096) / 365;
    var doy := doe - (365 * yoe + yoe / 4 - yoe / 100);
    var mp := (5 * doy + 2) / 153;
    var d := doy - (153 * mp + 2) / 5 + 1;
    var m := if mp < 10 then mp + 3 else mp - 9;
    var y := yoe + era * 400 + (if m <= 2 then 1 else 0);
    (y, m, d)
  }

  /** toISOString()'s year: four digits in 0..9999, otherwise a sign and six digits. */
  function YearText(y: int): (r: string)
    ensures 0 <= y <= 9999 ==> |r| == 4 && forall i | 0 <= i < 4 :: IsDigit(r[i])
    ensures !(0 <= y <= 9999) ==> |r| == 7
  {
    if 0 <= y <= 9999 then Digits(y, 4)
    else if y < 0 then "-" + Digits(-y, 6)
    else "+" + Digits(y, 6)
  }

  /** toISOString()'s `YYYY-MM-DD` part for the day `days` after 1970-01-01. */
  function DayText(days: int): (r: string)
    ensures |r| == 10 || |r| == 13
  {
    var (y, m, d) := CivilFromDays(days);
    YearText(y) + "-" + Digits(m, 2) + "-" + Digits(d, 2)
  }

  /** toISOString()'s `HH:mm:ss.sss` part for `ms` milliseconds into a day. */
  function ClockText(ms: nat): (r: string)
    ensures |r| == 12
  {
    Digits(ms / 3_600_000, 2) + ":" + Digits(ms / 60_000 % 60, 2) + ":"
      + Digits(ms / 1000 % 60, 2) + "." + Digits(ms % 1000, 3)
  }

  /** toISOString() of the Date whose time value is `t` milliseconds after the epoch. */
  function TimeIso(t: int): (r: string)
    ensures |r| == 24 || |r| == 27
    ensures r[|r| - 1] == 'Z'
  {
    DayText(t / 86_400_000) + "T" + ClockText(t % 86_400_000) + "Z"
  }

  /**
   * The argument strings this model leaves to the host: every string but the
   * `YYYY-MM-DD` forms it fixes. ECMAScript's date-time string format also fixes
   * `YYYY`, `YYYY-MM`, `±YYYYYY-MM-DD` and the forms with a time part
   * (`YYYY-MM-DDTHH:mm[:ss[.sss]]` with `Z` or an offset); the model does not
   * parse those and gives them to `hostParse` as well. A day past its month's
   * end, such as "2024-02-30", is one on which engines differ.
   */
  predicate HostParsed(s: string) {
    !IsDateOnly(s) || (InBounds(s) && !IsCalendarDate(s))
  }

  /**
   * `new Date(v)` with one argument:
   *  - a Date is copied (an invalid Date stays invalid);
   *  - a string is parsed: a `YYYY-MM-DD` calendar date is midnight UTC, and one
   *    whose month or day is out of bounds is an invalid Date, as ECMAScript
   *    fixes them; every other string (the `HostParsed` ones) is the model's
   *    parameter `hostParse` (the ISO string of the resulting instant, or `None`
   *    for an invalid Date);
   *  - anything else is converted to a number and clipped (`ClippedTime`), as
   *    ECMAScript fixes it.
   */
  function NewDate(v: Value, hostParse: Value -> Option<string>): (r: Value)
    ensures r.Date? || r == InvalidDate
    ensures v.Date? ==> r == v
    ensures v == InvalidDate || v == Undefined ==> r == InvalidDate
    ensures v.Str? && IsCalendarDate(v.s) ==> r == Date(v.s + "T00:00:00.000Z")
    ensures v.Str? && IsDateOnly(v.s) && !InBounds(v.s) ==> r == InvalidDate
    ensures v.Num? ==> (r == InvalidDate <==> v.n < -MaxTime as real || v.n > MaxTime as real)
  {
    match v
    case Date(_) => v
    case InvalidDate => v
    case Str(s) =>
      if !HostParsed(s) then (if InBounds(s) then Date(s + "T00:00:00.000Z") else InvalidDate)
      else HostDate(hostParse(v))
    case _ =>
      match ClippedTime(v)
      case Some(t) => Date(TimeIso(t))
      case None => InvalidDate
  }

  /** The host parser decides only the strings `HostParsed` names. */
  lemma HostOnlyForStrings(v: Value, h1: Value -> Option<string>, h2: Value -> Option<string>)
    requires !(v.Str? && HostParsed(v.s))
    ensures NewDate(v, h1) == NewDate(v, h2)
  {
  }

  function HostDate(parsed: Option<string>): Value {
    if parsed.Some? then Date(parsed.value) else InvalidDate
  }

  /** Day 0 is 1970-01-01. */
  lemma EpochDaySample()
    ensures CivilFromDays(0) == (1970, 1, 1)
  {
    assert 719468 / 146097 == 4 && 135080 / 1460 == 92 && 135080 / 36524 == 3 && 135080 / 146096 == 0;
    assert 134991 / 365 == 369 && 369 / 4 == 92 && 369 / 100 == 3 && 1532 / 153 == 10 && 1532 / 5 == 306;
  }

  /** The two- and three-digit texts of 0 and 1. */
  lemma SmallDigits()
    ensures Digits(0, 2) == "00" && Digits(1, 2) == "01"
    ensures Digits(0, 3) == "000" && Digits(1, 3) == "001"
  {
    assert Digits(0, 1) == "0" && Digits(1, 1) == "1";
  }

  /** The first day's date text. */
  lemma EpochDayText()
    ensures DayText(0) == "1970-01-01"
  {
    EpochDaySample();
    SmallDigits();
    assert YearText(1970) == "1970" by {
      assert Digits(1, 1) == "1" && Digits(19, 2) == "19" && Digits(197, 3) == "197";
    }
  }

  /** The day, hour, minute and second fields of a time in the first second are 0. */
  lemma FirstSecondFields(t: int)
    requires 0 <= t < 1000
    ensures t / 86_400_000 == 0 && t % 86_400_000 == t
    ensures t / 3_600_000 == 0 && t / 60_000 == 0 && t / 1000 == 0 && t % 1000 == t
  {
  }

  /** Within the first second of the epoch only the milliseconds field varies. */
  lemma FirstSecondIso(t: int)
    requires 0 <= t < 1000
    ensures TimeIso(t) == "1970-01-01T" + ClockText(t) + "Z"
    ensures ClockText(t) == "00:00:00." + Digits(t, 3)
  {
    var ms := t % 86_400_000;
    FirstSecondFields(t);
    SmallDigits();
    var prefix := "00" + ":" + "00" + ":" + "00" + ".";
    assert prefix == "00:00:00.";
    assert ClockText(ms) == prefix + Digits(t, 3);
    EpochDayText();
    assert "1970-01-01" + "T" == "1970-01-01T";
  }

  /**
   * ToNumber and TimeClip on samples: null, false and -0.5 are time 0; true and
   * 1.75 are time 1 (a fraction is cut toward zero); one millisecond past
   * `MaxTime` either side has no time.
   */
  lemma ClipSamples()
    ensures ClippedTime(Null) == ClippedTime(Bool(false)) == ClippedTime(Num(-0.5)) == Some(0)
    ensures ClippedTime(Bool(true)) == ClippedTime(Num(1.75)) == Some(1)
    ensures ClippedTime(Num(MaxTime as real + 1.0)) == ClippedTime(Num(-MaxTime as real - 1.0)) == None
    ensures ClippedTime(Num(MaxTime as real)) == Some(MaxTime)
  {
  }

  /** The texts of the epoch and the millisecond after it, from their parts. */
  lemma FirstSecondTexts()
    ensures "1970-01-01T" + ("00:00:00." + "000") + "Z" == Epoch
    ensures "1970-01-01T" + ("00:00:00." + "001") + "Z" == "1970-01-01T00:00:00.001Z"
  {
  }

  /** Every argument whose time value is 0 (null, false, 0, -0.5, ...) makes the epoch. */
  lemma ZeroTimeIsEpoch(v: Value, hostParse: Value -> Option<string>)
    requires !v.Date? && v != InvalidDate && !v.Str?
    requires ClippedTime(v) == Some(0)
    ensures NewDate(v, hostParse) == Date(Epoch)
  {
    var t := ClippedTime(v).value;
    assert NewDate(v, hostParse) == Date(TimeIso(t));
    FirstSecondIso(t);
    SmallDigits();
    FirstSecondTexts();
  }

  /** Every argument whose time value is 1 (true, 1, 1.75, ...) makes the millisecond after the epoch. */
  lemma OneTimeIsFirstMilli(v: Value, hostParse: Value -> Option<string>)
    requires !v.Date? && v != InvalidDate && !v.Str?
    requires ClippedTime(v) == Some(1)
    ensures NewDate(v, hostParse) == Date("1970-01-01T00:00:00.001Z")
  {
    var t := ClippedTime(v).value;
    assert NewDate(v, hostParse) == Date(TimeIso(t));
    FirstSecondIso(t);
    SmallDigits();
    FirstSecondTexts();
  }

  /** Day 11016 after the epoch is 2000-02-29, a leap day of a century year divisible by 400. */
  lemma LeapDaySample()
    ensures CivilFromDays(11016) == (2000, 2, 29)
  {
    assert 730484 / 146097 == 4 && 146096 / 1460 == 100 && 146096 / 36524 == 4 && 146096 / 146096 == 1;
    assert 145999 / 365 == 399 && 399 / 4 == 99 && 399 / 100 == 3 && 1827 / 153 == 11 && 1685 / 5 == 337;
  }

  /** Day -1 after the epoch is the day before the epoch, 1969-12-31. */
  lemma DayBeforeEpochSample()
    ensures CivilFromDays(-1) == (1969, 12, 31)
  {
    assert 719467 / 146097 == 4 && 135079 / 1460 == 92 && 135079 / 36524 == 3 && 135079 / 146096 == 0;
    assert 134990 / 365 == 369 && 369 / 4 == 92 && 369 / 100 == 3 && 1527 / 153 == 9 && 1379 / 5 == 275;
  }

  /** Day -719528 after the epoch is 0000-01-01, the first day with a four-digit year. */
  lemma FirstYearSample()
    ensures CivilFromDays(-719528) == (0, 1, 1)
  {
    assert -60 / 146097 == -1 && 146037 / 1460 == 100 && 146037 / 36524 == 3 && 146037 / 146096 == 0;
    assert 145940 / 365 == 399 && 399 / 4 == 99 && 399 / 100 == 3 && 1532 / 153 == 10 && 1532 / 5 == 306;
  }

  /** Day 2932896 after the epoch is 9999-12-31, the last day with a four-digit year. */
  lemma LastYearSample()
    ensures CivilFromDays(2932896) == (9999, 12, 31)
  {
    assert 3652364 / 146097 == 24 && 146036 / 1460 == 100 && 146036 / 36524 == 3 && 146036 / 146096 == 0;
    assert 145939 / 365 == 399 && 399 / 4 == 99 && 399 / 100 == 3 && 1527 / 153 == 9 && 1379 / 5 == 275;
  }
}
