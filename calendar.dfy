/**
 * Civil dates as the form screens handle them: the proleptic Gregorian
 * calendar, a day count to compare and subtract dates, the
 * `dd/MM/yyyy` parsing and formatting of date-fns, and the conversion to
 * a UTC instant that the screens send to the server.
 */
module Calendar {
  import opened Wrappers
  import opened Text

  datatype Date = Date(day: int, month: int, year: int)

  predicate IsLeap(y: int) {
    y % 4 == 0 && (y % 100 != 0 || y % 400 == 0)
  }

  function DaysInMonth(m: int, y: int): int {
    if m == 2 then (if IsLeap(y) then 29 else 28)
    else if m == 4 || m == 6 || m == 9 || m == 11 then 30
    else 31
  }

  /** A date date-fns accepts: a positive year, a month 1..12, a day that exists in that month. */
  predicate IsRealDate(d: Date) {
    d.year >= 1 && 1 <= d.month <= 12 && 1 <= d.day <= DaysInMonth(d.month, d.year)
  }

  /** Days from 0001-01-01 to January 1 of year `y` (any integer year, as `Date.UTC` counts). */
  function DaysBeforeYear(y: int): int {
    365 * (y - 1) + (y - 1) / 4 - (y - 1) / 100 + (y - 1) / 400
  }

  /** Days of year `y` before the first of month `m`. */
  function DaysBeforeMonth(m: int, y: int): int
    decreases m
  {
    if m <= 1 then 0 else DaysBeforeMonth(m - 1, y) + DaysInMonth(m - 1, y)
  }

  /** The day count of a date, 0 for 0001-01-01; `day` may lie outside the month, as in `Date.UTC`. */
  function DayNumber(d: Date): int {
    DaysBeforeYear(d.year) + DaysBeforeMonth(d.month, d.year) + d.day - 1
  }

  /** Calendar order: year, then month, then day. */
  predicate Before(a: Date, b: Date) {
    a.year < b.year
    || (a.year == b.year && a.month < b.month)
    || (a.year == b.year && a.month == b.month && a.day < b.day)
  }

  lemma DivSteps(y: int)
    ensures y / 4 - (y - 1) / 4 == if y % 4 == 0 then 1 else 0
    ensures y / 100 - (y - 1) / 100 == if y % 100 == 0 then 1 else 0
    ensures y / 400 - (y - 1) / 400 == if y % 400 == 0 then 1 else 0
  {
  }

  /** A year has 366 days when it is a leap year and 365 otherwise, and its months add up to it. */
  lemma YearLength(y: int)
    ensures DaysBeforeYear(y + 1) - DaysBeforeYear(y) == if IsLeap(y) then 366 else 365
    ensures DaysBeforeMonth(13, y) == DaysBeforeYear(y + 1) - DaysBeforeYear(y)
  {
    DivSteps(y);
    if y % 100 == 0 {
      assert y % 4 == 0;
    }
    if y % 400 == 0 {
      assert y % 100 == 0;
    }
  }

  lemma {:induction false} YearsIncrease(a: int, b: int)
    requires a <= b
    ensures DaysBeforeYear(a) + 365 * (b - a) <= DaysBeforeYear(b)
    decreases b - a
  {
    if a < b {
      YearsIncrease(a, b - 1);
      YearLength(b - 1);
    }
  }

  lemma {:induction false} MonthsIncrease(m: int, n: int, y: int)
    requires 1 <= m <= n <= 13
    ensures DaysBeforeMonth(m, y) + 28 * (n - m) <= DaysBeforeMonth(n, y)
    decreases n - m
  {
    if m < n {
      MonthsIncrease(m, n - 1, y);
    }
  }

  /** A real date's day number falls inside its month and inside its year. */
  lemma DayNumberBounds(d: Date)
    requires IsRealDate(d)
    ensures DaysBeforeMonth(d.month, d.year) <= DaysBeforeMonth(d.month, d.year) + d.day - 1 < DaysBeforeMonth(d.month + 1, d.year)
    ensures DaysBeforeYear(d.year) <= DayNumber(d) < DaysBeforeYear(d.year + 1)
  {
    YearLength(d.year);
    MonthsIncrease(d.month + 1, 13, d.year);
  }

  lemma EarlierYear(a: Date, b: Date)
    requires IsRealDate(a) && IsRealDate(b) && a.year < b.year
    ensures DayNumber(a) < DayNumber(b)
  {
    DayNumberBounds(a);
    DayNumberBounds(b);
    YearsIncrease(a.year + 1, b.year);
  }

  lemma EarlierMonth(a: Date, b: Date)
    requires IsRealDate(a) && IsRealDate(b) && a.year == b.year && a.month < b.month
    ensures DayNumber(a) < DayNumber(b)
  {
    DayNumberBounds(a);
    MonthsIncrease(a.month + 1, b.month, a.year);
  }

  lemma Earlier(a: Date, b: Date)
    requires IsRealDate(a) && IsRealDate(b) && Before(a, b)
    ensures DayNumber(a) < DayNumber(b)
  {
    if a.year < b.year {
      EarlierYear(a, b);
    } else if a.month < b.month {
      EarlierMonth(a, b);
    }
  }

  /** The day count orders real dates as the calendar does, and tells them apart. */
  lemma DayNumberOrder(a: Date, b: Date)
    requires IsRealDate(a) && IsRealDate(b)
    ensures Before(a, b) <==> DayNumber(a) < DayNumber(b)
    ensures a == b <==> DayNumber(a) == DayNumber(b)
  {
    if Before(a, b) {
      Earlier(a, b);
    } else if Before(b, a) {
      Earlier(b, a);
    } else {
      assert a == b;
    }
  }

  /** The following day: next in the month, the first of the next month, or New Year's Day. */
  function NextDay(d: Date): Date {
    if d.day < DaysInMonth(d.month, d.year) then Date(d.day + 1, d.month, d.year)
    else if d.month < 12 then Date(1, d.month + 1, d.year)
    else Date(1, 1, d.year + 1)
  }

  lemma NextDayNumber(d: Date)
    requires IsRealDate(d)
    ensures IsRealDate(NextDay(d))
    ensures DayNumber(NextDay(d)) == DayNumber(d) + 1
  {
    if d.day >= DaysInMonth(d.month, d.year) && d.month == 12 {
      YearLength(d.year);
    }
  }

  /** date-fns `addDays(d, n)` for a non-negative `n`. */
  function AddDays(d: Date, n: nat): Date
    decreases n
  {
    if n == 0 then d else AddDays(NextDay(d), n - 1)
  }

  lemma {:induction false} AddDaysNumber(d: Date, n: nat)
    requires IsRealDate(d)
    ensures IsRealDate(AddDays(d, n))
    ensures DayNumber(AddDays(d, n)) == DayNumber(d) + n
    decreases n
  {
    if n > 0 {
      NextDayNumber(d);
      AddDaysNumber(NextDay(d), n - 1);
    }
  }

  /** Adding days to a real date gives a real date. */
  lemma {:induction false} AddDaysReal(d: Date, n: nat)
    requires IsRealDate(d)
    ensures IsRealDate(AddDays(d, n))
    decreases n
  {
    if n > 0 {
      NextDayNumber(d);
      AddDaysReal(NextDay(d), n - 1);
    }
  }

  /** date-fns `differenceInDays` between two local midnights: whole days from `start` to `end`. */
  function DifferenceInDays(end: Date, start: Date): int {
    DayNumber(end) - DayNumber(start)
  }

  /** Adding `n` days to a real date lands `n` days later. */
  lemma DifferenceAfterAdding(start: Date, end: Date, n: nat)
    requires IsRealDate(start) && end == AddDays(start, n)
    ensures DifferenceInDays(end, start) == n
  {
    AddDaysNumber(start, n);
  }

  /** The regular expression `^\d{2}\/\d{2}\/\d{4}$`. */
  predicate DateShaped(s: string) {
    |s| == 10 && s[2] == '/' && s[5] == '/'
    && forall i | 0 <= i < 10 && i != 2 && i != 5 :: IsDigit(s[i])
  }

  /** How many digits, at most `max`, open `s`: what `^\d{1,max}` consumes, 0 when it fails. */
  function LeadingDigits(s: string, max: nat): (n: nat)
    ensures n <= |s| && n <= max
    ensures forall i :: 0 <= i < n ==> IsDigit(s[i])
    ensures n < |s| && n < max ==> !IsDigit(s[n])
  {
    if s == [] || max == 0 || !IsDigit(s[0]) then 0 else 1 + LeadingDigits(s[1..], max - 1)
  }

  /** The date a day, month and year field spell, when it is real. */
  function RealOrNone(d: Date): Option<Date> {
    if IsRealDate(d) then Some(d) else None
  }

  /** A numeric field read by a date-fns token: its value and what follows it. */
  datatype Scanned = Scanned(value: nat, rest: string)

  /** `^\d{1,max}`: the value of the opening digits (at most `max`), `None` when there is none. */
  function NumberField(s: string, max: nat): Option<Scanned> {
    var n := LeadingDigits(s, max);
    if n == 0 then None else Some(Scanned(DigitsValue(s[..n]), s[n..]))
  }

  /** The literal `/` of the format: what follows it, `None` when it is not there. */
  function SlashField(s: string): Option<string> {
    if s != [] && s[0] == '/' then Some(s[1..]) else None
  }

  predicate AllSpace(s: string) {
    forall i | 0 <= i < |s| :: IsSpace(s[i])
  }

  /**
   * date-fns `parse(s, 'dd/MM/yyyy', reference)`: one or two digits of day,
   * '/', one or two of month, '/', one to four of year, then nothing but
   * white space; the fields must form a real date, else the result is an
   * invalid date (`None`).
   */
  function ParseDate(s: string): Option<Date> {
    var day := NumberField(s, 2);
    if day.None? then None else
    var afterDay := SlashField(day.value.rest);
    if afterDay.None? then None else
    var month := NumberField(afterDay.value, 2);
    if month.None? then None else
    var afterMonth := SlashField(month.value.rest);
    if afterMonth.None? then None else
    var year := NumberField(afterMonth.value, 4);
    if year.None? || !AllSpace(year.value.rest) then None
    else RealOrNone(Date(day.value.value, month.value.value, year.value.value))
  }

  /** `validateDate`: non-empty, shaped `DD/MM/AAAA`, and a real date. */
  predicate ValidateDate(s: string) {
    s != "" && DateShaped(s) && ParseDate(s).Some?
  }

  lemma FullField(s: string, n: nat, max: nat)
    requires 0 < n == max <= |s| && forall i :: 0 <= i < n ==> IsDigit(s[i])
    ensures NumberField(s, max) == Some(Scanned(DigitsValue(s[..n]), s[n..]))
  {
  }

  /** On a string of the fixed shape, the parse reads the three fixed fields. */
  lemma ShapedParse(s: string)
    requires DateShaped(s)
    ensures ParseDate(s) == RealOrNone(Date(DigitsValue(s[0..2]), DigitsValue(s[3..5]), DigitsValue(s[6..10])))
  {
    FullField(s, 2, 2);
    assert s[..2] == s[0..2];
    var r1 := s[3..];
    assert SlashField(s[2..]) == Some(r1);
    FullField(r1, 2, 2);
    assert r1[..2] == s[3..5];
    var r2 := s[6..];
    assert SlashField(r1[2..]) == Some(r2);
    FullField(r2, 4, 4);
    assert r2[..4] == s[6..10];
    assert AllSpace(r2[4..]);
  }

  function Pow10(n: nat): nat {
    if n == 0 then 1 else 10 * Pow10(n - 1)
  }

  /** `n` written with exactly `w` digits: its last `w` decimal digits, zero-padded. */
  function Fixed(n: nat, w: nat): (r: string)
    ensures |r| == w && forall i :: 0 <= i < w ==> IsDigit(r[i])
  {
    if w == 0 then "" else Fixed(n / 10, w - 1) + [('0' as int + n % 10) as char]
  }

  /** The `yyyy` token: at least four digits, zero-padded. */
  function YearText(y: nat): string {
    if y < 10000 then Fixed(y, 4) else NatToString(y)
  }

  /** date-fns `format(d, 'dd/MM/yyyy')`. */
  function FormatDate(d: Date): string
    requires IsRealDate(d)
  {
    Fixed(d.day, 2) + "/" + Fixed(d.month, 2) + "/" + YearText(d.year)
  }

  lemma {:induction false} FixedValue(n: nat, w: nat)
    requires n < Pow10(w)
    ensures DigitsValue(Fixed(n, w)) == n
  {
    if w > 0 {
      var r := Fixed(n, w);
      assert r[..|r| - 1] == Fixed(n / 10, w - 1);
      FixedValue(n / 10, w - 1);
    }
  }

  lemma {:induction false} FixedOfDigits(t: string)
    requires forall i :: 0 <= i < |t| ==> IsDigit(t[i])
    ensures Fixed(DigitsValue(t), |t|) == t
  {
    if t != [] {
      var u := t[..|t| - 1];
      FixedOfDigits(u);
      assert t == u + [t[|t| - 1]];
    }
  }

  lemma {:induction false} DigitsBound(t: string)
    requires forall i :: 0 <= i < |t| ==> IsDigit(t[i])
    ensures DigitsValue(t) < Pow10(|t|)
  {
    if t != [] {
      DigitsBound(t[..|t| - 1]);
    }
  }

  /** Formatting a real date with a year up to 9999 gives a valid entry that parses back to it. */
  lemma FormatThenParse(d: Date)
    requires IsRealDate(d) && d.year <= 9999
    ensures DateShaped(FormatDate(d))
    ensures ParseDate(FormatDate(d)) == Some(d)
    ensures ValidateDate(FormatDate(d))
  {
    var s := FormatDate(d);
    assert s[0..2] == Fixed(d.day, 2) && s[3..5] == Fixed(d.month, 2) && s[6..10] == Fixed(d.year, 4);
    FixedValue(d.day, 2);
    FixedValue(d.month, 2);
    FixedValue(d.year, 4);
    ShapedParse(s);
  }

  /** A valid entry is exactly the formatting of the date it parses to. */
  lemma ParseThenFormat(s: string)
    requires ValidateDate(s)
    ensures IsRealDate(ParseDate(s).value) && ParseDate(s).value.year <= 9999
    ensures FormatDate(ParseDate(s).value) == s
  {
    var dd, mm, yyyy := s[0..2], s[3..5], s[6..10];
    ShapedPieces(s);
    var d := Date(DigitsValue(dd), DigitsValue(mm), DigitsValue(yyyy));
    assert ParseDate(s) == Some(d) && IsRealDate(d) by {
      ShapedParse(s);
    }
    assert d.year <= 9999 by {
      DigitsBound(yyyy);
    }
    assert FormatDate(d) == s by {
      FixedOfDigits(dd);
      FixedOfDigits(mm);
      FixedOfDigits(yyyy);
      assert YearText(d.year) == yyyy;
    }
  }

  /** An entry of the fixed shape is its three digit fields joined by slashes. */
  lemma ShapedPieces(s: string)
    requires DateShaped(s)
    ensures s == s[0..2] + "/" + s[3..5] + "/" + s[6..10]
    ensures forall i :: 0 <= i < 2 ==> IsDigit(s[0..2][i]) && IsDigit(s[3..5][i])
    ensures forall i :: 0 <= i < 4 ==> IsDigit(s[6..10][i])
  {
    assert forall i :: 0 <= i < 2 ==> s[0..2][i] == s[i] && s[3..5][i] == s[3 + i];
    assert forall i :: 0 <= i < 4 ==> s[6..10][i] == s[6 + i];
    var joined := s[0..2] + "/" + s[3..5] + "/" + s[6..10];
    assert |joined| == 10;
    forall i | 0 <= i < 10
      ensures joined[i] == s[i]
    {
    }
  }

  /** The first index of `c` in `s`, or `|s|` when there is none. */
  function IndexOf(s: string, c: char): (i: nat)
    ensures i <= |s| && (i < |s| ==> s[i] == c)
    ensures forall j :: 0 <= j < i ==> s[j] != c
  {
    if s == [] then 0 else if s[0] == c then 0 else 1 + IndexOf(s[1..], c)
  }

  /** `s.split(c)` for a one-character separator. */
  function Split(s: string, c: char): (parts: seq<string>)
    ensures |parts| >= 1
    decreases |s|
  {
    var i := IndexOf(s, c);
    if i == |s| then [s] else [s[..i]] + Split(s[i + 1..], c)
  }

  predicate IsHexDigit(c: char) {
    IsDigit(c) || 'a' <= c <= 'f' || 'A' <= c <= 'F'
  }

  function HexDigitValue(c: char): nat
    requires IsHexDigit(c)
  {
    if IsDigit(c) then c as int - '0' as int
    else if 'a' <= c <= 'f' then c as int - 'a' as int + 10
    else c as int - 'A' as int + 10
  }

  /** How many hexadecimal digits open `s`. */
  function LeadingHexDigits(s: string): (n: nat)
    ensures n <= |s| && forall i :: 0 <= i < n ==> IsHexDigit(s[i])
  {
    if s == [] || !IsHexDigit(s[0]) then 0 else 1 + LeadingHexDigits(s[1..])
  }

  function HexValue(s: string): nat
    requires forall i :: 0 <= i < |s| ==> IsHexDigit(s[i])
  {
    if s == [] then 0 else 16 * HexValue(s[..|s| - 1]) + HexDigitValue(s[|s| - 1])
  }

  /** The digits after the sign: a `0x`/`0X` prefix switches to base 16; `None` when no digit of the base follows. */
  function ParseUnsigned(u: string): Option<nat> {
    if |u| >= 2 && u[0] == '0' && (u[1] == 'x' || u[1] == 'X') then
      var n := LeadingHexDigits(u[2..]);
      if n == 0 then None else Some(HexValue(u[2..][..n]))
    else
      var n := LeadingDigits(u, |u|);
      if n == 0 then None else Some(DigitsValue(u[..n]))
  }

  /**
   * `parseInt(s)` with no radix: leading white space skipped, an optional
   * sign, then the longest run of digits of the base; `None` (NaN) when
   * that run is empty.
   */
  function ParseInt(s: string): Option<int> {
    var t := TrimStart(s);
    if t == [] then None
    else if t[0] == '-' then (if ParseUnsigned(t[1..]).Some? then var v: int := ParseUnsigned(t[1..]).value; Some(-v) else None)
    else if t[0] == '+' then (if ParseUnsigned(t[1..]).Some? then Some(ParseUnsigned(t[1..]).value) else None)
    else (if ParseUnsigned(t).Some? then Some(ParseUnsigned(t).value) else None)
  }

  lemma ParseUnsignedOfDigits(t: string)
    requires t != [] && forall i :: 0 <= i < |t| ==> IsDigit(t[i])
    ensures ParseUnsigned(t) == Some(DigitsValue(t))
  {
    assert LeadingDigits(t, |t|) == |t|;
    assert t[..|t|] == t;
  }

  /** A plain run of decimal digits reads as its decimal value. */
  lemma ParseIntOfDigits(t: string)
    requires t != [] && forall i :: 0 <= i < |t| ==> IsDigit(t[i])
    ensures ParseInt(t) == Some(DigitsValue(t))
  {
    assert !IsSpace(t[0]);
    assert TrimStart(t) == t;
    ParseUnsignedOfDigits(t);
  }

  /** Days from 1970-01-01 to a date, as ECMAScript's Day(t) counts them. */
  function EpochDay(d: Date): int {
    DayNumber(d) - DayNumber(Date(1, 1, 1970))
  }

  /** ECMAScript MakeDay(year, month, date): a 0-based month that may overflow into the year, a date that may overflow the month. */
  function MakeDay(year: int, month: int, date: int): int {
    var ym := year + month / 12;
    var mn := month % 12;
    EpochDay(Date(1, mn + 1, ym)) + date - 1
  }

  /** `Date.UTC` maps a year argument from 0 to 99 to 1900 onwards. */
  function UtcYear(y: int): int {
    if 0 <= y <= 99 then 1900 + y else y
  }

  /**
   * The day of `new Date(...)` at 12:00 UTC on that day, when the time value
   * (86 400 000 ms a day, plus 12 hours) lies within the 8.64e15 ms that
   * TimeClip keeps.
   */
  function NoonUtc(year: int, month: int, date: int): Option<int> {
    var day := MakeDay(year, month, date);
    var t := day * 86400000 + 43200000;
    if -8640000000000000 <= t <= 8640000000000000 then Some(day) else None
  }

  /** `parseInt` of the `i`th part of a split, NaN when there is no such part. */
  function PartValue(parts: seq<string>, i: nat): Option<int> {
    if i < |parts| then ParseInt(parts[i]) else None
  }

  /** `const [day, month, year] = dateStr.split('/')`, each part read by `parseInt`; `None` when any is NaN. */
  function SplitFields(s: string): Option<Date> {
    var parts := Split(s, '/');
    var d, m, y := PartValue(parts, 0), PartValue(parts, 1), PartValue(parts, 2);
    if d.None? || m.None? || y.None? then None else Some(Date(d.value, m.value, y.value))
  }

  /**
   * `convertToISO` as written: null for an empty string, else
   * `Date.UTC(year, month - 1, day, 12, 0, 0)` of the parsed parts. The
   * result is the UTC day of the instant sent (whose ISO text ends in
   * `T12:00:00.000Z`), or `None` for null.
   */
  function ConvertToIsoAsWritten(s: string): Option<int> {
    if s == "" then None else SendAsWritten(SplitFields(s))
  }

  /** The day `Date.UTC` gives for the parsed parts, its year argument mapped as `Date.UTC` does. */
  function SendAsWritten(f: Option<Date>): Option<int> {
    if f.None? then None else NoonUtc(UtcYear(f.value.year), f.value.month - 1, f.value.day)
  }

  /** `convertToISO` with the year taken as typed, which is what the form means. */
  function ConvertToIso(s: string): Option<int> {
    if s == "" then None else Send(SplitFields(s))
  }

  /** The day at noon UTC of the parsed parts, the year taken as typed. */
  function Send(f: Option<Date>): Option<int> {
    if f.None? then None else NoonUtc(f.value.year, f.value.month - 1, f.value.day)
  }

  lemma ShapedSplit(s: string)
    requires DateShaped(s)
    ensures Split(s, '/') == [s[0..2], s[3..5], s[6..10]]
  {
    assert IndexOf(s, '/') == 2;
    var r1 := s[3..];
    assert IndexOf(r1, '/') == 2;
    var r2 := r1[3..];
    assert r2 == s[6..10];
    assert IndexOf(r2, '/') == |r2|;
    assert Split(r2, '/') == [r2];
    assert r1[2 + 1..] == r2;
    assert Split(r1, '/') == [r1[..2]] + [r2];
    assert s[2 + 1..] == r1;
    assert Split(s, '/') == [s[..2]] + Split(r1, '/');
    assert s[..2] == s[0..2] && r1[..2] == s[3..5];
  }

  /** The years of real dates from 1 to 9999 stay well inside the range of time values. */
  lemma EpochDayRange(d: Date)
    requires IsRealDate(d) && d.year <= 9999
    ensures -1000000 <= EpochDay(d) <= 3000000
  {
    DayNumberBounds(d);
    YearsIncrease(1, d.year);
    YearsIncrease(d.year + 1, 10000);
  }

  lemma ShapedPart(s: string, i: nat, lo: nat, hi: nat)
    requires DateShaped(s) && i < 3 && lo == 3 * i && hi == (if i == 2 then 10 else lo + 2)
    ensures PartValue(Split(s, '/'), i) == Some(DigitsValue(s[lo..hi]))
  {
    ShapedSplit(s);
    assert Split(s, '/')[i] == s[lo..hi];
    ParseIntOfDigits(s[lo..hi]);
  }

  /** On an entry of the fixed shape, the fields read by `parseInt` are the three fixed fields. */
  lemma ShapedFields(s: string)
    requires DateShaped(s)
    ensures SplitFields(s) == Some(Date(DigitsValue(s[0..2]), DigitsValue(s[3..5]), DigitsValue(s[6..10])))
  {
    ShapedPart(s, 0, 0, 2);
    ShapedPart(s, 1, 3, 5);
    ShapedPart(s, 2, 6, 10);
  }

  /** A valid entry parses to a real date of at most four-digit year, and `parseInt` reads the same fields. */
  lemma ValidEntry(s: string)
    requires ValidateDate(s)
    ensures IsRealDate(ParseDate(s).value) && ParseDate(s).value.year <= 9999
    ensures SplitFields(s) == ParseDate(s)
  {
    var yyyy := s[6..10];
    assert forall i :: 0 <= i < |yyyy| ==> IsDigit(yyyy[i]) by {
      assert forall i :: 0 <= i < 4 ==> yyyy[i] == s[6 + i];
    }
    DigitsBound(yyyy);
    ShapedFields(s);
    ShapedParse(s);
  }

  /** A real date from year 1 to 9999, at noon UTC, is a time value TimeClip keeps. */
  lemma NoonUtcOfReal(d: Date)
    requires IsRealDate(d) && d.year <= 9999
    ensures NoonUtc(d.year, d.month - 1, d.day) == Some(EpochDay(d))
  {
    var m := d.month - 1;
    assert m / 12 == 0 && m % 12 == m;
    assert DayNumber(Date(1, m + 1, d.year)) + d.day - 1 == DayNumber(d);
    assert MakeDay(d.year, m, d.day) == EpochDay(d);
    EpochDayRange(d);
    var t := EpochDay(d) * 86400000 + 43200000;
    assert -8640000000000000 <= t <= 8640000000000000;
  }

  /** The corrected conversion sends exactly the entered date, at noon UTC. */
  lemma ConvertToIsoOfValid(s: string)
    requires ValidateDate(s)
    ensures ConvertToIso(s) == Some(EpochDay(ParseDate(s).value))
  {
    var d := ParseDate(s).value;
    ValidEntry(s);
    assert ConvertToIso(s) == NoonUtc(d.year, d.month - 1, d.day);
    NoonUtcOfReal(d);
  }

  /** The conversion as written agrees with the corrected one from year 100 on. */
  lemma AsWrittenAgreesFromYear100(s: string)
    requires ValidateDate(s) && ParseDate(s).value.year >= 100
    ensures ConvertToIsoAsWritten(s) == ConvertToIso(s)
  {
    ValidEntry(s);
  }

  /** For a valid entry, the conversion as written and the corrected one agree exactly from year 100 on. */
  lemma AsWrittenAgreesIff(s: string)
    requires ValidateDate(s)
    ensures ConvertToIsoAsWritten(s) == ConvertToIso(s) <==> ParseDate(s).value.year >= 100
  {
    ValidEntry(s);
    if ParseDate(s).value.year >= 100 {
      AsWrittenAgreesFromYear100(s);
    } else {
      AsWrittenShiftsEarlyYears(s);
    }
  }

  lemma ShiftedLeap(y: int)
    requires 1 <= y < 100
    ensures IsLeap(1900 + y) == IsLeap(y)
  {
    assert (1900 + y) % 4 == y % 4;
    assert (1900 + y) % 100 == y;
  }

  /** The same day and month of 1900 plus a year from 1 to 99 is a real, later day that noon UTC keeps. */
  lemma ShiftedDate(d: Date)
    requires IsRealDate(d) && d.year < 100
    ensures var shifted := Date(d.day, d.month, 1900 + d.year);
      NoonUtc(shifted.year, shifted.month - 1, shifted.day) == Some(EpochDay(shifted))
      && EpochDay(shifted) != EpochDay(d)
  {
    var shifted := Date(d.day, d.month, 1900 + d.year);
    ShiftedLeap(d.year);
    assert IsRealDate(shifted);
    NoonUtcOfReal(shifted);
    DayNumberOrder(d, shifted);
  }

  /**
   * Parsed parts of a real date with a year from 1 to 99 are sent, as
   * written, as the same day and month of 1900 plus that year, and by the
   * corrected conversion as the day entered.
   */
  lemma EarlyYearSent(f: Option<Date>)
    requires f.Some? && IsRealDate(f.value) && f.value.year < 100
    ensures var d := f.value;
      SendAsWritten(f) == Some(EpochDay(Date(d.day, d.month, 1900 + d.year)))
      && Send(f) == Some(EpochDay(d))
      && EpochDay(Date(d.day, d.month, 1900 + d.year)) != EpochDay(d)
  {
    var d := f.value;
    ShiftedDate(d);
    NoonUtcOfReal(d);
    assert SendAsWritten(f) == NoonUtc(1900 + d.year, d.month - 1, d.day);
    assert Send(f) == NoonUtc(d.year, d.month - 1, d.day);
  }

  /**
   * A valid entry with a year from 1 to 99 is sent, as written, as the same
   * day and month of 1900 plus that year: another day than the one entered.
   */
  lemma AsWrittenShiftsEarlyYears(s: string)
    requires ValidateDate(s) && ParseDate(s).value.year < 100
    ensures var d := ParseDate(s).value;
      ConvertToIsoAsWritten(s) == Some(EpochDay(Date(d.day, d.month, 1900 + d.year)))
      && ConvertToIso(s) == Some(EpochDay(d))
      && EpochDay(Date(d.day, d.month, 1900 + d.year)) != EpochDay(d)
  {
    ValidEntry(s);
    EarlyYearSent(SplitFields(s));
  }

  /** The entry 01/01/0050 passes validation as the first of January of the year 50. */
  lemma EarlyYearEntry()
    ensures FormatDate(Date(1, 1, 50)) == "01/01/0050"
    ensures ValidateDate("01/01/0050") && ParseDate("01/01/0050") == Some(Date(1, 1, 50))
  {
    EarlyYearText();
    FormatThenParse(Date(1, 1, 50));
  }

  /** How the first of January of the year 50 is written. */
  lemma EarlyYearText()
    ensures FormatDate(Date(1, 1, 50)) == "01/01/0050"
  {
    assert Fixed(0, 0) == "";
    assert Fixed(0, 1) == "0";
    assert Fixed(1, 2) == "01";
    assert Fixed(0, 2) == "00";
    assert Fixed(5, 3) == "005";
    assert Fixed(50, 4) == "0050";
    assert YearText(50) == "0050";
  }
}
