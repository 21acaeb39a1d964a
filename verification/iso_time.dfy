/** JavaScript `Date` time values and `Date.prototype.toISOString`, following
    the day/year arithmetic of ECMA-262 (section "Days in Year" and
    "Date Time String Format"): a time value is a count of milliseconds
    since 1970-01-01T00:00:00.000Z in the range ±8.64e15, rendered as
    `YYYY-MM-DDTHH:mm:ss.sssZ`, with a signed six-digit year outside 0..9999. */
module IsoTime {
  import Text

  const MsPerDay: int := 86_400_000
  const MaxTime: int := 8_640_000_000_000_000

  /** The time values a JavaScript `Date` can hold (`createdAt`, `Date.now()`). */
  type TimeValue = t: int | -MaxTime <= t <= MaxTime

  /** The day number of a time value (days since 1970-01-01, floored). */
  function Day(t: int): int { t / MsPerDay }

  predicate IsLeapYear(y: int)
  {
    y % 4 == 0 && (y % 100 != 0 || y % 400 == 0)
  }

  function DaysInYear(y: int): int
  {
    if IsLeapYear(y) then 366 else 365
  }

  /** Day number of January 1st of year `y` (ECMA-262 DayFromYear). */
  function DayFromYear(y: int): int
  {
    365 * (y - 1970) + (y - 1969) / 4 - (y - 1901) / 100 + (y - 1601) / 400
  }

  /** Floor division by a positive constant grows by one exactly at multiples. */
  lemma FloorStep4(x: int)
    ensures (x + 1) / 4 == x / 4 + (if (x + 1) % 4 == 0 then 1 else 0)
  {
  }

  lemma FloorStep100(x: int)
    ensures (x + 1) / 100 == x / 100 + (if (x + 1) % 100 == 0 then 1 else 0)
  {
  }

  lemma FloorStep400(x: int)
    ensures (x + 1) / 400 == x / 400 + (if (x + 1) % 400 == 0 then 1 else 0)
  {
  }

  /** The leap days counted by `DayFromYear` between 1970 and year `y`. */
  function LeapDaysBefore(y: int): int
  {
    (y - 1969) / 4 - (y - 1901) / 100 + (y - 1601) / 400
  }

  lemma ShiftMod4(y: int)
    ensures (y - 1968) % 4 == 0 <==> y % 4 == 0
  {
    assert y - 1968 == (y - 1968) / 4 * 4 + (y - 1968) % 4;
    assert y == y / 4 * 4 + y % 4;
  }

  lemma ShiftMod100(y: int)
    ensures (y - 1900) % 100 == 0 <==> y % 100 == 0
  {
    assert y - 1900 == (y - 1900) / 100 * 100 + (y - 1900) % 100;
    assert y == y / 100 * 100 + y % 100;
  }

  lemma ShiftMod400(y: int)
    ensures (y - 1600) % 400 == 0 <==> y % 400 == 0
  {
    assert y - 1600 == (y - 1600) / 400 * 400 + (y - 1600) % 400;
    assert y == y / 400 * 400 + y % 400;
  }

  /** Each term of `LeapDaysBefore` grows by one exactly in the years it counts. */
  lemma QuadStep(y: int)
    ensures (y + 1 - 1969) / 4 == (y - 1969) / 4 + (if y % 4 == 0 then 1 else 0)
  {
    FloorStep4(y - 1969);
    ShiftMod4(y);
  }

  lemma CenturyStep(y: int)
    ensures (y + 1 - 1901) / 100 == (y - 1901) / 100 + (if y % 100 == 0 then 1 else 0)
  {
    FloorStep100(y - 1901);
    ShiftMod100(y);
  }

  lemma QuadCenturyStep(y: int)
    ensures (y + 1 - 1601) / 400 == (y - 1601) / 400 + (if y % 400 == 0 then 1 else 0)
  {
    FloorStep400(y - 1601);
    ShiftMod400(y);
  }

  /** Every multiple of 400 is a multiple of 100, and every multiple of 100
      one of 4. */
  lemma Multiple400Is100(y: int)
    requires y % 400 == 0
    ensures y % 100 == 0
  {
    var q := y / 400;
    assert y == 100 * (4 * q);
  }

  lemma Multiple100Is4(y: int)
    requires y % 100 == 0
    ensures y % 4 == 0
  {
    var q := y / 100;
    assert y == 4 * (25 * q);
  }

  lemma LeapDaysStep(y: int)
    ensures LeapDaysBefore(y + 1) == LeapDaysBefore(y) + (if IsLeapYear(y) then 1 else 0)
  {
    QuadStep(y);
    CenturyStep(y);
    QuadCenturyStep(y);
    if y % 400 == 0 {
      Multiple400Is100(y);
      Multiple100Is4(y);
    } else if y % 100 == 0 {
      Multiple100Is4(y);
    }
  }

  /** Consecutive years are exactly one year length apart. */
  lemma DayFromYearStep(y: int)
    ensures DayFromYear(y + 1) == DayFromYear(y) + DaysInYear(y)
  {
    LeapDaysStep(y);
    assert DayFromYear(y) == 365 * (y - 1970) + LeapDaysBefore(y);
    assert DayFromYear(y + 1) == 365 * (y + 1 - 1970) + LeapDaysBefore(y + 1);
  }

  /** `DayFromYear` is strictly increasing. */
  lemma {:induction false} DayFromYearMonotone(a: int, b: int)
    requires a < b
    ensures DayFromYear(a + 1) <= DayFromYear(b)
    decreases b - a
  {
    if a + 1 < b {
      DayFromYearMonotone(a + 1, b);
      DayFromYearStep(a + 1);
    }
  }

  /** A day number lies in exactly one year. */
  lemma YearUnique(day: int, a: int, b: int)
    requires DayFromYear(a) <= day < DayFromYear(a + 1)
    requires DayFromYear(b) <= day < DayFromYear(b + 1)
    ensures a == b
  {
    if a < b {
      DayFromYearMonotone(a, b);
    } else if b < a {
      DayFromYearMonotone(b, a);
    }
  }

  lemma DayFromYearGrows(y: int)
    ensures DayFromYear(y) < DayFromYear(y + 1)
  {
    DayFromYearStep(y);
  }

  function YearFrom(day: int, y: int): (r: int)
    requires DayFromYear(y) <= day
    ensures DayFromYear(r) <= day < DayFromYear(r + 1)
    decreases day - DayFromYear(y)
  {
    DayFromYearGrows(y);
    if day < DayFromYear(y + 1) then y else YearFrom(day, y + 1)
  }

  function YearBefore(day: int, y: int): (r: int)
    requires day < DayFromYear(y)
    ensures DayFromYear(r) <= day < DayFromYear(r + 1)
    decreases DayFromYear(y) - day
  {
    DayFromYearGrows(y - 1);
    assert y - 1 + 1 == y;
    if DayFromYear(y - 1) <= day then y - 1 else YearBefore(day, y - 1)
  }

  /** The year a day number falls in (ECMA-262 YearFromTime). */
  function YearOfDay(day: int): (y: int)
    ensures DayFromYear(y) <= day < DayFromYear(y + 1)
  {
    if day >= 0 then YearFrom(day, 1970) else YearBefore(day, 1970)
  }

  function DaysInMonth(y: int, m: int): int
    requires 1 <= m <= 12
  {
    if m == 2 then (if IsLeapYear(y) then 29 else 28)
    else if m == 4 || m == 6 || m == 9 || m == 11 then 30
    else 31
  }

  /** Days of a common year before the first of each month; entry 12 is the
      whole year. */
  const CommonMonthStarts: seq<int> := [0, 31, 59, 90, 120, 151, 181, 212, 243, 273, 304, 334, 365]

  /** Days of year `y` before the first of month `m`; month 13 closes the year. */
  function DaysBeforeMonth(y: int, m: int): int
    requires 1 <= m <= 13
  {
    CommonMonthStarts[m - 1] + (if m >= 3 && IsLeapYear(y) then 1 else 0)
  }

  /** Each month starts where the previous one ends. */
  lemma DaysBeforeMonthStep(y: int, m: int)
    requires 1 <= m <= 12
    ensures DaysBeforeMonth(y, m + 1) == DaysBeforeMonth(y, m) + DaysInMonth(y, m)
  {
  }

  lemma DaysBeforeMonthThirteen(y: int)
    ensures DaysBeforeMonth(y, 13) == DaysInYear(y)
  {
  }

  lemma DaysBeforeMonthMonotone(y: int, a: int, b: int)
    requires 1 <= a < b <= 13
    ensures DaysBeforeMonth(y, a + 1) <= DaysBeforeMonth(y, b)
  {
  }

  function MonthFrom(y: int, dayInYear: int, m: int): (r: int)
    requires 1 <= m <= 12
    requires DaysBeforeMonth(y, m) <= dayInYear < DaysInYear(y)
    ensures 1 <= r <= 12
    ensures DaysBeforeMonth(y, r) <= dayInYear < DaysBeforeMonth(y, r + 1)
    decreases 12 - m
  {
    DaysBeforeMonthThirteen(y);
    if dayInYear < DaysBeforeMonth(y, m + 1) then m else MonthFrom(y, dayInYear, m + 1)
  }

  datatype CivilDate = CivilDate(year: int, month: int, day: int)

  predicate ValidDate(d: CivilDate)
  {
    1 <= d.month <= 12 && 1 <= d.day <= DaysInMonth(d.year, d.month)
  }

  /** Day number of a calendar date (ECMA-262 MakeDay for whole dates). */
  function DaysFromCivil(d: CivilDate): int
    requires 1 <= d.month <= 12
  {
    DayFromYear(d.year) + DaysBeforeMonth(d.year, d.month) + d.day - 1
  }

  /** The calendar date of a day number: a valid date that maps back to it. */
  function CivilFromDays(day: int): (d: CivilDate)
    ensures ValidDate(d)
    ensures DaysFromCivil(d) == day
  {
    var y := YearOfDay(day);
    DayFromYearStep(y);
    var m := MonthFrom(y, day - DayFromYear(y), 1);
    DaysBeforeMonthStep(y, m);
    CivilDate(y, m, day - DayFromYear(y) - DaysBeforeMonth(y, m) + 1)
  }

  /** A day of the year lies in exactly one month. */
  lemma MonthUnique(y: int, dayInYear: int, a: int, b: int)
    requires 1 <= a <= 12 && 1 <= b <= 12
    requires DaysBeforeMonth(y, a) <= dayInYear < DaysBeforeMonth(y, a + 1)
    requires DaysBeforeMonth(y, b) <= dayInYear < DaysBeforeMonth(y, b + 1)
    ensures a == b
  {
    if a < b {
      DaysBeforeMonthMonotone(y, a, b);
    } else if b < a {
      DaysBeforeMonthMonotone(y, b, a);
    }
  }

  /** A valid date's day number lies inside its own month ... */
  lemma DateWithinMonth(d: CivilDate)
    requires ValidDate(d)
    ensures DaysBeforeMonth(d.year, d.month) <= DaysFromCivil(d) - DayFromYear(d.year) < DaysBeforeMonth(d.year, d.month + 1)
  {
    DaysBeforeMonthStep(d.year, d.month);
  }

  /** ... and so inside its own year. */
  lemma DateWithinYear(d: CivilDate)
    requires ValidDate(d)
    ensures DayFromYear(d.year) <= DaysFromCivil(d) < DayFromYear(d.year + 1)
  {
    DateWithinMonth(d);
    DaysBeforeMonthThirteen(d.year);
    if d.month < 12 {
      DaysBeforeMonthMonotone(d.year, d.month, 13);
    }
    DayFromYearStep(d.year);
  }

  /** Valid dates of one year with the same day number are the same date. */
  lemma SameYearInjective(d: CivilDate, e: CivilDate)
    requires ValidDate(d) && ValidDate(e) && d.year == e.year
    requires DaysFromCivil(d) == DaysFromCivil(e)
    ensures d == e
  {
    var inYear := DaysFromCivil(d) - DayFromYear(d.year);
    DateWithinMonth(d);
    DateWithinMonth(e);
    MonthUnique(d.year, inYear, e.month, d.month);
  }

  /** A valid date lies in whichever year contains its day number. */
  lemma DateYearIs(d: CivilDate, y: int)
    requires ValidDate(d)
    requires DayFromYear(y) <= DaysFromCivil(d) < DayFromYear(y + 1)
    ensures d.year == y
  {
    DateWithinYear(d);
    YearUnique(DaysFromCivil(d), y, d.year);
  }

  /** Distinct valid dates have distinct day numbers. */
  lemma DaysFromCivilInjective(d: CivilDate, e: CivilDate)
    requires ValidDate(d) && ValidDate(e)
    requires DaysFromCivil(d) == DaysFromCivil(e)
    ensures d == e
  {
    DateWithinYear(e);
    DateYearIs(d, e.year);
    SameYearInjective(d, e);
  }

  /** Every valid calendar date survives the trip through its day number. */
  lemma CivilRoundTrip(d: CivilDate)
    requires ValidDate(d)
    ensures CivilFromDays(DaysFromCivil(d)) == d
  {
    DaysFromCivilInjective(d, CivilFromDays(DaysFromCivil(d)));
  }

  function Digit(n: int): (c: char)
    requires 0 <= n <= 9
    ensures '0' <= c <= '9'
  {
    ('0' as int + n) as char
  }

  function Pow10(w: nat): (p: nat)
    ensures p >= 1
  {
    if w == 0 then 1 else 10 * Pow10(w - 1)
  }

  /** `n` written with exactly `width` decimal digits, most significant
      first, zero-padded on the left. */
  function PadDigits(n: nat, width: nat): (r: string)
    ensures |r| == width
    ensures forall i :: 0 <= i < |r| ==> '0' <= r[i] <= '9'
  {
    if width == 0 then "" else PadDigits(n / 10, width - 1) + [Digit(n % 10)]
  }

  /** The number a string of decimal digits denotes. */
  function DigitsValue(s: string): nat
    requires forall i :: 0 <= i < |s| ==> '0' <= s[i] <= '9'
  {
    if |s| == 0 then 0 else 10 * DigitsValue(s[..|s| - 1]) + (s[|s| - 1] as int - '0' as int)
  }

  /** Padding is lossless for numbers that fit in the width. */
  lemma {:induction false} PadDigitsRoundTrip(n: nat, width: nat)
    requires n < Pow10(width)
    ensures DigitsValue(PadDigits(n, width)) == n
  {
    if width > 0 {
      var r := PadDigits(n, width);
      assert r[..|r| - 1] == PadDigits(n / 10, width - 1);
      assert r[|r| - 1] as int - '0' as int == n % 10;
      assert n / 10 < Pow10(width - 1);
      PadDigitsRoundTrip(n / 10, width - 1);
      assert n == 10 * (n / 10) + n % 10;
    }
  }

  /** The year field: four digits for 0..9999, otherwise a sign and six digits. */
  function YearText(y: int): (r: string)
    ensures 0 <= y <= 9999 ==> |r| == 4
    ensures !(0 <= y <= 9999) ==> |r| == 7 && r[0] == (if y < 0 then '-' else '+')
    ensures 'T' !in r
  {
    if 0 <= y <= 9999 then PadDigits(y, 4)
    else (if y < 0 then "-" else "+") + PadDigits(if y < 0 then -y else y, 6)
  }

  /** `YYYY-MM-DD` of a calendar date. */
  function DateText(d: CivilDate): (r: string)
    requires ValidDate(d)
    ensures 'T' !in r
    ensures 0 <= d.year <= 9999 ==> |r| == 10
  {
    YearText(d.year) + "-" + PadDigits(d.month, 2) + "-" + PadDigits(d.day, 2)
  }

  /** `HH:mm:ss.sss` of a millisecond offset within a day. */
  function ClockText(ms: int): (r: string)
    requires 0 <= ms < MsPerDay
    ensures |r| == 12
    ensures r[2] == ':' && r[5] == ':' && r[8] == '.'
    ensures forall i :: 0 <= i < 12 && i != 2 && i != 5 && i != 8 ==> '0' <= r[i] <= '9'
  {
    PadDigits(ms / 3_600_000, 2) + ":" + PadDigits(ms / 60_000 % 60, 2) + ":"
    + PadDigits(ms / 1000 % 60, 2) + "." + PadDigits(ms % 1000, 3)
  }

  /** The fields of the clock text read back as the hours, minutes, seconds
      and milliseconds of the offset, within their ranges, and together
      they give the offset back. */
  lemma ClockTextReadsBack(ms: int)
    requires 0 <= ms < MsPerDay
    ensures var r := ClockText(ms);
      && DigitsValue(r[..2]) < 24 && DigitsValue(r[3..5]) < 60 && DigitsValue(r[6..8]) < 60
      && 3_600_000 * DigitsValue(r[..2]) + 60_000 * DigitsValue(r[3..5])
         + 1000 * DigitsValue(r[6..8]) + DigitsValue(r[9..]) == ms
  {
    var r := ClockText(ms);
    var h, m, sec, milli := ms / 3_600_000, ms / 60_000 % 60, ms / 1000 % 60, ms % 1000;
    assert r[..2] == PadDigits(h, 2);
    assert r[3..5] == PadDigits(m, 2);
    assert r[6..8] == PadDigits(sec, 2);
    assert r[9..] == PadDigits(milli, 3);
    assert Pow10(2) == 100 && Pow10(3) == 1000;
    PadDigitsRoundTrip(h, 2);
    PadDigitsRoundTrip(m, 2);
    PadDigitsRoundTrip(sec, 2);
    PadDigitsRoundTrip(milli, 3);
    ClockSplit(ms);
  }

  /** A millisecond offset within a day splits into hours, minutes, seconds
      and milliseconds. */
  lemma ClockSplit(ms: int)
    requires 0 <= ms < MsPerDay
    ensures ms / 3_600_000 < 24
    ensures 3_600_000 * (ms / 3_600_000) + 60_000 * (ms / 60_000 % 60)
            + 1000 * (ms / 1000 % 60) + ms % 1000 == ms
  {
    var mins := ms / 60_000;
    var secs := ms / 1000;
    assert secs == 60 * mins + secs % 60;
    assert mins / 60 == ms / 3_600_000;
    assert mins == 60 * (mins / 60) + mins % 60;
    assert ms == 1000 * secs + ms % 1000;
  }

  /** `new Date(t).toISOString()`. */
  function ToIsoString(t: TimeValue): (r: string)
    ensures var date := DateText(CivilFromDays(Day(t)));
      && |r| == |date| + 14
      && r[..|date|] == date
      && r[|date|] == 'T'
      && r[|r| - 1] == 'Z'
      && 'T' !in r[..|date|]
      && r[|date| + 1..|r| - 1] == ClockText(t % MsPerDay)
  {
    DateText(CivilFromDays(Day(t))) + "T" + ClockText(t % MsPerDay) + "Z"
  }

  /** `toISOString().split('T')[0]`: the calendar date of the time value's day. */
  function IsoDate(t: TimeValue): (r: string)
    ensures r == DateText(CivilFromDays(Day(t)))
  {
    IsoDatePart(t);
    Text.BeforeFirst(ToIsoString(t), 'T')
  }

  /** The twelve characters between 'T' and 'Z' read back as the
      millisecond offset of the instant within its UTC day. */
  lemma IsoClockPart(t: TimeValue)
    ensures var r := ToIsoString(t);
      var clock := r[|DateText(CivilFromDays(Day(t)))| + 1..|r| - 1];
      && |clock| == 12 && clock[2] == ':' && clock[5] == ':' && clock[8] == '.'
      && 3_600_000 * DigitsValue(clock[..2]) + 60_000 * DigitsValue(clock[3..5])
         + 1000 * DigitsValue(clock[6..8]) + DigitsValue(clock[9..]) == t % MsPerDay
  {
    ClockTextReadsBack(t % MsPerDay);
  }

  /** The part of the ISO string before the first 'T' is exactly the date. */
  lemma IsoDatePart(t: TimeValue)
    ensures Text.BeforeFirst(ToIsoString(t), 'T') == DateText(CivilFromDays(Day(t)))
  {
    var date := DateText(CivilFromDays(Day(t)));
    var tail := ClockText(t % MsPerDay) + "Z";
    assert ToIsoString(t) == date + ['T'] + tail;
    Text.BeforeFirstOfJoin(date, 'T', tail);
  }

  /** Between years 0 and 9999 the ISO string has its fixed 24-character form. */
  lemma IsoLength(t: TimeValue)
    requires 0 <= CivilFromDays(Day(t)).year <= 9999
    ensures |ToIsoString(t)| == 24
    ensures ToIsoString(t)[10] == 'T' && ToIsoString(t)[23] == 'Z'
  {
    var date := DateText(CivilFromDays(Day(t)));
    var clock := ClockText(t % MsPerDay);
    assert ToIsoString(t) == date + "T" + clock + "Z";
    assert |date| == 10 && |clock| == 12;
  }

  /** Two instants of the same UTC day share their date text. */
  lemma SameDaySameDate(t1: TimeValue, t2: TimeValue)
    requires Day(t1) == Day(t2)
    ensures IsoDate(t1) == IsoDate(t2)
  {
  }

  /** Two instants of different UTC days have different date text. */
  lemma DifferentDayDifferentDate(t1: TimeValue, t2: TimeValue)
    requires Day(t1) != Day(t2)
    ensures CivilFromDays(Day(t1)) != CivilFromDays(Day(t2))
  {
  }
}
