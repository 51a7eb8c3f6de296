/**
 * Timestamps as JavaScript `Date` values: whole milliseconds since
 * 1970-01-01T00:00:00.000. Local time is taken to coincide with that count
 * (no time-zone offset, no daylight saving), so `getDate`, `getMonth`,
 * `getDay`, `setHours` and `new Date(y, m, d)` become arithmetic on it.
 */
module Time {

  /** Milliseconds in a day, `24 * 60 * 60 * 1000`. */
  const DayMs: int := 86400000

  /** Milliseconds in an hour, `60 * 60 * 1000`. */
  const HourMs: int := 3600000

  /** Whole days since the epoch (floor division, also for dates before 1970). */
  function DayOf(t: int): int {
    t / DayMs
  }

  /** `setHours(0, 0, 0, 0)`: the first millisecond of the day of `t`. */
  function StartOfDay(t: int): (r: int)
    ensures r <= t < r + DayMs
    ensures DayOf(r) == DayOf(t)
  {
    DayOf(t) * DayMs
  }

  /** `setHours(23, 59, 59, 999)`: the last millisecond of the day of `t`. */
  function EndOfDay(t: int): (r: int)
    ensures r - DayMs < t <= r
    ensures DayOf(r) == DayOf(t)
  {
    StartOfDay(t) + DayMs - 1
  }

  /** A timestamp lies between the start and the end of a day exactly when it falls on that day. */
  lemma SameDayWindow(t: int, x: int)
    ensures StartOfDay(t) <= x <= EndOfDay(t) <==> DayOf(x) == DayOf(t)
  {
    var d := DayOf(t);
    if StartOfDay(t) <= x <= EndOfDay(t) {
      DayOfBetween(x, d);
    }
    if DayOf(x) == d {
      assert d * DayMs <= x < d * DayMs + DayMs;
    }
  }

  lemma DayOfBetween(x: int, d: int)
    requires d * DayMs <= x < d * DayMs + DayMs
    ensures DayOf(x) == d
  {
  }

  /** `getDay()`: 0 for Sunday to 6 for Saturday; 1970-01-01 was a Thursday. */
  function Weekday(t: int): (r: int)
    ensures 0 <= r < 7
  {
    (DayOf(t) + 4) % 7
  }

  /** `getHours()`. */
  function HourOf(t: int): (r: int)
    ensures 0 <= r < 24
  {
    (t - StartOfDay(t)) / HourMs
  }

  /** A calendar date: proleptic Gregorian year, month 1..12, day of month. */
  datatype Civil = Civil(year: int, month: int, day: int)

  /** Days from 1970-01-01 to the given calendar date (H. Hinnant's `days_from_civil`). */
  function DaysFromCivil(y: int, m: int, d: int): int
    requires 1 <= m <= 12
  {
    var y' := if m <= 2 then y - 1 else y;
    var era := y' / 400;
    var yoe := y' - era * 400;
    var mp := (m + 9) % 12;
    var doy := (153 * mp + 2) / 5 + d - 1;
    var doe := yoe * 365 + yoe / 4 - yoe / 100 + doy;
    era * 146097 + doe - 719468
  }

  /** The calendar date of a day count (H. Hinnant's `civil_from_days`). */
  function CivilFromDays(z: int): Civil {
    var z' := z + 719468;
    var era := z' / 146097;
    var doe := z' - era * 146097;
    var yoe := (doe - doe / 1460 + doe / 36524 - doe / 146096) / 365;
    var doy := doe - (365 * yoe + yoe / 4 - yoe / 100);
    var mp := (5 * doy + 2) / 153;
    var d := doy - (153 * mp + 2) / 5 + 1;
    var m := if mp < 10 then mp + 3 else mp - 9;
    Civil(yoe + era * 400 + (if m <= 2 then 1 else 0), m, d)
  }

  /** `getFullYear()`. */
  function YearOf(t: int): int {
    CivilFromDays(DayOf(t)).year
  }

  /** `getMonth() + 1`: the month 1..12. */
  function MonthOf(t: int): int {
    CivilFromDays(DayOf(t)).month
  }

  /** `getDate()`: the day of the month. */
  function DateOf(t: int): int {
    CivilFromDays(DayOf(t)).day
  }

  /** `getDate()` lies between 1 and 31. */
  lemma DateOfRange(t: int)
    ensures 1 <= DateOf(t) <= 31
  {
    var z' := DayOf(t) + 719468;
    var era := z' / 146097;
    var doe := z' - era * 146097;
    var yoe := (doe - doe / 1460 + doe / 36524 - doe / 146096) / 365;
    DayOfEraRange(doe, yoe);
    var doy := doe - (365 * yoe + yoe / 4 - yoe / 100);
    DayInMonthRange(doy);
  }

  /** Within an era, the day of the year that `civil_from_days` derives lies in 0..365. */
  lemma DayOfEraRange(doe: int, yoe: int)
    requires 0 <= doe < 146097
    requires yoe == (doe - doe / 1460 + doe / 36524 - doe / 146096) / 365
    ensures 0 <= doe - (365 * yoe + yoe / 4 - yoe / 100) <= 365
  {
    DayOfEraSteps(doe, doe / 1460, doe / 36524, doe / 146096, yoe, yoe / 4, yoe / 100);
  }

  /** `DayOfEraRange` with every division replaced by its defining bounds, split by century of the era. */
  lemma DayOfEraSteps(doe: int, a: int, b: int, c: int, yoe: int, q4: int, q100: int)
    requires 0 <= doe < 146097
    requires 1460 * a <= doe < 1460 * a + 1460
    requires 36524 * b <= doe < 36524 * b + 36524
    requires 146096 * c <= doe < 146096 * c + 146096
    requires 365 * yoe <= doe - a + b - c < 365 * yoe + 365
    requires 4 * q4 <= yoe < 4 * q4 + 4
    requires 100 * q100 <= yoe < 100 * q100 + 100
    ensures 0 <= doe - (365 * yoe + q4 - q100) <= 365
  {
    if c == 0 {
      if b == 0 {
        FirstCentury(doe, a, yoe, q4, q100);
      } else if b == 1 {
        SecondCentury(doe, a, yoe, q4, q100);
      } else if b == 2 {
        ThirdCentury(doe, a, yoe, q4, q100);
      } else {
        FourthCentury(doe, a, yoe, q4, q100);
      }
    }
  }

  lemma FirstCentury(doe: int, a: int, yoe: int, q4: int, q100: int)
    requires 0 <= doe < 36524
    requires 1460 * a <= doe < 1460 * a + 1460
    requires 365 * yoe <= doe - a + 0 < 365 * yoe + 365
    requires 4 * q4 <= yoe < 4 * q4 + 4
    requires 100 * q100 <= yoe < 100 * q100 + 100
    ensures 0 <= doe - (365 * yoe + q4 - q100) <= 365
  {
  }

  lemma SecondCentury(doe: int, a: int, yoe: int, q4: int, q100: int)
    requires 36524 <= doe < 73048
    requires 1460 * a <= doe < 1460 * a + 1460
    requires 365 * yoe <= doe - a + 1 < 365 * yoe + 365
    requires 4 * q4 <= yoe < 4 * q4 + 4
    requires 100 * q100 <= yoe < 100 * q100 + 100
    ensures 0 <= doe - (365 * yoe + q4 - q100) <= 365
  {
  }

  lemma ThirdCentury(doe: int, a: int, yoe: int, q4: int, q100: int)
    requires 73048 <= doe < 109572
    requires 1460 * a <= doe < 1460 * a + 1460
    requires 365 * yoe <= doe - a + 2 < 365 * yoe + 365
    requires 4 * q4 <= yoe < 4 * q4 + 4
    requires 100 * q100 <= yoe < 100 * q100 + 100
    ensures 0 <= doe - (365 * yoe + q4 - q100) <= 365
  {
  }

  lemma FourthCentury(doe: int, a: int, yoe: int, q4: int, q100: int)
    requires 109572 <= doe < 146096
    requires 1460 * a <= doe < 1460 * a + 1460
    requires 365 * yoe <= doe - a + 3 < 365 * yoe + 365
    requires 4 * q4 <= yoe < 4 * q4 + 4
    requires 100 * q100 <= yoe < 100 * q100 + 100
    ensures 0 <= doe - (365 * yoe + q4 - q100) <= 365
  {
  }

  /** The day within the month that `civil_from_days` derives from a day of the year lies in 0..30. */
  lemma DayInMonthRange(doy: int)
    requires 0 <= doy <= 365
    ensures 0 <= doy - (153 * ((5 * doy + 2) / 153) + 2) / 5 <= 30
  {
    var mp := (5 * doy + 2) / 153;
    assert 153 * mp <= 5 * doy + 2 < 153 * mp + 153;
    assert (153 * mp + 2) / 5 <= doy;
  }

  /**
   * Midnight of day `d` of month index `m0` (counted from 0) of year `y`. The
   * month index may lie outside 0..11 and carries into the year; the day may
   * be 0 (the last day of the previous month) or exceed the month's length.
   */
  function DateFromCivil(y: int, m0: int, d: int): int {
    (DaysFromCivil(y + m0 / 12, m0 % 12 + 1, 1) + d - 1) * DayMs
  }

  /** The year the `Date` constructor uses for a year argument: 0 to 99 stand for 1900 to 1999. */
  function FullYear(y: int): int {
    if 0 <= y <= 99 then 1900 + y else y
  }

  /** `new Date(y, m0, d)`. */
  function MakeDate(y: int, m0: int, d: int): int {
    DateFromCivil(FullYear(y), m0, d)
  }

  /** `setFullYear(getFullYear() + n)`: same month, day and time of day `n` years away (29 February may carry into March). */
  function AddYears(t: int, n: int): int {
    DateFromCivil(YearOf(t) + n, MonthOf(t) - 1, DateOf(t)) + (t - StartOfDay(t))
  }

  /** `setMonth(getMonth() + n)`: same day of the month and time of day `n` months away (a day the target month lacks carries into the next one). */
  function AddMonths(t: int, n: int): int {
    DateFromCivil(YearOf(t), MonthOf(t) - 1 + n, DateOf(t)) + (t - StartOfDay(t))
  }

  /** `new Date(y, m0, 0)` is the day before `new Date(y, m0, 1)`. */
  lemma DayZeroIsDayBefore(y: int, m0: int)
    ensures MakeDate(y, m0, 0) == MakeDate(y, m0, 1) - DayMs
  {
  }

  /** A month index of 12 is January of the following year; -1 is December of the previous one. */
  lemma MonthIndexCarries(y: int)
    requires y >= 101
    ensures MakeDate(y, 12, 1) == MakeDate(y + 1, 0, 1)
    ensures MakeDate(y, -1, 1) == MakeDate(y - 1, 11, 1)
  {
  }

  /** Every date built by `MakeDate` is the first millisecond of its day. */
  lemma MakeDateIsMidnight(y: int, m0: int, d: int)
    ensures StartOfDay(MakeDate(y, m0, d)) == MakeDate(y, m0, d)
  {
    var n := DaysFromCivil(FullYear(y) + m0 / 12, m0 % 12 + 1, 1) + d - 1;
    DayOfBetween(n * DayMs, n);
  }
}
