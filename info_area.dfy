/**
 * The month navigator and balance of the summary panel. The current month is
 * a "year-month" string without zero padding; the arrows step it back or
 * forward through a `Date` whose month carries into the year.
 */
module InfoArea {
  import opened Wrappers
  import opened Text
  import opened Time

  /** A calendar month: `month` counts from 1. */
  datatype YearMonth = YearMonth(year: int, month: int)

  /**
   * `new Date(y, m - 1, 1)` followed by `setMonth(getMonth() + delta)`, read
   * back as (`getFullYear()`, `getMonth() + 1`): the month index carries into
   * the year in both directions, also when `m` itself is outside 1..12, and
   * the `Date` constructor reads a year from 0 to 99 as 1900 to 1999.
   */
  function Shift(ym: YearMonth, delta: int): (r: YearMonth)
    ensures 1 <= r.month <= 12
    ensures r.year * 12 + r.month == FullYear(ym.year) * 12 + ym.month + delta
  {
    var index := FullYear(ym.year) * 12 + (ym.month - 1) + delta;
    YearMonth(index / 12, index % 12 + 1)
  }

  /** January steps back to December of the year before; any other month to the month before. */
  lemma PrevRollsOver(ym: YearMonth)
    requires ym.year >= 100 && 1 <= ym.month <= 12
    ensures Shift(ym, -1) == if ym.month == 1 then YearMonth(ym.year - 1, 12) else YearMonth(ym.year, ym.month - 1)
  {
    var r := Shift(ym, -1);
    MonthOfIndex(ym.year, ym.month, r.year, r.month, -1);
  }

  /** December steps forward to January of the year after; any other month to the month after. */
  lemma NextRollsOver(ym: YearMonth)
    requires ym.year >= 100 && 1 <= ym.month <= 12
    ensures Shift(ym, 1) == if ym.month == 12 then YearMonth(ym.year + 1, 1) else YearMonth(ym.year, ym.month + 1)
  {
    var r := Shift(ym, 1);
    MonthOfIndex(ym.year, ym.month, r.year, r.month, 1);
  }

  lemma MonthOfIndex(y: int, m: int, ry: int, rm: int, delta: int)
    requires 1 <= m <= 12 && 1 <= rm <= 12 && (delta == 1 || delta == -1)
    requires ry * 12 + rm == y * 12 + m + delta
    ensures delta == -1 ==> if m == 1 then ry == y - 1 && rm == 12 else ry == y && rm == m - 1
    ensures delta == 1 ==> if m == 12 then ry == y + 1 && rm == 1 else ry == y && rm == m + 1
  {
  }

  /** A two-digit year is read as a year of the 1900s, so stepping from year 5 lands in 1904 or 1905. */
  lemma TwoDigitYear()
    ensures Shift(YearMonth(5, 1), -1) == YearMonth(1904, 12)
    ensures Shift(YearMonth(5, 3), 1) == YearMonth(1905, 4)
  {
  }

  /** Stepping back then forward, or forward then back, returns to the same month. */
  lemma ShiftInverse(ym: YearMonth)
    requires ym.year >= 101 && 1 <= ym.month <= 12
    ensures Shift(Shift(ym, -1), 1) == ym
    ensures Shift(Shift(ym, 1), -1) == ym
  {
    PrevRollsOver(ym);
    NextRollsOver(ym);
    PrevRollsOver(Shift(ym, 1));
    NextRollsOver(Shift(ym, -1));
  }

  /** `${year}-${month}` with both numbers unpadded. */
  function Format(ym: YearMonth): string
    requires ym.month >= 0
  {
    IntToString(ym.year) + "-" + NatToString(ym.month)
  }

  /**
   * `currentMonth.split('-')` then `parseInt` of the first two pieces, each
   * read up to its first non-digit; None stands for NaN.
   */
  function Parse(s: string): Option<YearMonth> {
    var parts := Split(s, "-");
    if |parts| < 2 then None
    else match (ParseInt(parts[0]), ParseInt(parts[1]))
      case (Some(y), Some(m)) => Some(YearMonth(y, m))
      case _ => None
  }

  /**
   * Text after the month's digits is ignored, as `parseInt` stops at the
   * first non-digit: "2024-3x" reads as March 2024.
   */
  lemma ParseIgnoresTrailing(ym: YearMonth, rest: string)
    requires ym.year >= 0 && ym.month >= 0
    requires '-' !in rest && (rest == [] || !IsDigit(rest[0]))
    ensures Parse(Format(ym) + rest) == Some(ym)
  {
    var ys := NatToString(ym.year);
    var ms := NatToString(ym.month);
    assert '-' !in ys;
    assert '-' !in ms + rest;
    assert Format(ym) + rest == ys + ['-'] + (ms + rest);
    SplitAt(ys, '-', ms + rest);
    SplitWithout(ms + rest, '-');
    ParseNatToString(ym.year);
    ParseIntDigits(ys);
    DigitsOfNat(ym.month);
    ParseIntPrefix(ms, rest);
  }

  /** A month printed with a non-negative year reads back as itself. */
  lemma ParseFormat(ym: YearMonth)
    requires ym.year >= 0 && ym.month >= 0
    ensures Parse(Format(ym)) == Some(ym)
  {
    assert Format(ym) + [] == Format(ym);
    ParseIgnoresTrailing(ym, []);
  }

  /** `handlePrevMonth` / `handleNextMonth`: the new "year-month" string, or "NaN-NaN" when the input does not parse. */
  function Step(current: string, delta: int): (r: string)
    ensures r == "NaN-NaN" <==> Parse(current).None?
  {
    match Parse(current)
    case None => "NaN-NaN"
    case Some(ym) =>
      var r := Format(Shift(ym, delta));
      assert r[0] == IntToString(Shift(ym, delta).year)[0];
      assert r[0] != 'N';
      r
  }

  /** Text after the month's digits does not change where an arrow leads. */
  lemma StepIgnoresTrailing(ym: YearMonth, rest: string, delta: int)
    requires ym.year >= 0 && ym.month >= 0
    requires '-' !in rest && (rest == [] || !IsDigit(rest[0]))
    ensures Step(Format(ym) + rest, delta) == Step(Format(ym), delta)
  {
    ParseIgnoresTrailing(ym, rest);
    ParseFormat(ym);
  }

  /** `handlePrevMonth` after `handleNextMonth`, and the reverse, give back the month shown (for years from 101 on). */
  lemma StepRoundTrip(ym: YearMonth)
    requires ym.year >= 101 && 1 <= ym.month <= 12
    ensures Step(Step(Format(ym), -1), 1) == Format(ym)
    ensures Step(Step(Format(ym), 1), -1) == Format(ym)
  {
    ParseFormat(ym);
    PrevRollsOver(ym);
    NextRollsOver(ym);
    ParseFormat(Shift(ym, -1));
    ParseFormat(Shift(ym, 1));
    ShiftInverse(ym);
  }

  /** The balance item shows income − expense, typed 'expense' exactly when it is negative. */
  function BalanceType(income: real, expense: real): (r: string)
    ensures r == "expense" <==> expense > income
    ensures r == "income" <==> expense <= income
  {
    if income - expense < 0.0 then "expense" else "income"
  }
}
