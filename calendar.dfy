/**
 * The part of java.time the core uses: a `LocalDate` as a day count, a
 * `YearMonth` as a month index, the Gregorian month lengths behind
 * `YearMonth.atEndOfMonth()`, and `YearMonth.atDay(d)`.
 */
module Calendar {

  /** A `LocalDate`, as its epoch day: the number of days since 1970-01-01. */
  datatype Date = Date(epochDay: int) {

    /** `plusDays(n)`; `minusDays(n)` is `PlusDays(-n)` and `minusWeeks(n)` is `PlusDays(-7 * n)`. */
    function PlusDays(n: int): Date
    {
      Date(epochDay + n)
    }

    /** `isBefore(other)`: strictly earlier. */
    predicate IsBefore(other: Date)
    {
      epochDay < other.epochDay
    }
  }

  /** A `YearMonth`, as the month index `year * 12 + (month - 1)`; `minusMonths(n)` is `- n`. */
  type YearMonth = int

  function MonthIndex(year: int, month: int): YearMonth
    requires 1 <= month <= 12
  {
    year * 12 + month - 1
  }

  function YearOf(ym: YearMonth): int
  {
    ym / 12
  }

  function MonthOf(ym: YearMonth): (m: int)
    ensures 1 <= m <= 12
  {
    ym % 12 + 1
  }

  /** The index round-trips through its year and month. */
  lemma MonthIndexRoundTrip(year: int, month: int)
    requires 1 <= month <= 12
    ensures YearOf(MonthIndex(year, month)) == year
    ensures MonthOf(MonthIndex(year, month)) == month
    ensures MonthIndex(YearOf(MonthIndex(year, month)), MonthOf(MonthIndex(year, month))) == MonthIndex(year, month)
  {
  }

  /** The Gregorian leap-year rule. */
  predicate IsLeapYear(year: int)
  {
    year % 4 == 0 && (year % 100 != 0 || year % 400 == 0)
  }

  /** `YearMonth.lengthOfMonth()`. */
  function MonthLength(ym: YearMonth): (n: int)
    ensures 28 <= n <= 31
    ensures n == 29 <==> MonthOf(ym) == 2 && IsLeapYear(YearOf(ym))
  {
    var m := MonthOf(ym);
    if m == 2 then (if IsLeapYear(YearOf(ym)) then 29 else 28)
    else if m == 4 || m == 6 || m == 9 || m == 11 then 30
    else 31
  }

  /**
   * The epoch day of year/month/day in the proleptic Gregorian calendar.
   * Years are counted from March, so that the leap day is the last day of
   * a counted year; Dafny's `/` rounds down for a positive divisor, so the
   * formula holds for years before 1970 too. It is linear in `day`, which
   * is what lets `atDay` accept day numbers outside the month below.
   */
  function EpochDay(year: int, month: int, day: int): int
    requires 1 <= month <= 12
  {
    var y := if month <= 2 then year - 1 else year;
    var mp := if month <= 2 then month + 9 else month - 3;
    365 * y + y / 4 - y / 100 + y / 400 + (153 * mp + 2) / 5 + day - 1 - 719468
  }

  /** `YearMonth.atDay(day)`, which java.time rejects unless the day exists in the month. */
  function AtDay(ym: YearMonth, day: int): Date
    requires 1 <= day <= MonthLength(ym)
  {
    Date(EpochDay(YearOf(ym), MonthOf(ym), day))
  }

  /** `YearMonth.atEndOfMonth()`. */
  function AtEndOfMonth(ym: YearMonth): Date
  {
    AtDay(ym, MonthLength(ym))
  }

  /** The epoch of the day count: 1970-01-01 is day 0, and 2000-03-01 is day 11017. */
  lemma EpochOrigin()
    ensures AtDay(MonthIndex(1970, 1), 1) == Date(0)
    ensures AtDay(MonthIndex(2000, 3), 1) == Date(11017)
  {
    assert MonthIndex(1970, 1) == 23640 && YearOf(23640) == 1970 && MonthOf(23640) == 1;
    assert EpochDay(1970, 1, 1) == 0;
    assert MonthIndex(2000, 3) == 24002 && YearOf(24002) == 2000 && MonthOf(24002) == 3;
    assert EpochDay(2000, 3, 1) == 11017;
  }

  /** Moving `k` days within a month is moving the day of the month by `k`. */
  lemma AtDayShift(ym: YearMonth, day: int, k: int)
    requires 1 <= day <= MonthLength(ym)
    requires 1 <= day + k <= MonthLength(ym)
    ensures AtDay(ym, day).PlusDays(k) == AtDay(ym, day + k)
  {
  }

  /**
   * The month lengths agree with the day count: the day after the end of a
   * month is the first day of the next one.
   */
  lemma {:induction false} EndOfMonthThenNextMonth(ym: YearMonth)
    ensures AtEndOfMonth(ym).PlusDays(1) == AtDay(ym + 1, 1)
  {
    var y, m := YearOf(ym), MonthOf(ym);
    if m == 12 {
      assert YearOf(ym + 1) == y + 1 && MonthOf(ym + 1) == 1;
      DecemberThenJanuary(y);
    } else {
      assert YearOf(ym + 1) == y && MonthOf(ym + 1) == m + 1;
      if m == 2 {
        FebruaryThenMarch(y);
      } else {
        WithinCountedYear(y, m);
      }
    }
  }

  /** New Year's Eve is followed by the first of January of the next year. */
  lemma DecemberThenJanuary(y: int)
    ensures EpochDay(y, 12, 31) + 1 == EpochDay(y + 1, 1, 1)
  {
  }

  /** The last day of February, the 29th in a leap year, is followed by the first of March. */
  lemma FebruaryThenMarch(y: int)
    ensures EpochDay(y, 2, if IsLeapYear(y) then 29 else 28) + 1 == EpochDay(y, 3, 1)
  {
    LeapDayCount(y);
  }

  /** From March to January the counted year stays the same, and the month offsets differ by the month's length. */
  lemma WithinCountedYear(y: int, m: int)
    requires 1 <= m < 12 && m != 2
    ensures EpochDay(y, m, if m == 4 || m == 6 || m == 9 || m == 11 then 30 else 31) + 1 == EpochDay(y, m + 1, 1)
  {
  }

  /** The leap-day terms of `EpochDay` grow by one exactly across a leap year's end of February. */
  lemma LeapDayCount(year: int)
    ensures (year / 4 - year / 100 + year / 400) - ((year - 1) / 4 - (year - 1) / 100 + (year - 1) / 400)
            == if IsLeapYear(year) then 1 else 0
  {
    var q4, q100, q400 := year / 4, year / 100, year / 400;
    assert (year - 1) / 4 == if year % 4 == 0 then q4 - 1 else q4;
    assert (year - 1) / 100 == if year % 100 == 0 then q100 - 1 else q100;
    assert (year - 1) / 400 == if year % 400 == 0 then q400 - 1 else q400;
    assert year % 100 == 0 ==> year % 4 == 0;
    assert year % 400 == 0 ==> year % 100 == 0;
  }

  /** Every day of a month comes before every day of any later month. */
  lemma {:induction false} LaterMonthLaterDay(ym1: YearMonth, d1: int, ym2: YearMonth, d2: int)
    requires 1 <= d1 <= MonthLength(ym1)
    requires 1 <= d2 <= MonthLength(ym2)
    requires ym1 < ym2
    ensures AtDay(ym1, d1).IsBefore(AtDay(ym2, d2))
    decreases ym2 - ym1
  {
    EndOfMonthThenNextMonth(ym1);
    AtDayShift(ym1, d1, MonthLength(ym1) - d1);
    if ym1 + 1 < ym2 {
      LaterMonthLaterDay(ym1 + 1, 1, ym2, d2);
    } else {
      AtDayShift(ym2, 1, d2 - 1);
    }
  }
}
