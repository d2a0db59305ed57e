/** Proleptic Gregorian dates as day ordinals, and the months they fall in. */
module Calendar {
  const SECONDS_PER_DAY := 86400

  /** A timestamp in whole seconds; aware ones carry a time zone. */
  datatype Timestamp = Timestamp(seconds: int, aware: bool)

  /** The date of a time in seconds. */
  function DateOf(seconds: int): int {
    seconds / SECONDS_PER_DAY
  }

  predicate Leap(year: int) {
    year % 4 == 0 && (year % 100 != 0 || year % 400 == 0)
  }

  function DaysInMonth(year: int, month: int): int
    requires 1 <= month <= 12
  {
    if month == 2 then (if Leap(year) then 29 else 28)
    else if month == 4 || month == 6 || month == 9 || month == 11 then 30
    else 31
  }

  function DaysBeforeYear(year: int): int {
    365 * (year - 1) + (year - 1) / 4 - (year - 1) / 100 + (year - 1) / 400
  }

  function DaysBeforeMonth(year: int, month: int): int
    requires 1 <= month <= 12
  {
    if month == 1 then 0 else DaysBeforeMonth(year, month - 1) + DaysInMonth(year, month - 1)
  }

  /** The ordinal of the first day of a month; January 1 of year 1 is day 1. */
  function MonthStart(year: int, month: int): int
    requires 1 <= month <= 12
  {
    DaysBeforeYear(year) + DaysBeforeMonth(year, month) + 1
  }

  /** The date's year and month are these. */
  predicate InMonth(date: int, year: int, month: int)
    requires 1 <= month <= 12
  {
    MonthStart(year, month) <= date < MonthStart(year, month) + DaysInMonth(year, month)
  }

  function NextMonth(year: int, month: int): (int, int) {
    if month == 12 then (year + 1, 1) else (year, month + 1)
  }

  predicate Before(year: int, month: int, year': int, month': int) {
    year < year' || (year == year' && month < month')
  }

  lemma LeapDays(year: int)
    ensures year / 4 - (year - 1) / 4 == if year % 4 == 0 then 1 else 0
    ensures year / 100 - (year - 1) / 100 == if year % 100 == 0 then 1 else 0
    ensures year / 400 - (year - 1) / 400 == if year % 400 == 0 then 1 else 0
  {
  }

  lemma MultiplesOfFour(k: int)
    ensures (4 * k) % 4 == 0
  {
  }

  lemma MultiplesOfHundred(k: int)
    ensures (100 * k) % 100 == 0
  {
  }

  lemma DivisibilityByCenturies(year: int)
    ensures year % 100 == 0 ==> year % 4 == 0
    ensures year % 400 == 0 ==> year % 100 == 0
  {
    if year % 100 == 0 {
      assert year == 4 * (25 * (year / 100));
      MultiplesOfFour(25 * (year / 100));
    }
    if year % 400 == 0 {
      assert year == 100 * (4 * (year / 400));
      MultiplesOfHundred(4 * (year / 400));
    }
  }

  lemma DecemberFollows(year: int)
    ensures DaysBeforeMonth(year, 12) + 31 == 337 + DaysInMonth(year, 2)
  {
    var february := DaysInMonth(year, 2);
    assert DaysBeforeMonth(year, 2) == 31;
    assert DaysBeforeMonth(year, 3) == 31 + february;
    assert DaysBeforeMonth(year, 4) == 62 + february;
    assert DaysBeforeMonth(year, 5) == 92 + february;
    assert DaysBeforeMonth(year, 6) == 123 + february;
    assert DaysBeforeMonth(year, 7) == 153 + february;
    assert DaysBeforeMonth(year, 8) == 184 + february;
    assert DaysBeforeMonth(year, 9) == 215 + february;
    assert DaysBeforeMonth(year, 10) == 245 + february;
    assert DaysBeforeMonth(year, 11) == 276 + february;
    assert DaysBeforeMonth(year, 12) == 306 + february;
  }

  lemma YearLength(year: int)
    ensures DaysBeforeYear(year + 1) == DaysBeforeYear(year) + DaysBeforeMonth(year, 12) + 31
  {
    DecemberFollows(year);
    LeapDays(year);
    DivisibilityByCenturies(year);
  }

  /** Months follow one another without a gap. */
  lemma MonthsAreContiguous(year: int, month: int)
    requires 1 <= month <= 12
    ensures var (y, m) := NextMonth(year, month);
            MonthStart(y, m) == MonthStart(year, month) + DaysInMonth(year, month)
  {
    if month == 12 {
      YearLength(year);
    }
  }

  lemma {:induction false} MonthsDoNotOverlap(year: int, month: int, year': int, month': int)
    requires 1 <= month <= 12 && 1 <= month' <= 12 && Before(year, month, year', month')
    ensures MonthStart(year, month) + DaysInMonth(year, month) <= MonthStart(year', month')
    decreases 12 * (year' - year) + month' - month
  {
    MonthsAreContiguous(year, month);
    var (y, m) := NextMonth(year, month);
    if (y, m) != (year', month') {
      MonthsDoNotOverlap(y, m, year', month');
    }
  }

  /** A date belongs to one month only. */
  lemma MonthIsUnique(date: int, year: int, month: int, year': int, month': int)
    requires 1 <= month <= 12 && 1 <= month' <= 12 && InMonth(date, year, month) && InMonth(date, year', month')
    ensures year == year' && month == month'
  {
    if Before(year, month, year', month') {
      MonthsDoNotOverlap(year, month, year', month');
    } else if Before(year', month', year, month) {
      MonthsDoNotOverlap(year', month', year, month);
    }
  }
}
