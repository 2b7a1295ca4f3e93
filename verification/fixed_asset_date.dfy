/** The period-boundary primitive of the fixed-asset date service:
    `computeLastDayOfPeriodicity(periodicityType, date)`, the last day of the
    month or of the year that contains `date`. */
module FixedAssetDate {
  import opened Calendar

  /** The two periodicity types the service distinguishes. */
  datatype Periodicity = Monthly | Yearly

  /** `a` and `b` lie in the same period: the same year, and for a monthly
      periodicity the same month of it. */
  predicate SamePeriod(p: Periodicity, a: Date, b: Date) {
    a.year == b.year && (p == Monthly ==> a.month == b.month)
  }

  /** The specification: `r` is a date of the period containing `d`, and no
      date of that period comes after it. */
  ghost predicate IsLastDayOf(p: Periodicity, d: Date, r: Date) {
    && ValidDate(r)
    && SamePeriod(p, d, r)
    && forall e :: ValidDate(e) && SamePeriod(p, d, e) ==> LessEq(e, r)
  }

  /** The last day of the month (`Monthly`) or of the year (`Yearly`) that
      contains `d`. It depends on `p` and `d` alone. */
  function LastDayOfPeriodicity(p: Periodicity, d: Date): (r: Date)
    requires ValidDate(d)
    ensures IsLastDayOf(p, d, r)
    ensures LessEq(d, r)
  {
    match p
    case Monthly => Date(d.year, d.month, DaysInMonth(d.year, d.month))
    case Yearly => Date(d.year, 12, 31)
  }

  /** A monthly period ends on the last day of the date's own month, which is
      February 29 in a leap year and February 28 otherwise. */
  lemma MonthlyLastDay(d: Date)
    requires ValidDate(d)
    ensures var r := LastDayOfPeriodicity(Monthly, d);
      && r.year == d.year && r.month == d.month
      && r.day == DaysInMonth(d.year, d.month)
      && (d.month == 2 ==> r.day == if IsLeapYear(d.year) then 29 else 28)
  {
  }

  /** A yearly period ends on December 31 of the date's year. */
  lemma YearlyLastDay(d: Date)
    requires ValidDate(d)
    ensures LastDayOfPeriodicity(Yearly, d) == Date(d.year, 12, 31)
  {
  }

  /** Worked cases: the end of February in a leap and a common year, the end
      of June, and the end of a year. */
  lemma PeriodEndExamples()
    ensures LastDayOfPeriodicity(Monthly, Date(2024, 2, 10)) == Date(2024, 2, 29)
    ensures LastDayOfPeriodicity(Monthly, Date(2023, 2, 10)) == Date(2023, 2, 28)
    ensures LastDayOfPeriodicity(Monthly, Date(1900, 2, 1)) == Date(1900, 2, 28)
    ensures LastDayOfPeriodicity(Monthly, Date(2023, 6, 15)) == Date(2023, 6, 30)
    ensures LastDayOfPeriodicity(Yearly, Date(2024, 1, 10)) == Date(2024, 12, 31)
  {
  }

  /** The specification pins down exactly one date, the computed one. */
  lemma LastDayIsUnique(p: Periodicity, d: Date, r: Date)
    requires ValidDate(d)
    ensures IsLastDayOf(p, d, r) <==> r == LastDayOfPeriodicity(p, d)
  {
    var last := LastDayOfPeriodicity(p, d);
    if IsLastDayOf(p, d, r) {
      assert LessEq(last, r);
      assert LessEq(r, last);
      LessEqIsTotalOrder(r, last, r);
    }
  }

  /** Every valid date of the period is on or before the last day. */
  lemma Maximality(p: Periodicity, d: Date, e: Date)
    requires ValidDate(d) && ValidDate(e) && SamePeriod(p, d, e)
    ensures LessEq(e, LastDayOfPeriodicity(p, d))
  {
  }

  /** Taking the last day of a last day changes nothing. */
  lemma Idempotent(p: Periodicity, d: Date)
    requires ValidDate(d)
    ensures LastDayOfPeriodicity(p, LastDayOfPeriodicity(p, d)) == LastDayOfPeriodicity(p, d)
  {
  }

  /** Two dates share their last day exactly when they share their period. */
  lemma SameLastDayIffSamePeriod(p: Periodicity, a: Date, b: Date)
    requires ValidDate(a) && ValidDate(b)
    ensures LastDayOfPeriodicity(p, a) == LastDayOfPeriodicity(p, b) <==> SamePeriod(p, a, b)
  {
  }

  /** A later date never has an earlier period end. */
  lemma Monotone(p: Periodicity, a: Date, b: Date)
    requires ValidDate(a) && ValidDate(b) && LessEq(a, b)
    ensures LessEq(LastDayOfPeriodicity(p, a), LastDayOfPeriodicity(p, b))
  {
  }

  /** The month of a date ends no later than its year. */
  lemma MonthEndsNoLaterThanYear(d: Date)
    requires ValidDate(d)
    ensures LessEq(LastDayOfPeriodicity(Monthly, d), LastDayOfPeriodicity(Yearly, d))
    ensures SamePeriod(Yearly, LastDayOfPeriodicity(Monthly, d), d)
  {
  }

  /** The last day of the period is the one date of the period whose next
      day falls outside it. */
  lemma LastDayIsWhereThePeriodEnds(p: Periodicity, d: Date, r: Date)
    requires ValidDate(d) && ValidDate(r) && SamePeriod(p, d, r)
    ensures r == LastDayOfPeriodicity(p, d) <==> !SamePeriod(p, d, NextDay(r))
  {
  }

  /** A reference computation that walks forward from `d` one day at a time
      while the next day still belongs to the period, and stops on the last
      day of the period. */
  method LastDayByStepping(p: Periodicity, d: Date) returns (r: Date)
    requires ValidDate(d)
    ensures r == LastDayOfPeriodicity(p, d)
  {
    r := d;
    while SamePeriod(p, d, NextDay(r))
      invariant ValidDate(r) && SamePeriod(p, d, r)
      decreases 12 - r.month, 31 - r.day
    {
      r := NextDay(r);
    }
    LastDayIsWhereThePeriodEnds(p, d, r);
  }
}
