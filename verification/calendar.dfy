/** Calendar dates of the proleptic Gregorian calendar (ISO 8601), with the
    year range, month lengths, leap-year rule and ordering of
    `java.time.LocalDate`. */
module Calendar {

  /** Smallest and largest year a `LocalDate` can hold. */
  const MinYear: int := -999_999_999
  const MaxYear: int := 999_999_999

  /** A (year, month, day) triple; only `ValidDate` triples are dates. */
  datatype Date = Date(year: int, month: int, day: int)

  /** Gregorian leap years: every fourth year, except centuries that are
      not divisible by 400. Divisibility does not depend on the sign
      convention of `%`, so negative (proleptic) years follow the same rule. */
  predicate IsLeapYear(y: int) {
    y % 4 == 0 && (y % 100 != 0 || y % 400 == 0)
  }

  /** Known years of the Gregorian calendar, including proleptic ones:
      2000 is a leap year and 1900 is not; year 0 (1 BC) is a leap year. */
  lemma LeapYearExamples()
    ensures IsLeapYear(2000) && !IsLeapYear(1900)
    ensures IsLeapYear(2024) && !IsLeapYear(2023)
    ensures IsLeapYear(0) && IsLeapYear(-4) && !IsLeapYear(-100) && IsLeapYear(-400)
  {
  }

  /** The leap-year pattern repeats every 400 years. */
  lemma LeapYearCycle(y: int)
    ensures IsLeapYear(y + 400) == IsLeapYear(y)
  {
  }

  /** The number of days of month `m` (1 = January) in year `y`. */
  function DaysInMonth(y: int, m: int): (n: int)
    requires 1 <= m <= 12
    ensures 28 <= n <= 31
    ensures n == 28 <==> m == 2 && !IsLeapYear(y)
    ensures n == 29 <==> m == 2 && IsLeapYear(y)
    ensures n == 30 <==> m == 4 || m == 6 || m == 9 || m == 11
  {
    if m == 2 then (if IsLeapYear(y) then 29 else 28)
    else if m == 4 || m == 6 || m == 9 || m == 11 then 30
    else 31
  }

  /** Sum of the lengths of months `1 .. k` of year `y`. */
  function DaysBeforeMonth(y: int, k: int): int
    requires 0 <= k <= 12
  {
    if k == 0 then 0 else DaysBeforeMonth(y, k - 1) + DaysInMonth(y, k)
  }

  /** The number of days of year `y`, as `LocalDate.lengthOfYear` gives it. */
  function DaysInYear(y: int): int {
    if IsLeapYear(y) then 366 else 365
  }

  /** The twelve month lengths add up to the length of the year. */
  lemma MonthLengthsSumToYearLength(y: int)
    ensures DaysBeforeMonth(y, 12) == DaysInYear(y)
  {
    var feb := DaysInMonth(y, 2);
    assert DaysBeforeMonth(y, 1) == 31;
    assert DaysBeforeMonth(y, 2) == 31 + feb;
    assert DaysBeforeMonth(y, 3) == 62 + feb;
    assert DaysBeforeMonth(y, 4) == 92 + feb;
    assert DaysBeforeMonth(y, 5) == 123 + feb;
    assert DaysBeforeMonth(y, 6) == 153 + feb;
    assert DaysBeforeMonth(y, 7) == 184 + feb;
    assert DaysBeforeMonth(y, 8) == 215 + feb;
    assert DaysBeforeMonth(y, 9) == 245 + feb;
    assert DaysBeforeMonth(y, 10) == 276 + feb;
    assert DaysBeforeMonth(y, 11) == 306 + feb;
  }

  /** A triple `LocalDate.of(year, month, day)` accepts. */
  predicate ValidDate(d: Date) {
    && MinYear <= d.year <= MaxYear
    && 1 <= d.month <= 12
    && 1 <= d.day <= DaysInMonth(d.year, d.month)
  }

  /** Dates `LocalDate.of` accepts and rejects: February 29 exists only in
      leap years, April has no 31st, and the year range is bounded. */
  lemma ValidDateExamples()
    ensures ValidDate(Date(2024, 2, 29)) && !ValidDate(Date(2023, 2, 29))
    ensures ValidDate(Date(2023, 2, 28)) && !ValidDate(Date(2023, 4, 31))
    ensures !ValidDate(Date(2023, 13, 1)) && !ValidDate(Date(2023, 1, 0))
    ensures ValidDate(Date(MaxYear, 12, 31)) && !ValidDate(Date(MaxYear + 1, 1, 1))
    ensures ValidDate(Date(MinYear, 1, 1)) && !ValidDate(Date(MinYear - 1, 12, 31))
  {
  }

  /** `a` is on or before `b`: the lexicographic order on (year, month, day)
      that `LocalDate.compareTo` implements. */
  predicate LessEq(a: Date, b: Date) {
    || a.year < b.year
    || (a.year == b.year && a.month < b.month)
    || (a.year == b.year && a.month == b.month && a.day <= b.day)
  }

  /** `a` is strictly before `b`. */
  predicate Before(a: Date, b: Date) {
    LessEq(a, b) && a != b
  }

  /** `LessEq` is a total order on dates. */
  lemma LessEqIsTotalOrder(a: Date, b: Date, c: Date)
    ensures LessEq(a, a)
    ensures LessEq(a, b) && LessEq(b, a) ==> a == b
    ensures LessEq(a, b) && LessEq(b, c) ==> LessEq(a, c)
    ensures LessEq(a, b) || LessEq(b, a)
  {
  }

  /** The day after `d`, as `d.plusDays(1)` computes it (the year may step
      past `MaxYear`, where `LocalDate` would throw instead). */
  function NextDay(d: Date): (n: Date)
    requires ValidDate(d)
    ensures Before(d, n)
    ensures d.year < MaxYear || (d.month, d.day) != (12, 31) ==> ValidDate(n)
    ensures forall e :: ValidDate(e) && Before(d, e) ==> LessEq(n, e)
  {
    if d.day < DaysInMonth(d.year, d.month) then Date(d.year, d.month, d.day + 1)
    else if d.month < 12 then Date(d.year, d.month + 1, 1)
    else Date(d.year + 1, 1, 1)
  }
}
