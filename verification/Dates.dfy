/** ISO calendar dates, the engine's day counter and the verifier's calendar. */
module Dates {

  datatype Date = Date(year: int, month: int, day: int)

  predicate Divides(n: int, year: int)
    requires n > 0
  {
    year % n == 0
  }

  predicate IsLeap(year: int) {
    Divides(4, year) && (!Divides(100, year) || Divides(400, year))
  }

  /** Days before the first of the month in a common year; month 0 reads the whole table but its last entry. */
  function DaysBefore(month: int): int {
    if month == 0 then 334
    else if month <= 1 then 0
    else if month == 2 then 31
    else if month == 3 then 59
    else if month == 4 then 90
    else if month == 5 then 120
    else if month == 6 then 151
    else if month == 7 then 181
    else if month == 8 then 212
    else if month == 9 then 243
    else if month == 10 then 273
    else if month == 11 then 304
    else 334
  }

  function MonthLength(year: int, month: int): int {
    if month == 2 then (if IsLeap(year) then 29 else 28)
    else if month == 4 || month == 6 || month == 9 || month == 11 then 30
    else 31
  }

  predicate ValidDate(d: Date) {
    1 <= d.year <= 9999 && 1 <= d.month <= 12 && 1 <= d.day <= MonthLength(d.year, d.month)
  }

  /** Order of the ISO texts. */
  predicate DateLe(a: Date, b: Date) {
    a.year < b.year
    || (a.year == b.year && (a.month < b.month || (a.month == b.month && a.day <= b.day)))
  }

  function Later(a: Date, b: Date): Date {
    if DateLe(a, b) then b else a
  }

  function Latest(dates: seq<Date>): (d: Date)
    requires dates != []
    ensures d in dates && forall x :: x in dates ==> DateLe(x, d)
  {
    if |dates| == 1 then dates[0]
    else
      var rest := Latest(dates[1..]);
      assert dates == [dates[0]] + dates[1..];
      Later(dates[0], rest)
  }

  // ------------------------------------------------------------ the engine's counter

  /** A year counts 366 and no day is inserted in leap years. */
  function EngineOrdinal(d: Date): int {
    d.year * 366 + DaysBefore(d.month) + d.day
  }

  function EngineDelta(a: Date, b: Date): int {
    EngineOrdinal(b) - EngineOrdinal(a)
  }

  // ------------------------------------------------------------ the calendar

  /** How many of the years 1 to `year` are multiples of n. */
  function Multiples(n: int, year: int): int
    requires n > 0
  {
    year / n
  }

  function LeapYearsBefore(year: int): int {
    Multiples(4, year - 1) - Multiples(100, year - 1) + Multiples(400, year - 1)
  }

  /** One after the end of February in a leap year, otherwise nothing. */
  function LeapDayPassed(d: Date): int {
    if IsLeap(d.year) && d.month > 2 then 1 else 0
  }

  /** Proleptic Gregorian day number. */
  function CalendarOrdinal(d: Date): int {
    365 * (d.year - 1) + LeapYearsBefore(d.year) + DaysBefore(d.month) + LeapDayPassed(d) + d.day
  }

  function CalendarDelta(a: Date, b: Date): int {
    CalendarOrdinal(b) - CalendarOrdinal(a)
  }

  lemma MultiplesStep(n: int, year: int)
    requires n > 0
    ensures Multiples(n, year) == Multiples(n, year - 1) + (if Divides(n, year) then 1 else 0)
  {
    var q, r := (year - 1) / n, (year - 1) % n;
    assert year - 1 == n * q + r;
    if r == n - 1 {
      QuotientIs(year, n, q + 1, 0);
    } else {
      QuotientIs(year, n, q, r + 1);
    }
  }

  lemma QuotientIs(x: int, n: int, q: int, r: int)
    requires n > 0 && x == n * q + r && 0 <= r < n
    ensures x / n == q && x % n == r
  {
    var p := x / n;
    assert x == n * p + x % n;
    if p > q {
      MulAtLeast(n, p - q);
    } else if p < q {
      MulAtLeast(n, q - p);
    }
  }

  lemma MulAtLeast(n: int, d: int)
    requires n > 0 && d >= 1
    ensures n * d >= n
  {
  }

  lemma DivisorsNest(year: int)
    ensures Divides(100, year) ==> Divides(4, year)
    ensures Divides(400, year) ==> Divides(100, year)
  {
    if Divides(100, year) {
      QuotientIs(year, 4, 25 * (year / 100), 0);
    }
    if Divides(400, year) {
      QuotientIs(year, 100, 4 * (year / 400), 0);
    }
  }

  lemma LeapYearsStep(year: int)
    ensures LeapYearsBefore(year + 1) == LeapYearsBefore(year) + (if IsLeap(year) then 1 else 0)
  {
    hide Multiples, Divides;
    MultiplesStep(4, year);
    MultiplesStep(100, year);
    MultiplesStep(400, year);
    DivisorsNest(year);
  }

  lemma LeapYearsApart(year: int)
    requires Divides(4, year)
    ensures !Divides(4, year + 1)
  {
    QuotientIs(year + 1, 4, year / 4, 1);
  }

  /** The next calendar day is one day later, so the day number counts real days. */
  lemma CalendarCountsDays(d: Date)
    requires ValidDate(d)
    ensures d.day < MonthLength(d.year, d.month) ==>
              CalendarDelta(d, Date(d.year, d.month, d.day + 1)) == 1
    ensures d.day == MonthLength(d.year, d.month) && d.month < 12 ==>
              CalendarDelta(d, Date(d.year, d.month + 1, 1)) == 1
    ensures d.day == MonthLength(d.year, d.month) && d.month == 12 ==>
              CalendarDelta(d, Date(d.year + 1, 1, 1)) == 1
  {
    hide Multiples, Divides, LeapYearsBefore;
    LeapYearsStep(d.year);
  }

  /** Two dates of one year: the counters agree unless a leap year's 29 February lies between them. */
  lemma SameYearAgreement(a: Date, b: Date)
    requires a.year == b.year
    ensures EngineDelta(a, b) == CalendarDelta(a, b) <==> !(IsLeap(a.year) && (a.month > 2) != (b.month > 2))
  {
  }

  /** Across one year end the counters agree only from before 1 March of a leap year, or into a leap year after February. */
  lemma YearEndAgreement(a: Date, b: Date)
    requires a.year >= 1 && b.year == a.year + 1
    ensures EngineDelta(a, b) == CalendarDelta(a, b)
       <==> (IsLeap(a.year) && a.month <= 2) || (IsLeap(b.year) && b.month > 2)
  {
    hide Multiples, Divides, LeapYearsBefore;
    LeapYearsStep(a.year);
    if IsLeap(a.year) {
      LeapYearsApart(a.year);
    }
  }

  /** Calendar years less their 29 Februaries: what the engine's counter gains on the calendar. */
  function Surplus(year: int): int { year - LeapYearsBefore(year) }

  lemma SurplusStep(year: int)
    ensures Surplus(year + 1) == Surplus(year) + (if IsLeap(year) then 0 else 1)
  {
    hide Multiples, Divides, LeapYearsBefore, IsLeap;
    LeapYearsStep(year);
  }

  lemma LeapYearsAreApart(year: int)
    requires IsLeap(year)
    ensures !IsLeap(year + 1) && !IsLeap(year + 2) && !IsLeap(year + 3)
  {
    QuotientIs(year + 1, 4, year / 4, 1);
    QuotientIs(year + 2, 4, year / 4, 2);
    QuotientIs(year + 3, 4, year / 4, 3);
  }

  lemma {:induction false} SurplusGrows(year: int, later: int)
    requires year <= later
    ensures Surplus(year) <= Surplus(later)
    ensures later >= year + 2 ==> Surplus(year) < Surplus(later)
    ensures later >= year + 3 ==> Surplus(year) + 2 <= Surplus(later)
    decreases later - year
  {
    hide IsLeap, Surplus;
    if later > year {
      SurplusGrows(year, later - 1);
      SurplusStep(later - 1);
      if later >= year + 2 {
        SurplusStep(later - 2);
        SurplusGrows(year, later - 2);
        if IsLeap(later - 2) {
          LeapYearsAreApart(later - 2);
        }
      }
      if later >= year + 3 {
        SurplusStep(later - 3);
        SurplusGrows(year, later - 3);
        if IsLeap(later - 3) {
          LeapYearsAreApart(later - 3);
        }
      }
    }
  }

  lemma DeltaIsSurplus(a: Date, b: Date)
    ensures EngineDelta(a, b) - CalendarDelta(a, b)
         == Surplus(b.year) - Surplus(a.year) - LeapDayPassed(b) + LeapDayPassed(a)
  {
    hide LeapYearsBefore, LeapDayPassed;
  }

  /** More than one year end apart the engine always counts more days. */
  lemma FarApartNeverAgrees(a: Date, b: Date)
    requires b.year >= a.year + 2
    ensures EngineDelta(a, b) > CalendarDelta(a, b)
  {
    hide IsLeap, Surplus, EngineDelta, CalendarDelta;
    DeltaIsSurplus(a, b);
    SurplusGrows(a.year, b.year);
    if b.year == a.year + 2 && IsLeap(b.year) {
      SurplusStep(a.year);
      SurplusStep(a.year + 1);
      if IsLeap(a.year) {
        LeapYearsAreApart(a.year);
      }
      if IsLeap(a.year + 1) {
        LeapYearsAreApart(a.year + 1);
      }
    }
  }

  /** No 29 February inside a year, or a 29 February to make up for the one year end between the dates. */
  predicate CountersMeet(a: Date, b: Date) {
    || (a.year == b.year && !(IsLeap(a.year) && (a.month > 2) != (b.month > 2)))
    || (b.year == a.year + 1 && ((IsLeap(a.year) && a.month <= 2) || (IsLeap(b.year) && b.month > 2)))
  }

  /** For any two dates, in either order: exactly when the engine's counter is the calendar's. */
  lemma CountersAgreeExactly(a: Date, b: Date)
    requires a.year >= 1 && b.year >= 1
    ensures EngineDelta(a, b) == CalendarDelta(a, b) <==> CountersMeet(a, b) || CountersMeet(b, a)
  {
    hide CalendarOrdinal, EngineOrdinal, IsLeap;
    if a.year == b.year {
      SameYearAgreement(a, b);
    } else if b.year == a.year + 1 {
      YearEndAgreement(a, b);
    } else if a.year == b.year + 1 {
      YearEndAgreement(b, a);
    } else if b.year > a.year {
      FarApartNeverAgrees(a, b);
    } else {
      FarApartNeverAgrees(b, a);
    }
  }

  /** ISO text order and the engine's counter never disagree about which date is later. */
  lemma OrderIsEngineOrder(a: Date, b: Date)
    requires ValidDate(a) && ValidDate(b) && DateLe(a, b)
    ensures EngineOrdinal(a) <= EngineOrdinal(b)
  {
    MonthOrder(a.month, b.month, a.year);
  }

  lemma MonthOrder(m: int, n: int, year: int)
    requires 1 <= m <= 12 && 1 <= n <= 12
    ensures m < n ==> DaysBefore(m) + MonthLength(year, m) <= DaysBefore(n) + (if m <= 2 then 1 else 0)
    ensures DaysBefore(m) + MonthLength(year, m) <= 366
  {
  }
}
