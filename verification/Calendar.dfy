/** UTC calendar times to the second, and how many seconds apart they are. */
module Calendar {

  // A UTC time to the second, as the stamp keeps it.
  datatype When = When(year: nat, month: nat, day: nat, hour: nat, minute: nat, second: nat)

  predicate IsLeap(year: nat) {
    year % 4 == 0 && (year % 100 != 0 || year % 400 == 0)
  }

  function DaysIn(year: nat, month: nat): nat {
    if month == 2 then if IsLeap(year) then 29 else 28
    else if month == 4 || month == 6 || month == 9 || month == 11 then 30
    else 31
  }

  predicate IsDate(when: When) {
    && 1 <= when.year <= 9999 && 1 <= when.month <= 12 && 1 <= when.day <= DaysIn(when.year, when.month)
    && when.hour < 24 && when.minute < 60 && when.second < 60
  }

  predicate Before(a: When, b: When) {
    || a.year < b.year
    || (a.year == b.year && (a.month < b.month
    || (a.month == b.month && (a.day < b.day
    || (a.day == b.day && (a.hour < b.hour
    || (a.hour == b.hour && (a.minute < b.minute
    || (a.minute == b.minute && a.second < b.second)))))))))
  }

  function DaysInYear(year: nat): nat {
    if IsLeap(year) then 366 else 365
  }

  function DaysBeforeYear(year: nat): nat {
    if year <= 1 then 0 else DaysBeforeYear(year - 1) + DaysInYear(year - 1)
  }

  function DaysBeforeMonth(year: nat, month: nat): nat {
    if month <= 1 then 0 else DaysBeforeMonth(year, month - 1) + DaysIn(year, month - 1)
  }

  /** The days from 1 January of year 1, and the seconds from its midnight. */
  function Day(when: When): int {
    DaysBeforeYear(when.year) + DaysBeforeMonth(when.year, when.month) + when.day - 1
  }

  function Seconds(when: When): int {
    86400 * Day(when) + 3600 * when.hour + 60 * when.minute + when.second
  }

  lemma {:induction false} MonthsGrow(year: nat, month: nat, later: nat)
    requires 1 <= month < later
    ensures DaysBeforeMonth(year, month) + DaysIn(year, month) <= DaysBeforeMonth(year, later)
    decreases later
  {
    if month < later - 1 {
      MonthsGrow(year, month, later - 1);
    }
  }

  lemma {:induction false} MonthsFillTheYear(year: nat)
    ensures DaysBeforeMonth(year, 12) + 31 == DaysInYear(year)
  {
    var spring := 31 + DaysIn(year, 2);
    assert DaysBeforeMonth(year, 2) == 31 && DaysBeforeMonth(year, 3) == spring;
    assert DaysBeforeMonth(year, 4) == spring + 31 && DaysBeforeMonth(year, 5) == spring + 61;
    assert DaysBeforeMonth(year, 6) == spring + 92 && DaysBeforeMonth(year, 7) == spring + 122;
    assert DaysBeforeMonth(year, 8) == spring + 153 && DaysBeforeMonth(year, 9) == spring + 184;
    assert DaysBeforeMonth(year, 10) == spring + 214 && DaysBeforeMonth(year, 11) == spring + 245;
    assert DaysBeforeMonth(year, 12) == spring + 275;
  }

  lemma {:induction false} YearsGrow(year: nat, later: nat)
    requires 1 <= year < later
    ensures DaysBeforeYear(year) + DaysInYear(year) <= DaysBeforeYear(later)
    decreases later
  {
    if year < later - 1 {
      YearsGrow(year, later - 1);
    }
  }

  lemma {:induction false} DayIsInItsYear(when: When)
    requires IsDate(when)
    ensures DaysBeforeYear(when.year) <= Day(when) < DaysBeforeYear(when.year) + DaysInYear(when.year)
  {
    MonthsFillTheYear(when.year);
    if when.month < 12 {
      MonthsGrow(when.year, when.month, 12);
    }
  }

  lemma {:induction false} DaysSort(a: When, b: When)
    requires IsDate(a) && IsDate(b)
    requires a.year < b.year || (a.year == b.year && (a.month < b.month || (a.month == b.month && a.day < b.day)))
    ensures Day(a) < Day(b)
  {
    if a.year < b.year {
      DayIsInItsYear(a);
      DayIsInItsYear(b);
      YearsGrow(a.year, b.year);
    } else if a.month < b.month {
      MonthsGrow(a.year, a.month, b.month);
    }
  }

  lemma {:induction false} EarlierHasFewerSeconds(a: When, b: When)
    requires IsDate(a) && IsDate(b) && Before(a, b)
    ensures Seconds(a) < Seconds(b)
  {
    if a.year != b.year || a.month != b.month || a.day != b.day {
      DaysSort(a, b);
    }
  }

  /** A time is before another exactly when it has fewer seconds. */
  lemma {:induction false} SecondsSort(a: When, b: When)
    requires IsDate(a) && IsDate(b)
    ensures Before(a, b) <==> Seconds(a) < Seconds(b)
    ensures a == b <==> Seconds(a) == Seconds(b)
  {
    if Before(a, b) {
      EarlierHasFewerSeconds(a, b);
    } else if Before(b, a) {
      EarlierHasFewerSeconds(b, a);
    }
  }

  /** The leap rule in one formula: one day every 4 years, none every 100, one every 400. */
  lemma {:induction false} DaysByRule(year: nat)
    requires year >= 1
    ensures DaysBeforeYear(year) == 365 * (year - 1) + (year - 1) / 4 - (year - 1) / 100 + (year - 1) / 400
    decreases year
  {
    if year > 1 {
      DaysByRule(year - 1);
      LeapByRule(year - 1);
    }
  }

  lemma {:induction false} LeapByRule(year: nat)
    requires year >= 1
    ensures DaysInYear(year) == 365 + (year / 4 - (year - 1) / 4) - (year / 100 - (year - 1) / 100)
                                + (year / 400 - (year - 1) / 400)
  {
    EveryFourth(year);
    EveryHundredth(year);
    EveryFourHundredth(year);
  }

  lemma {:induction false} EveryFourth(n: nat)
    requires n >= 1
    ensures n / 4 - (n - 1) / 4 == if n % 4 == 0 then 1 else 0
  {}

  lemma {:induction false} EveryHundredth(n: nat)
    requires n >= 1
    ensures n / 100 - (n - 1) / 100 == if n % 100 == 0 then 1 else 0
  {}

  lemma {:induction false} EveryFourHundredth(n: nat)
    requires n >= 1
    ensures n / 400 - (n - 1) / 400 == if n % 400 == 0 then 1 else 0
  {}

  /** The Unix epoch is 62135596800 seconds after the year 1 began. */
  lemma {:induction false} EpochIsKnown()
    ensures Seconds(When(1970, 1, 1, 0, 0, 0)) == 62135596800
  {
    DaysByRule(1970);
    assert DaysBeforeMonth(1970, 1) == 0;
  }

  /** And 21 October 2026, 02:30, is 1792549800 seconds after it. */
  lemma {:induction false} OctoberIsKnown()
    ensures Seconds(When(2026, 10, 21, 2, 30, 0)) == 62135596800 + 1792549800
  {
    DaysByRule(2026);
    assert DaysBeforeMonth(2026, 2) == 31 && DaysBeforeMonth(2026, 3) == 59 && DaysBeforeMonth(2026, 4) == 90;
    assert DaysBeforeMonth(2026, 5) == 120 && DaysBeforeMonth(2026, 6) == 151 && DaysBeforeMonth(2026, 7) == 181;
    assert DaysBeforeMonth(2026, 8) == 212 && DaysBeforeMonth(2026, 9) == 243 && DaysBeforeMonth(2026, 10) == 273;
  }
}
