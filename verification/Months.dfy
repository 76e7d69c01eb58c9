/**
  The fiscal calendar in terms of calendar years and months: which month an instant lies in,
  which months make up each quarter, and which onboarding dates make an account existing base.
 */
module Months {
  import opened Schema
  import opened Dashboard
  import opened FiscalCalendar

  function LengthOf(y: int, m: nat): nat
    requires m < 12
  {
    if m in {3, 5, 8, 10} then 30
    else if m != 1 then 31
    else if y % 400 == 0 || (y % 4 == 0 && y % 100 != 0) then 29
    else 28
  }

  lemma MonthLength(leap: bool, m: nat)
    requires m < 12
    ensures DaysBeforeMonth(m + 1, leap) - DaysBeforeMonth(m, leap) ==
              if m in {3, 5, 8, 10} then 30 else if m != 1 then 31 else if leap then 29 else 28
  {
  }

  lemma MonthLengthInYear(y: int, m: nat)
    requires m < 12
    ensures DaysBeforeMonth(m + 1, IsLeap(y)) == DaysBeforeMonth(m, IsLeap(y)) + LengthOf(y, m)
  {
    LeapYears(y);
    MonthLength(IsLeap(y), m);
  }

  lemma LeapYears(y: int)
    ensures IsLeap(y) <==> y % 400 == 0 || (y % 4 == 0 && y % 100 != 0)
  {
    Multiples(y);
  }

  /** Days from 1 January 1970 to the first of month `m` of year `y`. */
  function FirstDay(y: int, m: nat): int
    requires m < 12
  {
    DaysBeforeYear(y) + DaysBeforeMonth(m, IsLeap(y))
  }

  function NextMonth(y: int, m: nat): (int, nat)
    requires m < 12
  {
    if m == 11 then (y + 1, 0) else (y, m + 1)
  }

  lemma MonthsAdjoin(y: int, m: nat)
    requires m < 12
    ensures var (z, k) := NextMonth(y, m);
            k < 12 && FirstDay(y, m) + LengthOf(y, m) == FirstDay(z, k)
  {
    MonthLengthInYear(y, m);
    YearLength(y);
  }

  lemma DateOfDay(y: int, m: nat, d: nat)
    requires m < 12
    ensures DateUTC(y, m, d) == (FirstDay(y, m) + d - 1) * 86_400_000
  {
  }

  /** The first of the month after month `m` of year `y`. */
  function NextFirst(y: int, m: nat): Time
    requires m < 12
  {
    var (z, k) := NextMonth(y, m);
    DateUTC(z, k, 1)
  }

  /** The calendar starts at 1 January 1970, and every month has its length. */
  lemma CalendarIsGregorian(y: int, m: nat)
    requires m < 12
    ensures DateUTC(1970, 0, 1) == 0
    ensures DateUTC(y, m, 1) + LengthOf(y, m) * 86_400_000 == NextFirst(y, m)
  {
    var (z, k) := NextMonth(y, m);
    MonthsAdjoin(y, m);
    DateOfDay(y, m, 1);
    DateOfDay(z, k, 1);
    Scaled(FirstDay(y, m), LengthOf(y, m), FirstDay(z, k));
  }

  lemma Scaled(first: int, days: int, next: int)
    requires first + days == next
    ensures first * 86_400_000 + days * 86_400_000 == next * 86_400_000
  {
  }

  /** Every day has its 86,400 seconds, to the last millisecond. */
  lemma DayLength(y: int, m: nat, d: nat)
    requires m < 12
    ensures DateUTC(y, m, d + 1) == DateUTC(y, m, d) + 86_400_000
    ensures EndOfDayUTC(y, m, d) + 1 == DateUTC(y, m, d + 1)
  {
  }

  lemma {:induction false} YearsInOrder(y: int, z: int)
    requires y <= z
    ensures DaysBeforeYear(y) <= DaysBeforeYear(z)
    decreases z - y
  {
    if y < z {
      YearLength(y);
      YearsInOrder(y + 1, z);
    }
  }

  lemma OneYear(n: int, y: int, z: int)
    requires DaysBeforeYear(y) <= n < DaysBeforeYear(y + 1) && DaysBeforeYear(z) <= n < DaysBeforeYear(z + 1)
    ensures y == z
  {
    if y < z {
      YearsInOrder(y + 1, z);
    } else if z < y {
      YearsInOrder(z + 1, y);
    }
  }

  lemma OneMonth(n: int, leap: bool, m: nat, k: nat)
    requires m < 12 && k < 12
    requires DaysBeforeMonth(m, leap) <= n < DaysBeforeMonth(m + 1, leap) && DaysBeforeMonth(k, leap) <= n < DaysBeforeMonth(k + 1, leap)
    ensures m == k
  {
    MonthsInOrder(leap);
  }

  /** Year and month are read back from any instant of any day of the calendar. */
  lemma DateRoundTrip(y: int, m: nat, d: nat, ms: int)
    requires m < 12 && 1 <= d <= LengthOf(y, m) && 0 <= ms < 86_400_000
    ensures FullYear(DateUTC(y, m, d) + ms) == y
    ensures Month(DateUTC(y, m, d) + ms) == m
  {
    var t, n := DateUTC(y, m, d) + ms, FirstDay(y, m) + d - 1;
    DateOfDay(y, m, d);
    WholeDays(n, ms);
    DayInYear(y, m, d);
    YearOfDay(t, n, y);
    MonthOfDay(t, n, y);
    OneMonth(n - DaysBeforeYear(y), IsLeap(y), m, Month(t));
  }

  lemma YearOfDay(t: Time, n: int, y: int)
    requires t / 86_400_000 == n && DaysBeforeYear(y) <= n < DaysBeforeYear(y + 1)
    ensures FullYear(t) == y
  {
    OneYear(n, y, FullYear(t));
  }

  lemma WholeDays(n: int, ms: int)
    requires 0 <= ms < 86_400_000
    ensures (n * 86_400_000 + ms) / 86_400_000 == n
  {
  }

  lemma DayInYear(y: int, m: nat, d: nat)
    requires m < 12 && 1 <= d <= LengthOf(y, m)
    ensures var n := FirstDay(y, m) + d - 1;
            && DaysBeforeYear(y) <= n < DaysBeforeYear(y + 1)
            && DaysBeforeMonth(m, IsLeap(y)) <= n - DaysBeforeYear(y) < DaysBeforeMonth(m + 1, IsLeap(y))
  {
    YearLength(y);
    MonthLengthInYear(y, m);
    MonthsInOrder(IsLeap(y));
  }

  lemma MonthOfDay(t: Time, n: int, y: int)
    requires t / 86_400_000 == n && FullYear(t) == y
    ensures var m := Month(t);
            DaysBeforeMonth(m, IsLeap(y)) <= n - DaysBeforeYear(y) < DaysBeforeMonth(m + 1, IsLeap(y))
  {
    YearLength(y);
  }

  // ---- fiscal years and quarters ---------------------------------------------

  /** January to March belong to the fiscal year that started the April before. */
  lemma FiscalYearByMonth(t: Time)
    ensures FiscalYear(t) == if Month(t) in {0, 1, 2} then FullYear(t) - 1 else FullYear(t)
  {
  }

  predicate InMonths(t: Time, first: nat) {
    first <= Month(t) <= first + 2
  }

  lemma InOwnMonth(t: Time)
    ensures var y, m := FullYear(t), Month(t);
            DateUTC(y, m, 1) <= t < NextFirst(y, m)
  {
    var n, y, m := t / 86_400_000, FullYear(t), Month(t);
    var (z, k) := NextMonth(y, m);
    MonthOfDay(t, n, y);
    MonthLengthInYear(y, m);
    MonthsAdjoin(y, m);
    DateOfDay(y, m, 1);
    DateOfDay(z, k, 1);
    DaysToTime(t, n, FirstDay(y, m), FirstDay(z, k));
  }

  lemma DaysToTime(t: Time, n: int, first: int, next: int)
    requires n == t / 86_400_000 && first <= n < next
    ensures first * 86_400_000 <= t < next * 86_400_000
  {
  }

  lemma {:induction false} MonthsAscend(y: int, j: nat, k: nat)
    requires j <= k < 12
    ensures DateUTC(y, j, 1) <= DateUTC(y, k, 1)
  {
    MonthsInOrder(IsLeap(y));
  }

  lemma YearEnds(y: int, j: nat)
    requires j < 12
    ensures DateUTC(y, j, 1) < DateUTC(y + 1, 0, 1)
  {
    MonthsInOrder(IsLeap(y));
    YearLength(y);
  }

  /** An instant precedes the first of a month of its year exactly if its own month does. */
  lemma BeforeFirst(t: Time, k: nat)
    requires k < 12
    ensures t < DateUTC(FullYear(t), k, 1) <==> Month(t) < k
    ensures DateUTC(FullYear(t), 0, 1) <= t < DateUTC(FullYear(t) + 1, 0, 1)
  {
    var y, m := FullYear(t), Month(t);
    InOwnMonth(t);
    MonthsAscend(y, 0, m);
    if m < k {
      MonthsAscend(y, m + 1, k);
    } else {
      MonthsAscend(y, k, m);
    }
    if m < 11 {
      YearEnds(y, m + 1);
    }
  }

  function FirstMonth(q: Quarter): nat {
    match q
    case Q1 => 3
    case Q2 => 6
    case Q3 => 9
    case Q4 => 0
  }

  /** The calendar year of the quarter of fiscal year `fy`. */
  function YearOf(q: Quarter, fy: int): int {
    if q == Q4 then fy + 1 else fy
  }

  /** Midnight on the first of the month three months after month `k` of year `y`. */
  function QuarterOn(y: int, k: nat): Time
    requires k in {0, 3, 6, 9}
  {
    if k == 9 then DateUTC(y + 1, 0, 1) else DateUTC(y, k + 3, 1)
  }

  /** A quarter runs from the first of its first month up to the first of the next quarter's. */
  lemma QuarterRuns(q: Quarter, fy: int)
    ensures QuarterOfYear(q, fy).start == DateUTC(YearOf(q, fy), FirstMonth(q), 1)
    ensures QuarterOfYear(q, fy).end + 1 == QuarterOn(YearOf(q, fy), FirstMonth(q))
  {
    var y, last := YearOf(q, fy), FirstMonth(q) + 2;
    DayLength(y, last, LengthOf(y, last));
    MonthsAdjoin(y, last);
    var (z, k) := NextMonth(y, last);
    DateOfDay(y, last, LengthOf(y, last) + 1);
    DateOfDay(z, k, 1);
  }

  lemma InMonthsOfYear(t: Time, k: nat)
    requires k in {0, 3, 6, 9}
    ensures DateUTC(FullYear(t), k, 1) <= t < QuarterOn(FullYear(t), k) <==> InMonths(t, k)
  {
    BeforeFirst(t, k);
    if k < 9 {
      BeforeFirst(t, k + 3);
    }
  }

  lemma AfterEarlierYear(t: Time, k: nat)
    requires k in {0, 3, 6, 9}
    ensures t >= QuarterOn(FullYear(t) - 1, k)
  {
    BeforeFirst(t, 0);
    if k < 9 {
      YearEnds(FullYear(t) - 1, k + 3);
    }
  }

  lemma BeforeLaterYear(t: Time, k: nat)
    requires k < 12
    ensures t < DateUTC(FullYear(t) + 1, k, 1)
  {
    BeforeFirst(t, 0);
    MonthsAscend(FullYear(t) + 1, 0, k);
  }

  /** An instant's quarter is given by its month: April, July, October or January and the two after. */
  lemma QuarterByMonth(t: Time, q: Quarter)
    ensures InWindow(Some(FyQuarterRange(q, t)), t) <==>
              match q
              case Q1 => Month(t) in {3, 4, 5}
              case Q2 => Month(t) in {6, 7, 8}
              case Q3 => Month(t) in {9, 10, 11}
              case Q4 => Month(t) in {0, 1, 2}
  {
    var y := YearOf(q, FiscalYear(t));
    QuarterRuns(q, FiscalYear(t));
    if y == FullYear(t) {
      InMonthsOfYear(t, FirstMonth(q));
    } else if y < FullYear(t) {
      AfterEarlierYear(t, FirstMonth(q));
    } else {
      BeforeLaterYear(t, FirstMonth(q));
    }
  }

  // ---- kitty -----------------------------------------------------------------

  /** An account is existing base once a fiscal year has started after its onboarding, or just as it began. */
  lemma BaseIff(onboarding: Time, now: Time)
    ensures DeriveKitty(onboarding, now) == BaseKitty <==>
              FiscalYear(onboarding) < FiscalYear(now) || onboarding == DateUTC(FiscalYear(now), 3, 1)
  {
    CutoffOfYear(now);
    InOwnYear(onboarding);
    NotLater(onboarding, FiscalYear(onboarding), FiscalYear(now));
    assert DeriveKitty(onboarding, now) == BaseKitty <==> onboarding <= CurrentFiscalCutoff(now);
  }

  lemma NotLater(t: Time, own: int, fy: int)
    requires FallsIn(t, own)
    ensures t <= DateUTC(fy, 3, 1) <==> own < fy || t == DateUTC(fy, 3, 1)
  {
    if own < fy {
      AprilsAscend(own + 1, fy);
    } else {
      AprilsAscend(fy, own);
    }
  }

  lemma AprilsAscend(y: int, z: int)
    requires y <= z
    ensures DateUTC(y, 3, 1) <= DateUTC(z, 3, 1)
  {
    AprilsInOrder(y, z);
  }
}
