/**
  The Indian fiscal year, April to March, on UTC milliseconds: its quarters tile it exactly,
  and the dashboard's quarterly buckets add up to the year's.
 */
module FiscalCalendar {
  import opened Schema
  import opened Dates
  import opened Sums
  import opened Dashboard

  // ---- the Gregorian calendar ------------------------------------------------

  predicate IsLeap(y: int) {
    y % 4 == 0 && (y % 100 != 0 || y % 400 == 0)
  }

  /** Days from 1 January 1970 to 1 January of year `y`. */
  function DaysBeforeYear(y: int): int {
    365 * (y - 1970) + (y - 1) / 4 - (y - 1) / 100 + (y - 1) / 400 - 477
  }

  function DaysInYear(y: int): (n: int) {
    if IsLeap(y) then 366 else 365
  }

  lemma YearLength(y: int)
    ensures DaysBeforeYear(y + 1) == DaysBeforeYear(y) + DaysInYear(y)
  {
    Carry(y, 4);
    Carry(y, 100);
    Carry(y, 400);
    Multiples(y);
  }

  lemma Multiples(y: int)
    ensures y % 400 == 0 ==> y % 100 == 0
    ensures y % 100 == 0 ==> y % 4 == 0
  {
    if y % 400 == 0 {
      Hundred(4 * (y / 400));
    }
    if y % 100 == 0 {
      Four(25 * (y / 100));
    }
  }

  lemma Hundred(k: int)
    ensures (100 * k) % 100 == 0
  {
  }

  lemma Four(k: int)
    ensures (4 * k) % 4 == 0
  {
  }

  lemma Carry(y: int, d: int)
    requires d == 4 || d == 100 || d == 400
    ensures y / d == (y - 1) / d + if y % d == 0 then 1 else 0
  {
  }

  /** Days from 1 January to the first of month `m`, where January is 0. */
  function DaysBeforeMonth(m: nat, leap: bool): int
    requires m <= 12
  {
    var february := if leap then 29 else 28;
    match m
    case 0 => 0
    case 1 => 31
    case 2 => 31 + february
    case 3 => 62 + february
    case 4 => 92 + february
    case 5 => 123 + february
    case 6 => 153 + february
    case 7 => 184 + february
    case 8 => 215 + february
    case 9 => 245 + february
    case 10 => 276 + february
    case 11 => 306 + february
    case 12 => 337 + february
  }

  /** Midnight on day `d` of month `m` of year `y`. */
  function DateUTC(y: int, m: nat, d: nat): Time
    requires m < 12
  {
    (DaysBeforeYear(y) + DaysBeforeMonth(m, IsLeap(y)) + d - 1) * DAY
  }

  /** The last millisecond of that day. */
  function EndOfDayUTC(y: int, m: nat, d: nat): Time
    requires m < 12
  {
    DateUTC(y, m, d) + (23 * 3600 + 59 * 60 + 59) * 1000 + 999
  }

  /** How far year `y` is from the year of day `n`. */
  function Distance(n: int, y: int): nat {
    if n < DaysBeforeYear(y) then DaysBeforeYear(y) - n
    else if n >= DaysBeforeYear(y + 1) then n - DaysBeforeYear(y + 1) + 1
    else 0
  }

  lemma Closer(n: int, y: int)
    ensures n < DaysBeforeYear(y) ==> Distance(n, y - 1) < Distance(n, y)
    ensures n >= DaysBeforeYear(y + 1) ==> Distance(n, y + 1) < Distance(n, y)
  {
    if n < DaysBeforeYear(y) {
      YearLength(y - 1);
    } else if n >= DaysBeforeYear(y + 1) {
      YearLength(y + 1);
    }
  }

  function SeekYear(n: int, y: int): (year: int)
    ensures DaysBeforeYear(year) <= n < DaysBeforeYear(year + 1)
    decreases Distance(n, y)
  {
    Closer(n, y);
    if n < DaysBeforeYear(y) then SeekYear(n, y - 1)
    else if n >= DaysBeforeYear(y + 1) then SeekYear(n, y + 1)
    else y
  }

  function FullYear(t: Time): int {
    SeekYear(t / DAY, 1970)
  }

  function SeekMonth(dayOfYear: int, leap: bool, m: nat): (month: nat)
    requires m < 12 && DaysBeforeMonth(m, leap) <= dayOfYear < DaysBeforeMonth(12, leap)
    ensures month < 12 && DaysBeforeMonth(month, leap) <= dayOfYear < DaysBeforeMonth(month + 1, leap)
    decreases 12 - m
  {
    if dayOfYear < DaysBeforeMonth(m + 1, leap) then m else SeekMonth(dayOfYear, leap, m + 1)
  }

  /** January is 0. */
  function Month(t: Time): (m: nat)
    ensures m < 12
  {
    var y := FullYear(t);
    YearLength(y);
    SeekMonth(t / DAY - DaysBeforeYear(y), IsLeap(y), 0)
  }

  // ---- the service's date arithmetic -----------------------------------------

  datatype Quarter = Q1 | Q2 | Q3 | Q4

  /** The fiscal year containing `now`, named by the calendar year it starts in. */
  function FiscalYear(now: Time): int {
    if Month(now) < 3 then FullYear(now) - 1 else FullYear(now)
  }

  function QuarterOfYear(quarter: Quarter, fy: int): Window {
    match quarter
    case Q1 => Window(DateUTC(fy, 3, 1), EndOfDayUTC(fy, 5, 30))
    case Q2 => Window(DateUTC(fy, 6, 1), EndOfDayUTC(fy, 8, 30))
    case Q3 => Window(DateUTC(fy, 9, 1), EndOfDayUTC(fy, 11, 31))
    case Q4 => Window(DateUTC(fy + 1, 0, 1), EndOfDayUTC(fy + 1, 2, 31))
  }

  function FyQuarterRange(quarter: Quarter, now: Time): Window {
    QuarterOfYear(quarter, FiscalYear(now))
  }

  function StartOfFy(now: Time): Time {
    DateUTC(FiscalYear(now), 3, 1)
  }

  function CurrentFiscalCutoff(now: Time): Time {
    var april := DateUTC(FullYear(now), 3, 1);
    if now >= april then april else DateUTC(FullYear(now) - 1, 3, 1)
  }

  function DeriveKitty(onboarding: Time, now: Time): Kitty {
    if onboarding <= CurrentFiscalCutoff(now) then BaseKitty else NewKitty
  }

  // ---- the year and its quarters ---------------------------------------------

  lemma DayOf(t: Time)
    ensures DaysBeforeYear(FullYear(t)) * DAY <= t < DaysBeforeYear(FullYear(t) + 1) * DAY
    ensures Month(t) < 3 <==> t < DateUTC(FullYear(t), 3, 1)
  {
    var n := t / DAY;
    assert n * DAY <= t < (n + 1) * DAY;
    MonthsInOrder(IsLeap(FullYear(t)));
  }

  lemma MonthsInOrder(leap: bool)
    ensures forall j, k | 0 <= j <= k <= 12 :: DaysBeforeMonth(j, leap) <= DaysBeforeMonth(k, leap)
  {
  }

  function NextFyStart(now: Time): Time {
    DateUTC(FiscalYear(now) + 1, 3, 1)
  }

  /** `t` falls in the fiscal year that starts in calendar year `fy`. */
  predicate FallsIn(t: Time, fy: int) {
    DateUTC(fy, 3, 1) <= t < DateUTC(fy + 1, 3, 1)
  }

  predicate InFiscalYear(now: Time, t: Time) {
    FallsIn(t, FiscalYear(now))
  }

  lemma CutoffIsStart(now: Time)
    ensures CurrentFiscalCutoff(now) == StartOfFy(now)
  {
    DayOf(now);
  }

  /** A fiscal year starts within its calendar year. */
  lemma AprilWithin(y: int)
    ensures DaysBeforeYear(y) * DAY <= DateUTC(y, 3, 1) <= DaysBeforeYear(y + 1) * DAY
  {
    YearLength(y);
  }

  lemma NowInOwnYear(now: Time)
    ensures InFiscalYear(now, now)
  {
    DayOf(now);
    AprilWithin(FullYear(now) - 1);
    AprilWithin(FullYear(now) + 1);
  }

  /** All three computations of the fiscal year's start agree, and `now` lies in the year they start. */
  lemma CutoffsAgree(now: Time)
    ensures CurrentFiscalCutoff(now) == StartOfFy(now) == FyQuarterRange(Q1, now).start
    ensures InFiscalYear(now, now)
  {
    CutoffIsStart(now);
    NowInOwnYear(now);
  }

  /** Each quarter starts one millisecond after the one before ends, and the last ends with the year. */
  lemma QuartersAdjoin(now: Time)
    ensures FyQuarterRange(Q1, now).end + 1 == FyQuarterRange(Q2, now).start
    ensures FyQuarterRange(Q2, now).end + 1 == FyQuarterRange(Q3, now).start
    ensures FyQuarterRange(Q3, now).end + 1 == FyQuarterRange(Q4, now).start
    ensures FyQuarterRange(Q4, now).end + 1 == NextFyStart(now)
    ensures forall q :: FyQuarterRange(q, now).start < FyQuarterRange(q, now).end
  {
    YearLength(FiscalYear(now));
  }

  lemma {:induction false} AprilsInOrder(y: int, z: int)
    requires y <= z
    ensures DaysBeforeYear(y) + DaysBeforeMonth(3, IsLeap(y)) <= DaysBeforeYear(z) + DaysBeforeMonth(3, IsLeap(z))
    decreases z - y
  {
    if y < z {
      YearLength(y);
      AprilsInOrder(y + 1, z);
    }
  }

  lemma OneStart(y: int, z: int, t: Time)
    requires FallsIn(t, y) && FallsIn(t, z)
    ensures y == z
  {
    if y < z {
      AprilsInOrder(y + 1, z);
    } else if z < y {
      AprilsInOrder(z + 1, y);
    }
  }

  lemma InOwnYear(t: Time)
    ensures FallsIn(t, FiscalYear(t))
  {
    CutoffsAgree(t);
  }

  lemma OneFiscalYear(now: Time, t: Time)
    requires InFiscalYear(now, t)
    ensures FiscalYear(t) == FiscalYear(now)
  {
    InOwnYear(t);
    OneStart(FiscalYear(now), FiscalYear(t), t);
  }

  lemma CutoffOfYear(t: Time)
    ensures CurrentFiscalCutoff(t) == DateUTC(FiscalYear(t), 3, 1)
  {
    CutoffsAgree(t);
  }

  /** Every instant of a fiscal year computes the same four quarters and the same cutoff. */
  lemma OneYearOneCalendar(now: Time, t: Time, q: Quarter)
    requires InFiscalYear(now, t)
    ensures FyQuarterRange(q, t) == FyQuarterRange(q, now)
    ensures CurrentFiscalCutoff(t) == CurrentFiscalCutoff(now)
  {
    OneFiscalYear(now, t);
    CutoffOfYear(now);
    CutoffOfYear(t);
  }

  lemma StartsInOrder(y: int, z: int)
    requires DateUTC(y, 3, 1) < DateUTC(z + 1, 3, 1)
    ensures DateUTC(y, 3, 1) <= DateUTC(z, 3, 1)
  {
    if z < y {
      AprilsInOrder(z + 1, y);
    } else {
      AprilsInOrder(y, z);
    }
  }

  lemma CutoffNeverRetreats(now: Time, later: Time)
    requires now <= later
    ensures CurrentFiscalCutoff(now) <= CurrentFiscalCutoff(later)
  {
    CutoffOfYear(now);
    CutoffOfYear(later);
    InOwnYear(now);
    InOwnYear(later);
    StartsInOrder(FiscalYear(now), FiscalYear(later));
  }

  /** An account's kitty is fixed within a fiscal year and only ever moves from new to base. */
  lemma KittyOnlyAges(onboarding: Time, now: Time, later: Time)
    requires now <= later
    ensures DeriveKitty(onboarding, now) == BaseKitty ==> DeriveKitty(onboarding, later) == BaseKitty
    ensures later < NextFyStart(now) ==> DeriveKitty(onboarding, later) == DeriveKitty(onboarding, now)
  {
    CutoffNeverRetreats(now, later);
    if later < NextFyStart(now) {
      CutoffOfYear(now);
      InOwnYear(now);
      OneYearOneCalendar(now, later, Q1);
    }
  }

  function Hit(window: Window, t: Time): int {
    if InWindow(Some(window), t) then 1 else 0
  }

  function YearWindow(now: Time): Window {
    Window(StartOfFy(now), NextFyStart(now) - 1)
  }

  /** The quarters are disjoint and cover the fiscal year to the millisecond. */
  lemma QuartersTile(now: Time, t: Time)
    ensures Hit(FyQuarterRange(Q1, now), t) + Hit(FyQuarterRange(Q2, now), t)
          + Hit(FyQuarterRange(Q3, now), t) + Hit(FyQuarterRange(Q4, now), t)
         == if InFiscalYear(now, t) then 1 else 0
    ensures Hit(YearWindow(now), t) == if InFiscalYear(now, t) then 1 else 0
  {
    QuartersAdjoin(now);
  }

  // ---- quarterly buckets -----------------------------------------------------

  /** The total of `f` over the counted rows of one window. */
  function Total(db: Db, scope: Account -> bool, window: Window, f: Change -> int): int {
    Sum(Filter(db.changes, Counted(db.accounts, scope, Some(window))), f)
  }

  lemma {:induction false} SumOfFour<T>(s: seq<T>, f: T -> int, p: T -> int, q: T -> int, r: T -> int, u: T -> int)
    requires forall x | x in s :: f(x) == p(x) + q(x) + r(x) + u(x)
    ensures Sum(s, f) == Sum(s, p) + Sum(s, q) + Sum(s, r) + Sum(s, u)
  {
    if s != [] {
      SumOfFour(s[..|s| - 1], f, p, q, r, u);
    }
  }

  /** What `c` adds to the total of one window. */
  function Share(accounts: seq<Account>, scope: Account -> bool, window: Window, f: Change -> int, c: Change): int {
    Masked(Counted(accounts, scope, Some(window)), f)(c)
  }

  lemma ShareOfWindow(accounts: seq<Account>, scope: Account -> bool, window: Window, f: Change -> int, c: Change)
    ensures Share(accounts, scope, window, f, c)
         == if Counted(accounts, scope, None)(c) && Hit(window, c.effectiveDate) == 1 then f(c) else 0
  {
  }

  lemma RowInOneQuarter(accounts: seq<Account>, scope: Account -> bool, now: Time, f: Change -> int, c: Change)
    ensures Share(accounts, scope, YearWindow(now), f, c)
         == Share(accounts, scope, FyQuarterRange(Q1, now), f, c) + Share(accounts, scope, FyQuarterRange(Q2, now), f, c)
          + Share(accounts, scope, FyQuarterRange(Q3, now), f, c) + Share(accounts, scope, FyQuarterRange(Q4, now), f, c)
  {
    QuartersTile(now, c.effectiveDate);
    ShareOfWindow(accounts, scope, YearWindow(now), f, c);
    ShareOfWindow(accounts, scope, FyQuarterRange(Q1, now), f, c);
    ShareOfWindow(accounts, scope, FyQuarterRange(Q2, now), f, c);
    ShareOfWindow(accounts, scope, FyQuarterRange(Q3, now), f, c);
    ShareOfWindow(accounts, scope, FyQuarterRange(Q4, now), f, c);
  }

  /** Any total over the year is the sum of the totals over its quarters. */
  lemma QuartersAddUp(db: Db, scope: Account -> bool, now: Time, f: Change -> int)
    ensures Total(db, scope, YearWindow(now), f)
         == Total(db, scope, FyQuarterRange(Q1, now), f) + Total(db, scope, FyQuarterRange(Q2, now), f)
          + Total(db, scope, FyQuarterRange(Q3, now), f) + Total(db, scope, FyQuarterRange(Q4, now), f)
  {
    var year := Counted(db.accounts, scope, Some(YearWindow(now)));
    var q1 := Counted(db.accounts, scope, Some(FyQuarterRange(Q1, now)));
    var q2 := Counted(db.accounts, scope, Some(FyQuarterRange(Q2, now)));
    var q3 := Counted(db.accounts, scope, Some(FyQuarterRange(Q3, now)));
    var q4 := Counted(db.accounts, scope, Some(FyQuarterRange(Q4, now)));
    SumFilter(db.changes, year, f);
    SumFilter(db.changes, q1, f);
    SumFilter(db.changes, q2, f);
    SumFilter(db.changes, q3, f);
    SumFilter(db.changes, q4, f);
    forall c | c in db.changes
      ensures Masked(year, f)(c) == Masked(q1, f)(c) + Masked(q2, f)(c) + Masked(q3, f)(c) + Masked(q4, f)(c)
    {
      RowInOneQuarter(db.accounts, scope, now, f, c);
    }
    SumOfFour(db.changes, Masked(year, f), Masked(q1, f), Masked(q2, f), Masked(q3, f), Masked(q4, f));
  }

  /** The dashboard's waterfall for one window. */
  function At(db: Db, scope: Account -> bool, window: Window): Metrics {
    Waterfall(db, scope, Some(window))
  }

  /** The dashboard's buckets for the four quarters add up, field by field, to those for the year. */
  lemma DashboardQuartersAddUp(db: Db, scope: Account -> bool, now: Time)
    ensures var y, a, b, c, d := At(db, scope, YearWindow(now)),
                At(db, scope, FyQuarterRange(Q1, now)), At(db, scope, FyQuarterRange(Q2, now)),
                At(db, scope, FyQuarterRange(Q3, now)), At(db, scope, FyQuarterRange(Q4, now));
              && y.upgradesCount == a.upgradesCount + b.upgradesCount + c.upgradesCount + d.upgradesCount
              && y.upgradesArc == a.upgradesArc + b.upgradesArc + c.upgradesArc + d.upgradesArc
              && y.downgradesCount == a.downgradesCount + b.downgradesCount + c.downgradesCount + d.downgradesCount
              && y.downgradesArc == a.downgradesArc + b.downgradesArc + c.downgradesArc + d.downgradesArc
              && y.rateRevisionsCount == a.rateRevisionsCount + b.rateRevisionsCount + c.rateRevisionsCount + d.rateRevisionsCount
              && y.rateRevisionsArc == a.rateRevisionsArc + b.rateRevisionsArc + c.rateRevisionsArc + d.rateRevisionsArc
              && y.terminationsCount == a.terminationsCount + b.terminationsCount + c.terminationsCount + d.terminationsCount
              && y.terminationsArc == a.terminationsArc + b.terminationsArc + c.terminationsArc + d.terminationsArc
  {
    QuartersAddUp(db, scope, now, OfType(Upgrade));
    QuartersAddUp(db, scope, now, Gain(Upgrade));
    QuartersAddUp(db, scope, now, OfType(Downgrade));
    QuartersAddUp(db, scope, now, Gain(Downgrade));
    QuartersAddUp(db, scope, now, OfType(RateRevision));
    QuartersAddUp(db, scope, now, Gain(RateRevision));
    QuartersAddUp(db, scope, now, TerminationCount());
    QuartersAddUp(db, scope, now, TerminationLoss());
  }
}
