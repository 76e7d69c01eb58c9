/** The two date helpers of the commercial-changes service, on UTC milliseconds. */
module Dates {
  import opened Schema

  const DAY: int := 86_400_000

  /** Midnight UTC of the day containing `t`; dates before 1970 round down as well. */
  function StartOfDay(t: Time): (day: Time)
    ensures day <= t < day + DAY
    ensures day % DAY == 0
  {
    t - t % DAY
  }

  function AddDays(t: Time, days: int): Time {
    t + days * DAY
  }

  lemma StartOfDayAddDays(t: Time, days: int)
    ensures StartOfDay(AddDays(t, days)) == StartOfDay(t) + days * DAY
  {
    var d := StartOfDay(t);
    var q := d / DAY;
    assert d == q * DAY;
    assert AddDays(t, days) == (q + days) * DAY + t % DAY;
  }

  /** Midnight UTC of the day of `t`, some days on. */
  function DayAfter(t: Time, days: int): Time {
    t - t % 86_400_000 + days * 86_400_000
  }

  /** Adding days and truncating, in either order. */
  lemma MidnightThenDays(t: Time, days: int)
    ensures AddDays(StartOfDay(t), days) == DayAfter(t, days)
    ensures StartOfDay(AddDays(t, days)) == DayAfter(t, days)
  {
    StartOfDayAddDays(t, days);
  }

  lemma StartOfDayMonotone(s: Time, t: Time)
    requires s <= t
    ensures StartOfDay(s) <= StartOfDay(t)
  {
    var p, q := StartOfDay(s) / DAY, StartOfDay(t) / DAY;
    assert StartOfDay(s) == p * DAY && StartOfDay(t) == q * DAY;
  }
}
