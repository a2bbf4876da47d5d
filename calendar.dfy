/** Calendar dates as the clients and the server see them.

    A date (`YYYY-MM-DD` on the wire, a JavaScript `Date` in the clients) is a day
    number: the number of days since 1970-01-01. `getDay()` numbers the weekdays
    Sunday = 0 ... Saturday = 6; 1970-01-01 was a Thursday (4). */
module Calendar {

  /** A calendar date: days since 1970-01-01. */
  type Date = int

  /** A timestamp in milliseconds, as `Date.now` yields it. */
  type Time = int

  /** `getDay()`: the weekday index of a date, Sunday = 0 ... Saturday = 6. */
  function Weekday(d: Date): (w: int)
    ensures 0 <= w < 7
  {
    (d + 4) % 7
  }

  /** Moving a date forward by `k` days, `k` in 0..6, moves its weekday forward by
      `k`, wrapping from Saturday to Sunday. */
  lemma WeekdayShift(d: Date, k: int)
    requires 0 <= k < 7
    ensures Weekday(d + k) == if Weekday(d) + k < 7 then Weekday(d) + k else Weekday(d) + k - 7
  {
    var q := (d + 4) / 7;
    assert d + 4 == 7 * q + Weekday(d);
    assert d + k + 4 == 7 * q + (Weekday(d) + k);
    if Weekday(d) + k >= 7 {
      assert d + k + 4 == 7 * (q + 1) + (Weekday(d) + k - 7);
    }
  }

  /** Two days less than a week apart fall on different weekdays. */
  lemma WeekdaysWithinAWeekDiffer(a: Date, b: Date)
    requires a < b < a + 7
    ensures Weekday(a) != Weekday(b)
  {
    WeekdayShift(a, b - a);
  }
}
