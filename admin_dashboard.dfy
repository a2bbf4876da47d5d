/** The admin dashboard's weekly table (components/AdminDashboard.tsx): for each
    template, the date of its next occurrence, that occurrence's occupancy from
    the `/counts` map, and whether the row is shown as full. */
module AdminDashboard {
  import opened Calendar
  import opened Schema
  import opened Ledger

  /** `days`: the weekday names in `getDay()` order, Sunday first. */
  const Days: seq<string> := ["Sunday", "Monday", "Tuesday", "Wednesday", "Thursday", "Friday", "Saturday"]

  /** `Array.prototype.indexOf`: the first position of `s`, or -1. */
  function IndexOf(names: seq<string>, s: string): (i: int)
    ensures -1 <= i < |names|
    ensures i == -1 <==> s !in names
    ensures i >= 0 ==> names[i] == s && forall j :: 0 <= j < i ==> names[j] != s
  {
    if names == [] then -1
    else if names[0] == s then 0
    else
      var j := IndexOf(names[1..], s);
      if j == -1 then -1 else j + 1
  }

  /** `diff`: how many days ahead the target weekday comes, today included. */
  function DayOffset(target: int, current: int): (diff: int)
    requires 0 <= target < 7 && 0 <= current < 7
    ensures 0 <= diff < 7
    ensures diff == (target - current) % 7
  {
    var diff := target - current;
    if diff < 0 then diff + 7 else diff
  }

  /** `getNextOccurrenceDate(dayName)` on the day `today`: no date (the empty
      string) for an unknown name; otherwise the first date from today on whose
      weekday has that name. */
  function NextOccurrenceDate(dayName: string, today: Date): (r: Option<Date>)
    ensures r.None? <==> dayName !in Days
    ensures r.Some? ==> today <= r.value < today + 7 && Days[Weekday(r.value)] == dayName
    ensures r.Some? ==> forall d :: today <= d < r.value ==> Days[Weekday(d)] != dayName
  {
    var target := IndexOf(Days, dayName);
    if target == -1 then None
    else
      var next := today + DayOffset(target, Weekday(today));
      OffsetReachesTarget(target, today);
      DaysDistinct();
      Some(next)
  }

  /** Going `DayOffset` days ahead lands on the target weekday, and no day before
      that (from today on) has it. */
  lemma OffsetReachesTarget(target: int, today: Date)
    requires 0 <= target < 7
    ensures Weekday(today + DayOffset(target, Weekday(today))) == target
    ensures forall d :: today <= d < today + DayOffset(target, Weekday(today)) ==> Weekday(d) != target
  {
    var off := DayOffset(target, Weekday(today));
    WeekdayShift(today, off);
    forall d | today <= d < today + off ensures Weekday(d) != target {
      WeekdayShift(today, d - today);
    }
  }

  /** The seven names of `days` are different. */
  lemma DaysDistinct()
    ensures forall i, j :: 0 <= i < j < |Days| ==> Days[i] != Days[j]
  {
  }

  /** When today is the target weekday, the next occurrence is today. */
  lemma SameDayIsToday(dayName: string, today: Date)
    requires dayName in Days && Days[Weekday(today)] == dayName
    ensures NextOccurrenceDate(dayName, today) == Some(today)
  {
  }

  /** Every stored template has a next occurrence (its day name is in `days`). */
  lemma EveryDayHasNextOccurrence(d: Day, today: Date)
    ensures NextOccurrenceDate(DayName(d), today).Some?
  {
    assert DayName(d) in Days by {
      match d
      case Sunday => assert Days[0] == "Sunday";
      case Monday => assert Days[1] == "Monday";
      case Tuesday => assert Days[2] == "Tuesday";
      case Wednesday => assert Days[3] == "Wednesday";
      case Thursday => assert Days[4] == "Thursday";
      case Friday => assert Days[5] == "Friday";
      case Saturday => assert Days[6] == "Saturday";
    }
  }

  /** `getCapacityCount(session)`: the count under `${id}_${nextDate}`, or 0 when
      there is no next date or no such key. */
  function CapacityCount(s: Session, counts: map<Slot, nat>, today: Date): nat
  {
    match NextOccurrenceDate(DayName(s.dayOfWeek), today)
    case None => 0
    case Some(next) => if Slot(s.id, next) in counts then counts[Slot(s.id, next)] else 0
  }

  /** The row's count is shown in red, as full, when it has reached the capacity. */
  predicate ShownFull(count: int, capacity: int)
  {
    count >= capacity
  }
}
