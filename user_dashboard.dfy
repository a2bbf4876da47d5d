/** The member's dashboard (components/UserDashboard.tsx): a seven-day calendar
    starting today that lists, per day, the templates held on that weekday which
    the member may book, each with its occupancy and a book button that is
    disabled when the member already holds that occurrence or it is full. */
module UserDashboard {
  import opened Calendar
  import opened Schema
  import opened Sequences
  import opened SessionRoutes
  import opened Ledger

  /** `daysMap`: `getDay()` index to weekday name, Sunday = 0. Every name it
      gives is one a template can be stored with. */
  function DaysMap(i: int): (name: string)
    requires 0 <= i < 7
    ensures ParseDay(name).Some?
  {
    if i == 0 then "Sunday"
    else if i == 1 then "Monday"
    else if i == 2 then "Tuesday"
    else if i == 3 then "Wednesday"
    else if i == 4 then "Thursday"
    else if i == 5 then "Friday"
    else "Saturday"
  }

  /** The `useEffect` loop that builds `upcomingDays`: today and the six days after. */
  method UpcomingDays(today: Date) returns (days: seq<Date>)
    ensures |days| == 7
    ensures forall i :: 0 <= i < |days| ==> days[i] == today + i
  {
    days := [];
    var i := 0;
    while i < 7
      invariant 0 <= i <= 7
      invariant |days| == i
      invariant forall j :: 0 <= j < i ==> days[j] == today + j
    {
      days := days + [today + i];
      i := i + 1;
    }
  }

  /** `isSessionSuitable`: mixed sessions suit everyone; a single-gender session
      only a signed-in user of that gender (`user?.gender` is undefined otherwise). */
  predicate IsSessionSuitable(s: Session, gender: Option<Gender>): (ok: bool)
    ensures ok <==>
      || s.sessionType == Mixed
      || (gender == Some(Male) && s.sessionType == MaleOnly)
      || (gender == Some(Female) && s.sessionType == FemaleOnly)
  {
    !(TypeName(s.sessionType) != "mixed" &&
      (gender.None? || TypeName(s.sessionType) != GenderName(gender.value)))
  }

  /** `hasReservation`: `myReservations.some(...)` on session id and date. */
  function HasReservation(mine: seq<Reservation>, sid: SessionId, date: Date): (b: bool)
    ensures b <==> exists i :: 0 <= i < |mine| && mine[i].session == sid && mine[i].sessionDate == date
  {
    if mine == [] then false
    else
      assert forall i :: 0 < i < |mine| ==> mine[i] == mine[1..][i - 1];
      (mine[0].session == sid && mine[0].sessionDate == date) || HasReservation(mine[1..], sid, date)
  }

  /** `getCapacity`: the count under `${sessionId}_${dateStr}`, or 0. */
  function GetCapacity(counts: map<Slot, nat>, sid: SessionId, date: Date): nat
  {
    if Slot(sid, date) in counts then counts[Slot(sid, date)] else 0
  }

  /** The test of the `todaysSessions` filter. */
  function DayFilter(date: Date, gender: Option<Gender>): Session -> bool
  {
    (s: Session) => DayName(s.dayOfWeek) == DaysMap(Weekday(date)) && IsSessionSuitable(s, gender)
  }

  /** The `todaysSessions` filter: the suitable templates held on the weekday of `date`. */
  function TodaysSessions(sessions: seq<Session>, date: Date, gender: Option<Gender>): (r: seq<Session>)
    ensures forall s :: s in r <==>
      s in sessions && DayName(s.dayOfWeek) == DaysMap(Weekday(date)) && IsSessionSuitable(s, gender)
  {
    Filter(sessions, DayFilter(date, gender))
  }

  /** Over the server's template list, a day lists its templates in the list's
      order, which within one weekday is by start time. */
  lemma DayListByStartTime(templates: seq<Session>, date: Date, gender: Option<Gender>)
    ensures var r := TodaysSessions(WeeklyProgram(templates), date, gender);
      && SortedBy(r, SessionLeq)
      && forall i, j :: 0 <= i < j < |r| ==> StrCompare(r[i].startTime, r[j].startTime) <= 0
  {
    var program := WeeklyProgram(templates);
    var r := TodaysSessions(program, date, gender);
    FilterKeepsSorted(program, DayFilter(date, gender), SessionLeq);
    forall i, j | 0 <= i < j < |r| ensures StrCompare(r[i].startTime, r[j].startTime) <= 0 {
      assert r[i] in r && r[j] in r;
      var name := DaysMap(Weekday(date));
      assert ParseDay(name) == Some(r[i].dayOfWeek) && ParseDay(name) == Some(r[j].dayOfWeek);
      SessionLeqMeaning(r[i], r[j]);
    }
  }

  /** One rendered day of the calendar. */
  datatype DayPlan = DayPlan(date: Date, sessions: seq<Session>)

  /** The calendar: the days of `days` that have at least one session, in order. */
  function Schedule(days: seq<Date>, sessions: seq<Session>, gender: Option<Gender>): (plans: seq<DayPlan>)
    ensures |plans| <= |days|
    ensures forall p :: p in plans ==>
      p.date in days && p.sessions != [] && p.sessions == TodaysSessions(sessions, p.date, gender)
    ensures forall d :: d in days && TodaysSessions(sessions, d, gender) != [] ==>
      exists p :: p in plans && p.date == d
  {
    if days == [] then []
    else
      var rest := Schedule(days[1..], sessions, gender);
      assert forall d :: d in days[1..] ==> d in days;
      assert forall d :: d in days ==> d == days[0] || d in days[1..];
      var today := TodaysSessions(sessions, days[0], gender);
      if today == [] then rest else [DayPlan(days[0], today)] + rest
  }

  predicate AscendingDates(plans: seq<DayPlan>)
  {
    forall i, j :: 0 <= i < j < |plans| ==> plans[i].date < plans[j].date
  }

  predicate Ascending(days: seq<Date>)
  {
    forall i, j :: 0 <= i < j < |days| ==> days[i] < days[j]
  }

  /** The calendar keeps the days' order: over ascending days it is ascending. */
  lemma {:induction false} ScheduleAscending(days: seq<Date>, sessions: seq<Session>, gender: Option<Gender>)
    requires Ascending(days)
    ensures AscendingDates(Schedule(days, sessions, gender))
  {
    if days != [] {
      var tail := days[1..];
      assert Ascending(tail) by {
        forall i, j | 0 <= i < j < |tail| ensures tail[i] < tail[j] {
          assert tail[i] == days[i + 1] && tail[j] == days[j + 1];
        }
      }
      ScheduleAscending(tail, sessions, gender);
      var rest := Schedule(tail, sessions, gender);
      FirstDayComesFirst(days, rest);
      var today := TodaysSessions(sessions, days[0], gender);
      if today != [] {
        PrependAscending(DayPlan(days[0], today), rest);
      }
    }
  }

  /** Every day after the first of an ascending sequence is later than the first. */
  lemma FirstDayComesFirst(days: seq<Date>, rest: seq<DayPlan>)
    requires Ascending(days) && days != []
    requires forall p :: p in rest ==> p.date in days[1..]
    ensures forall p :: p in rest ==> days[0] < p.date
  {
    forall p | p in rest ensures days[0] < p.date {
      var k :| 0 <= k < |days[1..]| && days[1..][k] == p.date;
      assert days[k + 1] == p.date;
    }
  }

  lemma PrependAscending(first: DayPlan, rest: seq<DayPlan>)
    requires AscendingDates(rest)
    requires forall p :: p in rest ==> first.date < p.date
    ensures AscendingDates([first] + rest)
  {
    var plans := [first] + rest;
    forall i, j | 0 <= i < j < |plans| ensures plans[i].date < plans[j].date {
      assert plans[j] == rest[j - 1] && rest[j - 1] in rest;
      if i > 0 {
        assert plans[i] == rest[i - 1];
      }
    }
  }

  /** The book button's `disabled` flag. */
  predicate BookDisabled(booked: bool, count: int, capacity: int)
  {
    booked || count >= capacity
  }
}
