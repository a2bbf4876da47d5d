/** How the two dashboards and the server agree: the same weekday tables, the same
    eligibility rule, the same occurrence of a template in the admin table and in
    the member's calendar, and flags that predict the booking route's answer. */
module Agreement {
  import opened Calendar
  import opened Schema
  import opened Sequences
  import opened SessionRoutes
  import opened Ledger
  import AdminDashboard
  import UserDashboard

  /** `daysMap` of the member's dashboard is the admin dashboard's `days` array. */
  lemma DaysMapIsAdminDays()
    ensures forall i :: 0 <= i < 7 ==> UserDashboard.DaysMap(i) == AdminDashboard.Days[i]
  {
  }

  /** The server's `daysOrder` (Monday = 1 ... Sunday = 7) and the clients'
      Sunday = 0 table number every day alike, modulo 7. */
  lemma DaysOrderMatchesDays(d: Day)
    ensures AdminDashboard.Days[DaysOrder(d) % 7] == DayName(d)
  {
  }

  /** `isSessionSuitable` for a signed-in member is the server's eligibility
      rule; for a visitor, only mixed sessions are suitable. */
  lemma SuitableIsEligible(s: Session, g: Gender)
    ensures UserDashboard.IsSessionSuitable(s, Some(g)) <==> Eligible(s.sessionType, g)
    ensures UserDashboard.IsSessionSuitable(s, None) <==> s.sessionType == Mixed
  {
  }

  /** Reading the `/counts` map with a default of 0 yields the active count. */
  lemma GetCapacityIsActiveCount(counts: map<Slot, nat>, rs: seq<Reservation>, sid: SessionId, date: Date)
    requires Tallies(counts, rs)
    ensures UserDashboard.GetCapacity(counts, sid, date) == ActiveCount(rs, Slot(sid, date))
  {
  }

  /** The admin row shows the active count of the template's next occurrence, and
      shows it as full exactly when the booking route would answer "full". */
  lemma AdminRowIsNextOccurrence(counts: map<Slot, nat>, rs: seq<Reservation>, s: Session, today: Date)
    requires Tallies(counts, rs)
    ensures AdminDashboard.NextOccurrenceDate(DayName(s.dayOfWeek), today).Some?
    ensures var next := AdminDashboard.NextOccurrenceDate(DayName(s.dayOfWeek), today).value;
      && AdminDashboard.CapacityCount(s, counts, today) == ActiveCount(rs, Slot(s.id, next))
      && (AdminDashboard.ShownFull(AdminDashboard.CapacityCount(s, counts, today), s.capacity) <==>
          ActiveCount(rs, Slot(s.id, next)) >= s.capacity)
  {
    AdminDashboard.EveryDayHasNextOccurrence(s.dayOfWeek, today);
  }

  /** `hasReservation` over the `/my` list finds exactly the reservations the
      unique index knows of; when every reservation is active (the routes only
      ever store active ones), exactly those the duplicate check finds. */
  lemma BookedFlagIsDuplicateCheck(rs: seq<Reservation>, user: UserId, sid: SessionId, date: Date)
    ensures UserDashboard.HasReservation(Mine(rs, user), sid, date) <==> IndexTaken(rs, user, Slot(sid, date))
    ensures AllActive(rs) ==>
      (UserDashboard.HasReservation(Mine(rs, user), sid, date) <==> HasActive(rs, user, Slot(sid, date)))
  {
    var mine := Mine(rs, user);
    if UserDashboard.HasReservation(mine, sid, date) {
      var i :| 0 <= i < |mine| && mine[i].session == sid && mine[i].sessionDate == date;
      assert mine[i] in mine;
      var j :| 0 <= j < |rs| && rs[j] == mine[i];
    }
    if IndexTaken(rs, user, Slot(sid, date)) {
      var j :| 0 <= j < |rs| && rs[j].user == user && SlotOf(rs[j]) == Slot(sid, date);
      assert rs[j] in rs;
      var i :| 0 <= i < |mine| && mine[i] == rs[j];
    }
  }

  /** Over the store's own `/counts` and `/my` answers, the book button is
      disabled exactly when the booking route would refuse with "full" or
      "already booked". */
  lemma ButtonPredictsBooking(counts: map<Slot, nat>, rs: seq<Reservation>, user: UserId, s: Session, date: Date)
    requires Tallies(counts, rs)
    requires AllActive(rs)
    ensures UserDashboard.BookDisabled(
              UserDashboard.HasReservation(Mine(rs, user), s.id, date),
              UserDashboard.GetCapacity(counts, s.id, date),
              s.capacity)
        <==> ActiveCount(rs, Slot(s.id, date)) >= s.capacity || HasActive(rs, user, Slot(s.id, date))
  {
    BookedFlagIsDuplicateCheck(rs, user, s.id, date);
  }

  /** Within the member's seven-day window, a weekday name falls on exactly one
      day: the admin dashboard's next occurrence of it. */
  lemma WindowDayIsNextOccurrence(today: Date, d: Day)
    ensures forall date :: today <= date < today + 7 ==>
      (UserDashboard.DaysMap(Weekday(date)) == DayName(d) <==>
       AdminDashboard.NextOccurrenceDate(DayName(d), today) == Some(date))
  {
    AdminDashboard.EveryDayHasNextOccurrence(d, today);
    AdminDashboard.DaysDistinct();
    DaysMapIsAdminDays();
    var next := AdminDashboard.NextOccurrenceDate(DayName(d), today).value;
    forall date | today <= date < today + 7
      ensures UserDashboard.DaysMap(Weekday(date)) == DayName(d) <==> date == next
    {
      assert UserDashboard.DaysMap(Weekday(date)) == AdminDashboard.Days[Weekday(date)];
      if date < next {
        WeekdaysWithinAWeekDiffer(date, next);
      } else if date > next {
        WeekdaysWithinAWeekDiffer(next, date);
      }
    }
  }

  /** A template the member may book is listed in the calendar on exactly one day
      of the window, the date the admin table shows its occupancy for. */
  lemma CalendarListsNextOccurrence(sessions: seq<Session>, s: Session, today: Date, gender: Option<Gender>, date: Date)
    requires s in sessions && UserDashboard.IsSessionSuitable(s, gender)
    requires today <= date < today + 7
    ensures s in UserDashboard.TodaysSessions(sessions, date, gender) <==>
      AdminDashboard.NextOccurrenceDate(DayName(s.dayOfWeek), today) == Some(date)
  {
    WindowDayIsNextOccurrence(today, s.dayOfWeek);
  }
}
