# GymControl booking core in Dafny

GymControl is a gym's class-booking system. Administrators keep a catalogue
of weekly class templates. Each template has a title, an optional
instructor, a weekday, a start time, a duration, a type and a capacity. The
type is male-only, female-only or mixed.

A template recurs every week. Members book one dated occurrence of a
template. A reservation holds one seat of that occurrence while it is
active. The server refuses a booking in these cases:

- the occurrence is full;
- the template is single-gender and the member is of the other gender;
- the member already holds that occurrence.

A member may cancel only their own reservation. Administrators can list
the roster of a template. Anyone can read the occupancy map, which counts
active reservations per occurrence.

This project models the following parts:

- **Server:**
  - the two collections, as a `Database` class;
  - the template routes: create, delete, and the list sorted by weekday
    and start time;
  - the reservation routes: book, cancel, roster, occupancy counts and the
    caller's own list.
- **Admin dashboard:** the computations that find a template's next
  occurrence and its occupancy.
- **Member dashboard:** the computations that build the seven-day calendar
  and decide whether the book button is enabled.

It proves the following:

- The store invariants hold after every operation: no occurrence exceeds
  its capacity, the (user, session, date) index is unique, and ids are
  distinct.
- Booking runs its checks in the route's order and answers with the first
  failure.
- All three sorted lists (the template list, the roster and the caller's
  own list) are ordered permutations of what they select. Each day of the
  member's calendar keeps the template list's order, so it lists its
  templates by start time.
- The next-occurrence date is the first date from today that falls on the
  template's weekday.
- The two dashboards and the server agree with each other:
  - they use the same weekday tables;
  - the calendar uses the same eligibility rule as the server;
  - the admin row shows the same occurrence as the member's calendar;
  - the member's button is disabled exactly when the booking route would
    answer "full" or "already booked".

## Modelling choices

- **Dates** are day numbers counted from 1970-01-01 (`Calendar.Date`).
  `Weekday` is `getDay()`, with Sunday = 0. An occurrence key
  `${sessionId}_${YYYY-MM-DD}` becomes `Ledger.Slot(session, date)`.
- **Document ids** (ObjectId) are natural numbers taken from counters in
  the `Database`. The clock (`Date.now`) is a parameter `now`.
- **String comparison:** `localeCompare` on start times is modelled as
  lexicographic comparison of the character codes (`StrCompare`).
- **Sorting:** the sorts use one insertion sort (`Sequences.SortBy`). It is
  proved to be a sorted permutation for any total preorder.
- **Behaviour of the code that the model keeps as it is:**
  - the capacity check (server/routes/reservations.js:27) runs before the
    eligibility check (server/routes/reservations.js:33);
  - the booking date is never checked to fall on the template's weekday;
  - cancelling deletes the reservation with `findByIdAndDelete`
    (server/routes/reservations.js:99); no reservation is ever set to
    `cancelled`;
  - the template schema sets no minimum capacity
    (server/models/Session.js:30-33);
  - deleting a template removes only the template
    (server/routes/sessions.js:76), and its reservations stay;
  - the roster (server/routes/reservations.js:117) never looks the
    template up;
  - the unique index (server/models/Reservation.js:30) covers
    reservations of every status. A save that clashes with it fails with a
    server error (500). `Database.Book` models that branch, although the
    routes only ever store active reservations.

## Model

| member | source | states |
|---|---|---|
| Calendar.Weekday | client/components/AdminDashboard.tsx:58-59 | a date's `getDay()` index is one of the seven weekdays 0..6 |
| Calendar.WeekdayShift | client/components/AdminDashboard.tsx:64-65 | moving k < 7 days ahead advances the weekday by k, wrapping past Saturday |
| Calendar.WeekdaysWithinAWeekDiffer | client/components/UserDashboard.tsx:66-70 | two different days of one seven-day window have different weekdays |
| Schema.ParseDay | server/models/Session.js:12-16 | a stored day string is accepted exactly when it is one of the seven enum names, and denotes that day |
| Schema.ParseType | server/models/Session.js:25-29 | a type string is accepted exactly when it is `male`, `female` or `mixed`, and denotes that type |
| Schema.NewSession | server/models/Session.js:3-37 | a template is created exactly when title, day, start time, type and capacity are present and valid; it copies them, and the duration defaults to 60 |
| Schema.NewReservation | server/models/Reservation.js:22-26 | a new reservation starts with status `active` and records its user, session, date and creation time |
| Sequences.FilterKeepsSorted | client/components/UserDashboard.tsx:178 | `filter` keeps the order of the list it filters: a sorted list stays sorted |
| Sequences.SortBySorted | server/routes/sessions.js:18-22 | sorting with a total preorder gives an ordered sequence (`SortBy` itself keeps the multiset) |
| SessionRoutes.DaysOrder | server/routes/sessions.js:7-9 | `daysOrder` numbers every day in 1..7, Monday first |
| SessionRoutes.DaysOrderInjective | server/routes/sessions.js:7-9 | no two days share a number, so the seven days get all of 1..7 |
| SessionRoutes.StrCompare | server/routes/sessions.js:21 | the comparison of start times answers -1, 0 or 1, and 0 exactly for equal strings |
| SessionRoutes.StrCompareAntisymmetric | server/routes/sessions.js:21 | swapping the operands negates the answer |
| SessionRoutes.StrCompareTransitive | server/routes/sessions.js:21 | a ≤ b and b ≤ c give a ≤ c |
| SessionRoutes.CompareSessions | server/routes/sessions.js:18-22 | the comparator answers 0 exactly for two templates on the same day with the same start time |
| SessionRoutes.SessionLeqMeaning | server/routes/sessions.js:18-22 | one template precedes another exactly when its day comes earlier, or the day is the same and its start time is not later |
| SessionRoutes.SessionOrderIsTotalPreorder | server/routes/sessions.js:18-22 | the comparator is a total preorder, so sorting by it is well defined |
| SessionRoutes.WeeklyProgram | server/routes/sessions.js:16-24 | the listed templates are a permutation of the stored ones, ordered by day then start time |
| Ledger.Eligible | server/routes/reservations.js:33 | the eligibility test on the type and gender names; its meaning is stated by `Ledger.EligibleIff` |
| Ledger.EligibleIff | server/routes/reservations.js:33 | a mixed session admits everyone, and a single-gender session admits only that gender |
| Ledger.ActiveCount | server/routes/reservations.js:21-25 | the count of active reservations of an occurrence is positive exactly when one exists |
| Ledger.ActiveCountConcat | server/routes/reservations.js:21-25 | counting over a concatenation adds the two counts |
| Ledger.ActiveCountAppend | server/routes/reservations.js:50-56 | saving an active reservation raises its own occurrence's count by one and leaves the others unchanged |
| Ledger.ActiveCountRemove | server/routes/reservations.js:99 | deleting an active reservation lowers its occurrence's count by one and leaves the others unchanged |
| Ledger.RemoveAt | server/routes/reservations.js:99 | the store after a delete has one reservation fewer and holds nothing new |
| Ledger.HasActive | server/routes/reservations.js:38-47 | the duplicate lookup: some active reservation of the caller holds the occurrence; `Server.Database.Book` answers "already booked" exactly then |
| Ledger.IndexTaken | server/models/Reservation.js:30 | some reservation of any status already has the index key (user, session, date); `Server.Database.Book` answers 500 on such a save |
| Ledger.UniqueIndex | server/models/Reservation.js:30 | no two reservations share the key (user, session, date); part of `Server.Database.Valid`, kept by every route |
| Ledger.AdmittedBookingKeepsCapacity | server/routes/reservations.js:21-29 | a booking that passed the capacity check keeps every occurrence within its capacity |
| Ledger.RemovalKeepsCapacity | server/routes/reservations.js:99 | deleting a reservation keeps every occurrence within its capacity |
| Ledger.AppendKeepsKeys | server/models/Reservation.js:30 | saving a reservation under a fresh id and a free index key keeps the unique index and the distinct ids, and an active one keeps all-active |
| Ledger.RemovalKeepsKeys | server/models/Reservation.js:30 | deleting a reservation keeps the unique index, the distinct ids and the all-active property |
| Ledger.FewerSessionsKeepCapacity | server/routes/sessions.js:76 | removing a template keeps the remaining templates' occurrences within capacity |
| Ledger.FindReservation | server/routes/reservations.js:88-91 | the lookup finds a reservation with the requested id, or reports that none exists |
| Ledger.CountActive | server/routes/reservations.js:140-153 | the occupancy map has a key exactly for each occurrence with an active reservation, holding its active count |
| Ledger.RosterOrderIsTotalPreorder | server/routes/reservations.js:125 | date ascending, then booking time ascending, is a total preorder |
| Ledger.MineOrderIsTotalPreorder | server/routes/reservations.js:75 | date ascending, then booking time descending, is a total preorder |
| Ledger.Roster | server/routes/reservations.js:116-125 | the roster holds exactly the template's reservations (of the date, when one is given), ordered by date and then booking time |
| Ledger.Mine | server/routes/reservations.js:73-75 | the caller's list holds exactly their reservations, by date and then newest booking first |
| Server.HttpStatus | server/routes/reservations.js:17-94 | the status each refusal is sent with: 404 for unknown session or reservation, 400 for full, not eligible and already booked, 401 for a foreign cancel, 403 for a non-admin, 500 for a failed save |
| Server.Database.CreateSession | server/routes/sessions.js:34-55 | non-admins get 403 and nothing changes; an invalid template fails with 500; otherwise the template is stored under a fresh id |
| Server.Database.DeleteSession | server/routes/sessions.js:65-77 | non-admins get 403; an unknown id gives 404; otherwise the template is removed and the reservations stay unchanged |
| Server.Database.ListSessions | server/routes/sessions.js:14-24 | every stored template is listed exactly once, in weekly-program order |
| Server.Database.Book | server/routes/reservations.js:11-60 | checks unknown session, full, not eligible, already booked and index clash in that order; only a booking that passes all of them is appended; the store stays within capacity |
| Server.Database.Cancel | server/routes/reservations.js:86-100 | an unknown id gives 404 and a foreign reservation gives 401, both with no change; the owner's reservation is deleted, which frees one seat |
| Server.Database.Counts | server/routes/reservations.js:136-154 | answers the occupancy map of the stored reservations |
| Server.Database.SessionRoster | server/routes/reservations.js:111-126 | non-admins get 403; admins get the roster |
| Server.Database.MyReservations | server/routes/reservations.js:71-76 | answers the caller's own reservations, sorted |
| AdminDashboard.Days | client/components/AdminDashboard.tsx:53 | the weekday names in `getDay()` order; `AdminDashboard.DaysDistinct` and `Agreement.DaysMapIsAdminDays` state its properties |
| AdminDashboard.IndexOf | client/components/AdminDashboard.tsx:54 | `indexOf` gives the first position of the name, or -1 exactly when the name is absent |
| AdminDashboard.DayOffset | client/components/AdminDashboard.tsx:60-61 | `diff` is the number of days, 0..6, from today's weekday to the target weekday |
| AdminDashboard.NextOccurrenceDate | client/components/AdminDashboard.tsx:52-67 | no date for an unknown day name; otherwise the first date from today, within a week, that falls on the named weekday |
| AdminDashboard.OffsetReachesTarget | client/components/AdminDashboard.tsx:60-65 | adding `diff` days lands on the target weekday, and no earlier day from today does |
| AdminDashboard.DaysDistinct | client/components/AdminDashboard.tsx:53 | the seven names of `days` are distinct |
| AdminDashboard.SameDayIsToday | client/components/AdminDashboard.tsx:60-62 | when today falls on the named day, the next occurrence is today |
| AdminDashboard.EveryDayHasNextOccurrence | client/components/AdminDashboard.tsx:53-55 | every stored template's day name has a next occurrence |
| AdminDashboard.CapacityCount | client/components/AdminDashboard.tsx:69-73 | the row's count, read from the occupancy map at the next occurrence; `Agreement.AdminRowIsNextOccurrence` proves it is that occurrence's active count |
| AdminDashboard.ShownFull | client/components/AdminDashboard.tsx:327 | the row is shown in red when its count has reached the capacity; `Agreement.AdminRowIsNextOccurrence` proves this is exactly when booking answers "full" |
| UserDashboard.DaysMap | client/components/UserDashboard.tsx:8-16 | every name `daysMap` gives is a day name a template can be stored with |
| UserDashboard.IsSessionSuitable | client/components/UserDashboard.tsx:100-103 | a template suits the member exactly when it is mixed or of the member's gender; it never suits a visitor unless mixed |
| UserDashboard.GetCapacity | client/components/UserDashboard.tsx:112-114 | the count under the occurrence's key, or 0; `Agreement.GetCapacityIsActiveCount` proves it is the active count |
| UserDashboard.BookDisabled | client/components/UserDashboard.tsx:211 | the button is disabled when booked or full; `Agreement.ButtonPredictsBooking` proves when that happens |
| UserDashboard.UpcomingDays | client/components/UserDashboard.tsx:63-72 | the window is seven consecutive days starting today |
| UserDashboard.HasReservation | client/components/UserDashboard.tsx:105-110 | true exactly when the list holds a reservation of that session on that date |
| UserDashboard.TodaysSessions | client/components/UserDashboard.tsx:178 | a day lists exactly the suitable templates held on its weekday |
| UserDashboard.DayListByStartTime | client/components/UserDashboard.tsx:178 | over the server's template list, a day's templates keep the list's order, so they come by start time |
| UserDashboard.Schedule | client/components/UserDashboard.tsx:172-180 | the calendar lists only days of the window that have sessions, and it lists each such day |
| UserDashboard.ScheduleAscending | client/components/UserDashboard.tsx:174-180 | the calendar's days keep the window's ascending order |
| Agreement.DaysMapIsAdminDays | client/components/UserDashboard.tsx:8-16 | the member dashboard's `daysMap` is the admin dashboard's `days` |
| Agreement.DaysOrderMatchesDays | server/routes/sessions.js:7-9 | the server's Monday-first numbering and the clients' Sunday-first table name the same day, modulo 7 |
| Agreement.SuitableIsEligible | client/components/UserDashboard.tsx:100-103 | the calendar's suitability is the server's eligibility for a signed-in member, and means mixed-only for a visitor |
| Agreement.GetCapacityIsActiveCount | client/components/UserDashboard.tsx:112-114 | the shown count, defaulting to 0, is the occurrence's active count |
| Agreement.AdminRowIsNextOccurrence | client/components/AdminDashboard.tsx:69-73 | the admin row shows the next occurrence's active count, and shows it as full exactly when booking would answer "full" |
| Agreement.BookedFlagIsDuplicateCheck | client/components/UserDashboard.tsx:189 | the `booked` flag finds what the unique index finds, and, when every reservation is active, what the duplicate check finds |
| Agreement.ButtonPredictsBooking | client/components/UserDashboard.tsx:189-211 | the book button is disabled exactly when the booking route would refuse with "full" or "already booked" |
| Agreement.WindowDayIsNextOccurrence | client/components/UserDashboard.tsx:176-178 | in the seven-day window, a day name falls on exactly one day: the admin dashboard's next occurrence |
| Agreement.CalendarListsNextOccurrence | client/components/UserDashboard.tsx:178 | a suitable template is listed on exactly one window day, the one the admin row shows |

## Left out

- Concurrency: the count, the duplicate lookup and the save in the booking route are separate queries. Two simultaneous bookings can both pass the capacity check. The model runs one call at a time.
- Time zones: both dashboards turn dates into `YYYY-MM-DD` with `toISOString()`, which is UTC, while `getDay()` uses local time. Dates are day numbers here, so a key that crosses midnight is not modelled.
- `sessionDate` strings: the server accepts any string as a date. Malformed dates and dates that differ only in format are not modelled.
- The user lookup in the booking route (`User.findById`) is modelled as the caller's gender being given. The token check does not look the user up, so a deleted user with a valid token can still book. The gender is read only for a single-gender template, because the test at server/routes/reservations.js:33 stops at `mixed`. Such a user's booking of a single-gender template fails with a 500, and a booking of a mixed template succeeds. Neither case is modelled.
- Database failures and Mongoose casting: malformed ids and thrown queries answer 500. They are not modelled, apart from a failed validation or a duplicate key on `save()`.
- Validation messages: when a template is rejected, Mongoose collects every failed field. The model only says that the template is rejected.
- `populate` joins on the roster and `/my` lists are not modelled. Reservations carry the session and user ids only. A reservation of a deleted template comes back from `/my` with a null session, and the member dashboard dereferences it; this is not modelled.
- Ties in the sorts: the order of records that compare equal is not specified, and nothing is claimed about it.
- `localeCompare` collation: it is modelled as character-code order. The two agree on `HH:MM` start times.
- Authentication and tokens, e-mail, the gallery, the visitor counter, and the page layout and styling of both dashboards are not modelled.
- Ledger.WithinCapacity: capacities are whole numbers in the model. The source stores a JavaScript number, and the API accepts a fractional one. With `currentCount >= capacity` (server/routes/reservations.js:27), a fractional capacity c admits the next whole number of bookings above c. For such a template the source keeps only count < c + 1, not count ≤ c.
- Server.Database.CreateSession: the template's `createdAt` is the `now` parameter, and the clock itself is not modelled.
