/** The server's two collections and the routes that act on them: template
    create, delete and list (routes/sessions.js), and book, cancel, roster,
    occupancy counts and own reservations (routes/reservations.js). Each route is
    modelled as it runs when calls arrive one at a time. */
module Server {
  import opened Calendar
  import opened Schema
  import opened Sequences
  import opened SessionRoutes
  import opened Ledger

  /** The failures the routes answer with. */
  datatype ApiError =
    | SessionNotFound
    | ReservationNotFound
    | CapacityFull
    | NotEligible
    | AlreadyBooked
    | NotOwner
    | Forbidden
    | ServerError

  /** The HTTP status each failure is sent with. `ServerError` is a rejected
      `save()` (a failed validation or a duplicate key of the unique index). */
  function HttpStatus(e: ApiError): int
  {
    match e
    case SessionNotFound => 404
    case ReservationNotFound => 404
    case CapacityFull => 400
    case NotEligible => 400
    case AlreadyBooked => 400
    case NotOwner => 401
    case Forbidden => 403
    case ServerError => 500
  }

  /** The database: the template collection keyed by id, the reservation
      collection in insertion order, and the id counters standing in for ObjectId. */
  class Database {
    var sessions: map<SessionId, Session>
    var reservations: seq<Reservation>
    var nextSessionId: nat
    var nextReservationId: nat

    ghost predicate Valid()
      reads this
    {
      && (forall id :: id in sessions ==>
            sessions[id].id == id && id < nextSessionId && WellFormedSession(sessions[id]))
      && (forall i :: 0 <= i < |reservations| ==>
            reservations[i].id < nextReservationId && reservations[i].session < nextSessionId)
      && DistinctIds(reservations)
      && UniqueIndex(reservations)
      && WithinCapacity(sessions, reservations)
    }

    constructor ()
      ensures Valid()
      ensures sessions == map[] && reservations == []
    {
      sessions := map[];
      reservations := [];
      nextSessionId := 0;
      nextReservationId := 0;
    }

    /** `POST /api/sessions`: admins only; the new template is stored when it
        passes the schema's validation, which otherwise makes `save()` fail. */
    method CreateSession(caller: Caller, input: SessionInput, now: Time) returns (r: Result<Session, ApiError>)
      requires Valid()
      modifies this
      ensures Valid()
      ensures reservations == old(reservations) && nextReservationId == old(nextReservationId)
      ensures caller.role != Admin ==>
        r == Failure(Forbidden) && sessions == old(sessions) && nextSessionId == old(nextSessionId)
      ensures caller.role == Admin && NewSession(old(nextSessionId), input, now).None? ==>
        r == Failure(ServerError) && sessions == old(sessions) && nextSessionId == old(nextSessionId)
      ensures caller.role == Admin && NewSession(old(nextSessionId), input, now).Some? ==>
        && r == Success(NewSession(old(nextSessionId), input, now).value)
        && old(nextSessionId) !in old(sessions)
        && sessions == old(sessions)[old(nextSessionId) := r.value]
        && nextSessionId == old(nextSessionId) + 1
    {
      if caller.role != Admin {
        return Failure(Forbidden);
      }
      var created := NewSession(nextSessionId, input, now);
      if created.None? {
        return Failure(ServerError);
      }
      var s := created.value;
      sessions := sessions[s.id := s];
      nextSessionId := nextSessionId + 1;
      r := Success(s);
    }

    /** `DELETE /api/sessions/:id`: admins only; the template is removed and the
        reservations that refer to it are left in place. */
    method DeleteSession(caller: Caller, id: SessionId) returns (r: Result<(), ApiError>)
      requires Valid()
      modifies this
      ensures Valid()
      ensures reservations == old(reservations)
      ensures nextSessionId == old(nextSessionId) && nextReservationId == old(nextReservationId)
      ensures caller.role != Admin ==> r == Failure(Forbidden) && sessions == old(sessions)
      ensures caller.role == Admin && id !in old(sessions) ==> r == Failure(SessionNotFound) && sessions == old(sessions)
      ensures caller.role == Admin && id in old(sessions) ==> r == Success(()) && sessions == old(sessions) - {id}
    {
      if caller.role != Admin {
        return Failure(Forbidden);
      }
      if id !in sessions {
        return Failure(SessionNotFound);
      }
      FewerSessionsKeepCapacity(sessions, reservations, id);
      sessions := sessions - {id};
      r := Success(());
    }

    /** `GET /api/sessions`: every stored template exactly once, Monday first and
        by start time within a day. */
    method ListSessions() returns (list: seq<Session>)
      requires Valid()
      ensures multiset(list) == multiset(sessions.Values)
      ensures SortedBy(list, SessionLeq)
    {
      var stored: seq<Session> := [];
      var pending := sessions.Keys;
      ghost var done: set<Session> := {};
      while pending != {}
        invariant pending <= sessions.Keys
        invariant done == set id | id in sessions.Keys - pending :: sessions[id]
        invariant multiset(stored) == multiset(done)
        decreases pending
      {
        var id :| id in pending;
        assert sessions[id] !in done;
        stored := stored + [sessions[id]];
        done := done + {sessions[id]};
        pending := pending - {id};
      }
      assert done == sessions.Values;
      list := WeeklyProgram(stored);
    }

    /** `POST /api/reservations`: the checks run in the route's order, the first
        that fails answers, and only when all pass is a reservation saved; the
        unique index makes that save fail when the caller already has a
        reservation of the occurrence in any status. */
    method Book(caller: Caller, sid: SessionId, date: Date, now: Time) returns (r: Result<Reservation, ApiError>)
      requires Valid()
      modifies this
      ensures Valid()
      ensures sessions == old(sessions) && nextSessionId == old(nextSessionId)
      ensures sid !in sessions ==> r == Failure(SessionNotFound)
      ensures sid in sessions ==>
        var slot := Slot(sid, date);
        var s := sessions[sid];
        r == (if ActiveCount(old(reservations), slot) >= s.capacity then Failure(CapacityFull)
              else if !Eligible(s.sessionType, caller.gender) then Failure(NotEligible)
              else if HasActive(old(reservations), caller.id, slot) then Failure(AlreadyBooked)
              else if IndexTaken(old(reservations), caller.id, slot) then Failure(ServerError)
              else Success(NewReservation(old(nextReservationId), caller.id, sid, date, now)))
      ensures r.Failure? ==>
        reservations == old(reservations) && nextReservationId == old(nextReservationId)
      ensures r.Success? ==>
        && reservations == old(reservations) + [r.value]
        && nextReservationId == old(nextReservationId) + 1
        && ActiveCount(reservations, Slot(sid, date)) == ActiveCount(old(reservations), Slot(sid, date)) + 1
        && ActiveCount(reservations, Slot(sid, date)) <= sessions[sid].capacity
      ensures old(AllActive(reservations)) ==> AllActive(reservations)
    {
      if sid !in sessions {
        return Failure(SessionNotFound);
      }
      var session := sessions[sid];
      var slot := Slot(sid, date);
      if ActiveCount(reservations, slot) >= session.capacity {
        return Failure(CapacityFull);
      }
      if !Eligible(session.sessionType, caller.gender) {
        return Failure(NotEligible);
      }
      if HasActive(reservations, caller.id, slot) {
        return Failure(AlreadyBooked);
      }
      if IndexTaken(reservations, caller.id, slot) {
        return Failure(ServerError);
      }
      var created := NewReservation(nextReservationId, caller.id, sid, date, now);
      AdmittedBookingKeepsCapacity(sessions, reservations, created);
      AppendKeepsKeys(reservations, created);
      ActiveCountAppend(reservations, created, slot);
      reservations := reservations + [created];
      nextReservationId := nextReservationId + 1;
      r := Success(created);
    }

    /** `DELETE /api/reservations/:id`: only the owner may cancel, and a
        cancelled reservation is deleted, which frees its seat. */
    method Cancel(caller: Caller, rid: ReservationId) returns (r: Result<(), ApiError>)
      requires Valid()
      modifies this
      ensures Valid()
      ensures sessions == old(sessions)
      ensures nextSessionId == old(nextSessionId) && nextReservationId == old(nextReservationId)
      ensures FindReservation(old(reservations), rid).None? ==>
        r == Failure(ReservationNotFound) && reservations == old(reservations)
      ensures FindReservation(old(reservations), rid).Some? ==>
        var k := FindReservation(old(reservations), rid).value;
        var held := old(reservations)[k];
        if held.user != caller.id then
          r == Failure(NotOwner) && reservations == old(reservations)
        else
          && r == Success(())
          && reservations == RemoveAt(old(reservations), k)
          && (held.status == Active ==>
                ActiveCount(reservations, SlotOf(held)) == ActiveCount(old(reservations), SlotOf(held)) - 1)
      ensures old(AllActive(reservations)) ==> AllActive(reservations)
    {
      var found := FindReservation(reservations, rid);
      if found.None? {
        return Failure(ReservationNotFound);
      }
      var k := found.value;
      if reservations[k].user != caller.id {
        return Failure(NotOwner);
      }
      RemovalKeepsCapacity(sessions, reservations, k);
      RemovalKeepsKeys(reservations, k);
      ActiveCountRemove(reservations, k, SlotOf(reservations[k]));
      reservations := RemoveAt(reservations, k);
      r := Success(());
    }

    /** `GET /api/reservations/counts`. */
    method Counts() returns (countMap: map<Slot, nat>)
      ensures Tallies(countMap, reservations)
    {
      countMap := CountActive(reservations);
    }

    /** `GET /api/reservations/session/:sessionId`: admins only. */
    method SessionRoster(caller: Caller, sid: SessionId, date: Option<Date>) returns (r: Result<seq<Reservation>, ApiError>)
      ensures caller.role != Admin ==> r == Failure(Forbidden)
      ensures caller.role == Admin ==> r == Success(Roster(reservations, sid, date))
    {
      if caller.role != Admin {
        return Failure(Forbidden);
      }
      r := Success(Roster(reservations, sid, date));
    }

    /** `GET /api/reservations/my`. */
    method MyReservations(caller: Caller) returns (list: seq<Reservation>)
      ensures list == Mine(reservations, caller.id)
    {
      list := Mine(reservations, caller.id);
    }
  }
}
