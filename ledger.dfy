/** The queries routes/reservations.js runs against the reservation collection:
    the active count of an occurrence (`countDocuments`), the duplicate lookup
    (`findOne`), the unique index, the `/counts` aggregation, the admin roster and
    the caller's own list; and the store invariants that booking and cancelling keep. */
module Ledger {
  import opened Calendar
  import opened Schema
  import opened Sequences

  /** One dated occurrence of a template: the key `${sessionId}_${date}` of the
      occupancy map. */
  datatype Slot = Slot(session: SessionId, date: Date)

  function SlotOf(r: Reservation): Slot
  {
    Slot(r.session, r.sessionDate)
  }

  /** `r` holds a seat of `slot`. */
  predicate HoldsSeat(r: Reservation, slot: Slot)
  {
    r.status == Active && SlotOf(r) == slot
  }

  /** The eligibility test of the booking route, on the enum names:
      `!(session.type !== 'mixed' && session.type !== user.gender)`. */
  predicate Eligible(t: SessionType, g: Gender)
  {
    !(TypeName(t) != "mixed" && TypeName(t) != GenderName(g))
  }

  /** A mixed session admits everyone; a single-gender one only that gender. */
  lemma EligibleIff(t: SessionType, g: Gender)
    ensures Eligible(t, g) <==> t == Mixed || (t == MaleOnly && g == Male) || (t == FemaleOnly && g == Female)
  {
  }

  /** `countDocuments({ session, sessionDate, status: 'active' })`. */
  function ActiveCount(rs: seq<Reservation>, slot: Slot): (n: nat)
    ensures n <= |rs|
    ensures n > 0 <==> exists i :: 0 <= i < |rs| && HoldsSeat(rs[i], slot)
  {
    if rs == [] then 0
    else
      var rest := ActiveCount(rs[1..], slot);
      assert forall i :: 0 < i < |rs| ==> rs[i] == rs[1..][i - 1];
      (if HoldsSeat(rs[0], slot) then 1 else 0) + rest
  }

  lemma {:induction false} ActiveCountConcat(a: seq<Reservation>, b: seq<Reservation>, slot: Slot)
    ensures ActiveCount(a + b, slot) == ActiveCount(a, slot) + ActiveCount(b, slot)
  {
    if a != [] {
      assert (a + b)[0] == a[0] && (a + b)[1..] == a[1..] + b;
      ActiveCountConcat(a[1..], b, slot);
    } else {
      assert a + b == b;
    }
  }

  /** Appending a reservation raises the count of its own occurrence by one if it
      is active, and leaves every other count alone. */
  lemma ActiveCountAppend(rs: seq<Reservation>, r: Reservation, slot: Slot)
    ensures ActiveCount(rs + [r], slot) == ActiveCount(rs, slot) + (if HoldsSeat(r, slot) then 1 else 0)
  {
    ActiveCountConcat(rs, [r], slot);
    assert [r][1..] == [];
  }

  /** `rs` without its `i`-th element. */
  function RemoveAt(rs: seq<Reservation>, i: nat): (r: seq<Reservation>)
    requires i < |rs|
    ensures |r| == |rs| - 1
    ensures forall x :: x in r ==> x in rs
  {
    rs[..i] + rs[i + 1..]
  }

  /** Deleting the `i`-th reservation frees its seat, and no other. */
  lemma ActiveCountRemove(rs: seq<Reservation>, i: nat, slot: Slot)
    requires i < |rs|
    ensures ActiveCount(RemoveAt(rs, i), slot) == ActiveCount(rs, slot) - (if HoldsSeat(rs[i], slot) then 1 else 0)
  {
    assert rs == rs[..i] + ([rs[i]] + rs[i + 1..]);
    ActiveCountConcat(rs[..i], [rs[i]] + rs[i + 1..], slot);
    ActiveCountConcat([rs[i]], rs[i + 1..], slot);
    ActiveCountConcat(rs[..i], rs[i + 1..], slot);
    assert [rs[i]][1..] == [];
  }

  /** `findOne({ user, session, sessionDate, status: 'active' })` finds something. */
  predicate HasActive(rs: seq<Reservation>, user: UserId, slot: Slot)
  {
    exists i :: 0 <= i < |rs| && rs[i].user == user && HoldsSeat(rs[i], slot)
  }

  /** Some reservation, whatever its status, already has the key of the unique
      index `{ user, session, sessionDate }`. */
  predicate IndexTaken(rs: seq<Reservation>, user: UserId, slot: Slot)
  {
    exists i :: 0 <= i < |rs| && rs[i].user == user && SlotOf(rs[i]) == slot
  }

  /** The unique index: at most one reservation per (user, session, sessionDate). */
  predicate UniqueIndex(rs: seq<Reservation>)
  {
    forall i, j :: 0 <= i < j < |rs| ==> !(rs[i].user == rs[j].user && SlotOf(rs[i]) == SlotOf(rs[j]))
  }

  predicate DistinctIds(rs: seq<Reservation>)
  {
    forall i, j :: 0 <= i < j < |rs| ==> rs[i].id != rs[j].id
  }

  predicate AllActive(rs: seq<Reservation>)
  {
    forall i :: 0 <= i < |rs| ==> rs[i].status == Active
  }

  /** No occurrence of a stored template holds more active reservations than
      the template's capacity. */
  predicate WithinCapacity(sessions: map<SessionId, Session>, rs: seq<Reservation>)
  {
    forall i :: 0 <= i < |rs| && rs[i].status == Active && rs[i].session in sessions ==>
      ActiveCount(rs, SlotOf(rs[i])) <= sessions[rs[i].session].capacity
  }

  /** A booking the capacity check admitted keeps every occurrence within capacity. */
  lemma AdmittedBookingKeepsCapacity(sessions: map<SessionId, Session>, rs: seq<Reservation>, r: Reservation)
    requires WithinCapacity(sessions, rs)
    requires r.session in sessions
    requires ActiveCount(rs, SlotOf(r)) < sessions[r.session].capacity
    ensures WithinCapacity(sessions, rs + [r])
  {
    var rs' := rs + [r];
    forall i | 0 <= i < |rs'| && rs'[i].status == Active && rs'[i].session in sessions
      ensures ActiveCount(rs', SlotOf(rs'[i])) <= sessions[rs'[i].session].capacity
    {
      ActiveCountAppend(rs, r, SlotOf(rs'[i]));
    }
  }

  /** Deleting a reservation keeps every occurrence within capacity. */
  lemma RemovalKeepsCapacity(sessions: map<SessionId, Session>, rs: seq<Reservation>, k: nat)
    requires k < |rs|
    requires WithinCapacity(sessions, rs)
    ensures WithinCapacity(sessions, RemoveAt(rs, k))
  {
    var rs' := RemoveAt(rs, k);
    forall i | 0 <= i < |rs'| && rs'[i].status == Active && rs'[i].session in sessions
      ensures ActiveCount(rs', SlotOf(rs'[i])) <= sessions[rs'[i].session].capacity
    {
      var j := if i < k then i else i + 1;
      assert rs'[i] == rs[j];
      ActiveCountRemove(rs, k, SlotOf(rs'[i]));
    }
  }

  /** Deleting a reservation keeps the unique index, distinct ids and all-active. */
  lemma RemovalKeepsKeys(rs: seq<Reservation>, k: nat)
    requires k < |rs|
    ensures UniqueIndex(rs) ==> UniqueIndex(RemoveAt(rs, k))
    ensures DistinctIds(rs) ==> DistinctIds(RemoveAt(rs, k))
    ensures AllActive(rs) ==> AllActive(RemoveAt(rs, k))
  {
    var rs' := RemoveAt(rs, k);
    assert forall i :: 0 <= i < |rs'| ==> rs'[i] == rs[if i < k then i else i + 1];
  }

  /** Saving a reservation under a fresh id and a free index key keeps the unique
      index and the distinct ids, and an active one keeps all-active. */
  lemma AppendKeepsKeys(rs: seq<Reservation>, r: Reservation)
    requires forall i :: 0 <= i < |rs| ==> rs[i].id != r.id
    requires !IndexTaken(rs, r.user, SlotOf(r))
    ensures UniqueIndex(rs) ==> UniqueIndex(rs + [r])
    ensures DistinctIds(rs) ==> DistinctIds(rs + [r])
    ensures AllActive(rs) && r.status == Active ==> AllActive(rs + [r])
  {
    var rs' := rs + [r];
    assert forall i :: 0 <= i < |rs| ==> rs'[i] == rs[i];
    assert rs'[|rs|] == r;
  }

  /** A template's removal (or any shrinking of the catalogue) keeps the others within capacity. */
  lemma FewerSessionsKeepCapacity(sessions: map<SessionId, Session>, rs: seq<Reservation>, id: SessionId)
    requires WithinCapacity(sessions, rs)
    ensures WithinCapacity(sessions - {id}, rs)
  {
  }

  /** `Reservation.findById(id)`: the position of the reservation with that id. */
  function FindReservation(rs: seq<Reservation>, id: ReservationId): (k: Option<nat>)
    ensures k.Some? ==> k.value < |rs| && rs[k.value].id == id
    ensures k.None? <==> forall i :: 0 <= i < |rs| ==> rs[i].id != id
  {
    if rs == [] then None
    else if rs[0].id == id then Some(0)
    else
      match FindReservation(rs[1..], id)
      case None => None
      case Some(j) => Some(j + 1)
  }

  /** `m` is the `/counts` map of `rs`: a key for exactly the occurrences with an
      active reservation, holding their active count. */
  ghost predicate Tallies(m: map<Slot, nat>, rs: seq<Reservation>)
  {
    && (forall slot :: slot in m <==> ActiveCount(rs, slot) > 0)
    && (forall slot :: slot in m ==> m[slot] == ActiveCount(rs, slot))
  }

  /** The `/counts` route: group the active reservations by (session, date) and
      fill `countMap` with each group's size. */
  method CountActive(rs: seq<Reservation>) returns (countMap: map<Slot, nat>)
    ensures Tallies(countMap, rs)
  {
    countMap := map[];
    var i := 0;
    while i < |rs|
      invariant 0 <= i <= |rs|
      invariant Tallies(countMap, rs[..i])
    {
      var r := rs[i];
      assert rs[..i + 1] == rs[..i] + [r];
      forall slot ensures ActiveCount(rs[..i + 1], slot) == ActiveCount(rs[..i], slot) + (if HoldsSeat(r, slot) then 1 else 0) {
        ActiveCountAppend(rs[..i], r, slot);
      }
      if r.status == Active {
        var key := SlotOf(r);
        var previous := if key in countMap then countMap[key] else 0;
        countMap := countMap[key := previous + 1];
      }
      i := i + 1;
    }
    assert rs[..i] == rs;
  }

  /** The roster filter: the reservations of one template, and of one date when a
      date is given. Status is not part of the filter. */
  predicate OnRoster(r: Reservation, session: SessionId, date: Option<Date>)
  {
    r.session == session && (date.None? || r.sessionDate == date.value)
  }

  /** `.sort({ sessionDate: 1, createdAt: 1 })`. */
  predicate RosterLeq(a: Reservation, b: Reservation)
  {
    a.sessionDate < b.sessionDate || (a.sessionDate == b.sessionDate && a.createdAt <= b.createdAt)
  }

  /** `.sort({ sessionDate: 1, createdAt: -1 })`. */
  predicate MineLeq(a: Reservation, b: Reservation)
  {
    a.sessionDate < b.sessionDate || (a.sessionDate == b.sessionDate && a.createdAt >= b.createdAt)
  }

  lemma RosterOrderIsTotalPreorder()
    ensures TotalPreorder(RosterLeq)
  {
  }

  lemma MineOrderIsTotalPreorder()
    ensures TotalPreorder(MineLeq)
  {
  }

  /** The admin roster of a template (optionally of one date), by date and then
      booking time, oldest first. */
  function Roster(rs: seq<Reservation>, session: SessionId, date: Option<Date>): (r: seq<Reservation>)
    ensures SortedBy(r, RosterLeq)
    ensures multiset(r) == multiset(Filter(rs, x => OnRoster(x, session, date)))
    ensures forall x :: x in r <==> x in rs && OnRoster(x, session, date)
  {
    var chosen := Filter(rs, x => OnRoster(x, session, date));
    RosterOrderIsTotalPreorder();
    SortBySorted(chosen, RosterLeq);
    SameMembers(SortBy(chosen, RosterLeq), chosen);
    SortBy(chosen, RosterLeq)
  }

  /** `GET /my`: the caller's reservations, by date and then newest booking first. */
  function Mine(rs: seq<Reservation>, user: UserId): (r: seq<Reservation>)
    ensures SortedBy(r, MineLeq)
    ensures multiset(r) == multiset(Filter(rs, (x: Reservation) => x.user == user))
    ensures forall x :: x in r <==> x in rs && x.user == user
  {
    var chosen := Filter(rs, (x: Reservation) => x.user == user);
    MineOrderIsTotalPreorder();
    SortBySorted(chosen, MineLeq);
    SameMembers(SortBy(chosen, MineLeq), chosen);
    SortBy(chosen, MineLeq)
  }
}
