/** Client code of the routes: what a caller can conclude from the routes'
    contracts alone, on the capacity-two scenario (two members fill a class,
    a third is turned away, a cancellation reopens a seat) and on the
    eligibility, duplicate and foreign-cancel refusals. */
module Scenarios {
  import opened Calendar
  import opened Schema
  import opened Ledger
  import opened Server

  /** 2024-06-03, a Monday. */
  const June3: Date := 19877

  /** A fresh store holding one mixed Monday class of two seats, with no bookings. */
  method MixedClassOfTwo() returns (db: Database, t: Session)
    ensures fresh(db) && db.Valid()
    ensures t.id in db.sessions && db.sessions[t.id] == t
    ensures t.capacity == 2 && t.sessionType == Mixed && t.dayOfWeek == Monday && t.duration == 60
    ensures db.reservations == []
  {
    assert Weekday(June3) == 1;
    db := new Database();
    var admin := Caller(0, Admin, Female);
    var input := SessionInput(Some("Pilates"), None, Some("Monday"), Some("18:00"), None, Some("mixed"), Some(2));
    var created := db.CreateSession(admin, input, 0);
    t := created.value;
  }

  /** Two members take both seats; the third is refused because the class is full. */
  method TwoSeatsFill() returns (db: Database, t: Session, first: Reservation, second: Reservation)
    ensures fresh(db) && db.Valid()
    ensures t.id in db.sessions && db.sessions[t.id] == t && t.capacity == 2 && t.sessionType == Mixed
    ensures db.reservations == [first, second]
    ensures first.user == 1 && second.user == 2
    ensures HoldsSeat(first, Slot(t.id, June3)) && HoldsSeat(second, Slot(t.id, June3))
  {
    db, t := MixedClassOfTwo();
    var r1 := db.Book(Caller(1, User, Male), t.id, June3, 10);
    assert r1.Success?;
    first := r1.value;
    var r2 := db.Book(Caller(2, User, Female), t.id, June3, 11);
    assert !HasActive([first], 2, Slot(t.id, June3));
    assert r2.Success?;
    second := r2.value;
    assert ActiveCount(db.reservations, Slot(t.id, June3)) == 2;
    var r3 := db.Book(Caller(3, User, Male), t.id, June3, 12);
    assert r3 == Failure(CapacityFull);
  }

  /** After one of the two members cancels, the third member's booking succeeds
      and the class is full again. */
  method CancellationReopensSeat()
  {
    var db, t, first, second := TwoSeatsFill();
    var slot := Slot(t.id, June3);
    var c := db.Cancel(Caller(1, User, Male), first.id);
    assert c == Success(()) && db.reservations == [second];
    assert ActiveCount(db.reservations, slot) == 1;
    var r := db.Book(Caller(3, User, Male), t.id, June3, 13);
    assert r.Success? && ActiveCount(db.reservations, slot) == 2;
  }

  /** A member cannot create a template; a man cannot book a women-only class. */
  method WomenOnlyClass() returns (db: Database, t: Session)
    ensures fresh(db) && db.Valid()
    ensures db.sessions == map[t.id := t] && t.sessionType == FemaleOnly && t.capacity == 5
    ensures db.reservations == []
  {
    db := new Database();
    var input := SessionInput(Some("Yoga"), None, Some("Monday"), Some("09:00"), None, Some("female"), Some(5));
    var refused := db.CreateSession(Caller(1, User, Male), input, 0);
    assert refused == Failure(Forbidden) && db.sessions == map[];
    var created := db.CreateSession(Caller(0, Admin, Female), input, 0);
    t := created.value;
    var wrongGender := db.Book(Caller(1, User, Male), t.id, June3, 1);
    assert wrongGender == Failure(NotEligible) && db.reservations == [];
  }

  /** A second booking of the same occurrence and a cancellation by someone
      else are refused without effect. */
  method DuplicateAndForeignCancel()
  {
    var db, t := WomenOnlyClass();
    var woman := Caller(2, User, Female);
    var first := db.Book(woman, t.id, June3, 2);
    assert first.Success?;
    var again := db.Book(woman, t.id, June3, 3);
    assert HasActive(db.reservations, woman.id, Slot(t.id, June3));
    assert again == Failure(AlreadyBooked) && |db.reservations| == 1;

    var foreign := db.Cancel(Caller(1, User, Male), first.value.id);
    assert foreign == Failure(NotOwner) && db.reservations == [first.value];
  }

  /** Booking a template that is not stored answers "not found" and stores nothing. */
  method UnknownTemplate()
  {
    var db, t := WomenOnlyClass();
    var missing := db.Book(Caller(2, User, Female), t.id + 1, June3, 4);
    assert missing == Failure(SessionNotFound) && db.reservations == [];
  }
}
