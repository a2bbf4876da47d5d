/** The Mongoose schemas of the core: a weekly session template (models/Session.js),
    a reservation of one dated occurrence (models/Reservation.js), and the
    authenticated caller the routes act for (the role and gender of models/User.js). */
module Schema {
  import opened Calendar

  datatype Option<+T> = None | Some(value: T)

  datatype Result<+R, +E> = Success(value: R) | Failure(error: E)

  type SessionId = nat
  type ReservationId = nat
  type UserId = nat

  /** The `dayOfWeek` enum of a template. */
  datatype Day = Monday | Tuesday | Wednesday | Thursday | Friday | Saturday | Sunday

  function DayName(d: Day): string
  {
    match d
    case Monday => "Monday"
    case Tuesday => "Tuesday"
    case Wednesday => "Wednesday"
    case Thursday => "Thursday"
    case Friday => "Friday"
    case Saturday => "Saturday"
    case Sunday => "Sunday"
  }

  /** The enum validator of `dayOfWeek`: a string is accepted exactly when it is
      the name of one of the seven days, and then it denotes that day. */
  function ParseDay(s: string): (r: Option<Day>)
    ensures forall d :: DayName(d) == s <==> r == Some(d)
  {
    if s == "Monday" then Some(Monday)
    else if s == "Tuesday" then Some(Tuesday)
    else if s == "Wednesday" then Some(Wednesday)
    else if s == "Thursday" then Some(Thursday)
    else if s == "Friday" then Some(Friday)
    else if s == "Saturday" then Some(Saturday)
    else if s == "Sunday" then Some(Sunday)
    else None
  }

  /** A user's gender (models/User.js allows only these two). */
  datatype Gender = Male | Female

  function GenderName(g: Gender): string
  {
    match g
    case Male => "male"
    case Female => "female"
  }

  /** The `type` enum of a template: who may book it. */
  datatype SessionType = MaleOnly | FemaleOnly | Mixed

  function TypeName(t: SessionType): string
  {
    match t
    case MaleOnly => "male"
    case FemaleOnly => "female"
    case Mixed => "mixed"
  }

  /** The enum validator of `type`. */
  function ParseType(s: string): (r: Option<SessionType>)
    ensures forall t :: TypeName(t) == s <==> r == Some(t)
  {
    if s == "male" then Some(MaleOnly)
    else if s == "female" then Some(FemaleOnly)
    else if s == "mixed" then Some(Mixed)
    else None
  }

  datatype Role = User | Admin

  /** The authenticated caller: the user id from the token, with the role and
      gender stored for that user. */
  datatype Caller = Caller(id: UserId, role: Role, gender: Gender)

  /** A stored session template. */
  datatype Session = Session(
    id: SessionId,
    title: string,
    instructor: Option<string>,
    dayOfWeek: Day,
    startTime: string,
    duration: int,
    sessionType: SessionType,
    capacity: int,
    createdAt: Time)

  /** The body of a create request: every field may be missing. */
  datatype SessionInput = SessionInput(
    title: Option<string>,
    instructor: Option<string>,
    dayOfWeek: Option<string>,
    startTime: Option<string>,
    duration: Option<int>,
    sessionType: Option<string>,
    capacity: Option<int>)

  /** A required string field passes Mongoose's `required` validator only when it
      is present and not empty. */
  predicate RequiredString(s: Option<string>)
  {
    s.Some? && s.value != ""
  }

  /** What the schema guarantees of every stored template. */
  predicate WellFormedSession(s: Session)
  {
    s.title != "" && s.startTime != ""
  }

  /** `new Session({...}).save()`: validation of the required fields and the two
      enums, and the 60-minute default for `duration`. */
  function NewSession(id: SessionId, input: SessionInput, now: Time): (r: Option<Session>)
    ensures r.Some? <==>
      && RequiredString(input.title)
      && input.dayOfWeek.Some? && ParseDay(input.dayOfWeek.value).Some?
      && RequiredString(input.startTime)
      && input.sessionType.Some? && ParseType(input.sessionType.value).Some?
      && input.capacity.Some?
    ensures r.Some? ==>
      && WellFormedSession(r.value)
      && r.value.id == id && r.value.createdAt == now
      && Some(r.value.title) == input.title
      && Some(r.value.startTime) == input.startTime
      && r.value.instructor == input.instructor
      && Some(DayName(r.value.dayOfWeek)) == input.dayOfWeek
      && Some(TypeName(r.value.sessionType)) == input.sessionType
      && Some(r.value.capacity) == input.capacity
      && r.value.duration == (if input.duration.None? then 60 else input.duration.value)
  {
    if !RequiredString(input.title) || !RequiredString(input.startTime) then None
    else if input.dayOfWeek.None? || input.sessionType.None? || input.capacity.None? then None
    else
      match (ParseDay(input.dayOfWeek.value), ParseType(input.sessionType.value))
      case (Some(day), Some(kind)) =>
        Some(Session(id, input.title.value, input.instructor, day, input.startTime.value,
                     if input.duration.None? then 60 else input.duration.value,
                     kind, input.capacity.value, now))
      case _ => None
  }

  /** The `status` enum of a reservation. */
  datatype Status = Active | Cancelled

  /** A stored reservation of one dated occurrence of a template. */
  datatype Reservation = Reservation(
    id: ReservationId,
    user: UserId,
    session: SessionId,
    sessionDate: Date,
    createdAt: Time,
    status: Status)

  /** `new Reservation({ user, session, sessionDate })`: the status takes its
      default, active, and the creation time is the current time. */
  function NewReservation(id: ReservationId, user: UserId, session: SessionId, date: Date, now: Time): (r: Reservation)
    ensures r.status == Active
    ensures r.id == id && r.user == user && r.session == session && r.sessionDate == date && r.createdAt == now
  {
    Reservation(id, user, session, date, now, Active)
  }
}
