/** The ordering of the template list (`GET /api/sessions` in routes/sessions.js):
    by `daysOrder` of the weekday, Monday first, and then by start time. */
module SessionRoutes {
  import opened Schema
  import opened Sequences

  /** `daysOrder`: Monday = 1 ... Sunday = 7. */
  function DaysOrder(d: Day): (n: int)
    ensures 1 <= n <= 7
  {
    match d
    case Monday => 1
    case Tuesday => 2
    case Wednesday => 3
    case Thursday => 4
    case Friday => 5
    case Saturday => 6
    case Sunday => 7
  }

  /** `daysOrder` tells the seven days apart. */
  lemma DaysOrderInjective(d: Day, e: Day)
    ensures DaysOrder(d) == DaysOrder(e) <==> d == e
  {
  }

  /** `a.startTime.localeCompare(b.startTime)`, as plain character order:
      negative, zero or positive as `a` sorts before, equal to or after `b`. */
  function StrCompare(a: string, b: string): (c: int)
    ensures -1 <= c <= 1
    ensures c == 0 <==> a == b
  {
    if a == [] && b == [] then 0
    else if a == [] then -1
    else if b == [] then 1
    else if a[0] < b[0] then -1
    else if a[0] > b[0] then 1
    else
      assert a == [a[0]] + a[1..] && b == [b[0]] + b[1..];
      StrCompare(a[1..], b[1..])
  }

  lemma {:induction false} StrCompareAntisymmetric(a: string, b: string)
    ensures StrCompare(a, b) == -StrCompare(b, a)
  {
    if a != [] && b != [] && a[0] == b[0] {
      StrCompareAntisymmetric(a[1..], b[1..]);
    }
  }

  lemma {:induction false} StrCompareTransitive(a: string, b: string, c: string)
    requires StrCompare(a, b) <= 0 && StrCompare(b, c) <= 0
    ensures StrCompare(a, c) <= 0
  {
    if a != [] && b != [] && c != [] && a[0] == b[0] && b[0] == c[0] {
      StrCompareTransitive(a[1..], b[1..], c[1..]);
    }
  }

  /** The comparator passed to `sessions.sort`. */
  function CompareSessions(a: Session, b: Session): (c: int)
    ensures c == 0 <==> a.dayOfWeek == b.dayOfWeek && a.startTime == b.startTime
  {
    DaysOrderInjective(a.dayOfWeek, b.dayOfWeek);
    var dayDiff := DaysOrder(a.dayOfWeek) - DaysOrder(b.dayOfWeek);
    if dayDiff != 0 then dayDiff else StrCompare(a.startTime, b.startTime)
  }

  /** `a` may come before `b` in the template list. */
  predicate SessionLeq(a: Session, b: Session)
  {
    CompareSessions(a, b) <= 0
  }

  /** The order the comparator defines: earlier weekday first (Monday first),
      and on the same weekday the earlier start time first. */
  lemma SessionLeqMeaning(a: Session, b: Session)
    ensures SessionLeq(a, b) <==>
      DaysOrder(a.dayOfWeek) < DaysOrder(b.dayOfWeek) ||
      (a.dayOfWeek == b.dayOfWeek && StrCompare(a.startTime, b.startTime) <= 0)
  {
  }

  /** The comparator is consistent, so sorting with it is well defined. */
  lemma SessionOrderIsTotalPreorder()
    ensures TotalPreorder(SessionLeq)
  {
    forall a, b ensures SessionLeq(a, b) || SessionLeq(b, a) {
      StrCompareAntisymmetric(a.startTime, b.startTime);
    }
    forall a, b, c | SessionLeq(a, b) && SessionLeq(b, c) ensures SessionLeq(a, c) {
      if a.dayOfWeek == b.dayOfWeek && b.dayOfWeek == c.dayOfWeek {
        StrCompareTransitive(a.startTime, b.startTime, c.startTime);
      }
    }
  }

  /** The template list: the stored templates, ordered by `SessionLeq`. */
  function WeeklyProgram(templates: seq<Session>): (r: seq<Session>)
    ensures multiset(r) == multiset(templates)
    ensures SortedBy(r, SessionLeq)
  {
    SessionOrderIsTotalPreorder();
    SortBySorted(templates, SessionLeq);
    SortBy(templates, SessionLeq)
  }
}
