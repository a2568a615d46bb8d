/** The simulation environment's pending resumptions: a list kept ordered by
    (time, scheduling sequence number), so the head is always the next one
    due and resumptions due at the same instant keep the order in which they
    were scheduled. */
module EventQueue {

  /** Which suspension a resumption ends: the wait for the arrival time, or
      the service time on a counter. */
  datatype Wake = Arrive | Leave

  /** Process `student` resumes at simulated time `time`; `order` numbers the
      resumptions in the order they were scheduled. */
  datatype Event = Event(time: int, order: nat, student: nat, wake: Wake)

  /** `a` is due before `b`. */
  predicate Before(a: Event, b: Event) {
    a.time < b.time || (a.time == b.time && a.order < b.order)
  }

  predicate Ordered(q: seq<Event>) {
    forall i, j :: 0 <= i < j < |q| ==> Before(q[i], q[j])
  }

  /** Schedules `e`: it goes after every resumption due no later than it,
      and the queue gains exactly `e`. */
  function Insert(q: seq<Event>, e: Event): (r: seq<Event>)
    ensures |r| == |q| + 1
  {
    if q == [] || Before(e, q[0]) then [e] + q
    else
      assert q == [q[0]] + q[1..];
      [q[0]] + Insert(q[1..], e)
  }

  /** Scheduling adds exactly the new resumption. */
  lemma {:induction false} InsertElems(q: seq<Event>, e: Event)
    ensures multiset(Insert(q, e)) == multiset(q) + multiset{e}
  {
    if q != [] && !Before(e, q[0]) {
      InsertElems(q[1..], e);
      assert q == [q[0]] + q[1..];
    }
  }

  /** A resumption with a fresh sequence number keeps the queue ordered. */
  lemma {:induction false} InsertOrdered(q: seq<Event>, e: Event)
    requires Ordered(q) && forall i :: 0 <= i < |q| ==> q[i].order < e.order
    ensures Ordered(Insert(q, e))
  {
    if q != [] && !Before(e, q[0]) {
      InsertOrdered(q[1..], e);
      InsertElems(q[1..], e);
      var rest := Insert(q[1..], e);
      var r := Insert(q, e);
      assert r == [q[0]] + rest;
      forall j | 0 < j < |r| ensures Before(q[0], r[j]) {
        assert r[j] == rest[j - 1] && rest[j - 1] in multiset(rest);
        if rest[j - 1] != e {
          assert rest[j - 1] in q[1..];
        }
      }
    }
  }

  /** The students whose arrival wake-ups are pending, in the order due. */
  function ArrivalsOf(q: seq<Event>): seq<nat> {
    if q == [] then []
    else (if q[0].wake == Arrive then [q[0].student] else []) + ArrivalsOf(q[1..])
  }

  /** The times at which the students now in service will leave. */
  function LeaveTimes(q: seq<Event>): multiset<int> {
    if q == [] then multiset{}
    else (if q[0].wake == Leave then multiset{q[0].time} else multiset{}) + LeaveTimes(q[1..])
  }

  /** The students now in service. */
  function Leavers(q: seq<Event>): multiset<nat> {
    if q == [] then multiset{}
    else (if q[0].wake == Leave then multiset{q[0].student} else multiset{}) + Leavers(q[1..])
  }

  /** Scheduling a service end adds one leaver and leaves the arrivals alone. */
  lemma InsertLeave(q: seq<Event>, e: Event)
    requires e.wake == Leave
    ensures ArrivalsOf(Insert(q, e)) == ArrivalsOf(q)
    ensures LeaveTimes(Insert(q, e)) == LeaveTimes(q) + multiset{e.time}
    ensures Leavers(Insert(q, e)) == Leavers(q) + multiset{e.student}
  {
    InsertLeaveArrivals(q, e);
    InsertLeaveTimes(q, e);
    InsertLeaveLeavers(q, e);
  }

  lemma {:induction false} InsertLeaveArrivals(q: seq<Event>, e: Event)
    requires e.wake == Leave
    ensures ArrivalsOf(Insert(q, e)) == ArrivalsOf(q)
  {
    var r := Insert(q, e);
    if q != [] && !Before(e, q[0]) {
      InsertLeaveArrivals(q[1..], e);
      assert r[0] == q[0] && r[1..] == Insert(q[1..], e);
    } else {
      assert r[0] == e && r[1..] == q;
    }
  }

  lemma {:induction false} InsertLeaveTimes(q: seq<Event>, e: Event)
    requires e.wake == Leave
    ensures LeaveTimes(Insert(q, e)) == LeaveTimes(q) + multiset{e.time}
  {
    var r := Insert(q, e);
    if q != [] && !Before(e, q[0]) {
      InsertLeaveTimes(q[1..], e);
      assert r[0] == q[0] && r[1..] == Insert(q[1..], e);
    } else {
      assert r[0] == e && r[1..] == q;
    }
  }

  lemma {:induction false} InsertLeaveLeavers(q: seq<Event>, e: Event)
    requires e.wake == Leave
    ensures Leavers(Insert(q, e)) == Leavers(q) + multiset{e.student}
  {
    var r := Insert(q, e);
    if q != [] && !Before(e, q[0]) {
      InsertLeaveLeavers(q[1..], e);
      assert r[0] == q[0] && r[1..] == Insert(q[1..], e);
    } else {
      assert r[0] == e && r[1..] == q;
    }
  }

  /** Scheduling an arrival leaves the service ends alone. */
  lemma {:induction false} InsertArrive(q: seq<Event>, e: Event)
    requires e.wake == Arrive
    ensures LeaveTimes(Insert(q, e)) == LeaveTimes(q)
    ensures Leavers(Insert(q, e)) == Leavers(q)
  {
    var r := Insert(q, e);
    if q != [] && !Before(e, q[0]) {
      InsertArrive(q[1..], e);
      assert r[0] == q[0] && r[1..] == Insert(q[1..], e);
    } else {
      assert r[0] == e && r[1..] == q;
    }
  }

  /** Every pending service end is due no earlier than every bound of the queue. */
  lemma {:induction false} LeaveTimesAtLeast(q: seq<Event>, t: int)
    requires forall i :: 0 <= i < |q| ==> t <= q[i].time
    ensures forall v :: v in LeaveTimes(q) ==> t <= v
  {
    if q != [] {
      LeaveTimesAtLeast(q[1..], t);
    }
  }

  /** A queue with no service ends holds only arrival wake-ups. */
  lemma {:induction false} NoLeavers(q: seq<Event>)
    requires Leavers(q) == multiset{}
    ensures forall i :: 0 <= i < |q| ==> q[i].wake == Arrive
  {
    if q != [] {
      NoLeavers(q[1..]);
      forall i | 0 < i < |q| ensures q[i].wake == Arrive {
        assert q[i] == q[1..][i - 1];
      }
    }
  }
}
