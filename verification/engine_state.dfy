/** The state of one scenario run as a value: the simulation clock, the
    ordered list of pending resumptions, the pool of counters (held count and
    FIFO wait list), the per-student processes and the shared record list;
    the steps the environment takes on it; and the invariant every step
    keeps, which says in particular that the records emitted so far are the
    reference schedule (reference.dfy) of the requests granted so far.

    A student process waits until its arrival offset, asks for a counter, is
    granted one at once if fewer than `capacity` are held and is otherwise
    queued; when granted it appends its record (service start = the clock,
    wait = clock - request time) and holds the counter for its service time;
    on leaving it hands the counter to the longest-waiting student, or frees
    it when nobody waits. */
module EngineState {
  import opened Model
  import opened Requests
  import opened Reference
  import opened EventQueue

  /** Where a student process is suspended; a process waiting for a counter
      keeps the time it asked for one. */
  datatype Phase = AwaitingArrival | AwaitingCounter(tReq: int) | InService | Done

  /** One run's environment, counter pool, processes and records. Process i
      serves students[i] and is at phase[i]. */
  datatype Env = Env(capacity: nat, now: int, pending: seq<Event>, nextOrder: nat, held: int,
                     waitList: seq<nat>, students: seq<Student>, phase: seq<Phase>,
                     records: seq<Record>)

  /** The order in which the registered students ask for a counter. */
  function Order(e: Env): (r: seq<nat>)
    ensures |r| == |e.students| && InBounds(e.students, r)
  {
    RequestOrder(e.students)
  }

  /** Number of processes that have asked for a counter. */
  function Arrived(e: Env): nat { |e.records| + |e.waitList| }

  /** Steps left before the run ends: each process is resumed once on
      arrival and once on leaving. */
  function Remaining(e: Env): int {
    2 * |e.students| - 2 * |e.records| - |e.waitList| + e.held
  }

  predicate Shape(e: Env) {
    && e.capacity >= 1 && 0 <= e.held <= e.capacity && e.now >= 0
    && |e.phase| == |e.students|
    && e.nextOrder == |e.students| + |e.records|
    && Arrived(e) <= |e.students|
  }

  /** The requests granted so far, in the order they were granted. */
  function Granted(e: Env): (r: seq<Student>)
    requires Shape(e)
    ensures |r| == |e.records|
  {
    Arrange(e.students, Order(e)[..|e.records|])
  }

  /** The reference placement of the requests granted so far. */
  function CurrentPlan(e: Env): Plan
    requires Shape(e)
  {
    Assign(Granted(e), e.capacity)
  }

  /** The free times of the counters nobody holds. */
  function Idle(e: Env): multiset<int>
    requires Shape(e)
  {
    multiset(CurrentPlan(e).free) - LeaveTimes(e.pending)
  }

  /** A pending resumption is never in the past, was numbered before the next
      one, belongs to a registered process, and an arrival wake-up is due at
      the student's arrival offset with the process's registration number. */
  predicate EventOk(e: Env, ev: Event) {
    && e.now <= ev.time && ev.order < e.nextOrder && ev.student < |e.students|
    && (ev.wake == Arrive ==>
          ev.time == e.students[ev.student].arrivalSim && ev.order == ev.student)
  }

  predicate QueueOk(e: Env) {
    Ordered(e.pending) && forall k :: 0 <= k < |e.pending| ==> EventOk(e, e.pending[k])
  }

  /** Requests are made in request order: those granted, then those
      waiting, then those not yet arrived. */
  predicate ProgressOk(e: Env)
    requires Shape(e)
  {
    ProgressOf(Order(e), e.students, e.phase, |e.records|, e.waitList, ArrivalsOf(e.pending), e.now)
  }

  /** With `ord` the request order, the first n requests have been granted
      (those processes are in service or done), the next ones wait in `wl`
      since their arrival, and the rest, whose arrival wake-ups are pending
      in the order `arrivals`, have not arrived yet. */
  predicate ProgressOf(ord: seq<nat>, ss: seq<Student>, phase: seq<Phase>, n: nat, wl: seq<nat>,
                       arrivals: seq<nat>, now: int)
    requires |ord| == |ss| == |phase| && InBounds(ss, ord) && n + |wl| <= |ord|
  {
    var a := n + |wl|;
    && ord[a..] == arrivals
    && wl == ord[n..a]
    && (forall p :: a <= p < |ord| ==> phase[ord[p]] == AwaitingArrival)
    && (forall w :: 0 <= w < |wl| ==>
          phase[wl[w]] == AwaitingCounter(ss[wl[w]].arrivalSim) && ss[wl[w]].arrivalSim <= now)
    && (forall p :: 0 <= p < n ==> phase[ord[p]] == InService || phase[ord[p]] == Done)
  }

  /** One pending service end per student in service; those hold the
      counters, and nobody waits while a counter is free. */
  predicate PoolOk(e: Env) {
    && HoldersAre(Leavers(e.pending), e.phase)
    && e.held == |Leavers(e.pending)|
    && (e.waitList != [] ==> e.held == e.capacity)
  }

  /** The processes with a pending service end are, once each, those in
      service. */
  predicate HoldersAre(leavers: multiset<nat>, phase: seq<Phase>) {
    && (forall x :: x in leavers ==> x < |phase|)
    && (forall i :: 0 <= i < |phase| ==> leavers[i] == if phase[i] == InService then 1 else 0)
  }

  /** The records are the reference schedule of the requests granted so
      far. */
  predicate RecordsOk(e: Env)
    requires Shape(e)
  {
    e.records == Schedule(Granted(e), e.capacity)
  }

  /** Of the counters' free times `free`, those of the counters in service
      are the pending service ends `leaves`, and the others are no later than
      `now`. */
  predicate FreeSplit(leaves: multiset<int>, free: multiset<int>, now: int) {
    leaves <= free && forall v :: v in free - leaves ==> v <= now
  }

  /** The counters in service are free when their holders leave, and the
      other counters became free no later than now. */
  predicate FreeOk(e: Env)
    requires Shape(e)
  {
    FreeSplit(LeaveTimes(e.pending), multiset(CurrentPlan(e).free), e.now)
  }

  predicate PlanOk(e: Env)
    requires Shape(e)
  {
    RecordsOk(e) && FreeOk(e)
  }

  /** Records are stamped with a clock that never goes back. */
  predicate StampsOk(e: Env) {
    && (forall p :: 0 <= p < |e.records| ==> e.records[p].serviceStart <= e.now)
    && (forall p, q :: 0 <= p <= q < |e.records| ==>
          e.records[p].serviceStart <= e.records[q].serviceStart)
  }

  predicate Inv(e: Env) {
    Shape(e) && QueueOk(e) && ProgressOk(e) && PoolOk(e) && PlanOk(e) && StampsOk(e)
  }

  // ---------------------------------------------------------------------
  // The steps

  /** A fresh environment with `k` free counters at time 0. */
  function Start(k: nat): Env { Env(k, 0, [], 0, 0, [], [], [], []) }

  /** Registers the process of student `s`: it first waits until the
      student's arrival offset. Clock, pool and records are untouched. */
  function Register(e: Env, s: Student): (r: Env)
    ensures r.students == e.students + [s] && r.phase == e.phase + [AwaitingArrival]
    ensures && r.pending == Insert(e.pending, Event(s.arrivalSim, e.nextOrder, |e.students|, Arrive))
            && r.nextOrder == e.nextOrder + 1
    ensures && r.capacity == e.capacity && r.now == e.now && r.held == e.held
            && r.waitList == e.waitList && r.records == e.records
  {
    e.(pending := Insert(e.pending, Event(s.arrivalSim, e.nextOrder, |e.students|, Arrive)),
       nextOrder := e.nextOrder + 1,
       students := e.students + [s],
       phase := e.phase + [AwaitingArrival])
  }

  /** Process i, granted a counter, appends its record stamped with the clock
      and holds the counter for its service time. */
  function Grant(e: Env, i: nat, tReq: int): (r: Env)
    requires i < |e.students| && i < |e.phase|
    ensures && |r.records| == |e.records| + 1 && r.records[..|e.records|] == e.records
            && r.records[|e.records|].studentId == e.students[i].id
            && r.records[|e.records|].serviceStart == e.now
            && r.records[|e.records|].waitSec == e.now - tReq
    ensures r.phase == e.phase[i := InService]
    ensures && r.pending == Insert(e.pending, Event(e.now + e.students[i].serviceTime, e.nextOrder, i, Leave))
            && r.nextOrder == e.nextOrder + 1
    ensures && r.capacity == e.capacity && r.now == e.now && r.held == e.held
            && r.waitList == e.waitList && r.students == e.students
  {
    var s := e.students[i];
    e.(phase := e.phase[i := InService],
       records := e.records + [Record(s.id, s.arrivalTime, e.now, e.now - tReq, s.serviceTime)],
       pending := Insert(e.pending, Event(e.now + s.serviceTime, e.nextOrder, i, Leave)),
       nextOrder := e.nextOrder + 1)
  }

  /** The head of the pending list can be resumed as an arrival. */
  predicate ArriveEnabled(e: Env) {
    e.pending != [] && e.pending[0].student < |e.students| && |e.phase| == |e.students|
  }

  /** The arrival wake-up at the head fires: the process asks for a counter
      and is granted one at once if one is free, or joins the end of the
      wait list. */
  function ArriveStep(e: Env): (r: Env)
    requires ArriveEnabled(e)
    ensures && r.now == e.pending[0].time && r.capacity == e.capacity
            && r.students == e.students && |r.phase| == |e.phase| && e.records <= r.records
    ensures e.held < e.capacity ==>
              && r.held == e.held + 1 && r.waitList == e.waitList
              && |r.records| == |e.records| + 1
              && r.records[|e.records|].serviceStart == e.pending[0].time
              && r.records[|e.records|].waitSec == 0
              && r.phase[e.pending[0].student] == InService
    ensures e.held >= e.capacity ==>
              && r.held == e.held && r.waitList == e.waitList + [e.pending[0].student]
              && r.records == e.records
              && r.phase[e.pending[0].student] == AwaitingCounter(e.pending[0].time)
  {
    var ev := e.pending[0];
    var e1 := e.(pending := e.pending[1..], now := ev.time);
    if e.held < e.capacity then Grant(e1.(held := e.held + 1), ev.student, ev.time)
    else e1.(phase := e.phase[ev.student := AwaitingCounter(ev.time)],
             waitList := e.waitList + [ev.student])
  }

  /** The head of the pending list can be resumed as a service end. */
  predicate LeaveEnabled(e: Env) {
    && e.pending != [] && e.pending[0].student < |e.phase| && |e.phase| == |e.students|
    && (e.waitList != [] ==> e.waitList[0] < |e.students| && e.phase[e.waitList[0]].AwaitingCounter?)
  }

  /** The service end at the head fires: the process leaves, and its counter
      passes to the longest-waiting process or, when nobody waits, is
      freed. */
  function LeaveStep(e: Env): (r: Env)
    requires LeaveEnabled(e)
    ensures && r.now == e.pending[0].time && r.capacity == e.capacity
            && r.students == e.students && |r.phase| == |e.phase| && e.records <= r.records
    ensures e.waitList != [] ==>
              && r.held == e.held && r.waitList == e.waitList[1..]
              && |r.records| == |e.records| + 1
              && r.records[|e.records|].studentId == e.students[e.waitList[0]].id
              && r.records[|e.records|].serviceStart == e.pending[0].time
              && r.records[|e.records|].waitSec == e.pending[0].time - e.phase[e.waitList[0]].tReq
              && r.phase[e.waitList[0]] == InService
    ensures e.waitList == [] ==>
              && r.held == e.held - 1 && r.waitList == [] && r.records == e.records
              && r.phase[e.pending[0].student] == Done
  {
    var ev := e.pending[0];
    var e1 := e.(pending := e.pending[1..], now := ev.time, phase := e.phase[ev.student := Done]);
    if e.waitList != [] then
      var h := e.waitList[0];
      Grant(e1.(waitList := e.waitList[1..]), h, e.phase[h].tReq)
    else e1.(held := e.held - 1)
  }

  /** An arrival wake-up is at the head: its process is the next to ask
      for a counter, it is due at the student's arrival offset, and it is no
      service end. */
  predicate ArrivalDue(e: Env) {
    && e.pending != [] && e.pending[0].wake == Arrive
    && |e.phase| == |e.students| && Arrived(e) < |e.students|
    && var i := e.pending[0].student;
    && i < |e.students|
    && Order(e)[Arrived(e)] == i
    && Order(e)[Arrived(e) + 1..] == ArrivalsOf(e.pending[1..])
    && LeaveTimes(e.pending[1..]) == LeaveTimes(e.pending)
    && Leavers(e.pending[1..]) == Leavers(e.pending)
    && e.phase[i] == AwaitingArrival
    && e.pending[0].time == e.students[i].arrivalSim
    && e.now <= e.pending[0].time
  }

  lemma ArriveHead(e: Env)
    requires Shape(e) && QueueOk(e) && ProgressOk(e)
    requires e.pending != [] && e.pending[0].wake == Arrive
    ensures ArrivalDue(e)
  {
    HeadFacts(e.pending);
    assert EventOk(e, e.pending[0]);
    var a := Arrived(e);
    var ord := Order(e);
    assert ord[a..] == [e.pending[0].student] + ArrivalsOf(e.pending[1..]);
    assert ord[a..][0] == ord[a];
    assert ord[a + 1..] == ord[a..][1..];
  }

  /** A service end is at the head: its process is in service and holds a
      counter, and a process waiting at the head of the wait list is another
      one. */
  predicate LeaveDue(e: Env) {
    && e.pending != [] && e.pending[0].wake == Leave
    && |e.phase| == |e.students|
    && var j := e.pending[0].student;
    && j < |e.students| && e.phase[j] == InService && e.held > 0
    && ArrivalsOf(e.pending[1..]) == ArrivalsOf(e.pending)
    && LeaveTimes(e.pending) == LeaveTimes(e.pending[1..]) + multiset{e.pending[0].time}
    && Leavers(e.pending) == Leavers(e.pending[1..]) + multiset{j}
    && e.now <= e.pending[0].time
    && (e.waitList != [] ==>
          && e.waitList[0] < |e.students|
          && e.phase[e.waitList[0]] == AwaitingCounter(e.students[e.waitList[0]].arrivalSim)
          && e.waitList[0] != j)
  }

  lemma LeaveHead(e: Env)
    requires Shape(e) && QueueOk(e) && ProgressOk(e) && PoolOk(e)
    requires e.pending != [] && e.pending[0].wake == Leave
    ensures LeaveDue(e)
  {
    HeadFacts(e.pending);
    assert EventOk(e, e.pending[0]);
    var j := e.pending[0].student;
    assert Leavers(e.pending)[j] >= 1;
  }

  // ---------------------------------------------------------------------
  // Facts used by every step

  lemma OrderFacts(e: Env)
    ensures Distinct(Order(e))
    ensures forall i :: 0 <= i < |e.students| ==> i in Order(e)
  {
    RequestOrderCharacterised(e.students);
    PermutationOfRange(Order(e), |e.students|);
  }

  /** As many service ends as students in service. */
  lemma {:induction false} LeaveCount(q: seq<Event>)
    ensures |LeaveTimes(q)| == |Leavers(q)|
  {
    if q != [] {
      LeaveCount(q[1..]);
    }
  }

  lemma HeadFacts(q: seq<Event>)
    requires q != []
    ensures q[0].wake == Arrive ==>
      ArrivalsOf(q) == [q[0].student] + ArrivalsOf(q[1..])
      && LeaveTimes(q) == LeaveTimes(q[1..]) && Leavers(q) == Leavers(q[1..])
    ensures q[0].wake == Leave ==>
      ArrivalsOf(q) == ArrivalsOf(q[1..])
      && LeaveTimes(q) == LeaveTimes(q[1..]) + multiset{q[0].time}
      && Leavers(q) == Leavers(q[1..]) + multiset{q[0].student}
  {
  }

  /** The resumptions behind the head are due no earlier than it. */
  lemma PendingAfterHead(q: seq<Event>)
    requires Ordered(q) && q != []
    ensures Ordered(q[1..])
    ensures forall k :: 0 <= k < |q| ==> q[0].time <= q[k].time
  {
  }

  /** Every pending service end is due no earlier than the head. */
  lemma ServiceEndsAfterHead(e: Env)
    requires QueueOk(e) && e.pending != []
    ensures forall v :: v in LeaveTimes(e.pending) ==> e.pending[0].time <= v
  {
    PendingAfterHead(e.pending);
    LeaveTimesAtLeast(e.pending, e.pending[0].time);
  }

  /** When some counter is free now, the earliest-free counter is one of the
      free ones. */
  lemma EarliestIsIdle(p: Plan, leaves: multiset<int>, idle: multiset<int>, now: int)
    requires |p.free| > 0 && multiset(p.free) == leaves + idle && |idle| > 0
    requires forall v :: v in idle ==> v <= now
    requires forall v :: v in leaves ==> now <= v
    ensures EarliestFree(p) in idle && EarliestFree(p) <= now
  {
    if forall v :: v !in idle {
      assert false;
    }
    var v :| v in idle;
    assert v in multiset(p.free);
    var m :| 0 <= m < |p.free| && p.free[m] == v;
    assert p.free[ArgMin(p.free)] in multiset(p.free);
  }

  /** When every counter is held and one is released now, the earliest free
      time is now. */
  lemma EarliestIsNow(p: Plan, leaves: multiset<int>, now: int)
    requires |p.free| > 0 && multiset(p.free) == leaves && now in leaves
    requires forall v :: v in leaves ==> now <= v
    ensures EarliestFree(p) == now
  {
    assert now in multiset(p.free);
    var m :| 0 <= m < |p.free| && p.free[m] == now;
    assert p.free[ArgMin(p.free)] in multiset(p.free);
  }
}
