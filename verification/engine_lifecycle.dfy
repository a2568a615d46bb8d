/** The start and the end of a run: a fresh environment satisfies the
    invariant, registering processes before the run keeps it, and when no
    resumption is left every process is done and the records are the
    reference schedule of all the requests. */
module EngineLifecycle {
  import opened Model
  import opened Requests
  import opened Reference
  import opened EventQueue
  import opened EngineState

  /** Nothing has run yet: the clock is at 0, every process waits for its
      arrival, and only arrival wake-ups are pending. */
  predicate Unstarted(e: Env) {
    && e.now == 0 && e.records == [] && e.waitList == [] && e.held == 0
    && Leavers(e.pending) == multiset{}
    && forall i :: 0 <= i < |e.phase| ==> e.phase[i] == AwaitingArrival
  }

  /** Zero counters free at 0, nothing held. */
  lemma StartKeeps(k: nat)
    requires k >= 1
    ensures Inv(Start(k)) && Unstarted(Start(k)) && Start(k).students == [] && Start(k).capacity == k
  {
    EmptyInv(Start(k));
  }

  /** No process, nothing pending: nothing to break. */
  lemma EmptyInv(e: Env)
    requires e.capacity >= 1 && e.now == 0 && e.pending == [] && e.nextOrder == 0 && e.held == 0
    requires e.waitList == [] && e.students == [] && e.phase == [] && e.records == []
    ensures Inv(e) && Unstarted(e)
  {
    assert Shape(e) && QueueOk(e) && StampsOk(e);
    EmptyProgress(e);
    EmptyPool(e);
    EmptyPlan(e);
  }

  lemma EmptyProgress(e: Env)
    requires Shape(e) && e.pending == [] && e.waitList == [] && e.students == [] && e.phase == []
    requires e.records == []
    ensures ProgressOk(e)
  {
    ProgressFresh([], [], [], [], e.now);
  }

  lemma EmptyPool(e: Env)
    requires e.pending == [] && e.held == 0 && e.waitList == [] && e.phase == []
    ensures PoolOk(e)
  {
    NoneHeld([]);
  }

  lemma EmptyPlan(e: Env)
    requires Shape(e) && e.pending == [] && e.records == [] && e.now == 0
    ensures PlanOk(e)
  {
    assert Granted(e) == [];
    ZerosFree(e.capacity, 0);
  }

  /** Counters never used are free by any time from 0 on. */
  lemma ZerosFree(k: nat, now: int)
    requires k >= 1 && now >= 0
    ensures FreeSplit(multiset{}, multiset(Assign([], k).free), now)
  {
    var z := Assign([], k).free;
    forall v | v in multiset(z) ensures v <= now {
      var c :| 0 <= c < |z| && z[c] == v;
    }
  }

  /** Registering a process before the run keeps the invariant; its arrival
      wake-up takes its place by request key among those already pending. */
  lemma RegisterKeeps(e: Env, s: Student)
    requires Inv(e) && Unstarted(e) && s.arrivalSim >= 0
    ensures var e2 := Register(e, s);
      && Inv(e2) && Unstarted(e2) && e2.students == e.students + [s] && e2.capacity == e.capacity
  {
    RegisterQueue(e, s);
    RegisterPending(e, s);
    RegisterArrivals(e, s);
    RegisterProgress(e, s);
    RegisterPlan(e, s);
    RegisterPool(e, s);
  }

  /** A registered process waits for its arrival and holds no counter. */
  lemma RegisterPool(e: Env, s: Student)
    requires Unstarted(e) && Leavers(Register(e, s).pending) == multiset{}
    ensures PoolOk(Register(e, s)) && Unstarted(Register(e, s))
  {
    var phase2 := e.phase + [AwaitingArrival];
    assert forall i :: 0 <= i < |phase2| ==> phase2[i] == AwaitingArrival;
    NoneHeld(phase2);
  }

  lemma NoneHeld(phase: seq<Phase>)
    requires forall i :: 0 <= i < |phase| ==> phase[i] == AwaitingArrival
    ensures HoldersAre(multiset{}, phase)
  {
  }

  /** Registering adds no service end. */
  lemma RegisterPending(e: Env, s: Student)
    requires Unstarted(e)
    ensures Leavers(Register(e, s).pending) == multiset{}
    ensures LeaveTimes(Register(e, s).pending) == multiset{}
  {
    InsertArrive(e.pending, Event(s.arrivalSim, e.nextOrder, |e.students|, Arrive));
    LeaveCount(Register(e, s).pending);
  }

  /** Before the run the arrival wake-ups are pending in request order. */
  lemma RegisterArrivals(e: Env, s: Student)
    requires Shape(e) && QueueOk(e) && ProgressOk(e) && Unstarted(e)
    ensures ArrivalsOf(Register(e, s).pending) == Order(Register(e, s))
  {
    var ev := Event(s.arrivalSim, e.nextOrder, |e.students|, Arrive);
    var ss := e.students + [s];
    NoLeavers(e.pending);
    forall x | 0 <= x < |e.pending|
      ensures e.pending[x].student < |ss|
      ensures e.pending[x].time == ss[e.pending[x].student].arrivalSim
      ensures e.pending[x].order == e.pending[x].student
    {
      assert EventOk(e, e.pending[x]);
    }
    assert Order(e)[0..] == Order(e);
    assert ArrivalsOf(e.pending) == RequestOrder(e.students);
    ArrivalsOfInsert(e.pending, ev, ss);
    RequestOrderSnoc(e.students, s);
  }

  lemma RegisterProgress(e: Env, s: Student)
    requires Shape(e) && Unstarted(e)
    requires ArrivalsOf(Register(e, s).pending) == Order(Register(e, s))
    ensures Shape(Register(e, s)) && ProgressOk(Register(e, s))
  {
    var e2 := Register(e, s);
    ProgressFresh(Order(e2), e2.students, e2.phase, ArrivalsOf(e2.pending), 0);
  }

  /** Before anybody arrives, the request order is the order of the
      arrival wake-ups. */
  lemma ProgressFresh(ord: seq<nat>, ss: seq<Student>, phase: seq<Phase>, arrivals: seq<nat>, now: int)
    requires |ord| == |ss| == |phase| && InBounds(ss, ord) && ord == arrivals
    requires forall i :: 0 <= i < |phase| ==> phase[i] == AwaitingArrival
    ensures ProgressOf(ord, ss, phase, 0, [], arrivals, now)
  {
    assert ord[0..] == ord;
  }

  lemma RegisterPlan(e: Env, s: Student)
    requires Shape(e) && Unstarted(e) && LeaveTimes(Register(e, s).pending) == multiset{}
    ensures Shape(Register(e, s)) && PlanOk(Register(e, s))
  {
    var e2 := Register(e, s);
    assert Granted(e2) == [];
    ZerosFree(e.capacity, 0);
  }

  /** Registering schedules an arrival wake-up with the next sequence
      number, which keeps the queue ordered and valid. */
  lemma RegisterQueue(e: Env, s: Student)
    requires Shape(e) && QueueOk(e) && e.records == [] && s.arrivalSim >= e.now
    ensures QueueOk(Register(e, s))
  {
    var ev := Event(s.arrivalSim, e.nextOrder, |e.students|, Arrive);
    var e2 := Register(e, s);
    forall x | 0 <= x < |e.pending| ensures e.pending[x].order < ev.order {
      assert EventOk(e, e.pending[x]);
    }
    InsertOrdered(e.pending, ev);
    InsertElems(e.pending, ev);
    forall x | 0 <= x < |e2.pending| ensures EventOk(e2, e2.pending[x]) {
      var y := e2.pending[x];
      assert y in multiset(e2.pending);
      if y != ev {
        assert y in multiset(e.pending);
        var k :| 0 <= k < |e.pending| && e.pending[k] == y;
        assert EventOk(e, e.pending[k]);
      }
    }
  }

  /** Before the run every pending resumption is an arrival; scheduling one
      more places its student by request key. */
  lemma {:induction false} ArrivalsOfInsert(q: seq<Event>, ev: Event, ss: seq<Student>)
    requires forall i :: 0 <= i < |q| ==> q[i].wake == Arrive
    requires forall i :: 0 <= i < |q| ==>
               q[i].student < |ss| && q[i].time == ss[q[i].student].arrivalSim && q[i].order == q[i].student
    requires ev.wake == Arrive && ev.student < |ss| && ev.time == ss[ev.student].arrivalSim && ev.order == ev.student
    requires InBounds(ss, ArrivalsOf(q))
    ensures ArrivalsOf(Insert(q, ev)) == InsertByKey(ArrivalsOf(q), ev.student, ss)
  {
    var r := Insert(q, ev);
    if q == [] || Before(ev, q[0]) {
      assert r[0] == ev && r[1..] == q;
    } else {
      var rest := ArrivalsOf(q[1..]);
      assert ArrivalsOf(q) == [q[0].student] + rest;
      assert forall p :: 0 <= p < |rest| ==> rest[p] == ArrivalsOf(q)[p + 1];
      ArrivalsOfInsert(q[1..], ev, ss);
      assert r[0] == q[0] && r[1..] == Insert(q[1..], ev);
    }
  }

  /** When nothing is pending, every process has been served and is done,
      no counter is held, nobody waits, and the records are the reference
      schedule of all the requests, taken in request order. */
  lemma Finished(e: Env)
    requires Inv(e) && e.pending == []
    ensures e.held == 0 && e.waitList == []
    ensures forall i :: 0 <= i < |e.phase| ==> e.phase[i] == Done
    ensures e.records == Schedule(Arrange(e.students, RequestOrder(e.students)), e.capacity)
  {
    FinishedCounts(e);
    FinishedDone(e);
    FinishedRecords(e);
  }

  lemma FinishedDone(e: Env)
    requires Shape(e) && |e.records| == |e.students| && HoldersAre(multiset{}, e.phase)
    requires ProgressOf(Order(e), e.students, e.phase, |e.students|, [], [], e.now)
    ensures forall i :: 0 <= i < |e.phase| ==> e.phase[i] == Done
  {
    OrderFacts(e);
    AllDone(Order(e), e.students, e.phase, e.now);
  }

  lemma FinishedRecords(e: Env)
    requires Shape(e) && RecordsOk(e) && |e.records| == |e.students|
    ensures e.records == Schedule(Arrange(e.students, RequestOrder(e.students)), e.capacity)
  {
    assert Order(e)[..|e.records|] == Order(e);
  }

  /** With nothing pending, nobody holds a counter, nobody waits and every
      request has been granted. */
  lemma FinishedCounts(e: Env)
    requires Shape(e) && ProgressOk(e) && PoolOk(e) && e.pending == []
    ensures e.held == 0 && e.waitList == [] && |e.records| == |e.students|
    ensures HoldersAre(multiset{}, e.phase)
    ensures ProgressOf(Order(e), e.students, e.phase, |e.students|, [], [], e.now)
  {
    assert Order(e)[Arrived(e)..] == [];
  }

  /** Once every request has been granted and nobody is in service, every
      process is done. */
  lemma AllDone(ord: seq<nat>, ss: seq<Student>, phase: seq<Phase>, now: int)
    requires |ord| == |ss| == |phase| && InBounds(ss, ord)
    requires ProgressOf(ord, ss, phase, |ord|, [], [], now) && HoldersAre(multiset{}, phase)
    requires forall i :: 0 <= i < |ss| ==> i in ord
    ensures forall i :: 0 <= i < |phase| ==> phase[i] == Done
  {
    forall i | 0 <= i < |phase| ensures phase[i] == Done {
      assert i in ord;
      var p :| 0 <= p < |ord| && ord[p] == i;
      assert multiset{}[i] == 0;
    }
  }

  /** The processes in service, in process order. */
  function Serving(phase: seq<Phase>): (r: seq<nat>)
    ensures forall p :: 0 <= p < |r| ==> r[p] < |phase|
  {
    if phase == [] then []
    else
      var init := phase[..|phase| - 1];
      Serving(init) + (if phase[|phase| - 1] == InService then [|phase| - 1] else [])
  }

  /** Each process in service is listed once, and no other. */
  lemma {:induction false} ServingCount(phase: seq<Phase>, i: nat)
    ensures multiset(Serving(phase))[i] == if i < |phase| && phase[i] == InService then 1 else 0
    decreases |phase|
  {
    if phase != [] {
      var last: nat := |phase| - 1;
      var init := phase[..last];
      ServingCount(init, i);
      if phase[last] == InService {
        assert Serving(phase) == Serving(init) + [last];
        assert multiset(Serving(phase)) == multiset(Serving(init)) + multiset{last};
      } else {
        assert Serving(phase) == Serving(init);
      }
      if i < last {
        assert init[i] == phase[i];
      }
    }
  }

  /** The processes in service are exactly the holders of a counter. */
  lemma ServingAreHolders(leavers: multiset<nat>, phase: seq<Phase>)
    requires HoldersAre(leavers, phase)
    ensures multiset(Serving(phase)) == leavers
  {
    forall i: nat ensures multiset(Serving(phase))[i] == leavers[i] {
      ServingCount(phase, i);
      if i >= |phase| {
        assert i !in leavers;
      }
    }
  }

  /** At every moment at most `capacity` processes are in service. */
  lemma AtMostCapacityServing(e: Env)
    requires Inv(e)
    ensures |Serving(e.phase)| == e.held <= e.capacity
  {
    ServingAreHolders(Leavers(e.pending), e.phase);
  }
}
