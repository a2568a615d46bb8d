/** Every step of the engine keeps the invariant of engine_state.dfy and
    brings the run closer to its end. Each lemma asks only for the parts of
    the invariant it needs. */
module EngineProofs {
  import opened Model
  import opened Requests
  import opened Reference
  import opened EventQueue
  import opened EngineState

  // ---------------------------------------------------------------------
  // Pieces shared by the steps

  /** Taking the head off the queue and moving the clock to it keeps every
      remaining resumption valid. */
  lemma PopQueue(e: Env, e1: Env)
    requires QueueOk(e) && e.pending != []
    requires e1.pending == e.pending[1..] && e1.now == e.pending[0].time
    requires e1.nextOrder == e.nextOrder && e1.students == e.students
    ensures QueueOk(e1)
  {
    PendingAfterHead(e.pending);
    forall k | 0 <= k < |e1.pending| ensures EventOk(e1, e1.pending[k]) {
      assert e1.pending[k] == e.pending[k + 1];
      assert EventOk(e, e.pending[k + 1]);
    }
  }

  /** Scheduling the service end of a granted process keeps the queue
      valid. */
  lemma GrantQueue(e: Env, i: nat, tReq: int)
    requires QueueOk(e) && i < |e.students| && i < |e.phase|
    ensures QueueOk(Grant(e, i, tReq))
  {
    var ev := Event(e.now + e.students[i].serviceTime, e.nextOrder, i, Leave);
    forall x | 0 <= x < |e.pending| ensures e.pending[x].order < ev.order {
      assert EventOk(e, e.pending[x]);
    }
    InsertOrdered(e.pending, ev);
    var e2 := Grant(e, i, tReq);
    assert e2.pending == Insert(e.pending, ev);
    InsertElems(e.pending, ev);
    forall x | 0 <= x < |e2.pending| ensures EventOk(e2, e2.pending[x]) {
      var y := e2.pending[x];
      assert y in multiset(e2.pending);
      if y != ev {
        assert y in multiset(e.pending);
        var k :| 0 <= k < |e.pending| && e.pending[k] == y;
        assert EventOk(e, e.pending[k]);
      }
    }
  }

    /** `e2` is `e` after the next request in request order, that of `s`,
      was granted at time t, no earlier than its arrival. */
  predicate NextGranted(e: Env, e2: Env, s: Student, t: int)
    requires Shape(e)
  {
    && |e.records| < |e.students| && s == e.students[Order(e)[|e.records|]]
    && s.arrivalSim <= t && e.now <= t
    && Shape(e2) && e2.students == e.students && e2.capacity == e.capacity && e2.now == t
    && e2.records == e.records + [RecordOf(s, t)]
  }

  /** The reference placement moved the counter free at x to y. */
  predicate FreeMoved(e: Env, e2: Env, x: int, y: int)
    requires Shape(e) && Shape(e2)
  {
    FreeShift(CurrentPlan(e).free, CurrentPlan(e2).free, x, y)
  }

  /** Granting the next request at a time by which some counter is free is
      what the reference placement does: the records stay its schedule, and
      the earliest-free counter becomes busy until the new service ends. */
  lemma GrantPlan(e: Env, e2: Env, s: Student, t: int, x: int, y: int)
    requires Shape(e) && RecordsOk(e) && NextGranted(e, e2, s, t)
    requires x == EarliestFree(CurrentPlan(e)) && t == Max(s.arrivalSim, x) && y == t + s.serviceTime
    ensures RecordsOk(e2) && FreeMoved(e, e2, x, y)
  {
    GrantedSnoc(e, e2);
    PlaceOne(Granted(e), s, e.capacity, x, t, y);
  }

  /** One more record means one more request granted: the next in request
      order. */
  lemma GrantedSnoc(e: Env, e2: Env)
    requires Shape(e) && Shape(e2) && e2.students == e.students
    requires |e2.records| == |e.records| + 1
    ensures Granted(e2) == Granted(e) + [e.students[Order(e)[|e.records|]]]
  {
    assert Order(e2) == Order(e);
    ArrangeSnoc(e.students, Order(e), |e.records|);
  }

  /** The counters' free times split into those of the counters held and
      those of the others, of which there are as many as counters not
      held. */
  lemma IdleCount(e: Env)
    requires Shape(e) && PoolOk(e) && FreeOk(e)
    ensures multiset(CurrentPlan(e).free) == LeaveTimes(e.pending) + Idle(e)
    ensures |Idle(e)| == e.capacity - e.held
  {
    LeaveCount(e.pending);
  }

  // ---------------------------------------------------------------------
  // An arrival wake-up

  /** The fields of the state after an arrival wake-up, one by one. */
  lemma ArriveFields(e: Env)
    requires ArriveEnabled(e)
    ensures var e2 := ArriveStep(e);
      var ev := e.pending[0];
      var s := e.students[ev.student];
      && e2.capacity == e.capacity && e2.students == e.students && e2.now == ev.time
      && (e.held < e.capacity ==>
            && e2.held == e.held + 1 && e2.waitList == e.waitList
            && e2.phase == e.phase[ev.student := InService]
            && e2.records == e.records + [Record(s.id, s.arrivalTime, ev.time, 0, s.serviceTime)]
            && e2.pending == Insert(e.pending[1..], Event(ev.time + s.serviceTime, e.nextOrder, ev.student, Leave))
            && e2.nextOrder == e.nextOrder + 1)
      && (e.held >= e.capacity ==>
            && e2.held == e.held && e2.waitList == e.waitList + [ev.student]
            && e2.phase == e.phase[ev.student := AwaitingCounter(ev.time)]
            && e2.records == e.records && e2.pending == e.pending[1..]
            && e2.nextOrder == e.nextOrder)
  {
  }

  /** The pending resumptions after an arrival wake-up: a granted process
      adds its service end. */
  lemma ArrivePending(e: Env)
    requires ArrivalDue(e)
    ensures var e2 := ArriveStep(e);
      var ev := e.pending[0];
      && ArrivalsOf(e2.pending) == ArrivalsOf(e.pending[1..])
      && (e.held < e.capacity ==>
            && LeaveTimes(e2.pending) == LeaveTimes(e.pending) + multiset{ev.time + e.students[ev.student].serviceTime}
            && Leavers(e2.pending) == Leavers(e.pending) + multiset{ev.student})
      && (e.held >= e.capacity ==>
            LeaveTimes(e2.pending) == LeaveTimes(e.pending) && Leavers(e2.pending) == Leavers(e.pending))
  {
    if e.held < e.capacity {
      ArrivePendingGrant(e);
    } else {
      assert ArriveStep(e).pending == e.pending[1..];
    }
  }

  lemma ArrivePendingGrant(e: Env)
    requires ArriveEnabled(e) && e.held < e.capacity
    ensures var e2 := ArriveStep(e);
      var ev := e.pending[0];
      && ArrivalsOf(e2.pending) == ArrivalsOf(e.pending[1..])
      && LeaveTimes(e2.pending) == LeaveTimes(e.pending[1..]) + multiset{ev.time + e.students[ev.student].serviceTime}
      && Leavers(e2.pending) == Leavers(e.pending[1..]) + multiset{ev.student}
  {
    var r, lv := ArriveGrantQueue(e);
    LeaveAdded(e.pending[1..], r, lv);
  }

  /** The pending list after a granted arrival, as a value. */
  lemma ArriveGrantQueue(e: Env) returns (r: seq<Event>, lv: Event)
    requires ArriveEnabled(e) && e.held < e.capacity
    ensures r == ArriveStep(e).pending && lv.wake == Leave && r == Insert(e.pending[1..], lv)
    ensures lv.time == e.pending[0].time + e.students[e.pending[0].student].serviceTime
    ensures lv.student == e.pending[0].student
  {
    var ev := e.pending[0];
    lv := Event(ev.time + e.students[ev.student].serviceTime, e.nextOrder, ev.student, Leave);
    r := ArriveStep(e).pending;
  }

  /** `r` is `q` with the service end `lv` scheduled. */
  lemma LeaveAdded(q: seq<Event>, r: seq<Event>, lv: Event)
    requires lv.wake == Leave && r == Insert(q, lv)
    ensures ArrivalsOf(r) == ArrivalsOf(q)
    ensures LeaveTimes(r) == LeaveTimes(q) + multiset{lv.time}
    ensures Leavers(r) == Leavers(q) + multiset{lv.student}
  {
    InsertLeave(q, lv);
  }

  /** The request an arrival makes is the next one in request order. */
  lemma ArriveShape(e: Env)
    requires Shape(e) && PoolOk(e) && ArrivalDue(e)
    ensures var e2 := ArriveStep(e);
      && Shape(e2) && e2.students == e.students && e2.capacity == e.capacity
      && e.now <= e2.now && 0 <= Remaining(e2) < Remaining(e)
  {
    ArriveFields(e);
  }

  /** With a counter free, an arrival is granted at once. */
  lemma ArriveIsGrant(e: Env)
    requires ArrivalDue(e) && e.held < e.capacity
    ensures var ev := e.pending[0];
      ArriveStep(e) == Grant(e.(pending := e.pending[1..], now := ev.time, held := e.held + 1), ev.student, ev.time)
  {
  }

  lemma ArriveQueue(e: Env)
    requires QueueOk(e) && ArrivalDue(e)
    ensures QueueOk(ArriveStep(e))
  {
    var ev := e.pending[0];
    if e.held < e.capacity {
      var e1 := e.(pending := e.pending[1..], now := ev.time, held := e.held + 1);
      PopQueue(e, e1);
      GrantQueue(e1, ev.student, ev.time);
      ArriveIsGrant(e);
    } else {
      ArriveFields(e);
      PopQueue(e, ArriveStep(e));
    }
  }

  lemma ArriveProgress(e: Env)
    requires Shape(e) && ProgressOk(e) && PoolOk(e) && ArrivalDue(e)
    ensures Shape(ArriveStep(e)) && ProgressOk(ArriveStep(e))
  {
    if e.held < e.capacity {
      ArriveProgressNow(e);
    } else {
      ArriveProgressQueued(e);
    }
  }

  lemma ArriveProgressNow(e: Env)
    requires Shape(e) && ProgressOk(e) && ArrivalDue(e) && e.held < e.capacity && e.waitList == []
    ensures Shape(ArriveStep(e)) && ProgressOk(ArriveStep(e))
  {
    var e2, ss, ord, n, phase2 := ArriveNowFacts(e);
    ProgressFrom(e, ord, ss, n, [], ord[n..]);
    ProgressArriveNow(ord, ss, e.phase, phase2, n, e.now, e2.now);
    ProgressTo(e2, ord, ss, phase2, n + 1, [], ord[n + 1..]);
  }

  lemma ArriveProgressQueued(e: Env)
    requires Shape(e) && ProgressOk(e) && ArrivalDue(e) && e.held >= e.capacity
    ensures Shape(ArriveStep(e)) && ProgressOk(ArriveStep(e))
  {
    var e2, ss, ord, n, i, phase2 := ArriveQueuedFacts(e);
    var wl := e.waitList;
    ProgressFrom(e, ord, ss, n, wl, ord[n + |wl|..]);
    ProgressArriveQueued(ord, ss, e.phase, phase2, n, wl, i, e.now, e2.now);
    ProgressTo(e2, ord, ss, phase2, n, wl + [i], ord[n + |wl| + 1..]);
  }

  /** The progress of `e`, with its parts named. */
  lemma ProgressFrom(e: Env, ord: seq<nat>, ss: seq<Student>, n: nat, wl: seq<nat>, arrivals: seq<nat>)
    requires Shape(e) && ProgressOk(e)
    requires ord == Order(e) && ss == e.students && n == |e.records| && wl == e.waitList
    requires arrivals == ArrivalsOf(e.pending)
    ensures ProgressOf(ord, ss, e.phase, n, wl, arrivals, e.now)
  {
  }

  /** Progress of the parts of `e2` is the progress of `e2`. */
  lemma ProgressTo(e2: Env, ord: seq<nat>, ss: seq<Student>, phase2: seq<Phase>, n: nat, wl: seq<nat>,
                   arrivals: seq<nat>)
    requires Shape(e2) && ord == Order(e2) && ss == e2.students && phase2 == e2.phase
    requires n == |e2.records| && wl == e2.waitList && arrivals == ArrivalsOf(e2.pending)
    requires ProgressOf(ord, ss, phase2, n, wl, arrivals, e2.now)
    ensures ProgressOk(e2)
  {
  }

  /** A granted arrival is the next request in request order and nobody
      waits. */
  lemma ArriveNowFacts(e: Env) returns (e2: Env, ss: seq<Student>, ord: seq<nat>, n: nat, phase2: seq<Phase>)
    requires Shape(e) && ArrivalDue(e) && e.held < e.capacity && e.waitList == []
    ensures e2 == ArriveStep(e) && Shape(e2) && ss == e.students && e2.students == ss
    ensures ord == Order(e) && ord == Order(e2) && Distinct(ord)
    ensures n == |e.records| && n < |ord| && |e2.records| == n + 1 && e2.waitList == []
    ensures phase2 == e.phase[ord[n] := InService] && e2.phase == phase2
    ensures ArrivalsOf(e.pending) == ord[n..] && ArrivalsOf(e2.pending) == ord[n + 1..]
    ensures e.now <= e2.now
  {
    var a;
    ord, a := ArrivalOrder(e);
    ss, n := e.students, |e.records|;
    assert a == n;
    e2 := ArriveNowStep(e);
    phase2 := e2.phase;
  }

  /** A queued arrival is the next request in request order after those
      already waiting. */
  lemma ArriveQueuedFacts(e: Env) returns (e2: Env, ss: seq<Student>, ord: seq<nat>, n: nat, i: nat, phase2: seq<Phase>)
    requires Shape(e) && ArrivalDue(e) && e.held >= e.capacity
    ensures e2 == ArriveStep(e) && Shape(e2) && ss == e.students && e2.students == ss
    ensures ord == Order(e) && ord == Order(e2) && Distinct(ord)
    ensures n == |e.records| && n + |e.waitList| < |ord| && i == ord[n + |e.waitList|]
    ensures |e2.records| == n && e2.waitList == e.waitList + [i]
    ensures phase2 == e.phase[i := AwaitingCounter(ss[i].arrivalSim)] && e2.phase == phase2
    ensures ArrivalsOf(e.pending) == ord[n + |e.waitList|..]
    ensures ArrivalsOf(e2.pending) == ord[n + |e.waitList| + 1..]
    ensures e.now <= e2.now && ss[i].arrivalSim <= e2.now
  {
    var a;
    ord, a := ArrivalOrder(e);
    e2 := ArriveQueuedStep(e);
    ss, n, i := e.students, |e.records|, e.pending[0].student;
    phase2 := e2.phase;
  }

  /** The arrival due is the next request, in request order, after those
      granted or waiting. */
  lemma ArrivalOrder(e: Env) returns (ord: seq<nat>, a: nat)
    requires ArrivalDue(e)
    ensures ord == Order(e) && Distinct(ord) && a == Arrived(e) && a < |ord|
    ensures ord[a] == e.pending[0].student
    ensures ArrivalsOf(e.pending) == ord[a..] && ArrivalsOf(e.pending[1..]) == ord[a + 1..]
  {
    OrderFacts(e);
    ord, a := Order(e), Arrived(e);
    ArrivalsAtHead(e.pending, ord, a);
  }

  /** The state after a granted arrival, field by field. */
  lemma ArriveNowStep(e: Env) returns (e2: Env)
    requires Shape(e) && ArrivalDue(e) && e.held < e.capacity
    ensures e2 == ArriveStep(e) && Shape(e2) && e2.students == e.students && Order(e2) == Order(e)
    ensures |e2.records| == |e.records| + 1 && e2.waitList == e.waitList
    ensures e2.phase == e.phase[e.pending[0].student := InService]
    ensures ArrivalsOf(e2.pending) == ArrivalsOf(e.pending[1..]) && e.now <= e2.now
  {
    ArriveFields(e);
    ArrivePendingGrant(e);
    e2 := ArriveStep(e);
  }

  /** The state after a queued arrival, field by field. */
  lemma ArriveQueuedStep(e: Env) returns (e2: Env)
    requires Shape(e) && ArrivalDue(e) && e.held >= e.capacity
    ensures e2 == ArriveStep(e) && Shape(e2) && e2.students == e.students && Order(e2) == Order(e)
    ensures |e2.records| == |e.records| && e2.waitList == e.waitList + [e.pending[0].student]
    ensures e2.phase == e.phase[e.pending[0].student := AwaitingCounter(e.students[e.pending[0].student].arrivalSim)]
    ensures e2.pending == e.pending[1..]
    ensures e.now <= e2.now == e.students[e.pending[0].student].arrivalSim
  {
    ArriveFields(e);
    e2 := ArriveStep(e);
  }

  /** With an arrival wake-up at the head that is request a of `ord`, the
      arrivals pending are those from a on. */
  lemma ArrivalsAtHead(q: seq<Event>, ord: seq<nat>, a: nat)
    requires q != [] && q[0].wake == Arrive && a < |ord|
    requires ord[a] == q[0].student && ord[a + 1..] == ArrivalsOf(q[1..])
    ensures ArrivalsOf(q) == ord[a..]
  {
    assert ord[a..] == [ord[a]] + ord[a + 1..];
  }

  /** Granting the next request on arrival, with nobody waiting. */
  lemma ProgressArriveNow(ord: seq<nat>, ss: seq<Student>, phase: seq<Phase>, phase2: seq<Phase>,
                          n: nat, now: int, now2: int)
    requires |ord| == |ss| == |phase| && InBounds(ss, ord) && n < |ord| && Distinct(ord)
    requires ProgressOf(ord, ss, phase, n, [], ord[n..], now)
    requires phase2 == phase[ord[n] := InService]
    ensures ProgressOf(ord, ss, phase2, n + 1, [], ord[n + 1..], now2)
  {
    forall p | n + 1 <= p < |ord| ensures phase2[ord[p]] == AwaitingArrival {
      assert ord[p] != ord[n];
    }
    forall p | 0 <= p < n + 1 ensures phase2[ord[p]] == InService || phase2[ord[p]] == Done {
      if p < n {
        assert ord[p] != ord[n];
      }
    }
  }

  /** Queueing the next request on arrival, behind those already waiting. */
  lemma ProgressArriveQueued(ord: seq<nat>, ss: seq<Student>, phase: seq<Phase>, phase2: seq<Phase>,
                             n: nat, wl: seq<nat>, i: nat, now: int, now2: int)
    requires |ord| == |ss| == |phase| && InBounds(ss, ord) && n + |wl| < |ord| && Distinct(ord)
    requires ProgressOf(ord, ss, phase, n, wl, ord[n + |wl|..], now)
    requires i == ord[n + |wl|] && now <= now2 && ss[i].arrivalSim <= now2
    requires phase2 == phase[i := AwaitingCounter(ss[i].arrivalSim)]
    ensures ProgressOf(ord, ss, phase2, n, wl + [i], ord[n + |wl| + 1..], now2)
  {
    var a := n + |wl|;
    assert ord[n..a + 1] == ord[n..a] + [i];
    forall p | a + 1 <= p < |ord| ensures phase2[ord[p]] == AwaitingArrival {
      assert ord[p] != ord[a];
    }
    forall w | 0 <= w < |wl| + 1
      ensures phase2[(wl + [i])[w]] == AwaitingCounter(ss[(wl + [i])[w]].arrivalSim)
      ensures ss[(wl + [i])[w]].arrivalSim <= now2
    {
      if w < |wl| {
        assert wl[w] == ord[n + w] != ord[a];
      }
    }
    forall p | 0 <= p < n ensures phase2[ord[p]] == phase[ord[p]] {
      assert ord[p] != ord[a];
    }
  }

  lemma ArrivePool(e: Env)
    requires Shape(e) && PoolOk(e) && ArrivalDue(e)
    ensures PoolOk(ArriveStep(e))
  {
    ArriveFields(e);
    ArrivePending(e);
    var i := e.pending[0].student;
    if e.held < e.capacity {
      PoolOccupy(Leavers(e.pending), e.phase, i);
    } else {
      PoolQueue(Leavers(e.pending), e.phase, i, AwaitingCounter(e.pending[0].time));
    }
  }

  /** Process i, not in service, takes a free counter. */
  lemma PoolOccupy(leavers: multiset<nat>, phase: seq<Phase>, i: nat)
    requires HoldersAre(leavers, phase) && i < |phase| && phase[i] != InService
    ensures HoldersAre(leavers + multiset{i}, phase[i := InService])
    ensures |leavers + multiset{i}| == |leavers| + 1
  {
    forall j | 0 <= j < |phase|
      ensures (leavers + multiset{i})[j] == if phase[i := InService][j] == InService then 1 else 0
    {
      assert (leavers + multiset{i})[j] == leavers[j] + (if j == i then 1 else 0);
    }
  }

  /** Process i, not in service, moves to another phase out of service. */
  lemma PoolQueue(leavers: multiset<nat>, phase: seq<Phase>, i: nat, p: Phase)
    requires HoldersAre(leavers, phase) && i < |phase| && phase[i] != InService && p != InService
    ensures HoldersAre(leavers, phase[i := p])
  {
  }

  /** A counter moving from the free ones, all free by `now`, to the held
      ones leaves the others free by any later time. */
  lemma Occupy(leaves: multiset<int>, free: multiset<int>, x: int,
               leaves2: multiset<int>, free2: multiset<int>, y: int, now: int, now2: int)
    requires FreeSplit(leaves, free, now) && x in free - leaves && now <= now2
    requires free2 == free - multiset{x} + multiset{y} && leaves2 == leaves + multiset{y}
    ensures FreeSplit(leaves2, free2, now2)
  {
    assert free2 - leaves2 == (free - leaves) - multiset{x};
  }

  /** `e2` is `e` with one more service end, due at y, and a clock no
      earlier. */
  predicate ServiceAdded(e: Env, e2: Env, y: int) {
    LeaveTimes(e2.pending) == LeaveTimes(e.pending) + multiset{y} && e.now <= e2.now
  }

  /** The counter given to a new service was one of the free ones: the
      others stay free by now. */
  lemma OccupyFree(e: Env, e2: Env, x: int, y: int)
    requires Shape(e) && Shape(e2) && FreeOk(e) && x in Idle(e)
    requires FreeMoved(e, e2, x, y) && ServiceAdded(e, e2, y)
    ensures FreeOk(e2)
  {
    Occupy(LeaveTimes(e.pending), multiset(CurrentPlan(e).free), x,
           LeaveTimes(e2.pending), multiset(CurrentPlan(e2).free), y, e.now, e2.now);
  }

  /** With a counter free and no service end due before t, the earliest-free
      counter is a free one, free by t. */
  lemma EarliestIdle(e: Env, t: int) returns (x: int)
    requires Shape(e) && PoolOk(e) && FreeOk(e) && e.held < e.capacity && e.now <= t
    requires forall v :: v in LeaveTimes(e.pending) ==> t <= v
    ensures x == EarliestFree(CurrentPlan(e)) && x in Idle(e) && x <= t
  {
    IdleCount(e);
    EarliestIsIdle(CurrentPlan(e), LeaveTimes(e.pending), Idle(e), t);
    x := EarliestFree(CurrentPlan(e));
  }

  lemma ArrivePlan(e: Env)
    requires Shape(e) && QueueOk(e) && PoolOk(e) && PlanOk(e) && ArrivalDue(e)
    ensures Shape(ArriveStep(e)) && PlanOk(ArriveStep(e))
  {
    if e.held < e.capacity {
      ArrivePlanNow(e);
    } else {
      ArrivePlanQueued(e);
    }
  }

  lemma ArrivePlanNow(e: Env)
    requires Shape(e) && QueueOk(e) && PoolOk(e) && PlanOk(e) && ArrivalDue(e) && e.held < e.capacity
    ensures Shape(ArriveStep(e)) && PlanOk(ArriveStep(e))
  {
    var e2, s, t, y := ArriveGrantFacts(e);
    ServiceEndsAfterHead(e);
    ArriveGrantPlan(e, e2, s, t, y);
  }

  /** A request granted on arrival gets the counter that has been free
      longest, one of the free ones, all free by its arrival: the records stay
      the reference schedule, and that counter is held until the new service
      ends. */
  lemma ArriveGrantPlan(e: Env, e2: Env, s: Student, t: int, y: int)
    requires Shape(e) && PoolOk(e) && PlanOk(e) && e.held < e.capacity
    requires forall v :: v in LeaveTimes(e.pending) ==> t <= v
    requires NextGranted(e, e2, s, t) && t == s.arrivalSim
    requires y == t + s.serviceTime && ServiceAdded(e, e2, y)
    ensures Shape(e2) && PlanOk(e2)
  {
    var x := EarliestIdle(e, t);
    GrantPlan(e, e2, s, t, x, y);
    OccupyFree(e, e2, x, y);
  }

  /** A granted arrival is the next request in request order; it starts at
      its arrival and adds one service end. */
  lemma ArriveGrantFacts(e: Env) returns (e2: Env, s: Student, t: int, y: int)
    requires Shape(e) && PoolOk(e) && ArrivalDue(e) && e.held < e.capacity
    ensures e2 == ArriveStep(e) && t == e.pending[0].time
    ensures NextGranted(e, e2, s, t) && t == s.arrivalSim && y == t + s.serviceTime && ServiceAdded(e, e2, y)
  {
    ArriveShape(e);
    ArriveFields(e);
    ArrivePending(e);
    assert e.waitList == [];
    assert Arrived(e) == |e.records|;
    e2, s, t := ArriveStep(e), e.students[e.pending[0].student], e.pending[0].time;
    y := t + s.serviceTime;
  }

  lemma ArrivePlanQueued(e: Env)
    requires Shape(e) && PoolOk(e) && PlanOk(e) && ArrivalDue(e) && e.held >= e.capacity
    ensures Shape(ArriveStep(e)) && PlanOk(ArriveStep(e))
  {
    ArriveShape(e);
    ArriveFields(e);
    ArrivePending(e);
    PlanUnchanged(e, ArriveStep(e));
  }

  /** A step that grants nothing and schedules no service end keeps the
      plan: only the clock moves forward. */
  lemma PlanUnchanged(e: Env, e2: Env)
    requires Shape(e) && Shape(e2) && PlanOk(e)
    requires e2.students == e.students && e2.capacity == e.capacity && e2.records == e.records
    requires LeaveTimes(e2.pending) == LeaveTimes(e.pending) && e.now <= e2.now
    ensures PlanOk(e2)
  {
    assert Order(e2) == Order(e);
    assert Granted(e2) == Granted(e);
    assert CurrentPlan(e2) == CurrentPlan(e);
  }

  lemma ArriveStamps(e: Env)
    requires StampsOk(e) && ArrivalDue(e)
    ensures StampsOk(ArriveStep(e))
  {
    ArriveFields(e);
  }

  /** An arrival wake-up keeps the invariant and brings the run closer to
      its end. */
  lemma ArriveKeeps(e: Env)
    requires Inv(e) && e.pending != [] && e.pending[0].wake == Arrive
    ensures e.pending[0].student < |e.students|
    ensures var e2 := ArriveStep(e);
      && Inv(e2) && e2.students == e.students && e2.capacity == e.capacity
      && e.now <= e2.now && 0 <= Remaining(e2) < Remaining(e)
  {
    ArriveHead(e);
    ArriveShape(e);
    ArriveQueue(e);
    ArriveProgress(e);
    ArrivePool(e);
    ArrivePlan(e);
    ArriveStamps(e);
  }

  // ---------------------------------------------------------------------
  // A service end

  /** The fields of the state after a service end, one by one. */
  lemma LeaveFields(e: Env)
    requires LeaveDue(e)
    ensures var e2 := LeaveStep(e);
      var ev := e.pending[0];
      var j := ev.student;
      && e2.capacity == e.capacity && e2.students == e.students && e2.now == ev.time
      && (e.waitList != [] ==>
            var h := e.waitList[0];
            var s := e.students[h];
            && e2.held == e.held && e2.waitList == e.waitList[1..]
            && e2.phase == e.phase[j := Done][h := InService]
            && e2.records == e.records + [RecordOf(s, ev.time)]
            && e2.pending == Insert(e.pending[1..], Event(ev.time + s.serviceTime, e.nextOrder, h, Leave))
            && e2.nextOrder == e.nextOrder + 1)
      && (e.waitList == [] ==>
            && e2.held == e.held - 1 && e2.waitList == []
            && e2.phase == e.phase[j := Done]
            && e2.records == e.records && e2.pending == e.pending[1..]
            && e2.nextOrder == e.nextOrder)
  {
    if e.waitList != [] {
      LeaveFieldsGrant(e);
    } else {
      LeaveFieldsRelease(e);
    }
  }

  lemma LeaveFieldsGrant(e: Env)
    requires LeaveDue(e) && e.waitList != []
    ensures var e2 := LeaveStep(e);
      var ev := e.pending[0];
      var h := e.waitList[0];
      var s := e.students[h];
      && e2.capacity == e.capacity && e2.students == e.students && e2.now == ev.time
      && e2.held == e.held && e2.waitList == e.waitList[1..]
      && e2.phase == e.phase[ev.student := Done][h := InService]
      && e2.records == e.records + [RecordOf(s, ev.time)]
      && e2.pending == Insert(e.pending[1..], Event(ev.time + s.serviceTime, e.nextOrder, h, Leave))
      && e2.nextOrder == e.nextOrder + 1
  {
  }

  lemma LeaveFieldsRelease(e: Env)
    requires LeaveEnabled(e) && e.waitList == []
    ensures var e2 := LeaveStep(e);
      var ev := e.pending[0];
      && e2.capacity == e.capacity && e2.students == e.students && e2.now == ev.time
      && e2.held == e.held - 1 && e2.waitList == []
      && e2.phase == e.phase[ev.student := Done]
      && e2.records == e.records && e2.pending == e.pending[1..]
      && e2.nextOrder == e.nextOrder
  {
  }


  /** When somebody waits, the counter released is granted to them at once. */
  lemma LeaveIsGrant(e: Env)
    requires LeaveDue(e) && e.waitList != []
    ensures var ev := e.pending[0];
      var h := e.waitList[0];
      var e1 := e.(pending := e.pending[1..], now := ev.time, phase := e.phase[ev.student := Done],
                   waitList := e.waitList[1..]);
      h < |e1.students| && h < |e1.phase| && LeaveStep(e) == Grant(e1, h, e.phase[h].tReq)
  {
  }

  /** The pending resumptions after a service end: it is gone, and a process
      granted the counter adds its own service end. */
  lemma LeavePending(e: Env)
    requires LeaveDue(e)
    ensures var e2 := LeaveStep(e);
      var ev := e.pending[0];
      && ArrivalsOf(e2.pending) == ArrivalsOf(e.pending)
      && (e.waitList != [] ==>
            var h := e.waitList[0];
            && LeaveTimes(e2.pending) == LeaveTimes(e.pending[1..]) + multiset{ev.time + e.students[h].serviceTime}
            && Leavers(e2.pending) == Leavers(e.pending[1..]) + multiset{h})
      && (e.waitList == [] ==>
            LeaveTimes(e2.pending) == LeaveTimes(e.pending[1..]) && Leavers(e2.pending) == Leavers(e.pending[1..]))
  {
    if e.waitList != [] {
      LeavePendingGrant(e);
    } else {
      LeaveFieldsRelease(e);
    }
  }

  lemma LeavePendingGrant(e: Env)
    requires LeaveEnabled(e) && e.waitList != []
    ensures var e2 := LeaveStep(e);
      var ev := e.pending[0];
      var h := e.waitList[0];
      && ArrivalsOf(e2.pending) == ArrivalsOf(e.pending[1..])
      && LeaveTimes(e2.pending) == LeaveTimes(e.pending[1..]) + multiset{ev.time + e.students[h].serviceTime}
      && Leavers(e2.pending) == Leavers(e.pending[1..]) + multiset{h}
  {
    var r, lv := LeaveGrantQueue(e);
    LeaveAdded(e.pending[1..], r, lv);
  }

  /** The pending list after a hand-over, as a value. */
  lemma LeaveGrantQueue(e: Env) returns (r: seq<Event>, lv: Event)
    requires LeaveEnabled(e) && e.waitList != []
    ensures r == LeaveStep(e).pending && lv.wake == Leave && r == Insert(e.pending[1..], lv)
    ensures lv.time == e.pending[0].time + e.students[e.waitList[0]].serviceTime
    ensures lv.student == e.waitList[0]
  {
    var ev := e.pending[0];
    var h := e.waitList[0];
    lv := Event(ev.time + e.students[h].serviceTime, e.nextOrder, h, Leave);
    r := LeaveStep(e).pending;
  }

  lemma LeaveShape(e: Env)
    requires Shape(e) && LeaveDue(e)
    ensures var e2 := LeaveStep(e);
      && Shape(e2) && e2.students == e.students && e2.capacity == e.capacity
      && e.now <= e2.now && 0 <= Remaining(e2) < Remaining(e)
  {
    LeaveFields(e);
  }

  lemma LeaveQueue(e: Env)
    requires QueueOk(e) && LeaveDue(e)
    ensures QueueOk(LeaveStep(e))
  {
    var ev := e.pending[0];
    if e.waitList != [] {
      var e1 := e.(pending := e.pending[1..], now := ev.time, phase := e.phase[ev.student := Done],
                   waitList := e.waitList[1..]);
      PopQueue(e, e1);
      GrantQueue(e1, e.waitList[0], e.phase[e.waitList[0]].tReq);
      LeaveIsGrant(e);
    } else {
      LeaveFields(e);
      PopQueue(e, LeaveStep(e));
    }
  }

  lemma LeaveProgress(e: Env)
    requires Shape(e) && ProgressOk(e) && LeaveDue(e)
    ensures Shape(LeaveStep(e)) && ProgressOk(LeaveStep(e))
  {
    if e.waitList != [] {
      var e2, ss, ord, n, j, phase2 := LeaveHandoverFacts(e);
      ProgressHandover(ord, ss, e.phase, phase2, n, e.waitList, ArrivalsOf(e.pending), j, e.now, e2.now);
    } else {
      var e2, ss, ord, n, j, phase2 := LeaveReleaseFacts(e);
      ProgressRelease(ord, ss, e.phase, phase2, n, ArrivalsOf(e.pending), j, e.now, e2.now);
    }
  }

  /** A counter handed over goes to the head of the wait list. */
  lemma LeaveHandoverFacts(e: Env) returns (e2: Env, ss: seq<Student>, ord: seq<nat>, n: nat, j: nat, phase2: seq<Phase>)
    requires Shape(e) && ProgressOk(e) && LeaveDue(e) && e.waitList != []
    ensures e2 == LeaveStep(e) && Shape(e2) && ss == e.students && e2.students == ss
    ensures ord == Order(e) && ord == Order(e2) && Distinct(ord)
    ensures n == |e.records| && n + |e.waitList| <= |ord| && |e2.records| == n + 1
    ensures e2.waitList == e.waitList[1..]
    ensures j < |e.phase| && e.phase[j] == InService
    ensures phase2 == e.phase[j := Done][e.waitList[0] := InService] && e2.phase == phase2
    ensures ArrivalsOf(e2.pending) == ArrivalsOf(e.pending) && e.now <= e2.now
    ensures ProgressOf(ord, ss, e.phase, n, e.waitList, ArrivalsOf(e.pending), e.now)
  {
    LeaveShape(e);
    LeaveFields(e);
    LeavePending(e);
    OrderFacts(e);
    e2, ss, ord, n, j := LeaveStep(e), e.students, Order(e), |e.records|, e.pending[0].student;
    assert Order(e2) == ord;
    phase2 := e2.phase;
  }

  /** A counter released with nobody waiting. */
  lemma LeaveReleaseFacts(e: Env) returns (e2: Env, ss: seq<Student>, ord: seq<nat>, n: nat, j: nat, phase2: seq<Phase>)
    requires Shape(e) && ProgressOk(e) && LeaveDue(e) && e.waitList == []
    ensures e2 == LeaveStep(e) && Shape(e2) && ss == e.students && e2.students == ss
    ensures ord == Order(e) && ord == Order(e2)
    ensures n == |e.records| && n <= |ord| && |e2.records| == n && e2.waitList == []
    ensures j < |e.phase| && e.phase[j] == InService
    ensures phase2 == e.phase[j := Done] && e2.phase == phase2
    ensures ArrivalsOf(e2.pending) == ArrivalsOf(e.pending) && e.now <= e2.now
    ensures ProgressOf(ord, ss, e.phase, n, [], ArrivalsOf(e.pending), e.now)
  {
    LeaveShape(e);
    LeaveFields(e);
    LeavePending(e);
    e2, ss, ord, n, j := LeaveStep(e), e.students, Order(e), |e.records|, e.pending[0].student;
    assert Order(e2) == ord;
    phase2 := e2.phase;
  }

  /** The process in service leaves and the head of the wait list is
      granted: one more request granted, one fewer waiting. */
  lemma ProgressHandover(ord: seq<nat>, ss: seq<Student>, phase: seq<Phase>, phase2: seq<Phase>,
                         n: nat, wl: seq<nat>, arrivals: seq<nat>, j: nat, now: int, now2: int)
    requires |ord| == |ss| == |phase| && InBounds(ss, ord) && n + |wl| <= |ord| && Distinct(ord)
    requires ProgressOf(ord, ss, phase, n, wl, arrivals, now) && wl != [] && now <= now2
    requires j < |phase| && phase[j] == InService
    requires phase2 == phase[j := Done][wl[0] := InService]
    ensures ProgressOf(ord, ss, phase2, n + 1, wl[1..], arrivals, now2)
  {
    var a := n + |wl|;
    assert wl[0] == ord[n];
    assert ord[n + 1..a] == wl[1..];
    forall p | a <= p < |ord| ensures phase2[ord[p]] == AwaitingArrival {
      assert ord[p] != ord[n];
    }
    forall w | 0 <= w < |wl| - 1
      ensures phase2[wl[1..][w]] == AwaitingCounter(ss[wl[1..][w]].arrivalSim)
    {
      assert wl[1..][w] == ord[n + 1 + w] != ord[n];
      assert phase[wl[w + 1]] == AwaitingCounter(ss[wl[w + 1]].arrivalSim);
    }
  }

  /** The process in service leaves and nobody waits. */
  lemma ProgressRelease(ord: seq<nat>, ss: seq<Student>, phase: seq<Phase>, phase2: seq<Phase>,
                        n: nat, arrivals: seq<nat>, j: nat, now: int, now2: int)
    requires |ord| == |ss| == |phase| && InBounds(ss, ord) && n <= |ord|
    requires ProgressOf(ord, ss, phase, n, [], arrivals, now)
    requires j < |phase| && phase[j] == InService && phase2 == phase[j := Done]
    ensures ProgressOf(ord, ss, phase2, n, [], arrivals, now2)
  {
  }

  lemma LeavePool(e: Env)
    requires PoolOk(e) && LeaveDue(e)
    ensures PoolOk(LeaveStep(e))
  {
    LeaveFields(e);
    LeavePending(e);
    var j := e.pending[0].student;
    if e.waitList != [] {
      PoolHandover(Leavers(e.pending[1..]), e.phase, j, e.waitList[0]);
    } else {
      PoolRelease(Leavers(e.pending[1..]), e.phase, j);
    }
  }

  /** The counter passes from process j to process h. */
  lemma PoolHandover(rest: multiset<nat>, phase: seq<Phase>, j: nat, h: nat)
    requires HoldersAre(rest + multiset{j}, phase)
    requires j < |phase| && h < |phase| && phase[h].AwaitingCounter?
    ensures HoldersAre(rest + multiset{h}, phase[j := Done][h := InService])
  {
    forall x | x in rest ensures x < |phase| {
      assert x in rest + multiset{j};
    }
    forall i | 0 <= i < |phase| ensures (rest + multiset{h})[i] == rest[i] + (if i == h then 1 else 0) {
    }
    forall i | 0 <= i < |phase| ensures rest[i] + (if i == j then 1 else 0) == if phase[i] == InService then 1 else 0 {
      assert (rest + multiset{j})[i] == rest[i] + (if i == j then 1 else 0);
    }
  }

  /** Process j gives its counter back. */
  lemma PoolRelease(rest: multiset<nat>, phase: seq<Phase>, j: nat)
    requires HoldersAre(rest + multiset{j}, phase) && j < |phase|
    ensures HoldersAre(rest, phase[j := Done])
  {
    forall x | x in rest ensures x < |phase| {
      assert x in rest + multiset{j};
    }
    forall i | 0 <= i < |phase| ensures rest[i] + (if i == j then 1 else 0) == if phase[i] == InService then 1 else 0 {
      assert (rest + multiset{j})[i] == rest[i] + (if i == j then 1 else 0);
    }
  }

  lemma LeaveStamps(e: Env)
    requires StampsOk(e) && LeaveDue(e)
    ensures StampsOk(LeaveStep(e))
  {
    LeaveFields(e);
  }

  lemma LeavePlan(e: Env)
    requires Shape(e) && QueueOk(e) && ProgressOk(e) && PoolOk(e) && PlanOk(e) && LeaveDue(e)
    ensures Shape(LeaveStep(e)) && PlanOk(LeaveStep(e))
  {
    if e.waitList != [] {
      var e2, s, t, y := LeaveGrantFacts(e);
      LeaveGrantPlan(e, e2, s, t, y);
    } else {
      var e2, t := LeaveReleasePlanFacts(e);
      PlanReleased(e, e2, t);
    }
  }

  /** `e2` is `e` with the service end due at x replaced by one due at y,
      and a clock no earlier. */
  predicate HandedOver(e: Env, e2: Env, x: int, y: int) {
    LeaveTimes(e2.pending) == LeaveTimes(e.pending) - multiset{x} + multiset{y} && e.now <= e2.now
  }

  /** A counter handed over goes to the next request in request order, which
      has waited since its arrival; every counter was held, and none is free
      before the one released now. */
  lemma LeaveGrantFacts(e: Env) returns (e2: Env, s: Student, t: int, y: int)
    requires Shape(e) && QueueOk(e) && ProgressOk(e) && PoolOk(e) && LeaveDue(e) && e.waitList != []
    ensures e2 == LeaveStep(e) && e.held == e.capacity
    ensures t in LeaveTimes(e.pending) && forall v :: v in LeaveTimes(e.pending) ==> t <= v
    ensures NextGranted(e, e2, s, t) && y == t + s.serviceTime && HandedOver(e, e2, t, y)
  {
    WaiterIsNext(e);
    e2, s, t := LeaveStep(e), e.students[e.waitList[0]], e.pending[0].time;
    y := t + s.serviceTime;
    LeaveNextGranted(e, e2, s, t);
    LeaveHandedOver(e, e2, t, y);
    ServiceEndsAfterHead(e);
  }

  /** The process at the head of the wait list made the next request in
      request order, and has waited since its arrival, while every counter
      was held. */
  lemma WaiterIsNext(e: Env)
    requires Shape(e) && ProgressOk(e) && PoolOk(e) && e.waitList != []
    ensures e.held == e.capacity && |e.records| < |e.students|
    ensures e.waitList[0] == Order(e)[|e.records|] && e.students[e.waitList[0]].arrivalSim <= e.now
  {
  }

  lemma LeaveNextGranted(e: Env, e2: Env, s: Student, t: int)
    requires Shape(e) && LeaveDue(e) && e.waitList != [] && e2 == LeaveStep(e)
    requires |e.records| < |e.students| && e.waitList[0] == Order(e)[|e.records|]
    requires s == e.students[e.waitList[0]] && s.arrivalSim <= e.now && t == e.pending[0].time
    ensures NextGranted(e, e2, s, t)
  {
    LeaveShape(e);
    LeaveFields(e);
  }

  lemma LeaveHandedOver(e: Env, e2: Env, t: int, y: int)
    requires LeaveDue(e) && e.waitList != [] && e2 == LeaveStep(e)
    requires t == e.pending[0].time && y == t + e.students[e.waitList[0]].serviceTime
    ensures HandedOver(e, e2, t, y) && t in LeaveTimes(e.pending)
  {
    LeaveFields(e);
    LeavePending(e);
    Swap(LeaveTimes(e.pending), LeaveTimes(e.pending[1..]), LeaveTimes(e2.pending), t, y);
  }

  lemma Swap(m: multiset<int>, rest: multiset<int>, m2: multiset<int>, x: int, y: int)
    requires m == rest + multiset{x} && m2 == rest + multiset{y}
    ensures m2 == m - multiset{x} + multiset{y}
  {
    assert m - multiset{x} == rest;
  }

  /** A counter handed over when every counter is held is the one free
      earliest, and the records stay the reference schedule. */
  lemma LeaveGrantPlan(e: Env, e2: Env, s: Student, t: int, y: int)
    requires Shape(e) && PoolOk(e) && PlanOk(e) && e.held == e.capacity
    requires t in LeaveTimes(e.pending) && forall v :: v in LeaveTimes(e.pending) ==> t <= v
    requires NextGranted(e, e2, s, t) && y == t + s.serviceTime && HandedOver(e, e2, t, y)
    ensures Shape(e2) && PlanOk(e2)
  {
    var x := EarliestNow(e, t);
    GrantPlan(e, e2, s, t, x, y);
    HandOverFree(e, e2, x, y);
  }

  /** With every counter held, the earliest free time is the earliest
      service end. */
  lemma EarliestNow(e: Env, t: int) returns (x: int)
    requires Shape(e) && PoolOk(e) && FreeOk(e) && e.held == e.capacity
    requires t in LeaveTimes(e.pending) && forall v :: v in LeaveTimes(e.pending) ==> t <= v
    ensures x == EarliestFree(CurrentPlan(e)) && x == t
  {
    IdleCount(e);
    assert Idle(e) == multiset{};
    EarliestIsNow(CurrentPlan(e), LeaveTimes(e.pending), t);
    x := t;
  }

  /** A counter moving from one holder to the next keeps the free ones as
      they were. */
  lemma HandOver(leaves: multiset<int>, free: multiset<int>, x: int,
                 leaves2: multiset<int>, free2: multiset<int>, y: int, now: int, now2: int)
    requires FreeSplit(leaves, free, now) && x in leaves && now <= now2
    requires free2 == free - multiset{x} + multiset{y} && leaves2 == leaves - multiset{x} + multiset{y}
    ensures FreeSplit(leaves2, free2, now2)
  {
    assert free2 - leaves2 == free - leaves;
  }

  lemma HandOverFree(e: Env, e2: Env, x: int, y: int)
    requires Shape(e) && Shape(e2) && FreeOk(e) && x in LeaveTimes(e.pending)
    requires FreeMoved(e, e2, x, y) && HandedOver(e, e2, x, y)
    ensures FreeOk(e2)
  {
    HandOver(LeaveTimes(e.pending), multiset(CurrentPlan(e).free), x,
             LeaveTimes(e2.pending), multiset(CurrentPlan(e2).free), y, e.now, e2.now);
  }

  /** A counter released with nobody waiting: no record, one service end
      fewer, the clock at that service end. */
  lemma LeaveReleasePlanFacts(e: Env) returns (e2: Env, t: int)
    requires Shape(e) && QueueOk(e) && LeaveDue(e) && e.waitList == []
    ensures e2 == LeaveStep(e) && Shape(e2)
    ensures e2.students == e.students && e2.capacity == e.capacity && e2.records == e.records
    ensures t in LeaveTimes(e.pending) && LeaveTimes(e2.pending) == LeaveTimes(e.pending) - multiset{t}
    ensures e.now <= t == e2.now
  {
    LeaveShape(e);
    LeaveFields(e);
    LeavePending(e);
    e2, t := LeaveStep(e), e.pending[0].time;
    assert LeaveTimes(e.pending) - multiset{t} == LeaveTimes(e.pending[1..]);
  }

  /** Releasing the counter held until t, at t, adds it to the free ones. */
  lemma PlanReleased(e: Env, e2: Env, t: int)
    requires Shape(e) && Shape(e2) && PlanOk(e)
    requires e2.students == e.students && e2.capacity == e.capacity && e2.records == e.records
    requires t in LeaveTimes(e.pending) && LeaveTimes(e2.pending) == LeaveTimes(e.pending) - multiset{t}
    requires e.now <= t == e2.now
    ensures PlanOk(e2)
  {
    assert Order(e2) == Order(e);
    assert Granted(e2) == Granted(e);
    assert CurrentPlan(e2) == CurrentPlan(e);
    Release(LeaveTimes(e.pending), multiset(CurrentPlan(e).free), t, e.now);
  }

  /** A counter whose holder leaves at x is free by x. */
  lemma Release(leaves: multiset<int>, free: multiset<int>, x: int, now: int)
    requires FreeSplit(leaves, free, now) && x in leaves && now <= x
    ensures FreeSplit(leaves - multiset{x}, free, x)
  {
    assert free - (leaves - multiset{x}) == (free - leaves) + multiset{x};
  }

  /** A service end keeps the invariant and brings the run closer to its
      end. */
  lemma LeaveKeeps(e: Env)
    requires Inv(e) && e.pending != [] && e.pending[0].wake == Leave
    ensures LeaveDue(e)
    ensures var e2 := LeaveStep(e);
      && Inv(e2) && e2.students == e.students && e2.capacity == e.capacity
      && e.now <= e2.now && 0 <= Remaining(e2) < Remaining(e)
  {
    LeaveHead(e);
    LeaveShape(e);
    LeaveQueue(e);
    LeaveProgress(e);
    LeavePool(e);
    LeavePlan(e);
    LeaveStamps(e);
  }
}
