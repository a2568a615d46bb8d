/** The discrete-event engine of one scenario run as one object: the
    simulation clock, the ordered list of pending resumptions, the pool of
    counters (held count and FIFO wait list), the per-student processes and
    the shared record list. They are created together for each run and never
    shared between runs. Every method updates the fields in place and is
    proved to take exactly the step of engine_state.dfy, so the invariant
    proved there holds throughout. */
module Engine {
  import opened Model
  import opened Requests
  import opened Reference
  import opened EventQueue
  import opened EngineState
  import opened EngineProofs
  import opened EngineLifecycle

  class Simulation {
    /** Number of counters. */
    const capacity: nat
    /** The simulation clock. */
    var now: int
    /** Pending resumptions, due first at the head. */
    var pending: seq<Event>
    /** Sequence number the next scheduled resumption gets. */
    var nextOrder: nat
    /** Counters in use. */
    var held: int
    /** Processes waiting for a counter, longest-waiting first. */
    var waitList: seq<nat>
    /** The registered students; process i serves students[i]. */
    var students: seq<Student>
    /** Where each process is suspended. */
    var phase: seq<Phase>
    /** The records appended so far. */
    var records: seq<Record>

    /** The fields as one value. */
    function State(): Env
      reads this
    {
      Env(capacity, now, pending, nextOrder, held, waitList, students, phase, records)
    }

    ghost predicate Valid()
      reads this
    {
      Inv(State())
    }

    /** A fresh environment with `numCounters` free counters at time 0. */
    constructor (numCounters: nat)
      requires numCounters >= 1
      ensures State() == Start(numCounters) && Valid() && Unstarted(State())
    {
      capacity := numCounters;
      now := 0;
      pending := [];
      nextOrder := 0;
      held := 0;
      waitList := [];
      students := [];
      phase := [];
      records := [];
      new;
      StartKeeps(numCounters);
    }

    /** Registers the process of student `s`: it first waits until the
        student's arrival offset. All processes are registered before the
        run starts. */
    method Process(s: Student)
      requires Valid() && Unstarted(State()) && s.arrivalSim >= 0
      modifies this
      ensures State() == Register(old(State()), s) && Valid() && Unstarted(State())
      ensures students == old(students) + [s]
    {
      ghost var e := State();
      RegisterKeeps(e, s);
      pending := Insert(pending, Event(s.arrivalSim, nextOrder, |students|, Arrive));
      nextOrder := nextOrder + 1;
      students := students + [s];
      phase := phase + [AwaitingArrival];
      assert State() == Register(e, s);
    }

    /** Process i has been granted a counter: it appends its record, stamped
        with the clock and the wait since it asked at tReq, and holds the
        counter for its service time. */
    method Serve(i: nat, tReq: int)
      requires i < |students| && i < |phase|
      modifies this
      ensures State() == Grant(old(State()), i, tReq)
    {
      var s := students[i];
      phase := phase[i := InService];
      records := records + [Record(s.id, s.arrivalTime, now, now - tReq, s.serviceTime)];
      pending := Insert(pending, Event(now + s.serviceTime, nextOrder, i, Leave));
      nextOrder := nextOrder + 1;
    }

    /** The arrival wake-up at the head fires: the process asks for a counter
        and is granted one at once if one is free, or joins the end of the
        wait list. */
    method ArriveNext()
      requires ArriveEnabled(State())
      modifies this
      ensures State() == ArriveStep(old(State()))
    {
      var ev := pending[0];
      pending := pending[1..];
      now := ev.time;
      if held < capacity {
        held := held + 1;
        Serve(ev.student, ev.time);
      } else {
        phase := phase[ev.student := AwaitingCounter(ev.time)];
        waitList := waitList + [ev.student];
      }
    }

    /** The service end at the head fires: the process leaves, and its
        counter passes to the longest-waiting process or, when nobody waits,
        is freed. */
    method LeaveNext()
      requires LeaveEnabled(State())
      modifies this
      ensures State() == LeaveStep(old(State()))
    {
      var ev := pending[0];
      var tReq := if waitList != [] then phase[waitList[0]].tReq else 0;
      pending := pending[1..];
      now := ev.time;
      phase := phase[ev.student := Done];
      if waitList != [] {
        var h := waitList[0];
        waitList := waitList[1..];
        Serve(h, tReq);
      } else {
        held := held - 1;
      }
    }

    /** Resumes the process due first. */
    method Step()
      requires Valid() && pending != []
      modifies this
      ensures old(pending[0].wake) == Arrive ==> State() == ArriveStep(old(State()))
      ensures old(pending[0].wake) == Leave ==> State() == LeaveStep(old(State()))
      ensures Valid() && students == old(students) && old(now) <= now
      ensures 0 <= Remaining(State()) < Remaining(old(State()))
    {
      ghost var e := State();
      if pending[0].wake == Arrive {
        ArriveKeeps(e);
        ArriveNext();
      } else {
        LeaveKeeps(e);
        LeaveNext();
      }
    }

    /** Runs until nothing is pending: every process is done and the records
        are the reference schedule of all the requests, in request order. */
    method Run()
      requires Valid()
      modifies this
      ensures Valid() && pending == [] && held == 0 && waitList == []
      ensures students == old(students) && old(now) <= now
      ensures forall i :: 0 <= i < |phase| ==> phase[i] == Done
      ensures records == Schedule(Arrange(students, RequestOrder(students)), capacity)
    {
      while pending != []
        invariant Valid() && students == old(students) && old(now) <= now
        invariant 0 <= Remaining(State())
        decreases Remaining(State())
      {
        Step();
      }
      Finished(State());
    }
  }
}
