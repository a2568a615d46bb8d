/** One scenario run: the rows are normalised, one process per row is
    registered on a fresh engine with `numCounters` counters, the engine runs
    until nothing is pending, and the statistics are computed from the
    records it emitted. */
module Scenarios {
  import opened Model
  import opened Requests
  import opened Reference
  import opened EngineLifecycle
  import opened Engine
  import opened Normalisation
  import opened Statistics

  /** A pool with no counter cannot be created; otherwise the statistics
      may fail as `StatsError` says. */
  datatype ScenarioError = InvalidCapacity | NoStatistics(reason: StatsError)

  /** The students of the rows, in the order their requests reach the
      counters. */
  function Requested(rows: seq<Row>): (reqs: seq<Student>)
    ensures |reqs| == |rows|
  {
    var ss := Normalise(rows);
    Arrange(ss, RequestOrder(ss))
  }

  /** The records of a run with k counters. */
  function Records(rows: seq<Row>, k: nat): (rs: seq<Record>)
    requires k >= 1
    ensures |rs| == |rows|
  {
    Schedule(Requested(rows), k)
  }

  /** What a scenario run returns. */
  function Scenario(rows: seq<Row>, k: nat): (r: Result<Summary, ScenarioError>)
    ensures k == 0 <==> r == Err(InvalidCapacity)
    ensures k >= 1 && rows == [] ==> r == Err(NoStatistics(NoRecords))
    ensures r.Ok? ==> r.value.numCounters == k && r.value.numServed == |rows|
  {
    if k == 0 then Err(InvalidCapacity) else Report(Records(rows, k), k)
  }

  /** The statistics of some records, or why there are none. */
  function Report(rs: seq<Record>, k: nat): Result<Summary, ScenarioError>
    requires k >= 1
  {
    match Summarize(rs, k)
    case Ok(s) => Ok(s)
    case Err(e) => Err(NoStatistics(e))
  }

  /** Runs one scenario on the engine; the result is the reference one. */
  method RunScenario(rows: seq<Row>, numCounters: nat) returns (r: Result<Summary, ScenarioError>)
    ensures r == Scenario(rows, numCounters)
  {
    if numCounters == 0 {
      return Err(InvalidCapacity);
    }
    var ss := Normalise(rows);
    if rows != [] {
      OffsetsFromZero(rows);
    }
    var rs := Simulate(ss, numCounters);
    r := Report(rs, numCounters);
  }

  /** Registers one process per student on a fresh engine and runs it to
      the end; the records are the reference schedule. */
  method Simulate(ss: seq<Student>, k: nat) returns (rs: seq<Record>)
    requires k >= 1 && forall i :: 0 <= i < |ss| ==> ss[i].arrivalSim >= 0
    ensures rs == Schedule(Arrange(ss, RequestOrder(ss)), k)
  {
    var sim := Populate(ss, k);
    sim.Run();
    rs := sim.records;
  }

  /** A fresh engine with k counters and one registered process per
      student, in row order. */
  method Populate(ss: seq<Student>, k: nat) returns (sim: Simulation)
    requires k >= 1 && forall i :: 0 <= i < |ss| ==> ss[i].arrivalSim >= 0
    ensures fresh(sim) && sim.Valid() && Unstarted(sim.State())
    ensures sim.students == ss && sim.capacity == k
  {
    sim := new Simulation(k);
    var i := 0;
    while i < |ss|
      invariant 0 <= i <= |ss|
      invariant sim.Valid() && Unstarted(sim.State())
      invariant sim.students == ss[..i] && sim.capacity == k
    {
      PrefixSnoc(ss, i);
      sim.Process(ss[i]);
      i := i + 1;
    }
    WholePrefix(ss, i);
  }

  /** Record j belongs to row ord[j], where ord lists every row exactly
      once: each student is served, and served once. */
  lemma EachRowServedOnce(rows: seq<Row>, k: nat)
    requires k >= 1
    ensures var rs := Records(rows, k);
            var ord := RequestOrder(Normalise(rows));
      && |ord| == |rows| && Distinct(ord)
      && (forall i :: 0 <= i < |rows| ==> i in ord)
      && forall j :: 0 <= j < |rs| ==>
           && ord[j] < |rows|
           && rs[j].studentId == rows[ord[j]].id
           && rs[j].arrivalTime == rows[ord[j]].arrivalTime
           && rs[j].serviceTimeSec == rows[ord[j]].serviceTime
  {
    var ss := Normalise(rows);
    var ord := RequestOrder(ss);
    var reqs := Requested(rows);
    RequestOrderCharacterised(ss);
    PermutationOfRange(ord, |rows|);
    forall j | 0 <= j < |rows|
      ensures Records(rows, k)[j].studentId == rows[ord[j]].id
      ensures Records(rows, k)[j].arrivalTime == rows[ord[j]].arrivalTime
      ensures Records(rows, k)[j].serviceTimeSec == rows[ord[j]].serviceTime
    {
      ScheduleRecords(reqs, k, j);
      NormaliseKeeps(rows, ord[j], ord[j]);
    }
  }

  /** The ids of some records. */
  function Ids(rs: seq<Record>): (ids: seq<string>)
    ensures |ids| == |rs| && forall j :: 0 <= j < |rs| ==> ids[j] == rs[j].studentId
  {
    seq(|rs|, j requires 0 <= j < |rs| => rs[j].studentId)
  }

  /** When the rows carry distinct ids, every id appears in exactly one
      record. */
  lemma IdsOnce(rows: seq<Row>, k: nat)
    requires k >= 1
    requires forall a, b :: 0 <= a < b < |rows| ==> rows[a].id != rows[b].id
    ensures Distinct(Ids(Records(rows, k)))
    ensures forall i :: 0 <= i < |rows| ==> rows[i].id in Ids(Records(rows, k))
  {
    EachRowServedOnce(rows, k);
    IdsByOrder(Records(rows, k), rows, RequestOrder(Normalise(rows)));
  }

  lemma IdsByOrder(rs: seq<Record>, rows: seq<Row>, ord: seq<nat>)
    requires |rs| == |rows| == |ord| && Distinct(ord)
    requires forall i :: 0 <= i < |rows| ==> i in ord
    requires forall j :: 0 <= j < |rs| ==> ord[j] < |rows| && rs[j].studentId == rows[ord[j]].id
    requires forall a, b :: 0 <= a < b < |rows| ==> rows[a].id != rows[b].id
    ensures Distinct(Ids(rs))
    ensures forall i :: 0 <= i < |rows| ==> rows[i].id in Ids(rs)
  {
    forall a, b | 0 <= a < b < |rs| ensures rs[a].studentId != rs[b].studentId {
      assert ord[a] != ord[b];
    }
    forall i | 0 <= i < |rows| ensures rows[i].id in Ids(rs) {
      assert i in ord;
      var j :| 0 <= j < |ord| && ord[j] == i;
      assert Ids(rs)[j] == rows[i].id;
    }
  }

  /** The records come out ordered by service start, no wait is negative,
      and each wait is the time from the student's arrival offset to its
      service start. */
  lemma RecordsByStart(rows: seq<Row>, k: nat)
    requires k >= 1
    ensures var rs := Records(rows, k);
      && (forall p, q :: 0 <= p <= q < |rs| ==> rs[p].serviceStart <= rs[q].serviceStart)
      && (forall j :: 0 <= j < |rs| ==> rs[j].waitSec >= 0)
  {
    var reqs := Requested(rows);
    var rs := Records(rows, k);
    RequestsInArrivalOrder(rows);
    StartsNonDecreasing(reqs, k);
    forall p, q | 0 <= p <= q < |rs| ensures rs[p].serviceStart <= rs[q].serviceStart {
      ScheduleStarts(reqs, k, p);
      ScheduleStarts(reqs, k, q);
    }
    forall j | 0 <= j < |rs| ensures rs[j].waitSec >= 0 {
      ScheduleRecords(reqs, k, j);
    }
  }

  /** The requests reach the counters in order of arrival. */
  lemma RequestsInArrivalOrder(rows: seq<Row>)
    ensures ArrivalsNonDecreasing(Requested(rows))
  {
    var ss := Normalise(rows);
    var ord := RequestOrder(ss);
    var reqs := Requested(rows);
    RequestOrderCharacterised(ss);
    forall p, q | 0 <= p <= q < |reqs| ensures reqs[p].arrivalSim <= reqs[q].arrivalSim {
      if p < q {
        assert KeyLess(ss, ord[p], ord[q]);
      }
    }
  }

  /** The makespan of a run is the service start of its last record. */
  lemma MakespanOfRun(rows: seq<Row>, k: nat)
    requires k >= 1 && rows != []
    ensures Makespan(Records(rows, k)) == Records(rows, k)[|rows| - 1].serviceStart
  {
    RecordsByStart(rows, k);
    MakespanIsLastStart(Records(rows, k));
  }

  /** The average wait of a run lies between 0 and its longest wait. */
  lemma RunWaitBounds(rows: seq<Row>, k: nat)
    requires Scenario(rows, k).Ok?
    ensures 0.0 <= Scenario(rows, k).value.avgWaitSec <= Scenario(rows, k).value.maxWaitSec as real
  {
    RecordsByStart(rows, k);
    AverageWaitBounds(Records(rows, k), k);
  }
}
