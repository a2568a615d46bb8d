/** The opening rush worked through by hand: two students a and b arrive
    together at the opening time and a third, c, 100 seconds later, each
    needing 500 seconds at a counter. Because the makespan stops at the last
    service start, both one and two counters are reported more than 100%
    utilised. */
module WorkedExamples {
  import opened Model
  import opened Requests
  import opened Reference
  import opened Normalisation
  import opened Statistics
  import opened Scenarios

  /** Two students at the opening time and a third 100 seconds later, each
      needing 500 seconds at a counter. */
  predicate Opening(rows: seq<Row>, base: int, a: string, b: string, c: string) {
    rows == [Row(a, base, 500), Row(b, base, 500), Row(c, base + 100, 500)]
  }

  /** The opening requests, in request order. */
  predicate OpeningQueue(reqs: seq<Student>, base: int, a: string, b: string, c: string) {
    reqs == [Student(a, base, 0, 500), Student(b, base, 0, 500), Student(c, base + 100, 100, 500)]
  }

  /** Normalisation puts the opening at offset 0, and the requests are made
      in row order. */
  lemma OpeningRequests(rows: seq<Row>, base: int, a: string, b: string, c: string)
    requires Opening(rows, base, a, b, c)
    ensures OpeningQueue(Requested(rows), base, a, b, c)
  {
    assert Earliest(rows[2..]) == base + 100;
    assert Earliest(rows[1..]) == base;
    var ss := Normalise(rows);
    assert OpeningQueue(ss, base, a, b, c);
    InOrderRows(ss);
  }

  /** The arrival offsets and service times of the opening requests. */
  predicate OpeningTimes(reqs: seq<Student>) {
    && |reqs| == 3
    && reqs[0].arrivalSim == 0 && reqs[1].arrivalSim == 0 && reqs[2].arrivalSim == 100
    && reqs[0].serviceTime == 500 && reqs[1].serviceTime == 500 && reqs[2].serviceTime == 500
  }

  /** One counter: the three requests are served back to back. */
  lemma OneCounterSchedule(reqs: seq<Student>, base: int, a: string, b: string, c: string, k: nat)
    requires OpeningQueue(reqs, base, a, b, c) && k == 1
    ensures Schedule(reqs, k) == [Record(a, base, 0, 0, 500), Record(b, base, 500, 500, 500),
                                  Record(c, base + 100, 1000, 900, 500)]
  {
    OneCounterPlan(reqs, k);
    ThreeRecords(reqs, k, [0, 500, 1000]);
  }

  /** Where the three requests go on one counter. */
  lemma OneCounterPlan(reqs: seq<Student>, k: nat)
    requires OpeningTimes(reqs) && k == 1
    ensures Assign(reqs, k).starts == [0, 500, 1000]
  {
    OneCounterFirst(reqs, k);
    OneCounterSecond(reqs, k);
    OnlyCounter([1000], 1500);
    PlaceAt(reqs, 2, k, [1000], [0, 0], [0, 500], 0, 1000, 1500, [1500]);
    Append2(0, 500, 1000);
    WholePrefix(reqs, 3);
  }

  lemma OneCounterFirst(reqs: seq<Student>, k: nat)
    requires OpeningTimes(reqs) && k == 1
    ensures Assign(reqs[..1], k) == Plan([500], [0], [0])
  {
    OneZero();
    OnlyCounter([0], 500);
    FirstPlacement(reqs, k, [0], 0, [500]);
  }

  lemma OneCounterSecond(reqs: seq<Student>, k: nat)
    requires OpeningTimes(reqs) && k == 1 && Assign(reqs[..1], k) == Plan([500], [0], [0])
    ensures Assign(reqs[..2], k) == Plan([1000], [0, 0], [0, 500])
  {
    OnlyCounter([500], 1000);
    PlaceAt(reqs, 1, k, [500], [0], [0], 0, 500, 1000, [1000]);
    Append1<nat>(0, 0);
    Append1(0, 500);
  }

  lemma OneZero()
    ensures Zeros(1) == [0]
  {
  }

  lemma TwoZeros()
    ensures Zeros(2) == [0, 0]
  {
    OneZero();
  }

  lemma OnlyCounter(f: seq<int>, y: int)
    requires |f| == 1
    ensures ArgMin(f) == 0 && f[0 := y] == [y]
  {
  }

  /** Two counters: both opening students start at once, the third waits
      until 500 for the first counter to come free. */
  lemma TwoCounterSchedule(reqs: seq<Student>, base: int, a: string, b: string, c: string, k: nat)
    requires OpeningQueue(reqs, base, a, b, c) && k == 2
    ensures Schedule(reqs, k) == [Record(a, base, 0, 0, 500), Record(b, base, 0, 0, 500),
                                  Record(c, base + 100, 500, 400, 500)]
  {
    TwoCounterPlan(reqs, k);
    ThreeRecords(reqs, k, [0, 0, 500]);
  }

  /** Where the three requests go on two counters. */
  lemma TwoCounterPlan(reqs: seq<Student>, k: nat)
    requires OpeningTimes(reqs) && k == 2
    ensures Assign(reqs, k).starts == [0, 0, 500]
  {
    TwoCounterFirst(reqs, k);
    TwoCounterSecond(reqs, k);
    FirstCounterFree([500, 500], 1000, [1000, 500]);
    PlaceAt(reqs, 2, k, [500, 500], [0, 1], [0, 0], 0, 500, 1000, [1000, 500]);
    Append2(0, 0, 500);
    WholePrefix(reqs, 3);
  }

  lemma TwoCounterFirst(reqs: seq<Student>, k: nat)
    requires OpeningTimes(reqs) && k == 2
    ensures Assign(reqs[..1], k) == Plan([500, 0], [0], [0])
  {
    TwoZeros();
    FirstCounterFree([0, 0], 500, [500, 0]);
    FirstPlacement(reqs, k, [0, 0], 0, [500, 0]);
  }

  lemma TwoCounterSecond(reqs: seq<Student>, k: nat)
    requires OpeningTimes(reqs) && k == 2 && Assign(reqs[..1], k) == Plan([500, 0], [0], [0])
    ensures Assign(reqs[..2], k) == Plan([500, 500], [0, 1], [0, 0])
  {
    SecondCounterFree();
    PlaceAt(reqs, 1, k, [500, 0], [0], [0], 1, 0, 500, [500, 500]);
    Append1<nat>(0, 1);
    Append1(0, 0);
  }

  lemma FirstCounterFree(f: seq<int>, y: int, f2: seq<int>)
    requires |f| == 2 && f[0] <= f[1] && f2 == [y, f[1]]
    ensures ArgMin(f) == 0 && f[0 := y] == f2
  {
    assert f[1..] == [f[1]];
  }

  lemma Append1<T>(x: T, y: T)
    ensures [x] + [y] == [x, y]
  {
  }

  lemma Append2<T>(x: T, y: T, z: T)
    ensures [x, y] + [z] == [x, y, z]
  {
  }

  lemma SecondCounterFree()
    ensures ArgMin([500, 0]) == 1 && [500, 0][1] == 0 && [500, 0][1 := 500] == [500, 500]
  {
    assert [500, 0][1..] == [0];
  }

  /** The first request, arriving at offset 0, placed on k idle counters. */
  lemma FirstPlacement(reqs: seq<Student>, k: nat, zeros: seq<int>, c: nat, free2: seq<int>)
    requires k >= 1 && reqs != [] && reqs[0].arrivalSim == 0 && zeros == Zeros(k)
    requires c == ArgMin(zeros) && free2 == zeros[c := reqs[0].serviceTime]
    ensures Assign(reqs[..1], k) == Plan(free2, [c], [0])
  {
    assert reqs[..0] == [];
    PlaceAt(reqs, 0, k, zeros, [], [], c, 0, reqs[0].serviceTime, free2);
  }

  /** Request g placed on a known plan of the requests before it. */
  lemma PlaceAt(reqs: seq<Student>, g: nat, k: nat,
                free: seq<int>, counter: seq<nat>, starts: seq<int>, c: nat, start: int, y: int, free2: seq<int>)
    requires k >= 1 && g < |reqs| && Assign(reqs[..g], k) == Plan(free, counter, starts)
    requires |free| > 0 && c == ArgMin(free) && start == Max(reqs[g].arrivalSim, free[c])
    requires y == start + reqs[g].serviceTime && free2 == free[c := y]
    ensures Assign(reqs[..g + 1], k) == Plan(free2, counter + [c], starts + [start])
  {
    PrefixSnoc(reqs, g);
    AssignSnoc(reqs[..g], reqs[g], k);
  }

  /** The records of three requests, read off their starts. */
  lemma ThreeRecords(reqs: seq<Student>, k: nat, starts: seq<int>)
    requires k >= 1 && |reqs| == 3 && Assign(reqs, k).starts == starts
    ensures Schedule(reqs, k)
         == [RecordOf(reqs[0], starts[0]), RecordOf(reqs[1], starts[1]), RecordOf(reqs[2], starts[2])]
  {
    ScheduleStarts(reqs, k, 0);
    ScheduleStarts(reqs, k, 1);
    ScheduleStarts(reqs, k, 2);
  }

  /** With one counter the third student waits 900 seconds, the run spans
      1000 seconds to the last service start, and the counter is reported
      150% utilised. */
  lemma OneCounterExample(rows: seq<Row>, base: int, a: string, b: string, c: string, k: nat)
    requires Opening(rows, base, a, b, c) && k == 1
    ensures Records(rows, k) == [Record(a, base, 0, 0, 500), Record(b, base, 500, 500, 500),
                                 Record(c, base + 100, 1000, 900, 500)]
    ensures Scenario(rows, k).Ok?
    ensures Scenario(rows, k).value.maxWaitSec == 900
    ensures Scenario(rows, k).value.avgWaitSec == 1400.0 / 3.0
    ensures Scenario(rows, k).value.throughputPerHr == 10.8
    ensures Scenario(rows, k).value.utilizationPct == 150.0
  {
    OpeningRequests(rows, base, a, b, c);
    OneCounterSchedule(Requested(rows), base, a, b, c, k);
    OpeningSummary(rows, Records(rows, k), base, a, b, c, k, 500, 1000, 900);
    OneCounterRates();
  }

  /** With two counters the third student waits 400 seconds, the run spans
      500 seconds, and the counters are still reported 150% utilised. */
  lemma TwoCounterExample(rows: seq<Row>, base: int, a: string, b: string, c: string, k: nat)
    requires Opening(rows, base, a, b, c) && k == 2
    ensures Records(rows, k) == [Record(a, base, 0, 0, 500), Record(b, base, 0, 0, 500),
                                 Record(c, base + 100, 500, 400, 500)]
    ensures Scenario(rows, k).Ok?
    ensures Scenario(rows, k).value.maxWaitSec == 400
    ensures Scenario(rows, k).value.avgWaitSec == 400.0 / 3.0
    ensures Scenario(rows, k).value.throughputPerHr == 21.6
    ensures Scenario(rows, k).value.utilizationPct == 150.0
  {
    OpeningRequests(rows, base, a, b, c);
    TwoCounterSchedule(Requested(rows), base, a, b, c, k);
    OpeningSummary(rows, Records(rows, k), base, a, b, c, k, 0, 500, 400);
    TwoCounterRates();
  }

  lemma OneCounterRates()
    ensures Throughput(3, 1000) == 10.8 && Mean(500 + 900, 3) == 1400.0 / 3.0
    ensures Utilization(1500, 1, 1000) == 150.0
  {
  }

  lemma TwoCounterRates()
    ensures Throughput(3, 500) == 21.6 && Mean(0 + 400, 3) == 400.0 / 3.0
    ensures Utilization(1500, 2, 500) == 150.0
  {
  }

  /** The scenario result of the opening rush, given its records. */
  lemma OpeningSummary(rows: seq<Row>, rs: seq<Record>, base: int, a: string, b: string, c: string,
                       k: nat, s2: int, last: int, w3: int)
    requires k >= 1 && 0 <= s2 <= last && 0 < last && s2 <= w3 && rs == Records(rows, k)
    requires rs == [Record(a, base, 0, 0, 500), Record(b, base, s2, s2, 500),
                    Record(c, base + 100, last, w3, 500)]
    ensures Scenario(rows, k)
         == Ok(Summary(k, Throughput(3, last), Mean(s2 + w3, 3), w3, Utilization(1500, k, last), 3, rs))
  {
    OpeningStats(rs, base, a, b, c, k, s2, last, w3);
  }

  lemma OpeningStats(rs: seq<Record>, base: int, a: string, b: string, c: string,
                     k: nat, s2: int, last: int, w3: int)
    requires k >= 1 && 0 <= s2 <= last && 0 < last && s2 <= w3
    requires rs == [Record(a, base, 0, 0, 500), Record(b, base, s2, s2, 500),
                    Record(c, base + 100, last, w3, 500)]
    ensures Summarize(rs, k)
         == Ok(Summary(k, Throughput(3, last), Mean(s2 + w3, 3), w3, Utilization(1500, k, last), 3, rs))
  {
    Totals(rs, base, a, b, c, s2, last, w3);
  }

  /** The totals of three records of 500 seconds' service each. */
  lemma Totals(rs: seq<Record>, base: int, a: string, b: string, c: string, s2: int, last: int, w3: int)
    requires 0 <= s2 <= last && s2 <= w3
    requires rs == [Record(a, base, 0, 0, 500), Record(b, base, s2, s2, 500),
                    Record(c, base + 100, last, w3, 500)]
    ensures Makespan(rs) == last && MaxWait(rs) == w3
    ensures TotalService(rs) == 1500 && TotalWait(rs) == s2 + w3
  {
    var tail, last1 := rs[1..], rs[2..];
    assert tail[1..] == last1;
    assert Makespan(last1) == last && MaxWait(last1) == w3;
    assert Makespan(tail) == last && MaxWait(tail) == w3;
    var init, first := rs[..2], rs[..1];
    assert init[..1] == first && first[..0] == [];
    assert TotalService(first) == 500 && TotalWait(first) == 0;
    assert TotalService(init) == 1000 && TotalWait(init) == s2;
  }
}
