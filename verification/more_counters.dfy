/** Opening more counters never makes a run worse. For the same students,
    every request starts no later with more counters. Hence no wait is
    longer, the average and longest waits do not rise, and throughput does
    not fall.

    The proof counts, for every time t, how many counters are free by t.
    With more counters that count is never smaller, and placing a request
    keeps it so. */
module MoreCounters {
  import opened Model
  import opened Requests
  import opened Reference
  import opened Normalisation
  import opened Statistics
  import opened Scenarios

  /** How many of the counters, with free times `f`, are free by time t. */
  function FreeBy(f: seq<int>, t: int): (n: nat)
    ensures n <= |f|
  {
    if f == [] then 0 else FreeBy(f[..|f| - 1], t) + (if f[|f| - 1] <= t then 1 else 0)
  }

  /** By every time, at least as many counters of `f2` as of `f1` are free. */
  ghost predicate Dominates(f2: seq<int>, f1: seq<int>) {
    forall t :: FreeBy(f1, t) <= FreeBy(f2, t)
  }

  /** Moving one counter's free time changes the count by that counter
      alone. */
  lemma {:induction false} FreeByUpdate(f: seq<int>, c: nat, y: int, t: int)
    requires c < |f|
    ensures FreeBy(f[c := y], t)
         == FreeBy(f, t) - (if f[c] <= t then 1 else 0) + (if y <= t then 1 else 0)
    decreases |f|
  {
    var n := |f|;
    var g := f[c := y];
    if c == n - 1 {
      assert g[..n - 1] == f[..n - 1];
    } else {
      assert g[..n - 1] == f[..n - 1][c := y];
      FreeByUpdate(f[..n - 1], c, y, t);
    }
  }

  /** A counter free by t is counted. */
  lemma {:induction false} FreeBySome(f: seq<int>, c: nat, t: int)
    requires c < |f| && f[c] <= t
    ensures FreeBy(f, t) >= 1
    decreases |f|
  {
    var n := |f|;
    if c < n - 1 {
      assert f[..n - 1][c] == f[c];
      FreeBySome(f[..n - 1], c, t);
    }
  }

  /** When every counter is busy past t, none is counted. */
  lemma {:induction false} FreeByNone(f: seq<int>, t: int)
    requires forall c :: 0 <= c < |f| ==> t < f[c]
    ensures FreeBy(f, t) == 0
    decreases |f|
  {
    if f != [] {
      var init := f[..|f| - 1];
      forall c | 0 <= c < |init| ensures t < init[c] {
        assert init[c] == f[c];
      }
      FreeByNone(init, t);
    }
  }

  /** All k counters are free from time 0. */
  lemma {:induction false} FreeByZeros(k: nat, t: int)
    ensures FreeBy(Zeros(k), t) == if t >= 0 then k else 0
    decreases k
  {
    if k > 0 {
      assert Zeros(k)[..k - 1] == Zeros(k - 1);
      FreeByZeros(k - 1, t);
    }
  }

  /** If at least as many counters of `f2` are free by every time, the
      earliest free time of `f2` is no later. */
  lemma EarliestDominated(f1: seq<int>, f2: seq<int>)
    requires |f1| > 0 && |f2| > 0 && Dominates(f2, f1)
    ensures f2[ArgMin(f2)] <= f1[ArgMin(f1)]
  {
    var m1 := f1[ArgMin(f1)];
    FreeBySome(f1, ArgMin(f1), m1);
    assert FreeBy(f2, m1) >= 1;
    if f2[ArgMin(f2)] > m1 {
      FreeByNone(f2, m1);
    }
  }

  /** Both placements move their earliest-free counter, the dominating one
      to no later a time; it stays dominating. */
  lemma PlaceDominated(f1: seq<int>, y1: int, f2: seq<int>, y2: int)
    requires |f1| > 0 && |f2| > 0 && Dominates(f2, f1)
    requires f2[ArgMin(f2)] <= f1[ArgMin(f1)] <= y1 && y2 <= y1
    ensures Dominates(f2[ArgMin(f2) := y2], f1[ArgMin(f1) := y1])
  {
    var c1, c2 := ArgMin(f1), ArgMin(f2);
    var g1, g2 := f1[c1 := y1], f2[c2 := y2];
    forall t ensures FreeBy(g1, t) <= FreeBy(g2, t) {
      FreeByUpdate(f1, c1, y1, t);
      FreeByUpdate(f2, c2, y2, t);
      if f2[c2] <= t < f1[c1] {
        FreeByNone(f1, t);
      }
    }
  }

  /** Plan `p2` is no worse than `p1`: by every time at least as many of
      its counters are free, and each request placed so far started no
      later. */
  ghost predicate NoWorse(p2: Plan, p1: Plan) {
    && Dominates(p2.free, p1.free)
    && |p2.starts| == |p1.starts|
    && forall j :: 0 <= j < |p1.starts| ==> p2.starts[j] <= p1.starts[j]
  }

  /** A request placed on its earliest-free counter, as each step of
      `Assign` places it. */
  function Place(p: Plan, r: Student): (q: Plan)
    requires |p.free| > 0
    ensures |q.free| == |p.free| && |q.starts| == |p.starts| + 1
    ensures q.starts[..|p.starts|] == p.starts && p.free[ArgMin(p.free)] <= q.starts[|p.starts|]
  {
    var c := ArgMin(p.free);
    var start := Max(r.arrivalSim, p.free[c]);
    Plan(p.free[c := start + r.serviceTime], p.counter + [c], p.starts + [start])
  }

  /** Placing the same request on both plans, each on its earliest-free
      counter, keeps the better plan no worse. */
  lemma PlaceNoWorse(p1: Plan, p2: Plan, r: Student)
    requires |p1.free| > 0 && |p2.free| > 0 && NoWorse(p2, p1)
    ensures NoWorse(Place(p2, r), Place(p1, r))
  {
    EarliestDominated(p1.free, p2.free);
    var c1, c2 := ArgMin(p1.free), ArgMin(p2.free);
    var s1, s2 := Max(r.arrivalSim, p1.free[c1]), Max(r.arrivalSim, p2.free[c2]);
    PlaceDominated(p1.free, s1 + r.serviceTime, p2.free, s2 + r.serviceTime);
    Append1(p1.starts, s1);
    Append1(p2.starts, s2);
  }

  /** The last element of a sequence extended by one is the new one, and
      the others stay. */
  lemma Append1(s: seq<int>, x: int)
    ensures |s + [x]| == |s| + 1 && (s + [x])[|s|] == x
    ensures forall j :: 0 <= j < |s| ==> (s + [x])[j] == s[j]
  {
  }

  /** Before any request, more counters are no worse. */
  lemma NoWorseAtOpening(k1: nat, k2: nat)
    requires 1 <= k1 <= k2
    ensures NoWorse(Plan(Zeros(k2), [], []), Plan(Zeros(k1), [], []))
  {
    forall t ensures FreeBy(Zeros(k1), t) <= FreeBy(Zeros(k2), t) {
      FreeByZeros(k1, t);
      FreeByZeros(k2, t);
    }
  }

  /** With more counters, every request starts no later, and by every time
      at least as many counters are free. */
  lemma {:induction false} MoreCountersPlan(reqs: seq<Student>, k1: nat, k2: nat)
    requires 1 <= k1 <= k2
    ensures NoWorse(Assign(reqs, k2), Assign(reqs, k1))
    decreases |reqs|
  {
    if reqs == [] {
      NoWorseAtOpening(k1, k2);
    } else {
      MoreCountersPlan(reqs[..|reqs| - 1], k1, k2);
      NoWorseStep(reqs, k1, k2);
    }
  }

  /** Placing the last request keeps the plan with more counters no
      worse. */
  lemma NoWorseStep(reqs: seq<Student>, k1: nat, k2: nat)
    requires 1 <= k1 <= k2 && reqs != []
    requires NoWorse(Assign(reqs[..|reqs| - 1], k2), Assign(reqs[..|reqs| - 1], k1))
    ensures NoWorse(Assign(reqs, k2), Assign(reqs, k1))
  {
    var init, r := reqs[..|reqs| - 1], reqs[|reqs| - 1];
    AssignPlace(reqs, k1);
    AssignPlace(reqs, k2);
    PlaceNoWorse(Assign(init, k1), Assign(init, k2), r);
  }

  /** Each step of `Assign` is a `Place`. */
  lemma AssignPlace(reqs: seq<Student>, k: nat)
    requires k >= 1 && reqs != []
    ensures Assign(reqs, k) == Place(Assign(reqs[..|reqs| - 1], k), reqs[|reqs| - 1])
  {
  }

  /** With more counters, each record starts no later and waits no
      longer. */
  lemma MoreCountersRecords(reqs: seq<Student>, k1: nat, k2: nat)
    requires 1 <= k1 <= k2
    ensures forall j :: 0 <= j < |reqs| ==>
              && Schedule(reqs, k2)[j].serviceStart <= Schedule(reqs, k1)[j].serviceStart
              && Schedule(reqs, k2)[j].waitSec <= Schedule(reqs, k1)[j].waitSec
  {
    MoreCountersPlan(reqs, k1, k2);
    forall j | 0 <= j < |reqs|
      ensures Schedule(reqs, k2)[j].serviceStart <= Schedule(reqs, k1)[j].serviceStart
      ensures Schedule(reqs, k2)[j].waitSec <= Schedule(reqs, k1)[j].waitSec
    {
      ScheduleStarts(reqs, k1, j);
      ScheduleStarts(reqs, k2, j);
    }
  }

  /** Record by record no wait is longer, so neither is their total. */
  lemma {:induction false} TotalWaitNoMore(rs1: seq<Record>, rs2: seq<Record>)
    requires |rs1| == |rs2| && forall j :: 0 <= j < |rs1| ==> rs2[j].waitSec <= rs1[j].waitSec
    ensures TotalWait(rs2) <= TotalWait(rs1)
    decreases |rs1|
  {
    if rs1 != [] {
      var n := |rs1|;
      var i1, i2 := rs1[..n - 1], rs2[..n - 1];
      forall j | 0 <= j < |i1| ensures i2[j].waitSec <= i1[j].waitSec {
        assert i1[j] == rs1[j] && i2[j] == rs2[j];
      }
      TotalWaitNoMore(i1, i2);
    }
  }

  /** A shorter makespan means a higher throughput. */
  lemma ThroughputNoLess(n: nat, m2: int, m1: int)
    requires 0 < m2 <= m1
    ensures Throughput(n, m1) <= Throughput(n, m2)
  {
    var t1, t2 := Throughput(n, m1), Throughput(n, m2);
    assert t1 >= 0.0 by {
      assert t1 * (m1 as real) >= 0.0;
    }
    assert t2 * (m2 as real) == t1 * (m1 as real) >= t1 * (m2 as real);
  }

  /** A smaller total over as many values has a smaller mean. */
  lemma MeanNoMore(total2: int, total1: int, n: nat)
    requires n > 0 && total2 <= total1
    ensures Mean(total2, n) <= Mean(total1, n)
  {
    assert (total2 as real) <= (total1 as real);
  }

  /** Records that start no later and wait no longer, record by record, give
      a summary no worse: the longest and the average wait do not rise and
      throughput does not fall. */
  lemma SummaryNoWorse(rs1: seq<Record>, rs2: seq<Record>, k1: nat, k2: nat)
    requires 1 <= k1 && 1 <= k2 && |rs1| == |rs2|
    requires forall j :: 0 <= j < |rs1| ==>
               && 0 <= rs2[j].serviceStart <= rs1[j].serviceStart
               && rs2[j].waitSec <= rs1[j].waitSec
    requires Summarize(rs1, k1).Ok? && Summarize(rs2, k2).Ok?
    ensures var s1, s2 := Summarize(rs1, k1).value, Summarize(rs2, k2).value;
      && s2.maxWaitSec <= s1.maxWaitSec
      && s2.avgWaitSec <= s1.avgWaitSec
      && s2.throughputPerHr >= s1.throughputPerHr
  {
    var i :| 0 <= i < |rs2| && rs2[i].waitSec == MaxWait(rs2);
    assert rs2[i].waitSec <= rs1[i].waitSec <= MaxWait(rs1);
    var p :| 0 <= p < |rs2| && rs2[p].serviceStart == Makespan(rs2);
    assert rs2[p].serviceStart <= rs1[p].serviceStart <= Makespan(rs1);
    TotalWaitNoMore(rs1, rs2);
    MeanNoMore(TotalWait(rs2), TotalWait(rs1), |rs1|);
    ThroughputNoLess(|rs1|, Makespan(rs2), Makespan(rs1));
  }

  /** Every request of a run starts at or after time 0. */
  lemma StartsFromZero(rows: seq<Row>, k: nat)
    requires k >= 1 && rows != []
    ensures forall j :: 0 <= j < |rows| ==> Records(rows, k)[j].serviceStart >= 0
  {
    var ss := Normalise(rows);
    var reqs := Requested(rows);
    OffsetsFromZero(rows);
    forall j | 0 <= j < |rows| ensures Records(rows, k)[j].serviceStart >= 0 {
      ScheduleStarts(reqs, k, j);
      assert reqs[j] == ss[RequestOrder(ss)[j]];
    }
  }

  /** For the same students, a run with more counters is no worse: its
      longest and average waits are no greater and its throughput is no
      lower. */
  lemma MoreCountersNoWorse(rows: seq<Row>, k1: nat, k2: nat)
    requires 1 <= k1 <= k2 && Scenario(rows, k1).Ok? && Scenario(rows, k2).Ok?
    ensures var s1, s2 := Scenario(rows, k1).value, Scenario(rows, k2).value;
      && s2.maxWaitSec <= s1.maxWaitSec
      && s2.avgWaitSec <= s1.avgWaitSec
      && s2.throughputPerHr >= s1.throughputPerHr
  {
    MoreCountersRecords(Requested(rows), k1, k2);
    StartsFromZero(rows, k2);
    SummaryNoWorse(Records(rows, k1), Records(rows, k2), k1, k2);
  }
}
