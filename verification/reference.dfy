/** A closed-form description of the registration queue, independent of the
    event-driven engine: k identical counters serve the requests one after
    another in request order; each request starts at the later of its arrival
    offset and the earliest time some counter is free, and that counter is
    then busy until the start plus the service time. The engine in
    simulation.dfy is proved to produce exactly these records. */
module Reference {
  import opened Model

  /** After some requests have been placed: when each counter is next free,
      which counter each request was given, and when each request started. */
  datatype Plan = Plan(free: seq<int>, counter: seq<nat>, starts: seq<int>)

  /** A counter that is free earliest. */
  function ArgMin(f: seq<int>): (c: nat)
    requires |f| > 0
    ensures c < |f| && forall j :: 0 <= j < |f| ==> f[c] <= f[j]
  {
    if |f| == 1 then 0
    else
      var c := ArgMin(f[1..]) + 1;
      if f[0] <= f[c] then 0 else c
  }

  /** The earliest time any counter is free. */
  function EarliestFree(p: Plan): int
    requires |p.free| > 0
  {
    p.free[ArgMin(p.free)]
  }

  /** Places the requests `reqs`, taken in order, on k counters that are all
      free at time 0. */
  function Assign(reqs: seq<Student>, k: nat): (p: Plan)
    requires k >= 1
    ensures |p.free| == k && |p.counter| == |reqs| && |p.starts| == |reqs|
    ensures forall j :: 0 <= j < |reqs| ==> p.counter[j] < k
    ensures forall j :: 0 <= j < |reqs| ==> reqs[j].arrivalSim <= p.starts[j]
  {
    if reqs == [] then Plan(Zeros(k), [], [])
    else
      var prev := Assign(reqs[..|reqs| - 1], k);
      var r := reqs[|reqs| - 1];
      var c := ArgMin(prev.free);
      var start := Max(r.arrivalSim, prev.free[c]);
      Plan(prev.free[c := start + r.serviceTime], prev.counter + [c], prev.starts + [start])
  }

  /** k counters, all free at time 0. */
  function Zeros(k: nat): (z: seq<int>)
    ensures |z| == k && forall c :: 0 <= c < k ==> z[c] == 0
  {
    if k == 0 then [] else Zeros(k - 1) + [0]
  }

  /** The record a request that starts at `start` produces. */
  function RecordOf(r: Student, start: int): Record {
    Record(r.id, r.arrivalTime, start, start - r.arrivalSim, r.serviceTime)
  }

  /** The records of the requests `reqs`, in request order: each request
      starts at the later of its arrival and the earliest time a counter is
      free after the requests before it. */
  function Schedule(reqs: seq<Student>, k: nat): (rs: seq<Record>)
    requires k >= 1
    ensures |rs| == |reqs|
  {
    if reqs == [] then []
    else
      var init := reqs[..|reqs| - 1];
      var r := reqs[|reqs| - 1];
      Schedule(init, k) + [RecordOf(r, Max(r.arrivalSim, EarliestFree(Assign(init, k))))]
  }

  /** Placing one more request leaves the earlier records as they were and
      starts the new one at max(arrival, earliest free counter). */
  lemma ScheduleSnoc(reqs: seq<Student>, r: Student, k: nat)
    requires k >= 1
    ensures Schedule(reqs + [r], k)
         == Schedule(reqs, k) + [RecordOf(r, Max(r.arrivalSim, EarliestFree(Assign(reqs, k))))]
  {
    assert (reqs + [r])[..|reqs|] == reqs;
  }

  /** The j-th record is the j-th request, started when the reference
      placement starts it. */
  lemma {:induction false} ScheduleStarts(reqs: seq<Student>, k: nat, j: nat)
    requires k >= 1 && j < |reqs|
    ensures Schedule(reqs, k)[j] == RecordOf(reqs[j], Assign(reqs, k).starts[j])
    decreases |reqs|
  {
    var n := |reqs|;
    var init := reqs[..n - 1];
    assert reqs == init + [reqs[n - 1]];
    AssignSnoc(init, reqs[n - 1], k);
    if j < n - 1 {
      ScheduleStarts(init, k, j);
    }
  }

  /** Each record belongs to its request, and its wait is the time from the
      arrival offset to the service start, never negative. */
  lemma ScheduleRecords(reqs: seq<Student>, k: nat, j: nat)
    requires k >= 1 && j < |reqs|
    ensures Schedule(reqs, k)[j].studentId == reqs[j].id
    ensures Schedule(reqs, k)[j].arrivalTime == reqs[j].arrivalTime
    ensures Schedule(reqs, k)[j].serviceTimeSec == reqs[j].serviceTime
    ensures Schedule(reqs, k)[j].waitSec == Schedule(reqs, k)[j].serviceStart - reqs[j].arrivalSim
    ensures Schedule(reqs, k)[j].waitSec >= 0
  {
    ScheduleStarts(reqs, k, j);
  }

  lemma AssignSnoc(reqs: seq<Student>, r: Student, k: nat)
    requires k >= 1
    ensures var p := Assign(reqs, k);
            var c := ArgMin(p.free);
            var start := Max(r.arrivalSim, p.free[c]);
            Assign(reqs + [r], k) == Plan(p.free[c := start + r.serviceTime], p.counter + [c], p.starts + [start])
  {
    assert (reqs + [r])[..|reqs|] == reqs;
  }

  /** The free times `f2` are `f` with one counter's free time moved from x
      to y. */
  predicate FreeShift(f: seq<int>, f2: seq<int>, x: int, y: int) {
    multiset(f2) == multiset(f) - multiset{x} + multiset{y}
  }

  /** Placing one more request on the earliest-free counter (free at x): it
      starts at the later of its arrival and x, one record more, and that
      counter's free time moves from x to the end of the new service. */
  lemma PlaceOne(reqs: seq<Student>, r: Student, k: nat, x: int, start: int, y: int)
    requires k >= 1 && x == EarliestFree(Assign(reqs, k))
    requires start == Max(r.arrivalSim, x) && y == start + r.serviceTime
    ensures Schedule(reqs + [r], k) == Schedule(reqs, k) + [RecordOf(r, start)]
    ensures FreeShift(Assign(reqs, k).free, Assign(reqs + [r], k).free, x, y)
  {
    ScheduleSnoc(reqs, r, k);
    PlaceOneFree(reqs, r, k, x, start, y);
    ShiftOne(Assign(reqs, k).free, ArgMin(Assign(reqs, k).free), x, y);
  }

  lemma PlaceOneFree(reqs: seq<Student>, r: Student, k: nat, x: int, start: int, y: int)
    requires k >= 1 && x == EarliestFree(Assign(reqs, k))
    requires start == Max(r.arrivalSim, x) && y == start + r.serviceTime
    ensures Assign(reqs + [r], k).free == Assign(reqs, k).free[ArgMin(Assign(reqs, k).free) := y]
  {
    AssignSnoc(reqs, r, k);
  }

  /** Overwriting one entry shifts the multiset by that entry. */
  lemma ShiftOne(f: seq<int>, c: nat, x: int, y: int)
    requires c < |f| && f[c] == x
    ensures FreeShift(f, f[c := y], x, y)
  {
  }

  /** Placing more requests does not move the ones placed before. */
  lemma {:induction false} AssignPrefix(reqs: seq<Student>, m: nat, k: nat)
    requires k >= 1 && m <= |reqs|
    ensures Assign(reqs[..m], k).starts == Assign(reqs, k).starts[..m]
    ensures Assign(reqs[..m], k).counter == Assign(reqs, k).counter[..m]
    decreases |reqs|
  {
    if m < |reqs| {
      var n := |reqs|;
      assert reqs[..n - 1][..m] == reqs[..m];
      AssignPrefix(reqs[..n - 1], m, k);
    } else {
      assert reqs[..m] == reqs;
    }
  }

  /** The earliest free time never moves backwards as requests are placed. */
  lemma EarliestFreeGrows(reqs: seq<Student>, r: Student, k: nat)
    requires k >= 1
    ensures EarliestFree(Assign(reqs + [r], k)) >= EarliestFree(Assign(reqs, k))
  {
    AssignSnoc(reqs, r, k);
    var p := Assign(reqs, k);
    var q := Assign(reqs + [r], k);
    var m := ArgMin(q.free);
    assert q.free[m] >= EarliestFree(p);
  }

  /** Taken in request order, service starts never decrease. */
  lemma {:induction false} StartsNonDecreasing(reqs: seq<Student>, k: nat)
    requires k >= 1 && ArrivalsNonDecreasing(reqs)
    ensures forall p, q :: 0 <= p <= q < |reqs| ==> Assign(reqs, k).starts[p] <= Assign(reqs, k).starts[q]
    decreases |reqs|
  {
    var n := |reqs|;
    if n > 1 {
      var init := reqs[..n - 1];
      assert ArrivalsNonDecreasing(init) by {
        forall p, q | 0 <= p <= q < |init| ensures init[p].arrivalSim <= init[q].arrivalSim {
          assert init[p] == reqs[p] && init[q] == reqs[q];
        }
      }
      StartsNonDecreasing(init, k);
      AssignPrefix(reqs, n - 1, k);
      LastTwoStarts(reqs, k);
      SortedSnoc(Assign(reqs, k).starts, Assign(init, k).starts);
    }
  }

  predicate Sorted(s: seq<int>) {
    forall p, q :: 0 <= p <= q < |s| ==> s[p] <= s[q]
  }

  /** A sorted sequence extended by an element no smaller than its last. */
  lemma SortedSnoc(s: seq<int>, t: seq<int>)
    requires |s| > 1 && t == s[..|s| - 1] && Sorted(t) && s[|s| - 2] <= s[|s| - 1]
    ensures Sorted(s)
  {
    var n := |s|;
    forall p, q | 0 <= p <= q < n ensures s[p] <= s[q] {
      if q < n - 1 {
        assert s[p] == t[p] && s[q] == t[q];
      } else if p < n - 1 {
        assert s[p] == t[p] && s[n - 2] == t[n - 2];
      }
    }
  }

  /** Of two requests in arrival order, the later one starts no earlier. */
  lemma LastTwoStarts(reqs: seq<Student>, k: nat)
    requires k >= 1 && |reqs| > 1 && reqs[|reqs| - 2].arrivalSim <= reqs[|reqs| - 1].arrivalSim
    ensures Assign(reqs, k).starts[|reqs| - 2] <= Assign(reqs, k).starts[|reqs| - 1]
  {
    var n := |reqs|;
    StartAt(reqs, k, n - 1);
    StartAt(reqs, k, n - 2);
    EarliestFreeGrowsAt(reqs, n - 2, k);
  }

  lemma EarliestFreeGrowsAt(reqs: seq<Student>, m: nat, k: nat)
    requires k >= 1 && m < |reqs|
    ensures EarliestFree(Assign(reqs[..m + 1], k)) >= EarliestFree(Assign(reqs[..m], k))
  {
    PrefixSnoc(reqs, m);
    EarliestFreeGrows(reqs[..m], reqs[m], k);
  }

  /** Request j starts at the later of its arrival and the earliest time a
      counter is free after the requests before it. */
  lemma StartAt(reqs: seq<Student>, k: nat, j: nat)
    requires k >= 1 && j < |reqs|
    ensures Assign(reqs, k).starts[j] == Max(reqs[j].arrivalSim, EarliestFree(Assign(reqs[..j], k)))
  {
    AssignPrefix(reqs, j + 1, k);
    PrefixSnoc(reqs, j);
    AssignSnoc(reqs[..j], reqs[j], k);
  }

  /** A request waits exactly when, at its arrival, every counter is still
      busy with earlier requests. */
  lemma WaitsOnlyWhenAllBusy(reqs: seq<Student>, k: nat, j: nat)
    requires k >= 1 && j < |reqs|
    ensures Assign(reqs, k).starts[j] > reqs[j].arrivalSim
        <==> forall c :: 0 <= c < k ==> Assign(reqs[..j], k).free[c] > reqs[j].arrivalSim
  {
    StartAt(reqs, k, j);
    LaterThanEarliest(Assign(reqs[..j], k).free, reqs[j].arrivalSim);
  }

  /** Starting later than t at the earliest free counter means every counter
      is busy past t. */
  lemma LaterThanEarliest(f: seq<int>, t: int)
    requires |f| > 0
    ensures Max(t, f[ArgMin(f)]) > t <==> forall c :: 0 <= c < |f| ==> f[c] > t
  {
  }

  /** The first request, arriving at a non-negative offset, starts on
      arrival: every counter is free at time 0. */
  lemma FirstStartsOnArrival(reqs: seq<Student>, k: nat)
    requires k >= 1 && |reqs| > 0 && reqs[0].arrivalSim >= 0
    ensures Assign(reqs, k).starts[0] == reqs[0].arrivalSim
  {
    StartAt(reqs, k, 0);
    assert reqs[..0] == [];
  }

  /** With one counter, every request after the first starts at max(its
      arrival, previous start + previous service). */
  lemma SingleCounter(reqs: seq<Student>, k: nat, j: nat)
    requires k == 1 && 0 < j < |reqs|
    ensures Assign(reqs, k).starts[j]
         == Max(reqs[j].arrivalSim, Assign(reqs, k).starts[j - 1] + reqs[j - 1].serviceTime)
  {
    var s := Assign(reqs, k).starts;
    StartAt(reqs, k, j);
    var init := reqs[..j];
    assert EarliestFree(Assign(init, k)) == s[j - 1] + reqs[j - 1].serviceTime by {
      OneCounterFree(init, k);
      AssignPrefix(reqs, j, k);
    }
  }

  /** With one counter, it is next free when the last request placed ends. */
  lemma OneCounterFree(reqs: seq<Student>, k: nat)
    requires k == 1 && |reqs| > 0
    ensures var p := Assign(reqs, k);
            p.free == [p.starts[|reqs| - 1] + reqs[|reqs| - 1].serviceTime]
  {
    var n := |reqs|;
    assert reqs == reqs[..n - 1] + [reqs[n - 1]];
    AssignSnoc(reqs[..n - 1], reqs[n - 1], k);
  }
}
