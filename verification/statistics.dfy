/** The statistics of one run, computed from the records it emitted: the
    makespan is the latest service start, throughput is students served per
    hour of makespan, waits are averaged and maximised, and utilisation is
    the total service time over counters times makespan, as a percentage.
    The makespan ends at the last service START, not at the last service
    end, so utilisation can exceed 100. */
module Statistics {
  import opened Model

  datatype Summary = Summary(numCounters: nat, throughputPerHr: real, avgWaitSec: real,
                             maxWaitSec: int, utilizationPct: real, numServed: nat,
                             details: seq<Record>)

  /** No record was emitted, so there is no service start column to take the
      maximum of; or every service started at 0, so the makespan divides by
      zero. */
  datatype StatsError = NoRecords | ZeroMakespan

  /** The latest service start. */
  function Makespan(rs: seq<Record>): (m: int)
    requires |rs| > 0
    ensures forall i :: 0 <= i < |rs| ==> rs[i].serviceStart <= m
    ensures exists i :: 0 <= i < |rs| && rs[i].serviceStart == m
  {
    if |rs| == 1 then rs[0].serviceStart
    else
      var rest := Makespan(rs[1..]);
      assert forall i :: 1 <= i < |rs| ==> rs[i].serviceStart <= rest by {
        forall i | 1 <= i < |rs| ensures rs[i].serviceStart <= rest {
          assert rs[1..][i - 1] == rs[i];
        }
      }
      assert rs[1..][0] == rs[1];
      Max(rs[0].serviceStart, rest)
  }

  /** The longest wait. */
  function MaxWait(rs: seq<Record>): (m: int)
    requires |rs| > 0
    ensures forall i :: 0 <= i < |rs| ==> rs[i].waitSec <= m
    ensures exists i :: 0 <= i < |rs| && rs[i].waitSec == m
  {
    if |rs| == 1 then rs[0].waitSec
    else
      var rest := MaxWait(rs[1..]);
      assert forall i :: 1 <= i < |rs| ==> rs[i].waitSec <= rest by {
        forall i | 1 <= i < |rs| ensures rs[i].waitSec <= rest {
          assert rs[1..][i - 1] == rs[i];
        }
      }
      assert rs[1..][0] == rs[1];
      Max(rs[0].waitSec, rest)
  }

  function TotalWait(rs: seq<Record>): int {
    if rs == [] then 0 else TotalWait(rs[..|rs| - 1]) + rs[|rs| - 1].waitSec
  }

  function TotalService(rs: seq<Record>): nat {
    if rs == [] then 0 else TotalService(rs[..|rs| - 1]) + rs[|rs| - 1].serviceTimeSec
  }

  /** The summary the run returns, or why it cannot be computed. */
  function Summarize(rs: seq<Record>, k: nat): (r: Result<Summary, StatsError>)
    requires k >= 1
    ensures r.Err? <==> rs == [] || Makespan(rs) == 0
    ensures r.Err? ==> r.error == (if rs == [] then NoRecords else ZeroMakespan)
    ensures r.Ok? ==> r.value.numServed == |rs| && r.value.numCounters == k && r.value.details == rs
    ensures r.Ok? ==> && r.value.throughputPerHr == Throughput(|rs|, Makespan(rs))
                      && r.value.avgWaitSec == Mean(TotalWait(rs), |rs|)
                      && r.value.maxWaitSec == MaxWait(rs)
                      && r.value.utilizationPct == Utilization(TotalService(rs), k, Makespan(rs))
  {
    if rs == [] then Err(NoRecords)
    else
      var m := Makespan(rs);
      if m == 0 then Err(ZeroMakespan)
      else
        var n := |rs|;
        Ok(Summary(k, Throughput(n, m), Mean(TotalWait(rs), n), MaxWait(rs),
                   Utilization(TotalService(rs), k, m), n, rs))
  }

  /** Students served per hour of makespan (given in seconds): times the
      makespan, it gives back 3600 per student served. */
  function Throughput(n: nat, m: int): (rate: real)
    requires m != 0
    ensures rate * (m as real) == (n as real) * 3600.0
  {
    var h := (m as real) / 3600.0;
    assert (m as real) == h * 3600.0;
    assert ((n as real) / h) * h == n as real;
    (n as real) / h
  }

  /** The mean of `n` values summing to `total`: shared out over the values,
      it gives back their total. */
  function Mean(total: int, n: nat): (avg: real)
    requires n > 0
    ensures avg * (n as real) == total as real
  {
    (total as real) / (n as real)
  }

  /** Busy time as a percentage of the counters' combined time: times the
      counters' combined time, it gives back 100 times the busy time. */
  function Utilization(service: nat, k: nat, m: int): (pct: real)
    requires k >= 1 && m != 0
    ensures pct * ((k * m) as real) == (service as real) * 100.0
  {
    assert k * m != 0;
    var c := (k * m) as real;
    assert ((service as real) / c) * c == service as real;
    ((service as real) / c) * 100.0
  }

  /** The total wait is at most the record count times any bound on the
      waits. */
  lemma {:induction false} TotalWaitAtMost(rs: seq<Record>, bound: int)
    requires forall i :: 0 <= i < |rs| ==> rs[i].waitSec <= bound
    ensures TotalWait(rs) <= |rs| * bound
    decreases |rs|
  {
    if rs != [] {
      var n := |rs|;
      var init := rs[..n - 1];
      assert forall i :: 0 <= i < |init| ==> init[i].waitSec <= bound by {
        forall i | 0 <= i < |init| ensures init[i].waitSec <= bound {
          assert init[i] == rs[i];
        }
      }
      TotalWaitAtMost(init, bound);
      assert (n - 1) * bound + bound == n * bound;
    }
  }

  /** No negative wait, no negative total. */
  lemma {:induction false} TotalWaitNonNegative(rs: seq<Record>)
    requires forall i :: 0 <= i < |rs| ==> rs[i].waitSec >= 0
    ensures TotalWait(rs) >= 0
    decreases |rs|
  {
    if rs != [] {
      var init := rs[..|rs| - 1];
      assert forall i :: 0 <= i < |init| ==> init[i].waitSec >= 0 by {
        forall i | 0 <= i < |init| ensures init[i].waitSec >= 0 {
          assert init[i] == rs[i];
        }
      }
      TotalWaitNonNegative(init);
    }
  }

  /** The average wait lies between 0 and the longest wait. */
  lemma AverageWaitBounds(rs: seq<Record>, k: nat)
    requires k >= 1 && Summarize(rs, k).Ok?
    requires forall i :: 0 <= i < |rs| ==> rs[i].waitSec >= 0
    ensures var s := Summarize(rs, k).value;
      0.0 <= s.avgWaitSec <= s.maxWaitSec as real
  {
    TotalWaitAtMost(rs, MaxWait(rs));
    TotalWaitNonNegative(rs);
    MeanBetween(TotalWait(rs), |rs|, MaxWait(rs));
  }

  lemma MeanBetween(total: int, n: nat, most: int)
    requires n > 0 && 0 <= total <= n * most
    ensures 0.0 <= Mean(total, n) <= most as real
  {
    assert (total as real) <= (n as real) * (most as real);
  }

  /** When the service starts never decrease, the makespan is the start of
      the last record. */
  lemma MakespanIsLastStart(rs: seq<Record>)
    requires |rs| > 0
    requires forall p, q :: 0 <= p <= q < |rs| ==> rs[p].serviceStart <= rs[q].serviceStart
    ensures Makespan(rs) == rs[|rs| - 1].serviceStart
  {
  }
}
