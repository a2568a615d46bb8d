/** The values that flow through one registration run: dataset rows, the
    students handed to the simulation, and the records the simulation emits.
    Times are whole seconds. */
module Model {

  /** A row of the loaded dataset: the student's id, the arrival time as
      seconds on an absolute clock, and the drawn service time in seconds. */
  datatype Row = Row(id: string, arrivalTime: int, serviceTime: nat)

  /** A row after normalisation: `arrivalSim` is the arrival time as an
      offset from the earliest arrival of the run. */
  datatype Student = Student(id: string, arrivalTime: int, arrivalSim: int, serviceTime: nat)

  /** What a student process appends to the shared record list at the moment
      it is granted a counter. */
  datatype Record = Record(studentId: string, arrivalTime: int, serviceStart: int,
                           waitSec: int, serviceTimeSec: nat)

  datatype Result<T, E> = Ok(value: T) | Err(error: E)

  /** Listed in order of arrival offset. */
  predicate ArrivalsNonDecreasing(ss: seq<Student>) {
    forall p, q :: 0 <= p <= q < |ss| ==> ss[p].arrivalSim <= ss[q].arrivalSim
  }

  function Max(a: int, b: int): int { if a >= b then a else b }

  /** The row indices 0 .. n-1, in order. */
  function Range(n: nat): seq<nat> { seq(n, i => i) }

  lemma RangeSnoc(n: nat)
    ensures Range(n + 1) == Range(n) + [n]
  {
  }

  lemma RangeSnocCount(n: nat)
    ensures multiset(Range(n + 1)) == multiset(Range(n)) + multiset{n}
  {
    RangeSnoc(n);
  }

  lemma InRange(n: nat, i: nat)
    requires i < n
    ensures i in multiset(Range(n))
  {
    assert Range(n)[i] == i;
  }

  predicate Distinct<T(==)>(s: seq<T>) {
    forall i, j :: 0 <= i < j < |s| ==> s[i] != s[j]
  }

  /** A sequence with the same elements as 0 .. n-1 holds each index once. */
  lemma {:induction false} PermutationOfRange(s: seq<nat>, n: nat)
    requires multiset(s) == multiset(Range(n))
    ensures |s| == n && Distinct(s)
    ensures forall p :: 0 <= p < |s| ==> s[p] < n
    ensures forall i :: 0 <= i < n ==> i in s
  {
    assert |s| == |multiset(s)| == |multiset(Range(n))| == n;
    forall p | 0 <= p < |s| ensures s[p] < n {
      assert s[p] in multiset(Range(n));
    }
    forall i | 0 <= i < n ensures i in s {
      InRange(n, i);
    }
    forall i, j | 0 <= i < j < |s| ensures s[i] != s[j] {
      RangeCount(n, s[i]);
      if s[i] == s[j] {
        TwiceCounted(s, i, j);
      }
    }
  }

  /** Two positions holding the same value count it twice. */
  lemma TwiceCounted(s: seq<nat>, i: nat, j: nat)
    requires i < j < |s| && s[i] == s[j]
    ensures multiset(s)[s[i]] >= 2
  {
    assert s == s[..i] + [s[i]] + s[i + 1..];
    assert s[i + 1..] == s[i + 1..j] + [s[j]] + s[j + 1..];
  }

  lemma {:induction false} RangeCount(n: nat, x: nat)
    ensures multiset(Range(n))[x] <= 1
  {
    if n > 0 {
      RangeCount(n - 1, x);
      RangeSnoc(n - 1);
      if x == n - 1 {
        assert x !in Range(n - 1);
      }
    }
  }

  /** A prefix one longer is the prefix with the next element appended. */
  lemma PrefixSnoc<T>(s: seq<T>, i: nat)
    requires i < |s|
    ensures s[..i + 1] == s[..i] + [s[i]]
  {
  }

  lemma WholePrefix<T>(s: seq<T>, i: nat)
    requires i == |s|
    ensures s[..i] == s
  {
  }
}
