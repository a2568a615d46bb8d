/** The order in which the students' counter requests reach the counter
    pool. Every process is registered at time 0 in row order, so the
    arrival wake-ups fire by arrival offset, and wake-ups due at the same
    instant fire in registration (row) order. The rows themselves are never
    sorted. */
module Requests {
  import opened Model

  /** Row i requests a counter before row j. */
  predicate KeyLess(ss: seq<Student>, i: nat, j: nat)
    requires i < |ss| && j < |ss|
  {
    ss[i].arrivalSim < ss[j].arrivalSim || (ss[i].arrivalSim == ss[j].arrivalSim && i < j)
  }

  predicate InBounds(ss: seq<Student>, ord: seq<nat>) {
    forall p :: 0 <= p < |ord| ==> ord[p] < |ss|
  }

  predicate KeySorted(ss: seq<Student>, ord: seq<nat>)
    requires InBounds(ss, ord)
  {
    forall p, q :: 0 <= p < q < |ord| ==> KeyLess(ss, ord[p], ord[q])
  }

  /** Places row i in front of the first row of `ord` it requests before. */
  function InsertByKey(ord: seq<nat>, i: nat, ss: seq<Student>): (r: seq<nat>)
    requires i < |ss| && InBounds(ss, ord)
    ensures |r| == |ord| + 1 && InBounds(ss, r)
  {
    if ord == [] || KeyLess(ss, i, ord[0]) then [i] + ord
    else [ord[0]] + InsertByKey(ord[1..], i, ss)
  }

  /** Placing a row adds exactly that row. */
  lemma {:induction false} InsertByKeyElems(ord: seq<nat>, i: nat, ss: seq<Student>)
    requires i < |ss| && InBounds(ss, ord)
    ensures multiset(InsertByKey(ord, i, ss)) == multiset(ord) + multiset{i}
    ensures forall x :: x in InsertByKey(ord, i, ss) <==> x == i || x in ord
  {
    if ord != [] && !KeyLess(ss, i, ord[0]) {
      InsertByKeyElems(ord[1..], i, ss);
      assert ord == [ord[0]] + ord[1..];
    }
  }

  /** The first m rows of `ss` in request order. */
  function SortFirst(ss: seq<Student>, m: nat): (r: seq<nat>)
    requires m <= |ss|
    ensures |r| == m && InBounds(ss, r)
    ensures forall p :: 0 <= p < |r| ==> r[p] < m
  {
    if m == 0 then []
    else
      var prev := SortFirst(ss, m - 1);
      var r := InsertByKey(prev, m - 1, ss);
      assert forall p :: 0 <= p < |r| ==> r[p] < m by {
        InsertByKeyElems(prev, m - 1, ss);
        forall p | 0 <= p < |r| ensures r[p] < m {
          assert r[p] in r;
        }
      }
      r
  }

  /** The first m rows, each once. */
  lemma {:induction false} SortFirstElems(ss: seq<Student>, m: nat)
    requires m <= |ss|
    ensures multiset(SortFirst(ss, m)) == multiset(Range(m))
  {
    if m > 0 {
      var last: nat := m - 1;
      var prev := SortFirst(ss, last);
      calc {
        multiset(SortFirst(ss, m));
        multiset(InsertByKey(prev, last, ss));
        { InsertByKeyElems(prev, last, ss); }
        multiset(prev) + multiset{last};
        { SortFirstElems(ss, last); }
        multiset(Range(last)) + multiset{last};
        { RangeSnocCount(last); }
        multiset(Range(m));
      }
    }
  }

  /** The row indices of `ss` in the order their requests are made. */
  function RequestOrder(ss: seq<Student>): (r: seq<nat>)
    ensures |r| == |ss| && InBounds(ss, r)
  {
    SortFirst(ss, |ss|)
  }

  lemma {:induction false} InsertByKeySorted(ord: seq<nat>, i: nat, ss: seq<Student>)
    requires i < |ss| && InBounds(ss, ord) && i !in ord && KeySorted(ss, ord)
    ensures KeySorted(ss, InsertByKey(ord, i, ss))
  {
    if ord != [] && !KeyLess(ss, i, ord[0]) {
      InsertByKeySorted(ord[1..], i, ss);
      var r := InsertByKey(ord, i, ss);
      var rest := InsertByKey(ord[1..], i, ss);
      assert r == [ord[0]] + rest;
      InsertByKeyElems(ord[1..], i, ss);
      forall q | 0 < q < |r| ensures KeyLess(ss, ord[0], r[q]) {
        assert r[q] == rest[q - 1];
        assert rest[q - 1] in rest;
        if rest[q - 1] != i {
          var p :| 0 <= p < |ord[1..]| && ord[1..][p] == rest[q - 1];
          assert ord[1..][p] == ord[p + 1];
        }
      }
    }
  }

  lemma {:induction false} SortFirstSorted(ss: seq<Student>, m: nat)
    requires m <= |ss|
    ensures KeySorted(ss, SortFirst(ss, m))
  {
    if m > 0 {
      SortFirstSorted(ss, m - 1);
      var prev := SortFirst(ss, m - 1);
      assert m - 1 !in prev;
      InsertByKeySorted(prev, m - 1, ss);
    }
  }

  /** The request order is a permutation of the row indices, strictly
      ordered by (arrival offset, row index). */
  lemma RequestOrderCharacterised(ss: seq<Student>)
    ensures multiset(RequestOrder(ss)) == multiset(Range(|ss|))
    ensures KeySorted(ss, RequestOrder(ss))
  {
    SortFirstElems(ss, |ss|);
    SortFirstSorted(ss, |ss|);
  }

  lemma {:induction false} InsertByKeyStable(ord: seq<nat>, i: nat, ss: seq<Student>, tt: seq<Student>)
    requires i < |ss| && i < |tt| && InBounds(ss, ord) && InBounds(tt, ord)
    requires ss[i] == tt[i] && forall p :: 0 <= p < |ord| ==> ss[ord[p]] == tt[ord[p]]
    ensures InsertByKey(ord, i, ss) == InsertByKey(ord, i, tt)
  {
    if ord != [] {
      InsertByKeyStable(ord[1..], i, ss, tt);
    }
  }

  lemma {:induction false} SortFirstStable(ss: seq<Student>, tt: seq<Student>, m: nat)
    requires m <= |ss| && m <= |tt| && ss[..m] == tt[..m]
    ensures SortFirst(ss, m) == SortFirst(tt, m)
  {
    if m > 0 {
      assert ss[..m - 1] == tt[..m - 1];
      SortFirstStable(ss, tt, m - 1);
      var prev := SortFirst(ss, m - 1);
      assert ss[m - 1] == ss[..m][m - 1] == tt[m - 1];
      forall p | 0 <= p < |prev| ensures ss[prev[p]] == tt[prev[p]] {
        assert ss[prev[p]] == ss[..m][prev[p]];
      }
      InsertByKeyStable(prev, m - 1, ss, tt);
    }
  }

  /** Registering one more process places it by its request key among the
      ones registered before. */
  lemma RequestOrderSnoc(ss: seq<Student>, s: Student)
    ensures RequestOrder(ss + [s]) == InsertByKey(RequestOrder(ss), |ss|, ss + [s])
  {
    var tt := ss + [s];
    assert tt[..|ss|] == ss[..|ss|];
    SortFirstStable(tt, ss, |ss|);
  }

  /** The students of `ss` listed in the order `ord` gives. */
  function Arrange(ss: seq<Student>, ord: seq<nat>): (r: seq<Student>)
    requires InBounds(ss, ord)
    ensures |r| == |ord| && forall p :: 0 <= p < |ord| ==> r[p] == ss[ord[p]]
  {
    if ord == [] then [] else Arrange(ss, ord[..|ord| - 1]) + [ss[ord[|ord| - 1]]]
  }

  lemma ArrangeSnoc(ss: seq<Student>, ord: seq<nat>, g: nat)
    requires InBounds(ss, ord) && g < |ord|
    ensures Arrange(ss, ord[..g + 1]) == Arrange(ss, ord[..g]) + [ss[ord[g]]]
  {
    assert ord[..g + 1][..g] == ord[..g];
  }

  /** When the rows already come in order of arrival, the requests are made
      in row order. */
  lemma InOrderRows(ss: seq<Student>)
    requires ArrivalsNonDecreasing(ss)
    ensures RequestOrder(ss) == Range(|ss|) && Arrange(ss, RequestOrder(ss)) == ss
  {
    SortFirstInOrder(ss, |ss|);
  }

  lemma {:induction false} SortFirstInOrder(ss: seq<Student>, m: nat)
    requires m <= |ss| && ArrivalsNonDecreasing(ss)
    ensures SortFirst(ss, m) == Range(m)
  {
    if m > 0 {
      SortFirstInOrder(ss, m - 1);
      RangeSnoc(m - 1);
      InsertLast(Range(m - 1), m - 1, ss);
    }
  }

  /** A row that requests after every row of `ord` goes at its end. */
  lemma {:induction false} InsertLast(ord: seq<nat>, i: nat, ss: seq<Student>)
    requires i < |ss| && InBounds(ss, ord)
    requires forall p :: 0 <= p < |ord| ==> ord[p] < i && ss[ord[p]].arrivalSim <= ss[i].arrivalSim
    ensures InsertByKey(ord, i, ss) == ord + [i]
  {
    if ord != [] {
      assert !KeyLess(ss, i, ord[0]);
      InsertLast(ord[1..], i, ss);
      assert ord == [ord[0]] + ord[1..];
    }
  }
}
