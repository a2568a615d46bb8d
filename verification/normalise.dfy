/** Arrival normalisation: before a run the rows are renumbered from 0, the
    earliest arrival time becomes the base, and every student's simulated
    arrival is its offset in seconds from that base. */
module Normalisation {
  import opened Model

  /** The earliest arrival time of the rows. */
  function Earliest(rows: seq<Row>): (t: int)
    requires |rows| > 0
    ensures forall i :: 0 <= i < |rows| ==> t <= rows[i].arrivalTime
    ensures exists i :: 0 <= i < |rows| && t == rows[i].arrivalTime
  {
    if |rows| == 1 then rows[0].arrivalTime
    else
      var rest := Earliest(rows[1..]);
      assert forall i :: 1 <= i < |rows| ==> rest <= rows[i].arrivalTime by {
        forall i | 1 <= i < |rows| ensures rest <= rows[i].arrivalTime {
          assert rows[1..][i - 1] == rows[i];
        }
      }
      if rows[0].arrivalTime <= rest then rows[0].arrivalTime else rest
  }

  /** The student handed to the simulation for a row, given the base time. */
  function ToStudent(r: Row, base: int): Student {
    Student(r.id, r.arrivalTime, r.arrivalTime - base, r.serviceTime)
  }

  /** The students of a run, in row order, with arrival offsets from the
      earliest arrival. */
  function Normalise(rows: seq<Row>): (ss: seq<Student>)
    ensures |ss| == |rows|
    ensures forall i :: 0 <= i < |rows| ==>
              && ss[i].id == rows[i].id && ss[i].arrivalTime == rows[i].arrivalTime
              && ss[i].serviceTime == rows[i].serviceTime && ss[i].arrivalSim >= 0
  {
    if rows == [] then [] else seq(|rows|, i requires 0 <= i < |rows| => ToStudent(rows[i], Earliest(rows)))
  }

  /** The earliest arrival gets offset 0. */
  lemma OffsetsFromZero(rows: seq<Row>)
    requires |rows| > 0
    ensures exists i :: 0 <= i < |rows| && Normalise(rows)[i].arrivalSim == 0
  {
    var i :| 0 <= i < |rows| && Earliest(rows) == rows[i].arrivalTime;
    assert Normalise(rows)[i].arrivalSim == 0;
  }

  /** Normalisation keeps the gaps between arrivals. */
  lemma NormaliseKeeps(rows: seq<Row>, i: nat, j: nat)
    requires i < |rows| && j < |rows|
    ensures Normalise(rows)[i].arrivalSim - Normalise(rows)[j].arrivalSim
         == rows[i].arrivalTime - rows[j].arrivalTime
  {
  }

  /** The rows with every arrival moved by the same amount. */
  function Shifted(rows: seq<Row>, c: int): (moved: seq<Row>)
    ensures |moved| == |rows|
  {
    seq(|rows|, i requires 0 <= i < |rows| => rows[i].(arrivalTime := rows[i].arrivalTime + c))
  }

  /** Moving every arrival by the same amount moves the base with it, so the
      offsets do not change. */
  lemma ShiftInvariant(rows: seq<Row>, c: int)
    requires |rows| > 0
    ensures Earliest(Shifted(rows, c)) == Earliest(rows) + c
    ensures forall i :: 0 <= i < |rows| ==>
              Normalise(Shifted(rows, c))[i].arrivalSim == Normalise(rows)[i].arrivalSim
  {
    var moved := Shifted(rows, c);
    EarliestShifted(rows, c);
    forall i | 0 <= i < |rows|
      ensures Normalise(moved)[i].arrivalSim == Normalise(rows)[i].arrivalSim
    {
      assert Normalise(moved)[i] == ToStudent(moved[i], Earliest(moved));
      assert Normalise(rows)[i] == ToStudent(rows[i], Earliest(rows));
    }
  }

  lemma EarliestShifted(rows: seq<Row>, c: int)
    requires |rows| > 0
    ensures Earliest(Shifted(rows, c)) == Earliest(rows) + c
  {
    var moved := Shifted(rows, c);
    var i :| 0 <= i < |rows| && Earliest(rows) == rows[i].arrivalTime;
    var j :| 0 <= j < |moved| && Earliest(moved) == moved[j].arrivalTime;
    assert Earliest(moved) <= moved[i].arrivalTime;
    assert Earliest(rows) <= rows[j].arrivalTime;
  }
}
