/** Sums over rows and columns of counters. */
module Sums {
  function Sum(row: seq<nat>): nat {
    if row == [] then 0 else row[0] + Sum(row[1..])
  }

  function SumAll(rows: seq<seq<nat>>): nat {
    if rows == [] then 0 else Sum(rows[0]) + SumAll(rows[1..])
  }

  predicate Wide(rows: seq<seq<nat>>, width: nat) {
    forall i | 0 <= i < |rows| :: |rows[i]| == width
  }

  function ColumnSum(rows: seq<seq<nat>>, width: nat, s: nat): nat
    requires Wide(rows, width) && s < width
  {
    if rows == [] then 0 else rows[0][s] + ColumnSum(rows[1..], width, s)
  }

  /** One counter raised by `n`. */
  function Raise(row: seq<nat>, s: nat, n: nat): (r: seq<nat>)
    requires s < |row|
    ensures |r| == |row|
  {
    var m: nat := row[s] + n;
    row[s := m]
  }

  function RaiseAt(rows: seq<seq<nat>>, id: nat, s: nat, n: nat): (r: seq<seq<nat>>)
    requires id < |rows| && s < |rows[id]|
    ensures |r| == |rows|
  {
    var row: seq<nat> := Raise(rows[id], s, n);
    rows[id := row]
  }

  lemma WideRaise(rows: seq<seq<nat>>, id: nat, s: nat, n: nat)
    requires id < |rows| && s < |rows[id]| && Wide(rows, |rows[id]|)
    ensures Wide(RaiseAt(rows, id, s, n), |rows[id]|)
  {
  }

  lemma {:induction false} SumRaise(row: seq<nat>, s: nat, n: nat)
    requires s < |row|
    ensures Sum(Raise(row, s, n)) == Sum(row) + n
  {
    if s > 0 {
      SumRaise(row[1..], s - 1, n);
      assert Raise(row, s, n)[1..] == Raise(row[1..], s - 1, n);
    } else {
      assert Raise(row, s, n)[1..] == row[1..];
    }
  }

  lemma {:induction false} SumAllRaise(rows: seq<seq<nat>>, id: nat, s: nat, n: nat)
    requires id < |rows| && s < |rows[id]|
    ensures SumAll(RaiseAt(rows, id, s, n)) == SumAll(rows) + n
  {
    if id > 0 {
      SumAllRaise(rows[1..], id - 1, s, n);
      assert RaiseAt(rows, id, s, n)[1..] == RaiseAt(rows[1..], id - 1, s, n);
    } else {
      SumRaise(rows[0], s, n);
      assert RaiseAt(rows, id, s, n)[1..] == rows[1..];
    }
  }

  lemma {:induction false} ColumnSumRaise(rows: seq<seq<nat>>, width: nat, id: nat, s: nat, n: nat, o: nat)
    requires Wide(rows, width) && id < |rows| && s < width && o < width
    ensures Wide(RaiseAt(rows, id, s, n), width)
    ensures ColumnSum(RaiseAt(rows, id, s, n), width, o) == ColumnSum(rows, width, o) + if o == s then n else 0
  {
    var raised := RaiseAt(rows, id, s, n);
    if id > 0 {
      ColumnSumRaise(rows[1..], width, id - 1, s, n, o);
      assert raised[1..] == RaiseAt(rows[1..], id - 1, s, n);
    } else {
      assert raised[1..] == rows[1..];
    }
  }

  function Zeros(width: nat): (row: seq<nat>)
    ensures |row| == width && forall i | 0 <= i < width :: row[i] == 0
  {
    seq(width, _ => 0)
  }

  lemma {:induction false} SumOfZeros(row: seq<nat>)
    requires forall j | 0 <= j < |row| :: row[j] == 0
    ensures Sum(row) == 0
  {
    if row == [] {
    } else {
      SumOfZeros(row[1..]);
    }
  }

  /** A fresh row of zeros changes no sum. */
  lemma {:induction false} FreshRow(rows: seq<seq<nat>>, width: nat, s: nat)
    requires Wide(rows, width) && s < width
    ensures Wide(rows + [Zeros(width)], width)
    ensures SumAll(rows + [Zeros(width)]) == SumAll(rows)
    ensures ColumnSum(rows + [Zeros(width)], width, s) == ColumnSum(rows, width, s)
  {
    if rows == [] {
      SumOfZeros(Zeros(width));
      assert rows + [Zeros(width)] == [Zeros(width)];
    } else {
      FreshRow(rows[1..], width, s);
      assert (rows + [Zeros(width)])[1..] == rows[1..] + [Zeros(width)];
    }
  }
}
