// Sums over table rows, in row order.
module Sums {
  function Sum<T>(rows: seq<T>, f: T -> nat): nat {
    if |rows| == 0 then 0 else Sum(rows[..|rows| - 1], f) + f(rows[|rows| - 1])
  }

  lemma SumAppend<T>(rows: seq<T>, row: T, f: T -> nat)
    ensures Sum(rows + [row], f) == Sum(rows, f) + f(row)
  {
    assert (rows + [row])[..|rows|] == rows;
  }

  lemma {:induction false} SumConcat<T>(a: seq<T>, b: seq<T>, f: T -> nat)
    ensures Sum(a + b, f) == Sum(a, f) + Sum(b, f)
  {
    if |b| == 0 {
      assert a + b == a;
    } else {
      var front := b[..|b| - 1];
      SumConcat(a, front, f);
      assert (a + b)[..|a + b| - 1] == a + front;
    }
  }

  lemma SumCons<T>(row: T, rows: seq<T>, f: T -> nat)
    ensures Sum([row] + rows, f) == f(row) + Sum(rows, f)
  {
    SumConcat([row], rows, f);
    assert [row][..0] == [];
  }

  lemma {:induction false} SumUpdate<T>(rows: seq<T>, i: nat, row: T, f: T -> nat)
    requires i < |rows|
    ensures Sum(rows[i := row], f) + f(rows[i]) == Sum(rows, f) + f(row)
  {
    var last := |rows| - 1;
    if i == last {
      assert rows[i := row][..last] == rows[..last];
    } else {
      SumUpdate(rows[..last], i, row, f);
      assert rows[i := row][..last] == rows[..last][i := row];
    }
  }

  lemma {:induction false} SumMonotone<T>(rows: seq<T>, f: T -> nat, g: T -> nat)
    requires forall i :: 0 <= i < |rows| ==> f(rows[i]) <= g(rows[i])
    ensures Sum(rows, f) <= Sum(rows, g)
  {
    if |rows| > 0 {
      SumMonotone(rows[..|rows| - 1], f, g);
    }
  }

  lemma SumEqual<T>(rows: seq<T>, f: T -> nat, g: T -> nat)
    requires forall i :: 0 <= i < |rows| ==> f(rows[i]) == g(rows[i])
    ensures Sum(rows, f) == Sum(rows, g)
  {
    SumMonotone(rows, f, g);
    SumMonotone(rows, g, f);
  }

  lemma {:induction false} SumZero<T>(rows: seq<T>, f: T -> nat)
    requires forall i :: 0 <= i < |rows| ==> f(rows[i]) == 0
    ensures Sum(rows, f) == 0
  {
    if |rows| > 0 {
      SumZero(rows[..|rows| - 1], f);
    }
  }

  lemma {:induction false} SumAtLeast<T>(rows: seq<T>, i: nat, f: T -> nat)
    requires i < |rows|
    ensures f(rows[i]) <= Sum(rows, f)
  {
    if i < |rows| - 1 {
      SumAtLeast(rows[..|rows| - 1], i, f);
    }
  }
}
