/** Sums of an integer weight over the rows of a table. Every balance law of the model is
    an equation between such sums. */
module Sums {

  function Sum<T>(rows: seq<T>, weight: T -> int): int {
    if |rows| == 0 then 0 else Sum(rows[..|rows| - 1], weight) + weight(rows[|rows| - 1])
  }

  lemma SumAppend<T>(rows: seq<T>, row: T, weight: T -> int)
    ensures Sum(rows + [row], weight) == Sum(rows, weight) + weight(row)
  {
    assert (rows + [row])[..|rows|] == rows;
  }

  lemma {:induction false} SumConcat<T>(a: seq<T>, b: seq<T>, weight: T -> int)
    ensures Sum(a + b, weight) == Sum(a, weight) + Sum(b, weight)
  {
    if |b| == 0 {
      assert a + b == a;
    } else {
      var init, last := b[..|b| - 1], b[|b| - 1];
      assert a + b == (a + init) + [last];
      SumAppend(a + init, last, weight);
      SumConcat(a, init, weight);
    }
  }

  /** Replacing one row moves the sum by the difference of the two weights. */
  lemma {:induction false} SumUpdate<T>(rows: seq<T>, i: nat, row: T, weight: T -> int)
    requires i < |rows|
    ensures Sum(rows[i := row], weight) == Sum(rows, weight) - weight(rows[i]) + weight(row)
  {
    var n := |rows| - 1;
    if i == n {
      assert rows[i := row][..n] == rows[..n];
    } else {
      assert rows[i := row][..n] == rows[..n][i := row];
      SumUpdate(rows[..n], i, row, weight);
    }
  }

  lemma {:induction false} SumSame<T>(rows: seq<T>, f: T -> int, g: T -> int)
    requires forall i :: 0 <= i < |rows| ==> f(rows[i]) == g(rows[i])
    ensures Sum(rows, f) == Sum(rows, g)
  {
    if |rows| > 0 {
      SumSame(rows[..|rows| - 1], f, g);
    }
  }

  lemma {:induction false} SumOfZero<T>(rows: seq<T>, weight: T -> int)
    requires forall i :: 0 <= i < |rows| ==> weight(rows[i]) == 0
    ensures Sum(rows, weight) == 0
  {
    if |rows| > 0 { SumOfZero(rows[..|rows| - 1], weight); }
  }

  /** A sum of non-negative weights is at least each of its terms. */
  lemma {:induction false} SumAtLeast<T>(rows: seq<T>, weight: T -> int)
    requires forall i :: 0 <= i < |rows| ==> weight(rows[i]) >= 0
    ensures Sum(rows, weight) >= 0
    ensures forall i :: 0 <= i < |rows| ==> Sum(rows, weight) >= weight(rows[i])
  {
    if |rows| > 0 {
      var n := |rows| - 1;
      SumAtLeast(rows[..n], weight);
      forall i | 0 <= i < |rows| ensures Sum(rows, weight) >= weight(rows[i]) {
        if i < n {
          assert rows[..n][i] == rows[i];
        }
      }
    }
  }

  /** And at least any two of them. */
  lemma {:induction false} SumOfPair<T>(rows: seq<T>, weight: T -> int, i: nat, j: nat)
    requires forall k :: 0 <= k < |rows| ==> weight(rows[k]) >= 0
    requires i < j < |rows|
    ensures Sum(rows, weight) >= weight(rows[i]) + weight(rows[j])
  {
    var n := |rows| - 1;
    assert rows[..n][i] == rows[i];
    if j == n {
      SumAtLeast(rows[..n], weight);
    } else {
      SumOfPair(rows[..n], weight, i, j);
    }
  }

  lemma {:induction false} SumAdd<T>(rows: seq<T>, f: T -> int, g: T -> int, h: T -> int)
    requires forall i :: 0 <= i < |rows| ==> h(rows[i]) == f(rows[i]) + g(rows[i])
    ensures Sum(rows, h) == Sum(rows, f) + Sum(rows, g)
  {
    if |rows| > 0 {
      SumAdd(rows[..|rows| - 1], f, g, h);
    }
  }

  /** The order of the rows does not matter. */
  lemma {:induction false} SumPermutation<T>(a: seq<T>, b: seq<T>, weight: T -> int)
    requires multiset(a) == multiset(b)
    ensures Sum(a, weight) == Sum(b, weight)
  {
    if |a| == 0 {
      assert |multiset(b)| == 0;
    } else {
      var n := |a| - 1;
      var last := a[n];
      assert last in multiset(b);
      var i :| 0 <= i < |b| && b[i] == last;
      var rest := b[..i] + b[i + 1..];
      assert a == a[..n] + [last];
      assert b == b[..i] + [last] + b[i + 1..];
      assert multiset(a) == multiset(a[..n]) + multiset{last};
      assert multiset(b) == multiset(rest) + multiset{last};
      assert multiset(a[..n]) == multiset(a) - multiset{last};
      assert multiset(rest) == multiset(b) - multiset{last};
      SumPermutation(a[..n], rest, weight);
      SumConcat(b[..i] + [last], b[i + 1..], weight);
      SumAppend(b[..i], last, weight);
      SumConcat(b[..i], b[i + 1..], weight);
    }
  }
}
