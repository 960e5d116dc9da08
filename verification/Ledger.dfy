/** What the rows of a table answer for, taken together. */
module Ledger {

  ghost function Held<T, R>(rows: seq<T>, of: T -> multiset<R>): multiset<R>
  {
    if rows == [] then multiset{} else Held(rows[..|rows| - 1], of) + of(rows[|rows| - 1])
  }

  /** Changing one row changes the total by that row's share. */
  lemma {:induction false} HeldUpdate<T, R>(rows: seq<T>, of: T -> multiset<R>, i: nat, x: T)
    requires i < |rows|
    ensures of(rows[i]) <= Held(rows, of)
    ensures Held(rows[i := x], of) == Held(rows, of) - of(rows[i]) + of(x)
  {
    var n := |rows| - 1;
    var after := rows[i := x];
    assert Held(after, of) == Held(after[..n], of) + of(after[n]);
    if i == n {
      assert after[..n] == rows[..n];
    } else {
      assert after[..n] == rows[..n][i := x];
      HeldUpdate(rows[..n], of, i, x);
    }
  }

  lemma {:induction false} HeldByNone<T, R>(rows: seq<T>, of: T -> multiset<R>)
    requires forall i | 0 <= i < |rows| :: of(rows[i]) == multiset{}
    ensures Held(rows, of) == multiset{}
  {
    if rows != [] {
      HeldByNone(rows[..|rows| - 1], of);
    }
  }
}
