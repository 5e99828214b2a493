/** Sums over finite sets of row ids, the model's counterpart of SQL's SUM. */
module Sums {

  ghost function SumOver(s: set<nat>, f: nat -> int): int {
    if s == {} then 0 else
      var x :| x in s;
      f(x) + SumOver(s - {x}, f)
  }

  // Which element the sum peels off first does not matter.
  lemma {:induction false} SumRemove(s: set<nat>, f: nat -> int, x: nat)
    requires x in s
    ensures SumOver(s, f) == f(x) + SumOver(s - {x}, f)
  {
    var y :| y in s && SumOver(s, f) == f(y) + SumOver(s - {y}, f);
    if y != x {
      SumRemove(s - {y}, f, x);
      SumRemove(s - {x}, f, y);
      assert s - {y} - {x} == s - {x} - {y};
    }
  }

  lemma SumInsert(s: set<nat>, f: nat -> int, x: nat)
    requires x !in s
    ensures SumOver(s + {x}, f) == f(x) + SumOver(s, f)
  {
    SumRemove(s + {x}, f, x);
    assert s + {x} - {x} == s;
  }

  lemma {:induction false} SumCong(s: set<nat>, f: nat -> int, g: nat -> int)
    requires forall x | x in s :: f(x) == g(x)
    ensures SumOver(s, f) == SumOver(s, g)
  {
    if s != {} {
      var x :| x in s;
      SumRemove(s, f, x);
      SumRemove(s, g, x);
      SumCong(s - {x}, f, g);
    }
  }

  // Changing the summand at one element changes the sum by the difference.
  lemma SumChange(s: set<nat>, f: nat -> int, g: nat -> int, x: nat)
    requires x in s && forall y | y in s && y != x :: f(y) == g(y)
    ensures SumOver(s, g) == SumOver(s, f) - f(x) + g(x)
  {
    SumRemove(s, f, x);
    SumRemove(s, g, x);
    SumCong(s - {x}, f, g);
  }

  lemma {:induction false} SumAdd(s: set<nat>, f: nat -> int, g: nat -> int, h: nat -> int)
    requires forall x | x in s :: h(x) == f(x) + g(x)
    ensures SumOver(s, h) == SumOver(s, f) + SumOver(s, g)
  {
    if s != {} {
      var x :| x in s;
      SumRemove(s, f, x);
      SumRemove(s, g, x);
      SumRemove(s, h, x);
      SumAdd(s - {x}, f, g, h);
    }
  }

  lemma {:induction false} SumAtMost(s: set<nat>, f: nat -> int, g: nat -> int)
    requires forall x | x in s :: f(x) <= g(x)
    ensures SumOver(s, f) <= SumOver(s, g)
  {
    if s != {} {
      var x :| x in s;
      SumRemove(s, f, x);
      SumRemove(s, g, x);
      SumAtMost(s - {x}, f, g);
    }
  }

  lemma {:induction false} SumZero(s: set<nat>, f: nat -> int)
    requires forall x | x in s :: f(x) == 0
    ensures SumOver(s, f) == 0
  {
    if s != {} {
      var x :| x in s;
      SumRemove(s, f, x);
      SumZero(s - {x}, f);
    }
  }

  // Elements that contribute nothing may be left out.
  lemma {:induction false} SumSubset(s: set<nat>, t: set<nat>, f: nat -> int)
    requires t <= s && forall x | x in s && x !in t :: f(x) == 0
    ensures SumOver(s, f) == SumOver(t, f)
  {
    if s == t {
    } else {
      var x :| x in s && x !in t;
      SumRemove(s, f, x);
      SumSubset(s - {x}, t, f);
    }
  }

  // A sum of non-negative terms is at least each of them.
  lemma SumCovers(s: set<nat>, f: nat -> int, x: nat)
    requires x in s && forall y | y in s :: 0 <= f(y)
    ensures f(x) <= SumOver(s, f)
  {
    var zero := (y: nat) => 0;
    SumRemove(s, f, x);
    SumZero(s - {x}, zero);
    SumAtMost(s - {x}, zero, f);
  }

  ghost function RowSum(p: set<nat>, f: (nat, nat) -> int, d: nat): int { SumOver(p, (q: nat) => f(d, q)) }

  ghost function ColumnSum(s: set<nat>, f: (nat, nat) -> int, q: nat): int { SumOver(s, (d: nat) => f(d, q)) }

  // Summing a table by rows or by columns gives the same total.
  lemma {:induction false} SumSwap(s: set<nat>, p: set<nat>, f: (nat, nat) -> int)
    ensures SumOver(s, (d: nat) => RowSum(p, f, d)) == SumOver(p, (q: nat) => ColumnSum(s, f, q))
  {
    var rows := (d: nat) => RowSum(p, f, d);
    var columns := (q: nat) => ColumnSum(s, f, q);
    if p == {} {
      SumZero(s, rows);
    } else {
      var q :| q in p;
      var rest := p - {q};
      var restRows := (d: nat) => RowSum(rest, f, d);
      var column := (d: nat) => f(d, q);
      SumSwap(s, rest, f);
      forall d | d in s ensures rows(d) == column(d) + restRows(d) {
        SumRemove(p, (r: nat) => f(d, r), q);
      }
      SumAdd(s, column, restRows, rows);
      SumRemove(p, columns, q);
    }
  }
}
