/** Gapless numbering (src/common/db/sequence.ts): counters that hand out 1, 2, 3, ... per
key, and the numbers found on committed rows. */
module Numbering {
  import opened Ledger

  ghost predicate Taken<I(!new), K(!new)>(used: map<I, (K, nat)>, k: K, n: nat) {
    exists i :: i in used && used[i] == (k, n)
  }

  /** For every key in scope, the numbers in use are exactly 1 .. next - 1, each once. */
  ghost predicate Gapless<I(!new), K(!new)>(next: map<K, nat>, used: map<I, (K, nat)>, scope: iset<K>) {
    && (forall i | i in used :: used[i].0 in scope)
    && (forall i, j | i in used && j in used && used[i] == used[j] :: i == j)
    && (forall k, n: nat | k in scope :: Taken(used, k, n) <==> 1 <= n < Next(next, k))
    && (forall k | k in next :: 1 <= next[k])
  }

  /** nextSequenceNumber followed by writing the number on a new row keeps the series gapless. */
  lemma IssueKeepsGapless<I(!new), K(!new)>(next: map<K, nat>, used: map<I, (K, nat)>, scope: iset<K>, k: K, i: I)
    requires Gapless(next, used, scope) && k in scope && i !in used
    ensures Gapless(next[k := Next(next, k) + 1], used[i := (k, Next(next, k))], scope)
  {
    var n := Next(next, k);
    var next2, used2 := next[k := n + 1], used[i := (k, n)];
    assert !Taken(used, k, n);
    forall c, m: nat | c in scope ensures Taken(used2, c, m) <==> 1 <= m < Next(next2, c) {
      if Taken(used2, c, m) {
        var j :| j in used2 && used2[j] == (c, m);
        if j != i { assert used[j] == (c, m) && Taken(used, c, m); }
      }
      if 1 <= m < Next(next2, c) {
        if c == k && m == n {
          assert used2[i] == (c, m);
        } else {
          assert Taken(used, c, m);
          var j :| j in used && used[j] == (c, m);
          assert j in used2 && used2[j] == (c, m);
        }
      }
    }
  }

  lemma OtherSeriesKeepsGapless<I(!new), K(!new)>(next: map<K, nat>, used: map<I, (K, nat)>, scope: iset<K>, k: K, n: nat)
    requires Gapless(next, used, scope) && k !in scope && 1 <= n
    ensures Gapless(next[k := n], used, scope)
  {
    forall c, m: nat | c in scope ensures Taken(used, c, m) <==> 1 <= m < Next(next[k := n], c) {
      assert Next(next[k := n], c) == Next(next, c);
    }
  }
}
