/** Statement-by-statement interleaving of transactions under locks held to commit.

A transaction reads committed rows plus its own writes, keeps its writes to itself until it
commits, and holds every lock it took until it ends.  The main result: whatever the other
transactions did meanwhile, a transaction that commits has the effect of its whole
statement list run alone, at that moment, on the committed database. */
module Serializability {
  import opened Options
  import opened Ledger
  import opened Statements

  /** A transaction in flight: statements executed, statements left, its own writes, its numbers. */
  datatype Tx = Tx(done: seq<Stmt>, rest: Prog, writes: seq<Write>, env: Env)

  function Fresh(p: Prog): Tx { Tx([], p, [], START) }

  /** Committed rows overlaid with a transaction's own writes. */
  function View(db: Db, writes: seq<Write>): Db {
    if writes == [] then db else Apply(View(db, writes[..|writes| - 1]), writes[|writes| - 1])
  }

  ghost predicate Holds(t: Tx, k: Key) { exists i | 0 <= i < |t.done| :: KeyOf(t.done[i]) == k }

  ghost predicate HoldsExclusive(t: Tx, k: Key) {
    exists i | 0 <= i < |t.done| :: KeyOf(t.done[i]) == k && ModeOf(t.done[i]).Exclusive?
  }

  /** Lock compatibility: an exclusive holder excludes everyone else. */
  ghost predicate Compatible(t: Tx, u: Tx) { forall k :: HoldsExclusive(t, k) ==> !Holds(u, k) }

  /** The lock a statement needs is not denied by what u holds. */
  ghost predicate Grants(u: Tx, s: Stmt) {
    !HoldsExclusive(u, KeyOf(s)) && (ModeOf(s).Exclusive? ==> !Holds(u, KeyOf(s)))
  }

  /** The next statement executed on the transaction's view; None when its guard fails. */
  function Advance(t: Tx, db: Db): Option<Tx>
    requires t.rest.Then?
  {
    var s, view := t.rest.stmt, View(db, t.writes);
    var env := EnvAfter(s, view, t.env);
    match Act(s, view, t.env)
    case Reject => None
    case Keep => Some(Tx(t.done + [s], t.rest.rest, t.writes, env))
    case Put(w) => Some(Tx(t.done + [s], t.rest.rest, t.writes + [w], env))
  }

  // ---- what a statement depends on ------------------------------------------------

  predicate SameRow(a: Db, b: Db, k: Key) {
    match k
    case YearKey(y) => Lookup(a.years, y) == Lookup(b.years, y)
    case PeriodKey(p) => Lookup(a.periods, p) == Lookup(b.periods, p)
    case EntryNoKey(y) => Lookup(a.journalSeq, y) == Lookup(b.journalSeq, y)
    case DocNoKey(s, y) => Lookup(a.docSeq, (s, y)) == Lookup(b.docSeq, (s, y))
    case EntryKey(i) => Lookup(a.entries, i) == Lookup(b.entries, i)
    case ReversalKey(o) => Lookup(a.reversals, o) == Lookup(b.reversals, o)
    case DocKey(d) => Lookup(a.docs, d) == Lookup(b.docs, d)
    case PayKey(p) => Lookup(a.pays, p) == Lookup(b.pays, p)
  }

  function Target(w: Write): Key {
    match w
    case WriteYear(y, _) => YearKey(y)
    case WritePeriod(p, _) => PeriodKey(p)
    case WriteEntryNo(y, _) => EntryNoKey(y)
    case WriteDocNo(t, y, _) => DocNoKey(t, y)
    case WriteEntry(i, _) => EntryKey(i)
    case WriteClaim(o, _) => ReversalKey(o)
    case WriteDoc(d, _) => DocKey(d)
    case WritePay(p, _) => PayKey(p)
  }

  lemma ActLocal(s: Stmt, a: Db, b: Db, env: Env)
    requires SameRow(a, b, KeyOf(s))
    ensures Act(s, a, env) == Act(s, b, env) && EnvAfter(s, a, env) == EnvAfter(s, b, env)
  {
  }

  // A statement writes only its own row, and only under an exclusive lock.
  lemma ActTarget(s: Stmt, db: Db, env: Env)
    ensures Act(s, db, env).Put? ==> Target(Act(s, db, env).row) == KeyOf(s) && ModeOf(s).Exclusive?
  {
  }

  lemma ApplySame(a: Db, b: Db, w: Write, k: Key)
    requires SameRow(a, b, k)
    ensures SameRow(Apply(a, w), Apply(b, w), k)
  {
  }

  lemma ApplyOther(db: Db, w: Write, k: Key)
    requires Target(w) != k
    ensures SameRow(Apply(db, w), db, k)
  {
  }

  lemma {:induction false} ViewSame(a: Db, b: Db, writes: seq<Write>, k: Key)
    requires SameRow(a, b, k)
    ensures SameRow(View(a, writes), View(b, writes), k)
  {
    if writes != [] {
      ViewSame(a, b, writes[..|writes| - 1], k);
      ApplySame(View(a, writes[..|writes| - 1]), View(b, writes[..|writes| - 1]), writes[|writes| - 1], k);
    }
  }

  lemma SameRowTransitive(a: Db, b: Db, c: Db, k: Key)
    requires SameRow(a, b, k) && SameRow(b, c, k)
    ensures SameRow(a, c, k)
  {
  }

  lemma {:induction false} ViewOther(db: Db, writes: seq<Write>, k: Key)
    requires forall i | 0 <= i < |writes| :: Target(writes[i]) != k
    ensures SameRow(View(db, writes), db, k)
  {
    hide SameRow, Apply;
    if writes == [] {
      SameRowReflexive(db, k);
    } else {
      var front, last := writes[..|writes| - 1], writes[|writes| - 1];
      ViewOther(db, front, k);
      ApplyOther(View(db, front), last, k);
      SameRowTransitive(View(db, writes), View(db, front), db, k);
    }
  }

  lemma SameRowReflexive(db: Db, k: Key)
    ensures SameRow(db, db, k)
  {
  }

  // ---- replaying a transaction on the committed database ----------------------------

  /** The writes and numbers that a list of statements produces when run alone. */
  function Replay(done: seq<Stmt>, db: Db): Option<(seq<Write>, Env)> {
    if done == [] then Some(([], START)) else
      match Replay(done[..|done| - 1], db)
      case None => None
      case Some((ws, env)) =>
        var s, view := done[|done| - 1], View(db, ws);
        match Act(s, view, env)
        case Reject => None
        case Keep => Some((ws, EnvAfter(s, view, env)))
        case Put(w) => Some((ws + [w], EnvAfter(s, view, env)))
  }

  function Prepend(done: seq<Stmt>, rest: Prog): Prog {
    if done == [] then rest else Prepend(done[..|done| - 1], Then(done[|done| - 1], rest))
  }

  /** The transaction could have executed everything it did just now, with the same results. */
  ghost predicate Current(t: Tx, db: Db) { Replay(t.done, db) == Some((t.writes, t.env)) }

  lemma AdvanceStaysCurrent(t: Tx, db: Db)
    requires Current(t, db) && t.rest.Then? && Advance(t, db).Some?
    ensures Current(Advance(t, db).value, db)
    ensures Prepend(Advance(t, db).value.done, Advance(t, db).value.rest) == Prepend(t.done, t.rest)
  {
    var u := Advance(t, db).value;
    assert u.done[..|u.done| - 1] == t.done;
  }

  // A transaction's writes lie under its exclusive locks.
  lemma {:induction false} WritesAreLocked(done: seq<Stmt>, db: Db, i: int)
    requires Replay(done, db).Some? && 0 <= i < |Replay(done, db).value.0|
    ensures exists j | 0 <= j < |done| :: KeyOf(done[j]) == Target(Replay(done, db).value.0[i]) && ModeOf(done[j]).Exclusive?
  {
    var front, s := done[..|done| - 1], done[|done| - 1];
    var (ws, env) := Replay(front, db).value;
    ActTarget(s, View(db, ws), env);
    if i < |ws| {
      WritesAreLocked(front, db, i);
      var j :| 0 <= j < |front| && KeyOf(front[j]) == Target(ws[i]) && ModeOf(front[j]).Exclusive?;
      assert done[j] == front[j];
    } else {
      assert done[|done| - 1] == s;
    }
  }

  // Replaying depends only on the rows the statements locked.
  lemma {:induction false} ReplayLocal(done: seq<Stmt>, a: Db, b: Db)
    requires forall i | 0 <= i < |done| :: SameRow(a, b, KeyOf(done[i]))
    ensures Replay(done, a) == Replay(done, b)
  {
    if done != [] {
      var front, s := done[..|done| - 1], done[|done| - 1];
      ReplayLocal(front, a, b);
      match Replay(front, a)
      case None =>
      case Some((ws, env)) =>
        ViewSame(a, b, ws, KeyOf(s));
        ActLocal(s, View(a, ws), View(b, ws), env);
    }
  }

  lemma {:induction false} ReplayRuns(done: seq<Stmt>, rest: Prog, db: Db)
    requires Replay(done, db).Some?
    ensures Run(Prepend(done, rest), db, START)
         == Run(rest, View(db, Replay(done, db).value.0), Replay(done, db).value.1)
    decreases |done|
  {
    if done != [] {
      var front, s := done[..|done| - 1], done[|done| - 1];
      ReplayRuns(front, Then(s, rest), db);
      var (ws, env) := Replay(front, db).value;
      match Act(s, View(db, ws), env)
      case Reject =>
      case Keep =>
      case Put(w) => assert (ws + [w])[..|ws|] == ws;
    }
  }

  /** Committing is the whole transaction, run alone, on the committed database. */
  lemma CommitIsAtomic(t: Tx, db: Db)
    requires Current(t, db) && t.rest.Done?
    ensures Run(Prepend(t.done, t.rest), db, START) == Some(View(db, t.writes))
  {
    ReplayRuns(t.done, Done, db);
  }

  /** A commit leaves every compatible transaction current. */
  lemma CommitKeepsOthersCurrent(t: Tx, u: Tx, db: Db)
    requires Current(t, db) && Current(u, db) && Compatible(t, u)
    ensures Current(u, View(db, t.writes))
  {
    var after := View(db, t.writes);
    forall i | 0 <= i < |u.done| ensures SameRow(db, after, KeyOf(u.done[i])) {
      var k := KeyOf(u.done[i]);
      assert Holds(u, k);
      forall j | 0 <= j < |t.writes| ensures Target(t.writes[j]) != k {
        WritesAreLocked(t.done, db, j);
        assert HoldsExclusive(t, Target(t.writes[j]));
      }
      ViewOther(db, t.writes, k);
      SameRowSymmetric(after, db, k);
    }
    ReplayLocal(u.done, db, after);
  }

  lemma SameRowSymmetric(a: Db, b: Db, k: Key)
    requires SameRow(a, b, k)
    ensures SameRow(b, a, k)
  {
  }

  /** Taking a granted lock keeps two transactions compatible, both ways. */
  lemma AdvanceStaysCompatible(t: Tx, u: Tx, db: Db)
    requires Compatible(t, u) && Compatible(u, t) && t.rest.Then? && Advance(t, db).Some? && Grants(u, t.rest.stmt)
    ensures Compatible(Advance(t, db).value, u) && Compatible(u, Advance(t, db).value)
  {
    var v, s := Advance(t, db).value, t.rest.stmt;
    assert forall i | 0 <= i < |t.done| :: v.done[i] == t.done[i];
    forall k ensures Holds(v, k) ==> Holds(t, k) || k == KeyOf(s) {
      if Holds(v, k) {
        var i :| 0 <= i < |v.done| && KeyOf(v.done[i]) == k;
      }
    }
    forall k ensures HoldsExclusive(v, k) ==> HoldsExclusive(t, k) || (k == KeyOf(s) && ModeOf(s).Exclusive?) {
      if HoldsExclusive(v, k) {
        var i :| 0 <= i < |v.done| && KeyOf(v.done[i]) == k && ModeOf(v.done[i]).Exclusive?;
      }
    }
  }
}
