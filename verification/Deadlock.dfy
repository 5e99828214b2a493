/** Exactly when two payments can deadlock on the documents they settle. */
module Deadlock {
  import opened Options
  import opened Ledger
  import opened Statements
  import opened Operations
  import opened Serializability
  import opened Preparation
  import opened Invariants
  import opened Protocol
  import opened LockOrder
  import opened Executions

  // ---- the documents a transaction locks, in order ------------------------------------------------

  function DocsOf(p: Prog): seq<Id> {
    match p
    case Done => []
    case Then(s, rest) => (if s.OnDoc? then [s.doc] else []) + DocsOf(rest)
  }

  function DoneDocs(done: seq<Stmt>): seq<Id> {
    if done == [] then [] else
      DoneDocs(done[..|done| - 1]) + (if done[|done| - 1].OnDoc? then [done[|done| - 1].doc] else [])
  }

  lemma {:induction false} DocsSplit(done: seq<Stmt>, rest: Prog)
    ensures DocsOf(Prepend(done, rest)) == DoneDocs(done) + DocsOf(rest)
    decreases |done|
  {
    if done != [] { DocsSplit(done[..|done| - 1], Then(done[|done| - 1], rest)); }
  }

  /** The first document of x that y also comes to. */
  function FirstShared(x: seq<Id>, y: seq<Id>): Option<Id> {
    if x == [] then None else if x[0] in y then Some(x[0]) else FirstShared(x[1..], y)
  }

  /** Of the documents the two share, they come to different ones first. */
  predicate GatesDiffer(x: seq<Id>, y: seq<Id>) { FirstShared(x, y) != FirstShared(y, x) }

  lemma {:induction false} SharedInPrefix(x: seq<Id>, more: seq<Id>, y: seq<Id>, d: Id)
    requires d in x && d in y
    ensures FirstShared(x + more, y).Some? && FirstShared(x + more, y).value in x
  {
    assert (x + more)[0] == x[0];
    if x[0] !in y {
      assert (x + more)[1..] == x[1..] + more;
      SharedInPrefix(x[1..], more, y, d);
    }
  }

  // ---- a cycle of two needs different gates ---------------------------------------------------------

  lemma {:induction false} HeldIsDone(done: seq<Stmt>, i: nat)
    requires i < |done| && done[i].OnDoc?
    ensures done[i].doc in DoneDocs(done)
  {
    if i < |done| - 1 { HeldIsDone(done[..|done| - 1], i); }
  }

  lemma {:induction false} DoneIsHeld(tx: Tx, d: Id, n: nat)
    requires n <= |tx.done| && d in DoneDocs(tx.done[..n])
    ensures HoldsExclusive(tx, DocKey(d)) && Holds(tx, DocKey(d))
  {
    var last := tx.done[..n][n - 1];
    if last.OnDoc? && last.doc == d {
      assert KeyOf(tx.done[n - 1]) == DocKey(d) && ModeOf(tx.done[n - 1]).Exclusive?;
    } else {
      assert tx.done[..n][..n - 1] == tx.done[..n - 1];
      DoneIsHeld(tx, d, n - 1);
    }
  }

  lemma HolderVisited(u: Tx, a: Stmt)
    requires a.OnDoc? && !Grants(u, a)
    ensures a.doc in DoneDocs(u.done)
  {
    var i :| 0 <= i < |u.done| && KeyOf(u.done[i]) == KeyOf(a);
    HeldIsDone(u.done, i);
  }

  lemma WaitsAtDocuments(s: System, t: nat, u: nat)
    requires SystemOk(s) && WaitsFor(s, t, u) && WaitsFor(s, u, t)
    ensures s.running[t].1.rest.stmt.OnDoc? && s.running[u].1.rest.stmt.OnDoc?
  {
    hide SystemOk, LocksAscending, OwnOrder, Grants, InsertsFreshRow;
    var p, q := s.running[t].0, s.running[u].0;
    OwnOrderAscends(p);
    OwnOrderAscends(q);
    WaitsRise(s, t, u, t, OwnOrder(q));
    WaitsRise(s, u, t, u, OwnOrder(p));
  }

  lemma HeldApart(t: Tx, u: Tx, d: Id)
    requires Compatible(t, u) && d in DoneDocs(t.done)
    ensures d !in DoneDocs(u.done)
  {
    assert t.done[..|t.done|] == t.done && u.done[..|u.done|] == u.done;
    DoneIsHeld(t, d, |t.done|);
    if d in DoneDocs(u.done) { DoneIsHeld(u, d, |u.done|); }
  }

  // Each holds what the other wants, and nothing is held twice.
  lemma WantedGates(t: Tx, u: Tx)
    requires Compatible(t, u) && t.rest.Then? && u.rest.Then? && t.rest.stmt.OnDoc? && u.rest.stmt.OnDoc?
    requires !Grants(u, t.rest.stmt) && !Grants(t, u.rest.stmt)
    ensures GatesDiffer(DocsOf(Prepend(t.done, t.rest)), DocsOf(Prepend(u.done, u.rest)))
  {
    hide Compatible, Grants;
    var a, b := t.rest.stmt.doc, u.rest.stmt.doc;
    HolderVisited(u, t.rest.stmt);
    HolderVisited(t, u.rest.stmt);
    DocsSplit(t.done, t.rest);
    DocsSplit(u.done, u.rest);
    var x, y := DocsOf(Prepend(t.done, t.rest)), DocsOf(Prepend(u.done, u.rest));
    SharedInPrefix(DoneDocs(t.done), DocsOf(t.rest), y, b);
    SharedInPrefix(DoneDocs(u.done), DocsOf(u.rest), x, a);
    HeldApart(t, u, FirstShared(x, y).value);
  }

  /** Whatever else runs, two transactions that wait for each other come first to different ones
      of the documents they share. */
  lemma CycleNeedsGates(s: System, t: nat, u: nat)
    requires SystemOk(s) && CyclicWait(s, [t, u])
    ensures GatesDiffer(DocsOf(Program(s.running[t].0)), DocsOf(Program(s.running[u].0)))
  {
    hide LedgerOk, StillGood, Program, Current;
    assert WaitsFor(s, [t, u][0], [t, u][1]) && WaitsFor(s, u, t);
    assert RunningOk(s, t) && RunningOk(s, u);
    WaitsAtDocuments(s, t, u);
    WantedGates(s.running[t].1, s.running[u].1);
  }

  // ---- different gates make a cycle ---------------------------------------------------------------

  /** Posting a payment, or voiding one: lock its row, then settle or unwind each allocation. */
  predicate HandlesPayment(op: Op) { op.PostPay? || op.VoidPayment? }

  function LockStmt(op: Op): Stmt
    requires HandlesPayment(op)
  {
    OnPay(op.pay, if op.PostPay? then LockDraftPay else LockPostedPay)
  }

  function LoopStmt(op: Op, a: Alloc): Stmt
    requires HandlesPayment(op)
  {
    OnDoc(a.doc, if op.PostPay? then Settle(op.payment.kind, op.payment.partner, a.amount) else Unwind(op.payment.kind, a.amount))
  }

  function LoopProg(op: Op, allocs: seq<Alloc>, rest: Prog): Prog
    requires HandlesPayment(op)
  {
    if op.PostPay? then SettleProg(op.payment.kind, op.payment.partner, allocs, rest) else UnwindProg(op.payment.kind, allocs, rest)
  }

  /** The documents after the loop over these allocations. */
  function LoopDocs(docs: map<Id, Doc>, op: Op, allocs: seq<Alloc>): Option<map<Id, Doc>>
    requires HandlesPayment(op)
  {
    if op.PostPay? then SettleAll(docs, op.payment.kind, op.payment.partner, allocs) else UnwindAll(docs, op.payment.kind, allocs)
  }

  /** The statements after the loop. */
  function Tail(op: Op): Prog
    requires HandlesPayment(op)
  {
    if op.PostPay? then
      Then(DocNo(SeriesOfPay(op.payment.kind), op.posting.fiscalYear),
        CreatePostedProg(op.id, op.posting, Then(OnPay(op.pay, FinalizePay(op.posting.fiscalYear, op.id)), Done)))
    else Then(OnPay(op.pay, VoidPay), ReverseProg(op.id, op.reversal, Done))
  }

  /** A prepared posting or voiding whose loop goes through as the database stands. */
  predicate CanProceed(s: System, op: Op) {
    && op in s.prepared && HandlesPayment(op) && PayIs(s.db, op.pay, if op.PostPay? then Draft else Posted)
    && LoopDocs(s.db.docs, op, op.payment.allocs).Some?
  }

  function AllocDocs(allocs: seq<Alloc>): seq<Id> { seq(|allocs|, i requires 0 <= i < |allocs| => allocs[i].doc) }

  lemma PaymentProgram(op: Op)
    requires HandlesPayment(op)
    ensures Program(op) == Then(LockStmt(op), LoopProg(op, op.payment.allocs, Tail(op)))
  {
  }

  lemma {:induction false} LoopVisits(op: Op, allocs: seq<Alloc>, rest: Prog)
    requires HandlesPayment(op)
    ensures DocsOf(LoopProg(op, allocs, rest)) == AllocDocs(allocs) + DocsOf(rest)
    decreases |allocs|
  {
    if allocs != [] {
      LoopVisits(op, allocs[1..], rest);
      assert LoopProg(op, allocs, rest) == Then(LoopStmt(op, allocs[0]), LoopProg(op, allocs[1..], rest));
      assert AllocDocs(allocs) == [allocs[0].doc] + AllocDocs(allocs[1..]);
    }
  }

  lemma StampVisits(fiscalYear: int, period: Id, allow: bool, rest: Prog)
    ensures DocsOf(StampProg(fiscalYear, period, allow, rest)) == DocsOf(rest)
  {
    var tail := Then(OnPeriod(period, ShareOpenPeriod), Then(EntryNo(fiscalYear), rest));
    assert DocsOf(Then(EntryNo(fiscalYear), rest)) == DocsOf(rest);
    assert DocsOf(tail) == DocsOf(rest);
  }

  lemma TailVisitsNothing(op: Op)
    requires HandlesPayment(op)
    ensures DocsOf(Tail(op)) == []
  {
    hide StampProg;
    if op.PostPay? {
      var p := op.posting;
      var last := Then(OnPay(op.pay, FinalizePay(p.fiscalYear, op.id)), Done);
      var insert := Then(OnEntry(op.id, InsertPosted(PostedContent(p), p.fiscalYear, p.period)), last);
      StampVisits(p.fiscalYear, p.period, false, insert);
      assert DocsOf(last) == [] && DocsOf(insert) == [];
      assert DocsOf(CreatePostedProg(op.id, p, last)) == [];
    } else {
      var r := op.reversal;
      var mark := Then(OnEntry(r.original, MarkReversed), Done);
      var claim := Then(ClaimReversal(r.original, op.id), mark);
      var insert := Then(OnEntry(op.id, InsertPosted(ReversalContent(r), r.fiscalYear, r.period)), claim);
      StampVisits(r.fiscalYear, r.period, r.allowClosedYear, insert);
      assert DocsOf(mark) == [] && DocsOf(claim) == [] && DocsOf(insert) == [];
      assert DocsOf(ReverseProg(op.id, r, Done)) == [];
    }
  }

  /** A payment comes to the documents of its allocations and to no others. */
  lemma PaymentDocs(op: Op)
    requires HandlesPayment(op)
    ensures DocsOf(Program(op)) == AllocDocs(op.payment.allocs)
  {
    hide Program, Tail, LoopProg;
    PaymentProgram(op);
    LoopVisits(op, op.payment.allocs, Tail(op));
    TailVisitsNothing(op);
  }

  /** A payment that has locked its row and gone through its first n allocations. */
  ghost predicate GoneUpTo(db: Db, op: Op, n: nat, tx: Tx)
    requires HandlesPayment(op) && n <= |op.payment.allocs|
  {
    var allocs := op.payment.allocs;
    && tx.rest == LoopProg(op, allocs[n..], Tail(op)) && tx.env == START
    && DoneDocs(tx.done) == AllocDocs(allocs[..n])
    && (forall i | 0 <= i < |tx.done| :: tx.done[i].OnDoc? || KeyOf(tx.done[i]) == PayKey(op.pay))
    && View(db, tx.writes) == db.(docs := View(db, tx.writes).docs)
    && LoopDocs(View(db, tx.writes).docs, op, allocs[n..]).Some?
  }

  /** The other open transactions hold neither the payment's row nor its first n documents. */
  ghost predicate Clear(s: System, op: Op, n: nat)
    requires HandlesPayment(op) && n <= |op.payment.allocs|
  {
    forall u | u in s.running ::
      && !Holds(s.running[u].1, PayKey(op.pay))
      && forall i | 0 <= i < n :: !Holds(s.running[u].1, DocKey(op.payment.allocs[i].doc))
  }

  lemma ExclusiveIsHeld(u: Tx, k: Key)
    requires HoldsExclusive(u, k)
    ensures Holds(u, k)
  {
  }

  lemma GrantsUnheld(u: Tx, s: Stmt)
    requires !Holds(u, KeyOf(s))
    ensures Grants(u, s)
  {
    if HoldsExclusive(u, KeyOf(s)) { ExclusiveIsHeld(u, KeyOf(s)); }
  }

  lemma LocksPayment(db: Db, op: Op) returns (tx: Tx)
    requires HandlesPayment(op) && PayIs(db, op.pay, if op.PostPay? then Draft else Posted) && LoopDocs(db.docs, op, op.payment.allocs).Some?
    ensures Fresh(Program(op)).rest.Then? && Fresh(Program(op)).rest.stmt == LockStmt(op)
    ensures Advance(Fresh(Program(op)), db) == Some(tx) && GoneUpTo(db, op, 0, tx)
  {
    hide LoopDocs, LoopProg, Tail, Program;
    PaymentProgram(op);
    tx := Advance(Fresh(Program(op)), db).value;
    assert op.payment.allocs[0..] == op.payment.allocs;
    assert tx.done == [LockStmt(op)] && tx.writes == [];
    assert DoneDocs([]) == [] && tx.done[..0] == [];
  }

  lemma GoesToNext(db: Db, op: Op, n: nat, tx: Tx) returns (next: Tx)
    requires HandlesPayment(op) && n < |op.payment.allocs| && GoneUpTo(db, op, n, tx)
    ensures tx.rest.Then? && KeyOf(tx.rest.stmt) == DocKey(op.payment.allocs[n].doc) && tx.rest.stmt.OnDoc?
    ensures Advance(tx, db) == Some(next) && GoneUpTo(db, op, n + 1, next)
  {
    hide Tail, LoopDocs, LoopProg, Advance, View;
    var allocs := op.payment.allocs;
    var a, rest := allocs[n], allocs[n..];
    assert rest[0] == a && rest[1..] == allocs[n + 1..];
    LoopUnfolds(op, rest, Tail(op));
    LoopSteps(View(db, tx.writes), op, rest);
    AdvanceViews(tx, db);
    next := Advance(tx, db).value;
    assert next.done[..|tx.done|] == tx.done;
    assert AllocDocs(allocs[..n + 1]) == AllocDocs(allocs[..n]) + [a.doc];
  }

  lemma LoopUnfolds(op: Op, allocs: seq<Alloc>, rest: Prog)
    requires HandlesPayment(op) && allocs != []
    ensures LoopProg(op, allocs, rest) == Then(LoopStmt(op, allocs[0]), LoopProg(op, allocs[1..], rest))
  {
  }

  // Settling or unwinding the first of several allocations.
  lemma LoopSteps(view: Db, op: Op, allocs: seq<Alloc>)
    requires HandlesPayment(op) && allocs != [] && LoopDocs(view.docs, op, allocs).Some?
    ensures var stmt := LoopStmt(op, allocs[0]);
      && Step(stmt, view, START).Some? && EnvAfter(stmt, view, START) == START
      && var after := Step(stmt, view, START).value;
         after == view.(docs := after.docs) && LoopDocs(after.docs, op, allocs[1..]).Some?
  {
  }

  lemma {:induction false} ReachesGone(s: System, t: nat, op: Op, n: nat) returns (tx: Tx)
    requires CanProceed(s, op) && t !in s.running && n <= |op.payment.allocs| && Clear(s, op, n)
    ensures GoneUpTo(s.db, op, n, tx) && Reaches(s, s.(running := s.running[t := (op, tx)]))
  {
    hide GoneUpTo, Reaches, Advance, LoopDocs, Program;
    if n == 0 {
      var t0 := Fresh(Program(op));
      tx := LocksPayment(s.db, op);
      var s0, s1 := s.(running := s.running[t := (op, t0)]), s.(running := s.running[t := (op, tx)]);
      ReachesItself(s);
      ReachesThen(s, s, Begin(t, op), s0);
      forall u | u in s0.running && u != t ensures Grants(s0.running[u].1, t0.rest.stmt) { GrantsUnheld(s.running[u].1, t0.rest.stmt); }
      assert s1.running == s0.running[t := (op, tx)];
      ReachesThen(s, s0, Execute(t), s1);
    } else {
      var before := ReachesGone(s, t, op, n - 1);
      tx := GoesToNext(s.db, op, n - 1, before);
      var s0, s1 := s.(running := s.running[t := (op, before)]), s.(running := s.running[t := (op, tx)]);
      forall u | u in s0.running && u != t ensures Grants(s0.running[u].1, before.rest.stmt) { GrantsUnheld(s.running[u].1, before.rest.stmt); }
      assert s1.running == s0.running[t := (op, tx)];
      ReachesThen(s, s0, Execute(t), s1);
    }
  }

  /** Positions at which x and y wait for each other: each has come to what the other wants next,
      and to nothing in common. */
  predicate Crossed(x: seq<Id>, y: seq<Id>, i: nat, k: nat) {
    && i < |x| && k < |y| && x[i] in y[..k] && y[k] in x[..i]
    && forall d | d in x[..i] :: d !in y[..k]
  }

  lemma {:induction false} FirstSharedIs(x: seq<Id>, y: seq<Id>) returns (m: nat)
    requires FirstShared(x, y).Some?
    ensures m < |x| && FirstShared(x, y) == Some(x[m]) && x[m] in y && forall i | 0 <= i < m :: x[i] !in y
  {
    if x[0] in y {
      m := 0;
    } else {
      m := FirstSharedIs(x[1..], y);
      assert forall i | 0 < i < m + 1 :: x[i] == x[1..][i - 1];
      m := m + 1;
    }
  }

  lemma {:induction false} NotShared(x: seq<Id>, y: seq<Id>)
    requires FirstShared(x, y).None?
    ensures forall d | d in x :: d !in y
  {
    if x != [] {
      NotShared(x[1..], y);
      forall d | d in x ensures d !in y {
        if d != x[0] { assert d in x[1..]; }
      }
    }
  }

  // The first place of x whose document lies in ys.
  lemma {:induction false} FirstIn(x: seq<Id>, ys: seq<Id>, m: nat) returns (i: nat)
    requires m < |x| && x[m] in ys
    ensures i <= m && x[i] in ys && forall j | 0 <= j < i :: x[j] !in ys
  {
    if j :| 0 <= j < m && x[j] in ys { i := FirstIn(x, ys, j); } else { i := m; }
  }

  lemma NotAmong(x: seq<Id>, n: nat, d: Id)
    requires n <= |x| && forall j | 0 <= j < n :: x[j] != d
    ensures d !in x[..n]
  {
  }

  // Both gates exist, and differ.
  lemma TwoGates(x: seq<Id>, y: seq<Id>) returns (m: nat, n: nat)
    requires GatesDiffer(x, y)
    ensures m < |x| && n < |y| && x[m] in y && y[n] in x && x[m] != y[n]
    ensures (forall j | 0 <= j < m :: x[j] !in y) && (forall j | 0 <= j < n :: y[j] !in x)
  {
    if FirstShared(x, y).None? { NotShared(x, y); }
    if FirstShared(y, x).None? { NotShared(y, x); }
    if FirstShared(x, y).Some? { m := FirstSharedIs(x, y); }
    if FirstShared(y, x).Some? { n := FirstSharedIs(y, x); }
  }

  lemma GatesCross(x: seq<Id>, y: seq<Id>) returns (i: nat, k: nat)
    requires GatesDiffer(x, y)
    ensures Crossed(x, y, i, k)
  {
    var m, n := TwoGates(x, y);
    var place :| 0 <= place < |x| && x[place] == y[n];
    i := FirstIn(x, [y[n]], place);
    NotAmong(x, i, y[n]);
    var back :| 0 <= back < |y| && y[back] == x[m];
    assert x[..i][m] == x[m];
    k := FirstIn(y, x[..i], back);
    assert y[..k][n] == y[n];
    forall d | d in x[..i] ensures d !in y[..k] { NotAmong(y, k, d); }
  }

  /** Two open transactions, for p and for q, wait for each other. */
  ghost predicate Deadlocked(s: System, p: Op, q: Op) {
    exists t: nat, u: nat :: t in s.running && u in s.running && s.running[t].0 == p && s.running[u].0 == q && CyclicWait(s, [t, u])
  }

  lemma HeldByGone(db: Db, op: Op, n: nat, tx: Tx, d: Id)
    requires HandlesPayment(op) && n <= |op.payment.allocs| && GoneUpTo(db, op, n, tx)
    ensures Holds(tx, DocKey(d)) <==> d in AllocDocs(op.payment.allocs)[..n]
    ensures d in AllocDocs(op.payment.allocs)[..n] ==> HoldsExclusive(tx, DocKey(d))
    ensures forall p | p != op.pay :: !Holds(tx, PayKey(p))
  {
    hide LoopDocs, LoopProg, Tail;
    assert AllocDocs(op.payment.allocs)[..n] == AllocDocs(op.payment.allocs[..n]);
    assert tx.done[..|tx.done|] == tx.done;
    if d in DoneDocs(tx.done) { DoneIsHeld(tx, d, |tx.done|); }
    if Holds(tx, DocKey(d)) {
      var i :| 0 <= i < |tx.done| && KeyOf(tx.done[i]) == DocKey(d);
      HeldIsDone(tx.done, i);
    }
  }

  // Whoever has gone up to i does not stand in the way of going up to k.
  lemma ClearBeside(s: System, p: Op, q: Op, i: nat, k: nat, tp: Tx)
    requires s.running == map[0 := (p, tp)] && HandlesPayment(p) && HandlesPayment(q) && p.pay != q.pay
    requires Crossed(AllocDocs(p.payment.allocs), AllocDocs(q.payment.allocs), i, k) && GoneUpTo(s.db, p, i, tp)
    ensures Clear(s, q, k)
  {
    hide GoneUpTo;
    HeldByGone(s.db, p, i, tp, 0);
    forall j | 0 <= j < k ensures !Holds(tp, DocKey(q.payment.allocs[j].doc)) {
      assert AllocDocs(q.payment.allocs)[..k][j] == q.payment.allocs[j].doc;
      HeldByGone(s.db, p, i, tp, q.payment.allocs[j].doc);
    }
  }

  lemma CrossedDeadlocks(s: System, p: Op, q: Op, i: nat, k: nat) returns (b: System)
    requires s.running == map[] && CanProceed(s, p) && CanProceed(s, q) && p.pay != q.pay
    requires Crossed(AllocDocs(p.payment.allocs), AllocDocs(q.payment.allocs), i, k)
    ensures Reaches(s, b) && Deadlocked(b, p, q)
  {
    hide LoopDocs, Reaches, GoneUpTo, Grants;
    var tp := ReachesGone(s, 0, p, i);
    var s1 := s.(running := s.running[0 := (p, tp)]);
    assert s1.running == map[0 := (p, tp)];
    ClearBeside(s1, p, q, i, k, tp);
    var tq := ReachesGone(s1, 1, q, k);
    b := s1.(running := s1.running[1 := (q, tq)]);
    ReachesTransitive(s, s1, b);
    CrossedWaits(b, p, q, i, k, tp, tq);
  }

  lemma CrossedWaits(b: System, p: Op, q: Op, i: nat, k: nat, tp: Tx, tq: Tx)
    requires HandlesPayment(p) && HandlesPayment(q) && Crossed(AllocDocs(p.payment.allocs), AllocDocs(q.payment.allocs), i, k)
    requires b.running == map[0 := (p, tp), 1 := (q, tq)] && GoneUpTo(b.db, p, i, tp) && GoneUpTo(b.db, q, k, tq)
    ensures Deadlocked(b, p, q)
  {
    hide GoneUpTo, Grants;
    HeldByGone(b.db, p, i, tp, q.payment.allocs[k].doc);
    HeldByGone(b.db, q, k, tq, p.payment.allocs[i].doc);
    CrossedWait(b.db, p, i, tp, tq);
    CrossedWait(b.db, q, k, tq, tp);
    assert WaitsFor(b, 0, 1) && WaitsFor(b, 1, 0);
    assert CyclicWait(b, [0, 1]);
  }

  lemma CrossedWait(db: Db, op: Op, n: nat, tx: Tx, holder: Tx)
    requires HandlesPayment(op) && n < |op.payment.allocs| && GoneUpTo(db, op, n, tx)
    requires HoldsExclusive(holder, DocKey(op.payment.allocs[n].doc))
    ensures tx.rest.Then? && !InsertsFreshRow(tx.rest.stmt) && !Grants(holder, tx.rest.stmt)
  {
    hide LoopDocs, Tail, LoopProg;
    assert op.payment.allocs[n..][0] == op.payment.allocs[n];
    LoopUnfolds(op, op.payment.allocs[n..], Tail(op));
  }

  lemma SameRowSameGates(s: System, p: Op, q: Op)
    requires SystemOk(s) && CanProceed(s, p) && CanProceed(s, q) && p.pay == q.pay
    ensures p.payment.allocs == q.payment.allocs
  {
    hide LedgerOk, LoopDocs, StillGoodPosting, StillGoodReversal, PaymentLines, RunningOk, Compatible;
    assert StillGood(s.db, p) && StillGood(s.db, q);
  }

  /** The exact condition for two payments, posted or voided, from any state between transactions
      in which each could go through: a cyclic wait is reachable if and only if, of the documents
      both allocate to, they come to different ones first. */
  lemma TwoPaymentsDeadlockIff(s: System, p: Op, q: Op)
    requires SystemOk(s) && s.running == map[] && CanProceed(s, p) && CanProceed(s, q)
    ensures (exists b :: Reaches(s, b) && Deadlocked(b, p, q))
       <==> GatesDiffer(AllocDocs(p.payment.allocs), AllocDocs(q.payment.allocs))
  {
    hide SystemOk, LoopDocs, Reaches, Program, Crossed;
    PaymentDocs(p);
    PaymentDocs(q);
    if GatesDiffer(AllocDocs(p.payment.allocs), AllocDocs(q.payment.allocs)) {
      if p.pay == q.pay { SameRowSameGates(s, p, q); }
      var i, k := GatesCross(AllocDocs(p.payment.allocs), AllocDocs(q.payment.allocs));
      var b := CrossedDeadlocks(s, p, q, i, k);
    }
    if b :| Reaches(s, b) && Deadlocked(b, p, q) {
      var t: nat, u: nat :| t in b.running && u in b.running && b.running[t].0 == p && b.running[u].0 == q && CyclicWait(b, [t, u]);
      ReachesOk(s, b);
      CycleNeedsGates(b, t, u);
    }
  }

  // ---- opposite orders ---------------------------------------------------------------------------------

  /** Two documents that x comes to in one order and y in the other. */
  ghost predicate Opposite(x: seq<Id>, y: seq<Id>) { exists a: Id, b: Id :: ComesFirst(x, a, b) && ComesFirst(y, b, a) }

  predicate ComesFirst(x: seq<Id>, a: Id, b: Id) {
    b in x && exists i :: 0 <= i < |x| && x[i] == a && b !in x[..i + 1]
  }

  /** Different gates are visited in opposite orders ... */
  lemma GatesAreOpposite(x: seq<Id>, y: seq<Id>)
    requires GatesDiffer(x, y)
    ensures Opposite(x, y)
  {
    var m, n := TwoGates(x, y);
    NotAmong(x, m + 1, y[n]);
    NotAmong(y, n + 1, x[m]);
    assert ComesFirst(x, x[m], y[n]) && ComesFirst(y, y[n], x[m]);
  }

  /** ... but opposite orders alone do not deadlock: behind a document that both come to first,
      two payments take turns. */
  lemma GateProtects(gate: Id, a: Id, b: Id)
    requires gate != a && gate != b && a != b
    ensures Opposite([gate, a, b], [gate, b, a]) && !GatesDiffer([gate, a, b], [gate, b, a])
  {
    var x, y := [gate, a, b], [gate, b, a];
    assert x[1] == a && b !in x[..2] && y[1] == b && a !in y[..2];
    assert ComesFirst(x, a, b) && ComesFirst(y, b, a);
    assert x[0] in y && y[0] in x;
  }

  /** Two payments that both come to one document first never deadlock, in whatever order they
      visit the others. */
  lemma OppositeNeedNotDeadlock(s: System, p: Op, q: Op, gate: Id, a: Id, b: Id)
    requires SystemOk(s) && s.running == map[] && CanProceed(s, p) && CanProceed(s, q)
    requires gate != a && gate != b && a != b
    requires AllocDocs(p.payment.allocs) == [gate, a, b] && AllocDocs(q.payment.allocs) == [gate, b, a]
    ensures Opposite(AllocDocs(p.payment.allocs), AllocDocs(q.payment.allocs))
    ensures !exists end :: Reaches(s, end) && Deadlocked(end, p, q)
  {
    hide SystemOk, CanProceed, Reaches, Deadlocked;
    GateProtects(gate, a, b);
    TwoPaymentsDeadlockIff(s, p, q);
  }
}
