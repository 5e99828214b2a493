/** The order in which transactions take their locks, and the absence of cyclic waits. */
module LockOrder {
  import opened Options
  import opened Ledger
  import opened Statements
  import opened Operations
  import opened Serializability
  import opened Preparation
  import opened Invariants
  import opened Protocol

  /** One global rank: draft entry row, payment row, document row, document sequence, fiscal
      year, period row, journal sequence, then the rows a posting inserts or marks. */
  function Rank(s: Stmt): int {
    match s
    case OnEntry(_, a) => if a.InsertPosted? || a.NewDraft? then 7 else if a.MarkReversed? then 9 else 0
    case OnPay(_, _) => 1
    case OnDoc(_, _) => 2
    case DocNo(_, _) => 3
    case OnYear(_, _) => 4
    case OnPeriod(_, _) => 5
    case EntryNo(_) => 6
    case ClaimReversal(_, _) => 8
  }

  /** Document rows are ranked among themselves by some order of documents. */
  type Order = Id -> nat

  predicate Before(a: Stmt, b: Stmt, order: Order) {
    Rank(a) < Rank(b) || (a.OnDoc? && b.OnDoc? && order(a.doc) < order(b.doc))
  }

  /** What the statements so far hold exclusively, and the highest rank among them. */
  datatype Taken = Taken(exclusive: set<Key>, rank: int, doc: int)

  const NOTHING: Taken := Taken({}, -1, -1)

  function Max(a: int, b: int): int { if a < b then b else a }

  function Note(t: Taken, s: Stmt, order: Order): Taken {
    Taken(if ModeOf(s).Exclusive? then t.exclusive + {KeyOf(s)} else t.exclusive,
          Max(t.rank, Rank(s)), if s.OnDoc? then Max(t.doc, order(s.doc)) else t.doc)
  }

  /** The statement works on a row already locked exclusively, or ranks above everything taken. */
  predicate MayTake(t: Taken, s: Stmt, order: Order) {
    KeyOf(s) in t.exclusive || t.rank < Rank(s) || (s.OnDoc? && t.rank == 2 && t.doc < order(s.doc))
  }

  predicate InOrder(t: Taken, p: Prog, order: Order)
    decreases p
  {
    match p
    case Done => true
    case Then(s, rest) => MayTake(t, s, order) && InOrder(Note(t, s, order), rest, order)
  }

  // ---- every program takes its locks in order -------------------------------------------------

  /** The allocations come to each new document row after all earlier ones in the order; they may
      return to a row (a single document row qualifies under every order). */
  predicate Ascending(allocs: seq<Alloc>, order: Order) {
    forall j | 0 <= j < |allocs| ::
      (exists i :: 0 <= i < j && allocs[i].doc == allocs[j].doc) || (forall i | 0 <= i < j :: order(allocs[i].doc) < order(allocs[j].doc))
  }

  predicate LocksAscending(op: Op, order: Order) {
    (op.PostPay? ==> Ascending(op.payment.allocs, order)) && (op.VoidPayment? ==> Ascending(op.payment.allocs, order))
  }

  lemma StampInOrder(t: Taken, fiscalYear: int, period: Id, allowClosedYear: bool, rest: Prog, order: Order)
    requires t.rank < 4 || (t.rank == 4 && (allowClosedYear || YearKey(fiscalYear) in t.exclusive))
    requires forall u: Taken | u.rank == 6 && u.exclusive >= t.exclusive :: InOrder(u, rest, order)
    ensures InOrder(t, StampProg(fiscalYear, period, allowClosedYear, rest), order)
  {
    var tail := Then(OnPeriod(period, ShareOpenPeriod), Then(EntryNo(fiscalYear), rest));
    forall u: Taken | u.rank <= 4 && u.exclusive >= t.exclusive ensures InOrder(u, tail, order) {
      var v := Note(Note(u, OnPeriod(period, ShareOpenPeriod), order), EntryNo(fiscalYear), order);
      assert InOrder(v, rest, order);
      assert InOrder(Note(u, OnPeriod(period, ShareOpenPeriod), order), Then(EntryNo(fiscalYear), rest), order);
    }
  }

  // One statement on a row already held, then done.
  lemma LastInOrder(t: Taken, s: Stmt, order: Order)
    requires MayTake(t, s, order)
    ensures InOrder(t, Then(s, Done), order)
  {
  }

  lemma PostInOrder(t: Taken, id: Id, p: Posting, last: Prog, order: Order)
    requires t.rank < 4 || (t.rank == 4 && YearKey(p.fiscalYear) in t.exclusive)
    requires last.Done? || (last.Then? && last.rest.Done? && KeyOf(last.stmt) in t.exclusive)
    ensures InOrder(t, CreatePostedProg(id, p, last), order)
  {
    var insert := OnEntry(id, InsertPosted(PostedContent(p), p.fiscalYear, p.period));
    forall u: Taken | u.rank == 6 && u.exclusive >= t.exclusive ensures InOrder(u, Then(insert, last), order) {
      if last.Then? { LastInOrder(Note(u, insert, order), last.stmt, order); }
    }
    StampInOrder(t, p.fiscalYear, p.period, false, Then(insert, last), order);
  }

  lemma ReverseInOrder(t: Taken, id: Id, r: Reversing, last: Prog, order: Order)
    requires t.rank < 4 || (t.rank == 4 && r.allowClosedYear)
    requires last.Done? || (last.Then? && last.rest.Done? && KeyOf(last.stmt) in t.exclusive)
    ensures InOrder(t, ReverseProg(id, r, last), order)
  {
    var insert := OnEntry(id, InsertPosted(ReversalContent(r), r.fiscalYear, r.period));
    var mark := OnEntry(r.original, MarkReversed);
    var claim := ClaimReversal(r.original, id);
    forall u: Taken | u.rank == 6 && u.exclusive >= t.exclusive
      ensures InOrder(u, Then(insert, Then(claim, Then(mark, last))), order)
    {
      var v := Note(Note(u, insert, order), claim, order);
      if last.Then? { LastInOrder(Note(v, mark, order), last.stmt, order); }
      assert InOrder(v, Then(mark, last), order);
      assert InOrder(Note(u, insert, order), Then(claim, Then(mark, last)), order);
    }
    StampInOrder(t, r.fiscalYear, r.period, r.allowClosedYear, Then(insert, Then(claim, Then(mark, last))), order);
  }

  // What is left of the allocations comes to new rows in order, given what is taken.
  predicate Follows(t: Taken, allocs: seq<Alloc>, order: Order) {
    forall j | 0 <= j < |allocs| ::
      || DocKey(allocs[j].doc) in t.exclusive
      || (exists i :: 0 <= i < j && allocs[i].doc == allocs[j].doc)
      || (t.doc < order(allocs[j].doc) && forall i | 0 <= i < j :: order(allocs[i].doc) < order(allocs[j].doc))
  }

  lemma FollowsRest(t: Taken, s: Stmt, allocs: seq<Alloc>, order: Order)
    requires allocs != [] && Follows(t, allocs, order) && s.OnDoc? && s.doc == allocs[0].doc
    ensures t.rank <= 2 ==> MayTake(t, s, order)
    ensures Follows(Note(t, s, order), allocs[1..], order)
  {
    var rest, u := allocs[1..], Note(t, s, order);
    forall j | 0 <= j < |rest|
      ensures DocKey(rest[j].doc) in u.exclusive || (exists i :: 0 <= i < j && rest[i].doc == rest[j].doc)
           || (u.doc < order(rest[j].doc) && forall i | 0 <= i < j :: order(rest[i].doc) < order(rest[j].doc))
    {
      assert rest[j] == allocs[j + 1];
      if i :| 0 <= i < j + 1 && allocs[i].doc == allocs[j + 1].doc {
        if i > 0 { assert rest[i - 1].doc == rest[j].doc; }
      } else if DocKey(allocs[j + 1].doc) !in t.exclusive {
        assert order(allocs[0].doc) < order(allocs[j + 1].doc);
        assert forall i | 0 <= i < j :: rest[i] == allocs[i + 1];
      }
    }
  }

  lemma {:induction false} SettleInOrder(t: Taken, kind: Kind, partner: Id, allocs: seq<Alloc>, rest: Prog, order: Order)
    requires t.rank <= 2 && Follows(t, allocs, order)
    requires forall u: Taken | u.rank <= 2 && u.exclusive >= t.exclusive :: InOrder(u, rest, order)
    ensures InOrder(t, SettleProg(kind, partner, allocs, rest), order)
    decreases |allocs|
  {
    if allocs != [] {
      hide Follows;
      var s := OnDoc(allocs[0].doc, Settle(kind, partner, allocs[0].amount));
      FollowsRest(t, s, allocs, order);
      SettleInOrder(Note(t, s, order), kind, partner, allocs[1..], rest, order);
    }
  }

  lemma {:induction false} UnwindInOrder(t: Taken, kind: Kind, allocs: seq<Alloc>, rest: Prog, order: Order)
    requires t.rank <= 2 && Follows(t, allocs, order)
    requires forall u: Taken | u.rank <= 2 && u.exclusive >= t.exclusive :: InOrder(u, rest, order)
    ensures InOrder(t, UnwindProg(kind, allocs, rest), order)
    decreases |allocs|
  {
    if allocs != [] {
      hide Follows;
      var s := OnDoc(allocs[0].doc, Unwind(kind, allocs[0].amount));
      FollowsRest(t, s, allocs, order);
      UnwindInOrder(Note(t, s, order), kind, allocs[1..], rest, order);
    }
  }

  /** A close posts into the year it closes; a reopen may post into a closed year. */
  predicate YearOpsFit(op: Op) {
    && (op.ReopenClosedYear? ==> op.reversal.allowClosedYear)
    && (op.CloseYear? ==> op.posting.fiscalYear == op.fiscalYear)
  }

  lemma ProgramAscends(op: Op, order: Order)
    requires LocksAscending(op, order) && YearOpsFit(op)
    ensures InOrder(NOTHING, Program(op), order)
  {
    hide CreatePostedProg, ReverseProg, SettleProg, UnwindProg, StampProg;
    match op {
      case PostEntry(id, p) => PostInOrder(NOTHING, id, p, Done, order);
      case ReverseEntry(id, r) => ReverseInOrder(NOTHING, id, r, Done, order);
      case PostDraft(id, p) =>
        var last := OnEntry(id, StampDraft(p.fiscalYear, p.period));
        var t := Note(NOTHING, OnEntry(id, LockDraft), order);
        forall u: Taken | u.rank == 6 && u.exclusive >= t.exclusive ensures InOrder(u, Then(last, Done), order) { LastInOrder(u, last, order); }
        StampInOrder(t, p.fiscalYear, p.period, false, Then(last, Done), order);
      case PostDoc(id, d, kind, total, p) =>
        var t := Note(Note(NOTHING, OnDoc(d, LockDraftDoc), order), DocNo(SeriesOfDoc(kind), p.fiscalYear), order);
        PostInOrder(t, id, p, Then(OnDoc(d, FinalizeDoc(p.fiscalYear, total, id)), Done), order);
      case VoidDocument(id, d, r) => ReverseInOrder(Note(NOTHING, OnDoc(d, VoidDoc), order), id, r, Done, order);
      case PostPay(id, pay, row, p) => PostPayInOrder(id, pay, row, p, order);
      case VoidPayment(id, pay, row, r) => VoidPayInOrder(id, pay, row, r, order);
      case CloseYear(id, y, income, p) =>
        PostInOrder(Note(NOTHING, OnYear(y, LockOpenYear), order), id, p, Then(OnYear(y, SetYear(YearEnd(true, Some(id), income))), Done), order);
      case ReopenClosedYear(id, y, r) =>
        ReverseInOrder(Note(NOTHING, OnYear(y, LockClosedYear), order), id, r, Then(OnYear(y, ReopenYear), Done), order);
      case _ =>
    }
  }

  lemma PostPayInOrder(id: Id, pay: Id, row: Pay, p: Posting, order: Order)
    requires Ascending(row.allocs, order)
    ensures InOrder(NOTHING, Program(PostPay(id, pay, row, p)), order)
  {
    hide CreatePostedProg, SettleProg;
    var last := Then(OnPay(pay, FinalizePay(p.fiscalYear, id)), Done);
    var number := DocNo(SeriesOfPay(row.kind), p.fiscalYear);
    var tail := Then(number, CreatePostedProg(id, p, last));
    var t := Note(NOTHING, OnPay(pay, LockDraftPay), order);
    forall u: Taken | u.rank <= 2 && u.exclusive >= t.exclusive ensures InOrder(u, tail, order) {
      PostInOrder(Note(u, number, order), id, p, last, order);
    }
    SettleInOrder(t, row.kind, row.partner, row.allocs, tail, order);
  }

  lemma VoidPayInOrder(id: Id, pay: Id, row: Pay, r: Reversing, order: Order)
    requires Ascending(row.allocs, order)
    ensures InOrder(NOTHING, Program(VoidPayment(id, pay, row, r)), order)
  {
    hide ReverseProg, UnwindProg;
    var void := OnPay(pay, VoidPay);
    var t := Note(NOTHING, OnPay(pay, LockPostedPay), order);
    forall u: Taken | u.rank <= 2 && u.exclusive >= t.exclusive ensures InOrder(u, Then(void, ReverseProg(id, r, Done)), order) {
      ReverseInOrder(Note(u, void, order), id, r, Done, order);
    }
    UnwindInOrder(t, row.kind, row.allocs, Then(void, ReverseProg(id, r, Done)), order);
  }

  // ---- the order a payment itself imposes -----------------------------------------------------------

  function FirstVisit(allocs: seq<Alloc>, d: Id): nat {
    if allocs == [] || allocs[0].doc == d then 0 else 1 + FirstVisit(allocs[1..], d)
  }

  /** Documents in the order in which the operation first comes to them. */
  function OwnOrder(op: Op): Order {
    if op.PostPay? || op.VoidPayment? then (d: Id) => FirstVisit(op.payment.allocs, d) else (d: Id) => 0
  }

  lemma {:induction false} FirstVisitIs(allocs: seq<Alloc>, j: nat)
    requires j < |allocs|
    ensures var f := FirstVisit(allocs, allocs[j].doc); f <= j && allocs[f].doc == allocs[j].doc
    ensures forall i | 0 <= i < FirstVisit(allocs, allocs[j].doc) :: allocs[i].doc != allocs[j].doc
  {
    if j > 0 && allocs[0].doc != allocs[j].doc { FirstVisitIs(allocs[1..], j - 1); }
  }

  lemma OwnOrderAscends(op: Op)
    ensures LocksAscending(op, OwnOrder(op))
  {
    if op.PostPay? || op.VoidPayment? {
      var allocs, order := op.payment.allocs, OwnOrder(op);
      forall j | 0 <= j < |allocs|
        ensures (exists i :: 0 <= i < j && allocs[i].doc == allocs[j].doc) || (forall i | 0 <= i < j :: order(allocs[i].doc) < order(allocs[j].doc))
      {
        FirstVisitIs(allocs, j);
        var f := FirstVisit(allocs, allocs[j].doc);
        if f == j {
          forall i | 0 <= i < j ensures order(allocs[i].doc) < order(allocs[j].doc) { FirstVisitIs(allocs, i); }
        }
      }
    }
  }

  /** Every transaction takes its locks in the global rank, its document rows in the order in
      which it first comes to them. */
  lemma ProgramInOrder(op: Op, db: Db)
    requires StillGood(db, op)
    ensures InOrder(NOTHING, Program(op), OwnOrder(op))
  {
    hide StillGood, YearOpsFit, LocksAscending;
    OwnOrderAscends(op);
    GoodOpsFit(db, op);
    ProgramAscends(op, OwnOrder(op));
  }

  // ---- a transaction in flight is in order ------------------------------------------------------

  function NoteAll(done: seq<Stmt>, order: Order): Taken {
    if done == [] then NOTHING else Note(NoteAll(done[..|done| - 1], order), done[|done| - 1], order)
  }

  lemma {:induction false} PrefixInOrder(done: seq<Stmt>, rest: Prog, order: Order)
    requires InOrder(NOTHING, Prepend(done, rest), order)
    ensures InOrder(NoteAll(done, order), rest, order)
    decreases |done|
  {
    if done != [] {
      PrefixInOrder(done[..|done| - 1], Then(done[|done| - 1], rest), order);
    }
  }

  lemma {:induction false} NoteAllBounds(done: seq<Stmt>, i: nat, order: Order)
    requires i < |done|
    ensures Rank(done[i]) <= NoteAll(done, order).rank
    ensures done[i].OnDoc? ==> order(done[i].doc) <= NoteAll(done, order).doc
  {
    if i < |done| - 1 { NoteAllBounds(done[..|done| - 1], i, order); }
  }

  lemma {:induction false} NoteAllHeld(done: seq<Stmt>, k: Key, order: Order)
    requires k in NoteAll(done, order).exclusive
    ensures exists i | 0 <= i < |done| :: KeyOf(done[i]) == k && ModeOf(done[i]).Exclusive?
  {
    var front, s := done[..|done| - 1], done[|done| - 1];
    if k == KeyOf(s) && ModeOf(s).Exclusive? {
      assert done[|done| - 1] == s;
    } else {
      NoteAllHeld(front, k, order);
      var i :| 0 <= i < |front| && KeyOf(front[i]) == k && ModeOf(front[i]).Exclusive?;
      assert done[i] == front[i];
    }
  }

  // ---- waiting ------------------------------------------------------------------------------------

  predicate InsertsFreshRow(s: Stmt) {
    || (s.OnEntry? && (s.entryAct.InsertPosted? || s.entryAct.NewDraft?))
    || (s.OnDoc? && s.docAct.NewDoc?) || (s.OnPay? && s.payAct.NewPay?) || (s.OnPeriod? && s.periodAct.NewPeriod?)
  }

  /** t's next statement needs a lock that u denies it.  Inserting a row under a fresh id never waits. */
  ghost predicate WaitsFor(s: System, t: nat, u: nat) {
    && t in s.running && u in s.running && t != u
    && s.running[t].1.rest.Then?
    && !InsertsFreshRow(s.running[t].1.rest.stmt)
    && !Grants(s.running[u].1, s.running[t].1.rest.stmt)
  }

  ghost predicate CyclicWait(s: System, ts: seq<nat>) {
    && ts != []
    && (forall i | 0 <= i < |ts| - 1 :: WaitsFor(s, ts[i], ts[i + 1]))
    && WaitsFor(s, ts[|ts| - 1], ts[0])
  }

  // The first statement of a transaction on a row saw the committed row.
  lemma {:induction false} FirstTouch(done: seq<Stmt>, db: Db, k: Key) returns (i: nat, env: Env)
    requires Replay(done, db).Some? && exists j :: 0 <= j < |done| && KeyOf(done[j]) == k
    ensures i < |done| && KeyOf(done[i]) == k && !Act(done[i], db, env).Reject?
  {
    hide Act, Target, View;
    var front, s := done[..|done| - 1], done[|done| - 1];
    if exists j :: 0 <= j < |front| && KeyOf(front[j]) == k {
      i, env := FirstTouch(front, db, k);
    } else {
      var (ws, e) := Replay(front, db).value;
      i, env := |done| - 1, e;
      forall j | 0 <= j < |ws| ensures Target(ws[j]) != k { WritesAreLocked(front, db, j); }
      ViewOther(db, ws, k);
      ActLocal(s, View(db, ws), db, e);
    }
  }

  lemma OnPostedRow(db: Db, o: Id, stmt: Stmt, env: Env)
    requires o in db.entries && !db.entries[o].status.Draft? && KeyOf(stmt) == EntryKey(o) && !Act(stmt, db, env).Reject?
    ensures stmt == OnEntry(o, MarkReversed)
  {
  }

  // Whoever holds the row of a posted entry got it in order to mark that entry reversed.
  lemma PostedRowHolder(db: Db, u: Tx, o: Id) returns (i: nat)
    requires JournalOk(db) && Current(u, db) && Holds(u, EntryKey(o))
    requires o in db.entries && db.entries[o].stamp.Some?
    ensures i < |u.done| && u.done[i] == OnEntry(o, MarkReversed)
  {
    assert EntryOk(db, db.entries[o]);
    var env;
    i, env := FirstTouch(u.done, db, EntryKey(o));
    OnPostedRow(db, o, u.done[i], env);
  }

  /** All open transactions come to their document rows in one common order. */
  ghost predicate AllAscending(s: System, order: Order) { forall t | t in s.running :: LocksAscending(s.running[t].0, order) }

  lemma RunningInOrder(s: System, t: nat, order: Order)
    requires SystemOk(s) && t in s.running && LocksAscending(s.running[t].0, order)
    ensures InOrder(NoteAll(s.running[t].1.done, order), s.running[t].1.rest, order)
  {
    hide LedgerOk, StillGood, Program, LocksAscending, Current, InOrder, YearOpsFit, Compatible;
    var (op, tx) := s.running[t];
    assert RunningOk(s, t);
    GoodOpsFit(s.db, op);
    ProgramAscends(op, order);
    PrefixInOrder(tx.done, tx.rest, order);
  }

  lemma GoodOpsFit(db: Db, op: Op)
    requires StillGood(db, op)
    ensures YearOpsFit(op)
  {
  }

  // Whoever waits for u waits below the statement u itself waits at, in any order u keeps.
  lemma WaitsRise(s: System, t: nat, u: nat, v: nat, order: Order)
    requires SystemOk(s) && WaitsFor(s, t, u) && WaitsFor(s, u, v) && LocksAscending(s.running[u].0, order)
    ensures Before(s.running[t].1.rest.stmt, s.running[u].1.rest.stmt, order)
  {
    hide SystemOk, NoteAll, Grants, LocksAscending;
    RunningInOrder(s, u, order);
    WaitsAtNewKey(s, u, v, order);
    var i := SameRankHolder(s, t, u);
    NoteAllBounds(s.running[u].1.done, i, order);
  }

  // Nobody waits for a row it already holds exclusively.
  lemma WaitsAtNewKey(s: System, u: nat, v: nat, order: Order)
    requires SystemOk(s) && WaitsFor(s, u, v)
    ensures KeyOf(s.running[u].1.rest.stmt) !in NoteAll(s.running[u].1.done, order).exclusive
  {
    hide LedgerOk, StillGood, RunningOk;
    var b := s.running[u].1.rest.stmt;
    if KeyOf(b) in NoteAll(s.running[u].1.done, order).exclusive {
      NoteAllHeld(s.running[u].1.done, KeyOf(b), order);
      HeldAlone(s.running[u].1, s.running[v].1, b);
    }
  }

  lemma HeldAlone(u: Tx, v: Tx, b: Stmt)
    requires Compatible(u, v) && HoldsExclusive(u, KeyOf(b))
    ensures Grants(v, b)
  {
  }

  lemma SameRankHolder(s: System, t: nat, u: nat) returns (i: nat)
    requires SystemOk(s) && WaitsFor(s, t, u)
    ensures i < |s.running[u].1.done|
    ensures var a, c := s.running[t].1.rest.stmt, s.running[u].1.done[i];
            Rank(a) <= Rank(c) && (Rank(a) == Rank(c) && a.OnDoc? ==> c.OnDoc? && a.doc == c.doc)
  {
    assert RunningOk(s, t) && RunningOk(s, u) && StillGood(s.db, s.running[t].0);
    i := RankedHolder(s.db, s.running[t].0, s.running[t].1, s.running[u].1);
  }

  lemma RankedHolder(db: Db, op: Op, tx: Tx, holder: Tx) returns (i: nat)
    requires JournalOk(db) && StillGood(db, op) && Prepend(tx.done, tx.rest) == Program(op) && Current(holder, db)
    requires tx.rest.Then? && !InsertsFreshRow(tx.rest.stmt) && !Grants(holder, tx.rest.stmt)
    ensures i < |holder.done|
    ensures var a, c := tx.rest.stmt, holder.done[i];
            Rank(a) <= Rank(c) && (Rank(a) == Rank(c) && a.OnDoc? ==> c.OnDoc? && a.doc == c.doc)
  {
    hide StillGood, JournalOk, Current, Program, Rank, InsertsFreshRow;
    var a := tx.rest.stmt;
    assert Holds(holder, KeyOf(a)) by {
      if HoldsExclusive(holder, KeyOf(a)) {
        var j :| 0 <= j < |holder.done| && KeyOf(holder.done[j]) == KeyOf(a) && ModeOf(holder.done[j]).Exclusive?;
      }
    }
    if a.OnEntry? && a.entryAct.MarkReversed? {
      MarksPostedEntry(tx.done, tx.rest, op, db);
      i := PostedRowHolder(db, holder, a.entry);
    } else {
      i :| 0 <= i < |holder.done| && KeyOf(holder.done[i]) == KeyOf(a);
      SameKeyRank(a, holder.done[i]);
    }
  }

  lemma SameKeyRank(a: Stmt, c: Stmt)
    requires KeyOf(a) == KeyOf(c) && !InsertsFreshRow(a) && !(a.OnEntry? && a.entryAct.MarkReversed?)
    ensures Rank(a) <= Rank(c) && (Rank(a) == Rank(c) && a.OnDoc? ==> c.OnDoc? && a.doc == c.doc)
  {
  }

  // ---- only reversals mark, and only posted entries -------------------------------------------------

  predicate MarksOnly(p: Prog, o: Option<Id>) {
    match p
    case Done => true
    case Then(s, rest) => (s.OnEntry? && s.entryAct.MarkReversed? ==> o == Some(s.entry)) && MarksOnly(rest, o)
  }

  lemma {:induction false} MarksOnlyRest(done: seq<Stmt>, rest: Prog, o: Option<Id>)
    requires MarksOnly(Prepend(done, rest), o)
    ensures MarksOnly(rest, o)
    decreases |done|
  {
    if done != [] { MarksOnlyRest(done[..|done| - 1], Then(done[|done| - 1], rest), o); }
  }

  lemma {:induction false} SettleMarks(kind: Kind, partner: Id, allocs: seq<Alloc>, rest: Prog, o: Option<Id>)
    requires MarksOnly(rest, o)
    ensures MarksOnly(SettleProg(kind, partner, allocs, rest), o)
    decreases |allocs|
  {
    if allocs != [] { SettleMarks(kind, partner, allocs[1..], rest, o); }
  }

  lemma {:induction false} UnwindMarks(kind: Kind, allocs: seq<Alloc>, rest: Prog, o: Option<Id>)
    requires MarksOnly(rest, o)
    ensures MarksOnly(UnwindProg(kind, allocs, rest), o)
    decreases |allocs|
  {
    if allocs != [] { UnwindMarks(kind, allocs[1..], rest, o); }
  }

  function MarkedBy(op: Op): Option<Id> {
    if JournalingOf(op).Reverses? then Some(JournalingOf(op).reversal.original) else None
  }

  lemma PostMarks(id: Id, p: Posting, rest: Prog, o: Option<Id>)
    requires MarksOnly(rest, o)
    ensures MarksOnly(CreatePostedProg(id, p, rest), o)
  {
    var insert := OnEntry(id, InsertPosted(PostedContent(p), p.fiscalYear, p.period));
    assert MarksOnly(Then(EntryNo(p.fiscalYear), Then(insert, rest)), o);
  }

  lemma ReverseMarks(id: Id, r: Reversing, rest: Prog)
    requires MarksOnly(rest, Some(r.original))
    ensures MarksOnly(ReverseProg(id, r, rest), Some(r.original))
  {
    var o := Some(r.original);
    var insert := OnEntry(id, InsertPosted(ReversalContent(r), r.fiscalYear, r.period));
    var tail := Then(ClaimReversal(r.original, id), Then(OnEntry(r.original, MarkReversed), rest));
    assert MarksOnly(tail, o);
    assert MarksOnly(Then(EntryNo(r.fiscalYear), Then(insert, tail)), o);
    assert MarksOnly(Then(OnPeriod(r.period, ShareOpenPeriod), Then(EntryNo(r.fiscalYear), Then(insert, tail))), o);
  }

  lemma ProgramMarks(op: Op)
    ensures MarksOnly(Program(op), MarkedBy(op))
  {
    hide CreatePostedProg, ReverseProg, SettleProg, UnwindProg;
    match op {
      case PostEntry(id, p) => PostMarks(id, p, Done, None);
      case PostDoc(id, d, kind, total, p) =>
        PostMarks(id, p, Then(OnDoc(d, FinalizeDoc(p.fiscalYear, total, id)), Done), None);
      case PostPay(id, pay, row, p) =>
        var last := Then(OnPay(pay, FinalizePay(p.fiscalYear, id)), Done);
        PostMarks(id, p, last, None);
        SettleMarks(row.kind, row.partner, row.allocs, Then(DocNo(SeriesOfPay(row.kind), p.fiscalYear), CreatePostedProg(id, p, last)), None);
      case CloseYear(id, y, income, p) => PostMarks(id, p, Then(OnYear(y, SetYear(YearEnd(true, Some(id), income))), Done), None);
      case ReverseEntry(id, r) => ReverseMarks(id, r, Done);
      case VoidDocument(id, d, r) => ReverseMarks(id, r, Done);
      case VoidPayment(id, pay, row, r) =>
        ReverseMarks(id, r, Done);
        UnwindMarks(row.kind, row.allocs, Then(OnPay(pay, VoidPay), ReverseProg(id, r, Done)), Some(r.original));
      case ReopenClosedYear(id, y, r) => ReverseMarks(id, r, Then(OnYear(y, ReopenYear), Done));
      case PostDraft(id, p) =>
        var last := Then(OnEntry(id, StampDraft(p.fiscalYear, p.period)), Done);
        assert MarksOnly(last, None);
        assert MarksOnly(Then(EntryNo(p.fiscalYear), last), None);
        assert MarksOnly(Then(OnPeriod(p.period, ShareOpenPeriod), Then(EntryNo(p.fiscalYear), last)), None);
      case _ =>
    }
  }

  lemma MarksPostedEntry(done: seq<Stmt>, rest: Prog, op: Op, db: Db)
    requires Prepend(done, rest) == Program(op) && StillGood(db, op)
    requires rest.Then? && rest.stmt.OnEntry? && rest.stmt.entryAct.MarkReversed?
    ensures rest.stmt.entry in db.entries && db.entries[rest.stmt.entry].stamp.Some?
  {
    ProgramMarks(op);
    MarksOnlyRest(done, rest, MarkedBy(op));
  }

  // ---- no cyclic wait --------------------------------------------------------------------------------

  lemma {:induction false} ChainRises(s: System, ts: seq<nat>, i: nat, order: Order)
    requires SystemOk(s) && AllAscending(s, order) && CyclicWait(s, ts) && 0 < i < |ts|
    requires WaitsFor(s, ts[0], ts[1])
    ensures ts[i] in s.running && s.running[ts[i]].1.rest.Then?
    ensures Before(s.running[ts[0]].1.rest.stmt, s.running[ts[i]].1.rest.stmt, order)
  {
    hide SystemOk, LocksAscending;
    var next := if i + 1 < |ts| then ts[i + 1] else ts[0];
    assert WaitsFor(s, ts[i - 1], ts[i]) && WaitsFor(s, ts[i], next);
    WaitsRise(s, ts[i - 1], ts[i], next, order);
    if i > 1 { ChainRises(s, ts, i - 1, order); }
  }

  /** No set of transactions that come to their document rows in one common order, whatever it
      is, can wait for each other in a cycle; transactions that lock at most one document row
      each in particular. */
  lemma NoCyclicWait(s: System, ts: seq<nat>, order: Order)
    requires SystemOk(s) && AllAscending(s, order)
    ensures !CyclicWait(s, ts)
  {
    hide SystemOk, LocksAscending;
    if CyclicWait(s, ts) {
      var last := |ts| - 1;
      assert WaitsFor(s, ts[last], ts[0]);
      if last == 0 {
        assert false;
      } else {
        assert WaitsFor(s, ts[0], ts[1]);
        ChainRises(s, ts, last, order);
        WaitsRise(s, ts[last], ts[0], ts[1], order);
      }
    }
  }

  /** In every run whose payments allocate in one common order of documents. */
  lemma RunsNeverDeadlock(states: seq<System>, events: seq<Event>, i: nat, ts: seq<nat>, order: Order)
    requires IsRun(states, events) && i < |states| && AllAscending(states[i], order)
    ensures !CyclicWait(states[i], ts)
  {
    RunOk(states, events, i);
    NoCyclicWait(states[i], ts, order);
  }
}
