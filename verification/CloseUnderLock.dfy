/** Closing a year beside other transactions: the exclusive year lock keeps a closing entry
that is right when the lock is taken right until it commits. */
module CloseUnderLock {
  import opened Options
  import opened Ledger
  import opened Statements
  import opened Operations
  import opened Serializability
  import opened Preparation
  import opened Invariants
  import opened Protocol
  import opened Sweep
  import opened YearEndClose

  // ---- the locks of a transaction --------------------------------------------------------------

  predicate HasKey(p: Prog, k: Key) {
    match p
    case Done => false
    case Then(s, rest) => KeyOf(s) == k || HasKey(rest, k)
  }

  // Statements of the program are either done or to come.
  lemma {:induction false} KeyDoneOrLeft(done: seq<Stmt>, rest: Prog, k: Key)
    requires HasKey(Prepend(done, rest), k)
    ensures HasKey(rest, k) || exists i :: 0 <= i < |done| && KeyOf(done[i]) == k
    decreases |done|
  {
    if done != [] {
      var front, last := done[..|done| - 1], done[|done| - 1];
      KeyDoneOrLeft(front, Then(last, rest), k);
      if !HasKey(rest, k) {
        if i :| 0 <= i < |front| && KeyOf(front[i]) == k { assert KeyOf(done[i]) == k; } else { assert KeyOf(done[|done| - 1]) == k; }
      }
    }
  }

  lemma {:induction false} FirstDone(done: seq<Stmt>, rest: Prog)
    requires done != []
    ensures Prepend(done, rest).Then? && Prepend(done, rest).stmt == done[0]
    decreases |done|
  {
    if |done| > 1 { FirstDone(done[..|done| - 1], Then(done[|done| - 1], rest)); }
  }

  lemma {:induction false} SettleHasKey(kind: Kind, partner: Id, allocs: seq<Alloc>, rest: Prog, k: Key)
    requires HasKey(rest, k)
    ensures HasKey(SettleProg(kind, partner, allocs, rest), k)
    decreases |allocs|
  {
    if allocs != [] { SettleHasKey(kind, partner, allocs[1..], rest, k); }
  }

  lemma {:induction false} UnwindHasKey(kind: Kind, allocs: seq<Alloc>, rest: Prog, k: Key)
    requires HasKey(rest, k)
    ensures HasKey(UnwindProg(kind, allocs, rest), k)
    decreases |allocs|
  {
    if allocs != [] { UnwindHasKey(kind, allocs[1..], rest, k); }
  }

  lemma StampHasKey(fiscalYear: int, period: Id, rest: Prog)
    ensures HasKey(StampProg(fiscalYear, period, false, rest), YearKey(fiscalYear))
  {
  }

  lemma PostHasKey(id: Id, p: Posting, rest: Prog)
    ensures HasKey(CreatePostedProg(id, p, rest), YearKey(p.fiscalYear))
  {
  }

  lemma ReverseHasKey(id: Id, r: Reversing, rest: Prog)
    requires !r.allowClosedYear
    ensures HasKey(ReverseProg(id, r, rest), YearKey(r.fiscalYear))
  {
  }

  /** Whoever posts into a year takes the lock of that year. */
  lemma PostingTakesYear(op: Op, db: Db, y: int)
    requires StillGood(db, op) && PostedYear(op) == Some(y)
    ensures HasKey(Program(op), YearKey(y))
  {
    hide CreatePostedProg, ReverseProg, SettleProg, UnwindProg, StampProg, StillGoodPosting;
    match op {
      case PostEntry(id, p) => PostHasKey(id, p, Done);
      case PostDoc(id, d, _, total, p) => PostHasKey(id, p, Then(OnDoc(d, FinalizeDoc(p.fiscalYear, total, id)), Done));
      case PostPay(id, pay, row, p) =>
        var last := Then(OnPay(pay, FinalizePay(p.fiscalYear, id)), Done);
        PostHasKey(id, p, last);
        SettleHasKey(row.kind, row.partner, row.allocs,
          Then(DocNo(SeriesOfPay(row.kind), p.fiscalYear), CreatePostedProg(id, p, last)), YearKey(y));
      case PostDraft(id, p) => StampHasKey(p.fiscalYear, p.period, Then(OnEntry(id, StampDraft(p.fiscalYear, p.period)), Done));
      case ReverseEntry(id, r) => ReverseHasKey(id, r, Done);
      case VoidDocument(id, _, r) => ReverseHasKey(id, r, Done);
      case VoidPayment(id, pay, row, r) =>
        ReverseHasKey(id, r, Done);
        UnwindHasKey(row.kind, row.allocs, Then(OnPay(pay, VoidPay), ReverseProg(id, r, Done)), YearKey(y));
      case _ =>
    }
  }

  // ---- closes that hold their year --------------------------------------------------------------

  /** The transaction is a close that has taken its year's lock. */
  predicate LockedClose(op: Op, tx: Tx) { op.CloseYear? && tx.done != [] }

  /** Every such close would still sweep its year. */
  ghost predicate ClosesOffset(s: System) {
    forall t | t in s.running && LockedClose(s.running[t].0, s.running[t].1) :: OffsetsIfClose(s.db, s.running[t].0)
  }

  lemma CloseHoldsYear(s: System, t: nat)
    requires t in s.running && RunningOk(s, t) && LockedClose(s.running[t].0, s.running[t].1)
    ensures HoldsExclusive(s.running[t].1, YearKey(s.running[t].0.fiscalYear))
  {
    hide CreatePostedProg, Current;
    var (op, tx) := s.running[t];
    FirstDone(tx.done, tx.rest);
    assert tx.done[0] == OnYear(op.fiscalYear, LockOpenYear);
  }

  // Nobody who commits meanwhile has posted into the year.
  lemma OthersPostElsewhere(s: System, t: nat, u: nat)
    requires SystemOk(s) && t in s.running && u in s.running && t != u
    requires LockedClose(s.running[t].0, s.running[t].1) && s.running[u].1.rest.Done?
    ensures PostedYear(s.running[u].0) != Some(s.running[t].0.fiscalYear)
  {
    hide LedgerOk, StillGood, Program, PostedYear, Current;
    var (op, tx) := s.running[u];
    var y := s.running[t].0.fiscalYear;
    assert RunningOk(s, t) && RunningOk(s, u);
    CloseHoldsYear(s, t);
    if PostedYear(op) == Some(y) {
      PostingTakesYear(op, s.db, y);
      KeyDoneOrLeft(tx.done, tx.rest, YearKey(y));
    }
  }

  lemma OffsetsFrame(a: Db, b: Db, y: int, lines: seq<Line>)
    requires b.config == a.config && b.accounts == a.accounts
    requires forall k | k in ProfitAndLoss(a) :: Balance(b.entries, iset{k}, Year(a.config, y)) == Balance(a.entries, iset{k}, Year(a.config, y))
    ensures Offsets(b, y, lines) <==> Offsets(a, y, lines)
  {
    hide Balance, Net, ProfitAndLoss;
    SamePl(a, b);
  }

  /** Posting into another year makes a closing entry neither right nor wrong. */
  lemma OtherYearKeepsOffsets(op: Op, db: Db, y: int, lines: seq<Line>)
    requires LedgerOk(db) && StillGood(db, op) && Effect(op, db).Some? && Plain(db.config, y) && PostedYear(op) != Some(y)
    ensures Effect(op, db).value.config == db.config
    ensures Offsets(Effect(op, db).value, y, lines) <==> Offsets(db, y, lines)
  {
    hide JournalOk, StillGood, Effect, Offsets, PostedYear, Plain, Balance, ProfitAndLoss;
    var b := Effect(op, db).value;
    EffectFrames(op, db);
    forall k | k in ProfitAndLoss(db)
      ensures Balance(b.entries, iset{k}, Year(db.config, y)) == Balance(db.entries, iset{k}, Year(db.config, y))
    {
      OtherYearFrozen(op, db, y, iset{k});
    }
    OffsetsFrame(db, b, y, lines);
  }

  /** Nor does a change of the chart: accounts keep their type, and new ones have no lines. */
  lemma ChartKeepsOffsets(s: System, accounts: map<Id, Account>, op: Op)
    requires LedgerOk(s.db) && ChartChange(s, accounts) && op.CloseYear? && StillGood(s.db, op)
    ensures var y, lines := op.fiscalYear, op.posting.lines;
      Offsets(s.db.(accounts := accounts), y, lines) <==> Offsets(s.db, y, lines)
  {
    hide Balance, ReversalsOk, YearsOk, NumbersOk, DocumentsOk, JournalOk, Year, Net;
    var a, b, w := s.db, s.db.(accounts := accounts), Year(s.db.config, op.fiscalYear);
    forall k | k in ProfitAndLoss(b) && k !in ProfitAndLoss(a)
      ensures Net(op.posting.lines, iset{k}) == -Balance(b.entries, iset{k}, w)
    {
      UnknownAccount(a, k, w);
      ElsewhereNet(op.posting.lines, iset{k});
    }
    assert forall k | k in ProfitAndLoss(a) :: k in ProfitAndLoss(b);
  }

  /** While a close holds its year's lock, no step makes its entry right or wrong. */
  lemma LockKeepsOffsets(s: System, e: Event, s2: System, t: nat)
    requires SystemOk(s) && Steps(s, e, s2) && t in s.running && LockedClose(s.running[t].0, s.running[t].1)
    requires e != Commit(t) && Plain(s.db.config, s.running[t].0.fiscalYear)
    ensures s2.db.config == s.db.config
    ensures var op := s.running[t].0;
      Offsets(s2.db, op.fiscalYear, op.posting.lines) <==> Offsets(s.db, op.fiscalYear, op.posting.lines)
  {
    hide LedgerOk, StillGood, Effect, Offsets, PostedYear, Current, Plain, ChartChange, Prepares, Advance, Program;
    var op := s.running[t].0;
    assert RunningOk(s, t);
    match e {
      case Commit(u) =>
        CommitIsEffect(s, u);
        assert RunningOk(s, u);
        OthersPostElsewhere(s, t, u);
        OtherYearKeepsOffsets(s.running[u].0, s.db, op.fiscalYear, op.posting.lines);
      case ChangeChart(accounts) => ChartKeepsOffsets(s, accounts, op);
      case _ =>
    }
  }

  /** The close t, about to take its year's lock, has an entry that takes back what the year has
      moved: nothing was posted into the year since it read the movements. */
  ghost predicate RightAtLock(s: System, e: Event) {
    e.Execute? && e.t in s.running && s.running[e.t].1.done == [] ==> OffsetsIfClose(s.db, s.running[e.t].0)
  }

  lemma OffsetsStay(s: System, e: Event, s2: System, t: nat)
    requires SystemOk(s) && Steps(s, e, s2) && t in s.running && LockedClose(s.running[t].0, s.running[t].1) && e != Commit(t)
    requires OffsetsIfClose(s.db, s.running[t].0)
    ensures OffsetsIfClose(s2.db, s.running[t].0)
  {
    hide SystemOk, Steps, Offsets, Plain;
    if Plain(s.db.config, s.running[t].0.fiscalYear) {
      LockKeepsOffsets(s, e, s2, t);
    } else {
      ConfigStays(s, e, s2);
    }
  }

  lemma ConfigStays(s: System, e: Event, s2: System)
    requires SystemOk(s) && Steps(s, e, s2)
    ensures s2.db.config == s.db.config
  {
    hide LedgerOk, StillGood, Effect, Current, ChartChange, Prepares, Advance, Program;
    if e.Commit? {
      CommitIsEffect(s, e.t);
      EffectFrames(s.running[e.t].0, s.db);
    }
  }

  /** What a step does to a transaction other than ending or beginning it. */
  lemma TransactionStays(s: System, e: Event, s2: System, t: nat)
    requires Steps(s, e, s2) && t in s2.running && !(e.Begin? && e.t == t)
    ensures t in s.running && s2.running[t].0 == s.running[t].0
    ensures s2.running[t].1.done == s.running[t].1.done || (e == Execute(t) && s2.running[t].1.done != [])
    ensures e != Commit(t) && e != Abort(t)
  {
    hide ChartChange, Prepares, Act, View, Program, Grants;
  }

  lemma StepKeepsOffsets(s: System, e: Event, s2: System)
    requires SystemOk(s) && ClosesOffset(s) && Steps(s, e, s2) && RightAtLock(s, e)
    ensures ClosesOffset(s2)
  {
    hide SystemOk, Steps, OffsetsIfClose;
    forall t | t in s2.running && LockedClose(s2.running[t].0, s2.running[t].1) ensures OffsetsIfClose(s2.db, s2.running[t].0) {
      if e.Begin? && e.t == t {
        BeginsUnlocked(s, e, s2);
      } else {
        TransactionStays(s, e, s2, t);
        if LockedClose(s.running[t].0, s.running[t].1) {
          OffsetsStay(s, e, s2, t);
        } else {
          ExecuteKeepsDb(s, t, s2);
        }
      }
    }
  }

  lemma BeginsUnlocked(s: System, e: Event, s2: System)
    requires Steps(s, e, s2) && e.Begin?
    ensures e.t in s2.running && s2.running[e.t].1.done == []
  {
  }

  lemma ExecuteKeepsDb(s: System, t: nat, s2: System)
    requires Steps(s, Execute(t), s2)
    ensures s2.db == s.db
  {
    hide Advance, Grants;
  }

  // ---- over whole runs --------------------------------------------------------------------------------

  ghost predicate RightAtLocks(states: seq<System>, events: seq<Event>)
    requires |states| == |events| + 1
  {
    forall i | 0 <= i < |events| :: RightAtLock(states[i], events[i])
  }

  lemma SomethingDone(op: Op, tx: Tx)
    requires op.CloseYear? && tx.rest.Done? && Prepend(tx.done, tx.rest) == Program(op)
    ensures tx.done != []
  {
    assert Prepend([], Done) == Done;
  }

  lemma CommitKeepsSwept(s: System, t: nat, s2: System)
    requires SystemOk(s) && ClosesOffset(s) && SweptOk(s.db) && Steps(s, Commit(t), s2)
    ensures SweptOk(s2.db)
  {
    hide LedgerOk, StillGood, Effect, OffsetsIfClose, SweptOk, Current;
    CommitIsEffect(s, t);
    assert RunningOk(s, t);
    var (op, tx) := s.running[t];
    if op.CloseYear? {
      SomethingDone(op, tx);
      assert LockedClose(op, tx);
    } else {
      NotAClose(s.db, op);
    }
    OperationKeepsSwept(s.db, op);
  }

  /** In every interleaved run in which no close is overtaken by a posting between reading the
      year's movements and taking the year's lock, every closed year has zero movement on every
      revenue and expense account. */
  lemma {:induction false} InterleavedYearsStaySwept(states: seq<System>, events: seq<Event>, i: nat)
    requires IsRun(states, events) && i < |states| && ChartOk(states[0].db) && RightAtLocks(states, events)
    ensures SweptOk(states[i].db) && ClosesOffset(states[i])
  {
    hide LedgerOk, Steps, OffsetsIfClose, RightAtLock;
    if i == 0 {
      InitialOk(states[0]);
    } else {
      hide SweptOk, SystemOk, ClosesOffset, ChartOk;
      var s, e, s2 := states[i - 1], events[i - 1], states[i];
      InterleavedYearsStaySwept(states, events, i - 1);
      RunOk(states, events, i - 1);
      SweptParts(s.db);
      StepKeepsOffsets(s, e, s2);
      match e {
        case Commit(t) => CommitKeepsSwept(s, t, s2);
        case ChangeChart(accounts) => ChartStepKeepsSwept(s, accounts, s2);
        case _ => RunIsSerial(states, events, i - 1);
      }
    }
  }

  lemma ChartStepKeepsSwept(s: System, accounts: map<Id, Account>, s2: System)
    requires SweptOk(s.db) && Steps(s, ChangeChart(accounts), s2)
    ensures SweptOk(s2.db)
  {
    hide SweptOk;
    ChartKeepsSwept(s.db, accounts);
  }

  // ---- exactly when a committed close leaves its year swept ------------------------------------------------

  /** Transaction t takes its year's lock at step i and commits the close at step j. */
  ghost predicate ClosesBetween(states: seq<System>, events: seq<Event>, i: nat, j: nat, t: nat, op: Op) {
    && IsRun(states, events) && i < j < |events| && events[i] == Execute(t) && events[j] == Commit(t)
    && t in states[i].running && states[i].running[t].0 == op && op.CloseYear? && states[i].running[t].1.done == []
    && forall k | i < k < j :: events[k] != Commit(t) && events[k] != Abort(t)
  }

  lemma TransactionGoesOn(s: System, e: Event, s2: System, t: nat)
    requires Steps(s, e, s2) && t in s.running && e != Commit(t) && e != Abort(t)
    ensures t in s2.running && s2.running[t].0 == s.running[t].0
    ensures s.running[t].1.done != [] || e == Execute(t) ==> s2.running[t].1.done != []
  {
    hide ChartChange, Prepares, Act, View, Program, Grants;
  }

  lemma {:induction false} LockHeld(states: seq<System>, events: seq<Event>, i: nat, j: nat, t: nat, op: Op, k: nat)
    requires ClosesBetween(states, events, i, j, t, op) && Plain(states[i].db.config, op.fiscalYear) && i < k <= j
    ensures t in states[k].running && states[k].running[t].0 == op && LockedClose(op, states[k].running[t].1)
    ensures states[k].db.config == states[i].db.config
    ensures Offsets(states[k].db, op.fiscalYear, op.posting.lines) <==> Offsets(states[i].db, op.fiscalYear, op.posting.lines)
    decreases k
  {
    hide Steps, SystemOk, Offsets, Plain, Initial;
    assert Steps(states[k - 1], events[k - 1], states[k]);
    RunOk(states, events, k - 1);
    if k == i + 1 {
      TransactionGoesOn(states[i], events[i], states[k], t);
      ExecuteKeepsDb(states[i], t, states[k]);
    } else {
      LockHeld(states, events, i, j, t, op, k - 1);
      TransactionGoesOn(states[k - 1], events[k - 1], states[k], t);
      LockKeepsOffsets(states[k - 1], events[k - 1], states[k], t);
    }
  }

  /** Exactly when a committed close leaves its year swept, in every run: if and only if its entry
      takes back what the year has moved at the moment it takes the year's lock. */
  lemma CloseSweptIff(states: seq<System>, events: seq<Event>, i: nat, j: nat, t: nat, op: Op)
    requires ClosesBetween(states, events, i, j, t, op) && Plain(states[i].db.config, op.fiscalYear)
    ensures YearClosed(states[j + 1].db, op.fiscalYear)
    ensures YearSwept(states[j + 1].db, op.fiscalYear) <==> Offsets(states[i].db, op.fiscalYear, op.posting.lines)
  {
    hide Steps, SystemOk, Offsets, Plain, Initial, Effect, StillGood, YearSwept, LedgerOk;
    var s := states[j];
    LockHeld(states, events, i, j, t, op, j);
    RunOk(states, events, j);
    RunIsSerial(states, events, j);
    CommittedIsGood(s, t);
    CloseSweepsIff(s.db, op);
    CloseYearRecords(s.db, op);
  }

  lemma CommittedIsGood(s: System, t: nat)
    requires SystemOk(s) && t in s.running
    ensures LedgerOk(s.db) && StillGood(s.db, s.running[t].0)
  {
    hide LedgerOk, StillGood;
    assert RunningOk(s, t);
  }

  // ---- in terms of what the close read -----------------------------------------------------------------------

  lemma {:induction false} ChartGrows(states: seq<System>, events: seq<Event>, r: nat, i: nat, k: Id)
    requires IsRun(states, events) && r <= i < |states| && k in states[r].db.accounts
    ensures k in states[i].db.accounts && SameAccountKind(states[r].db.accounts[k], states[i].db.accounts[k])
    decreases i
  {
    hide Effect, Steps, SystemOk, Initial;
    if r < i {
      ChartGrows(states, events, r, i - 1, k);
      RunIsSerial(states, events, i - 1);
      ChartStepKind(states[i - 1], events[i - 1], states[i], k);
    }
  }

  lemma ChartStepKind(s: System, e: Event, s2: System, k: Id)
    requires Steps(s, e, s2) && k in s.db.accounts
    requires e.Commit? ==> e.t in s.running && Effect(s.running[e.t].0, s.db) == Some(s2.db)
    ensures k in s2.db.accounts && SameAccountKind(s.db.accounts[k], s2.db.accounts[k])
  {
    hide Effect, Prepares, Advance, Program, View, Grants;
    if e.Commit? { EffectFrames(s.running[e.t].0, s.db); }
  }

  lemma {:induction false} ConfigInRun(states: seq<System>, events: seq<Event>, r: nat, i: nat)
    requires IsRun(states, events) && r <= i < |states|
    ensures states[i].db.config == states[r].db.config
    decreases i
  {
    hide Steps, SystemOk, Initial;
    if r < i {
      ConfigInRun(states, events, r, i - 1);
      RunOk(states, events, i - 1);
      ConfigStays(states[i - 1], events[i - 1], states[i]);
    }
  }

  /** Nothing has moved on any revenue or expense account of the year between two states. */
  ghost predicate NothingMoved(a: Db, b: Db, y: int) {
    forall k | k in ProfitAndLoss(b) :: Balance(b.entries, iset{k}, Year(b.config, y)) == Balance(a.entries, iset{k}, Year(b.config, y))
  }

  // An account that came later had no lines then, in the ledger or in the entry.
  lemma LaterAccount(db: Db, op: Op, k: Id, w: Window)
    requires LedgerOk(db) && StillGood(db, op) && op.CloseYear? && k !in db.accounts
    ensures Balance(db.entries, iset{k}, w) == 0 && Net(op.posting.lines, iset{k}) == 0
  {
    hide Balance, ReversalsOk, YearsOk, NumbersOk, DocumentsOk, JournalOk, Net;
    UnknownAccount(db, k, w);
    ElsewhereNet(op.posting.lines, iset{k});
  }

  /** A close whose entry was right on the database it read at step r leaves its year swept if and
      only if nothing moved on the year's revenue and expense accounts between that read and
      the taking of the lock. */
  lemma SweptUnlessOvertaken(states: seq<System>, events: seq<Event>, r: nat, i: nat, j: nat, t: nat, op: Op)
    requires ClosesBetween(states, events, i, j, t, op) && Plain(states[i].db.config, op.fiscalYear)
    requires r <= i && Offsets(states[r].db, op.fiscalYear, op.posting.lines) && op in states[r].prepared
    ensures YearSwept(states[j + 1].db, op.fiscalYear) <==> NothingMoved(states[r].db, states[i].db, op.fiscalYear)
  {
    hide Steps, SystemOk, Plain, Initial, StillGood, YearSwept, LedgerOk, Balance, Net, Year;
    var a, b, y := states[r].db, states[i].db, op.fiscalYear;
    CloseSweptIff(states, events, i, j, t, op);
    RunOk(states, events, r);
    PreparedStaysGood(states[r], op);
    ConfigInRun(states, events, r, i);
    forall k | k in ProfitAndLoss(b) ensures Net(op.posting.lines, iset{k}) == -Balance(a.entries, iset{k}, Year(a.config, y)) {
      if k in a.accounts {
        ChartGrows(states, events, r, i, k);
        assert k in ProfitAndLoss(a);
      } else {
        LaterAccount(a, op, k, Year(a.config, y));
      }
    }
  }

  lemma PreparedStaysGood(s: System, op: Op)
    requires SystemOk(s) && op in s.prepared
    ensures LedgerOk(s.db) && StillGood(s.db, op)
  {
    hide LedgerOk, StillGood;
  }
}
