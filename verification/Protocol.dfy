/** The running system: any number of prepared operations, arbitrarily stale, whose
transactions interleave statement by statement, commit or abort at any point. */
module Protocol {
  import opened Options
  import opened Ledger
  import opened Statements
  import opened Operations
  import opened Serializability
  import opened Preparation
  import opened Invariants
  import opened Preservation
  import AssertBalanced

  /** `prepared` are the phase-one results ever handed out; `running` the open transactions. */
  datatype System = System(db: Db, prepared: set<Op>, running: map<nat, (Op, Tx)>)

  datatype Event =
    | Prepare(op: Op)
    | Begin(t: nat, op: Op)
    | Execute(t: nat)
    | Commit(t: nat)
    | Abort(t: nat)
    | ChangeChart(accounts: map<Id, Account>)

  function PostingLines(op: Op): seq<Line> {
    match op
    case PostEntry(_, p) => p.lines
    case PostDraft(_, p) => p.lines
    case PostDoc(_, _, _, _, p) => p.lines
    case PostPay(_, _, _, p) => p.lines
    case CloseYear(_, _, _, p) => p.lines
    case _ => []
  }

  predicate Mentions(lines: seq<Line>, a: Id) { exists i | 0 <= i < |lines| :: lines[i].account == a }

  /** Updates never change what kind of account a row is. */
  predicate SameAccountKind(a: Account, b: Account) {
    a.accountType == b.accountType && a.subtype == b.subtype && a.debitNormal == b.debitNormal && a.role == b.role && a.postable == b.postable
  }

  /** Creating accounts whose subtype fits their type, editing and soft-deleting them.  Deletion is refused for an account with
      posted lines and, deletion and posting being atomic to each other, never falls between
      the preparation of a posting and its transaction. */
  ghost predicate ChartChange(s: System, accounts: map<Id, Account>) {
    && (forall a | a in s.db.accounts :: a in accounts && SameAccountKind(s.db.accounts[a], accounts[a]))
    && (forall a | a in accounts && a !in s.db.accounts :: Coherent(accounts[a]))
    && forall a | Live(s.db, a) && !(a in accounts && !accounts[a].deleted) ::
      && (forall i | i in s.db.entries && s.db.entries[i].stamp.Some? :: !Mentions(s.db.entries[i].lines, a))
      && (forall op | op in s.prepared :: !Mentions(PostingLines(op), a))
  }

  /** One step of the system. */
  ghost predicate Steps(s: System, e: Event, s2: System) {
    match e
    case Prepare(op) => Prepares(s.db, op) && s2 == s.(prepared := s.prepared + {op})
    case Begin(t, op) =>
      op in s.prepared && t !in s.running && s2 == s.(running := s.running[t := (op, Fresh(Program(op)))])
    case Execute(t) =>
      && t in s.running
      && var (op, tx) := s.running[t];
         && tx.rest.Then? && Advance(tx, s.db).Some?
         && (forall u | u in s.running && u != t :: Grants(s.running[u].1, tx.rest.stmt))
         && s2 == s.(running := s.running[t := (op, Advance(tx, s.db).value)])
    case Commit(t) =>
      && t in s.running && s.running[t].1.rest.Done?
      && s2 == s.(db := View(s.db, s.running[t].1.writes), running := s.running - {t})
    case Abort(t) => t in s.running && s2 == s.(running := s.running - {t})
    case ChangeChart(accounts) => ChartChange(s, accounts) && s2 == s.(db := s.db.(accounts := accounts))
  }

  /** A database with a coherent chart of accounts and nothing posted. */
  predicate Initial(s: System) {
    && ChartCoherent(s.db.accounts) && s.prepared == {} && s.running == map[]
    && s.db.periods == map[] && s.db.years == map[] && s.db.journalSeq == map[] && s.db.docSeq == map[]
    && s.db.entries == map[] && s.db.reversals == map[] && s.db.docs == map[] && s.db.pays == map[]
  }

  ghost predicate IsRun(states: seq<System>, events: seq<Event>) {
    && |states| == |events| + 1 && Initial(states[0])
    && forall i | 0 <= i < |events| :: Steps(states[i], events[i], states[i + 1])
  }

  // ---- the inductive invariant ------------------------------------------------------------

  ghost predicate RunningOk(s: System, t: nat)
    requires t in s.running
  {
    var (op, tx) := s.running[t];
    op in s.prepared && Current(tx, s.db) && Prepend(tx.done, tx.rest) == Program(op)
  }

  ghost predicate SystemOk(s: System) {
    && LedgerOk(s.db)
    && (forall op | op in s.prepared :: StillGood(s.db, op))
    && (forall t | t in s.running :: RunningOk(s, t))
    && (forall t, u | t in s.running && u in s.running && t != u :: Compatible(s.running[t].1, s.running[u].1))
  }

  lemma InitialOk(s: System)
    requires Initial(s)
    ensures SystemOk(s)
  {
  }

  /** What phase one hands out is good for phase two. */
  lemma PreparedIsGood(db: Db, op: Op)
    requires LedgerOk(db) && Prepares(db, op)
    ensures StillGood(db, op)
  {
    hide JournalOk, ReversalsOk, NumbersOk, PreparesPosting, StillGoodPosting, Postable;
    match JournalingOf(op) {
      case Posts(_, p) => PostingIsGood(db, p);
      case Reverses(_, r) => OriginalIsStamped(db, r.original);
      case Drafts => if op.PostDraft? { PostingIsGood(db, op.posting); }
      case Untouched =>
    }
  }

  lemma OriginalIsStamped(db: Db, o: Id)
    requires JournalOk(db) && o in db.entries && db.entries[o].status.Posted?
    ensures db.entries[o].stamp.Some? && db.entries[o].stamp.value.fiscalYear == FiscalYear(db, db.entries[o].date)
  {
    assert EntryOk(db, db.entries[o]);
  }

  lemma PostingIsGood(db: Db, p: Posting)
    requires PreparesPosting(db, p)
    ensures StillGoodPosting(db, p)
  {
    if LinesPassCheck(p.lines) {
      AssertBalanced.AcceptsIffBalanced(p.lines);
    }
  }

  // ---- every step keeps it --------------------------------------------------------------------

  /** The committed database moves only by whole operations. */
  lemma CommitIsEffect(s: System, t: nat)
    requires SystemOk(s) && t in s.running && s.running[t].1.rest.Done?
    ensures Effect(s.running[t].0, s.db) == Some(View(s.db, s.running[t].1.writes))
  {
    var (op, tx) := s.running[t];
    assert RunningOk(s, t);
    CommitIsAtomic(tx, s.db);
    RunIsEffect(op, s.db);
  }

  lemma CommitOk(s: System, t: nat, s2: System)
    requires SystemOk(s) && Steps(s, Commit(t), s2)
    ensures SystemOk(s2) && Grows(s.db, s2.db)
  {
    hide LedgerOk, Grows, Effect, StillGood, Compatible, View;
    var (op, tx) := s.running[t];
    assert RunningOk(s, t);
    CommitIsEffect(s, t);
    EffectKeepsLedger(op, s.db);
    hide Current;
    forall o | o in s2.prepared ensures StillGood(s2.db, o) {
      StaleIsStillGood(s.db, s2.db, o);
    }
    forall u | u in s2.running ensures RunningOk(s2, u) {
      assert RunningOk(s, u) && s2.running[u] == s.running[u];
      CommitKeepsOthersCurrent(tx, s.running[u].1, s.db);
    }
  }

  lemma ExecuteOk(s: System, t: nat, s2: System)
    requires SystemOk(s) && Steps(s, Execute(t), s2)
    ensures SystemOk(s2)
  {
    hide LedgerOk, StillGood, Current, Compatible, Advance, Grants, Program;
    var (op, tx) := s.running[t];
    assert RunningOk(s, t);
    AdvanceStaysCurrent(tx, s.db);
    forall u | u in s2.running ensures RunningOk(s2, u) {
      if u != t { assert RunningOk(s, u); }
    }
    forall u | u in s.running && u != t
      ensures Compatible(s2.running[t].1, s2.running[u].1) && Compatible(s2.running[u].1, s2.running[t].1)
    {
      AdvanceStaysCompatible(tx, s.running[u].1, s.db);
    }
  }

  lemma BeginOk(s: System, t: nat, op: Op, s2: System)
    requires SystemOk(s) && Steps(s, Begin(t, op), s2)
    ensures SystemOk(s2)
  {
    hide LedgerOk, StillGood;
    forall u | u in s2.running ensures RunningOk(s2, u) {
      if u != t { assert RunningOk(s, u); }
    }
  }

  lemma ChangeChartOk(s: System, accounts: map<Id, Account>, s2: System)
    requires SystemOk(s) && Steps(s, ChangeChart(accounts), s2)
    ensures SystemOk(s2)
  {
    hide LedgerOk, StillGood, ChartChange;
    assert LedgerOk(s2.db) by { ChangeChartKeepsLedger(s, accounts); }
    forall op | op in s2.prepared ensures StillGood(s2.db, op) {
      ChangeChartKeepsPrepared(s, accounts, op);
    }
    forall u | u in s2.running ensures RunningOk(s2, u) {
      assert RunningOk(s, u);
      ReplayLocal(s.running[u].1.done, s.db, s2.db);
    }
  }

  lemma StillLive(s: System, accounts: map<Id, Account>, lines: seq<Line>)
    requires ChartChange(s, accounts) && LinesLive(s.db, lines)
    requires (exists i :: i in s.db.entries && s.db.entries[i].stamp.Some? && s.db.entries[i].lines == lines)
          || (exists op :: op in s.prepared && PostingLines(op) == lines)
    ensures LinesLive(s.db.(accounts := accounts), lines)
  {
    forall i | 0 <= i < |lines| ensures Live(s.db.(accounts := accounts), lines[i].account) {
      assert Mentions(lines, lines[i].account);
    }
  }

  lemma ChangeChartKeepsLedger(s: System, accounts: map<Id, Account>)
    requires LedgerOk(s.db) && ChartChange(s, accounts)
    ensures LedgerOk(s.db.(accounts := accounts))
  {
    var b := s.db.(accounts := accounts);
    ChangeChartKeepsJournal(s, accounts);
    RestIgnoresChart(s.db, accounts);
  }

  lemma ChangeChartKeepsJournal(s: System, accounts: map<Id, Account>)
    requires JournalOk(s.db) && ChartChange(s, accounts)
    ensures JournalOk(s.db.(accounts := accounts))
  {
    var b := s.db.(accounts := accounts);
    forall i | i in b.entries ensures EntryOk(b, b.entries[i]) {
      assert EntryOk(s.db, s.db.entries[i]);
      if b.entries[i].stamp.Some? { StillLive(s, accounts, b.entries[i].lines); }
    }
  }

  lemma RestIgnoresChart(db: Db, accounts: map<Id, Account>)
    requires ReversalsOk(db) && YearsOk(db) && DocumentsOk(db) && NumbersOk(db)
    ensures var b := db.(accounts := accounts); ReversalsOk(b) && YearsOk(b) && DocumentsOk(b) && NumbersOk(b)
  {
    hide NumbersOk;
    var b := db.(accounts := accounts);
    forall o | o in b.reversals ensures Cancels(b, b.reversals[o], o) { assert Cancels(db, db.reversals[o], o); }
    DocumentsExtend(db, b);
    NumbersIgnoreChart(db, accounts);
  }

  lemma NumbersIgnoreChart(db: Db, accounts: map<Id, Account>)
    requires NumbersOk(db)
    ensures NumbersOk(db.(accounts := accounts))
  {
  }

  lemma ChangeChartKeepsPrepared(s: System, accounts: map<Id, Account>, op: Op)
    requires ChartChange(s, accounts) && op in s.prepared && StillGood(s.db, op)
    ensures StillGood(s.db.(accounts := accounts), op)
  {
    if op.PostEntry? || op.PostDraft? || op.PostDoc? || op.PostPay? || op.CloseYear? {
      StillLive(s, accounts, PostingLines(op));
    }
  }

  lemma StepOk(s: System, e: Event, s2: System)
    requires SystemOk(s) && Steps(s, e, s2)
    ensures SystemOk(s2)
  {
    match e {
      case Prepare(op) => PrepareOk(s, op, s2);
      case Begin(t, op) => BeginOk(s, t, op, s2);
      case Execute(t) => ExecuteOk(s, t, s2);
      case Commit(t) => CommitOk(s, t, s2);
      case Abort(t) => AbortOk(s, t, s2);
      case ChangeChart(accounts) => ChangeChartOk(s, accounts, s2);
    }
  }

  lemma PrepareOk(s: System, op: Op, s2: System)
    requires SystemOk(s) && Steps(s, Prepare(op), s2)
    ensures SystemOk(s2)
  {
    hide LedgerOk, StillGood, Prepares, Current, Compatible;
    PreparedIsGood(s.db, op);
    forall u | u in s2.running ensures RunningOk(s2, u) { assert RunningOk(s, u); }
  }

  lemma AbortOk(s: System, t: nat, s2: System)
    requires SystemOk(s) && Steps(s, Abort(t), s2)
    ensures SystemOk(s2)
  {
    hide LedgerOk, StillGood;
    forall u | u in s2.running ensures RunningOk(s2, u) { assert RunningOk(s, u); }
  }

  // ---- theorems over whole runs -----------------------------------------------------------------

  lemma {:induction false} RunOk(states: seq<System>, events: seq<Event>, i: nat)
    requires IsRun(states, events) && i < |states|
    ensures SystemOk(states[i])
  {
    hide Steps, SystemOk;
    if i == 0 {
      InitialOk(states[0]);
    } else {
      hide Initial;
      RunOk(states, events, i - 1);
      StepOk(states[i - 1], events[i - 1], states[i]);
    }
  }

  /** Serializability: along every run the committed database changes by whole operations
      only, each with its atomic effect on the database it commits to. */
  lemma RunIsSerial(states: seq<System>, events: seq<Event>, i: nat)
    requires IsRun(states, events) && i < |events|
    ensures match events[i]
            case Commit(t) =>
              && t in states[i].running
              && Effect(states[i].running[t].0, states[i].db) == Some(states[i + 1].db)
            case ChangeChart(accounts) => states[i + 1].db == states[i].db.(accounts := accounts)
            case _ => states[i + 1].db == states[i].db
  {
    RunOk(states, events, i);
    assert Steps(states[i], events[i], states[i + 1]);
    if events[i].Commit? { CommitIsEffect(states[i], events[i].t); }
  }

  /** The chart stays coherent: no account of any reachable database mixes type and subtype. */
  lemma {:induction false} ChartStaysCoherent(states: seq<System>, events: seq<Event>, i: nat)
    requires IsRun(states, events) && i < |states|
    ensures ChartCoherent(states[i].db.accounts)
  {
    hide Effect, Steps;
    if i > 0 {
      hide ChartCoherent;
      var s, e, s2 := states[i - 1], events[i - 1], states[i];
      ChartStaysCoherent(states, events, i - 1);
      RunIsSerial(states, events, i - 1);
      match e {
        case Commit(t) => EffectKeepsChart(s.running[t].0, s.db);
        case ChangeChart(accounts) =>
          assert Steps(s, e, s2);
          ChangeKeepsCoherent(s, accounts, s2);
        case _ =>
      }
    }
  }

  lemma EffectKeepsChart(op: Op, db: Db)
    requires Effect(op, db).Some?
    ensures Effect(op, db).value.accounts == db.accounts
  {
    hide Effect, JournalShape;
    DocumentShape(op, db);
  }

  lemma ChangeKeepsCoherent(s: System, accounts: map<Id, Account>, s2: System)
    requires Steps(s, ChangeChart(accounts), s2) && ChartCoherent(s.db.accounts)
    ensures ChartCoherent(accounts)
  {
    forall a | a in accounts ensures Coherent(accounts[a]) {
      if a in s.db.accounts { assert SameAccountKind(s.db.accounts[a], accounts[a]); }
    }
  }

  /** Gapless numbering: in every reachable database the journal numbers of every fiscal year
      are exactly 1 .. next - 1, each on one entry; likewise the numbers of invoices, bills,
      receipts and disbursements. */
  lemma NumbersAreGapless(states: seq<System>, events: seq<Event>, i: nat, fiscalYear: int, kind: Kind, n: nat)
    requires IsRun(states, events) && i < |states|
    ensures EntryNumberExact(states[i].db, fiscalYear, n)
    ensures DocNumberExact(states[i].db, kind, fiscalYear, n)
    ensures PayNumberExact(states[i].db, kind, fiscalYear, n)
  {
    RunOk(states, events, i);
    hide IsRun, EntryNumberExact, DocNumberExact, PayNumberExact, NumbersOk;
    EntryNumbersExact(states[i].db, fiscalYear, n);
    DocNumbersExact(states[i].db, kind, fiscalYear, n);
    PayNumbersExact(states[i].db, kind, fiscalYear, n);
  }

  /** Every posted entry of every reachable database is balanced, on live accounts that take
      postings, dated inside its period and numbered in the fiscal year of its date. */
  lemma PostedEntriesInOrder(states: seq<System>, events: seq<Event>, i: nat, id: Id)
    requires IsRun(states, events) && i < |states|
    requires id in states[i].db.entries && states[i].db.entries[id].stamp.Some?
    ensures var db, e := states[i].db, states[i].db.entries[id];
      && 2 <= |e.lines| && Debits(e.lines, EVERY) == Credits(e.lines, EVERY)
      && (forall i | 0 <= i < |e.lines| ::
            var l := e.lines[i];
            && ((0 < l.debit && l.credit == 0) || (l.debit == 0 && 0 < l.credit))
            && l.account in db.accounts && !db.accounts[l.account].deleted && db.accounts[l.account].postable)
      && e.stamp.value.period in db.periods
      && db.periods[e.stamp.value.period].start <= e.date <= db.periods[e.stamp.value.period].end
      && e.stamp.value.fiscalYear == FiscalYear(db, e.date)
  {
    RunOk(states, events, i);
    assert EntryOk(states[i].db, states[i].db.entries[id]);
  }

  /** The moment an entry is posted, however stale its preparation: its period is open, and
      its fiscal year is not left closed unless the entry is the one that closes it. */
  ghost predicate PostedInOpenTime(before: Db, after: Db, id: Id)
    requires id in after.entries && after.entries[id].stamp.Some?
  {
    var stamp := after.entries[id].stamp.value;
    && stamp.period in after.periods && before.periods == after.periods && after.periods[stamp.period].open
    && (YearClosed(after, stamp.fiscalYear) ==> after.years[stamp.fiscalYear].entry == Some(id))
  }

  lemma EffectPostsInOpenTime(op: Op, db: Db, id: Id)
    requires StillGood(db, op) && Effect(op, db).Some?
    requires id in Effect(op, db).value.entries && Effect(op, db).value.entries[id].stamp.Some?
    requires !(id in db.entries && db.entries[id].stamp.Some?)
    ensures PostedInOpenTime(db, Effect(op, db).value, id)
  {
    hide Effect, StillGood, PostedInOpenTime;
    if op.CloseYear? || op.ReopenClosedYear? {
      YearOpPostsInOpenTime(op, db, id);
    } else if JournalingOf(op).Drafts? {
      DraftPostsInOpenTime(op, db, id);
    } else {
      OtherOpPostsInOpenTime(op, db, id);
    }
  }

  lemma OtherOpPostsInOpenTime(op: Op, db: Db, id: Id)
    requires !op.CloseYear? && !op.ReopenClosedYear? && !JournalingOf(op).Drafts?
    requires StillGood(db, op) && Effect(op, db).Some?
    requires id in Effect(op, db).value.entries && Effect(op, db).value.entries[id].stamp.Some?
    requires !(id in db.entries && db.entries[id].stamp.Some?)
    ensures PostedInOpenTime(db, Effect(op, db).value, id)
  {
    hide Effect, SettleAll, UnwindAll, PostEffect, ReverseEffect;
    DocumentShape(op, db);
    match JournalingOf(op) {
      case Posts(i, p) => NewlyPosted(db, i, p, id);
      case Reverses(i, r) => NewlyReversing(db, i, r, id);
      case Untouched =>
    }
  }

  lemma NewlyPosted(db: Db, i: Id, p: Posting, id: Id)
    requires PostEffect(db, i, p).Some? && !(id in db.entries && db.entries[id].stamp.Some?)
    ensures var b := PostEffect(db, i, p).value; id in b.entries && b.entries[id].stamp.Some? ==>
      && id == i && b.entries[id].stamp.value.period == p.period && b.entries[id].stamp.value.fiscalYear == p.fiscalYear
      && PostableIn(db, p.fiscalYear, p.period, false)
  {
  }

  lemma NewlyReversing(db: Db, i: Id, r: Reversing, id: Id)
    requires ReverseEffect(db, i, r).Some? && !(id in db.entries && db.entries[id].stamp.Some?)
    ensures var b := ReverseEffect(db, i, r).value; id in b.entries && b.entries[id].stamp.Some? ==>
      && b.entries[id].stamp.value.period == r.period && b.entries[id].stamp.value.fiscalYear == r.fiscalYear
      && PostableIn(db, r.fiscalYear, r.period, r.allowClosedYear)
  {
  }

  lemma DraftPostsInOpenTime(op: Op, db: Db, id: Id)
    requires JournalingOf(op).Drafts? && Effect(op, db).Some?
    requires id in Effect(op, db).value.entries && Effect(op, db).value.entries[id].stamp.Some?
    requires !(id in db.entries && db.entries[id].stamp.Some?)
    ensures PostedInOpenTime(db, Effect(op, db).value, id)
  {
  }

  lemma YearOpPostsInOpenTime(op: Op, db: Db, id: Id)
    requires op.CloseYear? || op.ReopenClosedYear?
    requires StillGood(db, op) && Effect(op, db).Some?
    requires id in Effect(op, db).value.entries && Effect(op, db).value.entries[id].stamp.Some?
    requires !(id in db.entries && db.entries[id].stamp.Some?)
    ensures PostedInOpenTime(db, Effect(op, db).value, id)
  {
    hide PostEffect, ReverseEffect;
    match op {
      case CloseYear(i, _, _, p) =>
        NewlyPosted(db, i, p, id);
        PostTouches(db, i, p);
      case ReopenClosedYear(i, _, r) =>
        NewlyReversing(db, i, r, id);
        ReverseTouches(db, i, r);
    }
  }

  lemma CommitsInOpenTime(states: seq<System>, events: seq<Event>, i: nat, id: Id)
    requires IsRun(states, events) && i < |events|
    requires id in states[i + 1].db.entries && states[i + 1].db.entries[id].stamp.Some?
    requires !(id in states[i].db.entries && states[i].db.entries[id].stamp.Some?)
    ensures PostedInOpenTime(states[i].db, states[i + 1].db, id)
  {
    RunOk(states, events, i);
    RunIsSerial(states, events, i);
    assert Steps(states[i], events[i], states[i + 1]);
    var t := events[i].t;
    assert RunningOk(states[i], t);
    EffectPostsInOpenTime(states[i].running[t].0, states[i].db, id);
  }

  /** An entry is REVERSED exactly when some entry points back at it; that entry is the only
      one, and the pair cancels on every set of accounts. */
  lemma ReversedOnce(states: seq<System>, events: seq<Event>, i: nat, o: Id)
    requires IsRun(states, events) && i < |states| && o in states[i].db.entries
    ensures var entries := states[i].db.entries;
      && (entries[o].status.Reversed? <==> exists r :: r in entries && entries[r].reversalOf == Some(o))
      && (forall r, q | r in entries && q in entries && entries[r].reversalOf == entries[q].reversalOf == Some(o) :: r == q)
      && (forall r, accounts: iset<Id> | r in entries && entries[r].reversalOf == Some(o) ::
            Net(entries[r].lines, accounts) + Net(entries[o].lines, accounts) == 0)
  {
    hide IsRun, ReversalsOk, JournalOk, YearsOk, NumbersOk, DocumentsOk, StillGood, Net;
    RunOk(states, events, i);
    ReversalsCancel(states[i].db, o);
  }

  lemma ReversalsCancel(db: Db, o: Id)
    requires ReversalsOk(db) && o in db.entries
    ensures db.entries[o].status.Reversed? <==> exists r :: r in db.entries && db.entries[r].reversalOf == Some(o)
    ensures forall r, q | r in db.entries && q in db.entries && db.entries[r].reversalOf == db.entries[q].reversalOf == Some(o) :: r == q
    ensures forall r, accounts: iset<Id> | r in db.entries && db.entries[r].reversalOf == Some(o) ::
              Net(db.entries[r].lines, accounts) + Net(db.entries[o].lines, accounts) == 0
  {
    hide Net, Swapped;
    if o in db.reversals { assert Cancels(db, db.reversals[o], o); }
    forall r, accounts: iset<Id> | r in db.entries && db.entries[r].reversalOf == Some(o)
      ensures Net(db.entries[r].lines, accounts) + Net(db.entries[o].lines, accounts) == 0
    {
      assert Cancels(db, r, o);
      SwappedNet(db.entries[o].lines, accounts);
    }
  }

  lemma SwappedNet(lines: seq<Line>, accounts: iset<Id>)
    ensures Net(Swapped(lines), accounts) + Net(lines, accounts) == 0
  {
    SwapNets(lines, accounts);
  }

  /** Once one reversal of an entry has committed, no other ever does. */
  lemma SecondReversalRejected(db: Db, id: Id, r: Reversing)
    requires ReversalsOk(db) && r.original in db.entries && db.entries[r.original].status.Reversed?
    ensures ReverseEffect(db, id, r).None?
  {
    assert r.original in db.reversals;
  }
}
