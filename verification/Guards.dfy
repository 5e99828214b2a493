/** Who makes a posting wait at its guard (src/ledger/posting/posting.service.ts:222-260): the year
and period locks are shared by all postings and exclusive only to closing and reopening. */
module Guards {
  import opened Options
  import opened Ledger
  import opened Statements
  import opened Operations
  import opened Serializability
  import opened Protocol

  /** Some statement takes an exclusive lock on the key. */
  predicate Excludes(p: Prog, k: Key) {
    match p
    case Done => false
    case Then(s, rest) => (KeyOf(s) == k && ModeOf(s).Exclusive?) || Excludes(rest, k)
  }

  /** Closing or reopening this fiscal year. */
  predicate TurnsYear(op: Op, y: int) { (op.CloseYear? || op.ReopenClosedYear?) && op.fiscalYear == y }

  /** Creating, closing or reopening this period. */
  predicate TurnsPeriod(op: Op, p: Id) {
    (op.CloseAccountingPeriod? || op.ReopenAccountingPeriod? || op.AddPeriod?) && op.period == p
  }

  predicate IsGuardKey(k: Key) { k.YearKey? || k.PeriodKey? }

  lemma {:induction false} SettleExcludes(kind: Kind, partner: Id, allocs: seq<Alloc>, rest: Prog, k: Key)
    requires IsGuardKey(k)
    ensures Excludes(SettleProg(kind, partner, allocs, rest), k) <==> Excludes(rest, k)
    decreases |allocs|
  {
    if allocs != [] { SettleExcludes(kind, partner, allocs[1..], rest, k); }
  }

  lemma {:induction false} UnwindExcludes(kind: Kind, allocs: seq<Alloc>, rest: Prog, k: Key)
    requires IsGuardKey(k)
    ensures Excludes(UnwindProg(kind, allocs, rest), k) <==> Excludes(rest, k)
    decreases |allocs|
  {
    if allocs != [] { UnwindExcludes(kind, allocs[1..], rest, k); }
  }

  lemma PostExcludes(id: Id, p: Posting, rest: Prog, k: Key)
    requires IsGuardKey(k)
    ensures Excludes(CreatePostedProg(id, p, rest), k) <==> Excludes(rest, k)
  {
    var insert := Then(OnEntry(id, InsertPosted(PostedContent(p), p.fiscalYear, p.period)), rest);
    assert Excludes(insert, k) <==> Excludes(rest, k);
    StampExcludes(p.fiscalYear, p.period, false, insert, k);
  }

  lemma StampExcludes(fiscalYear: int, period: Id, allowClosedYear: bool, rest: Prog, k: Key)
    requires IsGuardKey(k)
    ensures Excludes(StampProg(fiscalYear, period, allowClosedYear, rest), k) <==> Excludes(rest, k)
  {
    var number := Then(EntryNo(fiscalYear), rest);
    assert Excludes(number, k) <==> Excludes(rest, k);
    assert Excludes(Then(OnPeriod(period, ShareOpenPeriod), number), k) <==> Excludes(number, k);
  }

  lemma ReverseExcludes(id: Id, r: Reversing, rest: Prog, k: Key)
    requires IsGuardKey(k)
    ensures Excludes(ReverseProg(id, r, rest), k) <==> Excludes(rest, k)
  {
    var mark := Then(OnEntry(r.original, MarkReversed), rest);
    var claim := Then(ClaimReversal(r.original, id), mark);
    var insert := Then(OnEntry(id, InsertPosted(ReversalContent(r), r.fiscalYear, r.period)), claim);
    assert Excludes(mark, k) <==> Excludes(rest, k);
    assert Excludes(claim, k) <==> Excludes(mark, k);
    assert Excludes(insert, k) <==> Excludes(claim, k);
    StampExcludes(r.fiscalYear, r.period, r.allowClosedYear, insert, k);
  }

  /** A year or a period is locked exclusively by exactly the operations that turn it. */
  lemma ExcludesIff(op: Op, k: Key)
    requires IsGuardKey(k)
    ensures Excludes(Program(op), k) <==> if k.YearKey? then TurnsYear(op, k.fiscalYear) else TurnsPeriod(op, k.period)
  {
    hide CreatePostedProg, ReverseProg, SettleProg, UnwindProg, StampProg;
    match op {
      case PostEntry(id, p) => PostExcludes(id, p, Done, k);
      case PostDraft(id, p) => StampExcludes(p.fiscalYear, p.period, false, Then(OnEntry(id, StampDraft(p.fiscalYear, p.period)), Done), k);
      case ReverseEntry(id, r) => ReverseExcludes(id, r, Done, k);
      case PostDoc(id, d, _, total, p) => PostExcludes(id, p, Then(OnDoc(d, FinalizeDoc(p.fiscalYear, total, id)), Done), k);
      case VoidDocument(id, _, r) => ReverseExcludes(id, r, Done, k);
      case PostPay(id, pay, row, p) =>
        var last := Then(OnPay(pay, FinalizePay(p.fiscalYear, id)), Done);
        PostExcludes(id, p, last, k);
        SettleExcludes(row.kind, row.partner, row.allocs, Then(DocNo(SeriesOfPay(row.kind), p.fiscalYear), CreatePostedProg(id, p, last)), k);
      case VoidPayment(id, pay, row, r) =>
        ReverseExcludes(id, r, Done, k);
        UnwindExcludes(row.kind, row.allocs, Then(OnPay(pay, VoidPay), ReverseProg(id, r, Done)), k);
      case CloseYear(id, y, income, p) => PostExcludes(id, p, Then(OnYear(y, SetYear(YearEnd(true, Some(id), income))), Done), k);
      case ReopenClosedYear(id, y, r) => ReverseExcludes(id, r, Then(OnYear(y, ReopenYear), Done), k);
      case _ =>
    }
  }

  // What is done is part of the program.
  lemma {:induction false} DoneExcludes(done: seq<Stmt>, rest: Prog, k: Key)
    requires Excludes(rest, k) || exists i :: 0 <= i < |done| && KeyOf(done[i]) == k && ModeOf(done[i]).Exclusive?
    ensures Excludes(Prepend(done, rest), k)
    decreases |done|
  {
    if done != [] { DoneExcludes(done[..|done| - 1], Then(done[|done| - 1], rest), k); }
  }

  /** In every run, a posting that waits for the lock of its year waits for a close or reopening of
      that year, and one that waits for its period for an operation on that period: postings never
      keep each other waiting there. */
  lemma PostingsShareGuards(states: seq<System>, events: seq<Event>, i: nat, t: nat, u: nat)
    requires IsRun(states, events) && i < |states| && t in states[i].running && u in states[i].running
    requires states[i].running[t].1.rest.Then? && !Grants(states[i].running[u].1, states[i].running[t].1.rest.stmt)
    ensures var s, op := states[i].running[t].1.rest.stmt, states[i].running[u].0;
      && (s.OnYear? && s.yearAct == ShareOpenYear ==> TurnsYear(op, s.fiscalYear))
      && (s.OnPeriod? && s.periodAct == ShareOpenPeriod ==> TurnsPeriod(op, s.period))
  {
    hide Program, Current, Steps, Initial;
    RunOk(states, events, i);
    assert RunningOk(states[i], u);
    var s := states[i].running[t].1.rest.stmt;
    var (op, tx) := states[i].running[u];
    if IsGuardKey(KeyOf(s)) && ModeOf(s).Shared? {
      DoneExcludes(tx.done, tx.rest, KeyOf(s));
      ExcludesIff(op, KeyOf(s));
    }
  }
}
