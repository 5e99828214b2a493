/** What can be done in every reachable ledger: posting, reversing and voiding go through as soon as
the rows, the period and the year allow them, and nothing else stands in the way. */
module Progress {
  import opened Options
  import opened Ledger
  import opened Statements
  import opened Operations
  import opened Preparation
  import opened Invariants
  import opened Protocol
  import opened Subledger
  import opened Outcomes
  import AssertBalanced
  import Money
  import Tax

  /** The operation passes phase one and, run at once, goes through. */
  ghost predicate CanDo(db: Db, op: Op) { Prepares(db, op) && Effect(op, db).Some? }

  predicate IsOpenOn(db: Db, period: Id, date: Day) {
    period in db.periods && db.periods[period].open && db.periods[period].start <= date <= db.periods[period].end
  }

  /** Both the period and the fiscal year of the date take postings. */
  predicate TakesPostings(db: Db, period: Id, date: Day) { IsOpenOn(db, period, date) && YearIsOpen(db, FiscalYear(db, date)) }

  predicate AccountUsable(db: Db, a: Id) {
    a in db.accounts && !db.accounts[a].deleted && db.accounts[a].postable && db.accounts[a].active
  }

  /** Lines that any entry may have: balanced, up to 10^16 rupiah a side, on accounts in use. */
  ghost predicate LinesFit(db: Db, lines: seq<Line>) {
    && Balanced(lines) && Debits(lines, EVERY) <= Money.LIMIT
    && forall i | 0 <= i < |lines| :: AccountUsable(db, lines[i].account)
  }

  function PostingOn(db: Db, date: Day, source: Source, lines: seq<Line>, period: Id): Posting {
    Posting(date, source, lines, FiscalYear(db, date), period)
  }

  function ReversalOn(db: Db, original: Id, date: Day, period: Id, allowClosedYear: bool): Reversing
    requires original in db.entries
  {
    Reversing(original, db.entries[original].lines, date, FiscalYear(db, date), period, allowClosedYear)
  }

  lemma EnabledGoes(db: Db, op: Op)
    requires LedgerOk(db) && Prepares(db, op) && Enabled(db, op)
    ensures CanDo(db, op)
  {
    hide LedgerOk, Prepares, Enabled, Effect, StillGood;
    PreparedIsGood(db, op);
    GoesThroughIff(db, op);
  }

  lemma FitsPrepare(db: Db, p: Posting)
    requires LinesFit(db, p.lines) && TakesPostings(db, p.period, p.date) && p.fiscalYear == FiscalYear(db, p.date)
    ensures PreparesPosting(db, p)
  {
    AssertBalanced.AcceptsIffBalanced(p.lines);
  }

  lemma FitsMayPost(db: Db, id: Id, p: Posting)
    requires LinesFit(db, p.lines) && TakesPostings(db, p.period, p.date) && p.fiscalYear == FiscalYear(db, p.date) && id !in db.entries
    ensures MayPost(db, id, p)
  {
  }

  // ---- entries ---------------------------------------------------------------------------------------

  /** Lines that fit can be posted on any open date. */
  lemma CanPost(states: seq<System>, events: seq<Event>, i: nat, id: Id, date: Day, source: Source, lines: seq<Line>, period: Id)
    requires IsRun(states, events) && i < |states| && id !in states[i].db.entries
    requires LinesFit(states[i].db, lines) && TakesPostings(states[i].db, period, date)
    ensures CanDo(states[i].db, PostEntry(id, PostingOn(states[i].db, date, source, lines, period)))
  {
    hide IsRun, LedgerOk, LinesFit, TakesPostings, PreparesPosting, MayPost;
    var db := states[i].db;
    var p := PostingOn(db, date, source, lines, period);
    RunOk(states, events, i);
    FitsPrepare(db, p);
    FitsMayPost(db, id, p);
    EnabledGoes(db, PostEntry(id, p));
  }

  /** So can a draft, on its own date. */
  lemma CanPostDraft(states: seq<System>, events: seq<Event>, i: nat, e: Id, period: Id)
    requires IsRun(states, events) && i < |states| && DraftEntry(states[i].db, e)
    requires LinesFit(states[i].db, states[i].db.entries[e].lines) && TakesPostings(states[i].db, period, states[i].db.entries[e].date)
    ensures var d := states[i].db.entries[e];
      CanDo(states[i].db, Op.PostDraft(e, PostingOn(states[i].db, d.date, d.source, d.lines, period)))
  {
    hide IsRun, LedgerOk, LinesFit, PreparesPosting;
    var db, d := states[i].db, states[i].db.entries[e];
    RunOk(states, events, i);
    FitsPrepare(db, PostingOn(db, d.date, d.source, d.lines, period));
    EnabledGoes(db, Op.PostDraft(e, PostingOn(db, d.date, d.source, d.lines, period)));
  }

  /** Every posted entry can be reversed on any open date; once, by Protocol.ReversedOnce. */
  lemma CanReverse(states: seq<System>, events: seq<Event>, i: nat, id: Id, original: Id, date: Day, period: Id)
    requires IsRun(states, events) && i < |states| && id !in states[i].db.entries
    requires original in states[i].db.entries && states[i].db.entries[original].status == Posted
    requires TakesPostings(states[i].db, period, date)
    ensures CanDo(states[i].db, ReverseEntry(id, ReversalOn(states[i].db, original, date, period, false)))
  {
    hide IsRun, LedgerOk;
    RunOk(states, events, i);
    EnabledGoes(states[i].db, ReverseEntry(id, ReversalOn(states[i].db, original, date, period, false)));
  }

  /** A closed year can be reopened while its closing entry is posted and the period of that day
      is open. */
  lemma CanReopen(states: seq<System>, events: seq<Event>, i: nat, id: Id, y: int, c: Id, period: Id)
    requires IsRun(states, events) && i < |states| && id !in states[i].db.entries
    requires YearClosed(states[i].db, y) && states[i].db.years[y].entry == Some(c)
    requires c in states[i].db.entries && states[i].db.entries[c].status == Posted
    requires IsOpenOn(states[i].db, period, states[i].db.entries[c].date)
    ensures CanDo(states[i].db, ReopenClosedYear(id, y, ReversalOn(states[i].db, c, states[i].db.entries[c].date, period, true)))
  {
    hide IsRun, LedgerOk;
    RunOk(states, events, i);
    EnabledGoes(states[i].db, ReopenClosedYear(id, y, ReversalOn(states[i].db, c, states[i].db.entries[c].date, period, true)));
  }

  // ---- documents and payments -------------------------------------------------------------------------

  /** A draft document can be posted with every calculated total and entry whose lines fit. */
  lemma CanPostDocument(states: seq<System>, events: seq<Event>, i: nat, id: Id, d: Id, total: Amount, source: Source, lines: seq<Line>, period: Id)
    requires IsRun(states, events) && i < |states| && id !in states[i].db.entries && DocHas(states[i].db, d, Draft)
    requires Tax.Invoiced(states[i].db.config, states[i].db.docs[d].kind, total, lines) && LinesFit(states[i].db, lines)
    requires TakesPostings(states[i].db, period, states[i].db.docs[d].date)
    ensures var doc := states[i].db.docs[d];
      CanDo(states[i].db, PostDoc(id, d, doc.kind, total, PostingOn(states[i].db, doc.date, source, lines, period)))
  {
    hide IsRun, LedgerOk, LinesFit, TakesPostings, PreparesPosting, MayPost, Tax.Invoiced;
    var db, doc := states[i].db, states[i].db.docs[d];
    var p := PostingOn(db, doc.date, source, lines, period);
    RunOk(states, events, i);
    FitsPrepare(db, p);
    FitsMayPost(db, id, p);
    CalculatedIsPositive(db.config, doc.kind, total, lines);
    EnabledGoes(db, PostDoc(id, d, doc.kind, total, p));
  }

  lemma CalculatedIsPositive(c: Config, kind: Kind, total: Amount, lines: seq<Line>)
    requires Tax.Invoiced(c, kind, total, lines)
    ensures 0 < total
  {
    var items: seq<Tax.TaxLine>, codes: map<Id, Tax.TaxCode> :| Tax.CalculatedAs(c, kind, items, codes, total, lines);
    Tax.LinesExplained(Tax.NatureOf(kind), ControlAccount(c, kind), items, Tax.Taxes(Tax.NatureOf(kind), items, codes));
  }

  /** A posted document on which nothing is paid can be voided on its entry's date. */
  lemma CanVoidDocument(states: seq<System>, events: seq<Event>, i: nat, id: Id, d: Id, e: Id, period: Id)
    requires IsRun(states, events) && i < |states| && id !in states[i].db.entries
    requires DocHas(states[i].db, d, Posted) && states[i].db.docs[d].paid == 0 && states[i].db.docs[d].entry == Some(e)
    requires e in states[i].db.entries && states[i].db.entries[e].status == Posted
    requires TakesPostings(states[i].db, period, states[i].db.entries[e].date)
    ensures CanDo(states[i].db, Op.VoidDocument(id, d, ReversalOn(states[i].db, e, states[i].db.entries[e].date, period, false)))
  {
    hide IsRun, LedgerOk;
    RunOk(states, events, i);
    EnabledGoes(states[i].db, Op.VoidDocument(id, d, ReversalOn(states[i].db, e, states[i].db.entries[e].date, period, false)));
  }

  lemma {:induction false} SomethingAllocated(allocs: seq<Alloc>)
    requires AllocsPassCheck(allocs)
    ensures 0 <= AllocTotal(allocs) && (allocs != [] ==> 0 < AllocTotal(allocs))
  {
    if allocs != [] { SomethingAllocated(allocs[1..]); }
  }

  // The two lines of a payment of a positive amount.
  lemma PaymentFits(db: Db, p: Pay)
    requires 0 < p.amount <= Money.LIMIT && AccountUsable(db, p.cash) && AccountUsable(db, ControlAccount(db.config, p.kind))
    ensures LinesFit(db, PaymentLines(db.config, p))
  {
    var lines := PaymentLines(db.config, p);
    PairTotals(lines[0], lines[1]);
    assert lines == [lines[0], lines[1]];
  }

  lemma PairTotals(a: Line, b: Line)
    ensures Debits([a, b], EVERY) == a.debit + b.debit && Credits([a, b], EVERY) == a.credit + b.credit
  {
    assert [a, b][..1] == [a] && [a][..0] == [];
    assert Debits([a], EVERY) == a.debit && Credits([a], EVERY) == a.credit;
  }

  /** A draft payment can be posted while every document it allocates to is posted, of its kind and
      partner, and has enough outstanding for all it is allocated. */
  lemma CanPostPayment(states: seq<System>, events: seq<Event>, i: nat, id: Id, pay: Id, source: Source, period: Id)
    requires IsRun(states, events) && i < |states| && id !in states[i].db.entries && PayHas(states[i].db, pay, Draft)
    requires var p := states[i].db.pays[pay];
      && MaySettle(states[i].db, p) && p.amount <= Money.LIMIT && TakesPostings(states[i].db, period, p.date)
      && AccountUsable(states[i].db, p.cash) && AccountUsable(states[i].db, ControlAccount(states[i].db.config, p.kind))
    ensures var p := states[i].db.pays[pay];
      CanDo(states[i].db, PostPay(id, pay, p, PostingOn(states[i].db, p.date, source, PaymentLines(states[i].db.config, p), period)))
  {
    hide IsRun, JournalOk, ReversalsOk, YearsOk, NumbersOk, DocumentsOk, LinesFit, TakesPostings, PreparesPosting, MayPost, MaySettle, PaymentLines, AccountUsable;
    var db, row := states[i].db, states[i].db.pays[pay];
    var p := PostingOn(db, row.date, source, PaymentLines(db.config, row), period);
    RunOk(states, events, i);
    PaymentIsPositive(db, pay);
    PaymentFits(db, row);
    FitsPrepare(db, p);
    FitsMayPost(db, id, p);
    EnabledGoes(db, PostPay(id, pay, row, p));
  }

  lemma PaymentIsPositive(db: Db, pay: Id)
    requires DocumentsOk(db) && pay in db.pays
    ensures AllocsPassCheck(db.pays[pay].allocs) && 0 < db.pays[pay].amount
  {
    assert PayOk(db, db.pays[pay]);
    SomethingAllocated(db.pays[pay].allocs);
  }

  /** Every posted payment whose entry still stands can be voided on its entry's date: what it paid
      is always there to take back. */
  lemma CanVoidPayment(states: seq<System>, events: seq<Event>, i: nat, id: Id, pay: Id, e: Id, period: Id)
    requires IsRun(states, events) && i < |states| && id !in states[i].db.entries
    requires PayHas(states[i].db, pay, Posted) && states[i].db.pays[pay].entry == Some(e)
    requires e in states[i].db.entries && states[i].db.entries[e].status == Posted
    requires TakesPostings(states[i].db, period, states[i].db.entries[e].date)
    ensures CanDo(states[i].db,
      Op.VoidPayment(id, pay, states[i].db.pays[pay], ReversalOn(states[i].db, e, states[i].db.entries[e].date, period, false)))
  {
    hide IsRun, JournalOk, ReversalsOk, YearsOk, NumbersOk, DocumentsOk, MayUnwind, UnwindAll, SubledgerOk;
    var db := states[i].db;
    RunOk(states, events, i);
    SubledgerHolds(states, events, i);
    UnwindNeverRefused(db, pay);
    PaymentIsPositive(db, pay);
    UnwindsIff(db, db.pays[pay]);
    EnabledGoes(db, Op.VoidPayment(id, pay, db.pays[pay], ReversalOn(db, e, db.entries[e].date, period, false)));
  }
}
