/** Phase one of every write: the checks a service makes before it opens its transaction,
and what remains true of their outcome however stale it is when the transaction runs. */
module Preparation {
  import opened Options
  import opened Ledger
  import opened Statements
  import opened Operations
  import AssertBalanced
  import Calendar
  import Tax

  predicate PeriodCovers(db: Db, period: Id, date: Day) {
    period in db.periods && db.periods[period].start <= date <= db.periods[period].end
  }

  predicate Live(db: Db, account: Id) { account in db.accounts && !db.accounts[account].deleted }

  /** All lines are on live accounts that take postings, not on headers. */
  predicate LinesLive(db: Db, lines: seq<Line>) {
    forall i | 0 <= i < |lines| :: Live(db, lines[i].account) && db.accounts[lines[i].account].postable
  }

  /** The last day of a fiscal year, on which its closing entry is dated. */
  function YearLast(c: Config, y: int): Day { Calendar.FiscalYearEnd(y, c.startMonth) }

  // ---- the checks -------------------------------------------------------------------

  /** resolvePostableAccounts */
  predicate Postable(db: Db, lines: seq<Line>) {
    forall i | 0 <= i < |lines| ::
      Live(db, lines[i].account) && db.accounts[lines[i].account].postable && db.accounts[lines[i].account].active
  }

  /** findOpenPeriodForDate and the fiscal-year lookup. */
  predicate DateResolves(db: Db, date: Day, fiscalYear: int, period: Id) {
    PeriodCovers(db, period, date) && db.periods[period].open && fiscalYear == FiscalYear(db, date)
  }

  /** preparePosting (postDraft makes the same checks); totals at most 10^16 rupiah. */
  ghost predicate PreparesPosting(db: Db, p: Posting) {
    && AssertBalanced.Accepts(p.lines) && AssertBalanced.InRange(p.lines)
    && DateResolves(db, p.date, p.fiscalYear, p.period)
    && !YearClosed(db, p.fiscalYear)
    && Postable(db, p.lines)
  }

  /** prepareReversal */
  ghost predicate PreparesReversal(db: Db, r: Reversing) {
    && r.original in db.entries && db.entries[r.original].status.Posted?
    && r.lines == db.entries[r.original].lines
    && DateResolves(db, r.date, r.fiscalYear, r.period)
    && (r.allowClosedYear || !YearClosed(db, r.fiscalYear))
  }

  /** buildPaymentLines */
  function PaymentLines(config: Config, p: Pay): seq<Line> {
    var control := ControlAccount(config, p.kind);
    if p.kind.Receivable?
    then [Line(p.cash, p.amount, 0), Line(control, 0, p.amount)]
    else [Line(control, p.amount, 0), Line(p.cash, 0, p.amount)]
  }

  function AllocTotal(allocs: seq<Alloc>): Amount {
    if allocs == [] then 0 else allocs[0].amount + AllocTotal(allocs[1..])
  }

  /** What each service checks on plain reads before its transaction. */
  ghost predicate Prepares(db: Db, op: Op) {
    match op
    case PostEntry(_, p) => PreparesPosting(db, p)
    case CreateDraft(_, _) => true
    case PostDraft(e, p) =>
      && DraftIs(db, e) && p.lines == db.entries[e].lines && p.date == db.entries[e].date && PreparesPosting(db, p)
    case RemoveDraft(_) => true
    case ReverseEntry(_, r) => PreparesReversal(db, r) && !r.allowClosedYear
    case CreateDoc(_, d) => 0 < d.total
    case UpdateDoc(d, _, _, total) => DocIs(db, d, Draft) && 0 < total
    case RemoveDoc(_) => true
    case PostDoc(_, d, kind, total, p) =>
      && DocIs(db, d, Draft) && db.docs[d].kind == kind && p.date == db.docs[d].date
      && Tax.Invoiced(db.config, kind, total, p.lines) && 0 < total && PreparesPosting(db, p)
    case VoidDocument(_, d, r) =>
      && DocIs(db, d, Posted) && db.docs[d].paid == 0 && db.docs[d].entry == Some(r.original)
      && PreparesReversal(db, r) && !r.allowClosedYear && r.date == db.entries[r.original].date
    case CreatePay(_, p) => p.allocs != [] && AllocsPassCheck(p.allocs) && p.amount == AllocTotal(p.allocs)
    case RemovePay(_) => true
    case PostPay(_, pay, row, p) =>
      && PayIs(db, pay, Draft) && row == db.pays[pay]
      && p.lines == PaymentLines(db.config, row) && p.date == row.date && PreparesPosting(db, p)
    case VoidPayment(_, pay, row, r) =>
      && PayIs(db, pay, Posted) && row == db.pays[pay] && row.entry == Some(r.original)
      && PreparesReversal(db, r) && !r.allowClosedYear && r.date == db.entries[r.original].date
    case CloseYear(_, y, _, p) =>
      && !YearClosed(db, y) && p.fiscalYear == y && p.date == YearLast(db.config, y) && p.source.Closing?
      && PreparesPosting(db, p)
    case ReopenClosedYear(_, y, r) =>
      && YearClosed(db, y) && db.years[y].entry == Some(r.original)
      && PreparesReversal(db, r) && r.allowClosedYear && r.date == db.entries[r.original].date
    case CloseAccountingPeriod(_) => true
    case ReopenAccountingPeriod(p) => p in db.periods && !db.periods[p].open
    case AddPeriod(_, b) => b.start <= b.end
  }

  // ---- what stays true of a prepared operation ------------------------------------------

  ghost predicate StillGoodPosting(db: Db, p: Posting) {
    && (LinesPassCheck(p.lines) ==> Balanced(p.lines))
    && PeriodCovers(db, p.period, p.date) && p.fiscalYear == FiscalYear(db, p.date)
    && LinesLive(db, p.lines)
  }

  ghost predicate StillGoodReversal(db: Db, r: Reversing) {
    && r.original in db.entries && db.entries[r.original].stamp.Some? && r.lines == db.entries[r.original].lines
    && PeriodCovers(db, r.period, r.date) && r.fiscalYear == FiscalYear(db, r.date)
  }

  predicate SamePayment(p: Pay, q: Pay) {
    p.kind == q.kind && p.partner == q.partner && p.date == q.date && p.cash == q.cash && p.amount == q.amount && p.allocs == q.allocs
  }

  /** The part of an operation's preparation that no later step can undo. */
  ghost predicate StillGood(db: Db, op: Op) {
    match op
    case PostEntry(_, p) => StillGoodPosting(db, p)
    case PostDraft(e, p) =>
      && StillGoodPosting(db, p)
      && e in db.entries && p.lines == db.entries[e].lines && p.date == db.entries[e].date
    case ReverseEntry(_, r) => StillGoodReversal(db, r) && !r.allowClosedYear
    case CreateDoc(_, d) => 0 < d.total
    case UpdateDoc(_, _, _, total) => 0 < total
    case PostDoc(_, d, kind, total, p) =>
      && StillGoodPosting(db, p) && d in db.docs && db.docs[d].kind == kind
      && Tax.Invoiced(db.config, kind, total, p.lines) && 0 < total
    case VoidDocument(_, d, r) =>
      && StillGoodReversal(db, r) && !r.allowClosedYear && r.date == db.entries[r.original].date
      && d in db.docs && db.docs[d].entry == Some(r.original)
    case CreatePay(_, p) => p.allocs != [] && AllocsPassCheck(p.allocs) && p.amount == AllocTotal(p.allocs)
    case PostPay(_, pay, row, p) =>
      && StillGoodPosting(db, p) && pay in db.pays && SamePayment(row, db.pays[pay])
      && p.lines == PaymentLines(db.config, row) && p.date == row.date
    case VoidPayment(_, pay, row, r) =>
      && StillGoodReversal(db, r) && !r.allowClosedYear && r.date == db.entries[r.original].date
      && pay in db.pays && SamePayment(row, db.pays[pay]) && db.pays[pay].entry == Some(r.original)
    case CloseYear(_, y, _, p) =>
      StillGoodPosting(db, p) && p.fiscalYear == y && p.date == YearLast(db.config, y) && p.source.Closing?
    case ReopenClosedYear(_, y, r) =>
      StillGoodReversal(db, r) && r.allowClosedYear && r.fiscalYear == y && r.date == db.entries[r.original].date
    case AddPeriod(_, b) => b.start <= b.end
    case _ => true
  }

  predicate PeriodsGrow(a: map<Id, Period>, b: map<Id, Period>) {
    forall p | p in a :: p in b && b[p].start == a[p].start && b[p].end == a[p].end
  }

  predicate EntryGrows(a: Entry, b: Entry) {
    && b.lines == a.lines && b.date == a.date && b.source == a.source
    && (a.stamp.Some? ==> b.stamp == a.stamp)
  }

  predicate EntriesGrow(a: map<Id, Entry>, b: map<Id, Entry>) {
    forall i | i in a :: i in b && EntryGrows(a[i], b[i])
  }

  predicate DocsGrow(a: map<Id, Doc>, b: map<Id, Doc>) {
    forall d | d in a :: d in b && b[d].kind == a[d].kind && (a[d].entry.Some? ==> b[d].entry == a[d].entry)
  }

  predicate PaysGrow(a: map<Id, Pay>, b: map<Id, Pay>) {
    forall p | p in a :: p in b && SamePayment(a[p], b[p]) && (a[p].entry.Some? ==> b[p].entry == a[p].entry)
  }

  /** What committed steps never take back: bounds of periods, lines and dates of entries,
      stamps once given, the fixed columns of documents and payments, live accounts and whether
      they take postings. */
  ghost predicate Grows(a: Db, b: Db) {
    && b.config == a.config
    && (forall k | k in a.accounts && Live(a, k) :: Live(b, k) && b.accounts[k].postable == a.accounts[k].postable)
    && PeriodsGrow(a.periods, b.periods) && EntriesGrow(a.entries, b.entries)
    && DocsGrow(a.docs, b.docs) && PaysGrow(a.pays, b.pays)
  }

  /** A prepared operation stays good through everything that commits before it runs. */
  lemma StaleIsStillGood(a: Db, b: Db, op: Op)
    requires StillGood(a, op) && Grows(a, b)
    ensures StillGood(b, op)
  {
    hide StillGoodPosting, StillGoodReversal, Tax.Invoiced, LinesPassCheck;
    match JournalingOf(op) {
      case Posts(_, p) => StalePosting(a, b, p);
      case Reverses(_, r) => StaleReversal(a, b, r);
      case Drafts => if op.PostDraft? { StalePosting(a, b, op.posting); }
      case Untouched =>
    }
  }

  lemma StalePosting(a: Db, b: Db, p: Posting)
    requires StillGoodPosting(a, p) && Grows(a, b)
    ensures StillGoodPosting(b, p)
  {
    hide Balanced, FiscalYear;
    assert FiscalYear(a, p.date) == FiscalYear(b, p.date) by { SameYear(a, b, p.date); }
  }

  lemma StaleReversal(a: Db, b: Db, r: Reversing)
    requires StillGoodReversal(a, r) && Grows(a, b)
    ensures StillGoodReversal(b, r) && b.entries[r.original].date == a.entries[r.original].date
  {
    hide FiscalYear;
    assert FiscalYear(a, r.date) == FiscalYear(b, r.date) by { SameYear(a, b, r.date); }
  }

  lemma SameYear(a: Db, b: Db, date: Day)
    requires a.config == b.config
    ensures FiscalYear(a, date) == FiscalYear(b, date)
  {
  }
}
