/** Database transactions at the granularity of their statements.

Every statement of a write transaction works on one row: it takes that row's lock (or, for
a fiscal year, the advisory lock guarding the year's closing row), reads the row, checks a
guard and may write the row.  A transaction is a list of statements; `Run` is what it does
when nothing runs beside it. */
module Statements {
  import opened Options
  import opened Ledger

  /** What a statement does to its row: abort the transaction, leave the row, or write it. */
  datatype RowResult<T> = Reject | Keep | Put(row: T)

  /** Numbers a transaction has drawn from the sequences so far. */
  datatype Env = Env(docNo: nat, entryNo: nat)

  const START: Env := Env(0, 0)

  function Lookup<K, V>(m: map<K, V>, k: K): Option<V> { if k in m then Some(m[k]) else None }

  // ---- fiscal years: year_end_closings, guarded by the advisory lock ------------

  datatype YearAct = ShareOpenYear | LockOpenYear | LockClosedYear | SetYear(year: YearEnd) | ReopenYear

  function YearStep(act: YearAct, row: Option<YearEnd>): RowResult<YearEnd> {
    var closed := row.Some? && row.value.closed;
    match act
    case ShareOpenYear => if closed then Reject else Keep
    case LockOpenYear => if closed then Reject else Keep
    case LockClosedYear => if closed then Keep else Reject
    case SetYear(y) => Put(y)
    case ReopenYear => if row.Some? then Put(row.value.(closed := false)) else Reject
  }

  // ---- accounting periods ---------------------------------------------------------

  datatype PeriodAct = ShareOpenPeriod | ClosePeriod | ReopenPeriod | NewPeriod(period: Period)

  function PeriodStep(act: PeriodAct, row: Option<Period>): RowResult<Period> {
    match act
    case ShareOpenPeriod => if row.Some? && row.value.open then Keep else Reject
    case ClosePeriod => if row.Some? && row.value.open then Put(row.value.(open := false)) else Reject
    case ReopenPeriod => if row.Some? then Put(row.value.(open := true)) else Reject
    case NewPeriod(p) => if row.None? then Put(p) else Reject
  }

  // ---- journal entries --------------------------------------------------------------

  datatype EntryAct =
    | InsertPosted(content: Entry, fiscalYear: int, period: Id)
    | MarkReversed
    | NewDraft(content: Entry)
    | LockDraft
    | StampDraft(fiscalYear: int, period: Id)
    | DeleteDraft

  predicate LinesPassCheck(lines: seq<Line>) { forall i | 0 <= i < |lines| :: OneSided(lines[i]) }

  function PostedAs(e: Entry, fiscalYear: int, period: Id, number: nat): Entry {
    e.(status := Posted, stamp := Some(Stamp(fiscalYear, period, number)))
  }

  function EntryStep(act: EntryAct, row: Option<Entry>, env: Env): RowResult<Entry> {
    var draft := row.Some? && row.value.status.Draft? && !row.value.deleted;
    match act
    case InsertPosted(e, y, p) =>
      if row.None? && LinesPassCheck(e.lines) then Put(PostedAs(e, y, p, env.entryNo)) else Reject
    case MarkReversed => if row.Some? then Put(row.value.(status := Reversed)) else Reject
    case NewDraft(e) => if row.None? && LinesPassCheck(e.lines) then Put(e) else Reject
    case LockDraft => if draft then Keep else Reject
    case StampDraft(y, p) => if draft then Put(PostedAs(row.value, y, p, env.entryNo)) else Reject
    case DeleteDraft => if draft then Put(row.value.(deleted := true)) else Reject
  }

  // ---- invoices and bills -------------------------------------------------------------

  datatype DocAct =
    | NewDoc(document: Doc)
    | EditDoc(date: Day, due: Option<Day>, total: Amount)
    | DeleteDoc
    | LockDraftDoc
    | FinalizeDoc(fiscalYear: int, total: Amount, entry: Id)
    | VoidDoc
    | Settle(kind: Kind, partner: Id, amount: Amount)
    | Unwind(kind: Kind, amount: Amount)

  /** exceedsOutstanding: would settling `amount` drive the document past its total? */
  predicate ExceedsOutstanding(total: Amount, paid: Amount, amount: Amount) { total - paid - amount < 0 }

  function DocStep(act: DocAct, row: Option<Doc>, env: Env): RowResult<Doc> {
    var live := row.Some? && !row.value.deleted;
    match act
    case NewDoc(d) => if row.None? then Put(d) else Reject
    case EditDoc(date, due, total) =>
      if live && row.value.status.Draft? then Put(row.value.(date := date, due := due, total := total)) else Reject
    case DeleteDoc => if live && row.value.status.Draft? then Put(row.value.(deleted := true)) else Reject
    case LockDraftDoc => if live && row.value.status.Draft? then Keep else Reject
    case FinalizeDoc(y, total, entry) =>
      if row.Some?
      then Put(row.value.(status := Posted, total := total, number := Some((y, env.docNo)), entry := Some(entry)))
      else Reject
    case VoidDoc =>
      if live && row.value.status.Posted? && row.value.paid == 0 then Put(row.value.(status := Void)) else Reject
    case Settle(kind, partner, amount) =>
      if live && row.value.status.Posted? && row.value.kind == kind && row.value.partner == partner
         && !ExceedsOutstanding(row.value.total, row.value.paid, amount)
      then Put(row.value.(paid := row.value.paid + amount)) else Reject
    case Unwind(kind, amount) =>
      if live && row.value.kind == kind && !(row.value.paid - amount < 0)
      then Put(row.value.(paid := row.value.paid - amount)) else Reject
  }

  // ---- payments -----------------------------------------------------------------------

  datatype PayAct =
    | NewPay(payment: Pay)
    | DeletePay
    | LockDraftPay
    | FinalizePay(fiscalYear: int, entry: Id)
    | LockPostedPay
    | VoidPay

  predicate AllocsPassCheck(allocs: seq<Alloc>) { forall i | 0 <= i < |allocs| :: 0 < allocs[i].amount }

  function PayStep(act: PayAct, row: Option<Pay>, env: Env): RowResult<Pay> {
    var live := row.Some? && !row.value.deleted;
    match act
    case NewPay(p) => if row.None? && AllocsPassCheck(p.allocs) then Put(p) else Reject
    case DeletePay => if live && row.value.status.Draft? then Put(row.value.(deleted := true)) else Reject
    case LockDraftPay => if live && row.value.status.Draft? then Keep else Reject
    case FinalizePay(y, entry) =>
      if row.Some?
      then Put(row.value.(status := Posted, number := Some((y, env.docNo)), entry := Some(entry))) else Reject
    case LockPostedPay => if live && row.value.status.Posted? then Keep else Reject
    case VoidPay => if row.Some? then Put(row.value.(status := Void)) else Reject
  }

  // ---- statements -----------------------------------------------------------------------

  datatype Stmt =
    | OnYear(fiscalYear: int, yearAct: YearAct)
    | OnPeriod(period: Id, periodAct: PeriodAct)
    | EntryNo(fiscalYear: int)                   // nextSequenceNumber on journal_sequences
    | DocNo(series: Series, fiscalYear: int)     // nextSequenceNumber on document_sequences
    | OnEntry(entry: Id, entryAct: EntryAct)
    | ClaimReversal(original: Id, claimant: Id)  // the unique index on reversal_of_id
    | OnDoc(doc: Id, docAct: DocAct)
    | OnPay(pay: Id, payAct: PayAct)

  datatype Key =
    | YearKey(fiscalYear: int) | PeriodKey(period: Id)
    | EntryNoKey(fiscalYear: int) | DocNoKey(series: Series, fiscalYear: int)
    | EntryKey(entry: Id) | ReversalKey(original: Id)
    | DocKey(doc: Id) | PayKey(pay: Id)

  datatype Write =
    | WriteYear(fiscalYear: int, year: YearEnd) | WritePeriod(period: Id, bounds: Period)
    | WriteEntryNo(fiscalYear: int, next: nat) | WriteDocNo(series: Series, fiscalYear: int, next: nat)
    | WriteEntry(entry: Id, content: Entry) | WriteClaim(original: Id, claimant: Id)
    | WriteDoc(doc: Id, document: Doc) | WritePay(pay: Id, payment: Pay)

  datatype Mode = Shared | Exclusive

  function KeyOf(s: Stmt): Key {
    match s
    case OnYear(y, _) => YearKey(y)
    case OnPeriod(p, _) => PeriodKey(p)
    case EntryNo(y) => EntryNoKey(y)
    case DocNo(t, y) => DocNoKey(t, y)
    case OnEntry(i, _) => EntryKey(i)
    case ClaimReversal(o, _) => ReversalKey(o)
    case OnDoc(d, _) => DocKey(d)
    case OnPay(p, _) => PayKey(p)
  }

  function ModeOf(s: Stmt): Mode {
    if (s.OnYear? && s.yearAct.ShareOpenYear?) || (s.OnPeriod? && s.periodAct.ShareOpenPeriod?) then Shared else Exclusive
  }

  /** What a statement wants to do, judged from its own row. */
  function Act(s: Stmt, db: Db, env: Env): RowResult<Write> {
    match s
    case OnYear(y, a) =>
      (match YearStep(a, Lookup(db.years, y)) case Reject => Reject case Keep => Keep case Put(r) => Put(WriteYear(y, r)))
    case OnPeriod(p, a) =>
      (match PeriodStep(a, Lookup(db.periods, p)) case Reject => Reject case Keep => Keep case Put(r) => Put(WritePeriod(p, r)))
    case EntryNo(y) => Put(WriteEntryNo(y, Next(db.journalSeq, y) + 1))
    case DocNo(t, y) => Put(WriteDocNo(t, y, Next(db.docSeq, (t, y)) + 1))
    case OnEntry(i, a) =>
      (match EntryStep(a, Lookup(db.entries, i), env) case Reject => Reject case Keep => Keep case Put(r) => Put(WriteEntry(i, r)))
    case ClaimReversal(o, c) => if o in db.reversals then Reject else Put(WriteClaim(o, c))
    case OnDoc(d, a) =>
      (match DocStep(a, Lookup(db.docs, d), env) case Reject => Reject case Keep => Keep case Put(r) => Put(WriteDoc(d, r)))
    case OnPay(p, a) =>
      (match PayStep(a, Lookup(db.pays, p), env) case Reject => Reject case Keep => Keep case Put(r) => Put(WritePay(p, r)))
  }

  function EnvAfter(s: Stmt, db: Db, env: Env): Env {
    match s
    case EntryNo(y) => env.(entryNo := Next(db.journalSeq, y))
    case DocNo(t, y) => env.(docNo := Next(db.docSeq, (t, y)))
    case _ => env
  }

  function Apply(db: Db, w: Write): Db {
    match w
    case WriteYear(y, r) => db.(years := db.years[y := r])
    case WritePeriod(p, r) => db.(periods := db.periods[p := r])
    case WriteEntryNo(y, n) => db.(journalSeq := db.journalSeq[y := n])
    case WriteDocNo(t, y, n) => db.(docSeq := db.docSeq[(t, y) := n])
    case WriteEntry(i, r) => db.(entries := db.entries[i := r])
    case WriteClaim(o, c) => db.(reversals := db.reversals[o := c])
    case WriteDoc(d, r) => db.(docs := db.docs[d := r])
    case WritePay(p, r) => db.(pays := db.pays[p := r])
  }

  function Step(s: Stmt, db: Db, env: Env): Option<Db> {
    match Act(s, db, env)
    case Reject => None
    case Keep => Some(db)
    case Put(w) => Some(Apply(db, w))
  }

  // ---- transactions -----------------------------------------------------------------------

  datatype Prog = Done | Then(stmt: Stmt, rest: Prog)

  /** The database after running a transaction alone; None if some guard fails. */
  function Run(p: Prog, db: Db, env: Env): Option<Db> {
    match p
    case Done => Some(db)
    case Then(s, rest) =>
      match Step(s, db, env)
      case None => None
      case Some(d) => Run(rest, d, EnvAfter(s, db, env))
  }
}
