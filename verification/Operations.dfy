/** The write operations of the services: what they check before their transaction, the
statements they then run, and the atomic effect those statements amount to. */
module Operations {
  import opened Options
  import opened Ledger
  import opened Statements

  /** PreparedPosting: phase-one result of a post. */
  datatype Posting = Posting(date: Day, source: Source, lines: seq<Line>, fiscalYear: int, period: Id)

  /** PreparedReversal: phase-one result of a reversal, with the lines it read. */
  datatype Reversing = Reversing(
    original: Id, lines: seq<Line>, date: Day, fiscalYear: int, period: Id, allowClosedYear: bool)

  /** `id` is the UUID drawn for the row an operation inserts. */
  datatype Op =
    | PostEntry(id: Id, posting: Posting)
    | CreateDraft(id: Id, draft: Entry)
    | PostDraft(entry: Id, posting: Posting)
    | RemoveDraft(entry: Id)
    | ReverseEntry(id: Id, reversal: Reversing)
    | CreateDoc(id: Id, document: Doc)
    | UpdateDoc(doc: Id, date: Day, due: Option<Day>, total: Amount)
    | RemoveDoc(doc: Id)
    | PostDoc(id: Id, doc: Id, kind: Kind, total: Amount, posting: Posting)
    | VoidDocument(id: Id, doc: Id, reversal: Reversing)
    | CreatePay(id: Id, payment: Pay)
    | RemovePay(pay: Id)
    | PostPay(id: Id, pay: Id, payment: Pay, posting: Posting)
    | VoidPayment(id: Id, pay: Id, payment: Pay, reversal: Reversing)
    | CloseYear(id: Id, fiscalYear: int, netIncome: Amount, posting: Posting)
    | ReopenClosedYear(id: Id, fiscalYear: int, reversal: Reversing)
    | CloseAccountingPeriod(period: Id)
    | ReopenAccountingPeriod(period: Id)
    | AddPeriod(period: Id, bounds: Period)

  // ---- the statements of each transaction -------------------------------------

  function SeriesOfDoc(kind: Kind): Series { if kind.Receivable? then Invoices else Bills }

  function SeriesOfPay(kind: Kind): Series { if kind.Receivable? then Receipts else Disbursements }

  /** stampPostedInTx */
  function StampProg(fiscalYear: int, period: Id, allowClosedYear: bool, rest: Prog): Prog {
    var tail := Then(OnPeriod(period, ShareOpenPeriod), Then(EntryNo(fiscalYear), rest));
    if allowClosedYear then tail else Then(OnYear(fiscalYear, ShareOpenYear), tail)
  }

  function PostedContent(p: Posting): Entry { Entry(p.date, p.source, p.lines, Posted, None, None, false) }

  function ReversalContent(r: Reversing): Entry {
    Entry(r.date, Reversal, Swapped(r.lines), Posted, None, Some(r.original), false)
  }

  function DraftContent(e: Entry): Entry { Entry(e.date, Manual, e.lines, Draft, None, None, false) }

  function NewDocContent(d: Doc): Doc {
    d.(paid := 0, status := Draft, number := None, entry := None, deleted := false)
  }

  function NewPayContent(p: Pay): Pay { p.(status := Draft, number := None, entry := None, deleted := false) }

  /** createPostedEntryInTx */
  function CreatePostedProg(id: Id, p: Posting, rest: Prog): Prog {
    StampProg(p.fiscalYear, p.period, false, Then(OnEntry(id, InsertPosted(PostedContent(p), p.fiscalYear, p.period)), rest))
  }

  /** reverseInTx */
  function ReverseProg(id: Id, r: Reversing, rest: Prog): Prog {
    StampProg(r.fiscalYear, r.period, r.allowClosedYear,
      Then(OnEntry(id, InsertPosted(ReversalContent(r), r.fiscalYear, r.period)),
      Then(ClaimReversal(r.original, id),
      Then(OnEntry(r.original, MarkReversed), rest))))
  }

  function SettleProg(kind: Kind, partner: Id, allocs: seq<Alloc>, rest: Prog): Prog {
    if allocs == [] then rest else Then(OnDoc(allocs[0].doc, Settle(kind, partner, allocs[0].amount)), SettleProg(kind, partner, allocs[1..], rest))
  }

  function UnwindProg(kind: Kind, allocs: seq<Alloc>, rest: Prog): Prog {
    if allocs == [] then rest else Then(OnDoc(allocs[0].doc, Unwind(kind, allocs[0].amount)), UnwindProg(kind, allocs[1..], rest))
  }

  function Program(op: Op): Prog {
    match op
    case PostEntry(id, p) => CreatePostedProg(id, p, Done)
    case CreateDraft(id, e) => Then(OnEntry(id, NewDraft(DraftContent(e))), Done)
    case PostDraft(id, p) =>
      Then(OnEntry(id, LockDraft), StampProg(p.fiscalYear, p.period, false,
        Then(OnEntry(id, StampDraft(p.fiscalYear, p.period)), Done)))
    case RemoveDraft(id) => Then(OnEntry(id, DeleteDraft), Done)
    case ReverseEntry(id, r) => ReverseProg(id, r, Done)
    case CreateDoc(id, d) => Then(OnDoc(id, NewDoc(NewDocContent(d))), Done)
    case UpdateDoc(d, date, due, total) => Then(OnDoc(d, EditDoc(date, due, total)), Done)
    case RemoveDoc(d) => Then(OnDoc(d, DeleteDoc), Done)
    case PostDoc(id, d, kind, total, p) =>
      Then(OnDoc(d, LockDraftDoc), Then(DocNo(SeriesOfDoc(kind), p.fiscalYear),
        CreatePostedProg(id, p, Then(OnDoc(d, FinalizeDoc(p.fiscalYear, total, id)), Done))))
    case VoidDocument(id, d, r) => Then(OnDoc(d, VoidDoc), ReverseProg(id, r, Done))
    case CreatePay(id, p) => Then(OnPay(id, NewPay(NewPayContent(p))), Done)
    case RemovePay(p) => Then(OnPay(p, DeletePay), Done)
    case PostPay(id, pay, row, p) =>
      Then(OnPay(pay, LockDraftPay), SettleProg(row.kind, row.partner, row.allocs,
        Then(DocNo(SeriesOfPay(row.kind), p.fiscalYear),
        CreatePostedProg(id, p, Then(OnPay(pay, FinalizePay(p.fiscalYear, id)), Done)))))
    case VoidPayment(id, pay, row, r) =>
      Then(OnPay(pay, LockPostedPay), UnwindProg(row.kind, row.allocs, Then(OnPay(pay, VoidPay), ReverseProg(id, r, Done))))
    case CloseYear(id, y, income, p) =>
      Then(OnYear(y, LockOpenYear), CreatePostedProg(id, p, Then(OnYear(y, SetYear(YearEnd(true, Some(id), income))), Done)))
    case ReopenClosedYear(id, y, r) =>
      Then(OnYear(y, LockClosedYear), ReverseProg(id, r, Then(OnYear(y, ReopenYear), Done)))
    case CloseAccountingPeriod(p) => Then(OnPeriod(p, ClosePeriod), Done)
    case ReopenAccountingPeriod(p) => Then(OnPeriod(p, ReopenPeriod), Done)
    case AddPeriod(p, b) => Then(OnPeriod(p, NewPeriod(b)), Done)
  }

  // ---- the atomic effect --------------------------------------------------------

  predicate PostableIn(db: Db, fiscalYear: int, period: Id, allowClosedYear: bool) {
    && (allowClosedYear || !YearClosed(db, fiscalYear))
    && period in db.periods && db.periods[period].open
  }

  /** The database with one more posted entry, under the next number of its fiscal year. */
  function Journaled(db: Db, id: Id, content: Entry, fiscalYear: int, period: Id): Db {
    var n := Next(db.journalSeq, fiscalYear);
    db.(entries := db.entries[id := PostedAs(content, fiscalYear, period, n)],
        journalSeq := db.journalSeq[fiscalYear := n + 1])
  }

  function PostEffect(db: Db, id: Id, p: Posting): Option<Db> {
    if PostableIn(db, p.fiscalYear, p.period, false) && id !in db.entries && LinesPassCheck(p.lines)
    then Some(Journaled(db, id, PostedContent(p), p.fiscalYear, p.period)) else None
  }

  function ReverseEffect(db: Db, id: Id, r: Reversing): Option<Db> {
    if PostableIn(db, r.fiscalYear, r.period, r.allowClosedYear) && id !in db.entries && LinesPassCheck(Swapped(r.lines))
       && r.original !in db.reversals && (r.original in db.entries || r.original == id)
    then
      var d := Journaled(db, id, ReversalContent(r), r.fiscalYear, r.period);
      Some(d.(entries := d.entries[r.original := d.entries[r.original].(status := Reversed)],
              reversals := d.reversals[r.original := id]))
    else None
  }

  /** The settlement loop of a payment post. */
  function SettleAll(docs: map<Id, Doc>, kind: Kind, partner: Id, allocs: seq<Alloc>): Option<map<Id, Doc>> {
    if allocs == [] then Some(docs) else
      var a := allocs[0];
      if a.doc in docs && !docs[a.doc].deleted && docs[a.doc].status.Posted? && docs[a.doc].kind == kind
         && docs[a.doc].partner == partner && !ExceedsOutstanding(docs[a.doc].total, docs[a.doc].paid, a.amount)
      then SettleAll(docs[a.doc := docs[a.doc].(paid := docs[a.doc].paid + a.amount)], kind, partner, allocs[1..])
      else None
  }

  /** The unwinding loop of a payment void. */
  function UnwindAll(docs: map<Id, Doc>, kind: Kind, allocs: seq<Alloc>): Option<map<Id, Doc>> {
    if allocs == [] then Some(docs) else
      var a := allocs[0];
      if a.doc in docs && !docs[a.doc].deleted && docs[a.doc].kind == kind && !(docs[a.doc].paid - a.amount < 0)
      then UnwindAll(docs[a.doc := docs[a.doc].(paid := docs[a.doc].paid - a.amount)], kind, allocs[1..])
      else None
  }

  predicate DocIs(db: Db, d: Id, status: Status) {
    d in db.docs && !db.docs[d].deleted && db.docs[d].status == status
  }

  predicate PayIs(db: Db, p: Id, status: Status) {
    p in db.pays && !db.pays[p].deleted && db.pays[p].status == status
  }

  predicate DraftIs(db: Db, i: Id) {
    i in db.entries && !db.entries[i].deleted && db.entries[i].status.Draft?
  }

  function WithDocNo(db: Db, series: Series, fiscalYear: int): Db {
    db.(docSeq := db.docSeq[(series, fiscalYear) := Next(db.docSeq, (series, fiscalYear)) + 1])
  }

  function PostDocEffect(db: Db, id: Id, d: Id, kind: Kind, total: Amount, p: Posting): Option<Db> {
    if !DocIs(db, d, Draft) then None else
      var n := Next(db.docSeq, (SeriesOfDoc(kind), p.fiscalYear));
      match PostEffect(WithDocNo(db, SeriesOfDoc(kind), p.fiscalYear), id, p)
      case None => None
      case Some(b) =>
        var posted := b.docs[d].(status := Posted, total := total, number := Some((p.fiscalYear, n)), entry := Some(id));
        Some(b.(docs := b.docs[d := posted]))
  }

  function VoidDocEffect(db: Db, id: Id, d: Id, r: Reversing): Option<Db> {
    if DocIs(db, d, Posted) && db.docs[d].paid == 0
    then ReverseEffect(db.(docs := db.docs[d := db.docs[d].(status := Void)]), id, r) else None
  }

  function PostPayEffect(db: Db, id: Id, pay: Id, row: Pay, p: Posting): Option<Db> {
    if !PayIs(db, pay, Draft) then None else
      match SettleAll(db.docs, row.kind, row.partner, row.allocs)
      case None => None
      case Some(docs) =>
        var n := Next(db.docSeq, (SeriesOfPay(row.kind), p.fiscalYear));
        match PostEffect(WithDocNo(db.(docs := docs), SeriesOfPay(row.kind), p.fiscalYear), id, p)
        case None => None
        case Some(b) =>
          var posted := b.pays[pay].(status := Posted, number := Some((p.fiscalYear, n)), entry := Some(id));
          Some(b.(pays := b.pays[pay := posted]))
  }

  function VoidPayEffect(db: Db, id: Id, pay: Id, row: Pay, r: Reversing): Option<Db> {
    if !PayIs(db, pay, Posted) then None else
      match UnwindAll(db.docs, row.kind, row.allocs)
      case None => None
      case Some(docs) =>
        ReverseEffect(db.(docs := docs, pays := db.pays[pay := db.pays[pay].(status := Void)]), id, r)
  }

  function CloseYearEffect(db: Db, id: Id, y: int, income: Amount, p: Posting): Option<Db> {
    if YearClosed(db, y) then None else
      match PostEffect(db, id, p)
      case None => None
      case Some(b) => Some(b.(years := b.years[y := YearEnd(true, Some(id), income)]))
  }

  function ReopenYearEffect(db: Db, id: Id, y: int, r: Reversing): Option<Db> {
    if !YearClosed(db, y) then None else
      match ReverseEffect(db, id, r)
      case None => None
      case Some(b) => Some(b.(years := b.years[y := b.years[y].(closed := false)]))
  }

  /** The whole operation as one atomic step; None when it is rejected. */
  function Effect(op: Op, db: Db): Option<Db> {
    match op
    case PostEntry(id, p) => PostEffect(db, id, p)
    case CreateDraft(id, e) =>
      if id !in db.entries && LinesPassCheck(e.lines)
      then Some(db.(entries := db.entries[id := DraftContent(e)])) else None
    case PostDraft(id, p) =>
      if DraftIs(db, id) && PostableIn(db, p.fiscalYear, p.period, false) then
        var n := Next(db.journalSeq, p.fiscalYear);
        Some(db.(entries := db.entries[id := PostedAs(db.entries[id], p.fiscalYear, p.period, n)],
                 journalSeq := db.journalSeq[p.fiscalYear := n + 1]))
      else None
    case RemoveDraft(id) =>
      if DraftIs(db, id) then Some(db.(entries := db.entries[id := db.entries[id].(deleted := true)])) else None
    case ReverseEntry(id, r) => ReverseEffect(db, id, r)
    case CreateDoc(id, d) =>
      if id !in db.docs
      then Some(db.(docs := db.docs[id := NewDocContent(d)]))
      else None
    case UpdateDoc(d, date, due, total) =>
      if DocIs(db, d, Draft)
      then Some(db.(docs := db.docs[d := db.docs[d].(date := date, due := due, total := total)])) else None
    case RemoveDoc(d) =>
      if DocIs(db, d, Draft) then Some(db.(docs := db.docs[d := db.docs[d].(deleted := true)])) else None
    case PostDoc(id, d, kind, total, p) => PostDocEffect(db, id, d, kind, total, p)
    case VoidDocument(id, d, r) => VoidDocEffect(db, id, d, r)
    case CreatePay(id, p) =>
      if id !in db.pays && AllocsPassCheck(p.allocs)
      then Some(db.(pays := db.pays[id := NewPayContent(p)])) else None
    case RemovePay(p) =>
      if PayIs(db, p, Draft) then Some(db.(pays := db.pays[p := db.pays[p].(deleted := true)])) else None
    case PostPay(id, pay, row, p) => PostPayEffect(db, id, pay, row, p)
    case VoidPayment(id, pay, row, r) => VoidPayEffect(db, id, pay, row, r)
    case CloseYear(id, y, income, p) => CloseYearEffect(db, id, y, income, p)
    case ReopenClosedYear(id, y, r) => ReopenYearEffect(db, id, y, r)
    case CloseAccountingPeriod(p) =>
      if p in db.periods && db.periods[p].open
      then Some(db.(periods := db.periods[p := db.periods[p].(open := false)])) else None
    case ReopenAccountingPeriod(p) =>
      if p in db.periods then Some(db.(periods := db.periods[p := db.periods[p].(open := true)])) else None
    case AddPeriod(p, b) => if p !in db.periods then Some(db.(periods := db.periods[p := b])) else None
  }

  // ---- the statements refine the effect -------------------------------------------

  lemma StampRuns(fiscalYear: int, period: Id, allowClosedYear: bool, rest: Prog, db: Db, env: Env)
    ensures Run(StampProg(fiscalYear, period, allowClosedYear, rest), db, env)
         == if PostableIn(db, fiscalYear, period, allowClosedYear)
            then Run(rest, db.(journalSeq := db.journalSeq[fiscalYear := Next(db.journalSeq, fiscalYear) + 1]),
                     env.(entryNo := Next(db.journalSeq, fiscalYear)))
            else None
  {
    var tail := Then(OnPeriod(period, ShareOpenPeriod), Then(EntryNo(fiscalYear), rest));
    assert Run(tail, db, env) == if PostableIn(db, fiscalYear, period, true)
      then Run(rest, db.(journalSeq := db.journalSeq[fiscalYear := Next(db.journalSeq, fiscalYear) + 1]),
               env.(entryNo := Next(db.journalSeq, fiscalYear)))
      else None;
  }

  lemma PostRuns(id: Id, p: Posting, rest: Prog, db: Db, env: Env)
    ensures Run(CreatePostedProg(id, p, rest), db, env)
         == match PostEffect(db, id, p)
            case None => None
            case Some(b) => Run(rest, b, env.(entryNo := Next(db.journalSeq, p.fiscalYear)))
  {
    hide Run, StampProg;
    var insert := Then(OnEntry(id, InsertPosted(PostedContent(p), p.fiscalYear, p.period)), rest);
    var n := Next(db.journalSeq, p.fiscalYear);
    StampRuns(p.fiscalYear, p.period, false, insert, db, env);
    InsertRuns(id, PostedContent(p), p.fiscalYear, p.period, rest,
               db.(journalSeq := db.journalSeq[p.fiscalYear := n + 1]), env.(entryNo := n));
  }

  lemma ReverseRuns(id: Id, r: Reversing, rest: Prog, db: Db, env: Env)
    ensures Run(ReverseProg(id, r, rest), db, env)
         == match ReverseEffect(db, id, r)
            case None => None
            case Some(b) => Run(rest, b, env.(entryNo := Next(db.journalSeq, r.fiscalYear)))
  {
    hide Run, StampProg;
    var tail := Then(ClaimReversal(r.original, id), Then(OnEntry(r.original, MarkReversed), rest));
    var insert := Then(OnEntry(id, InsertPosted(ReversalContent(r), r.fiscalYear, r.period)), tail);
    var n := Next(db.journalSeq, r.fiscalYear);
    StampRuns(r.fiscalYear, r.period, r.allowClosedYear, insert, db, env);
    InsertRuns(id, ReversalContent(r), r.fiscalYear, r.period, tail,
               db.(journalSeq := db.journalSeq[r.fiscalYear := n + 1]), env.(entryNo := n));
    MarkRuns(r.original, id, rest, Journaled(db, id, ReversalContent(r), r.fiscalYear, r.period), env.(entryNo := n));
  }

  lemma InsertRuns(id: Id, content: Entry, fiscalYear: int, period: Id, rest: Prog, db: Db, env: Env)
    ensures Run(Then(OnEntry(id, InsertPosted(content, fiscalYear, period)), rest), db, env)
         == if id in db.entries || !LinesPassCheck(content.lines) then None
            else Run(rest, db.(entries := db.entries[id := PostedAs(content, fiscalYear, period, env.entryNo)]), env)
  {
  }

  lemma MarkRuns(original: Id, id: Id, rest: Prog, db: Db, env: Env)
    ensures Run(Then(ClaimReversal(original, id), Then(OnEntry(original, MarkReversed), rest)), db, env)
         == if original in db.reversals || original !in db.entries then None
            else Run(rest, db.(entries := db.entries[original := db.entries[original].(status := Reversed)],
                               reversals := db.reversals[original := id]), env)
  {
    var c := db.(reversals := db.reversals[original := id]);
    assert Run(Then(ClaimReversal(original, id), Then(OnEntry(original, MarkReversed), rest)), db, env)
        == if original in db.reversals then None else Run(Then(OnEntry(original, MarkReversed), rest), c, env);
  }

  lemma {:induction false} SettleRuns(kind: Kind, partner: Id, allocs: seq<Alloc>, rest: Prog, db: Db, env: Env)
    ensures Run(SettleProg(kind, partner, allocs, rest), db, env)
         == match SettleAll(db.docs, kind, partner, allocs)
            case None => None
            case Some(docs) => Run(rest, db.(docs := docs), env)
    decreases |allocs|
  {
    if allocs == [] {
      assert db.(docs := db.docs) == db;
    } else {
      var s := OnDoc(allocs[0].doc, Settle(kind, partner, allocs[0].amount));
      match Step(s, db, env)
      case None =>
      case Some(d) =>
        SettleRuns(kind, partner, allocs[1..], rest, d, env);
        assert Run(SettleProg(kind, partner, allocs, rest), db, env) == Run(SettleProg(kind, partner, allocs[1..], rest), d, env);
    }
  }

  lemma {:induction false} UnwindRuns(kind: Kind, allocs: seq<Alloc>, rest: Prog, db: Db, env: Env)
    ensures Run(UnwindProg(kind, allocs, rest), db, env)
         == match UnwindAll(db.docs, kind, allocs)
            case None => None
            case Some(docs) => Run(rest, db.(docs := docs), env)
    decreases |allocs|
  {
    if allocs == [] {
      assert db.(docs := db.docs) == db;
    } else {
      var s := OnDoc(allocs[0].doc, Unwind(kind, allocs[0].amount));
      match Step(s, db, env)
      case None =>
      case Some(d) =>
        UnwindRuns(kind, allocs[1..], rest, d, env);
        assert Run(UnwindProg(kind, allocs, rest), db, env) == Run(UnwindProg(kind, allocs[1..], rest), d, env);
    }
  }

  lemma PostDocRuns(db: Db, id: Id, d: Id, kind: Kind, total: Amount, p: Posting)
    ensures Run(Program(PostDoc(id, d, kind, total, p)), db, START) == PostDocEffect(db, id, d, kind, total, p)
  {
    hide PostEffect, CreatePostedProg;
    var tail := Then(OnDoc(d, FinalizeDoc(p.fiscalYear, total, id)), Done);
    if DocIs(db, d, Draft) {
      var n := Next(db.docSeq, (SeriesOfDoc(kind), p.fiscalYear));
      var db2 := WithDocNo(db, SeriesOfDoc(kind), p.fiscalYear);
      NumberRuns(SeriesOfDoc(kind), p.fiscalYear, CreatePostedProg(id, p, tail), db, START);
      assert Run(Program(PostDoc(id, d, kind, total, p)), db, START)
          == Run(CreatePostedProg(id, p, tail), db2, START.(docNo := n));
      PostRuns(id, p, tail, db2, START.(docNo := n));
      PostKeepsDocs(db2, id, p);
    }
  }

  lemma NumberRuns(series: Series, fiscalYear: int, rest: Prog, db: Db, env: Env)
    ensures Run(Then(DocNo(series, fiscalYear), rest), db, env)
         == Run(rest, WithDocNo(db, series, fiscalYear), env.(docNo := Next(db.docSeq, (series, fiscalYear))))
  {
    var s := DocNo(series, fiscalYear);
    assert Step(s, db, env) == Some(WithDocNo(db, series, fiscalYear));
    assert EnvAfter(s, db, env) == env.(docNo := Next(db.docSeq, (series, fiscalYear)));
    hide Step, EnvAfter;
  }

  lemma PostKeepsDocs(db: Db, id: Id, p: Posting)
    ensures match PostEffect(db, id, p) case None => true case Some(b) => b.docs == db.docs && b.pays == db.pays
  {
  }

  lemma PostPayRuns(db: Db, id: Id, pay: Id, row: Pay, p: Posting)
    ensures Run(Program(PostPay(id, pay, row, p)), db, START) == PostPayEffect(db, id, pay, row, p)
  {
    hide PostEffect, CreatePostedProg, SettleProg, SettleAll;
    var last := Then(OnPay(pay, FinalizePay(p.fiscalYear, id)), Done);
    var tail := Then(DocNo(SeriesOfPay(row.kind), p.fiscalYear), CreatePostedProg(id, p, last));
    if PayIs(db, pay, Draft) {
      assert Run(Program(PostPay(id, pay, row, p)), db, START)
          == Run(SettleProg(row.kind, row.partner, row.allocs, tail), db, START);
      SettleRuns(row.kind, row.partner, row.allocs, tail, db, START);
      match SettleAll(db.docs, row.kind, row.partner, row.allocs)
      case None =>
      case Some(docs) =>
        var n := Next(db.docSeq, (SeriesOfPay(row.kind), p.fiscalYear));
        var db2 := WithDocNo(db.(docs := docs), SeriesOfPay(row.kind), p.fiscalYear);
        NumberRuns(SeriesOfPay(row.kind), p.fiscalYear, CreatePostedProg(id, p, last), db.(docs := docs), START);
        PostRuns(id, p, last, db2, START.(docNo := n));
        PostKeepsDocs(db2, id, p);
    }
  }

  lemma VoidPayRuns(db: Db, id: Id, pay: Id, row: Pay, r: Reversing)
    ensures Run(Program(VoidPayment(id, pay, row, r)), db, START) == VoidPayEffect(db, id, pay, row, r)
  {
    hide ReverseEffect, ReverseProg, UnwindProg, UnwindAll;
    var tail := Then(OnPay(pay, VoidPay), ReverseProg(id, r, Done));
    if PayIs(db, pay, Posted) {
      assert Run(Program(VoidPayment(id, pay, row, r)), db, START) == Run(UnwindProg(row.kind, row.allocs, tail), db, START);
      UnwindRuns(row.kind, row.allocs, tail, db, START);
      match UnwindAll(db.docs, row.kind, row.allocs)
      case None =>
      case Some(docs) =>
        var db2 := db.(docs := docs, pays := db.pays[pay := db.pays[pay].(status := Void)]);
        assert Run(tail, db.(docs := docs), START) == Run(ReverseProg(id, r, Done), db2, START);
        ReverseRuns(id, r, Done, db2, START);
    }
  }

  lemma VoidDocRuns(db: Db, id: Id, d: Id, r: Reversing)
    ensures Run(Program(VoidDocument(id, d, r)), db, START) == VoidDocEffect(db, id, d, r)
  {
    hide ReverseEffect, ReverseProg;
    if DocIs(db, d, Posted) && db.docs[d].paid == 0 {
      ReverseRuns(id, r, Done, db.(docs := db.docs[d := db.docs[d].(status := Void)]), START);
    }
  }

  lemma CloseYearRuns(db: Db, id: Id, y: int, income: Amount, p: Posting)
    ensures Run(Program(CloseYear(id, y, income, p)), db, START) == CloseYearEffect(db, id, y, income, p)
  {
    hide PostEffect, CreatePostedProg;
    PostRuns(id, p, Then(OnYear(y, SetYear(YearEnd(true, Some(id), income))), Done), db, START);
  }

  lemma ReopenYearRuns(db: Db, id: Id, y: int, r: Reversing)
    ensures Run(Program(ReopenClosedYear(id, y, r)), db, START) == ReopenYearEffect(db, id, y, r)
  {
    hide ReverseProg;
    ReverseRuns(id, r, Then(OnYear(y, ReopenYear), Done), db, START);
  }

  lemma PostDraftRuns(db: Db, id: Id, p: Posting)
    ensures Run(Program(PostDraft(id, p)), db, START) == Effect(PostDraft(id, p), db)
  {
    hide StampProg;
    StampRuns(p.fiscalYear, p.period, false, Then(OnEntry(id, StampDraft(p.fiscalYear, p.period)), Done), db, START);
  }

  /** Run alone, the statements of every operation amount to its atomic effect. */
  lemma RunIsEffect(op: Op, db: Db)
    ensures Run(Program(op), db, START) == Effect(op, db)
  {
    match op {
      case PostEntry(id, p) => PostRuns(id, p, Done, db, START);
      case ReverseEntry(id, r) => ReverseRuns(id, r, Done, db, START);
      case PostDraft(id, p) => PostDraftRuns(db, id, p);
      case PostDoc(id, d, kind, total, p) => PostDocRuns(db, id, d, kind, total, p);
      case VoidDocument(id, d, r) => VoidDocRuns(db, id, d, r);
      case PostPay(id, pay, row, p) => PostPayRuns(db, id, pay, row, p);
      case VoidPayment(id, pay, row, r) => VoidPayRuns(db, id, pay, row, r);
      case CloseYear(id, y, income, p) => CloseYearRuns(db, id, y, income, p);
      case ReopenClosedYear(id, y, r) => ReopenYearRuns(db, id, y, r);
      case _ => SingleStatementRuns(op, db);
    }
  }

  lemma SingleStatementRuns(op: Op, db: Db)
    requires op.CreateDraft? || op.RemoveDraft? || op.CreateDoc? || op.UpdateDoc? || op.RemoveDoc? || op.CreatePay?
      || op.RemovePay? || op.CloseAccountingPeriod? || op.ReopenAccountingPeriod? || op.AddPeriod?
    ensures Run(Program(op), db, START) == Effect(op, db)
  {
    assert Program(op).Then? && Program(op).rest == Done;
    assert Run(Program(op), db, START) == Step(Program(op).stmt, db, START);
    hide Run;
    SingleStatementSteps(op, db);
  }

  lemma SingleStatementSteps(op: Op, db: Db)
    requires op.CreateDraft? || op.RemoveDraft? || op.CreateDoc? || op.UpdateDoc? || op.RemoveDoc? || op.CreatePay?
      || op.RemovePay? || op.CloseAccountingPeriod? || op.ReopenAccountingPeriod? || op.AddPeriod?
    ensures Program(op).Then? && Step(Program(op).stmt, db, START) == Effect(op, db)
  {
    hide CreatePostedProg, ReverseProg, StampProg, SettleProg, UnwindProg, PostEffect, ReverseEffect;
  }

  // ---- what an operation does to the journal ------------------------------------------

  datatype Journaling = Untouched | Posts(id: Id, posting: Posting) | Reverses(id: Id, reversal: Reversing) | Drafts

  function JournalingOf(op: Op): Journaling {
    match op
    case PostEntry(id, p) => Posts(id, p)
    case PostDoc(id, _, _, _, p) => Posts(id, p)
    case PostPay(id, _, _, p) => Posts(id, p)
    case CloseYear(id, _, _, p) => Posts(id, p)
    case ReverseEntry(id, r) => Reverses(id, r)
    case VoidDocument(id, _, r) => Reverses(id, r)
    case VoidPayment(id, _, _, r) => Reverses(id, r)
    case ReopenClosedYear(id, _, r) => Reverses(id, r)
    case CreateDraft(_, _) => Drafts
    case PostDraft(_, _) => Drafts
    case RemoveDraft(_) => Drafts
    case _ => Untouched
  }

  predicate SameJournal(a: Db, b: Db) {
    b.entries == a.entries && b.journalSeq == a.journalSeq && b.reversals == a.reversals
  }

  /** The journal changes as if the posting or reversal were the whole operation. */
  predicate JournalShape(op: Op, db: Db, b: Db) {
    match JournalingOf(op)
    case Untouched => SameJournal(db, b)
    case Posts(id, p) => PostEffect(db, id, p).Some? && SameJournal(PostEffect(db, id, p).value, b)
    case Reverses(id, r) => ReverseEffect(db, id, r).Some? && SameJournal(ReverseEffect(db, id, r).value, b)
    case Drafts => true
  }

  lemma PostBeside(db: Db, beside: Db, id: Id, p: Posting)
    requires beside == db.(docs := beside.docs, pays := beside.pays, docSeq := beside.docSeq)
    ensures PostEffect(beside, id, p).Some? ==>
              && PostEffect(db, id, p).Some?
              && PostEffect(beside, id, p).value
                 == PostEffect(db, id, p).value.(docs := beside.docs, pays := beside.pays, docSeq := beside.docSeq)
  {
  }

  lemma ReverseBeside(db: Db, beside: Db, id: Id, r: Reversing)
    requires beside == db.(docs := beside.docs, pays := beside.pays, docSeq := beside.docSeq)
    ensures ReverseEffect(beside, id, r).Some? ==>
              && ReverseEffect(db, id, r).Some?
              && ReverseEffect(beside, id, r).value
                 == ReverseEffect(db, id, r).value.(docs := beside.docs, pays := beside.pays, docSeq := beside.docSeq)
  {
  }

  lemma PostTouches(db: Db, id: Id, p: Posting)
    ensures PostEffect(db, id, p).Some? ==>
              var b := PostEffect(db, id, p).value; b == db.(entries := b.entries, journalSeq := b.journalSeq)
  {
  }

  lemma ReverseTouches(db: Db, id: Id, r: Reversing)
    ensures ReverseEffect(db, id, r).Some? ==>
              var b := ReverseEffect(db, id, r).value;
              b == db.(entries := b.entries, journalSeq := b.journalSeq, reversals := b.reversals)
  {
  }

  /** The rest of a document operation's effect. */
  lemma DocumentShape(op: Op, db: Db)
    requires Effect(op, db).Some?
    ensures var b := Effect(op, db).value;
      && (op.PostDoc? ==>
           var k := (SeriesOfDoc(op.kind), op.posting.fiscalYear);
           && DocIs(db, op.doc, Draft) && b.pays == db.pays && b.docSeq == db.docSeq[k := Next(db.docSeq, k) + 1]
           && b.docs == db.docs[op.doc := db.docs[op.doc].(status := Posted, total := op.total,
                number := Some((op.posting.fiscalYear, Next(db.docSeq, k))), entry := Some(op.id))])
      && (op.VoidDocument? ==>
           && DocIs(db, op.doc, Posted) && db.docs[op.doc].paid == 0 && b.pays == db.pays && b.docSeq == db.docSeq
           && b.docs == db.docs[op.doc := db.docs[op.doc].(status := Void)])
      && (op.PostPay? ==>
           var k := (SeriesOfPay(op.payment.kind), op.posting.fiscalYear);
           && PayIs(db, op.pay, Draft) && b.docSeq == db.docSeq[k := Next(db.docSeq, k) + 1]
           && SettleAll(db.docs, op.payment.kind, op.payment.partner, op.payment.allocs) == Some(b.docs)
           && b.pays == db.pays[op.pay := db.pays[op.pay].(status := Posted,
                number := Some((op.posting.fiscalYear, Next(db.docSeq, k))), entry := Some(op.id))])
      && (op.VoidPayment? ==>
           && PayIs(db, op.pay, Posted) && b.docSeq == db.docSeq
           && UnwindAll(db.docs, op.payment.kind, op.payment.allocs) == Some(b.docs)
           && b.pays == db.pays[op.pay := db.pays[op.pay].(status := Void)])
    ensures JournalShape(op, db, Effect(op, db).value)
    ensures var b := Effect(op, db).value;
            && b.config == db.config && b.accounts == db.accounts
            && (JournalingOf(op) != Untouched ==> b.periods == db.periods)
            && (!op.CloseYear? && !op.ReopenClosedYear? ==> b.years == db.years)
  {
    hide PostEffect, ReverseEffect, SettleAll, UnwindAll;
    match JournalingOf(op) {
      case Posts(id, p) => PostTouches(db, id, p);
      case Reverses(id, r) => ReverseTouches(db, id, r);
      case _ =>
    }
    match op {
      case PostDoc(id, d, kind, total, p) => PostBeside(db, WithDocNo(db, SeriesOfDoc(kind), p.fiscalYear), id, p);
      case VoidDocument(id, d, r) => ReverseBeside(db, db.(docs := db.docs[d := db.docs[d].(status := Void)]), id, r);
      case PostPay(id, pay, row, p) =>
        var docs := SettleAll(db.docs, row.kind, row.partner, row.allocs).value;
        PostBeside(db, WithDocNo(db.(docs := docs), SeriesOfPay(row.kind), p.fiscalYear), id, p);
      case VoidPayment(id, pay, row, r) =>
        var docs := UnwindAll(db.docs, row.kind, row.allocs).value;
        ReverseBeside(db, db.(docs := docs, pays := db.pays[pay := db.pays[pay].(status := Void)]), id, r);
      case _ =>
    }
  }

  /** Operations on unposted documents and payments. */
  predicate EditsDocuments(op: Op) {
    op.CreateDoc? || op.UpdateDoc? || op.RemoveDoc? || op.CreatePay? || op.RemovePay?
  }

  predicate MovesDocuments(op: Op) { op.PostDoc? || op.VoidDocument? || op.PostPay? || op.VoidPayment? }

  lemma DocumentsUntouched(op: Op, db: Db)
    requires !EditsDocuments(op) && !MovesDocuments(op) && Effect(op, db).Some?
    ensures var b := Effect(op, db).value; b.docs == db.docs && b.pays == db.pays && b.docSeq == db.docSeq
  {
    hide PostEffect, ReverseEffect;
    match JournalingOf(op) {
      case Posts(id, p) => PostTouches(db, id, p);
      case Reverses(id, r) => ReverseTouches(db, id, r);
      case _ =>
    }
  }
}
