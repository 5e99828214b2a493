/** When each operation goes through and which rows it leaves, written out on the rows themselves:
an account of every write transaction that does not mention how it is carried out. */
module Outcomes {
  import opened Options
  import opened Ledger
  import opened Operations
  import opened Preparation
  import opened Invariants
  import opened Protocol
  import opened Subledger
  import PaymentDrafts
  import opened Statements

  // ---- rows ------------------------------------------------------------------------------------

  predicate PeriodIsOpen(db: Db, p: Id) { p in db.periods && db.periods[p].open }

  predicate YearIsOpen(db: Db, y: int) { y !in db.years || !db.years[y].closed }

  predicate DraftEntry(db: Db, e: Id) { e in db.entries && db.entries[e].status == Status.Draft && !db.entries[e].deleted }

  predicate DocHas(db: Db, d: Id, status: Status) { d in db.docs && db.docs[d].status == status && !db.docs[d].deleted }

  predicate PayHas(db: Db, p: Id, status: Status) { p in db.pays && db.pays[p].status == status && !db.pays[p].deleted }

  predicate MayPost(db: Db, id: Id, p: Posting) {
    && YearIsOpen(db, p.fiscalYear) && PeriodIsOpen(db, p.period) && id !in db.entries
    && forall i | 0 <= i < |p.lines| ::
         (p.lines[i].debit > 0 && p.lines[i].credit == 0) || (p.lines[i].debit == 0 && p.lines[i].credit > 0)
  }

  predicate MayReverse(db: Db, id: Id, r: Reversing) {
    && (r.allowClosedYear || YearIsOpen(db, r.fiscalYear)) && PeriodIsOpen(db, r.period) && id !in db.entries
    && r.original in db.entries && db.entries[r.original].status == Posted
  }

  /** All allocations go to live posted documents of the payment's kind and partner, and those to
      one document together stay within what it has outstanding. */
  predicate MaySettle(db: Db, p: Pay) {
    forall i | 0 <= i < |p.allocs| ::
      var d := p.allocs[i].doc;
      && DocHas(db, d, Posted) && db.docs[d].kind == p.kind && db.docs[d].partner == p.partner
      && AllocSum(p.allocs, d) <= db.docs[d].total - db.docs[d].paid
  }

  /** And at least as much is paid on each document as the payment had allocated to it. */
  predicate MayUnwind(db: Db, p: Pay) {
    forall i | 0 <= i < |p.allocs| ::
      var d := p.allocs[i].doc;
      d in db.docs && !db.docs[d].deleted && db.docs[d].kind == p.kind && AllocSum(p.allocs, d) <= db.docs[d].paid
  }

  /** When a prepared operation goes through. */
  predicate Enabled(db: Db, op: Op) {
    match op
    case PostEntry(id, p) => MayPost(db, id, p)
    case CreateDraft(id, e) =>
      id !in db.entries && forall i | 0 <= i < |e.lines| ::
        (e.lines[i].debit > 0 && e.lines[i].credit == 0) || (e.lines[i].debit == 0 && e.lines[i].credit > 0)
    case PostDraft(e, p) => DraftEntry(db, e) && YearIsOpen(db, p.fiscalYear) && PeriodIsOpen(db, p.period)
    case RemoveDraft(e) => DraftEntry(db, e)
    case ReverseEntry(id, r) => MayReverse(db, id, r)
    case CreateDoc(id, _) => id !in db.docs
    case UpdateDoc(d, _, _, _) => DocHas(db, d, Draft)
    case RemoveDoc(d) => DocHas(db, d, Draft)
    case PostDoc(id, d, _, _, p) => DocHas(db, d, Draft) && MayPost(db, id, p)
    case VoidDocument(id, d, r) => DocHas(db, d, Posted) && db.docs[d].paid == 0 && MayReverse(db, id, r)
    case CreatePay(id, _) => id !in db.pays
    case RemovePay(p) => PayHas(db, p, Draft)
    case PostPay(id, pay, row, p) => PayHas(db, pay, Draft) && MaySettle(db, row) && MayPost(db, id, p)
    case VoidPayment(id, pay, row, r) => PayHas(db, pay, Posted) && MayUnwind(db, row) && MayReverse(db, id, r)
    case CloseYear(id, y, _, p) => YearIsOpen(db, y) && MayPost(db, id, p)
    case ReopenClosedYear(id, y, r) => !YearIsOpen(db, y) && MayReverse(db, id, r)
    case CloseAccountingPeriod(p) => PeriodIsOpen(db, p)
    case ReopenAccountingPeriod(p) => p in db.periods
    case AddPeriod(p, _) => p !in db.periods
  }

  // ---- when an operation goes through -----------------------------------------------------------

  lemma PostEnabled(db: Db, id: Id, p: Posting)
    ensures PostEffect(db, id, p).Some? <==> MayPost(db, id, p)
  {
  }

  lemma ReverseEnabled(db: Db, id: Id, r: Reversing)
    requires JournalOk(db) && ReversalsOk(db) && StillGoodReversal(db, r)
    ensures ReverseEffect(db, id, r).Some? <==> MayReverse(db, id, r)
  {
    OriginalSwaps(db, r);
    StillPosted(db, r.original);
  }

  lemma OriginalSwaps(db: Db, r: Reversing)
    requires JournalOk(db) && StillGoodReversal(db, r)
    ensures LinesPassCheck(Swapped(r.lines))
  {
    assert EntryOk(db, db.entries[r.original]);
  }

  lemma StillPosted(db: Db, o: Id)
    requires JournalOk(db) && ReversalsOk(db) && o in db.entries && db.entries[o].stamp.Some?
    ensures o in db.reversals <==> db.entries[o].status != Posted
  {
    assert EntryOk(db, db.entries[o]);
    if o in db.reversals { assert Cancels(db, db.reversals[o], o); }
  }

  // Changes of documents and payments beside a posting or reversal do not matter to it.
  lemma BesidesPosting(db: Db, beside: Db, id: Id, p: Posting)
    requires beside == db.(docs := beside.docs, pays := beside.pays, docSeq := beside.docSeq)
    ensures PostEffect(beside, id, p).Some? <==> PostEffect(db, id, p).Some?
  {
  }

  lemma BesidesReversal(db: Db, beside: Db, id: Id, r: Reversing)
    requires beside == db.(docs := beside.docs, pays := beside.pays, docSeq := beside.docSeq)
    ensures ReverseEffect(beside, id, r).Some? <==> ReverseEffect(db, id, r).Some?
  {
  }

  lemma SettlesIff(db: Db, p: Pay)
    requires AllocsPassCheck(p.allocs)
    ensures SettleAll(db.docs, p.kind, p.partner, p.allocs).Some? <==> MaySettle(db, p)
  {
    hide SettleAll, AllocSum;
    PaymentDrafts.DraftCheckIsSettlement(db.docs, p.kind, p.partner, p.allocs);
    if MaySettle(db, p) {
      forall i | 0 <= i < |p.allocs|
        ensures PaymentDrafts.MaySettle(db.docs, p.kind, p.partner, p.allocs[i].doc) && PaymentDrafts.Within(db.docs, p.allocs, p.allocs[i].doc)
      {
      }
    }
  }

  lemma UnwindsIff(db: Db, p: Pay)
    requires AllocsPassCheck(p.allocs)
    ensures UnwindAll(db.docs, p.kind, p.allocs).Some? <==> MayUnwind(db, p)
  {
    hide UnwindAll, AllocSum;
    UnwindIff(db.docs, p.kind, p.allocs);
    forall d: Id ensures AllocSum(p.allocs, d) != 0 <==> exists i :: 0 <= i < |p.allocs| && p.allocs[i].doc == d { AllocSumPositive(p.allocs, d); }
    if UnwindAll(db.docs, p.kind, p.allocs).Some? {
      forall i | 0 <= i < |p.allocs|
        ensures var d := p.allocs[i].doc; d in db.docs && !db.docs[d].deleted && db.docs[d].kind == p.kind && AllocSum(p.allocs, d) <= db.docs[d].paid
      {
        assert UnwindTarget(db.docs, p.kind, p.allocs[i]);
      }
    }
    if MayUnwind(db, p) {
      forall i | 0 <= i < |p.allocs| ensures UnwindTarget(db.docs, p.kind, p.allocs[i]) { assert p.allocs[i].doc in db.docs; }
    }
  }

  lemma AllocsOf(db: Db, op: Op)
    requires DocumentsOk(db) && StillGood(db, op) && (op.PostPay? || op.VoidPayment?)
    ensures AllocsPassCheck(op.payment.allocs)
  {
    assert PayOk(db, db.pays[op.pay]);
  }

  /** Every prepared operation goes through exactly when its rows say so, whatever its age. */
  lemma GoesThroughIff(db: Db, op: Op)
    requires LedgerOk(db) && StillGood(db, op)
    ensures Effect(op, db).Some? <==> Enabled(db, op)
  {
    if op.PostPay? || op.VoidPayment? {
      PaymentGoesThrough(db, op);
    } else {
      OtherGoesThrough(db, op);
    }
  }

  lemma PaymentGoesThrough(db: Db, op: Op)
    requires LedgerOk(db) && StillGood(db, op) && (op.PostPay? || op.VoidPayment?)
    ensures Effect(op, db).Some? <==> Enabled(db, op)
  {
    hide JournalOk, ReversalsOk, YearsOk, NumbersOk, PostEffect, ReverseEffect, SettleAll, UnwindAll, MayPost, MayReverse,
         MaySettle, MayUnwind, StillGoodPosting, StillGoodReversal, DocumentsOk;
    AllocsOf(db, op);
    match op {
      case PostPay(id, pay, row, p) =>
        SettlesIff(db, row);
        PostEnabled(db, id, p);
        match SettleAll(db.docs, row.kind, row.partner, row.allocs) {
          case None =>
          case Some(docs) => BesidesPosting(db, WithDocNo(db.(docs := docs), SeriesOfPay(row.kind), p.fiscalYear), id, p);
        }
      case VoidPayment(id, pay, row, r) =>
        UnwindsIff(db, row);
        ReverseEnabled(db, id, r);
        match UnwindAll(db.docs, row.kind, row.allocs) {
          case None =>
          case Some(docs) =>
            if pay in db.pays { BesidesReversal(db, db.(docs := docs, pays := db.pays[pay := db.pays[pay].(status := Void)]), id, r); }
        }
    }
  }

  lemma OtherGoesThrough(db: Db, op: Op)
    requires LedgerOk(db) && StillGood(db, op) && !op.PostPay? && !op.VoidPayment?
    ensures Effect(op, db).Some? <==> Enabled(db, op)
  {
    hide JournalOk, ReversalsOk, YearsOk, NumbersOk, DocumentsOk, PostEffect, ReverseEffect, MayPost, MayReverse,
         StillGoodPosting, StillGoodReversal, SettleAll, UnwindAll;
    match op {
      case PostEntry(id, p) => PostEnabled(db, id, p);
      case ReverseEntry(id, r) => ReverseEnabled(db, id, r);
      case PostDoc(id, d, kind, _, p) =>
        PostEnabled(db, id, p);
        BesidesPosting(db, WithDocNo(db, SeriesOfDoc(kind), p.fiscalYear), id, p);
      case VoidDocument(id, d, r) =>
        ReverseEnabled(db, id, r);
        if d in db.docs { BesidesReversal(db, db.(docs := db.docs[d := db.docs[d].(status := Void)]), id, r); }
      case CloseYear(id, _, _, p) => PostEnabled(db, id, p);
      case ReopenClosedYear(id, _, r) => ReverseEnabled(db, id, r);
      case _ =>
    }
  }

  // ---- what it leaves -----------------------------------------------------------------------------

  function NextOf<K>(counters: map<K, nat>, k: K): nat { if k in counters then counters[k] else 1 }

  /** A new posted entry under the next number of its fiscal year. */
  predicate Inserted(a: Db, b: Db, id: Id, date: Day, source: Source, lines: seq<Line>, reversalOf: Option<Id>, y: int, period: Id) {
    && id !in a.entries && id in b.entries
    && b.entries[id] == Entry(date, source, lines, Posted, Some(Stamp(y, period, NextOf(a.journalSeq, y))), reversalOf, false)
    && b.journalSeq == a.journalSeq[y := NextOf(a.journalSeq, y) + 1]
  }

  predicate Posts(a: Db, b: Db, id: Id, p: Posting) {
    && Inserted(a, b, id, p.date, p.source, p.lines, None, p.fiscalYear, p.period)
    && b.entries == a.entries[id := b.entries[id]] && b.reversals == a.reversals
  }

  /** The mirror image of the original, which is marked REVERSED and points to it. */
  predicate Reverses(a: Db, b: Db, id: Id, r: Reversing) {
    && id in b.entries
    && Inserted(a, b, id, r.date, Source.Reversal, b.entries[id].lines, Some(r.original), r.fiscalYear, r.period)
    && |b.entries[id].lines| == |r.lines|
    && (forall i | 0 <= i < |r.lines| :: b.entries[id].lines[i] == Line(r.lines[i].account, r.lines[i].credit, r.lines[i].debit))
    && r.original in a.entries && id != r.original
    && b.entries == a.entries[id := b.entries[id]][r.original := a.entries[r.original].(status := Status.Reversed)]
    && b.reversals == a.reversals[r.original := id]
  }

  predicate BooksSame(a: Db, b: Db) { b.docs == a.docs && b.pays == a.pays && b.docSeq == a.docSeq }

  /** The next number of a document series is drawn. */
  predicate Numbers(a: Db, b: Db, series: Series, y: int) { b.docSeq == a.docSeq[(series, y) := NextOf(a.docSeq, (series, y)) + 1] }

  /** Each document's paid column moves by sign times what the allocations give it. */
  predicate PaidMoves(a: Db, b: Db, allocs: seq<Alloc>, sign: int) {
    b.docs.Keys == a.docs.Keys && forall d | d in a.docs :: b.docs[d] == a.docs[d].(paid := a.docs[d].paid + sign * AllocSum(allocs, d))
  }

  /** The rows an operation leaves behind; the chart and the configuration are never touched. */
  predicate Leaves(a: Db, op: Op, b: Db) {
    && b.config == a.config && b.accounts == a.accounts
    && (!op.CloseYear? && !op.ReopenClosedYear? ==> b.years == a.years)
    && (!op.CloseAccountingPeriod? && !op.ReopenAccountingPeriod? && !op.AddPeriod? ==> b.periods == a.periods)
    && match op
       case PostEntry(id, p) => Posts(a, b, id, p) && BooksSame(a, b)
       case CreateDraft(id, e) =>
         b == a.(entries := a.entries[id := Entry(e.date, Manual, e.lines, Status.Draft, None, None, false)])
       case PostDraft(e, p) =>
         && e in a.entries && BooksSame(a, b) && b.reversals == a.reversals
         && b.entries == a.entries[e := a.entries[e].(status := Status.Posted,
              stamp := Some(Stamp(p.fiscalYear, p.period, NextOf(a.journalSeq, p.fiscalYear))))]
         && b.journalSeq == a.journalSeq[p.fiscalYear := NextOf(a.journalSeq, p.fiscalYear) + 1]
       case RemoveDraft(e) => e in a.entries && b == a.(entries := a.entries[e := a.entries[e].(deleted := true)])
       case ReverseEntry(id, r) => Reverses(a, b, id, r) && BooksSame(a, b)
       case CreateDoc(id, d) =>
         b == a.(docs := a.docs[id := Doc(d.kind, d.partner, d.date, d.due, d.total, 0, Status.Draft, None, None, false)])
       case UpdateDoc(d, date, due, total) =>
         d in a.docs && b == a.(docs := a.docs[d := a.docs[d].(date := date, due := due, total := total)])
       case RemoveDoc(d) => d in a.docs && b == a.(docs := a.docs[d := a.docs[d].(deleted := true)])
       case PostDoc(id, d, kind, total, p) =>
         var series := if kind.Receivable? then Invoices else Bills;
         && d in a.docs && Posts(a, b, id, p) && Numbers(a, b, series, p.fiscalYear) && b.pays == a.pays
         && b.docs == a.docs[d := a.docs[d].(status := Status.Posted, total := total,
              number := Some((p.fiscalYear, NextOf(a.docSeq, (series, p.fiscalYear)))), entry := Some(id))]
       case VoidDocument(id, d, r) =>
         && d in a.docs && Reverses(a, b, id, r) && b.pays == a.pays && b.docSeq == a.docSeq
         && b.docs == a.docs[d := a.docs[d].(status := Status.Void)]
       case CreatePay(id, p) =>
         b == a.(pays := a.pays[id := Pay(p.kind, p.partner, p.date, p.cash, p.amount, p.allocs, Status.Draft, None, None, false)])
       case RemovePay(p) => p in a.pays && b == a.(pays := a.pays[p := a.pays[p].(deleted := true)])
       case PostPay(id, pay, row, p) =>
         var series := if row.kind.Receivable? then Receipts else Disbursements;
         && pay in a.pays && Posts(a, b, id, p) && Numbers(a, b, series, p.fiscalYear) && PaidMoves(a, b, row.allocs, 1)
         && b.pays == a.pays[pay := a.pays[pay].(status := Status.Posted,
              number := Some((p.fiscalYear, NextOf(a.docSeq, (series, p.fiscalYear)))), entry := Some(id))]
       case VoidPayment(id, pay, row, r) =>
         && pay in a.pays && Reverses(a, b, id, r) && b.docSeq == a.docSeq && PaidMoves(a, b, row.allocs, -1)
         && b.pays == a.pays[pay := a.pays[pay].(status := Status.Void)]
       case CloseYear(id, y, income, p) =>
         Posts(a, b, id, p) && BooksSame(a, b) && b.years == a.years[y := YearEnd(true, Some(id), income)]
       case ReopenClosedYear(id, y, r) =>
         && y in a.years && Reverses(a, b, id, r) && BooksSame(a, b)
         && b.years == a.years[y := a.years[y].(closed := false)]
       case CloseAccountingPeriod(p) => p in a.periods && b == a.(periods := a.periods[p := a.periods[p].(open := false)])
       case ReopenAccountingPeriod(p) => p in a.periods && b == a.(periods := a.periods[p := a.periods[p].(open := true)])
       case AddPeriod(p, bounds) => b == a.(periods := a.periods[p := bounds])
  }

  lemma PostLeaves(db: Db, id: Id, p: Posting)
    requires PostEffect(db, id, p).Some?
    ensures var b := PostEffect(db, id, p).value; Posts(db, b, id, p) && b.years == db.years
  {
  }

  lemma ReverseLeaves(db: Db, id: Id, r: Reversing)
    requires ReverseEffect(db, id, r).Some? && r.original in db.entries
    ensures var b := ReverseEffect(db, id, r).value; Reverses(db, b, id, r) && b.years == db.years
  {
  }

  lemma SameJournalPosts(a: Db, c: Db, b: Db, id: Id, p: Posting)
    requires Posts(a, c, id, p) && SameJournal(c, b)
    ensures Posts(a, b, id, p)
  {
  }

  lemma SameJournalReverses(a: Db, c: Db, b: Db, id: Id, r: Reversing)
    requires id in c.entries && Reverses(a, c, id, r) && SameJournal(c, b)
    ensures Reverses(a, b, id, r)
  {
  }

  lemma JournalLeaves(op: Op, db: Db)
    requires StillGood(db, op) && Effect(op, db).Some?
    ensures var b := Effect(op, db).value;
      match JournalingOf(op)
      case Posts(id, p) => Posts(db, b, id, p)
      case Reverses(id, r) => Reverses(db, b, id, r)
      case _ => true
  {
    hide Effect, PostEffect, ReverseEffect, Posts, Reverses, StillGoodPosting, SettleAll, UnwindAll;
    DocumentShape(op, db);
    match JournalingOf(op) {
      case Posts(id, p) =>
        PostLeaves(db, id, p);
        SameJournalPosts(db, PostEffect(db, id, p).value, Effect(op, db).value, id, p);
      case Reverses(id, r) =>
        ReverseLeaves(db, id, r);
        SameJournalReverses(db, ReverseEffect(db, id, r).value, Effect(op, db).value, id, r);
      case _ =>
    }
  }

  lemma PaymentLeaves(op: Op, db: Db)
    requires LedgerOk(db) && SubledgerOk(db) && StillGood(db, op) && Effect(op, db).Some? && (op.PostPay? || op.VoidPayment?)
    ensures PaidMoves(db, Effect(op, db).value, op.payment.allocs, if op.PostPay? then 1 else -1)
  {
    hide JournalOk, ReversalsOk, YearsOk, NumbersOk, DocumentsOk, Effect, JournalShape, SettleAll, UnwindAll, StillGood, AllocSum;
    DocumentShape(op, db);
    AllocsOf(db, op);
    assert PaidWithin(db.docs) by { AllPaidWithin(db); }
    if op.PostPay? {
      SettleAdds(db.docs, op.payment.kind, op.payment.partner, op.payment.allocs);
    } else {
      UnwindSubtracts(db.docs, op.payment.kind, op.payment.allocs);
    }
  }

  /** What goes through leaves exactly these rows. */
  lemma EffectLeaves(db: Db, op: Op)
    requires LedgerOk(db) && SubledgerOk(db) && StillGood(db, op) && Effect(op, db).Some?
    ensures Leaves(db, op, Effect(op, db).value)
  {
    hide Effect, StillGood, LedgerOk, SubledgerOk, Leaves;
    match JournalingOf(op) {
      case Posts(_, _) => if op.PostPay? || op.PostDoc? { DocumentLeaves(db, op); } else { PostingLeaves(db, op); }
      case Reverses(_, _) => ReversalLeaves(db, op);
      case Drafts => RowLeaves(db, op);
      case Untouched => RowLeaves(db, op);
    }
  }

  lemma PostingLeaves(db: Db, op: Op)
    requires StillGood(db, op) && Effect(op, db).Some? && (op.PostEntry? || op.CloseYear?)
    ensures Leaves(db, op, Effect(op, db).value)
  {
    hide PostEffect, Posts, StillGoodPosting, JournalShape;
    JournalLeaves(op, db);
    match op {
      case CloseYear(id, _, _, p) => PostLeaves(db, id, p); PostTouches(db, id, p);
      case PostEntry(id, p) => PostTouches(db, id, p);
    }
  }

  lemma DocumentLeaves(db: Db, op: Op)
    requires LedgerOk(db) && SubledgerOk(db) && StillGood(db, op) && Effect(op, db).Some? && (op.PostPay? || op.PostDoc?)
    ensures Leaves(db, op, Effect(op, db).value)
  {
    hide Effect, LedgerOk, SubledgerOk, SettleAll, UnwindAll, Posts, StillGood, JournalShape, PaidMoves;
    DocumentShape(op, db);
    JournalLeaves(op, db);
    if op.PostPay? { PaymentLeaves(op, db); }
  }

  lemma ReversalLeaves(db: Db, op: Op)
    requires LedgerOk(db) && SubledgerOk(db) && StillGood(db, op) && Effect(op, db).Some? && JournalingOf(op).Reverses?
    ensures Leaves(db, op, Effect(op, db).value)
  {
    hide JournalOk, ReversalsOk, YearsOk, NumbersOk, DocumentsOk, SubledgerOk, SettleAll, UnwindAll, ReverseEffect,
         Reverses, StillGoodReversal, JournalShape, PaidMoves;
    DocumentShape(op, db);
    JournalLeaves(op, db);
    match op {
      case VoidPayment(_, _, _, _) => PaymentLeaves(op, db);
      case ReopenClosedYear(id, _, r) => ReverseTouches(db, id, r);
      case ReverseEntry(id, r) => ReverseTouches(db, id, r);
      case _ =>
    }
  }

  lemma RowLeaves(db: Db, op: Op)
    requires Effect(op, db).Some? && (JournalingOf(op).Drafts? || JournalingOf(op).Untouched?)
    ensures Leaves(db, op, Effect(op, db).value)
  {
  }

  /** In every interleaved run: a commit finds its operation enabled and leaves these rows. */
  lemma CommitLeaves(states: seq<System>, events: seq<Event>, i: nat)
    requires IsRun(states, events) && i < |events| && events[i].Commit?
    ensures events[i].t in states[i].running
    ensures var op := states[i].running[events[i].t].0; Enabled(states[i].db, op) && Leaves(states[i].db, op, states[i + 1].db)
  {
    hide Effect, StillGood, LedgerOk, Enabled, Leaves, SubledgerOk;
    RunOk(states, events, i);
    RunIsSerial(states, events, i);
    SubledgerHolds(states, events, i);
    assert RunningOk(states[i], events[i].t);
    var op := states[i].running[events[i].t].0;
    GoesThroughIff(states[i].db, op);
    EffectLeaves(states[i].db, op);
  }
}
