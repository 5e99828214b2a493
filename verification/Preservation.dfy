/** Every operation, run as one atomic step on whatever it prepared earlier, keeps the
ledger-wide invariant. */
module Preservation {
  import opened Options
  import opened Ledger
  import opened Statements
  import opened Operations
  import opened Preparation
  import opened Numbering
  import opened Invariants

  // ---- journal entries, reversals, closed years -----------------------------------------

  lemma EntriesFrame(a: Db, b: Db)
    requires EntriesOk(a) && b.entries == a.entries && b.reversals == a.reversals && b.years == a.years
    requires b.accounts == a.accounts && b.config == a.config && PeriodsGrow(a.periods, b.periods)
    ensures EntriesOk(b)
  {
    assert JournalOk(b) by { hide ReversalsOk, YearsOk; JournalExtends(a, b); }
    assert ReversalsOk(b) by {
      hide JournalOk, YearsOk;
      forall o | o in b.reversals ensures Cancels(b, b.reversals[o], o) { assert Cancels(a, a.reversals[o], o); }
    }
  }

  // Changing a row that nothing else refers to: only its own entry has to be re-examined.
  lemma EntryChangeOk(db: Db, id: Id, e: Entry)
    requires EntriesOk(db) && EntryOk(db, e) && !e.status.Reversed?
    requires if id in db.entries then
               db.entries[id].stamp.None? && e.reversalOf == db.entries[id].reversalOf
             else e.reversalOf.None?
    ensures EntriesOk(db.(entries := db.entries[id := e]))
  {
    hide ReversalsOk, YearsOk, EntryOk;
    var b := db.(entries := db.entries[id := e]);
    JournalExtends(db, b);
    if id in db.reversals { ReversedIsStamped(db, id); }
    EntryChangeKeepsReversals(db, id, e);
    EntryChangeKeepsYears(db, id, e);
  }

  // Only stamped entries are reversed.
  lemma ReversedIsStamped(db: Db, o: Id)
    requires JournalOk(db) && ReversalsOk(db) && o in db.reversals
    ensures o in db.entries && db.entries[o].stamp.Some?
  {
    assert Cancels(db, db.reversals[o], o);
    assert EntryOk(db, db.entries[o]);
  }

  lemma EntryChangeKeepsYears(db: Db, id: Id, e: Entry)
    requires YearsOk(db) && (id in db.entries ==> db.entries[id].stamp.None?)
    ensures YearsOk(db.(entries := db.entries[id := e]))
  {
  }

  lemma EntryChangeKeepsReversals(db: Db, id: Id, e: Entry)
    requires ReversalsOk(db) && id !in db.reversals && !e.status.Reversed?
    requires if id in db.entries then
               db.entries[id].stamp.None? && e.reversalOf == db.entries[id].reversalOf
             else e.reversalOf.None?
    ensures ReversalsOk(db.(entries := db.entries[id := e]))
  {
    var b := db.(entries := db.entries[id := e]);
    forall o | o in b.reversals ensures Cancels(b, b.reversals[o], o) {
      assert Cancels(db, db.reversals[o], o);
    }
    forall i | i in b.entries && b.entries[i].reversalOf.Some?
      ensures b.entries[i].reversalOf.value in b.reversals && b.reversals[b.entries[i].reversalOf.value] == i
    {
      assert i in db.entries && db.entries[i].reversalOf == b.entries[i].reversalOf;
    }
  }

  lemma DraftOpsKeepEntries(op: Op, db: Db)
    requires op.CreateDraft? || op.PostDraft? || op.RemoveDraft?
    requires EntriesOk(db) && StillGood(db, op) && Effect(op, db).Some?
    ensures EntriesOk(Effect(op, db).value)
  {
    hide EntriesOk;
    match op
    case CreateDraft(id, e) => EntryChangeOk(db, id, DraftContent(e));
    case PostDraft(id, p) =>
      DraftEntryOk(db, id);
      var n := Next(db.journalSeq, p.fiscalYear);
      EntryChangeOk(db, id, PostedAs(db.entries[id], p.fiscalYear, p.period, n));
      EntriesFrame(db.(entries := db.entries[id := PostedAs(db.entries[id], p.fiscalYear, p.period, n)]), Effect(op, db).value);
    case RemoveDraft(id) =>
      DraftEntryOk(db, id);
      EntryChangeOk(db, id, db.entries[id].(deleted := true));
  }

  lemma DraftEntryOk(db: Db, id: Id)
    requires EntriesOk(db) && id in db.entries
    ensures EntryOk(db, db.entries[id])
  {
    hide ReversalsOk, YearsOk;
  }

  lemma YearOpsKeepEntries(op: Op, db: Db)
    requires op.CloseYear? || op.ReopenClosedYear?
    requires EntriesOk(db) && StillGood(db, op) && Effect(op, db).Some?
    ensures EntriesOk(Effect(op, db).value)
  {
    hide PostEffect, ReverseEffect, EntriesOk, StillGoodPosting, StillGoodReversal;
    match op
    case CloseYear(id, y, income, p) =>
      PostOk(db, id, p);
      var b := PostEffect(db, id, p).value;
      ClosingEntryStamped(db, id, p);
      SetYearOk(b, y, YearEnd(true, Some(id), income));
    case ReopenClosedYear(id, y, r) =>
      ReverseOk(db, id, r);
      var b := ReverseEffect(db, id, r).value;
      ReverseTouches(db, id, r);
      if b.years[y].entry.Some? { YearStillStamped(b, y); }
      SetYearOk(b, y, b.years[y].(closed := false));
  }

  lemma ClosingEntryStamped(db: Db, id: Id, p: Posting)
    requires PostEffect(db, id, p).Some?
    ensures var b := PostEffect(db, id, p).value;
            id in b.entries && b.entries[id].stamp.Some? && b.entries[id].stamp.value.fiscalYear == p.fiscalYear
  {
  }

  lemma YearStillStamped(db: Db, y: int)
    requires EntriesOk(db) && y in db.years && db.years[y].entry.Some?
    ensures var c := db.years[y].entry.value;
            c in db.entries && db.entries[c].stamp.Some? && db.entries[c].stamp.value.fiscalYear == y
  {
    hide JournalOk, ReversalsOk;
  }

  lemma JournalIgnoresYears(db: Db, years: map<int, YearEnd>)
    requires JournalOk(db) && ReversalsOk(db)
    ensures var b := db.(years := years); JournalOk(b) && ReversalsOk(b)
  {
    hide EntryOk;
    var b := db.(years := years);
    forall i | i in b.entries ensures EntryOk(b, b.entries[i]) { EntryOkFrame(db, b, b.entries[i]); }
    forall o | o in b.reversals ensures Cancels(b, b.reversals[o], o) { assert Cancels(db, db.reversals[o], o); }
  }

  lemma SetYearOk(db: Db, y: int, year: YearEnd)
    requires EntriesOk(db)
    requires year.entry.Some? ==>
               var c := year.entry.value;
               c in db.entries && db.entries[c].stamp.Some? && db.entries[c].stamp.value.fiscalYear == y
    ensures EntriesOk(db.(years := db.years[y := year]))
  {
    hide JournalOk, ReversalsOk;
    JournalIgnoresYears(db, db.years[y := year]);
  }

  lemma EffectKeepsEntries(op: Op, db: Db)
    requires EntriesOk(db) && StillGood(db, op) && Effect(op, db).Some?
    ensures EntriesOk(Effect(op, db).value)
  {
    if op.CloseYear? || op.ReopenClosedYear? {
      YearOpsKeepEntries(op, db);
    } else if JournalingOf(op).Drafts? {
      DraftOpsKeepEntries(op, db);
    } else {
      OtherOpsKeepEntries(op, db);
    }
  }

  lemma OtherOpsKeepEntries(op: Op, db: Db)
    requires !op.CloseYear? && !op.ReopenClosedYear? && !JournalingOf(op).Drafts?
    requires EntriesOk(db) && StillGood(db, op) && Effect(op, db).Some?
    ensures EntriesOk(Effect(op, db).value)
  {
    var b := Effect(op, db).value;
    DocumentShape(op, db);
    PeriodsKept(op, db);
    hide EntriesOk, Effect, PostEffect, ReverseEffect;
    match JournalingOf(op) {
      case Posts(id, p) =>
        PostOk(db, id, p);
        PostTouches(db, id, p);
        EntriesFrame(PostEffect(db, id, p).value, b);
      case Reverses(id, r) =>
        ReverseOk(db, id, r);
        ReverseTouches(db, id, r);
        EntriesFrame(ReverseEffect(db, id, r).value, b);
      case Untouched => EntriesFrame(db, b);
    }
  }

  lemma PeriodsKept(op: Op, db: Db)
    requires Effect(op, db).Some?
    ensures PeriodsGrow(db.periods, Effect(op, db).value.periods)
  {
    DocumentShape(op, db);
  }

  // ---- numbering -----------------------------------------------------------------------------

  lemma PostNumbers(db: Db, id: Id, p: Posting)
    requires Gapless(db.journalSeq, EntryNumbers(db.entries), YEARS) && PostEffect(db, id, p).Some?
    ensures var b := PostEffect(db, id, p).value; Gapless(b.journalSeq, EntryNumbers(b.entries), YEARS)
  {
    JournaledNumbers(db, id, PostedContent(p), p.fiscalYear, p.period);
  }

  lemma DraftNumbers(op: Op, db: Db)
    requires JournalingOf(op).Drafts? && JournalOk(db) && Effect(op, db).Some?
    requires Gapless(db.journalSeq, EntryNumbers(db.entries), YEARS)
    ensures var b := Effect(op, db).value; Gapless(b.journalSeq, EntryNumbers(b.entries), YEARS)
  {
    hide Gapless, PostEffect, ReverseEffect, EntryNumbers, JournalOk;
    var b := Effect(op, db).value;
    match op
    case CreateDraft(id, e) => UnstampedNumbers(db.entries, id, b.entries[id]);
    case PostDraft(id, p) =>
      DraftIsUnstamped(db, id);
      JournaledNumbers(db, id, db.entries[id], p.fiscalYear, p.period);
    case RemoveDraft(id) => RestampKeepsNumbers(db.entries, b.entries);
  }

  lemma UnstampedNumbers(entries: map<Id, Entry>, id: Id, e: Entry)
    requires id !in entries && e.stamp.None?
    ensures EntryNumbers(entries[id := e]) == EntryNumbers(entries)
  {
  }

  lemma DraftIsUnstamped(db: Db, id: Id)
    requires JournalOk(db) && DraftIs(db, id)
    ensures db.entries[id].stamp.None?
  {
    assert EntryOk(db, db.entries[id]);
  }

  lemma EffectKeepsEntryNumbers(op: Op, db: Db)
    requires JournalOk(db) && Gapless(db.journalSeq, EntryNumbers(db.entries), YEARS)
    requires StillGood(db, op) && Effect(op, db).Some?
    ensures var b := Effect(op, db).value; Gapless(b.journalSeq, EntryNumbers(b.entries), YEARS)
  {
    if JournalingOf(op).Drafts? {
      DraftNumbers(op, db);
    } else {
      DocumentShape(op, db);
      hide Gapless, EntryNumbers, JournalOk, Effect, PostEffect, ReverseEffect;
      match JournalingOf(op) {
        case Posts(id, p) => PostNumbers(db, id, p);
        case Reverses(id, r) => ReverseNumbers(db, id, r);
        case Untouched =>
      }
    }
  }

  // Settling and unwinding touch nothing but the paid column.
  predicate OnlyPaidDiffers(a: map<Id, Doc>, b: map<Id, Doc>) {
    a.Keys == b.Keys && forall d | d in a :: b[d] == a[d].(paid := b[d].paid)
  }

  lemma {:induction false} SettleTouchesPaid(docs: map<Id, Doc>, kind: Kind, partner: Id, allocs: seq<Alloc>)
    requires SettleAll(docs, kind, partner, allocs).Some?
    ensures OnlyPaidDiffers(docs, SettleAll(docs, kind, partner, allocs).value)
    decreases |allocs|
  {
    if allocs != [] {
      var a := allocs[0];
      SettleTouchesPaid(docs[a.doc := docs[a.doc].(paid := docs[a.doc].paid + a.amount)], kind, partner, allocs[1..]);
    }
  }

  lemma {:induction false} UnwindTouchesPaid(docs: map<Id, Doc>, kind: Kind, allocs: seq<Alloc>)
    requires UnwindAll(docs, kind, allocs).Some?
    ensures OnlyPaidDiffers(docs, UnwindAll(docs, kind, allocs).value)
    decreases |allocs|
  {
    if allocs != [] {
      var a := allocs[0];
      UnwindTouchesPaid(docs[a.doc := docs[a.doc].(paid := docs[a.doc].paid - a.amount)], kind, allocs[1..]);
    }
  }

  lemma DocNumbersSame(a: map<Id, Doc>, b: map<Id, Doc>)
    requires forall d | d in a :: d in b && b[d].kind == a[d].kind && b[d].number == a[d].number
    requires forall d | d in b && d !in a :: b[d].number.None?
    ensures DocNumbers(a) == DocNumbers(b)
  {
  }

  lemma PayNumbersSame(a: map<Id, Pay>, b: map<Id, Pay>)
    requires forall d | d in a :: d in b && b[d].kind == a[d].kind && b[d].number == a[d].number
    requires forall d | d in b && d !in a :: b[d].number.None?
    ensures PayNumbers(a) == PayNumbers(b)
  {
  }

  ghost predicate SeriesOk(db: Db) {
    Gapless(db.docSeq, DocNumbers(db.docs), DOC_SERIES) && Gapless(db.docSeq, PayNumbers(db.pays), PAY_SERIES)
  }

  lemma SeriesSame(a: Db, b: Db)
    requires SeriesOk(a) && b.docSeq == a.docSeq
    requires DocNumbers(b.docs) == DocNumbers(a.docs) && PayNumbers(b.pays) == PayNumbers(a.pays)
    ensures SeriesOk(b)
  {
    hide Gapless;
  }

  lemma NumberDoc(docs: map<Id, Doc>, d: Id, posted: Doc)
    requires posted.number.Some?
    ensures DocNumbers(docs[d := posted])
         == DocNumbers(docs)[d := ((SeriesOfDoc(posted.kind), posted.number.value.0), posted.number.value.1)]
  {
  }

  lemma NumberPay(pays: map<Id, Pay>, p: Id, posted: Pay)
    requires posted.number.Some?
    ensures PayNumbers(pays[p := posted])
         == PayNumbers(pays)[p := ((SeriesOfPay(posted.kind), posted.number.value.0), posted.number.value.1)]
  {
  }

  // Drawing the next document number and writing it on document d.
  lemma IssueDocNumber(db: Db, b: Db, d: Id, k: (Series, int))
    requires SeriesOk(db) && k in DOC_SERIES && d !in DocNumbers(db.docs)
    requires b.docSeq == db.docSeq[k := Next(db.docSeq, k) + 1] && PayNumbers(b.pays) == PayNumbers(db.pays)
    requires DocNumbers(b.docs) == DocNumbers(db.docs)[d := (k, Next(db.docSeq, k))]
    ensures SeriesOk(b)
  {
    hide Gapless, DocNumbers, PayNumbers;
    IssueKeepsGapless(db.docSeq, DocNumbers(db.docs), DOC_SERIES, k, d);
    OtherSeriesKeepsGapless(db.docSeq, PayNumbers(db.pays), PAY_SERIES, k, Next(db.docSeq, k) + 1);
  }

  lemma IssuePayNumber(db: Db, b: Db, p: Id, k: (Series, int))
    requires SeriesOk(db) && k in PAY_SERIES && p !in PayNumbers(db.pays)
    requires b.docSeq == db.docSeq[k := Next(db.docSeq, k) + 1] && DocNumbers(b.docs) == DocNumbers(db.docs)
    requires PayNumbers(b.pays) == PayNumbers(db.pays)[p := (k, Next(db.docSeq, k))]
    ensures SeriesOk(b)
  {
    hide Gapless, DocNumbers, PayNumbers;
    IssueKeepsGapless(db.docSeq, PayNumbers(db.pays), PAY_SERIES, k, p);
    OtherSeriesKeepsGapless(db.docSeq, DocNumbers(db.docs), DOC_SERIES, k, Next(db.docSeq, k) + 1);
  }

  lemma PostDocKeepsSeries(op: Op, db: Db)
    requires op.PostDoc? && SeriesOk(db) && DocumentsOk(db) && StillGood(db, op) && Effect(op, db).Some?
    ensures SeriesOk(Effect(op, db).value)
  {
    hide SeriesOk, Effect, JournalShape, StillGoodPosting;
    var b := Effect(op, db).value;
    DocumentShape(op, db);
    assert DocOk(db, db.docs[op.doc]);
    hide DocumentsOk;
    NumberDoc(db.docs, op.doc, b.docs[op.doc]);
    IssueDocNumber(db, b, op.doc, (SeriesOfDoc(op.kind), op.posting.fiscalYear));
  }

  lemma SettleKeepsDocNumbers(docs: map<Id, Doc>, kind: Kind, partner: Id, allocs: seq<Alloc>)
    requires SettleAll(docs, kind, partner, allocs).Some?
    ensures DocNumbers(SettleAll(docs, kind, partner, allocs).value) == DocNumbers(docs)
  {
    SettleTouchesPaid(docs, kind, partner, allocs);
    DocNumbersSame(docs, SettleAll(docs, kind, partner, allocs).value);
  }

  lemma PostPayKeepsSeries(op: Op, db: Db)
    requires op.PostPay? && SeriesOk(db) && DocumentsOk(db) && StillGood(db, op) && Effect(op, db).Some?
    ensures SeriesOk(Effect(op, db).value)
  {
    hide SeriesOk, SettleAll, StillGoodPosting, PostEffect, DocNumbers, JournalShape;
    var b := Effect(op, db).value;
    DocumentShape(op, db);
    assert PayOk(db, db.pays[op.pay]);
    SettleKeepsDocNumbers(db.docs, op.payment.kind, op.payment.partner, op.payment.allocs);
    NumberPay(db.pays, op.pay, b.pays[op.pay]);
    IssuePayNumber(db, b, op.pay, (SeriesOfPay(op.payment.kind), op.posting.fiscalYear));
  }

  lemma EffectKeepsSeries(op: Op, db: Db)
    requires SeriesOk(db) && DocumentsOk(db) && StillGood(db, op) && Effect(op, db).Some?
    ensures SeriesOk(Effect(op, db).value)
  {
    if op.PostDoc? {
      PostDocKeepsSeries(op, db);
    } else if op.PostPay? {
      PostPayKeepsSeries(op, db);
    } else {
      NumbersUnchanged(op, db);
      SeriesSame(db, Effect(op, db).value);
    }
  }

  lemma NumbersUnchanged(op: Op, db: Db)
    requires !op.PostDoc? && !op.PostPay? && Effect(op, db).Some?
    ensures var b := Effect(op, db).value;
            b.docSeq == db.docSeq && DocNumbers(b.docs) == DocNumbers(db.docs) && PayNumbers(b.pays) == PayNumbers(db.pays)
  {
    hide DocNumbers, PayNumbers, PostEffect, ReverseEffect;
    var b := Effect(op, db).value;
    DocumentShape(op, db);
    match JournalingOf(op) {
      case Posts(id, p) => PostTouches(db, id, p);
      case Reverses(id, r) => ReverseTouches(db, id, r);
      case _ =>
    }
    if op.VoidPayment? { UnwindTouchesPaid(db.docs, op.payment.kind, op.payment.allocs); }
    DocNumbersSame(db.docs, b.docs);
    PayNumbersSame(db.pays, b.pays);
  }

  // ---- nothing committed is taken back -----------------------------------------------------

  lemma EffectGrowsEntries(op: Op, db: Db)
    requires JournalOk(db) && Effect(op, db).Some?
    ensures EntriesGrow(db.entries, Effect(op, db).value.entries)
  {
    if JournalingOf(op).Drafts? {
      hide Effect, JournalOk, EntriesGrow;
      DraftsGrowEntries(op, db);
    } else {
      hide JournalOk, Effect, PostEffect, ReverseEffect, SettleAll, UnwindAll;
      DocumentShape(op, db);
      match JournalingOf(op) {
        case Posts(id, p) => PostGrows(db, id, p);
        case Reverses(id, r) => ReverseGrows(db, id, r);
        case Untouched =>
      }
    }
  }

  lemma DraftsGrowEntries(op: Op, db: Db)
    requires JournalingOf(op).Drafts? && JournalOk(db) && Effect(op, db).Some?
    ensures EntriesGrow(db.entries, Effect(op, db).value.entries)
  {
    hide PostEffect, ReverseEffect, JournalOk;
    if op.PostDraft? { DraftIsUnstamped(db, op.entry); }
  }

  lemma EffectGrowsDocuments(op: Op, db: Db)
    requires DocumentsOk(db) && Effect(op, db).Some?
    ensures DocsGrow(db.docs, Effect(op, db).value.docs) && PaysGrow(db.pays, Effect(op, db).value.pays)
  {
    if MovesDocuments(op) {
      MovingGrowsDocuments(op, db);
    } else if EditsDocuments(op) {
      EditingGrowsDocuments(op, db);
    } else {
      DocumentsUntouched(op, db);
      hide Effect;
    }
  }

  lemma EditingGrowsDocuments(op: Op, db: Db)
    requires EditsDocuments(op) && Effect(op, db).Some?
    ensures DocsGrow(db.docs, Effect(op, db).value.docs) && PaysGrow(db.pays, Effect(op, db).value.pays)
  {
  }

  lemma PaidChangeGrows(a: map<Id, Doc>, b: map<Id, Doc>)
    requires OnlyPaidDiffers(a, b)
    ensures DocsGrow(a, b)
  {
  }

  lemma DocChangeGrows(docs: map<Id, Doc>, d: Id, after: Doc)
    requires d in docs && after.kind == docs[d].kind && (docs[d].entry.None? || after.entry == docs[d].entry)
    ensures DocsGrow(docs, docs[d := after])
  {
  }

  lemma PayChangeGrows(pays: map<Id, Pay>, p: Id, after: Pay)
    requires p in pays && SamePayment(pays[p], after) && (pays[p].entry.None? || after.entry == pays[p].entry)
    ensures PaysGrow(pays, pays[p := after])
  {
  }

  lemma SameDocumentsGrow(docs: map<Id, Doc>, pays: map<Id, Pay>)
    ensures DocsGrow(docs, docs) && PaysGrow(pays, pays)
  {
  }

  lemma MovingGrowsDocuments(op: Op, db: Db)
    requires MovesDocuments(op) && DocumentsOk(db) && Effect(op, db).Some?
    ensures DocsGrow(db.docs, Effect(op, db).value.docs) && PaysGrow(db.pays, Effect(op, db).value.pays)
  {
    var b := Effect(op, db).value;
    DocumentShape(op, db);
    SameDocumentsGrow(db.docs, db.pays);
    hide Effect, SettleAll, UnwindAll, JournalShape, DocsGrow, PaysGrow, OnlyPaidDiffers;
    match op {
      case PostDoc(_, d, _, _, _) =>
        assert DocOk(db, db.docs[d]);
        DocChangeGrows(db.docs, d, b.docs[d]);
      case VoidDocument(_, d, _) => DocChangeGrows(db.docs, d, b.docs[d]);
      case PostPay(_, p, row, _) =>
        assert PayOk(db, db.pays[p]);
        SettleTouchesPaid(db.docs, row.kind, row.partner, row.allocs);
        PaidChangeGrows(db.docs, b.docs);
        PayChangeGrows(db.pays, p, b.pays[p]);
      case VoidPayment(_, p, row, _) =>
        UnwindTouchesPaid(db.docs, row.kind, row.allocs);
        PaidChangeGrows(db.docs, b.docs);
        PayChangeGrows(db.pays, p, b.pays[p]);
    }
  }

  lemma EffectGrows(op: Op, db: Db)
    requires LedgerOk(db) && Effect(op, db).Some?
    ensures Grows(db, Effect(op, db).value)
  {
    PeriodsKept(op, db);
    EffectGrowsEntries(op, db);
    EffectGrowsDocuments(op, db);
    DocumentShape(op, db);
    hide LedgerOk, Effect;
  }

  // ---- documents ------------------------------------------------------------------------------

  lemma DocumentsExtend(a: Db, b: Db)
    requires DocumentsOk(a) && EntriesGrow(a.entries, b.entries)
    requires forall d | d in b.docs :: (d in a.docs && b.docs[d] == a.docs[d].(paid := b.docs[d].paid)) || DocOk(b, b.docs[d])
    requires forall p | p in b.pays :: (p in a.pays && b.pays[p] == a.pays[p]) || PayOk(b, b.pays[p])
    ensures DocumentsOk(b)
  {
    forall d | d in b.docs ensures DocOk(b, b.docs[d]) {
      if d in a.docs { assert DocOk(a, a.docs[d]); }
    }
    forall p | p in b.pays ensures PayOk(b, b.pays[p]) {
      if p in a.pays { assert PayOk(a, a.pays[p]); }
    }
  }

  // The entry a document operation posts is there, stamped, afterwards.
  lemma PostedEntryThere(op: Op, db: Db)
    requires JournalingOf(op).Posts? && Effect(op, db).Some?
    ensures var b, id := Effect(op, db).value, JournalingOf(op).id;
            id in b.entries && b.entries[id].stamp.Some?
  {
    DocumentShape(op, db);
    hide Effect;
  }

  lemma EffectKeepsDocuments(op: Op, db: Db)
    requires LedgerOk(db) && StillGood(db, op) && Effect(op, db).Some?
    ensures DocumentsOk(Effect(op, db).value)
  {
    EffectGrowsEntries(op, db);
    if op.PostDoc? {
      PostDocKeepsDocuments(op, db);
    } else if op.PostPay? {
      PostPayKeepsDocuments(op, db);
    } else if op.VoidDocument? || op.VoidPayment? {
      VoidingKeepsDocuments(op, db);
    } else if EditsDocuments(op) {
      EditingKeepsDocuments(op, db);
    } else {
      DocumentsUntouched(op, db);
      hide Effect, EntriesGrow, JournalOk, ReversalsOk, NumbersOk, YearsOk;
      DocumentsExtend(db, Effect(op, db).value);
    }
  }

  lemma EditingKeepsDocuments(op: Op, db: Db)
    requires EditsDocuments(op) && DocumentsOk(db) && StillGood(db, op) && Effect(op, db).Some?
    requires EntriesGrow(db.entries, Effect(op, db).value.entries)
    ensures DocumentsOk(Effect(op, db).value)
  {
    assert op.UpdateDoc? || op.RemoveDoc? ==> DocOk(db, db.docs[op.doc]);
    assert op.RemovePay? ==> PayOk(db, db.pays[op.pay]);
    hide EntriesGrow;
    DocumentsExtend(db, Effect(op, db).value);
  }

  lemma PostedDocOk(db: Db, d: Id, b: Db)
    requires DocumentsOk(db) && d in db.docs && d in b.docs && 0 < b.docs[d].total
    requires b.docs[d] == db.docs[d].(status := Posted, total := b.docs[d].total, number := b.docs[d].number, entry := b.docs[d].entry)
    requires !db.docs[d].deleted && b.docs[d].number.Some? && b.docs[d].entry.Some?
    requires b.docs[d].entry.value in b.entries && b.entries[b.docs[d].entry.value].stamp.Some?
    ensures DocOk(b, b.docs[d])
  {
  }

  lemma PostDocKeepsDocuments(op: Op, db: Db)
    requires op.PostDoc? && DocumentsOk(db) && StillGood(db, op) && Effect(op, db).Some?
    requires EntriesGrow(db.entries, Effect(op, db).value.entries)
    ensures DocumentsOk(Effect(op, db).value)
  {
    hide Effect, JournalShape, StillGoodPosting, EntriesGrow, DocumentsOk, DocOk, PayOk;
    DocumentShape(op, db);
    PostedEntryThere(op, db);
    PostedDocOk(db, op.doc, Effect(op, db).value);
    DocumentsExtend(db, Effect(op, db).value);
  }

  lemma PostedPayOk(db: Db, p: Id, b: Db)
    requires DocumentsOk(db) && p in db.pays && p in b.pays
    requires b.pays[p] == db.pays[p].(status := Posted, number := b.pays[p].number, entry := b.pays[p].entry)
    requires !db.pays[p].deleted && b.pays[p].number.Some? && b.pays[p].entry.Some?
    requires b.pays[p].entry.value in b.entries && b.entries[b.pays[p].entry.value].stamp.Some?
    ensures PayOk(b, b.pays[p])
  {
    assert PayOk(db, db.pays[p]);
  }

  lemma PostPayKeepsDocuments(op: Op, db: Db)
    requires op.PostPay? && DocumentsOk(db) && StillGood(db, op) && Effect(op, db).Some?
    requires EntriesGrow(db.entries, Effect(op, db).value.entries)
    ensures DocumentsOk(Effect(op, db).value)
  {
    hide Effect, SettleAll, JournalShape, EntriesGrow, StillGood, DocumentsOk, PayOk, DocOk;
    PostedEntryThere(op, db);
    DocumentShape(op, db);
    SettleTouchesPaid(db.docs, op.payment.kind, op.payment.partner, op.payment.allocs);
    PayPostedKeeps(db, op.pay, Effect(op, db).value);
  }

  lemma PayPostedKeeps(db: Db, p: Id, b: Db)
    requires DocumentsOk(db) && EntriesGrow(db.entries, b.entries) && OnlyPaidDiffers(db.docs, b.docs)
    requires p in db.pays && p in b.pays && b.pays == db.pays[p := b.pays[p]]
    requires b.pays[p] == db.pays[p].(status := Posted, number := b.pays[p].number, entry := b.pays[p].entry)
    requires !db.pays[p].deleted && b.pays[p].number.Some? && b.pays[p].entry.Some?
    requires b.pays[p].entry.value in b.entries && b.entries[b.pays[p].entry.value].stamp.Some?
    ensures DocumentsOk(b)
  {
    hide EntriesGrow, DocumentsOk, PayOk, DocOk;
    PostedPayOk(db, p, b);
    DocumentsExtend(db, b);
  }

  lemma VoidedOk(db: Db, b: Db)
    requires DocumentsOk(db) && EntriesGrow(db.entries, b.entries)
    ensures forall d | d in db.docs && d in b.docs && db.docs[d].status.Posted? && b.docs[d] == db.docs[d].(status := Void) :: DocOk(b, b.docs[d])
    ensures forall p | p in db.pays && p in b.pays && db.pays[p].status.Posted? && b.pays[p] == db.pays[p].(status := Void) :: PayOk(b, b.pays[p])
  {
    assert forall d | d in db.docs :: DocOk(db, db.docs[d]);
    assert forall p | p in db.pays :: PayOk(db, db.pays[p]);
  }

  lemma VoidingKeepsDocuments(op: Op, db: Db)
    requires op.VoidDocument? || op.VoidPayment?
    requires DocumentsOk(db) && StillGood(db, op) && Effect(op, db).Some?
    requires EntriesGrow(db.entries, Effect(op, db).value.entries)
    ensures DocumentsOk(Effect(op, db).value)
  {
    hide Effect, UnwindAll, JournalShape, StillGood, EntriesGrow, DocumentsOk, DocOk, PayOk;
    var b := Effect(op, db).value;
    DocumentShape(op, db);
    if op.VoidPayment? { UnwindTouchesPaid(db.docs, op.payment.kind, op.payment.allocs); }
    VoidedOk(db, b);
    DocumentsExtend(db, b);
  }

  // ---- the theorem ------------------------------------------------------------------------------

  /** Whatever a service prepared earlier, its committed effect keeps the ledger in order and
      takes nothing back. */
  lemma EffectKeepsLedger(op: Op, db: Db)
    requires LedgerOk(db) && StillGood(db, op) && Effect(op, db).Some?
    ensures LedgerOk(Effect(op, db).value) && Grows(db, Effect(op, db).value)
  {
    EffectKeepsEntries(op, db);
    EffectKeepsEntryNumbers(op, db);
    EffectKeepsSeries(op, db);
    EffectKeepsDocuments(op, db);
    EffectGrows(op, db);
  }
}
