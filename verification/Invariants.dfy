/** What every committed database satisfies, and that every operation keeps it. */
module Invariants {
  import opened Options
  import opened Ledger
  import opened Statements
  import opened Operations
  import opened Preparation
  import opened Numbering

  // ---- the journal --------------------------------------------------------------------

  /** An entry is stamped exactly when it has left DRAFT; a stamped entry is balanced, on live
      accounts, dated inside its period and numbered in the fiscal year of its date. */
  ghost predicate EntryOk(db: Db, e: Entry) {
    && LinesPassCheck(e.lines)
    && !e.status.Void?
    && (e.status.Draft? <==> e.stamp.None?)
    && (e.stamp.None? ==> e.reversalOf.None?)
    && (e.stamp.Some? ==>
          && !e.deleted
          && Balanced(e.lines)
          && LinesLive(db, e.lines)
          && PeriodCovers(db, e.stamp.value.period, e.date)
          && e.stamp.value.fiscalYear == FiscalYear(db, e.date))
  }

  ghost predicate JournalOk(db: Db) { forall i | i in db.entries :: EntryOk(db, db.entries[i]) }

  /** Entry i is a reversal that cancels its original o. */
  ghost predicate Cancels(db: Db, i: Id, o: Id) {
    && i in db.entries && o in db.entries && i != o
    && db.entries[i].stamp.Some? && db.entries[o].status.Reversed?
    && db.entries[i].reversalOf == Some(o)
    && db.entries[i].lines == Swapped(db.entries[o].lines)
  }

  ghost predicate ReversalsOk(db: Db) {
    && (forall o | o in db.reversals :: Cancels(db, db.reversals[o], o))
    && (forall o | o in db.entries && db.entries[o].status.Reversed? :: o in db.reversals)
    && (forall i | i in db.entries && db.entries[i].reversalOf.Some? ::
          db.entries[i].reversalOf.value in db.reversals && db.reversals[db.entries[i].reversalOf.value] == i)
  }

  /** The entry that closed a year is stamped in that year. */
  ghost predicate YearsOk(db: Db) {
    forall y | y in db.years && db.years[y].entry.Some? ::
      var c := db.years[y].entry.value;
      c in db.entries && db.entries[c].stamp.Some? && db.entries[c].stamp.value.fiscalYear == y
  }

  // ---- numbering ------------------------------------------------------------------------

  ghost function EntryNumbers(entries: map<Id, Entry>): map<Id, (int, nat)> {
    map i | i in entries && entries[i].stamp.Some? :: (entries[i].stamp.value.fiscalYear, entries[i].stamp.value.number)
  }

  ghost function DocNumbers(docs: map<Id, Doc>): map<Id, ((Series, int), nat)> {
    map d | d in docs && docs[d].number.Some? :: ((SeriesOfDoc(docs[d].kind), docs[d].number.value.0), docs[d].number.value.1)
  }

  ghost function PayNumbers(pays: map<Id, Pay>): map<Id, ((Series, int), nat)> {
    map p | p in pays && pays[p].number.Some? :: ((SeriesOfPay(pays[p].kind), pays[p].number.value.0), pays[p].number.value.1)
  }

  ghost const YEARS: iset<int> := iset y: int | true
  ghost const DOC_SERIES: iset<(Series, int)> := iset k: (Series, int) | k.0.Invoices? || k.0.Bills?
  ghost const PAY_SERIES: iset<(Series, int)> := iset k: (Series, int) | k.0.Receipts? || k.0.Disbursements?

  ghost predicate NumbersOk(db: Db) {
    && Gapless(db.journalSeq, EntryNumbers(db.entries), YEARS)
    && Gapless(db.docSeq, DocNumbers(db.docs), DOC_SERIES)
    && Gapless(db.docSeq, PayNumbers(db.pays), PAY_SERIES)
  }

  // ---- documents and payments -------------------------------------------------------------

  ghost predicate DocOk(db: Db, d: Doc) {
    && 0 < d.total && !d.status.Reversed?
    && (d.status.Draft? ==> d.number.None? && d.entry.None?)
    && (!d.status.Draft? ==>
          && !d.deleted && d.number.Some? && d.entry.Some?
          && d.entry.value in db.entries && db.entries[d.entry.value].stamp.Some?)
  }

  ghost predicate PayOk(db: Db, p: Pay) {
    && p.allocs != [] && AllocsPassCheck(p.allocs) && p.amount == AllocTotal(p.allocs) && !p.status.Reversed?
    && (p.status.Draft? ==> p.number.None? && p.entry.None?)
    && (!p.status.Draft? ==>
          && !p.deleted && p.number.Some? && p.entry.Some?
          && p.entry.value in db.entries && db.entries[p.entry.value].stamp.Some?)
  }

  ghost predicate DocumentsOk(db: Db) {
    && (forall d | d in db.docs :: DocOk(db, db.docs[d]))
    && (forall p | p in db.pays :: PayOk(db, db.pays[p]))
  }

  /** The ledger-wide invariant. */
  ghost predicate LedgerOk(db: Db) {
    JournalOk(db) && ReversalsOk(db) && YearsOk(db) && NumbersOk(db) && DocumentsOk(db)
  }

  // ---- one more posted entry -----------------------------------------------------------------

  lemma JournaledNumbers(db: Db, id: Id, content: Entry, fiscalYear: int, period: Id)
    requires Gapless(db.journalSeq, EntryNumbers(db.entries), YEARS)
    requires id !in db.entries || db.entries[id].stamp.None?
    ensures var b := Journaled(db, id, content, fiscalYear, period);
            Gapless(b.journalSeq, EntryNumbers(b.entries), YEARS)
  {
    hide Gapless, EntryNumbers;
    var n := Next(db.journalSeq, fiscalYear);
    StampedNumbers(db.entries, id, PostedAs(content, fiscalYear, period, n));
    IssueKeepsGapless(db.journalSeq, EntryNumbers(db.entries), YEARS, fiscalYear, id);
  }

  lemma StampedNumbers(entries: map<Id, Entry>, id: Id, e: Entry)
    requires (id !in entries || entries[id].stamp.None?) && e.stamp.Some?
    ensures id !in EntryNumbers(entries)
    ensures EntryNumbers(entries[id := e]) == EntryNumbers(entries)[id := (e.stamp.value.fiscalYear, e.stamp.value.number)]
  {
  }

  lemma RestampKeepsNumbers(a: map<Id, Entry>, b: map<Id, Entry>)
    requires a.Keys == b.Keys && forall i | i in a :: a[i].stamp == b[i].stamp
    ensures EntryNumbers(a) == EntryNumbers(b)
  {
  }

  // EntryOk looks at nothing but the chart, the period bounds and the configuration.
  lemma EntryOkFrame(a: Db, b: Db, e: Entry)
    requires EntryOk(a, e) && a.accounts == b.accounts && PeriodsGrow(a.periods, b.periods) && a.config == b.config
    ensures EntryOk(b, e)
  {
  }

  lemma JournalExtends(a: Db, b: Db)
    requires JournalOk(a) && a.accounts == b.accounts && PeriodsGrow(a.periods, b.periods) && a.config == b.config
    requires forall i | i in b.entries :: (i in a.entries && b.entries[i] == a.entries[i]) || EntryOk(a, b.entries[i])
    ensures JournalOk(b)
  {
    hide EntryOk;
    forall i | i in b.entries ensures EntryOk(b, b.entries[i]) {
      EntryOkFrame(a, b, b.entries[i]);
    }
  }

  /** The part of the invariant that concerns journal entries. */
  ghost predicate EntriesOk(db: Db) { JournalOk(db) && ReversalsOk(db) && YearsOk(db) }

  lemma JournaledOk(db: Db, id: Id, content: Entry, fiscalYear: int, period: Id)
    requires EntriesOk(db) && id !in db.entries && content.reversalOf.None?
    requires EntryOk(db, PostedAs(content, fiscalYear, period, Next(db.journalSeq, fiscalYear)))
    requires !content.status.Reversed?
    ensures EntriesOk(Journaled(db, id, content, fiscalYear, period))
  {
    hide EntryOk, JournalOk, ReversalsOk, YearsOk;
    var b := Journaled(db, id, content, fiscalYear, period);
    JournalExtends(db, b);
    ReversalsExtend(db, b, id);
    YearsExtend(db, b);
  }

  lemma ReversalsExtend(a: Db, b: Db, id: Id)
    requires ReversalsOk(a) && b.reversals == a.reversals && id !in a.entries && id in b.entries && b.entries == a.entries[id := b.entries[id]]
    requires b.entries[id].reversalOf.None? && !b.entries[id].status.Reversed?
    ensures ReversalsOk(b)
  {
    hide Swapped;
    forall o | o in b.reversals ensures Cancels(b, b.reversals[o], o) { assert Cancels(a, a.reversals[o], o); }
  }

  lemma PostOk(db: Db, id: Id, p: Posting)
    requires EntriesOk(db) && StillGoodPosting(db, p) && PostEffect(db, id, p).Some?
    ensures EntriesOk(PostEffect(db, id, p).value)
  {
    JournaledOk(db, id, PostedContent(p), p.fiscalYear, p.period);
  }

  lemma ReverseOk(db: Db, id: Id, r: Reversing)
    requires EntriesOk(db) && StillGoodReversal(db, r) && ReverseEffect(db, id, r).Some?
    ensures EntriesOk(ReverseEffect(db, id, r).value)
    ensures Cancels(ReverseEffect(db, id, r).value, id, r.original)
  {
    ReverseKeepsJournal(db, id, r);
    ReverseKeepsReversals(db, id, r);
    hide JournalOk, ReversalsOk, StillGoodReversal;
    ReverseGrows(db, id, r);
    ReverseTouches(db, id, r);
    YearsExtend(db, ReverseEffect(db, id, r).value);
  }

  lemma YearsExtend(a: Db, b: Db)
    requires YearsOk(a) && b.years == a.years && EntriesGrow(a.entries, b.entries)
    ensures YearsOk(b)
  {
  }

  lemma ReverseGrows(db: Db, id: Id, r: Reversing)
    requires ReverseEffect(db, id, r).Some?
    ensures EntriesGrow(db.entries, ReverseEffect(db, id, r).value.entries)
  {
  }

  lemma PostGrows(db: Db, id: Id, p: Posting)
    requires PostEffect(db, id, p).Some?
    ensures EntriesGrow(db.entries, PostEffect(db, id, p).value.entries)
  {
  }

  lemma ReverseKeepsJournal(db: Db, id: Id, r: Reversing)
    requires JournalOk(db) && StillGoodReversal(db, r) && ReverseEffect(db, id, r).Some?
    ensures JournalOk(ReverseEffect(db, id, r).value)
  {
    hide EntryOk, JournalOk, Swapped;
    ReversalEntryOk(db, id, r);
    MarkedOk(db, r.original);
    JournalExtends(db, ReverseEffect(db, id, r).value);
  }

  lemma ReverseKeepsReversals(db: Db, id: Id, r: Reversing)
    requires ReversalsOk(db) && StillGoodReversal(db, r) && ReverseEffect(db, id, r).Some?
    ensures ReversalsOk(ReverseEffect(db, id, r).value)
    ensures Cancels(ReverseEffect(db, id, r).value, id, r.original)
  {
    hide Swapped, ReverseEffect, StillGoodReversal;
    var b := ReverseEffect(db, id, r).value;
    ReverseRows(db, id, r);
    forall o | o in b.reversals ensures Cancels(b, b.reversals[o], o) {
      if o != r.original { assert Cancels(db, db.reversals[o], o); }
    }
    forall i | i in b.entries && b.entries[i].reversalOf.Some?
      ensures b.entries[i].reversalOf.value in b.reversals && b.reversals[b.entries[i].reversalOf.value] == i
    {
      if i != id { assert db.entries[i].reversalOf == b.entries[i].reversalOf; }
    }
  }

  // The rows a reversal writes.
  lemma ReverseRows(db: Db, id: Id, r: Reversing)
    requires StillGoodReversal(db, r) && ReverseEffect(db, id, r).Some?
    ensures var b, o := ReverseEffect(db, id, r).value, r.original;
      && o in db.entries && id !in db.entries && o !in db.reversals && b.reversals == db.reversals[o := id]
      && b.entries.Keys == db.entries.Keys + {id}
      && (forall i | i in db.entries && i != o :: b.entries[i] == db.entries[i])
      && b.entries[o] == db.entries[o].(status := Reversed)
      && b.entries[id].stamp.Some? && b.entries[id].reversalOf == Some(o) && b.entries[id].lines == Swapped(db.entries[o].lines)
      && b.entries[id].status.Posted?
  {
  }

  lemma ReversalEntryOk(db: Db, id: Id, r: Reversing)
    requires JournalOk(db) && StillGoodReversal(db, r) && LinesPassCheck(Swapped(r.lines))
    ensures forall n: nat :: EntryOk(db, PostedAs(ReversalContent(r), r.fiscalYear, r.period, n))
  {
    assert EntryOk(db, db.entries[r.original]);
    SwapBalanced(r.lines);
  }

  lemma MarkedOk(db: Db, o: Id)
    requires JournalOk(db) && o in db.entries && db.entries[o].stamp.Some?
    ensures EntryOk(db, db.entries[o].(status := Reversed))
  {
    assert EntryOk(db, db.entries[o]);
  }

  lemma ReverseNumbers(db: Db, id: Id, r: Reversing)
    requires Gapless(db.journalSeq, EntryNumbers(db.entries), YEARS)
    requires r.original in db.entries && ReverseEffect(db, id, r).Some?
    ensures var b := ReverseEffect(db, id, r).value;
            Gapless(b.journalSeq, EntryNumbers(b.entries), YEARS)
  {
    var d := Journaled(db, id, ReversalContent(r), r.fiscalYear, r.period);
    JournaledNumbers(db, id, ReversalContent(r), r.fiscalYear, r.period);
    RestampKeepsNumbers(d.entries, ReverseEffect(db, id, r).value.entries);
  }

  // ---- what gapless numbering means, row by row --------------------------------------------

  predicate Numbered(e: Entry, fiscalYear: int, n: nat) {
    e.stamp.Some? && e.stamp.value.fiscalYear == fiscalYear && e.stamp.value.number == n
  }

  predicate DocNumbered(d: Doc, kind: Kind, fiscalYear: int, n: nat) { d.kind == kind && d.number == Some((fiscalYear, n)) }

  predicate PayNumbered(p: Pay, kind: Kind, fiscalYear: int, n: nat) { p.kind == kind && p.number == Some((fiscalYear, n)) }

  /** Number n of a fiscal year is on some entry exactly when 1 <= n < next, and on one only. */
  ghost predicate EntryNumberExact(db: Db, fiscalYear: int, n: nat) {
    && (1 <= n < Next(db.journalSeq, fiscalYear) <==>
        exists e :: e in db.entries && Numbered(db.entries[e], fiscalYear, n))
    && (forall e, f | e in db.entries && f in db.entries
          && Numbered(db.entries[e], fiscalYear, n) && Numbered(db.entries[f], fiscalYear, n) :: e == f)
  }

  ghost predicate DocNumberExact(db: Db, kind: Kind, fiscalYear: int, n: nat) {
    && (1 <= n < Next(db.docSeq, (SeriesOfDoc(kind), fiscalYear)) <==>
        exists d :: d in db.docs && DocNumbered(db.docs[d], kind, fiscalYear, n))
    && (forall d, e | d in db.docs && e in db.docs
          && DocNumbered(db.docs[d], kind, fiscalYear, n) && DocNumbered(db.docs[e], kind, fiscalYear, n) :: d == e)
  }

  ghost predicate PayNumberExact(db: Db, kind: Kind, fiscalYear: int, n: nat) {
    && (1 <= n < Next(db.docSeq, (SeriesOfPay(kind), fiscalYear)) <==>
        exists p :: p in db.pays && PayNumbered(db.pays[p], kind, fiscalYear, n))
    && (forall p, q | p in db.pays && q in db.pays
          && PayNumbered(db.pays[p], kind, fiscalYear, n) && PayNumbered(db.pays[q], kind, fiscalYear, n) :: p == q)
  }

  lemma EntryNumbersExact(db: Db, fiscalYear: int, n: nat)
    requires NumbersOk(db)
    ensures EntryNumberExact(db, fiscalYear, n)
  {
    var used := EntryNumbers(db.entries);
    assert fiscalYear in YEARS;
    assert forall e | e in db.entries && Numbered(db.entries[e], fiscalYear, n) :: e in used && used[e] == (fiscalYear, n);
    if Taken(used, fiscalYear, n) {
      var e :| e in used && used[e] == (fiscalYear, n);
      assert Numbered(db.entries[e], fiscalYear, n);
    }
  }

  lemma DocNumbersExact(db: Db, kind: Kind, fiscalYear: int, n: nat)
    requires NumbersOk(db)
    ensures DocNumberExact(db, kind, fiscalYear, n)
  {
    var used, k := DocNumbers(db.docs), (SeriesOfDoc(kind), fiscalYear);
    assert k in DOC_SERIES;
    assert forall d | d in db.docs && DocNumbered(db.docs[d], kind, fiscalYear, n) :: d in used && used[d] == (k, n);
    if Taken(used, k, n) {
      var d :| d in used && used[d] == (k, n);
      assert DocNumbered(db.docs[d], kind, fiscalYear, n);
    }
  }

  lemma PayNumbersExact(db: Db, kind: Kind, fiscalYear: int, n: nat)
    requires NumbersOk(db)
    ensures PayNumberExact(db, kind, fiscalYear, n)
  {
    var used, k := PayNumbers(db.pays), (SeriesOfPay(kind), fiscalYear);
    assert k in PAY_SERIES;
    assert forall p | p in db.pays && PayNumbered(db.pays[p], kind, fiscalYear, n) :: p in used && used[p] == (k, n);
    if Taken(used, k, n) {
      var p :| p in used && used[p] == (k, n);
      assert PayNumbered(db.pays[p], kind, fiscalYear, n);
    }
  }
}
