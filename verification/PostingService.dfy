/** The posting services as they update the database, call by call.  A write transaction that
throws leaves the database as it was.  Each service method is proved against the atomic effect
of its operation and keeps the ledger in order. */
module PostingService {
  import opened Options
  import opened Ledger
  import opened Statements
  import opened Operations
  import opened Preparation
  import opened Invariants
  import opened Preservation
  import AssertBalanced
  import Money

  /** Documents as DECIMAL(20,4) columns can hold them. */
  predicate DocsFit(docs: map<Id, Doc>) {
    forall d | d in docs :: 0 <= docs[d].paid < Money.LIMIT && 0 <= docs[d].total < Money.LIMIT
  }

  /** exceedsOutstanding in Money arithmetic. */
  function RoundedExceeds(total: Amount, paid: Amount, amount: Amount): bool {
    Money.Subtract(Money.Subtract(total, paid), amount) < 0
  }

  /** On values the columns can hold, the rounded over-allocation test is the exact one. */
  lemma ExceedsIsExact(total: Amount, paid: Amount, amount: Amount)
    requires 0 <= paid < Money.LIMIT && 0 <= total < Money.LIMIT
    ensures RoundedExceeds(total, paid, amount) <==> ExceedsOutstanding(total, paid, amount)
  {
    hide Money.Sig20;
    Money.AddExactIff(total, -paid);
    Money.SigSign(total - paid - amount);
  }

  /** What a method that carries out `op` promises: all of its effect, or nothing. */
  ghost predicate AllOrNothing(op: Op, before: Db, ok: bool, after: Db) {
    && (ok <==> Effect(op, before).Some?)
    && after == (if ok then Effect(op, before).value else before)
  }

  /** So a ledger in order stays in order. */
  lemma StaysInOrder(op: Op, before: Db, ok: bool, after: Db)
    requires AllOrNothing(op, before, ok, after) && LedgerOk(before) && StillGood(before, op)
    ensures LedgerOk(after) && Grows(before, after)
  {
    hide LedgerOk, StillGood, Effect;
    if ok { EffectKeepsLedger(op, before); }
  }

  class Store {
    var db: Db

    constructor (initial: Db)
      ensures db == initial
    {
      db := initial;
    }

    // ---- sequences --------------------------------------------------------------------

    /** nextSequenceNumber on journal_sequences: insert if absent, read, increment. */
    method NextEntryNumber(fiscalYear: int) returns (n: nat)
      modifies this
      ensures n == Next(old(db).journalSeq, fiscalYear)
      ensures db == old(db).(journalSeq := old(db).journalSeq[fiscalYear := n + 1])
    {
      if fiscalYear !in db.journalSeq { db := db.(journalSeq := db.journalSeq[fiscalYear := 1]); }
      n := db.journalSeq[fiscalYear];
      db := db.(journalSeq := db.journalSeq[fiscalYear := n + 1]);
      assert db.journalSeq == old(db).journalSeq[fiscalYear := n + 1];
    }

    /** nextSequenceNumber on document_sequences. */
    method NextDocNumber(series: Series, fiscalYear: int) returns (n: nat)
      modifies this
      ensures n == Next(old(db).docSeq, (series, fiscalYear))
      ensures db == WithDocNo(old(db), series, fiscalYear)
    {
      var k := (series, fiscalYear);
      if k !in db.docSeq { db := db.(docSeq := db.docSeq[k := 1]); }
      n := db.docSeq[k];
      db := db.(docSeq := db.docSeq[k := n + 1]);
      assert db.docSeq == old(db).docSeq[k := n + 1];
    }

    // ---- posting ------------------------------------------------------------------------

    /** preparePosting: nothing is written; a token is handed out exactly when every check passes.
        With segregation of duties nobody posts a manual entry of their own. */
    method PreparePosting(date: Day, source: Source, lines: seq<Line>, segregated: bool, createdBy: Id, postedBy: Id)
      returns (r: Option<Posting>)
      ensures r.Some? <==>
        && AssertBalanced.Accepts(lines) && !(segregated && source == Manual && createdBy == postedBy)
        && (exists period :: period in db.periods && db.periods[period].start <= date <= db.periods[period].end && db.periods[period].open)
        && !(FiscalYear(db, date) in db.years && db.years[FiscalYear(db, date)].closed)
        && forall i | 0 <= i < |lines| ::
             var a := lines[i].account;
             a in db.accounts && !db.accounts[a].deleted && db.accounts[a].postable && db.accounts[a].active
      ensures r.Some? ==>
        && r.value.date == date && r.value.source == source && r.value.lines == lines && r.value.fiscalYear == FiscalYear(db, date)
        && r.value.period in db.periods && db.periods[r.value.period].start <= date <= db.periods[r.value.period].end
        && db.periods[r.value.period].open
      ensures r.Some? && AssertBalanced.InRange(lines) ==> PreparesPosting(db, r.value)
    {
      var balanced := AssertBalanced.Check(lines);
      if !balanced { return None; }
      if segregated && source.Manual? && postedBy == createdBy { return None; }
      var fiscalYear := FiscalYear(db, date);
      if period :| period in db.periods && DateResolves(db, date, fiscalYear, period) {
        if YearClosed(db, fiscalYear) { return None; }
        for i := 0 to |lines|
          invariant Postable(db, lines[..i])
        {
          var a := lines[i].account;
          if a !in db.accounts || db.accounts[a].deleted || !db.accounts[a].postable || !db.accounts[a].active {
            assert !Postable(db, lines);
            return None;
          }
        }
        assert lines[..|lines|] == lines;
        return Some(Posting(date, source, lines, fiscalYear, period));
      }
      return None;
    }

    /** prepareReversal, by default on the original's own date: a token exactly for a posted entry,
        an open period and, unless closed years are allowed, an open fiscal year. */
    method PrepareReversal(original: Id, date: Option<Day>, allowClosedYear: bool) returns (r: Option<Reversing>)
      ensures r.Some? <==>
        && original in db.entries && db.entries[original].status == Posted
        && var day := if date.Some? then date.value else db.entries[original].date;
        && (exists period :: period in db.periods && db.periods[period].start <= day <= db.periods[period].end && db.periods[period].open)
        && (allowClosedYear || !(FiscalYear(db, day) in db.years && db.years[FiscalYear(db, day)].closed))
      ensures r.Some? ==>
        && r.value.original == original && r.value.lines == db.entries[original].lines
        && r.value.date == (if date.Some? then date.value else db.entries[original].date)
        && r.value.allowClosedYear == allowClosedYear && PreparesReversal(db, r.value)
    {
      if original !in db.entries || !db.entries[original].status.Posted? { return None; }
      var day := if date.Some? then date.value else db.entries[original].date;
      var fiscalYear := FiscalYear(db, day);
      if period :| period in db.periods && DateResolves(db, day, fiscalYear, period) {
        if !allowClosedYear && YearClosed(db, fiscalYear) { return None; }
        return Some(Reversing(original, db.entries[original].lines, day, fiscalYear, period, allowClosedYear));
      }
      return None;
    }

    /** assertPostablePeriodInTx */
    method AssertPostablePeriodInTx(fiscalYear: int, period: Id, allowClosedYear: bool) returns (ok: bool)
      ensures ok <==> PostableIn(db, fiscalYear, period, allowClosedYear)
    {
      if !allowClosedYear {
        if fiscalYear in db.years && db.years[fiscalYear].closed { return false; }
      }
      return period in db.periods && db.periods[period].open;
    }

    /** stampPostedInTx */
    method StampPostedInTx(fiscalYear: int, period: Id, allowClosedYear: bool) returns (ok: bool, n: nat)
      modifies this
      ensures ok <==> PostableIn(old(db), fiscalYear, period, allowClosedYear)
      ensures ok ==> n == Next(old(db).journalSeq, fiscalYear)
      ensures ok ==> db == old(db).(journalSeq := old(db).journalSeq[fiscalYear := n + 1])
    {
      n := 0;
      ok := AssertPostablePeriodInTx(fiscalYear, period, allowClosedYear);
      if ok { n := NextEntryNumber(fiscalYear); }
    }

    /** createPostedEntryInTx */
    method CreatePostedEntryInTx(id: Id, p: Posting) returns (ok: bool)
      modifies this
      ensures ok <==> PostEffect(old(db), id, p).Some?
      ensures ok ==> db == PostEffect(old(db), id, p).value
    {
      var n;
      ok, n := StampPostedInTx(p.fiscalYear, p.period, false);
      if !ok { return; }
      if id in db.entries || !LinesPassCheck(p.lines) { return false; }
      db := db.(entries := db.entries[id := PostedAs(PostedContent(p), p.fiscalYear, p.period, n)]);
    }

    /** reverseInTx: the unique index on reversal_of_id refuses a second reversal. */
    method ReverseInTx(id: Id, r: Reversing) returns (ok: bool)
      modifies this
      ensures ok <==> ReverseEffect(old(db), id, r).Some?
      ensures ok ==> db == ReverseEffect(old(db), id, r).value
    {
      var n;
      ok, n := StampPostedInTx(r.fiscalYear, r.period, r.allowClosedYear);
      if !ok { return; }
      if id in db.entries || !LinesPassCheck(Swapped(r.lines)) || r.original in db.reversals { return false; }
      db := db.(entries := db.entries[id := PostedAs(ReversalContent(r), r.fiscalYear, r.period, n)],
                reversals := db.reversals[r.original := id]);
      if r.original !in db.entries { return false; }
      db := db.(entries := db.entries[r.original := db.entries[r.original].(status := Reversed)]);
    }

    /** post */
    method Post(id: Id, p: Posting) returns (ok: bool)
      modifies this
      ensures AllOrNothing(PostEntry(id, p), old(db), ok, db)
    {
      var before := db;
      ok := CreatePostedEntryInTx(id, p);
      if !ok { db := before; }
    }

    /** reverse */
    method Reverse(id: Id, r: Reversing) returns (ok: bool)
      modifies this
      ensures AllOrNothing(ReverseEntry(id, r), old(db), ok, db)
    {
      var before := db;
      ok := ReverseInTx(id, r);
      if !ok { db := before; }
    }

    /** postDraft, phase two: the status is re-checked before a number is drawn. */
    method PostDraft(id: Id, p: Posting) returns (ok: bool)
      modifies this
      ensures AllOrNothing(Op.PostDraft(id, p), old(db), ok, db)
    {
      var before := db;
      if id !in db.entries || db.entries[id].deleted || !db.entries[id].status.Draft? { return false; }
      var n;
      ok, n := StampPostedInTx(p.fiscalYear, p.period, false);
      if !ok { db := before; return; }
      db := db.(entries := db.entries[id := PostedAs(db.entries[id], p.fiscalYear, p.period, n)]);
    }

    // ---- documents ------------------------------------------------------------------------

    /** document-posting post: lock the draft, draw its number, write the entry, finalize. */
    method PostDocument(id: Id, d: Id, kind: Kind, total: Amount, p: Posting) returns (ok: bool)
      modifies this
      ensures AllOrNothing(PostDoc(id, d, kind, total, p), old(db), ok, db)
    {
      hide PostEffect;
      var before := db;
      if d !in db.docs || db.docs[d].deleted || !db.docs[d].status.Draft? { return false; }
      var n := NextDocNumber(SeriesOfDoc(kind), p.fiscalYear);
      ghost var numbered := db;
      ok := CreatePostedEntryInTx(id, p);
      PostKeepsDocs(numbered, id, p);
      if !ok { db := before; return; }
      db := db.(docs := db.docs[d := db.docs[d].(status := Posted, total := total, number := Some((p.fiscalYear, n)), entry := Some(id))]);
    }

    /** void of a document: reverseWithGuard with lockForVoid and markVoid. */
    method VoidDocument(id: Id, d: Id, r: Reversing) returns (ok: bool)
      modifies this
      ensures AllOrNothing(Op.VoidDocument(id, d, r), old(db), ok, db)
    {
      hide ReverseEffect;
      var before := db;
      if d !in db.docs || db.docs[d].deleted || !db.docs[d].status.Posted? { return false; }
      if db.docs[d].paid != 0 { return false; }
      db := db.(docs := db.docs[d := db.docs[d].(status := Void)]);
      ok := ReverseInTx(id, r);
      if !ok { db := before; }
    }

    // ---- payments -----------------------------------------------------------------------------

    /** settleInTx */
    method SettleInTx(kind: Kind, partner: Id, a: Alloc) returns (ok: bool)
      requires DocsFit(db.docs) && 0 < a.amount
      modifies this
      ensures db == old(db).(docs := db.docs) && DocsFit(db.docs)
      ensures SettleAll(old(db).docs, kind, partner, [a]) == if ok then Some(db.docs) else None
    {
      assert [a][1..] == [];
      if a.doc !in db.docs || db.docs[a.doc].deleted || db.docs[a.doc].kind != kind { return false; }
      var row := db.docs[a.doc];
      if !row.status.Posted? || row.partner != partner { return false; }
      ExceedsIsExact(row.total, row.paid, a.amount);
      if RoundedExceeds(row.total, row.paid, a.amount) { return false; }
      db := db.(docs := db.docs[a.doc := row.(paid := row.paid + a.amount)]);
      return true;
    }

    /** unwindInTx */
    method UnwindInTx(kind: Kind, a: Alloc) returns (ok: bool)
      modifies this
      ensures db == old(db).(docs := db.docs)
      ensures UnwindAll(old(db).docs, kind, [a]) == if ok then Some(db.docs) else None
    {
      assert [a][1..] == [];
      if a.doc !in db.docs || db.docs[a.doc].deleted || db.docs[a.doc].kind != kind { return false; }
      Money.SigSign(db.docs[a.doc].paid - a.amount);
      if Money.Subtract(db.docs[a.doc].paid, a.amount) < 0 { return false; }
      db := db.(docs := db.docs[a.doc := db.docs[a.doc].(paid := db.docs[a.doc].paid - a.amount)]);
      return true;
    }

    /** post of a payment: lock it, settle each allocation in turn, number it, write the entry. */
    method PostPayment(id: Id, pay: Id, row: Pay, p: Posting) returns (ok: bool)
      requires DocsFit(db.docs) && AllocsPassCheck(row.allocs)
      modifies this
      ensures AllOrNothing(PostPay(id, pay, row, p), old(db), ok, db)
    {
      hide PostEffect, SettleAll;
      var before := db;
      if pay !in db.pays || db.pays[pay].deleted || !db.pays[pay].status.Draft? { return false; }
      var i := 0;
      while i < |row.allocs|
        invariant 0 <= i <= |row.allocs| && db == before.(docs := db.docs) && DocsFit(db.docs)
        invariant SettleAll(before.docs, row.kind, row.partner, row.allocs)
               == SettleAll(db.docs, row.kind, row.partner, row.allocs[i..])
      {
        ghost var docs := db.docs;
        ok := SettleInTx(row.kind, row.partner, row.allocs[i]);
        SettleFirst(docs, row.kind, row.partner, row.allocs[i..]);
        assert row.allocs[i..][1..] == row.allocs[i + 1..];
        if !ok { db := before; return; }
        i := i + 1;
      }
      SettleNone(db.docs, row.kind, row.partner, row.allocs[i..]);
      var n := NextDocNumber(SeriesOfPay(row.kind), p.fiscalYear);
      ghost var numbered := db;
      ok := CreatePostedEntryInTx(id, p);
      PostKeepsDocs(numbered, id, p);
      if !ok { db := before; return; }
      db := db.(pays := db.pays[pay := db.pays[pay].(status := Posted, number := Some((p.fiscalYear, n)), entry := Some(id))]);
    }

    /** void of a payment: unwind each allocation in turn, mark it void, reverse its entry. */
    method VoidPayment(id: Id, pay: Id, row: Pay, r: Reversing) returns (ok: bool)
      modifies this
      ensures AllOrNothing(Op.VoidPayment(id, pay, row, r), old(db), ok, db)
    {
      hide ReverseEffect, UnwindAll;
      var before := db;
      if pay !in db.pays || db.pays[pay].deleted || !db.pays[pay].status.Posted? { return false; }
      var i := 0;
      while i < |row.allocs|
        invariant 0 <= i <= |row.allocs| && db == before.(docs := db.docs)
        invariant UnwindAll(before.docs, row.kind, row.allocs) == UnwindAll(db.docs, row.kind, row.allocs[i..])
      {
        ghost var docs := db.docs;
        ok := UnwindInTx(row.kind, row.allocs[i]);
        UnwindFirst(docs, row.kind, row.allocs[i..]);
        assert row.allocs[i..][1..] == row.allocs[i + 1..];
        if !ok { db := before; return; }
        i := i + 1;
      }
      UnwindNone(db.docs, row.kind, row.allocs[i..]);
      db := db.(pays := db.pays[pay := db.pays[pay].(status := Void)]);
      ok := ReverseInTx(id, r);
      if !ok { db := before; }
    }

    // ---- closing a year ---------------------------------------------------------------------------

    /** close, phase two: re-check under the lock, post the closing entry, upsert the year. */
    method CloseYear(id: Id, y: int, netIncome: Amount, p: Posting) returns (ok: bool)
      modifies this
      ensures AllOrNothing(Op.CloseYear(id, y, netIncome, p), old(db), ok, db)
    {
      hide PostEffect;
      var before := db;
      if y in db.years && db.years[y].closed { return false; }
      ok := CreatePostedEntryInTx(id, p);
      if !ok { db := before; return; }
      db := db.(years := db.years[y := YearEnd(true, Some(id), netIncome)]);
    }

    /** reopen, phase two: re-check under the lock, reverse the closing entry, mark the year open. */
    method ReopenYear(id: Id, y: int, r: Reversing) returns (ok: bool)
      modifies this
      ensures AllOrNothing(ReopenClosedYear(id, y, r), old(db), ok, db)
    {
      var before := db;
      if !(y in db.years && db.years[y].closed) { return false; }
      ok := ReverseInTx(id, r);
      if !ok { db := before; return; }
      db := db.(years := db.years[y := db.years[y].(closed := false)]);
    }
  }

  lemma SettleFirst(docs: map<Id, Doc>, kind: Kind, partner: Id, allocs: seq<Alloc>)
    requires allocs != []
    ensures SettleAll(docs, kind, partner, allocs)
         == match SettleAll(docs, kind, partner, [allocs[0]])
            case None => None
            case Some(d) => SettleAll(d, kind, partner, allocs[1..])
  {
    assert [allocs[0]][1..] == [];
  }

  lemma SettleNone(docs: map<Id, Doc>, kind: Kind, partner: Id, allocs: seq<Alloc>)
    requires allocs == []
    ensures SettleAll(docs, kind, partner, allocs) == Some(docs)
  {
  }

  lemma UnwindFirst(docs: map<Id, Doc>, kind: Kind, allocs: seq<Alloc>)
    requires allocs != []
    ensures UnwindAll(docs, kind, allocs)
         == match UnwindAll(docs, kind, [allocs[0]])
            case None => None
            case Some(d) => UnwindAll(d, kind, allocs[1..])
  {
    assert [allocs[0]][1..] == [];
  }

  lemma UnwindNone(docs: map<Id, Doc>, kind: Kind, allocs: seq<Alloc>)
    requires allocs == []
    ensures UnwindAll(docs, kind, allocs) == Some(docs)
  {
  }
}
