/** The AR and AP control accounts of the ledger against the subledger of documents and
payments. */
module ControlAccounts {
  import opened Ledger
  import opened Sums
  import opened Statements
  import opened Operations
  import opened Preparation
  import opened Invariants
  import opened Preservation
  import opened Protocol
  import opened Subledger
  import opened ControlSide
  import Tax

  // ---- runs in which only documents and payments touch the control accounts ----------------

  predicate CashAccount(c: Config, a: Id) { a != c.receivable && a != c.payable }

  /** Nothing but posting and voiding documents and payments touches a control account, and
      their item, tax and cash accounts are none. */
  ghost predicate Clean(db: Db, op: Op) {
    match op
    case PostEntry(_, p) => Avoids(db.config, p.lines)
    case PostDraft(_, p) => Avoids(db.config, p.lines)
    case CloseYear(_, _, _, p) => Avoids(db.config, p.lines)
    case ReverseEntry(_, r) => Avoids(db.config, r.lines)
    case ReopenClosedYear(_, _, r) => Avoids(db.config, r.lines)
    case PostDoc(_, _, _, _, p) => Avoids(db.config, Tax.ItemLines(p.lines))
    case PostPay(_, _, row, _) => CashAccount(db.config, row.cash)
    case _ => true
  }

  // ---- the two sides ---------------------------------------------------------------------------

  /** A posted document counts from the date of its journal entry. */
  predicate Booked(entries: map<Id, Entry>, d: Doc, w: Window) {
    d.entry.Some? && d.entry.value in entries && InWindow(w, entries[d.entry.value].date)
  }

  function BilledAt(entries: map<Id, Entry>, d: Doc, kind: Kind, w: Window): Amount {
    if d.status.Posted? && d.kind == kind && Booked(entries, d, w) then d.total else 0
  }

  function CollectedAt(p: Pay, kind: Kind, w: Window): Amount {
    if p.status.Posted? && p.kind == kind && InWindow(w, p.date) then p.amount else 0
  }

  ghost function BilledFn(entries: map<Id, Entry>, docs: map<Id, Doc>, kind: Kind, w: Window): nat -> int {
    (d: nat) => if d in docs then BilledAt(entries, docs[d], kind, w) else 0
  }

  ghost function CollectedFn(pays: map<Id, Pay>, kind: Kind, w: Window): nat -> int {
    (p: nat) => if p in pays then CollectedAt(pays[p], kind, w) else 0
  }

  ghost function Billed(entries: map<Id, Entry>, docs: map<Id, Doc>, kind: Kind, w: Window): Amount {
    SumOver(docs.Keys, BilledFn(entries, docs, kind, w))
  }

  ghost function Collected(pays: map<Id, Pay>, kind: Kind, w: Window): Amount { SumOver(pays.Keys, CollectedFn(pays, kind, w)) }

  /** Balance of a control account, positive on its natural side. */
  ghost function ControlBalance(db: Db, kind: Kind, w: Window): Amount {
    Sign(kind) * Balance(db.entries, Control(db.config, kind), w)
  }

  /** Posted documents and payments carry the journal entry they were posted with. */
  ghost predicate DocLinked(db: Db, d: Doc) {
    d.status.Posted? ==>
      && d.entry.Some? && d.entry.value in db.entries
      && Settles(db.config, d.kind, d.total, db.entries[d.entry.value].lines)
  }

  ghost predicate PayLinked(db: Db, p: Pay) {
    p.status.Posted? ==>
      && p.entry.Some? && p.entry.value in db.entries && CashAccount(db.config, p.cash)
      && db.entries[p.entry.value].lines == PaymentLines(db.config, p) && db.entries[p.entry.value].date == p.date
  }

  ghost predicate ControlOk(db: Db) {
    && db.config.receivable != db.config.payable
    && (forall d | d in db.docs :: DocLinked(db, db.docs[d]))
    && (forall p | p in db.pays :: PayLinked(db, db.pays[p]))
    && (forall kind, w :: ControlBalance(db, kind, w) == Billed(db.entries, db.docs, kind, w) - Collected(db.pays, kind, w))
  }

  // ---- how the two sides move --------------------------------------------------------------------

  lemma BilledChange(entries: map<Id, Entry>, docs: map<Id, Doc>, d: Id, after: Doc, kind: Kind, w: Window)
    ensures Billed(entries, docs[d := after], kind, w)
         == Billed(entries, docs, kind, w) - (if d in docs then BilledAt(entries, docs[d], kind, w) else 0) + BilledAt(entries, after, kind, w)
  {
    var b := docs[d := after];
    var f, g := BilledFn(entries, docs, kind, w), BilledFn(entries, b, kind, w);
    if d in docs {
      assert b.Keys == docs.Keys;
      SumChange(docs.Keys, f, g, d);
    } else {
      assert b.Keys == docs.Keys + {d};
      SumInsert(docs.Keys, g, d);
      SumCong(docs.Keys, f, g);
    }
  }

  // Entries keep their dates, so what is billed does not move while documents stay as they are.
  lemma BilledGrows(a: map<Id, Entry>, b: map<Id, Entry>, docs: map<Id, Doc>, kind: Kind, w: Window)
    requires EntriesGrow(a, b)
    requires forall d | d in docs && docs[d].status.Posted? :: docs[d].entry.Some? && docs[d].entry.value in a
    ensures Billed(b, docs, kind, w) == Billed(a, docs, kind, w)
  {
    SumCong(docs.Keys, BilledFn(a, docs, kind, w), BilledFn(b, docs, kind, w));
  }

  lemma CollectedChange(pays: map<Id, Pay>, p: Id, after: Pay, kind: Kind, w: Window)
    ensures Collected(pays[p := after], kind, w)
         == Collected(pays, kind, w) - (if p in pays then CollectedAt(pays[p], kind, w) else 0) + CollectedAt(after, kind, w)
  {
    var b := pays[p := after];
    var f, g := CollectedFn(pays, kind, w), CollectedFn(b, kind, w);
    if p in pays {
      assert b.Keys == pays.Keys;
      SumChange(pays.Keys, f, g, p);
    } else {
      assert b.Keys == pays.Keys + {p};
      SumInsert(pays.Keys, g, p);
      SumCong(pays.Keys, f, g);
    }
  }

  lemma BilledSame(entries: map<Id, Entry>, a: map<Id, Doc>, b: map<Id, Doc>, kind: Kind, w: Window)
    requires OnlyPaidDiffers(a, b)
    ensures Billed(entries, a, kind, w) == Billed(entries, b, kind, w)
  {
    SumCong(a.Keys, BilledFn(entries, a, kind, w), BilledFn(entries, b, kind, w));
  }

  ghost function At(w: Window, date: Day, n: Amount): Amount { if InWindow(w, date) then n else 0 }

  lemma PostMovesBalance(db: Db, id: Id, p: Posting, accounts: iset<Id>, w: Window)
    requires PostEffect(db, id, p).Some?
    ensures Balance(PostEffect(db, id, p).value.entries, accounts, w)
         == Balance(db.entries, accounts, w) + At(w, p.date, Net(p.lines, accounts))
  {
    BalanceInsert(db.entries, id, PostEffect(db, id, p).value.entries[id], accounts, w);
  }

  lemma ReverseMovesBalance(db: Db, id: Id, r: Reversing, accounts: iset<Id>, w: Window)
    requires ReverseEffect(db, id, r).Some? && r.original in db.entries
    ensures Balance(ReverseEffect(db, id, r).value.entries, accounts, w)
         == Balance(db.entries, accounts, w) - At(w, r.date, Net(r.lines, accounts))
  {
    var d := Journaled(db, id, ReversalContent(r), r.fiscalYear, r.period);
    BalanceInsert(db.entries, id, d.entries[id], accounts, w);
    BalanceUpdate(d.entries, r.original, d.entries[r.original].(status := Reversed), accounts, w);
    SwapNets(r.lines, accounts);
  }

  lemma DraftMovesBalance(op: Op, db: Db, accounts: iset<Id>, w: Window)
    requires JournalingOf(op).Drafts? && JournalOk(db) && Effect(op, db).Some?
    requires op.PostDraft? ==> op.posting.lines == db.entries[op.entry].lines && op.posting.date == db.entries[op.entry].date
    ensures Balance(Effect(op, db).value.entries, accounts, w)
         == Balance(db.entries, accounts, w) + (if op.PostDraft? then At(w, op.posting.date, Net(op.posting.lines, accounts)) else 0)
  {
    var b := Effect(op, db).value;
    match op {
      case CreateDraft(id, _) => BalanceInsert(db.entries, id, b.entries[id], accounts, w);
      case PostDraft(id, _) =>
        assert EntryOk(db, db.entries[id]);
        BalanceUpdate(db.entries, id, b.entries[id], accounts, w);
      case RemoveDraft(id) =>
        assert EntryOk(db, db.entries[id]);
        BalanceUpdate(db.entries, id, b.entries[id], accounts, w);
    }
  }

  /** A receipt's lines take its amount from the receivable to the cash account, a disbursement's
      from the cash to the payable account, and move nothing else. */
  lemma PaymentMoves(c: Config, p: Pay, accounts: iset<Id>)
    ensures |PaymentLines(c, p)| == 2
    ensures p.kind == Receivable ==>
      Net(PaymentLines(c, p), accounts) == (if p.cash in accounts then p.amount else 0) - (if c.receivable in accounts then p.amount else 0)
    ensures p.kind == Payable ==>
      Net(PaymentLines(c, p), accounts) == (if c.payable in accounts then p.amount else 0) - (if p.cash in accounts then p.amount else 0)
  {
    PairNet(PaymentLines(c, p)[0], PaymentLines(c, p)[1], accounts);
  }

  lemma PaymentNet(c: Config, p: Pay, kind: Kind)
    requires CashAccount(c, p.cash) && c.receivable != c.payable
    ensures Sign(kind) * Net(PaymentLines(c, p), Control(c, kind)) == if p.kind == kind then -p.amount else 0
  {
    PairNet(PaymentLines(c, p)[0], PaymentLines(c, p)[1], Control(c, kind));
  }

  lemma PairNet(a: Line, b: Line, accounts: iset<Id>)
    ensures Net([a, b], accounts)
         == (if a.account in accounts then a.debit - a.credit else 0) + (if b.account in accounts then b.debit - b.credit else 0)
  {
    assert [a, b][..1] == [a] && [a][..0] == [];
    assert Debits([a], accounts) == if a.account in accounts then a.debit else 0;
    assert Credits([a], accounts) == if a.account in accounts then a.credit else 0;
  }

  // ---- every clean operation keeps them equal ------------------------------------------------------

  /** How much an operation moves the balance of a set of accounts within a window. */
  ghost function Move(op: Op, accounts: iset<Id>, w: Window): Amount {
    match JournalingOf(op)
    case Untouched => 0
    case Posts(_, p) => At(w, p.date, Net(p.lines, accounts))
    case Reverses(_, r) => -At(w, r.date, Net(r.lines, accounts))
    case Drafts => if op.PostDraft? then At(w, op.posting.date, Net(op.posting.lines, accounts)) else 0
  }

  lemma EffectMovesBalance(op: Op, db: Db, accounts: iset<Id>, w: Window)
    requires JournalOk(db) && StillGood(db, op) && Effect(op, db).Some?
    ensures Balance(Effect(op, db).value.entries, accounts, w) == Balance(db.entries, accounts, w) + Move(op, accounts, w)
  {
    hide PostEffect, ReverseEffect, Balance, JournalOk, Net;
    DocumentShape(op, db);
    match JournalingOf(op) {
      case Posts(id, p) => PostMovesBalance(db, id, p, accounts, w);
      case Reverses(id, r) => ReverseMovesBalance(db, id, r, accounts, w);
      case Drafts => DraftMovesBalance(op, db, accounts, w);
      case Untouched =>
    }
  }

  ghost function ControlMove(op: Op, c: Config, kind: Kind, w: Window): Amount { Sign(kind) * Move(op, Control(c, kind), w) }

  lemma CleanOpsMoveNothing(op: Op, db: Db, kind: Kind, w: Window)
    requires Clean(db, op) && !MovesDocuments(op)
    ensures ControlMove(op, db.config, kind, w) == 0
  {
    match JournalingOf(op) {
      case Posts(_, p) => AvoidedNet(db.config, p.lines, kind);
      case Reverses(_, r) => AvoidedNet(db.config, r.lines, kind);
      case Drafts => if op.PostDraft? { AvoidedNet(db.config, op.posting.lines, kind); }
      case Untouched =>
    }
  }

  /** Posted documents name an entry that exists. */
  predicate EntriesThere(db: Db) {
    forall d | d in db.docs && db.docs[d].status.Posted? :: db.docs[d].entry.Some? && db.docs[d].entry.value in db.entries
  }

  lemma DocumentMoves(op: Op, db: Db, kind: Kind, w: Window)
    requires op.PostDoc? || op.VoidDocument?
    requires ControlOk(db) && JournalOk(db) && StillGood(db, op) && Clean(db, op) && Effect(op, db).Some?
    ensures var b := Effect(op, db).value;
            ControlMove(op, db.config, kind, w) == Billed(b.entries, b.docs, kind, w) - Billed(db.entries, db.docs, kind, w) && b.pays == db.pays
  {
    hide Billed, Settles, Effect, JournalShape, Net, StillGood, Clean, ControlOk, JournalOk, EntriesThere;
    var b := Effect(op, db).value;
    DocumentShape(op, db);
    EffectGrowsEntries(op, db);
    LinkedThere(db);
    BilledGrowsIn(db, b, kind, w);
    BilledChange(b.entries, db.docs, op.doc, b.docs[op.doc], kind, w);
    if op.PostDoc? {
      PostDocSettles(op, db);
      PostedEntryContent(op, db);
      SettledNet(db.config, op.kind, op.total, op.posting.lines, kind);
    } else {
      VoidDocSettles(op, db);
      SettledNet(db.config, db.docs[op.doc].kind, db.docs[op.doc].total, op.reversal.lines, kind);
    }
  }

  lemma LinkedThere(db: Db)
    requires ControlOk(db)
    ensures EntriesThere(db)
  {
    hide Settles, ControlBalance;
    assert forall d | d in db.docs :: DocLinked(db, db.docs[d]);
  }

  lemma BilledGrowsIn(db: Db, b: Db, kind: Kind, w: Window)
    requires EntriesGrow(db.entries, b.entries) && EntriesThere(db)
    ensures Billed(b.entries, db.docs, kind, w) == Billed(db.entries, db.docs, kind, w)
  {
    BilledGrows(db.entries, b.entries, db.docs, kind, w);
  }

  lemma PostDocSettles(op: Op, db: Db)
    requires op.PostDoc? && StillGood(db, op) && Clean(db, op) && ControlOk(db)
    ensures Settles(db.config, op.kind, op.total, op.posting.lines)
    ensures op.doc in db.docs && db.docs[op.doc].kind == op.kind
  {
    hide Settles, StillGoodPosting, Tax.Invoiced, ControlBalance, DocLinked, PayLinked;
    Tax.InvoicedSettles(db.config, op.kind, op.total, op.posting.lines);
  }

  lemma VoidDocSettles(op: Op, db: Db)
    requires op.VoidDocument? && op.doc in db.docs && db.docs[op.doc].status.Posted?
    requires ControlOk(db) && JournalOk(db) && StillGood(db, op) && Effect(op, db).Some?
    ensures Settles(db.config, db.docs[op.doc].kind, db.docs[op.doc].total, op.reversal.lines)
    ensures db.docs[op.doc].entry.Some? && db.docs[op.doc].entry.value in Effect(op, db).value.entries
    ensures op.reversal.date == Effect(op, db).value.entries[db.docs[op.doc].entry.value].date
  {
    hide Settles, Effect, JournalOk, ControlBalance;
    assert DocLinked(db, db.docs[op.doc]);
    EffectGrowsEntries(op, db);
  }

  lemma PaymentsBillNothing(op: Op, db: Db, kind: Kind, w: Window)
    requires (op.PostPay? || op.VoidPayment?) && Effect(op, db).Some? && JournalOk(db) && EntriesThere(db)
    ensures var b := Effect(op, db).value; Billed(b.entries, b.docs, kind, w) == Billed(db.entries, db.docs, kind, w)
  {
    hide Billed, SettleAll, UnwindAll, Effect, JournalShape, OnlyPaidDiffers, JournalOk, EntriesThere;
    var b := Effect(op, db).value;
    DocumentShape(op, db);
    if op.PostPay? {
      SettleTouchesPaid(db.docs, op.payment.kind, op.payment.partner, op.payment.allocs);
    } else {
      UnwindTouchesPaid(db.docs, op.payment.kind, op.payment.allocs);
    }
    EffectGrowsEntries(op, db);
    BilledGrowsIn(db, b, kind, w);
    BilledSame(b.entries, db.docs, b.docs, kind, w);
  }

  lemma PostPayMoves(op: Op, db: Db, kind: Kind, w: Window)
    requires op.PostPay? && db.config.receivable != db.config.payable
    requires StillGood(db, op) && Clean(db, op) && Effect(op, db).Some?
    ensures ControlMove(op, db.config, kind, w) == Collected(db.pays, kind, w) - Collected(Effect(op, db).value.pays, kind, w)
  {
    hide Collected, SettleAll, Effect, JournalShape, StillGoodPosting, PaymentLines, Net;
    DocumentShape(op, db);
    CollectedChange(db.pays, op.pay, Effect(op, db).value.pays[op.pay], kind, w);
    PaymentNet(db.config, op.payment, kind);
  }

  lemma VoidPayReverses(op: Op, db: Db)
    requires op.VoidPayment? && op.pay in db.pays && db.pays[op.pay].status.Posted?
    requires PayLinked(db, db.pays[op.pay]) && StillGood(db, op)
    ensures op.reversal.lines == PaymentLines(db.config, db.pays[op.pay]) && op.reversal.date == db.pays[op.pay].date
    ensures CashAccount(db.config, db.pays[op.pay].cash)
  {
  }

  lemma VoidPayMoves(op: Op, db: Db, kind: Kind, w: Window)
    requires op.VoidPayment? && db.config.receivable != db.config.payable
    requires (forall p | p in db.pays :: PayLinked(db, db.pays[p])) && StillGood(db, op) && Effect(op, db).Some?
    ensures ControlMove(op, db.config, kind, w) == Collected(db.pays, kind, w) - Collected(Effect(op, db).value.pays, kind, w)
  {
    hide Collected, UnwindAll, Effect, JournalShape, PaymentLines, Net, StillGood, PayLinked, CashAccount;
    DocumentShape(op, db);
    CollectedChange(db.pays, op.pay, Effect(op, db).value.pays[op.pay], kind, w);
    VoidPayReverses(op, db);
    PaymentNet(db.config, db.pays[op.pay], kind);
  }

  lemma EditsBillNothing(op: Op, db: Db, kind: Kind, w: Window)
    requires !MovesDocuments(op) && DocumentsOk(db) && JournalOk(db) && EntriesThere(db) && Effect(op, db).Some?
    ensures var b := Effect(op, db).value; Billed(b.entries, b.docs, kind, w) == Billed(db.entries, db.docs, kind, w)
  {
    hide Billed, JournalOk, EntriesThere;
    var b := Effect(op, db).value;
    EffectGrowsEntries(op, db);
    BilledGrowsIn(db, b, kind, w);
    match op {
      case CreateDoc(id, _) => BilledChange(b.entries, db.docs, id, b.docs[id], kind, w);
      case UpdateDoc(d, _, _, _) => BilledChange(b.entries, db.docs, d, b.docs[d], kind, w);
      case RemoveDoc(d) => BilledChange(b.entries, db.docs, d, b.docs[d], kind, w);
      case CreatePay(id, _) =>
      case RemovePay(p) =>
      case _ => DocumentsUntouched(op, db);
    }
  }

  lemma EditsCollectNothing(op: Op, db: Db, kind: Kind, w: Window)
    requires !MovesDocuments(op) && Effect(op, db).Some?
    ensures Collected(Effect(op, db).value.pays, kind, w) == Collected(db.pays, kind, w)
  {
    hide Collected;
    var b := Effect(op, db).value;
    match op {
      case CreatePay(id, _) => CollectedChange(db.pays, id, b.pays[id], kind, w);
      case RemovePay(p) => CollectedChange(db.pays, p, b.pays[p], kind, w);
      case CreateDoc(_, _) =>
      case UpdateDoc(_, _, _, _) =>
      case RemoveDoc(_) =>
      case _ => DocumentsUntouched(op, db);
    }
  }

  lemma EffectKeepsControl(op: Op, db: Db, kind: Kind, w: Window)
    requires LedgerOk(db) && ControlOk(db) && StillGood(db, op) && Clean(db, op) && Effect(op, db).Some?
    ensures var b := Effect(op, db).value;
            ControlBalance(b, kind, w) == Billed(b.entries, b.docs, kind, w) - Collected(b.pays, kind, w)
  {
    hide Billed, Collected, Balance, Effect, StillGood, Clean, Move, JournalShape, DocLinked, PayLinked, EntriesThere;
    hide JournalOk, ReversalsOk, YearsOk, NumbersOk, DocumentsOk, SettleAll, UnwindAll;
    DocumentShape(op, db);
    LinkedThere(db);
    EffectMovesBalance(op, db, Control(db.config, kind), w);
    assert ControlBalance(db, kind, w) == Billed(db.entries, db.docs, kind, w) - Collected(db.pays, kind, w);
    if op.PostDoc? || op.VoidDocument? {
      DocumentMoves(op, db, kind, w);
    } else if op.PostPay? {
      PaymentsBillNothing(op, db, kind, w);
      PostPayMoves(op, db, kind, w);
    } else if op.VoidPayment? {
      PaymentsBillNothing(op, db, kind, w);
      VoidPayMoves(op, db, kind, w);
    } else {
      CleanOpsMoveNothing(op, db, kind, w);
      EditsBillNothing(op, db, kind, w);
      EditsCollectNothing(op, db, kind, w);
    }
  }

  // ---- and the links ---------------------------------------------------------------------------------

  lemma LinksExtend(a: Db, b: Db)
    requires b.config == a.config && EntriesGrow(a.entries, b.entries)
    requires (forall d | d in a.docs :: DocLinked(a, a.docs[d])) && (forall p | p in a.pays :: PayLinked(a, a.pays[p]))
    requires forall d | d in b.docs :: (d in a.docs && b.docs[d] == a.docs[d].(paid := b.docs[d].paid)) || DocLinked(b, b.docs[d])
    requires forall p | p in b.pays :: (p in a.pays && b.pays[p] == a.pays[p]) || PayLinked(b, b.pays[p])
    ensures (forall d | d in b.docs :: DocLinked(b, b.docs[d])) && (forall p | p in b.pays :: PayLinked(b, b.pays[p]))
  {
    forall d | d in b.docs ensures DocLinked(b, b.docs[d]) {
      if d in a.docs { assert DocLinked(a, a.docs[d]); }
    }
    forall p | p in b.pays ensures PayLinked(b, b.pays[p]) {
      if p in a.pays { assert PayLinked(a, a.pays[p]); }
    }
  }

  // The entry a posting writes carries its lines and date.
  lemma PostedEntryContent(op: Op, db: Db)
    requires JournalingOf(op).Posts? && Effect(op, db).Some?
    ensures var b, id, p := Effect(op, db).value, JournalingOf(op).id, JournalingOf(op).posting;
            id in b.entries && b.entries[id].lines == p.lines && b.entries[id].date == p.date
  {
    DocumentShape(op, db);
    hide Effect;
  }

  lemma MovingKeepsLinks(op: Op, db: Db)
    requires MovesDocuments(op) && ControlOk(db) && StillGood(db, op) && Clean(db, op) && Effect(op, db).Some?
    requires EntriesGrow(db.entries, Effect(op, db).value.entries)
    ensures var b := Effect(op, db).value;
            (forall d | d in b.docs :: DocLinked(b, b.docs[d])) && (forall p | p in b.pays :: PayLinked(b, b.pays[p]))
  {
    if op.PostDoc? || op.VoidDocument? { DocumentKeepsLinks(op, db); } else { PaymentKeepsLinks(op, db); }
  }

  lemma DocumentKeepsLinks(op: Op, db: Db)
    requires op.PostDoc? || op.VoidDocument?
    requires ControlOk(db) && StillGood(db, op) && Clean(db, op) && Effect(op, db).Some?
    requires EntriesGrow(db.entries, Effect(op, db).value.entries)
    ensures var b := Effect(op, db).value;
            (forall d | d in b.docs :: DocLinked(b, b.docs[d])) && (forall p | p in b.pays :: PayLinked(b, b.pays[p]))
  {
    hide Effect, JournalShape, StillGoodPosting, StillGoodReversal, Settles, PaymentLines, ControlBalance, EntriesGrow;
    DocumentShape(op, db);
    if op.PostDoc? { PostedEntryContent(op, db); PostDocSettles(op, db); }
    LinksExtend(db, Effect(op, db).value);
  }

  lemma PaymentKeepsLinks(op: Op, db: Db)
    requires op.PostPay? || op.VoidPayment?
    requires ControlOk(db) && StillGood(db, op) && Clean(db, op) && Effect(op, db).Some?
    requires EntriesGrow(db.entries, Effect(op, db).value.entries)
    ensures var b := Effect(op, db).value;
            (forall d | d in b.docs :: DocLinked(b, b.docs[d])) && (forall p | p in b.pays :: PayLinked(b, b.pays[p]))
  {
    hide Effect, JournalShape, SettleAll, UnwindAll, StillGoodPosting, StillGoodReversal, DocLinked, PaymentLines, ControlBalance, EntriesGrow;
    var b, row := Effect(op, db).value, op.payment;
    DocumentShape(op, db);
    if op.PostPay? {
      PostedEntryContent(op, db);
      SameLines(db.config, row, b.pays[op.pay]);
      SettleTouchesPaid(db.docs, row.kind, row.partner, row.allocs);
    } else {
      UnwindTouchesPaid(db.docs, row.kind, row.allocs);
    }
    LinksExtend(db, b);
  }

  lemma OthersKeepLinks(op: Op, db: Db)
    requires !MovesDocuments(op) && ControlOk(db) && DocumentsOk(db) && Effect(op, db).Some?
    requires EntriesGrow(db.entries, Effect(op, db).value.entries)
    ensures var b := Effect(op, db).value;
            (forall d | d in b.docs :: DocLinked(b, b.docs[d])) && (forall p | p in b.pays :: PayLinked(b, b.pays[p]))
  {
    hide Settles, PaymentLines, ControlBalance, EntriesGrow, JournalShape, DocLinked, PayLinked;
    DocumentShape(op, db);
    if EditsDocuments(op) {
      EditsAreUnposted(op, db);
    } else {
      DocumentsUntouched(op, db);
    }
    hide Effect;
    LinksExtend(db, Effect(op, db).value);
  }

  lemma EditsAreUnposted(op: Op, db: Db)
    requires EditsDocuments(op) && Effect(op, db).Some?
    ensures var b := Effect(op, db).value;
      && (forall d | d in b.docs :: (d in db.docs && b.docs[d] == db.docs[d]) || DocLinked(b, b.docs[d]))
      && (forall p | p in b.pays :: (p in db.pays && b.pays[p] == db.pays[p]) || PayLinked(b, b.pays[p]))
  {
    hide PostEffect, ReverseEffect;
  }

  lemma SameLines(c: Config, p: Pay, q: Pay)
    requires SamePayment(p, q)
    ensures PaymentLines(c, p) == PaymentLines(c, q)
  {
  }

  /** A clean operation keeps the control accounts equal to the subledger at every date. */
  lemma CleanEffectKeepsControl(op: Op, db: Db)
    requires LedgerOk(db) && ControlOk(db) && StillGood(db, op) && Clean(db, op) && Effect(op, db).Some?
    ensures ControlOk(Effect(op, db).value)
  {
    hide Effect, StillGood, Clean, Billed, Collected, ControlBalance;
    EffectGrowsEntries(op, db);
    if MovesDocuments(op) { MovingKeepsLinks(op, db); } else { OthersKeepLinks(op, db); }
    DocumentShape(op, db);
    forall kind, w
      ensures var b := Effect(op, db).value; ControlBalance(b, kind, w) == Billed(b.entries, b.docs, kind, w) - Collected(b.pays, kind, w)
    {
      EffectKeepsControl(op, db, kind, w);
    }
  }

  // ---- the control balance is what is outstanding -----------------------------------------------------

  ghost function KindDocs(docs: map<Id, Doc>, kind: Kind): set<Id> { set d | d in docs && docs[d].kind == kind }

  ghost function OutstandingAt(db: Db, d: Id, w: Window): Amount {
    if d in db.docs && db.docs[d].status.Posted? && InWindow(w, db.docs[d].date)
    then db.docs[d].total - PaidIn(db.pays, d, w) else 0
  }

  ghost function OutstandingFn(db: Db, w: Window): nat -> int { (d: nat) => OutstandingAt(db, d, w) }

  /** Sum over the posted documents of a kind, dated in a window, of total minus what
      payments dated in the window have settled. */
  ghost function Outstanding(db: Db, kind: Kind, w: Window): Amount {
    SumOver(KindDocs(db.docs, kind), OutstandingFn(db, w))
  }

  ghost function AllocFn(allocs: seq<Alloc>): nat -> int { (d: nat) => AllocSum(allocs, d) }

  lemma {:induction false} AllocsCovered(s: set<Id>, allocs: seq<Alloc>)
    requires forall i | 0 <= i < |allocs| :: allocs[i].doc in s
    ensures SumOver(s, AllocFn(allocs)) == AllocTotal(allocs)
    decreases |allocs|
  {
    if allocs == [] {
      SumZero(s, AllocFn(allocs));
    } else {
      var a, rest := allocs[0], allocs[1..];
      AllocsCovered(s, rest);
      SumChange(s, AllocFn(rest), AllocFn(allocs), a.doc);
    }
  }

  ghost function PaidTable(pays: map<Id, Pay>, w: Window): (nat, nat) -> int {
    (d: nat, p: nat) => if p in pays then PaidBy(pays[p], d, w) else 0
  }

  // A payment is fully spent on documents of its own kind.
  lemma PaymentSpent(docs: map<Id, Doc>, p: Pay, kind: Kind)
    requires SettlesPosted(docs, p) && AllocsPassCheck(p.allocs)
    ensures SumOver(KindDocs(docs, kind), AllocFn(p.allocs)) == if p.kind == kind then AllocTotal(p.allocs) else 0
  {
    var s := KindDocs(docs, kind);
    if p.kind == kind {
      AllocsCovered(s, p.allocs);
    } else {
      forall d | d in s ensures AllocFn(p.allocs)(d) == 0 { AllocSumPositive(p.allocs, d); }
      SumZero(s, AllocFn(p.allocs));
    }
  }

  lemma PaymentColumn(db: Db, kind: Kind, w: Window, p: Id)
    requires SubledgerOk(db) && DocumentsOk(db) && p in db.pays
    ensures ColumnSum(KindDocs(db.docs, kind), PaidTable(db.pays, w), p) == CollectedAt(db.pays[p], kind, w)
  {
    hide DocPaidOk, DocOk, KindDocs, SettlesPosted;
    var s, pay, table := KindDocs(db.docs, kind), db.pays[p], PaidTable(db.pays, w);
    assert PayOk(db, pay);
    if pay.status.Posted? && InWindow(w, pay.date) {
      PaymentSpent(db.docs, pay, kind);
      SumCong(s, (d: nat) => table(d, p), AllocFn(pay.allocs));
    } else {
      SumZero(s, (d: nat) => table(d, p));
    }
  }

  ghost function PaidPerDoc(pays: map<Id, Pay>, w: Window): nat -> int { (d: nat) => PaidIn(pays, d, w) }

  // Money collected is money paid on documents.
  lemma CollectedIsPaid(db: Db, kind: Kind, w: Window)
    requires SubledgerOk(db) && DocumentsOk(db)
    ensures Collected(db.pays, kind, w) == SumOver(KindDocs(db.docs, kind), PaidPerDoc(db.pays, w))
  {
    var s, p, table := KindDocs(db.docs, kind), db.pays.Keys, PaidTable(db.pays, w);
    var rows, columns := (d: nat) => RowSum(p, table, d), (q: nat) => ColumnSum(s, table, q);
    SumSwap(s, p, table);
    forall d | d in s ensures rows(d) == PaidPerDoc(db.pays, w)(d) {
      SumCong(p, (q: nat) => table(d, q), PaidFn(db.pays, d, w));
    }
    SumCong(s, rows, PaidPerDoc(db.pays, w));
    forall q | q in p ensures columns(q) == CollectedFn(db.pays, kind, w)(q) { PaymentColumn(db, kind, w, q); }
    SumCong(p, columns, CollectedFn(db.pays, kind, w));
  }

  function MisdatedAt(db: Db, d: Id, w: Window): Amount {
    if d in db.docs && db.docs[d].status.Posted? then
      (if Booked(db.entries, db.docs[d], w) then db.docs[d].total else 0)
      - (if InWindow(w, db.docs[d].date) then db.docs[d].total else 0)
    else 0
  }

  ghost function MisdatedFn(db: Db, w: Window): nat -> int { (d: nat) => MisdatedAt(db, d, w) }

  /** Totals of documents whose entry is dated in the window and they are not, less those of
      documents dated in it whose entry is not: drafts re-dated while they were being posted. */
  ghost function Misdated(db: Db, kind: Kind, w: Window): Amount { SumOver(KindDocs(db.docs, kind), MisdatedFn(db, w)) }

  ghost function PrepaidAt(db: Db, d: Id, w: Window): Amount {
    if d in db.docs && db.docs[d].status.Posted? && !InWindow(w, db.docs[d].date) then PaidIn(db.pays, d, w) else 0
  }

  ghost function PrepaidFn(db: Db, w: Window): nat -> int { (d: nat) => PrepaidAt(db, d, w) }

  /** What payments dated in the window settle on posted documents dated outside it. */
  ghost function Prepaid(db: Db, kind: Kind, w: Window): Amount { SumOver(KindDocs(db.docs, kind), PrepaidFn(db, w)) }

  lemma UnpostedUnpaid(db: Db, d: Id, w: Window)
    requires SubledgerOk(db) && DocumentsOk(db) && d in db.docs
    ensures 0 <= PaidIn(db.pays, d, w)
    ensures !db.docs[d].status.Posted? ==> PaidIn(db.pays, d, w) == 0
  {
    assert DocPaidOk(db.docs, db.pays, d);
    assert forall p | p in db.pays :: PayOk(db, db.pays[p]);
    PaidNonNegative(db.pays, d, w);
  }

  ghost function DatedFn(db: Db, w: Window): nat -> int { (d: nat) => OutstandingAt(db, d, w) + MisdatedAt(db, d, w) }

  ghost function BookedFn(db: Db, kind: Kind, w: Window): nat -> int {
    (d: nat) => (if d in db.docs then BilledAt(db.entries, db.docs[d], kind, w) else 0) + PrepaidAt(db, d, w)
  }

  /** The control balance in any window is what the documents dated in it have outstanding, plus
      the documents booked but not dated in it, minus what was prepaid on documents dated
      outside it. */
  lemma ControlIsOutstanding(db: Db, kind: Kind, w: Window)
    requires SubledgerOk(db) && DocumentsOk(db) && ControlOk(db)
    ensures ControlBalance(db, kind, w) == Outstanding(db, kind, w) + Misdated(db, kind, w) - Prepaid(db, kind, w)
  {
    hide SubledgerOk, DocumentsOk, DocLinked, PayLinked, PaidIn, Balance, SumOver, BilledAt, PrepaidAt, MisdatedAt, OutstandingAt;
    var s, paid := KindDocs(db.docs, kind), PaidPerDoc(db.pays, w);
    assert ControlBalance(db, kind, w) == Billed(db.entries, db.docs, kind, w) - Collected(db.pays, kind, w);
    CollectedIsPaid(db, kind, w);
    BilledOfKind(db, kind, w);
    SumAdd(s, BilledFn(db.entries, db.docs, kind, w), PrepaidFn(db, w), BookedFn(db, kind, w));
    SumAdd(s, OutstandingFn(db, w), MisdatedFn(db, w), DatedFn(db, w));
    forall d | d in s ensures BookedFn(db, kind, w)(d) == DatedFn(db, w)(d) + paid(d) { PerDocument(db, kind, d, w); }
    SumAdd(s, DatedFn(db, w), paid, BookedFn(db, kind, w));
  }

  lemma BilledOfKind(db: Db, kind: Kind, w: Window)
    ensures Billed(db.entries, db.docs, kind, w) == SumOver(KindDocs(db.docs, kind), BilledFn(db.entries, db.docs, kind, w))
  {
    SumSubset(db.docs.Keys, KindDocs(db.docs, kind), BilledFn(db.entries, db.docs, kind, w));
  }

  lemma PerDocument(db: Db, kind: Kind, d: Id, w: Window)
    requires SubledgerOk(db) && DocumentsOk(db) && d in KindDocs(db.docs, kind)
    ensures BilledAt(db.entries, db.docs[d], kind, w) + PrepaidAt(db, d, w)
         == OutstandingAt(db, d, w) + MisdatedAt(db, d, w) + PaidIn(db.pays, d, w)
  {
    hide SubledgerOk, DocumentsOk, PaidIn, Booked;
    UnpostedUnpaid(db, d, w);
  }

  /** Every posted document still carries the date of its entry. */
  predicate DatesAgree(db: Db) {
    forall d | d in db.docs && db.docs[d].status.Posted? ::
      && db.docs[d].entry.Some? && db.docs[d].entry.value in db.entries
      && db.entries[db.docs[d].entry.value].date == db.docs[d].date
  }

  lemma NothingMisdated(db: Db, kind: Kind, w: Window)
    requires DatesAgree(db) || (w.Always? && EntriesThere(db))
    ensures Misdated(db, kind, w) == 0
  {
    SumZero(KindDocs(db.docs, kind), MisdatedFn(db, w));
  }

  /** Some posted payment dated in the window settles a posted document dated outside it. */
  ghost predicate HasPrepayment(db: Db, kind: Kind, w: Window) {
    exists d: Id, p: Id :: Prepays(db, kind, w, d, p)
  }

  predicate Prepays(db: Db, kind: Kind, w: Window, d: Id, p: Id) {
    && d in db.docs && db.docs[d].kind == kind && db.docs[d].status.Posted? && !InWindow(w, db.docs[d].date)
    && p in db.pays && db.pays[p].status.Posted? && InWindow(w, db.pays[p].date)
    && exists i :: 0 <= i < |db.pays[p].allocs| && db.pays[p].allocs[i].doc == d
  }

  lemma PrepaidDoc(db: Db, kind: Kind, w: Window, d: Id)
    requires SubledgerOk(db) && DocumentsOk(db) && d in db.docs && db.docs[d].kind == kind
    ensures 0 <= PrepaidAt(db, d, w)
    ensures PrepaidAt(db, d, w) > 0 <==> exists p: Id :: Prepays(db, kind, w, d, p)
  {
    UnpostedUnpaid(db, d, w);
    assert forall p | p in db.pays :: PayOk(db, db.pays[p]);
    PaidNonNegative(db.pays, d, w);
    if p: Id :| Prepays(db, kind, w, d, p) {
      AllocSumPositive(db.pays[p].allocs, d);
    } else if db.docs[d].status.Posted? && !InWindow(w, db.docs[d].date) {
      forall p | p in db.pays ensures PaidFn(db.pays, d, w)(p) == 0 {
        AllocSumPositive(db.pays[p].allocs, d);
        assert !Prepays(db, kind, w, d, p);
      }
      SumZero(db.pays.Keys, PaidFn(db.pays, d, w));
    }
  }

  /** Prepaid is zero exactly when there is no such payment. */
  lemma PrepaidIff(db: Db, kind: Kind, w: Window)
    requires SubledgerOk(db) && DocumentsOk(db)
    ensures Prepaid(db, kind, w) == 0 <==> !HasPrepayment(db, kind, w)
  {
    hide SubledgerOk, DocumentsOk, PrepaidAt, Prepays;
    var s, f := KindDocs(db.docs, kind), PrepaidFn(db, w);
    forall d | d in s ensures 0 <= f(d) && (f(d) > 0 <==> exists p: Id :: Prepays(db, kind, w, d, p)) { PrepaidDoc(db, kind, w, d); }
    if d: Id, p: Id :| Prepays(db, kind, w, d, p) {
      assert d in s by { PrepaysDoc(db, kind, w, d, p); }
      SumCovers(s, f, d);
    } else {
      SumZero(s, f);
    }
  }

  lemma PrepaysDoc(db: Db, kind: Kind, w: Window, d: Id, p: Id)
    requires Prepays(db, kind, w, d, p)
    ensures d in KindDocs(db.docs, kind)
  {
  }

  lemma NothingPrepaidEver(db: Db, kind: Kind)
    ensures Prepaid(db, kind, Always) == 0
  {
    SumZero(KindDocs(db.docs, kind), PrepaidFn(db, Always));
  }

  ghost function UnpaidFn(db: Db): nat -> int {
    (d: nat) => if d in db.docs && db.docs[d].status.Posted? then db.docs[d].total - db.docs[d].paid else 0
  }

  /** Sum of total - amountPaid over the posted documents of a kind. */
  ghost function Unpaid(db: Db, kind: Kind): Amount { SumOver(KindDocs(db.docs, kind), UnpaidFn(db)) }

  // ---- over whole runs -----------------------------------------------------------------------------------

  ghost predicate IsCleanRun(states: seq<System>, events: seq<Event>) {
    && IsRun(states, events)
    && states[0].db.config.receivable != states[0].db.config.payable
    && forall i | 0 <= i < |events| && events[i].Commit? && events[i].t in states[i].running ::
         Clean(states[i].db, states[i].running[events[i].t].0)
  }

  lemma InitialControl(db: Db)
    requires db.config.receivable != db.config.payable && db.entries == map[] && db.docs == map[] && db.pays == map[]
    ensures ControlOk(db)
  {
  }

  lemma ChartIrrelevant(db: Db, accounts: map<Id, Account>)
    requires ControlOk(db)
    ensures ControlOk(db.(accounts := accounts))
  {
    var b := db.(accounts := accounts);
    hide Billed, Collected, Balance, Settles, PaymentLines;
    forall d | d in b.docs ensures DocLinked(b, b.docs[d]) { assert DocLinked(db, db.docs[d]); }
    forall p | p in b.pays ensures PayLinked(b, b.pays[p]) { assert PayLinked(db, db.pays[p]); }
    forall kind, w ensures ControlBalance(b, kind, w) == Billed(b.entries, b.docs, kind, w) - Collected(b.pays, kind, w) {
      assert ControlBalance(db, kind, w) == Billed(db.entries, db.docs, kind, w) - Collected(db.pays, kind, w);
    }
  }

  lemma {:induction false} ControlHolds(states: seq<System>, events: seq<Event>, i: nat)
    requires IsCleanRun(states, events) && i < |states|
    ensures ControlOk(states[i].db)
  {
    hide ControlOk, Clean, SystemOk, Effect;
    if i == 0 {
      InitialControl(states[0].db);
    } else {
      var s, e := states[i - 1], events[i - 1];
      ControlHolds(states, events, i - 1);
      RunOk(states, events, i - 1);
      RunIsSerial(states, events, i - 1);
      match e {
        case Commit(t) => CommitKeepsControl(s, t);
        case ChangeChart(accounts) => ChartIrrelevant(s.db, accounts);
        case _ =>
      }
    }
  }

  lemma CommitKeepsControl(s: System, t: nat)
    requires SystemOk(s) && ControlOk(s.db) && t in s.running && Clean(s.db, s.running[t].0)
    requires Effect(s.running[t].0, s.db).Some?
    ensures ControlOk(Effect(s.running[t].0, s.db).value)
  {
    hide ControlOk, Clean, Effect, LedgerOk;
    assert RunningOk(s, t);
    CleanEffectKeepsControl(s.running[t].0, s.db);
  }

  /** In every clean run the ledger balance of each control account is the sum of
      total - amountPaid over its posted documents. */
  lemma ControlMatchesSubledger(states: seq<System>, events: seq<Event>, i: nat, kind: Kind)
    requires IsCleanRun(states, events) && i < |states|
    ensures ControlBalance(states[i].db, kind, Always) == Unpaid(states[i].db, kind)
  {
    hide ControlOk, SubledgerOk, DocumentsOk, IsCleanRun, IsRun;
    var db := states[i].db;
    ControlHolds(states, events, i);
    assert IsRun(states, events) by { RunPart(states, events); }
    SubledgerHolds(states, events, i);
    RunOk(states, events, i);
    ControlIsOutstanding(db, kind, Always);
    NothingPrepaidEver(db, kind);
    LinkedThere(db);
    NothingMisdated(db, kind, Always);
    UnpaidIsOutstanding(db, kind);
  }

  lemma RunPart(states: seq<System>, events: seq<Event>)
    requires IsCleanRun(states, events)
    ensures IsRun(states, events)
  {
  }

  lemma UnpaidIsOutstanding(db: Db, kind: Kind)
    requires SubledgerOk(db)
    ensures Unpaid(db, kind) == Outstanding(db, kind, Always)
  {
    forall d | d in KindDocs(db.docs, kind) ensures UnpaidFn(db)(d) == OutstandingFn(db, Always)(d) {
      assert DocPaidOk(db.docs, db.pays, d);
    }
    SumCong(KindDocs(db.docs, kind), UnpaidFn(db), OutstandingFn(db, Always));
  }

  // ---- runs in which no draft is re-dated while it is being posted -------------------------------------------

  /** Each document is posted under the date it was read with. */
  ghost predicate NoneRedated(states: seq<System>, events: seq<Event>)
    requires |states| == |events| + 1
  {
    forall i | 0 <= i < |events| && events[i].Commit? && events[i].t in states[i].running ::
      PostsAsDated(states[i].db, states[i].running[events[i].t].0)
  }

  predicate PostsAsDated(db: Db, op: Op) {
    op.PostDoc? ==> op.doc in db.docs && db.docs[op.doc].date == op.posting.date
  }

  lemma EffectKeepsDates(op: Op, db: Db)
    requires LedgerOk(db) && DatesAgree(db) && StillGood(db, op) && PostsAsDated(db, op) && Effect(op, db).Some?
    ensures DatesAgree(Effect(op, db).value)
  {
    hide JournalOk, ReversalsOk, YearsOk, NumbersOk, DocumentsOk, StillGood, Effect, DatesAgree, EntriesGrow;
    var b := Effect(op, db).value;
    if EditsDocuments(op) {
      DatesOfDrafts(op, db);
    } else {
      EffectGrowsEntries(op, db);
      MovedDates(op, db);
      DatesFrame(db, b);
    }
  }

  // Documents keep date and entry, or become posted under an entry of their date, or stop counting.
  lemma MovedDates(op: Op, db: Db)
    requires !EditsDocuments(op) && PostsAsDated(db, op) && Effect(op, db).Some?
    ensures var b := Effect(op, db).value; forall d | d in b.docs && b.docs[d].status.Posted? :: DateKept(db, b, d)
  {
    hide Effect, JournalShape, SettleAll, UnwindAll;
    DocumentShape(op, db);
    match op {
      case PostDoc(_, _, _, _, _) => PostedEntryContent(op, db);
      case PostPay(_, _, row, _) => SettleTouchesPaid(db.docs, row.kind, row.partner, row.allocs);
      case VoidPayment(_, _, row, _) => UnwindTouchesPaid(db.docs, row.kind, row.allocs);
      case VoidDocument(_, _, _) =>
      case _ => DocumentsUntouched(op, db);
    }
  }

  predicate DateKept(a: Db, b: Db, d: Id)
    requires d in b.docs
  {
    || (d in a.docs && a.docs[d].status.Posted? && b.docs[d].date == a.docs[d].date && b.docs[d].entry == a.docs[d].entry)
    || (b.docs[d].entry.Some? && b.docs[d].entry.value in b.entries && b.entries[b.docs[d].entry.value].date == b.docs[d].date)
  }

  lemma DatesFrame(a: Db, b: Db)
    requires DatesAgree(a) && EntriesGrow(a.entries, b.entries)
    requires forall d | d in b.docs && b.docs[d].status.Posted? :: DateKept(a, b, d)
    ensures DatesAgree(b)
  {
    forall d | d in b.docs && b.docs[d].status.Posted?
      ensures b.docs[d].entry.Some? && b.docs[d].entry.value in b.entries && b.entries[b.docs[d].entry.value].date == b.docs[d].date
    {
      assert DateKept(a, b, d);
    }
  }

  lemma DatesOfDrafts(op: Op, db: Db)
    requires EditsDocuments(op) && DatesAgree(db) && Effect(op, db).Some?
    ensures DatesAgree(Effect(op, db).value)
  {
    hide PostEffect, ReverseEffect;
  }

  lemma {:induction false} DatesHold(states: seq<System>, events: seq<Event>, i: nat)
    requires IsRun(states, events) && NoneRedated(states, events) && i < |states|
    ensures DatesAgree(states[i].db)
  {
    hide Effect, LedgerOk, StillGood, Steps;
    if i > 0 {
      var s, e := states[i - 1], events[i - 1];
      DatesHold(states, events, i - 1);
      RunOk(states, events, i - 1);
      RunIsSerial(states, events, i - 1);
      if e.Commit? {
        assert RunningOk(s, e.t) && PostsAsDated(s.db, s.running[e.t].0);
        EffectKeepsDates(s.running[e.t].0, s.db);
      }
    }
  }
}
