/** The AR/AP subledger: the cached amountPaid of a document against the payments that
settle it (src/invoicing/payments.service.ts, src/invoicing/payment-targets.ts). */
module Subledger {
  import opened Options
  import opened Ledger
  import opened Sums
  import opened Statements
  import opened Operations
  import opened Preparation
  import opened Invariants
  import opened Preservation
  import opened Protocol

  // ---- what a document has been paid ---------------------------------------------------

  /** The part of a payment's allocations that goes to document d. */
  function AllocSum(allocs: seq<Alloc>, d: Id): Amount {
    if allocs == [] then 0 else
      (if allocs[0].doc == d then allocs[0].amount else 0) + AllocSum(allocs[1..], d)
  }

  function PaidBy(p: Pay, d: Id, w: Window): Amount {
    if p.status.Posted? && InWindow(w, p.date) then AllocSum(p.allocs, d) else 0
  }

  ghost function PaidFn(pays: map<Id, Pay>, d: Id, w: Window): nat -> int {
    (p: nat) => if p in pays then PaidBy(pays[p], d, w) else 0
  }

  /** Sum of the posted payments' allocations to document d, over payments dated in a window. */
  ghost function PaidIn(pays: map<Id, Pay>, d: Id, w: Window): Amount { SumOver(pays.Keys, PaidFn(pays, d, w)) }

  /** amountPaid is the sum of the posted allocations, between 0 and the total, and 0 unless
      the document is posted; posted payments settle posted documents of their own kind. */
  ghost predicate SubledgerOk(db: Db) {
    && (forall d | d in db.docs :: DocPaidOk(db.docs, db.pays, d))
    && (forall p | p in db.pays && db.pays[p].status.Posted? :: SettlesPosted(db.docs, db.pays[p]))
  }

  ghost predicate DocPaidOk(docs: map<Id, Doc>, pays: map<Id, Pay>, d: Id)
    requires d in docs
  {
    && docs[d].paid == PaidIn(pays, d, Always)
    && 0 <= docs[d].paid <= docs[d].total
    && (!docs[d].status.Posted? ==> docs[d].paid == 0)
  }

  predicate SettlesPosted(docs: map<Id, Doc>, p: Pay) {
    forall i | 0 <= i < |p.allocs| ::
      p.allocs[i].doc in docs && docs[p.allocs[i].doc].status.Posted? && docs[p.allocs[i].doc].kind == p.kind
  }

  // ---- sums of allocations ------------------------------------------------------------------

  lemma {:induction false} AllocSumPositive(allocs: seq<Alloc>, d: Id)
    requires AllocsPassCheck(allocs)
    ensures 0 <= AllocSum(allocs, d)
    ensures (exists i :: 0 <= i < |allocs| && allocs[i].doc == d) ==> 0 < AllocSum(allocs, d)
    ensures !(exists i :: 0 <= i < |allocs| && allocs[i].doc == d) ==> AllocSum(allocs, d) == 0
  {
    if allocs != [] {
      var rest := allocs[1..];
      AllocSumPositive(rest, d);
      assert forall i | 0 < i < |allocs| :: allocs[i] == rest[i - 1];
      if i :| 0 <= i < |rest| && rest[i].doc == d {
        assert allocs[i + 1].doc == d;
      }
    }
  }

  lemma PaidChange(pays: map<Id, Pay>, p: Id, q: Pay, d: Id, w: Window)
    ensures PaidIn(pays[p := q], d, w)
         == PaidIn(pays, d, w) - (if p in pays then PaidBy(pays[p], d, w) else 0) + PaidBy(q, d, w)
  {
    var after := pays[p := q];
    var f, g := PaidFn(pays, d, w), PaidFn(after, d, w);
    if p in pays {
      assert after.Keys == pays.Keys;
      SumChange(pays.Keys, f, g, p);
    } else {
      assert after.Keys == pays.Keys + {p};
      SumInsert(pays.Keys, g, p);
      SumCong(pays.Keys, f, g);
    }
  }

  // ---- the settlement and unwinding loops ---------------------------------------------------

  predicate PaidWithin(docs: map<Id, Doc>) { forall d | d in docs :: 0 <= docs[d].paid <= docs[d].total }

  /** A settlement that is accepted adds each document's allocations and stays within totals. */
  lemma {:induction false} SettleAdds(docs: map<Id, Doc>, kind: Kind, partner: Id, allocs: seq<Alloc>)
    requires SettleAll(docs, kind, partner, allocs).Some? && AllocsPassCheck(allocs) && PaidWithin(docs)
    ensures var after := SettleAll(docs, kind, partner, allocs).value;
      && after.Keys == docs.Keys && PaidWithin(after)
      && (forall d | d in docs :: after[d] == docs[d].(paid := docs[d].paid + AllocSum(allocs, d)))
      && (forall i | 0 <= i < |allocs| ::
            allocs[i].doc in docs && docs[allocs[i].doc].status.Posted? && docs[allocs[i].doc].kind == kind)
    decreases |allocs|
  {
    if allocs != [] {
      var a, rest := allocs[0], allocs[1..];
      var docs2 := docs[a.doc := docs[a.doc].(paid := docs[a.doc].paid + a.amount)];
      SettleAdds(docs2, kind, partner, rest);
      forall i | 0 <= i < |allocs|
        ensures allocs[i].doc in docs && docs[allocs[i].doc].status.Posted? && docs[allocs[i].doc].kind == kind
      {
        if i > 0 { assert rest[i - 1] == allocs[i]; }
      }
    }
  }

  lemma {:induction false} UnwindSubtracts(docs: map<Id, Doc>, kind: Kind, allocs: seq<Alloc>)
    requires UnwindAll(docs, kind, allocs).Some?
    ensures var after := UnwindAll(docs, kind, allocs).value;
      && after.Keys == docs.Keys
      && (forall d | d in docs :: after[d] == docs[d].(paid := docs[d].paid - AllocSum(allocs, d)))
    decreases |allocs|
  {
    if allocs != [] {
      var a := allocs[0];
      UnwindSubtracts(docs[a.doc := docs[a.doc].(paid := docs[a.doc].paid - a.amount)], kind, allocs[1..]);
    }
  }

  predicate UnwindTarget(docs: map<Id, Doc>, kind: Kind, a: Alloc) {
    a.doc in docs && !docs[a.doc].deleted && docs[a.doc].kind == kind
  }

  /** Unwinding is refused exactly when a target is missing or its allocations exceed what is paid. */
  lemma {:induction false} UnwindIff(docs: map<Id, Doc>, kind: Kind, allocs: seq<Alloc>)
    requires AllocsPassCheck(allocs)
    ensures UnwindAll(docs, kind, allocs).Some? <==>
              && (forall i | 0 <= i < |allocs| :: UnwindTarget(docs, kind, allocs[i]))
              && (forall d | d in docs && AllocSum(allocs, d) != 0 :: AllocSum(allocs, d) <= docs[d].paid)
    decreases |allocs|
  {
    if allocs != [] {
      var a, rest := allocs[0], allocs[1..];
      AllocSumPositive(rest, a.doc);
      if UnwindTarget(docs, kind, a) {
        var docs2 := docs[a.doc := docs[a.doc].(paid := docs[a.doc].paid - a.amount)];
        UnwindIff(docs2, kind, rest);
        UnwindIffStep(docs, docs2, kind, allocs);
      } else {
        assert !UnwindTarget(docs, kind, allocs[0]);
      }
    }
  }

  // The condition for the whole list, split at its first allocation.
  lemma UnwindIffStep(docs: map<Id, Doc>, docs2: map<Id, Doc>, kind: Kind, allocs: seq<Alloc>)
    requires allocs != [] && AllocsPassCheck(allocs) && UnwindTarget(docs, kind, allocs[0])
    requires var a := allocs[0]; docs2 == docs[a.doc := docs[a.doc].(paid := docs[a.doc].paid - a.amount)]
    ensures (&& (forall i | 0 <= i < |allocs| :: UnwindTarget(docs, kind, allocs[i]))
             && (forall d | d in docs && AllocSum(allocs, d) != 0 :: AllocSum(allocs, d) <= docs[d].paid))
       <==> (&& !(docs[allocs[0].doc].paid - allocs[0].amount < 0)
             && (forall i | 0 <= i < |allocs[1..]| :: UnwindTarget(docs2, kind, allocs[1..][i]))
             && (forall d | d in docs2 && AllocSum(allocs[1..], d) != 0 :: AllocSum(allocs[1..], d) <= docs2[d].paid))
  {
    var a, rest := allocs[0], allocs[1..];
    AllocSumPositive(rest, a.doc);
    assert (forall i | 0 <= i < |allocs| :: UnwindTarget(docs, kind, allocs[i]))
      <==> (forall i | 0 <= i < |rest| :: UnwindTarget(docs2, kind, rest[i])) by {
      assert forall b: Alloc :: UnwindTarget(docs, kind, b) <==> UnwindTarget(docs2, kind, b);
      if forall i | 0 <= i < |rest| :: UnwindTarget(docs2, kind, rest[i]) {
        forall i | 0 <= i < |allocs| ensures UnwindTarget(docs, kind, allocs[i]) {
          if i > 0 { assert rest[i - 1] == allocs[i]; }
        }
      }
    }
    assert AllocSum(allocs, a.doc) == a.amount + AllocSum(rest, a.doc);
    assert forall d | d != a.doc :: AllocSum(allocs, d) == AllocSum(rest, d);
  }

  // ---- every operation keeps the subledger ------------------------------------------------------

  lemma PaidNonNegative(pays: map<Id, Pay>, d: Id, w: Window)
    requires forall p | p in pays :: AllocsPassCheck(pays[p].allocs)
    ensures 0 <= PaidIn(pays, d, w) <= PaidIn(pays, d, Always)
    ensures forall p | p in pays :: PaidBy(pays[p], d, w) <= PaidIn(pays, d, w)
  {
    var f, g, zero := PaidFn(pays, d, w), PaidFn(pays, d, Always), (p: nat) => 0;
    forall p | p in pays ensures 0 <= f(p) <= g(p) { AllocSumPositive(pays[p].allocs, d); }
    SumZero(pays.Keys, zero);
    SumAtMost(pays.Keys, zero, f);
    SumAtMost(pays.Keys, f, g);
    forall p | p in pays ensures PaidBy(pays[p], d, w) <= PaidIn(pays, d, w) { SumCovers(pays.Keys, f, p); }
  }

  // A document nothing has been paid on is not the target of any posted payment.
  lemma UnpaidIsUntouched(db: Db, d: Id)
    requires DocumentsOk(db) && PaidIn(db.pays, d, Always) == 0
    ensures forall p, i | p in db.pays && db.pays[p].status.Posted? && 0 <= i < |db.pays[p].allocs| :: db.pays[p].allocs[i].doc != d
  {
    assert forall p | p in db.pays :: PayOk(db, db.pays[p]);
    PaidNonNegative(db.pays, d, Always);
    forall p, i | p in db.pays && db.pays[p].status.Posted? && 0 <= i < |db.pays[p].allocs| ensures db.pays[p].allocs[i].doc != d {
      AllocSumPositive(db.pays[p].allocs, d);
      assert PaidBy(db.pays[p], d, Always) <= 0;
    }
  }

  lemma UnknownIsUnpaid(db: Db, d: Id)
    requires SubledgerOk(db) && DocumentsOk(db) && d !in db.docs
    ensures PaidIn(db.pays, d, Always) == 0
  {
    forall p | p in db.pays ensures PaidFn(db.pays, d, Always)(p) == 0 {
      assert PayOk(db, db.pays[p]);
      AllocSumPositive(db.pays[p].allocs, d);
    }
    SumZero(db.pays.Keys, PaidFn(db.pays, d, Always));
  }

  lemma DocChangeKeepsSubledger(db: Db, b: Db, d: Id)
    requires SubledgerOk(db) && DocumentsOk(db) && b.pays == db.pays && d in b.docs && b.docs == db.docs[d := b.docs[d]]
    requires b.docs[d].paid == 0 && 0 <= b.docs[d].total
    requires d in db.docs ==> db.docs[d].paid == 0
    ensures SubledgerOk(b)
  {
    hide DocumentsOk, PaidIn;
    if d !in db.docs { UnknownIsUnpaid(db, d); }
    assert forall e | e in db.docs :: DocPaidOk(db.docs, db.pays, e);
    UnpaidIsUntouched(db, d);
    forall p | p in b.pays && b.pays[p].status.Posted? ensures SettlesPosted(b.docs, b.pays[p]) {
      assert SettlesPosted(db.docs, db.pays[p]);
    }
  }

  lemma UnpostedPayKeepsSubledger(db: Db, b: Db, p: Id)
    requires SubledgerOk(db) && b.docs == db.docs && p in b.pays && b.pays == db.pays[p := b.pays[p]]
    requires !b.pays[p].status.Posted? && (p in db.pays ==> !db.pays[p].status.Posted?)
    ensures SubledgerOk(b)
  {
    forall d | d in b.docs ensures DocPaidOk(b.docs, b.pays, d) {
      assert DocPaidOk(db.docs, db.pays, d);
      PaidChange(db.pays, p, b.pays[p], d, Always);
    }
  }

  // Payments settle posted documents, before and after the paid column moves.
  lemma PaidChangeKeepsTargets(a: map<Id, Doc>, b: map<Id, Doc>, p: Pay)
    requires SettlesPosted(a, p) && OnlyPaidDiffers(a, b)
    ensures SettlesPosted(b, p)
  {
  }

  lemma SettledDocOk(docs: map<Id, Doc>, pays: map<Id, Pay>, after: map<Id, Doc>, pay: Id, q: Pay, d: Id)
    requires d in docs && d in after && DocPaidOk(docs, pays, d)
    requires pay in pays && !pays[pay].status.Posted? && q.status.Posted? && AllocsPassCheck(q.allocs)
    requires after[d] == docs[d].(paid := docs[d].paid + AllocSum(q.allocs, d)) && PaidWithin(after)
    requires !docs[d].status.Posted? ==> forall i | 0 <= i < |q.allocs| :: q.allocs[i].doc != d
    ensures DocPaidOk(after, pays[pay := q], d)
  {
    PaidChange(pays, pay, q, d, Always);
    AllocSumPositive(q.allocs, d);
  }

  lemma AllPaidWithin(db: Db)
    requires SubledgerOk(db)
    ensures PaidWithin(db.docs)
  {
    assert forall d | d in db.docs :: DocPaidOk(db.docs, db.pays, d);
  }

  lemma SettledDocsOk(db: Db, after: map<Id, Doc>, pay: Id, q: Pay)
    requires SubledgerOk(db) && pay in db.pays && !db.pays[pay].status.Posted?
    requires q.status.Posted? && AllocsPassCheck(q.allocs)
    requires SettleAll(db.docs, q.kind, q.partner, q.allocs) == Some(after)
    ensures after.Keys == db.docs.Keys && forall d | d in after :: DocPaidOk(after, db.pays[pay := q], d)
    ensures SettlesPosted(after, q)
  {
    hide SettleAll, DocPaidOk, PaidWithin;
    AllPaidWithin(db);
    SettleAdds(db.docs, q.kind, q.partner, q.allocs);
    forall d | d in after ensures DocPaidOk(after, db.pays[pay := q], d) {
      SettledDocOk(db.docs, db.pays, after, pay, q, d);
    }
  }

  lemma SettlingKeepsSubledger(db: Db, b: Db, pay: Id)
    requires SubledgerOk(db) && DocumentsOk(db) && pay in db.pays && db.pays[pay].status.Draft?
    requires SettleAll(db.docs, db.pays[pay].kind, db.pays[pay].partner, db.pays[pay].allocs) == Some(b.docs)
    requires pay in b.pays && b.pays == db.pays[pay := b.pays[pay]]
    requires SamePayment(db.pays[pay], b.pays[pay]) && b.pays[pay].status.Posted?
    ensures SubledgerOk(b)
  {
    hide SettleAll, DocPaidOk, SettlesPosted, OnlyPaidDiffers;
    assert PayOk(db, db.pays[pay]);
    SettledDocsOk(db, b.docs, pay, b.pays[pay]);
    SettleTouchesPaid(db.docs, db.pays[pay].kind, db.pays[pay].partner, db.pays[pay].allocs);
    forall p | p in b.pays && b.pays[p].status.Posted? ensures SettlesPosted(b.docs, b.pays[p]) {
      if p != pay { PaidChangeKeepsTargets(db.docs, b.docs, db.pays[p]); }
    }
  }

  lemma UnwoundDocOk(docs: map<Id, Doc>, pays: map<Id, Pay>, after: map<Id, Doc>, pay: Id, d: Id)
    requires d in docs && d in after && DocPaidOk(docs, pays, d) && pay in pays && pays[pay].status.Posted?
    requires forall p | p in pays :: AllocsPassCheck(pays[p].allocs)
    requires after[d] == docs[d].(paid := docs[d].paid - AllocSum(pays[pay].allocs, d))
    ensures DocPaidOk(after, pays[pay := pays[pay].(status := Void)], d)
  {
    var after := pays[pay := pays[pay].(status := Void)];
    PaidChange(pays, pay, after[pay], d, Always);
    PaidNonNegative(after, d, Always);
    AllocSumPositive(pays[pay].allocs, d);
  }

  lemma UnwoundDocsOk(db: Db, after: map<Id, Doc>, pay: Id)
    requires SubledgerOk(db) && DocumentsOk(db) && pay in db.pays && db.pays[pay].status.Posted?
    requires UnwindAll(db.docs, db.pays[pay].kind, db.pays[pay].allocs) == Some(after)
    ensures after.Keys == db.docs.Keys
    ensures forall d | d in after :: DocPaidOk(after, db.pays[pay := db.pays[pay].(status := Void)], d)
  {
    assert forall p | p in db.pays :: PayOk(db, db.pays[p]);
    UnwindSubtracts(db.docs, db.pays[pay].kind, db.pays[pay].allocs);
    hide UnwindAll, DocumentsOk, DocPaidOk;
    forall d | d in after ensures DocPaidOk(after, db.pays[pay := db.pays[pay].(status := Void)], d) {
      UnwoundDocOk(db.docs, db.pays, after, pay, d);
    }
  }

  lemma UnwindingKeepsSubledger(db: Db, b: Db, pay: Id)
    requires SubledgerOk(db) && DocumentsOk(db) && pay in db.pays && db.pays[pay].status.Posted?
    requires UnwindAll(db.docs, db.pays[pay].kind, db.pays[pay].allocs) == Some(b.docs)
    requires b.pays == db.pays[pay := db.pays[pay].(status := Void)]
    ensures SubledgerOk(b)
  {
    hide UnwindAll, DocumentsOk, DocPaidOk, SettlesPosted, OnlyPaidDiffers;
    UnwoundDocsOk(db, b.docs, pay);
    UnwindTouchesPaid(db.docs, db.pays[pay].kind, db.pays[pay].allocs);
    forall p | p in b.pays && b.pays[p].status.Posted? ensures SettlesPosted(b.docs, b.pays[p]) {
      PaidChangeKeepsTargets(db.docs, b.docs, db.pays[p]);
    }
  }

  lemma PaymentKeepsSubledger(op: Op, db: Db)
    requires op.PostPay? || op.VoidPayment?
    requires DocumentsOk(db) && SubledgerOk(db) && StillGood(db, op) && Effect(op, db).Some?
    ensures SubledgerOk(Effect(op, db).value)
  {
    hide SubledgerOk, DocumentsOk, StillGoodPosting, StillGoodReversal, PostEffect, ReverseEffect, SettleAll, UnwindAll;
    var b := Effect(op, db).value;
    DocumentShape(op, db);
    if op.PostPay? { SettlingKeepsSubledger(db, b, op.pay); } else { UnwindingKeepsSubledger(db, b, op.pay); }
  }

  lemma DocumentKeepsSubledger(op: Op, db: Db)
    requires op.PostDoc? || op.VoidDocument?
    requires DocumentsOk(db) && SubledgerOk(db) && StillGood(db, op) && Effect(op, db).Some?
    ensures SubledgerOk(Effect(op, db).value)
  {
    hide StillGoodPosting, StillGoodReversal, PostEffect, ReverseEffect;
    DocumentShape(op, db);
    DocChangeKeepsSubledger(db, Effect(op, db).value, op.doc);
  }

  lemma OthersKeepSubledger(op: Op, db: Db)
    requires !MovesDocuments(op) && !EditsDocuments(op) && SubledgerOk(db) && Effect(op, db).Some?
    ensures SubledgerOk(Effect(op, db).value)
  {
    DocumentsUntouched(op, db);
    hide Effect;
  }

  lemma EditKeepsSubledger(op: Op, db: Db)
    requires EditsDocuments(op) && LedgerOk(db) && SubledgerOk(db) && StillGood(db, op) && Effect(op, db).Some?
    ensures SubledgerOk(Effect(op, db).value)
  {
    var b := Effect(op, db).value;
    if op.CreatePay? || op.RemovePay? {
      hide SubledgerOk, LedgerOk, PostEffect, ReverseEffect;
      UnpostedPayKeepsSubledger(db, b, if op.CreatePay? then op.id else op.pay);
    } else {
      hide JournalOk, ReversalsOk, YearsOk, NumbersOk;
      DocEditKeepsSubledger(op, db);
    }
  }

  lemma DocEditKeepsSubledger(op: Op, db: Db)
    requires op.CreateDoc? || op.UpdateDoc? || op.RemoveDoc?
    requires DocumentsOk(db) && SubledgerOk(db) && StillGood(db, op) && Effect(op, db).Some?
    ensures SubledgerOk(Effect(op, db).value)
  {
    var d := if op.CreateDoc? then op.id else op.doc;
    if d in db.docs {
      assert DocPaidOk(db.docs, db.pays, d) && DocOk(db, db.docs[d]);
    }
    hide SubledgerOk, DocumentsOk, PaidIn;
    DocChangeKeepsSubledger(db, Effect(op, db).value, d);
  }

  /** However stale its preparation, no operation breaks the subledger. */
  lemma EffectKeepsSubledger(op: Op, db: Db)
    requires LedgerOk(db) && SubledgerOk(db) && StillGood(db, op) && Effect(op, db).Some?
    ensures SubledgerOk(Effect(op, db).value)
  {
    if op.PostPay? || op.VoidPayment? {
      PaymentKeepsSubledger(op, db);
    } else if op.PostDoc? || op.VoidDocument? {
      DocumentKeepsSubledger(op, db);
    } else if EditsDocuments(op) {
      EditKeepsSubledger(op, db);
    } else {
      OthersKeepSubledger(op, db);
    }
  }

  // ---- over whole runs --------------------------------------------------------------------------

  /** In every run, for every document: amountPaid is the sum of the posted payments'
      allocations to it, lies between 0 and the total, and is 0 on a void document. */
  lemma {:induction false} SubledgerHolds(states: seq<System>, events: seq<Event>, i: nat)
    requires IsRun(states, events) && i < |states|
    ensures SubledgerOk(states[i].db)
  {
    hide LedgerOk, StillGood, Effect, Steps;
    if i > 0 {
      hide SubledgerOk, SystemOk;
      SubledgerHolds(states, events, i - 1);
      RunOk(states, events, i - 1);
      RunIsSerial(states, events, i - 1);
      StepKeepsSubledger(states[i - 1], events[i - 1], states[i]);
    }
  }

  lemma StepKeepsSubledger(s: System, e: Event, s2: System)
    requires SystemOk(s) && SubledgerOk(s.db)
    requires match e
             case Commit(t) => t in s.running && Effect(s.running[t].0, s.db) == Some(s2.db)
             case _ => s2.db.docs == s.db.docs && s2.db.pays == s.db.pays
    ensures SubledgerOk(s2.db)
  {
    hide LedgerOk, StillGood, Effect;
    match e
    case Commit(t) =>
      assert RunningOk(s, t);
      EffectKeepsSubledger(s.running[t].0, s.db);
    case _ => SubledgerIgnoresChart(s.db, s2.db);
  }

  lemma SubledgerIgnoresChart(a: Db, b: Db)
    requires SubledgerOk(a) && b.docs == a.docs && b.pays == a.pays
    ensures SubledgerOk(b)
  {
  }

  /** Hence "Void would drive amountPaid negative" never happens: voiding a posted payment
      always finds enough paid on every document. */
  lemma UnwindNeverRefused(db: Db, pay: Id)
    requires DocumentsOk(db) && SubledgerOk(db) && pay in db.pays && db.pays[pay].status.Posted?
    ensures UnwindAll(db.docs, db.pays[pay].kind, db.pays[pay].allocs).Some?
  {
    var p := db.pays[pay];
    assert forall q | q in db.pays :: PayOk(db, db.pays[q]);
    assert SettlesPosted(db.docs, p);
    forall i | 0 <= i < |p.allocs| ensures UnwindTarget(db.docs, p.kind, p.allocs[i]) {
      assert DocOk(db, db.docs[p.allocs[i].doc]);
    }
    forall d | d in db.docs ensures AllocSum(p.allocs, d) <= db.docs[d].paid {
      assert DocPaidOk(db.docs, db.pays, d);
      PaidNonNegative(db.pays, d, Always);
      assert PaidBy(p, d, Always) == AllocSum(p.allocs, d);
    }
    UnwindIff(db.docs, p.kind, p.allocs);
  }
}
