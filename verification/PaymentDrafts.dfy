/** Creating a payment draft (src/invoicing/payments.service.ts): the allocation loop with its
running total and its map of what each document has been allocated so far. */
module PaymentDrafts {
  import opened Options
  import opened Ledger
  import opened Statements
  import opened Operations
  import opened Preparation
  import opened Subledger
  import opened PostingService
  import Money

  /** The document exists and this partner's payments of this kind may settle it. */
  predicate MaySettle(docs: map<Id, Doc>, kind: Kind, partner: Id, d: Id) {
    && d in docs && !docs[d].deleted && docs[d].kind == kind
    && docs[d].partner == partner && docs[d].status.Posted?
  }

  /** All allocations to the document together stay within what it has outstanding. */
  predicate Within(docs: map<Id, Doc>, allocs: seq<Alloc>, d: Id)
    requires d in docs
  {
    AllocSum(allocs, d) <= docs[d].total - docs[d].paid
  }

  predicate Allocatable(docs: map<Id, Doc>, kind: Kind, partner: Id, allocs: seq<Alloc>) {
    forall i | 0 <= i < |allocs| :: MaySettle(docs, kind, partner, allocs[i].doc) && Within(docs, allocs, allocs[i].doc)
  }

  /** A business partner, as payments look at it. */
  datatype Partner = Partner(active: bool, customer: bool, vendor: bool)

  // ---- the loop ---------------------------------------------------------------------------------

  lemma {:induction false} AllocSumConcat(a: seq<Alloc>, b: seq<Alloc>, d: Id)
    ensures AllocSum(a + b, d) == AllocSum(a, d) + AllocSum(b, d)
    ensures AllocTotal(a + b) == AllocTotal(a) + AllocTotal(b)
  {
    if a == [] {
      assert a + b == b;
    } else {
      AllocSumConcat(a[1..], b, d);
      assert (a + b)[1..] == a[1..] + b;
    }
  }

  lemma TakeOne(allocs: seq<Alloc>, i: nat, d: Id)
    requires i < |allocs|
    ensures AllocSum(allocs[..i + 1], d) == AllocSum(allocs[..i], d) + (if allocs[i].doc == d then allocs[i].amount else 0)
    ensures AllocTotal(allocs[..i + 1]) == AllocTotal(allocs[..i]) + allocs[i].amount
  {
    assert allocs[..i + 1] == allocs[..i] + [allocs[i]];
    AllocSumConcat(allocs[..i], [allocs[i]], d);
    assert [allocs[i]][1..] == [];
  }

  lemma PrefixAtMost(allocs: seq<Alloc>, n: nat, d: Id)
    requires n <= |allocs| && AllocsPassCheck(allocs)
    ensures 0 <= AllocSum(allocs[..n], d) <= AllocSum(allocs, d)
  {
    assert allocs == allocs[..n] + allocs[n..];
    AllocSumConcat(allocs[..n], allocs[n..], d);
    AllocSumPositive(allocs[..n], d);
    AllocSumPositive(allocs[n..], d);
  }

  /** The running total is exact until it no longer fits the column, and then stays too large. */
  predicate Tracks(rounded: Amount, exact: Amount) {
    if exact < Money.LIMIT then rounded == exact else rounded >= Money.LIMIT
  }

  lemma AddTracks(rounded: Amount, exact: Amount, amount: Amount)
    requires Tracks(rounded, exact) && 0 <= exact && 0 < amount
    ensures Tracks(Money.Add(rounded, amount), exact + amount)
  {
    hide Money.Sig20;
    if exact + amount < Money.LIMIT {
      Money.AddExactIff(rounded, amount);
    } else {
      Money.SigMonotone(Money.LIMIT, rounded + amount);
      Money.AddExactIff(Money.LIMIT, 0);
    }
  }

  /** The loop's over-allocation test, given what this payment has allocated already. */
  predicate RoundedOver(d: Doc, already: Amount, amount: Amount) {
    Money.Subtract(Money.Subtract(Money.Subtract(d.total, d.paid), already), amount) < 0
  }

  lemma OverIsExact(d: Doc, already: Amount, amount: Amount)
    requires 0 <= d.paid < Money.LIMIT && 0 <= d.total < Money.LIMIT && (already == 0 || 0 < already <= d.total - d.paid)
    ensures RoundedOver(d, already, amount) <==> d.total - d.paid < already + amount
  {
    hide Money.Sig20;
    Money.AddExactIff(d.total, -d.paid);
    Money.AddExactIff(d.total - d.paid, -already);
    Money.SigSign(d.total - d.paid - already - amount);
  }

  function Allocated(m: map<Id, Amount>, d: Id): Amount { if d in m then m[d] else 0 }

  /** What the loop knows after the first n allocations. */
  ghost predicate Progress(docs: map<Id, Doc>, kind: Kind, partner: Id, allocs: seq<Alloc>, n: nat, m: map<Id, Amount>, total: Amount)
    requires n <= |allocs|
  {
    && AllocsPassCheck(allocs[..n]) && Allocatable(docs, kind, partner, allocs[..n])
    && Tracks(total, AllocTotal(allocs[..n])) && 0 <= AllocTotal(allocs[..n])
    && forall d: Id :: Allocated(m, d) == AllocSum(allocs[..n], d)
  }

  lemma Advances(docs: map<Id, Doc>, kind: Kind, partner: Id, allocs: seq<Alloc>, n: nat, m: map<Id, Amount>, total: Amount)
    requires n < |allocs| && DocsFit(docs) && Progress(docs, kind, partner, allocs, n, m, total)
    requires 0 < allocs[n].amount && MaySettle(docs, kind, partner, allocs[n].doc)
    requires !RoundedOver(docs[allocs[n].doc], Allocated(m, allocs[n].doc), allocs[n].amount)
    ensures var a := allocs[n]; Progress(docs, kind, partner, allocs, n + 1,
      m[a.doc := Money.Add(Allocated(m, a.doc), a.amount)], Money.Add(total, a.amount))
  {
    hide Money.Add, RoundedOver, AllocSum, AllocTotal, Allocatable, MaySettle, DocsFit, Tracks;
    var a, already, next := allocs[n], Allocated(m, allocs[n].doc), allocs[..n + 1];
    AddsExactly(docs, kind, partner, allocs, n, m);
    AddTracks(total, AllocTotal(allocs[..n]), a.amount);
    TakeOne(allocs, n, a.doc);
    AllocatableGrows(docs, kind, partner, allocs, n);
    var m2 := m[a.doc := already + a.amount];
    forall d: Id ensures Allocated(m2, d) == AllocSum(next, d) { TakeOne(allocs, n, d); }
  }

  lemma AddsExactly(docs: map<Id, Doc>, kind: Kind, partner: Id, allocs: seq<Alloc>, n: nat, m: map<Id, Amount>)
    requires n < |allocs| && DocsFit(docs) && 0 < allocs[n].amount && MaySettle(docs, kind, partner, allocs[n].doc)
    requires AllocsPassCheck(allocs[..n]) && Allocatable(docs, kind, partner, allocs[..n])
    requires Allocated(m, allocs[n].doc) == AllocSum(allocs[..n], allocs[n].doc)
    requires !RoundedOver(docs[allocs[n].doc], Allocated(m, allocs[n].doc), allocs[n].amount)
    ensures Money.Add(Allocated(m, allocs[n].doc), allocs[n].amount) == Allocated(m, allocs[n].doc) + allocs[n].amount
    ensures Within(docs, allocs[..n + 1], allocs[n].doc)
  {
    hide Money.Add, RoundedOver, AllocSum, Allocatable;
    var a, already := allocs[n], Allocated(m, allocs[n].doc);
    AlreadyWithin(docs, kind, partner, allocs[..n], a.doc);
    OverIsExact(docs[a.doc], already, a.amount);
    Money.AddExactIff(already, a.amount);
    TakeOne(allocs, n, a.doc);
  }

  lemma AllocatableGrows(docs: map<Id, Doc>, kind: Kind, partner: Id, allocs: seq<Alloc>, n: nat)
    requires n < |allocs| && Allocatable(docs, kind, partner, allocs[..n])
    requires MaySettle(docs, kind, partner, allocs[n].doc) && Within(docs, allocs[..n + 1], allocs[n].doc)
    ensures Allocatable(docs, kind, partner, allocs[..n + 1])
  {
    hide AllocSum;
    var front, next := allocs[..n], allocs[..n + 1];
    forall i | 0 <= i < |next| ensures MaySettle(docs, kind, partner, next[i].doc) && Within(docs, next, next[i].doc) {
      if next[i].doc != allocs[n].doc {
        assert front[i] == next[i];
        TakeOne(allocs, n, front[i].doc);
      }
    }
  }

  lemma AlreadyWithin(docs: map<Id, Doc>, kind: Kind, partner: Id, front: seq<Alloc>, d: Id)
    requires AllocsPassCheck(front) && Allocatable(docs, kind, partner, front) && d in docs
    ensures AllocSum(front, d) == 0 || 0 < AllocSum(front, d) <= docs[d].total - docs[d].paid
  {
    AllocSumPositive(front, d);
    if i :| 0 <= i < |front| && front[i].doc == d { assert Within(docs, front, front[i].doc); }
  }

  lemma Refuses(docs: map<Id, Doc>, kind: Kind, partner: Id, allocs: seq<Alloc>, n: nat, m: map<Id, Amount>, total: Amount)
    requires n < |allocs| && DocsFit(docs) && Progress(docs, kind, partner, allocs, n, m, total)
    requires MaySettle(docs, kind, partner, allocs[n].doc)
    requires RoundedOver(docs[allocs[n].doc], Allocated(m, allocs[n].doc), allocs[n].amount)
    ensures AllocsPassCheck(allocs) ==> !Within(docs, allocs, allocs[n].doc)
  {
    var a := allocs[n];
    AlreadyWithin(docs, kind, partner, allocs[..n], a.doc);
    OverIsExact(docs[a.doc], Allocated(m, a.doc), a.amount);
    TakeOne(allocs, n, a.doc);
    if AllocsPassCheck(allocs) { PrefixAtMost(allocs, n + 1, a.doc); }
  }

  /** createDraft: a draft is stored exactly when there is something to allocate, the partner is
      active and of the right kind, the cash account is postable, every amount is positive, every
      document is payable and all allocations to it together fit its outstanding, and the total
      fits its column.  The stored amount is the exact sum of the allocations. */
  method CreateDraft(db: Db, partners: map<Id, Partner>, kind: Kind, partner: Id, date: Day, cash: Id, allocs: seq<Alloc>)
    returns (r: Option<Pay>)
    requires DocsFit(db.docs)
    ensures r.Some? <==>
      && allocs != [] && AllocTotal(allocs) < Money.LIMIT
      && partner in partners && partners[partner].active
      && (if kind.Receivable? then partners[partner].customer else partners[partner].vendor)
      && cash in db.accounts && !db.accounts[cash].deleted && db.accounts[cash].postable && db.accounts[cash].active
      && forall i | 0 <= i < |allocs| ::
           var d := allocs[i].doc;
           && 0 < allocs[i].amount && d in db.docs && !db.docs[d].deleted && db.docs[d].status == Posted
           && db.docs[d].kind == kind && db.docs[d].partner == partner
           && AllocSum(allocs, d) <= db.docs[d].total - db.docs[d].paid
    ensures r.Some? ==> r.value == Pay(kind, partner, date, cash, AllocTotal(allocs), allocs, Draft, None, None, false)
  {
    if allocs == [] { return None; }
    if partner !in partners || !partners[partner].active { return None; }
    if kind.Receivable? && !partners[partner].customer { return None; }
    if kind.Payable? && !partners[partner].vendor { return None; }
    if cash !in db.accounts || db.accounts[cash].deleted || !db.accounts[cash].postable || !db.accounts[cash].active {
      return None;
    }
    var total, allocatedByDoc: map<Id, Amount> := 0, map[];
    hide Money.Add, Money.Subtract, AllocSum, AllocTotal, RoundedOver, DocsFit;
    ProgressStarts(db.docs, kind, partner, allocs);
    for n := 0 to |allocs|
      invariant Progress(db.docs, kind, partner, allocs, n, allocatedByDoc, total)
    {
      var a := allocs[n];
      if a.amount <= 0 { return None; }
      if a.doc !in db.docs || db.docs[a.doc].deleted || db.docs[a.doc].kind != kind { assert !MaySettle(db.docs, kind, partner, allocs[n].doc); return None; }
      if db.docs[a.doc].partner != partner || !db.docs[a.doc].status.Posted? { assert !MaySettle(db.docs, kind, partner, allocs[n].doc); return None; }
      var already := Allocated(allocatedByDoc, a.doc);
      if RoundedOver(db.docs[a.doc], already, a.amount) {
        Refuses(db.docs, kind, partner, allocs, n, allocatedByDoc, total);
        return None;
      }
      Advances(db.docs, kind, partner, allocs, n, allocatedByDoc, total);
      allocatedByDoc := allocatedByDoc[a.doc := Money.Add(already, a.amount)];
      total := Money.Add(total, a.amount);
    }
    assert allocs[..|allocs|] == allocs;
    if total >= Money.LIMIT { return None; }
    return Some(Pay(kind, partner, date, cash, total, allocs, Draft, None, None, false));
  }

  lemma ProgressStarts(docs: map<Id, Doc>, kind: Kind, partner: Id, allocs: seq<Alloc>)
    ensures Progress(docs, kind, partner, allocs, 0, map[], 0)
  {
    assert allocs[..0] == [];
  }

  // ---- against the locked check at posting ----------------------------------------------------------

  /** The draft-time check, which sums per document, agrees with the posting-time check, which
      settles one allocation after the other. */
  lemma {:induction false} DraftCheckIsSettlement(docs: map<Id, Doc>, kind: Kind, partner: Id, allocs: seq<Alloc>)
    requires AllocsPassCheck(allocs)
    ensures Allocatable(docs, kind, partner, allocs) <==> SettleAll(docs, kind, partner, allocs).Some?
    decreases |allocs|
  {
    if allocs != [] {
      var a, rest := allocs[0], allocs[1..];
      AllocSumPositive(rest, a.doc);
      if MaySettle(docs, kind, partner, a.doc) && !ExceedsOutstanding(docs[a.doc].total, docs[a.doc].paid, a.amount) {
        var docs2 := docs[a.doc := docs[a.doc].(paid := docs[a.doc].paid + a.amount)];
        DraftCheckIsSettlement(docs2, kind, partner, rest);
        RestAllocatable(docs, docs2, kind, partner, allocs);
      } else {
        assert MaySettle(docs, kind, partner, a.doc) ==> !Within(docs, allocs, allocs[0].doc);
      }
    }
  }

  lemma RestAllocatable(docs: map<Id, Doc>, docs2: map<Id, Doc>, kind: Kind, partner: Id, allocs: seq<Alloc>)
    requires allocs != [] && AllocsPassCheck(allocs) && MaySettle(docs, kind, partner, allocs[0].doc)
    requires !ExceedsOutstanding(docs[allocs[0].doc].total, docs[allocs[0].doc].paid, allocs[0].amount)
    requires docs2 == docs[allocs[0].doc := docs[allocs[0].doc].(paid := docs[allocs[0].doc].paid + allocs[0].amount)]
    ensures Allocatable(docs, kind, partner, allocs) <==> Allocatable(docs2, kind, partner, allocs[1..])
  {
    var a, rest := allocs[0], allocs[1..];
    if Allocatable(docs, kind, partner, allocs) {
      forall i | 0 <= i < |rest| ensures MaySettle(docs2, kind, partner, rest[i].doc) && Within(docs2, rest, rest[i].doc) {
        assert allocs[i + 1] == rest[i];
      }
    }
    if Allocatable(docs2, kind, partner, rest) {
      forall i | 0 <= i < |allocs| ensures MaySettle(docs, kind, partner, allocs[i].doc) && Within(docs, allocs, allocs[i].doc) {
        AllocSumPositive(rest, a.doc);
        if i > 0 {
          assert rest[i - 1] == allocs[i];
        } else if j :| 0 <= j < |rest| && rest[j].doc == a.doc {
          assert Within(docs2, rest, rest[j].doc);
        }
      }
    }
  }
}
