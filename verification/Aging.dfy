/** AR/AP aging (src/reporting/aging.service.ts) and its agreement with the ledger. */
module Aging {
  import opened Options
  import opened Ledger
  import opened Sums
  import opened Invariants
  import opened Subledger
  import opened ControlAccounts
  import opened Protocol
  import Money

  datatype Bucket = Current | Upto30 | Upto60 | Upto90 | Over90

  function BucketOf(daysPastDue: int): Bucket {
    if daysPastDue <= 0 then Current
    else if daysPastDue <= 30 then Upto30
    else if daysPastDue <= 60 then Upto60
    else if daysPastDue <= 90 then Upto90
    else Over90
  }

  /** One row of the open-item query. */
  datatype Item = Item(doc: Id, partner: Id, date: Day, due: Option<Day>, total: Amount, paidAsOf: Amount)

  function Open(r: Item): Amount { if r.total - r.paidAsOf <= 0 then 0 else r.total - r.paidAsOf }

  function ItemBucket(r: Item, day: Day): Bucket {
    BucketOf(day - (if r.due.Some? then r.due.value else r.date))
  }

  datatype Report = Report(
    truncated: bool,
    documents: map<Id, seq<Item>>,           // per partner
    buckets: map<Id, map<Bucket, Amount>>,   // per partner
    totals: map<Bucket, Amount>,
    totalOutstanding: Amount)

  // ---- what the report adds up ------------------------------------------------------------

  function Total(rows: seq<Item>): Amount {
    if rows == [] then 0 else Total(rows[..|rows| - 1]) + Open(rows[|rows| - 1])
  }

  function BucketTotal(rows: seq<Item>, day: Day, b: Bucket): Amount {
    if rows == [] then 0 else
      BucketTotal(rows[..|rows| - 1], day, b) +
      (if ItemBucket(rows[|rows| - 1], day) == b then Open(rows[|rows| - 1]) else 0)
  }

  function OfPartner(rows: seq<Item>, p: Id): seq<Item> {
    if rows == [] then [] else
      OfPartner(rows[..|rows| - 1], p) +
      (if rows[|rows| - 1].partner == p && 0 < Open(rows[|rows| - 1]) then [rows[|rows| - 1]] else [])
  }

  function ZeroBuckets(): map<Bucket, Amount> {
    map[Current := 0, Upto30 := 0, Upto60 := 0, Upto90 := 0, Over90 := 0]
  }

  ghost predicate BucketsOf(m: map<Bucket, Amount>, rows: seq<Item>, day: Day) {
    forall b: Bucket :: b in m && m[b] == BucketTotal(rows, day, b)
  }

  lemma NoItemsNoAmounts(day: Day)
    ensures BucketsOf(ZeroBuckets(), [], day)
  {
    forall b: Bucket ensures b in ZeroBuckets() && ZeroBuckets()[b] == 0 {
      assert b == Current || b == Upto30 || b == Upto60 || b == Upto90 || b == Over90;
    }
  }

  predicate HasBuckets(m: map<Bucket, Amount>) { forall b: Bucket :: b in m }

  lemma ZeroHasBuckets()
    ensures HasBuckets(ZeroBuckets())
  {
    forall b: Bucket ensures b in ZeroBuckets() {
      assert b == Current || b == Upto30 || b == Upto60 || b == Upto90 || b == Over90;
    }
  }

  /** Columns as the database holds them, and a total outstanding within 10^16 rupiah. */
  predicate ItemsFit(rows: seq<Item>) {
    && (forall i | 0 <= i < |rows| :: 0 <= rows[i].total <= Money.LIMIT && 0 <= rows[i].paidAsOf <= Money.LIMIT)
    && Total(rows) <= Money.LIMIT
  }

  lemma {:induction false} BucketWithin(rows: seq<Item>, day: Day, b: Bucket)
    ensures 0 <= BucketTotal(rows, day, b) <= Total(rows)
  {
    if rows != [] { BucketWithin(rows[..|rows| - 1], day, b); }
  }

  lemma {:induction false} PartnerWithin(rows: seq<Item>, p: Id)
    ensures 0 <= Total(OfPartner(rows, p)) <= Total(rows)
  {
    if rows != [] {
      PartnerWithin(rows[..|rows| - 1], p);
      var own := OfPartner(rows[..|rows| - 1], p);
      assert (own + [rows[|rows| - 1]])[..|own|] == own;
      assert own + [] == own;
    }
  }

  lemma {:induction false} PrefixTotal(rows: seq<Item>, n: nat)
    requires n <= |rows|
    ensures 0 <= Total(rows[..n]) <= Total(rows)
    decreases |rows|
  {
    if n == |rows| {
      assert rows[..n] == rows;
      if n > 0 { PrefixTotal(rows[..n - 1], 0); }
    } else {
      assert rows[..|rows| - 1][..n] == rows[..n];
      PrefixTotal(rows[..|rows| - 1], n);
    }
  }

  // Money arithmetic is exact for the next row, on the total and on any part of it.
  lemma NextIsExact(rows: seq<Item>, i: nat, part: Amount)
    requires ItemsFit(rows) && i < |rows| && 0 <= part <= Total(rows[..i])
    ensures Money.Subtract(rows[i].total, rows[i].paidAsOf) == rows[i].total - rows[i].paidAsOf
    ensures 0 < rows[i].total - rows[i].paidAsOf ==>
      Money.Add(part, rows[i].total - rows[i].paidAsOf) == part + (rows[i].total - rows[i].paidAsOf)
  {
    hide Money.Sig20;
    assert rows[..i + 1][..i] == rows[..i] && rows[..i + 1][i] == rows[i];
    PrefixTotal(rows, i + 1);
    Money.AddExactIff(rows[i].total, -rows[i].paidAsOf);
    Money.AddExactIff(part, rows[i].total - rows[i].paidAsOf);
  }

  lemma BucketAdds(m: map<Bucket, Amount>, part: seq<Item>, rows: seq<Item>, i: nat, day: Day)
    requires ItemsFit(rows) && i < |rows| && 0 < rows[i].total - rows[i].paidAsOf
    requires BucketsOf(m, part, day) && Total(part) <= Total(rows[..i])
    ensures var b, n := ItemBucket(rows[i], day), rows[i].total - rows[i].paidAsOf;
      b in m && BucketsOf(m[b := Money.Add(m[b], n)], part + [rows[i]], day)
  {
    hide Money.Add, ItemsFit;
    var bucket := ItemBucket(rows[i], day);
    BucketWithin(part, day, bucket);
    assert m[bucket] == BucketTotal(part, day, bucket);
    NextIsExact(rows, i, m[bucket]);
    assert (part + [rows[i]])[..|part|] == part;
  }

  /** The rows grouped by partner, with each partner's bucket totals. */
  ghost predicate Grouped(documents: map<Id, seq<Item>>, buckets: map<Id, map<Bucket, Amount>>, rows: seq<Item>, day: Day) {
    && documents.Keys == buckets.Keys
    && (forall p | p in documents :: documents[p] == OfPartner(rows, p) != [] && BucketsOf(buckets[p], documents[p], day))
    && (forall p: Id :: p !in documents ==> OfPartner(rows, p) == [])
  }

  lemma OfPartnerSnoc(rows: seq<Item>, row: Item, p: Id)
    ensures OfPartner(rows + [row], p) == OfPartner(rows, p) + (if row.partner == p && 0 < Open(row) then [row] else [])
  {
    assert (rows + [row])[..|rows|] == rows;
  }

  lemma GroupedStep(documents: map<Id, seq<Item>>, buckets: map<Id, map<Bucket, Amount>>, rows: seq<Item>, row: Item, own: map<Bucket, Amount>, day: Day)
    requires Grouped(documents, buckets, rows, day)
    requires 0 < Open(row) ==> BucketsOf(own, OfPartner(rows, row.partner) + [row], day)
    ensures if 0 < Open(row)
            then Grouped(documents[row.partner := OfPartner(rows, row.partner) + [row]], buckets[row.partner := own], rows + [row], day)
            else Grouped(documents, buckets, rows + [row], day)
  {
    hide BucketsOf, OfPartner;
    forall p: Id ensures OfPartner(rows + [row], p) == if row.partner == p && 0 < Open(row) then OfPartner(rows, p) + [row] else OfPartner(rows, p) {
      OfPartnerSnoc(rows, row, p);
    }
  }

  /** aging in Money arithmetic: while amounts stay within 10^16 rupiah, the totals, buckets and
      partner groups of the included rows, exactly. */
  method Aging(rows: seq<Item>, day: Day, maxDocs: nat) returns (r: Report)
    ensures r.truncated <==> maxDocs < |rows|
    ensures var included := if maxDocs < |rows| then rows[..maxDocs] else rows;
      ItemsFit(included) ==>
        && r.totalOutstanding == Total(included)
        && BucketsOf(r.totals, included, day)
        && Grouped(r.documents, r.buckets, included, day)
  {
    hide Grouped, BucketsOf, ItemsFit, Money.Add, Money.Subtract;
    var truncated := maxDocs < |rows|;
    var included := if truncated then rows[..maxDocs] else rows;
    var documents: map<Id, seq<Item>> := map[];
    var buckets: map<Id, map<Bucket, Amount>> := map[];
    var totals, total := ZeroBuckets(), 0;
    ZeroHasBuckets();
    NoItemsNoAmounts(day);
    NothingGrouped(day);
    for i := 0 to |included|
      invariant HasBuckets(totals) && forall p | p in buckets :: HasBuckets(buckets[p])
      invariant ItemsFit(included) ==> total == Total(included[..i]) && BucketsOf(totals, included[..i], day)
      invariant ItemsFit(included) ==> Grouped(documents, buckets, included[..i], day)
    {
      var row := included[i];
      assert included[..i + 1] == included[..i] + [row] && included[..i + 1][..i] == included[..i];
      if ItemsFit(included) {
        PrefixTotal(included, i);
        NextIsExact(included, i, Total(included[..i]));
      }
      var outstanding := Money.Subtract(row.total, row.paidAsOf);
      if outstanding <= 0 {
        if ItemsFit(included) {
          GroupedStep(documents, buckets, included[..i], row, map[], day);
          ClosedAddsNothing(totals, included[..i], row, day);
        }
        continue;
      }
      var bucket := ItemBucket(row, day);
      var docs := if row.partner in documents then documents[row.partner] else [];
      var own := if row.partner in buckets then buckets[row.partner] else ZeroBuckets();
      if ItemsFit(included) {
        OpenItem(documents, buckets, totals, included, i, day);
      }
      documents := documents[row.partner := docs + [row]];
      buckets := buckets[row.partner := own[bucket := Money.Add(own[bucket], outstanding)]];
      totals := totals[bucket := Money.Add(totals[bucket], outstanding)];
      total := Money.Add(total, outstanding);
    }
    assert included[..|included|] == included;
    r := Report(truncated, documents, buckets, totals, total);
  }

  // An open item enters its partner's group and its bucket.
  lemma OpenItem(documents: map<Id, seq<Item>>, buckets: map<Id, map<Bucket, Amount>>, totals: map<Bucket, Amount>,
                 rows: seq<Item>, i: nat, day: Day)
    requires ItemsFit(rows) && i < |rows| && 0 < rows[i].total - rows[i].paidAsOf && HasBuckets(totals)
    requires BucketsOf(totals, rows[..i], day) && Grouped(documents, buckets, rows[..i], day)
    requires forall p | p in buckets :: HasBuckets(buckets[p])
    ensures var row, n := rows[i], rows[i].total - rows[i].paidAsOf;
      var b := ItemBucket(row, day);
      var docs := if row.partner in documents then documents[row.partner] else [];
      var own := if row.partner in buckets then buckets[row.partner] else ZeroBuckets();
      && b in own && BucketsOf(totals[b := Money.Add(totals[b], n)], rows[..i] + [row], day)
      && Grouped(documents[row.partner := docs + [row]], buckets[row.partner := own[b := Money.Add(own[b], n)]], rows[..i] + [row], day)
  {
    hide Grouped, BucketsOf, ItemsFit, Money.Add, BucketTotal, OfPartner, Total;
    var row := rows[i];
    var docs := if row.partner in documents then documents[row.partner] else [];
    var own := if row.partner in buckets then buckets[row.partner] else ZeroBuckets();
    ZeroHasBuckets();
    PartnerSoFar(documents, buckets, rows[..i], row.partner, day);
    PartnerWithin(rows[..i], row.partner);
    BucketAdds(own, docs, rows, i, day);
    BucketAdds(totals, rows[..i], rows, i, day);
    var b := ItemBucket(row, day);
    GroupedStep(documents, buckets, rows[..i], row, own[b := Money.Add(own[b], row.total - row.paidAsOf)], day);
  }

  lemma NothingGrouped(day: Day)
    ensures Grouped(map[], map[], [], day)
  {
  }

  lemma ClosedAddsNothing(m: map<Bucket, Amount>, rows: seq<Item>, row: Item, day: Day)
    requires BucketsOf(m, rows, day) && row.total - row.paidAsOf <= 0
    ensures BucketsOf(m, rows + [row], day)
  {
    assert (rows + [row])[..|rows|] == rows;
  }

  lemma PartnerSoFar(documents: map<Id, seq<Item>>, buckets: map<Id, map<Bucket, Amount>>, rows: seq<Item>, p: Id, day: Day)
    requires Grouped(documents, buckets, rows, day)
    ensures documents.Keys == buckets.Keys
    ensures OfPartner(rows, p) == if p in documents then documents[p] else []
    ensures BucketsOf(if p in buckets then buckets[p] else ZeroBuckets(), OfPartner(rows, p), day)
  {
    NoItemsNoAmounts(day);
  }

  // ---- the buckets are ranges of days ----------------------------------------------------------

  /** What is open on some of the rows. */
  function TotalWhere(rows: seq<Item>, pick: Item -> bool): Amount {
    if rows == [] then 0 else
      TotalWhere(rows[..|rows| - 1], pick) + (if pick(rows[|rows| - 1]) then Open(rows[|rows| - 1]) else 0)
  }

  /** Days past due count from the due date, or from the document's date if it has none. */
  lemma {:induction false} BucketDays(rows: seq<Item>, day: Day)
    ensures BucketTotal(rows, day, Current) == TotalWhere(rows, (r: Item) => day <= (if r.due.Some? then r.due.value else r.date))
    ensures BucketTotal(rows, day, Upto30) == TotalWhere(rows, (r: Item) => 1 <= day - (if r.due.Some? then r.due.value else r.date) <= 30)
    ensures BucketTotal(rows, day, Upto60) == TotalWhere(rows, (r: Item) => 31 <= day - (if r.due.Some? then r.due.value else r.date) <= 60)
    ensures BucketTotal(rows, day, Upto90) == TotalWhere(rows, (r: Item) => 61 <= day - (if r.due.Some? then r.due.value else r.date) <= 90)
    ensures BucketTotal(rows, day, Over90) == TotalWhere(rows, (r: Item) => 90 < day - (if r.due.Some? then r.due.value else r.date))
  {
    if rows != [] { BucketDays(rows[..|rows| - 1], day); }
  }

  // ---- the totals agree with each other -------------------------------------------------------

  lemma {:induction false} BucketsSumToTotal(rows: seq<Item>, day: Day)
    ensures BucketTotal(rows, day, Current) + BucketTotal(rows, day, Upto30) + BucketTotal(rows, day, Upto60)
          + BucketTotal(rows, day, Upto90) + BucketTotal(rows, day, Over90) == Total(rows)
  {
    if rows != [] { BucketsSumToTotal(rows[..|rows| - 1], day); }
  }

  ghost function PartnerFn(rows: seq<Item>): nat -> int { (p: nat) => Total(OfPartner(rows, p)) }

  lemma {:induction false} PartnersSumToTotal(rows: seq<Item>, partners: set<Id>)
    requires forall p: Id :: p !in partners ==> OfPartner(rows, p) == []
    ensures SumOver(partners, PartnerFn(rows)) == Total(rows)
  {
    if rows == [] {
      SumZero(partners, PartnerFn(rows));
    } else {
      var front, last := rows[..|rows| - 1], rows[|rows| - 1];
      forall p: Id ensures p !in partners ==> OfPartner(front, p) == [] {
        if p !in partners { assert OfPartner(rows, p) == []; }
      }
      PartnersSumToTotal(front, partners);
      forall p: Id | p != last.partner || Open(last) <= 0 ensures OfPartner(rows, p) == OfPartner(front, p) {
        assert OfPartner(rows, p) == OfPartner(front, p) + [];
      }
      if 0 < Open(last) {
        assert last.partner in partners by { assert OfPartner(rows, last.partner) != []; }
        var own := OfPartner(front, last.partner);
        assert (own + [last])[..|own|] == own;
        SumChange(partners, PartnerFn(front), PartnerFn(rows), last.partner);
      } else {
        SumCong(partners, PartnerFn(front), PartnerFn(rows));
      }
    }
  }

  // ---- and with the ledger ----------------------------------------------------------------------

  ghost predicate IsOpen(db: Db, kind: Kind, day: Day, d: Id) {
    && d in db.docs && db.docs[d].kind == kind && db.docs[d].status.Posted? && !db.docs[d].deleted && db.docs[d].date <= day
    && PaidIn(db.pays, d, UpTo(day)) < db.docs[d].total
  }

  /** The rows are the open items of the query, each once, in any order. */
  ghost predicate IsQuery(db: Db, kind: Kind, day: Day, rows: seq<Item>) {
    && (forall i | 0 <= i < |rows| ::
          && IsOpen(db, kind, day, rows[i].doc)
          && rows[i].partner == db.docs[rows[i].doc].partner && rows[i].date == db.docs[rows[i].doc].date
          && rows[i].due == db.docs[rows[i].doc].due
          && rows[i].total == db.docs[rows[i].doc].total && rows[i].paidAsOf == PaidIn(db.pays, rows[i].doc, UpTo(day)))
    && (forall i, j | 0 <= i < j < |rows| :: rows[i].doc != rows[j].doc)
    && (forall d: Id :: IsOpen(db, kind, day, d) ==> exists i :: 0 <= i < |rows| && rows[i].doc == d)
  }

  ghost function RowDocs(rows: seq<Item>): set<Id> { set i | 0 <= i < |rows| :: rows[i].doc }

  lemma {:induction false} TotalIsSum(rows: seq<Item>, f: nat -> int)
    requires forall i | 0 <= i < |rows| :: f(rows[i].doc) == Open(rows[i])
    requires forall i, j | 0 <= i < j < |rows| :: rows[i].doc != rows[j].doc
    ensures SumOver(RowDocs(rows), f) == Total(rows)
  {
    if rows != [] {
      var front, last := rows[..|rows| - 1], rows[|rows| - 1];
      TotalIsSum(front, f);
      assert last.doc !in RowDocs(front);
      assert RowDocs(rows) == RowDocs(front) + {last.doc} by {
        forall d | d in RowDocs(rows) ensures d in RowDocs(front) + {last.doc} {
          var i :| 0 <= i < |rows| && rows[i].doc == d;
          if i < |front| { assert front[i].doc == d; }
        }
        forall d | d in RowDocs(front) ensures d in RowDocs(rows) {
          var i :| 0 <= i < |front| && front[i].doc == d;
          assert rows[i].doc == d;
        }
      }
      SumInsert(RowDocs(front), f, last.doc);
    }
  }

  lemma QueryIsOutstanding(db: Db, kind: Kind, day: Day, rows: seq<Item>)
    requires DocumentsOk(db) && SubledgerOk(db) && IsQuery(db, kind, day, rows)
    ensures Total(rows) == Outstanding(db, kind, UpTo(day))
  {
    hide DocumentsOk, SubledgerOk, PaidIn;
    var f, s := OutstandingFn(db, UpTo(day)), KindDocs(db.docs, kind);
    TotalIsSum(rows, f);
    forall d | d in s && d !in RowDocs(rows) ensures f(d) == 0 {
      ClosedItem(db, kind, day, d);
    }
    SumSubset(s, RowDocs(rows), f);
  }

  // A document that is not an open item has nothing outstanding.
  lemma ClosedItem(db: Db, kind: Kind, day: Day, d: Id)
    requires DocumentsOk(db) && SubledgerOk(db) && d in db.docs && db.docs[d].kind == kind && !IsOpen(db, kind, day, d)
    ensures OutstandingAt(db, d, UpTo(day)) == 0
  {
    assert DocOk(db, db.docs[d]) && DocPaidOk(db.docs, db.pays, d);
    assert forall p | p in db.pays :: PayOk(db, db.pays[p]);
    PaidNonNegative(db.pays, d, UpTo(day));
  }

  /** In every clean run, at every date: the untruncated aging total differs from the control
      account's ledger balance exactly by the documents re-dated while being posted and by what
      was paid by then on documents dated later. */
  lemma AgingGap(states: seq<System>, events: seq<Event>, i: nat, kind: Kind, day: Day, rows: seq<Item>)
    requires IsCleanRun(states, events) && i < |states| && IsQuery(states[i].db, kind, day, rows)
    ensures Total(rows)
         == ControlBalance(states[i].db, kind, UpTo(day)) - Misdated(states[i].db, kind, UpTo(day)) + Prepaid(states[i].db, kind, UpTo(day))
  {
    hide ControlOk, SubledgerOk, DocumentsOk, IsCleanRun, IsRun, IsQuery;
    ControlHolds(states, events, i);
    RunPart(states, events);
    SubledgerHolds(states, events, i);
    RunOk(states, events, i);
    QueryIsOutstanding(states[i].db, kind, day, rows);
    ControlIsOutstanding(states[i].db, kind, UpTo(day));
  }

  /** In every clean run in which no draft is re-dated while it is posted, the aging total at a
      date is the control balance at that date if and only if no payment dated by then settles a
      document dated later. */
  lemma AgingMatchesLedger(states: seq<System>, events: seq<Event>, i: nat, kind: Kind, day: Day, rows: seq<Item>)
    requires IsCleanRun(states, events) && NoneRedated(states, events) && i < |states|
    requires IsQuery(states[i].db, kind, day, rows)
    ensures Total(rows) == ControlBalance(states[i].db, kind, UpTo(day)) <==> !HasPrepayment(states[i].db, kind, UpTo(day))
  {
    hide SubledgerOk, DocumentsOk, IsCleanRun, IsRun, IsQuery, NoneRedated, DatesAgree, HasPrepayment;
    AgingGap(states, events, i, kind, day, rows);
    RunPart(states, events);
    DatesHold(states, events, i);
    NothingMisdated(states[i].db, kind, UpTo(day));
    SubledgerHolds(states, events, i);
    RunOk(states, events, i);
    PrepaidIff(states[i].db, kind, UpTo(day));
  }
}
