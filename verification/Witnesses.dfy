/** Concrete runs from an empty ledger that show why the conditions of the theorems are there:
two payments that deadlock, a draft re-dated while it is posted, and a close that is overtaken
by a posting. */
module Witnesses {
  import opened Options
  import opened Ledger
  import opened Statements
  import opened Operations
  import opened Serializability
  import opened Preparation
  import opened Invariants
  import opened Protocol
  import opened Executions
  import AssertBalanced
  import Calendar
  import Money
  import Tax
  import LockOrder
  import Deadlock
  import C = ControlAccounts
  import ControlSide
  import Aging
  import Y = YearEndClose
  import Sweep

  // ---- an empty ledger with five accounts ------------------------------------------------------------

  const AR: Id := 0
  const AP: Id := 1
  const REVENUE: Id := 2
  const CASH: Id := 3
  const RETAINED: Id := 4

  /** 365 days of 1970 with a fiscal year that starts in January. */
  const CONFIG: Config := Config(1, AR, AP, RETAINED)

  function Open(t: AccountType, s: Subtype): Account { Account(t, s, t.Asset?, None, true, NoCategory, true, false) }

  const CHART: map<Id, Account> := map[
    AR := Open(Asset, CurrentAsset), AP := Open(Liability, CurrentLiability), REVENUE := Open(Revenue, RevenueAccount),
    CASH := Open(Asset, CurrentAsset), RETAINED := Open(Equity, EquityAccount)]

  const EMPTY: Db := Db(CONFIG, CHART, map[], map[], map[], map[], map[], map[], map[], map[])

  const YEAR: Period := Period(1970, 0, 364, true)

  lemma StartsEmpty()
    ensures Initial(System(EMPTY, {}, map[]))
  {
  }

  /** The ledger with one period, open, covering 1970, and no year closed. */
  predicate InYear(s: System) {
    && s.running == map[] && s.db.config == CONFIG && s.db.accounts == CHART && s.db.years == map[]
    && s.db.periods == map[0 := YEAR]
  }

  lemma Year1970(d: Day)
    ensures Calendar.PlainYear(1970, 1) && Calendar.FiscalYearStart(1970, 1) == 0 && Calendar.FiscalYearEnd(1970, 1) == 364
    ensures 0 <= d <= 364 <==> Calendar.FiscalYearForDate(d, 1) == 1970
  {
    hide Calendar.FiscalYearForDate, Calendar.FiscalYearStart, Calendar.FiscalYearEnd, Calendar.MonthStart;
    Months1970();
    Calendar.PlainBounds(1970, 1);
    Calendar.FiscalYearOfDate(d, 1970, 1);
  }

  lemma Months1970()
    ensures Calendar.MonthStart(23640) == 0 && Calendar.MonthStart(23652) == 365
  {
    assert 23640 / 12 == 1970 && 23640 % 12 == 0 && 23652 / 12 == 1971 && 23652 % 12 == 0;
  }

  lemma OpensYear() returns (s: System)
    ensures InYear(s) && s.db == EMPTY.(periods := map[0 := YEAR]) && Reaches(System(EMPTY, {}, map[]), s)
    ensures s.prepared == {AddPeriod(0, YEAR)}
  {
    var op := AddPeriod(0, YEAR);
    s := System(EMPTY.(periods := EMPTY.periods[0 := YEAR]), {} + {op}, map[]);
    PreparesAndPerforms(System(EMPTY, {}, map[]), op, s.db);
  }

  // ---- postings ------------------------------------------------------------------------------------------

  function Booking(date: Day, source: Source, lines: seq<Line>): Posting { Posting(date, source, lines, 1970, 0) }

  /** n debited to one account and credited to another. */
  function Pair(debited: Id, credited: Id, n: Amount): seq<Line> { [Line(credited, 0, n), Line(debited, n, 0)] }

  lemma PairIsBalanced(debited: Id, credited: Id, n: Amount)
    requires 0 < n <= Money.LIMIT
    ensures Balanced(Pair(debited, credited, n)) && AssertBalanced.Accepts(Pair(debited, credited, n)) && AssertBalanced.InRange(Pair(debited, credited, n))
    ensures forall accounts: iset<Id> ::
      Net(Pair(debited, credited, n), accounts) == (if debited in accounts then n else 0) - (if credited in accounts then n else 0)
  {
    var lines := Pair(debited, credited, n);
    forall accounts: iset<Id>
      ensures Debits(lines, accounts) == (if debited in accounts then n else 0) && Credits(lines, accounts) == (if credited in accounts then n else 0)
    {
      assert lines[..1] == [lines[0]] && [lines[0]][..0] == [];
      assert Debits([lines[0]], accounts) == 0;
      assert Credits([lines[0]], accounts) == if credited in accounts then n else 0;
    }
    hide AssertBalanced.Accepts;
    AssertBalanced.AcceptsIffBalanced(lines);
  }

  lemma LinesPrepare(s: System, date: Day, source: Source, lines: seq<Line>)
    requires InYear(s) && 0 <= date <= 364 && AssertBalanced.Accepts(lines) && AssertBalanced.InRange(lines)
    requires forall i | 0 <= i < |lines| :: lines[i].account in CHART
    ensures PreparesPosting(s.db, Booking(date, source, lines))
  {
    hide Calendar.FiscalYearForDate, Calendar.FiscalYearStart, Calendar.FiscalYearEnd, AssertBalanced.Accepts, AssertBalanced.InRange;
    Year1970(date);
  }

  lemma BookingPrepares(s: System, date: Day, source: Source, debited: Id, credited: Id, n: Amount)
    requires InYear(s) && 0 <= date <= 364 && debited in CHART && credited in CHART && 0 < n <= Money.LIMIT
    ensures PreparesPosting(s.db, Booking(date, source, Pair(debited, credited, n)))
    ensures LinesPassCheck(Pair(debited, credited, n))
  {
    hide AssertBalanced.Accepts, AssertBalanced.InRange, PreparesPosting, InYear;
    PairIsBalanced(debited, credited, n);
    LinesPrepare(s, date, source, Pair(debited, credited, n));
  }

  // ---- documents -------------------------------------------------------------------------------------------

  function Draft(date: Day): Doc { Doc(Receivable, 0, date, None, 10, 0, Status.Draft, None, None, false) }

  function Invoice(date: Day): Posting { Booking(date, SalesInvoice, Pair(AR, REVENUE, 10)) }

  lemma InvoiceIsCalculated()
    ensures Tax.Invoiced(CONFIG, Receivable, 10, Pair(AR, REVENUE, 10))
  {
    var items, codes: map<Id, Tax.TaxCode> := [Tax.TaxLine(REVENUE, 10, [])], map[];
    assert items[..0] == [] && Tax.Subtotal(items) == 10;
    assert Tax.CodesOf(items) == [] by { assert Tax.CodesOf(items[..0]) == []; }
    assert Tax.Valid(Tax.Sale, items, codes);
    var rows := Tax.Taxes(Tax.Sale, items, codes);
    assert Tax.Rows(items, [], codes) == [];
    assert rows == [];
    assert Tax.Levied(rows, true) == 0 && Tax.Levied(rows, false) == 0;
    assert Tax.JournalLines(Tax.Sale, AR, items, rows) == Pair(AR, REVENUE, 10);
    assert Tax.CalculatedAs(CONFIG, Receivable, items, codes, 10, Pair(AR, REVENUE, 10));
  }

  lemma InvoicePrepares(s: System, d: Id, e: Id, date: Day)
    requires InYear(s) && 0 <= date <= 364 && d in s.db.docs && s.db.docs[d] == Draft(date)
    ensures Prepares(s.db, PostDoc(e, d, Receivable, 10, Invoice(date)))
  {
    hide PreparesPosting, Tax.Invoiced;
    BookingPrepares(s, date, SalesInvoice, AR, REVENUE, 10);
    InvoiceIsCalculated();
  }

  /** What posting document d under entry e leaves behind. */
  ghost predicate Invoiced(a: Db, d: Id, e: Id, date: Day, b: Db) {
    && e !in a.entries && d in a.docs
    && d in b.docs && b.docs == a.docs[d := a.docs[d].(status := Posted, total := 10, number := b.docs[d].number, entry := Some(e))]
    && e in b.entries && b.entries == a.entries[e := b.entries[e]]
    && b.entries[e].lines == Pair(AR, REVENUE, 10) && b.entries[e].date == date && b.entries[e].stamp.Some? && !b.entries[e].deleted
    && b.pays == a.pays && b.config == a.config && b.accounts == a.accounts && b.years == a.years && b.periods == a.periods
  }

  lemma InvoiceEffect(s: System, d: Id, e: Id, date: Day) returns (b: Db)
    requires InYear(s) && DocIs(s.db, d, Status.Draft) && e !in s.db.entries
    ensures Effect(PostDoc(e, d, Receivable, 10, Invoice(date)), s.db) == Some(b) && Invoiced(s.db, d, e, date, b)
  {
    PairIsBalanced(AR, REVENUE, 10);
    b := Effect(PostDoc(e, d, Receivable, 10, Invoice(date)), s.db).value;
  }

  lemma CreatesDraft(s: System, d: Id, date: Day) returns (s2: System)
    requires InYear(s) && d !in s.db.docs
    ensures Reaches(s, s2) && InYear(s2) && s2.db == s.db.(docs := s.db.docs[d := Draft(date)])
    ensures s2.prepared == s.prepared + {CreateDoc(d, Draft(date))}
  {
    var op := CreateDoc(d, Draft(date));
    s2 := s.(db := s.db.(docs := s.db.docs[d := Draft(date)]), prepared := s.prepared + {op});
    PreparesAndPerforms(s, op, s2.db);
  }

  lemma PostsInvoice(s: System, d: Id, e: Id, date: Day) returns (s2: System)
    requires InYear(s) && 0 <= date <= 364 && d in s.db.docs && s.db.docs[d] == Draft(date) && e !in s.db.entries
    ensures Reaches(s, s2) && InYear(s2) && Invoiced(s.db, d, e, date, s2.db)
    ensures s2.prepared == s.prepared + {PostDoc(e, d, Receivable, 10, Invoice(date))}
  {
    hide Prepares, Effect, Invoiced;
    var op := PostDoc(e, d, Receivable, 10, Invoice(date));
    InvoicePrepares(s, d, e, date);
    var b := InvoiceEffect(s, d, e, date);
    s2 := s.(db := b, prepared := s.prepared + {op});
    InvoiceKeepsYear(s, d, e, date, s2);
    PreparesAndPerforms(s, op, b);
  }

  lemma InvoiceKeepsYear(s: System, d: Id, e: Id, date: Day, s2: System)
    requires InYear(s) && Invoiced(s.db, d, e, date, s2.db) && s2.running == s.running
    ensures InYear(s2)
  {
  }

  // ---- two payments that deadlock ----------------------------------------------------------------------------

  function Payment(allocs: seq<Alloc>): Pay { Pay(Receivable, 0, 1, CASH, 2, allocs, Status.Draft, None, None, false) }

  const THERE: seq<Alloc> := [Alloc(0, 1), Alloc(1, 1)]
  const BACK: seq<Alloc> := [Alloc(1, 1), Alloc(0, 1)]

  function Paying(e: Id, p: Id, allocs: seq<Alloc>): Op {
    PostPay(e, p, Payment(allocs), Booking(1, Source.Payment, PaymentLines(CONFIG, Payment(allocs))))
  }

  lemma TwoAllocs(allocs: seq<Alloc>)
    requires allocs == THERE || allocs == BACK
    ensures AllocTotal(allocs) == 2 && AllocsPassCheck(allocs)
  {
    assert allocs[1..] == [allocs[1]] && allocs[1..][1..] == [];
    assert AllocTotal(allocs[1..]) == 1;
  }

  lemma DraftsPayment(s: System, p: Id, allocs: seq<Alloc>) returns (s2: System)
    requires InYear(s) && p !in s.db.pays && (allocs == THERE || allocs == BACK)
    ensures Reaches(s, s2) && InYear(s2) && s2.db == s.db.(pays := s.db.pays[p := Payment(allocs)])
  {
    TwoAllocs(allocs);
    var op := CreatePay(p, Payment(allocs));
    s2 := s.(db := s.db.(pays := s.db.pays[p := Payment(allocs)]), prepared := s.prepared + {op});
    PreparesAndPerforms(s, op, s2.db);
  }

  lemma PaymentLinesBalance(allocs: seq<Alloc>)
    ensures var lines := PaymentLines(CONFIG, Payment(allocs));
      && AssertBalanced.Accepts(lines) && AssertBalanced.InRange(lines) && forall i | 0 <= i < |lines| :: lines[i].account in CHART
  {
    hide AssertBalanced.Accepts;
    var lines := PaymentLines(CONFIG, Payment(allocs));
    assert lines == [Line(CASH, 2, 0), Line(AR, 0, 2)];
    assert lines[..1] == [lines[0]] && [lines[0]][..0] == [];
    assert Debits([], EVERY) == 0 && Credits([], EVERY) == 0;
    assert Debits([lines[0]], EVERY) == 2 && Credits([lines[0]], EVERY) == 0;
    AssertBalanced.AcceptsIffBalanced(lines);
  }

  lemma PaymentPrepares(s: System, e: Id, p: Id, allocs: seq<Alloc>)
    requires InYear(s) && p in s.db.pays && s.db.pays[p] == Payment(allocs)
    ensures Prepares(s.db, Paying(e, p, allocs))
  {
    hide PreparesPosting, AssertBalanced.Accepts, AssertBalanced.InRange, PaymentLines;
    PaymentLinesBalance(allocs);
    LinesPrepare(s, 1, Source.Payment, PaymentLines(CONFIG, Payment(allocs)));
  }

  /** Two posted documents of partner 0 with nothing paid. */
  predicate TwoOpen(docs: map<Id, Doc>) {
    0 in docs && IsOpen(docs[0]) && 1 in docs && IsOpen(docs[1])
  }

  predicate IsOpen(d: Doc) {
    !d.deleted && d.status.Posted? && d.kind.Receivable? && d.partner == 0 && d.total == 10 && d.paid == 0
  }

  lemma SettlesBoth(docs: map<Id, Doc>, allocs: seq<Alloc>)
    requires TwoOpen(docs) && (allocs == THERE || allocs == BACK)
    ensures SettleAll(docs, Receivable, 0, allocs).Some?
  {
    assert allocs[1..] == [allocs[1]] && allocs[1..][1..] == [];
    var a := allocs[0];
    var docs2 := docs[a.doc := docs[a.doc].(paid := docs[a.doc].paid + a.amount)];
    assert SettleAll(docs2, Receivable, 0, [allocs[1]]).Some?;
  }

  lemma PreparesPayment(s: System, e: Id, p: Id, allocs: seq<Alloc>) returns (s2: System)
    requires InYear(s) && p in s.db.pays && s.db.pays[p] == Payment(allocs)
    ensures Reaches(s, s2) && s2 == s.(prepared := s.prepared + {Paying(e, p, allocs)})
  {
    hide Prepares;
    PaymentPrepares(s, e, p, allocs);
    s2 := s.(prepared := s.prepared + {Paying(e, p, allocs)});
    ReachesItself(s);
    ReachesThen(s, s, Prepare(Paying(e, p, allocs)), s2);
  }

  lemma TwoInvoices() returns (s: System)
    ensures InYear(s) && TwoOpen(s.db.docs) && s.db.pays == map[] && Reaches(System(EMPTY, {}, map[]), s)
  {
    hide Reaches;
    var s0 := System(EMPTY, {}, map[]);
    var s1 := OpensYear();
    var s2 := CreatesDraft(s1, 0, 0);
    var s3 := CreatesDraft(s2, 1, 0);
    var s4 := PostsInvoice(s3, 0, 0, 0);
    s := PostsInvoice(s4, 1, 1, 0);
    ReachesTransitive(s0, s1, s2);
    ReachesTransitive(s0, s2, s3);
    ReachesTransitive(s0, s3, s4);
    ReachesTransitive(s0, s4, s);
  }

  lemma OppositeGates()
    ensures Deadlock.GatesDiffer(Deadlock.AllocDocs(THERE), Deadlock.AllocDocs(BACK))
  {
    var x, y := Deadlock.AllocDocs(THERE), Deadlock.AllocDocs(BACK);
    assert x == [0, 1] && y == [1, 0];
    assert x[0] in y && y[0] in x;
  }

  /** A run from the empty ledger that ends in a deadlock of two payments. */
  lemma PaymentsDeadlock() returns (states: seq<System>, events: seq<Event>)
    ensures IsRun(states, events)
    ensures Deadlock.Deadlocked(states[|events|], Paying(10, 0, THERE), Paying(11, 1, BACK))
  {
    hide Reaches, InYear, SettleAll, Deadlock.GatesDiffer, Deadlock.Deadlocked, SystemOk, LockOrder.CyclicWait;
    var start := System(EMPTY, {}, map[]);
    StartsEmpty();
    var s0 := TwoInvoices();
    var s1 := DraftsPayment(s0, 0, THERE);
    var s2 := DraftsPayment(s1, 1, BACK);
    var s3 := PreparesPayment(s2, 10, 0, THERE);
    YearStays(s2, s3);
    var s4 := PreparesPayment(s3, 11, 1, BACK);
    YearStays(s3, s4);
    ReachesTransitive(start, s0, s1);
    ReachesTransitive(start, s1, s2);
    ReachesTransitive(start, s2, s3);
    ReachesTransitive(start, s3, s4);
    SettlesBoth(s4.db.docs, THERE);
    SettlesBoth(s4.db.docs, BACK);
    OppositeGates();
    InitialOk(start);
    ReachesOk(start, s4);
    BetweenTransactions(s4);
    Deadlock.TwoPaymentsDeadlockIff(s4, Paying(10, 0, THERE), Paying(11, 1, BACK));
    var b :| Reaches(s4, b) && Deadlock.Deadlocked(b, Paying(10, 0, THERE), Paying(11, 1, BACK));
    ReachesTransitive(start, s4, b);
    states, events := ReachedByRun(start, b);
  }

  lemma YearStays(s: System, s2: System)
    requires InYear(s) && s2.db == s.db && s2.running == s.running
    ensures InYear(s2)
  {
  }

  lemma BetweenTransactions(s: System)
    requires InYear(s)
    ensures s.running == map[]
  {
  }

  // ---- a draft re-dated while it is being posted -----------------------------------------------------------------

  /** All the operations that can have committed keep to the rules of clean runs. */
  ghost predicate AllClean(ops: set<Op>) { forall op | op in ops :: C.Clean(EMPTY, op) }

  lemma {:induction false} PathGrows(states: seq<System>, events: seq<Event>, a: System, b: System, i: nat)
    requires Path(states, events, a, b) && SystemOk(a) && i < |states|
    ensures states[|events|].prepared >= states[i].prepared && states[i].db.config == states[|events|].db.config
    decreases |states| - i
  {
    hide SystemOk, Steps;
    if i < |events| {
      PathGrows(states, events, a, b, i + 1);
      PathOk(states, events, a, b, i);
      StepGrows(states[i], events[i], states[i + 1]);
    }
  }

  lemma StepGrows(s: System, e: Event, s2: System)
    requires SystemOk(s) && Steps(s, e, s2)
    ensures s2.prepared >= s.prepared && s2.db.config == s.db.config
  {
    hide SystemOk, Prepares, Advance, ChartChange, View, Grants;
    if e.Commit? { CommitFrames(s, e.t, s2); }
  }

  lemma CommitFrames(s: System, t: nat, s2: System)
    requires SystemOk(s) && Steps(s, Commit(t), s2)
    ensures s2.db.config == s.db.config && s2.prepared == s.prepared && s.running[t].0 in s.prepared
  {
    hide Effect, LedgerOk, StillGood, Current;
    assert RunningOk(s, t);
    CommitIsEffect(s, t);
    DocumentShape(s.running[t].0, s.db);
  }

  lemma CleanByConfig(a: Db, b: Db, op: Op)
    requires a.config == b.config && C.Clean(a, op)
    ensures C.Clean(b, op)
  {
  }

  lemma CleanRun(a: System, b: System) returns (states: seq<System>, events: seq<Event>)
    requires Initial(a) && Reaches(a, b) && b.db.config == CONFIG && AllClean(b.prepared)
    ensures C.IsCleanRun(states, events) && states[|events|] == b
  {
    hide Steps, SystemOk, C.Clean;
    states, events := ReachedByRun(a, b);
    InitialOk(a);
    assert Path(states, events, a, b);
    PathGrows(states, events, a, b, 0);
    forall i | 0 <= i < |events| && events[i].Commit? && events[i].t in states[i].running
      ensures C.Clean(states[i].db, states[i].running[events[i].t].0)
    {
      PathGrows(states, events, a, b, i);
      PathOk(states, events, a, b, i);
      assert Steps(states[i], events[i], states[i + 1]);
      CommitFrames(states[i], events[i].t, states[i + 1]);
      CleanByConfig(EMPTY, states[i].db, states[i].running[events[i].t].0);
    }
  }

  lemma Redates(s: System) returns (s2: System)
    requires InYear(s) && s.db.docs == map[0 := Draft(0)]
    ensures Reaches(s, s2) && InYear(s2) && s2.db == s.db.(docs := map[0 := Draft(5)])
    ensures s2.prepared == s.prepared + {UpdateDoc(0, 5, None, 10)}
  {
    var op := UpdateDoc(0, 5, None, 10);
    s2 := s.(db := s.db.(docs := map[0 := Draft(5)]), prepared := s.prepared + {op});
    assert s.db.docs[0 := Draft(5)] == map[0 := Draft(5)];
    PreparesAndPerforms(s, op, s2.db);
  }

  const POST: Op := PostDoc(0, 0, Receivable, 10, Invoice(0))

  // Reads the draft dated 0, re-dates it to 5, and posts it as read.
  lemma PostsRedated() returns (s: System)
    ensures Reaches(System(EMPTY, {}, map[]), s) && s.db.config == CONFIG && s.db.pays == map[]
    ensures s.prepared == {AddPeriod(0, YEAR), CreateDoc(0, Draft(0)), UpdateDoc(0, 5, None, 10), POST}
    ensures s.db.docs.Keys == {0} && s.db.docs[0].status.Posted? && s.db.docs[0].kind.Receivable? && s.db.docs[0].date == 5
    ensures s.db.entries.Keys == {0} && s.db.entries[0].lines == Pair(AR, REVENUE, 10) && s.db.entries[0].date == 0
    ensures s.db.entries[0].stamp.Some? && !s.db.entries[0].deleted
  {
    hide Reaches, Prepares, Effect;
    var s0 := System(EMPTY, {}, map[]);
    var s1 := OpensYear();
    var s2 := CreatesDraft(s1, 0, 0);
    InvoicePrepares(s2, 0, 0, 0);
    var s3 := s2.(prepared := s2.prepared + {POST});
    ReachesItself(s2);
    ReachesThen(s2, s2, Prepare(POST), s3);
    assert s3.db.docs == map[0 := Draft(0)];
    var s4 := Redates(s3);
    var b := InvoiceEffect(s4, 0, 0, 0);
    s := s4.(db := b);
    Performs(s4, POST, b);
    ReachesTransitive(s0, s1, s2);
    ReachesTransitive(s0, s2, s3);
    ReachesTransitive(s0, s3, s4);
    ReachesTransitive(s0, s4, s);
  }

  lemma OneEntryBalance(entries: map<Id, Entry>, accounts: iset<Id>, w: Window)
    requires entries.Keys == {0}
    ensures Balance(entries, accounts, w) == EntryNet(entries[0], accounts, w)
  {
    assert entries == map[][0 := entries[0]];
    BalanceInsert(map[], 0, entries[0], accounts, w);
  }

  lemma TheseAreClean()
    ensures AllClean({AddPeriod(0, YEAR), CreateDoc(0, Draft(0)), UpdateDoc(0, 5, None, 10), POST})
  {
    assert Tax.ItemLines(Pair(AR, REVENUE, 10)) == [Line(REVENUE, 0, 10)];
  }

  /** A clean run after which the control account shows the invoice on day 0 and the aging report
      does not: the draft was re-dated to day 5 between being read and being posted. */
  lemma RedatingDisagrees() returns (states: seq<System>, events: seq<Event>)
    ensures C.IsCleanRun(states, events)
    ensures var db := states[|events|].db;
      Aging.IsQuery(db, Receivable, 0, []) && Aging.Total([]) == 0 && C.ControlBalance(db, Receivable, UpTo(0)) == 10
  {
    hide Reaches, C.IsCleanRun, AllClean, Pair;
    StartsEmpty();
    var s := PostsRedated();
    TheseAreClean();
    states, events := CleanRun(System(EMPTY, {}, map[]), s);
    OneEntryBalance(s.db.entries, ControlSide.Control(CONFIG, Receivable), UpTo(0));
    PairIsBalanced(AR, REVENUE, 10);
  }

  // ---- a close overtaken by a posting ------------------------------------------------------------------------

  function Sale(e: Id): Op { PostEntry(e, Booking(0, Manual, Pair(CASH, REVENUE, 10))) }

  /** The closing entry of a year that earned 10. */
  const CLOSE: Op := CloseYear(9, 1970, 10, Booking(364, Source.Closing, Pair(REVENUE, RETAINED, 10)))

  lemma Sells(s: System, e: Id) returns (s2: System)
    requires InYear(s) && e !in s.db.entries
    ensures Reaches(s, s2) && InYear(s2) && s2.prepared == s.prepared + {Sale(e)}
    ensures s2.db.entries.Keys == s.db.entries.Keys + {e}
    ensures forall accounts: iset<Id>, w ::
      Balance(s2.db.entries, accounts, w) == Balance(s.db.entries, accounts, w) + C.At(w, 0, Net(Pair(CASH, REVENUE, 10), accounts))
  {
    hide Reaches, PreparesPosting, Net, Balance, Pair;
    BookingPrepares(s, 0, Manual, CASH, REVENUE, 10);
    var p := Booking(0, Manual, Pair(CASH, REVENUE, 10));
    var b := PostEffect(s.db, e, p).value;
    assert Effect(Sale(e), s.db) == Some(b);
    s2 := s.(db := b, prepared := s.prepared + {Sale(e)});
    PreparesAndPerforms(s, Sale(e), b);
    forall accounts: iset<Id>, w
      ensures Balance(b.entries, accounts, w) == Balance(s.db.entries, accounts, w) + C.At(w, 0, Net(Pair(CASH, REVENUE, 10), accounts))
    {
      C.PostMovesBalance(s.db, e, p, accounts, w);
    }
  }

  lemma ClosesAsRead(s: System) returns (s2: System)
    requires InYear(s) && CLOSE in s.prepared && 9 !in s.db.entries
    ensures Reaches(s, s2) && YearClosed(s2.db, 1970) && s2.db.config == CONFIG && s2.db.accounts == CHART
    ensures forall accounts: iset<Id>, w ::
      Balance(s2.db.entries, accounts, w) == Balance(s.db.entries, accounts, w) + C.At(w, 364, Net(Pair(REVENUE, RETAINED, 10), accounts))
  {
    hide Reaches, Net, Balance, Pair;
    PairIsBalanced(REVENUE, RETAINED, 10);
    var p := Booking(364, Source.Closing, Pair(REVENUE, RETAINED, 10));
    var b := Effect(CLOSE, s.db).value;
    s2 := s.(db := b);
    Performs(s, CLOSE, b);
    forall accounts: iset<Id>, w
      ensures Balance(b.entries, accounts, w) == Balance(s.db.entries, accounts, w) + C.At(w, 364, Net(Pair(REVENUE, RETAINED, 10), accounts))
    {
      C.PostMovesBalance(s.db, 9, p, accounts, w);
    }
  }

  lemma OnRevenue()
    ensures Net(Pair(CASH, REVENUE, 10), iset{REVENUE}) == -10 && Net(Pair(REVENUE, RETAINED, 10), iset{REVENUE}) == 10
    ensures Sweep.ProfitAndLoss(EMPTY) == iset{REVENUE}
  {
    PairIsBalanced(CASH, REVENUE, 10);
    PairIsBalanced(REVENUE, RETAINED, 10);
    forall a: Id ensures a in Sweep.ProfitAndLoss(EMPTY) <==> a in iset{REVENUE} {
      if a in CHART { assert a == AR || a == AP || a == REVENUE || a == CASH || a == RETAINED; }
    }
  }

  lemma YearWindow()
    ensures Y.Plain(CONFIG, 1970) && Y.Year(CONFIG, 1970) == Between(0, 364) && YearLast(CONFIG, 1970) == 364
  {
    hide Calendar.FiscalYearStart, Calendar.FiscalYearEnd, Calendar.FiscalYearForDate, Calendar.PlainYear;
    Year1970(0);
  }

  /** A run in which a close reads the movements of the year, a sale is posted, and then the close
      takes its lock and commits: the year is closed and still shows the sale. */
  lemma OvertakenClose() returns (states: seq<System>, events: seq<Event>, read: nat)
    ensures IsRun(states, events) && read < |states| && Y.ChartOk(states[0].db)
    ensures Y.Offsets(states[read].db, 1970, CLOSE.posting.lines) && Prepares(states[read].db, CLOSE)
    ensures YearClosed(states[|events|].db, 1970) && REVENUE in Sweep.ProfitAndLoss(states[|events|].db)
    ensures Y.Plain(CONFIG, 1970) && Balance(states[|events|].db.entries, iset{REVENUE}, Y.Year(CONFIG, 1970)) == -10
  {
    hide Reaches, Balance, Net, Pair, Prepares, Y.Offsets, Y.Year, Sweep.ProfitAndLoss, Y.Plain, Initial, Steps;
    var s0 := System(EMPTY, {}, map[]);
    StartsEmpty();
    NoEntries(iset{REVENUE}, Between(0, 364));
    OnRevenue();
    YearWindow();
    var s1 := OpensYear();
    var s2 := Sells(s1, 0);
    CloseReads(s2);
    var s5 := SellsAndCloses(s2);
    ReachesTransitive(s0, s1, s2);
    states, events, read := RunThrough(s0, s2, s5);
    SameProfit(s5.db);
  }

  // A sale overtakes the prepared close.
  lemma SellsAndCloses(s: System) returns (end: System)
    requires InYear(s) && Prepares(s.db, CLOSE) && s.db.entries.Keys == {0}
    requires Balance(s.db.entries, iset{REVENUE}, Between(0, 364)) == -10
    ensures Reaches(s, end) && YearClosed(end.db, 1970) && end.db.accounts == CHART
    ensures Balance(end.db.entries, iset{REVENUE}, Between(0, 364)) == -10
  {
    hide Reaches, Balance, Net, Pair, Prepares;
    OnRevenue();
    var ready := s.(prepared := s.prepared + {CLOSE});
    ReachesItself(s);
    ReachesThen(s, s, Prepare(CLOSE), ready);
    var sold := Sells(ready, 1);
    end := ClosesAsRead(sold);
    ReachesTransitive(s, ready, sold);
    ReachesTransitive(s, sold, end);
  }

  lemma NoEntries(accounts: iset<Id>, w: Window)
    ensures Balance(map[], accounts, w) == 0
  {
  }

  lemma SameProfit(db: Db)
    requires db.accounts == CHART
    ensures Sweep.ProfitAndLoss(db) == Sweep.ProfitAndLoss(EMPTY)
  {
  }

  // After one sale of 10 the closing entry is the right one.
  lemma CloseReads(s: System)
    requires InYear(s) && Balance(s.db.entries, iset{REVENUE}, Between(0, 364)) == -10
    ensures Prepares(s.db, CLOSE) && Y.Offsets(s.db, 1970, CLOSE.posting.lines)
  {
    hide PreparesPosting, Balance, Net, Pair, Calendar.FiscalYearStart, Calendar.FiscalYearEnd, YearLast, Sweep.ProfitAndLoss, Y.Year;
    BookingPrepares(s, 364, Source.Closing, REVENUE, RETAINED, 10);
    YearWindow();
    OnRevenue();
    SameProfit(s.db);
  }

  lemma RunThrough(a: System, b: System, c: System) returns (states: seq<System>, events: seq<Event>, i: nat)
    requires Initial(a) && Reaches(a, b) && Reaches(b, c)
    ensures IsRun(states, events) && states[0] == a && states[|events|] == c && i < |states| && states[i] == b
  {
    hide Steps;
    var first, e1 := ReachedByRun(a, b);
    var second: seq<System>, e2: seq<Event> :| Path(second, e2, b, c);
    states, events, i := first + second[1..], e1 + e2, |e1|;
    forall j | 0 <= j < |events| ensures Steps(states[j], events[j], states[j + 1]) {
      if j < |e1| {
        assert Steps(first[j], e1[j], first[j + 1]);
      } else {
        assert Steps(second[j - |e1|], e2[j - |e1|], second[j - |e1| + 1]);
      }
    }
  }
}
