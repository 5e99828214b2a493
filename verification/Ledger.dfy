/** The ledger's rows and the balances derived from them (prisma/schema.prisma and
src/ledger/balances/balances.service.ts).  Ids stand for the UUID primary keys, days for
UTC dates, amounts for whole units of 1/10000 rupiah. */
module Ledger {
  import opened Options
  import opened Sums
  import Calendar

  type Id = nat
  type Day = int
  type Amount = int

  // ---- rows -----------------------------------------------------------------

  /** Journal entries are Draft, Posted or Reversed; documents and payments Draft, Posted or Void. */
  datatype Status = Draft | Posted | Reversed | Void

  datatype Source = Manual | Opening | Reversal | SalesInvoice | PurchaseBill | Payment | Closing

  datatype Line = Line(account: Id, debit: Amount, credit: Amount)

  /** What posting writes into an entry: its fiscal year, period and gapless number. */
  datatype Stamp = Stamp(fiscalYear: int, period: Id, number: nat)

  datatype Entry = Entry(
    date: Day, source: Source, lines: seq<Line>,
    status: Status, stamp: Option<Stamp>, reversalOf: Option<Id>, deleted: bool)

  datatype Period = Period(fiscalYear: int, start: Day, end: Day, open: bool)

  datatype YearEnd = YearEnd(closed: bool, entry: Option<Id>, netIncome: Amount)

  /** Receivable: sales invoices and receipts.  Payable: purchase bills and disbursements. */
  datatype Kind = Receivable | Payable

  datatype Doc = Doc(
    kind: Kind, partner: Id, date: Day, due: Option<Day>, total: Amount, paid: Amount,
    status: Status, number: Option<(int, nat)>, entry: Option<Id>, deleted: bool)

  datatype Alloc = Alloc(doc: Id, amount: Amount)

  datatype Pay = Pay(
    kind: Kind, partner: Id, date: Day, cash: Id, amount: Amount, allocs: seq<Alloc>,
    status: Status, number: Option<(int, nat)>, entry: Option<Id>, deleted: bool)

  datatype AccountType = Asset | Liability | Equity | Revenue | Expense

  datatype Subtype =
    | CurrentAsset | NonCurrentAsset | FixedAsset | AccumulatedDepreciation | TaxReceivable
    | CurrentLiability | NonCurrentLiability | TaxPayable | EquityAccount
    | RevenueAccount | OtherIncome | Cogs | OperatingExpense | OtherExpense

  datatype Category = Operating | Investing | Financing | NoCategory

  datatype Role = Cash | ArControl | ApControl | RetainedEarnings | OpeningBalanceEquity | TaxExpense

  /** The immutable part of an account, and the part that services may update. */
  datatype Account = Account(
    accountType: AccountType, subtype: Subtype, debitNormal: bool, role: Option<Role>, postable: bool,
    category: Category, active: bool, deleted: bool)

  /** TYPE_SUBTYPES: which subtypes a type admits, enforced when an account is created. */
  predicate Coherent(a: Account) {
    match a.subtype
    case CurrentAsset | NonCurrentAsset | FixedAsset | AccumulatedDepreciation | TaxReceivable => a.accountType.Asset?
    case CurrentLiability | NonCurrentLiability | TaxPayable => a.accountType.Liability?
    case EquityAccount => a.accountType.Equity?
    case RevenueAccount | OtherIncome => a.accountType.Revenue?
    case Cogs | OperatingExpense | OtherExpense => a.accountType.Expense?
  }

  predicate ChartCoherent(accounts: map<Id, Account>) { forall a | a in accounts :: Coherent(accounts[a]) }

  /** The gapless series: one per fiscal year for each of these document types. */
  datatype Series = Invoices | Bills | Receipts | Disbursements

  /** Settings that never change while the system runs: the fiscal start month and the
      accounts holding the singleton roles. */
  datatype Config = Config(startMonth: int, receivable: Id, payable: Id, retained: Id)

  datatype Db = Db(
    config: Config,
    accounts: map<Id, Account>,
    periods: map<Id, Period>,
    years: map<int, YearEnd>,
    journalSeq: map<int, nat>,
    docSeq: map<(Series, int), nat>,
    entries: map<Id, Entry>,
    reversals: map<Id, Id>, // unique index on reversal_of_id: original -> its reversal
    docs: map<Id, Doc>,
    pays: map<Id, Pay>)

  function FiscalYear(db: Db, date: Day): int { Calendar.FiscalYearForDate(date, db.config.startMonth) }

  predicate YearClosed(db: Db, fiscalYear: int) { fiscalYear in db.years && db.years[fiscalYear].closed }

  function ControlAccount(c: Config, kind: Kind): Id { if kind.Receivable? then c.receivable else c.payable }

  function Next<K>(counters: map<K, nat>, k: K): nat { if k in counters then counters[k] else 1 }

  // ---- lines ----------------------------------------------------------------

  function Debits(lines: seq<Line>, accounts: iset<Id>): Amount {
    if lines == [] then 0 else
      Debits(lines[..|lines| - 1], accounts) +
      (if lines[|lines| - 1].account in accounts then lines[|lines| - 1].debit else 0)
  }

  function Credits(lines: seq<Line>, accounts: iset<Id>): Amount {
    if lines == [] then 0 else
      Credits(lines[..|lines| - 1], accounts) +
      (if lines[|lines| - 1].account in accounts then lines[|lines| - 1].credit else 0)
  }

  function Net(lines: seq<Line>, accounts: iset<Id>): Amount { Debits(lines, accounts) - Credits(lines, accounts) }

  ghost const EVERY: iset<Id> := iset a: Id | true

  /** The database's CHECK on journal_lines: exactly one side is positive, the other zero. */
  predicate OneSided(l: Line) {
    0 <= l.debit && 0 <= l.credit && (l.debit == 0 || l.credit == 0) && (0 < l.debit || 0 < l.credit)
  }

  ghost predicate Balanced(lines: seq<Line>) {
    && 2 <= |lines|
    && (forall i | 0 <= i < |lines| :: OneSided(lines[i]))
    && Debits(lines, EVERY) == Credits(lines, EVERY)
  }

  function Swapped(lines: seq<Line>): seq<Line> {
    seq(|lines|, i requires 0 <= i < |lines| => Line(lines[i].account, lines[i].credit, lines[i].debit))
  }

  lemma {:induction false} SwapNets(lines: seq<Line>, accounts: iset<Id>)
    ensures Debits(Swapped(lines), accounts) == Credits(lines, accounts)
    ensures Credits(Swapped(lines), accounts) == Debits(lines, accounts)
  {
    if lines != [] {
      SwapNets(lines[..|lines| - 1], accounts);
      assert Swapped(lines)[..|lines| - 1] == Swapped(lines[..|lines| - 1]);
    }
  }

  lemma SwapBalanced(lines: seq<Line>)
    requires Balanced(lines)
    ensures Balanced(Swapped(lines))
  {
    SwapNets(lines, EVERY);
  }

  lemma {:induction false} NetConcat(a: seq<Line>, b: seq<Line>, accounts: iset<Id>)
    ensures Debits(a + b, accounts) == Debits(a, accounts) + Debits(b, accounts)
    ensures Credits(a + b, accounts) == Credits(a, accounts) + Credits(b, accounts)
  {
    if b == [] {
      assert a + b == a;
    } else {
      NetConcat(a, b[..|b| - 1], accounts);
      assert (a + b)[..|a + b| - 1] == a + b[..|b| - 1];
    }
  }

  // ---- balances -------------------------------------------------------------

  /** Date predicates of the balance queries. */
  datatype Window = Always | UpTo(to: Day) | Between(from: Day, to: Day)

  predicate InWindow(w: Window, d: Day) {
    match w
    case Always => true
    case UpTo(t) => d <= t
    case Between(f, t) => f <= d <= t
  }

  /** POSTED_JE: the entry counts towards balances (a reversed entry still does). */
  predicate Counts(e: Entry, w: Window) { e.stamp.Some? && !e.deleted && InWindow(w, e.date) }

  ghost function EntryNet(e: Entry, accounts: iset<Id>, w: Window): Amount {
    if Counts(e, w) then Net(e.lines, accounts) else 0
  }

  ghost function NetAt(entries: map<Id, Entry>, accounts: iset<Id>, w: Window, id: Id): Amount {
    if id in entries then EntryNet(entries[id], accounts, w) else 0
  }

  ghost function NetFn(entries: map<Id, Entry>, accounts: iset<Id>, w: Window): nat -> int {
    (id: nat) => NetAt(entries, accounts, w, id)
  }

  /** Debits minus credits of a set of accounts over all posted lines in a window. */
  ghost function Balance(entries: map<Id, Entry>, accounts: iset<Id>, w: Window): Amount {
    SumOver(entries.Keys, NetFn(entries, accounts, w))
  }

  lemma BalanceInsert(entries: map<Id, Entry>, id: Id, e: Entry, accounts: iset<Id>, w: Window)
    requires id !in entries
    ensures Balance(entries[id := e], accounts, w) == Balance(entries, accounts, w) + EntryNet(e, accounts, w)
  {
    var after := entries[id := e];
    var f, g := NetFn(entries, accounts, w), NetFn(after, accounts, w);
    assert after.Keys == entries.Keys + {id};
    SumInsert(entries.Keys, g, id);
    SumCong(entries.Keys, f, g);
  }

  lemma BalanceUpdate(entries: map<Id, Entry>, id: Id, e: Entry, accounts: iset<Id>, w: Window)
    requires id in entries
    ensures Balance(entries[id := e], accounts, w)
         == Balance(entries, accounts, w) - EntryNet(entries[id], accounts, w) + EntryNet(e, accounts, w)
  {
    var after := entries[id := e];
    var f, g := NetFn(entries, accounts, w), NetFn(after, accounts, w);
    assert after.Keys == entries.Keys;
    SumChange(entries.Keys, f, g, id);
  }
}
