/** Year-end close and reopen as transformations of the ledger: what they do to every balance,
that closed years stay swept, that the order of closing does not matter, and that reopening
undoes closing. */
module YearEndClose {
  import opened Options
  import opened Ledger
  import opened Sums
  import opened Statements
  import opened Operations
  import opened Preparation
  import opened Invariants
  import opened Preservation
  import opened Protocol
  import opened Balances
  import opened Sweep
  import Calendar
  import Reports
  import C = ControlAccounts

  // ---- the steps --------------------------------------------------------------------------------

  function YearStart(c: Config, y: int): Day { Calendar.FiscalYearStart(y, c.startMonth) }

  function Year(c: Config, y: int): Window { Between(YearStart(c, y), YearLast(c, y)) }

  /** Years whose bounds the calendar gets right, for a start month that exists. */
  predicate Plain(c: Config, y: int) { 1 <= c.startMonth <= 12 && Calendar.PlainYear(y, c.startMonth) }

  function RetainedAccount(db: Db): Option<Id> { if Live(db, db.config.retained) then Some(db.config.retained) else None }

  /** The chart of accounts is well formed: RETAINED_EARNINGS is an equity account. */
  predicate ChartOk(db: Db) { db.config.retained in db.accounts && db.accounts[db.config.retained].accountType.Equity? }

  ghost predicate Sweepable(db: Db, y: int, outcome: Outcome) {
    exists movements :: IsGrouped(db, Year(db.config, y), movements)
      && outcome == ClosingEntry(Where(movements, Reports.IsProfitOrLoss), RetainedAccount(db))
  }

  /** The operation posts the closing entry computed from this very database. */
  ghost predicate Sweeps(db: Db, y: int, op: Op) {
    && op.CloseYear? && op.fiscalYear == y && op.posting.date == YearLast(db.config, y)
    && Sweepable(db, y, Swept(op.posting.lines, op.netIncome))
  }

  /** close as one atomic step: with an entry, or by marking an empty year. */
  ghost predicate Closes(a: Db, y: int, b: Db) {
    || (exists op :: Sweeps(a, y, op) && Prepares(a, op) && Effect(op, a) == Some(b))
    || (!YearClosed(a, y) && Sweepable(a, y, NothingToClose) && b == a.(years := a.years[y := YearEnd(true, None, 0)]))
  }

  /** reopen as one atomic step. */
  ghost predicate Reopens(a: Db, y: int, b: Db) {
    || (exists op: Op :: op.ReopenClosedYear? && op.fiscalYear == y && Prepares(a, op) && Effect(op, a) == Some(b))
    || ReopensEmpty(a, y, b)
  }

  ghost predicate ReopensEmpty(a: Db, y: int, b: Db) {
    YearClosed(a, y) && a.years[y].entry.None? && b == a.(years := a.years[y := a.years[y].(closed := false)])
  }

  // ---- what closing does to every balance -----------------------------------------------------------

  /** Movement of the revenue and expense accounts among these, in the year. */
  ghost function Earned(db: Db, y: int, accounts: iset<Id>): Amount {
    Balance(db.entries, accounts * ProfitAndLoss(db), Year(db.config, y))
  }

  ghost function NetIncome(db: Db, y: int): Amount { -Earned(db, y, EVERY) }

  /** What closing year y adds to a set of accounts. */
  ghost function ClosingMove(db: Db, y: int, accounts: iset<Id>): Amount {
    (if db.config.retained in accounts then Earned(db, y, EVERY) else 0) - Earned(db, y, accounts)
  }

  lemma ClosingLinesMove(db: Db, y: int, lines: seq<Line>, income: Amount, accounts: iset<Id>)
    requires JournalOk(db) && Sweepable(db, y, Swept(lines, income))
    ensures Net(lines, accounts) == ClosingMove(db, y, accounts) && income == NetIncome(db, y)
  {
    hide JournalOk, Net, ClosingEntry, IsGrouped, Balance;
    var movements :| IsGrouped(db, Year(db.config, y), movements)
      && Swept(lines, income) == ClosingEntry(Where(movements, Reports.IsProfitOrLoss), RetainedAccount(db));
    var rows := Where(movements, Reports.IsProfitOrLoss);
    ClosingNets(rows, RetainedAccount(db), accounts);
    PlRowsAreMovements(db, Year(db.config, y), movements, accounts);
    PlRowsAreMovements(db, Year(db.config, y), movements, EVERY);
    WholeNet(rows);
    ClosingIncome(rows, RetainedAccount(db));
  }

  lemma ClosingIncome(rows: seq<BalanceRow>, retained: Option<Id>)
    requires ClosingEntry(rows, retained).Swept?
    ensures ClosingEntry(rows, retained).netIncome == -TotalPosition(rows)
    ensures retained.None? ==> TotalPosition(rows) == 0
  {
  }

  lemma EmptyYearMoves(db: Db, y: int, accounts: iset<Id>)
    requires JournalOk(db) && Sweepable(db, y, NothingToClose)
    ensures Earned(db, y, accounts) == 0
  {
    hide JournalOk, IsGrouped;
    var movements :| IsGrouped(db, Year(db.config, y), movements)
      && NothingToClose == ClosingEntry(Where(movements, Reports.IsProfitOrLoss), RetainedAccount(db));
    var rows := Where(movements, Reports.IsProfitOrLoss);
    SweepNets(rows, accounts);
    PlRowsAreMovements(db, Year(db.config, y), movements, accounts);
  }

  /** Closing moves each account of the year's profit and loss back to zero and the result to
      retained earnings, on the last day of the year; it changes no other balance. */
  lemma CloseMoves(a: Db, y: int, b: Db, accounts: iset<Id>, w: Window)
    requires LedgerOk(a) && Closes(a, y, b)
    ensures Balance(b.entries, accounts, w)
         == Balance(a.entries, accounts, w) + C.At(w, YearLast(a.config, y), ClosingMove(a, y, accounts))
  {
    hide Balance, Net, Prepares, StillGood, Effect;
    if op :| Sweeps(a, y, op) && Prepares(a, op) && Effect(op, a) == Some(b) {
      PreparedIsGood(a, op);
      FreshCloseMoves(a, y, op, accounts, w);
    } else {
      EmptyYearMoves(a, y, accounts);
      EmptyYearMoves(a, y, EVERY);
    }
  }

  lemma FreshCloseMoves(a: Db, y: int, op: Op, accounts: iset<Id>, w: Window)
    requires LedgerOk(a) && StillGood(a, op) && Sweeps(a, y, op) && Effect(op, a).Some?
    ensures Balance(Effect(op, a).value.entries, accounts, w)
         == Balance(a.entries, accounts, w) + C.At(w, YearLast(a.config, y), ClosingMove(a, y, accounts))
  {
    hide Balance, Net, StillGood, Effect, ClosingMove, Sweepable;
    C.EffectMovesBalance(op, a, accounts, w);
    ClosingLinesMove(a, y, op.posting.lines, op.netIncome, accounts);
  }

  lemma EffectFrames(op: Op, db: Db)
    requires Effect(op, db).Some?
    ensures Effect(op, db).value.config == db.config && Effect(op, db).value.accounts == db.accounts
  {
    DocumentShape(op, db);
  }

  /** A close is an ordinary step otherwise: it keeps the ledger in order. */
  lemma CloseKeepsLedger(a: Db, y: int, b: Db)
    requires LedgerOk(a) && Closes(a, y, b)
    ensures LedgerOk(b) && b.config == a.config && b.accounts == a.accounts && EntriesGrow(a.entries, b.entries)
  {
    hide Prepares, StillGood, Sweepable;
    if op :| Sweeps(a, y, op) && Prepares(a, op) && Effect(op, a) == Some(b) {
      hide Effect, LedgerOk;
      PreparedIsGood(a, op);
      EffectKeepsLedger(op, a);
      EffectFrames(op, a);
    } else {
      YearsAsideKeepsLedger(a, b, y);
    }
  }

  lemma YearsAsideKeepsLedger(a: Db, b: Db, y: int)
    requires LedgerOk(a) && b == a.(years := b.years) && y in b.years && b.years[y].entry.None?
    requires b.years == a.years[y := b.years[y]]
    ensures LedgerOk(b)
  {
    hide NumbersOk, JournalOk, ReversalsOk, DocumentsOk;
    JournalIgnoresYears(a, b.years);
    DocumentsIgnoreYears(a, b.years);
    NumbersIgnoreYears(a, b.years);
  }

  lemma DocumentsIgnoreYears(db: Db, years: map<int, YearEnd>)
    requires DocumentsOk(db)
    ensures DocumentsOk(db.(years := years))
  {
    hide DocumentsOk;
    DocumentsExtend(db, db.(years := years));
  }

  lemma NumbersIgnoreYears(db: Db, years: map<int, YearEnd>)
    requires NumbersOk(db)
    ensures NumbersOk(db.(years := years))
  {
  }

  lemma CloseRecords(a: Db, y: int, b: Db)
    requires JournalOk(a) && Closes(a, y, b)
    ensures !YearClosed(a, y) && YearClosed(b, y)
    ensures b.years == a.years[y := b.years[y]] && b.years[y].netIncome == NetIncome(a, y)
  {
    hide JournalOk, NetIncome, Prepares, Effect, Sweepable;
    if op :| Sweeps(a, y, op) && Prepares(a, op) && Effect(op, a) == Some(b) {
      CloseYearRecords(a, op);
      ClosingLinesMove(a, y, op.posting.lines, op.netIncome, EVERY);
    } else {
      EmptyIncome(a, y);
    }
  }

  lemma EmptyIncome(db: Db, y: int)
    requires JournalOk(db) && Sweepable(db, y, NothingToClose)
    ensures NetIncome(db, y) == 0
  {
    EmptyYearMoves(db, y, EVERY);
  }

  lemma CloseYearRecords(a: Db, op: Op)
    requires op.CloseYear? && Effect(op, a).Some?
    ensures var b := Effect(op, a).value;
      && b.years == a.years[op.fiscalYear := YearEnd(true, Some(op.id), op.netIncome)] && !YearClosed(a, op.fiscalYear)
      && op.id in b.entries && b.entries[op.id].lines == op.posting.lines && b.entries[op.id].date == op.posting.date
  {
  }

  // ---- when a year can be closed --------------------------------------------------------------------

  predicate Usable(db: Db, a: Id) { Live(db, a) && db.accounts[a].postable && db.accounts[a].active }

  lemma ClosingPostable(db: Db, rows: seq<BalanceRow>, retained: Option<Id>)
    requires ClosingEntry(rows, retained).Swept?
    requires (forall i | 0 <= i < |rows| :: Usable(db, rows[i].id)) && (retained.Some? ==> Usable(db, retained.value))
    ensures Postable(db, ClosingEntry(rows, retained).lines)
  {
    var lines := ClosingEntry(rows, retained).lines;
    SweepAccounts(rows);
    forall i | 0 <= i < |lines| ensures Usable(db, lines[i].account) {
      if i < |SweepLines(rows)| {
        var k :| 0 <= k < |rows| && rows[k].id == SweepLines(rows)[i].account;
      }
    }
  }

  lemma ClosePrepares(a: Db, y: int, op: Op, rows: seq<BalanceRow>)
    requires Plain(a.config, y) && !YearClosed(a, y) && op.CloseYear? && op.fiscalYear == y && op.posting.fiscalYear == y
    requires op.posting.date == YearLast(a.config, y) && op.posting.source.Closing?
    requires PeriodCovers(a, op.posting.period, YearLast(a.config, y)) && a.periods[op.posting.period].open
    requires RowsInRange(rows) && ClosingEntry(rows, RetainedAccount(a)).Swept?
    requires op.posting.lines == ClosingEntry(rows, RetainedAccount(a)).lines && Postable(a, op.posting.lines)
    ensures Prepares(a, op) && LinesPassCheck(op.posting.lines)
  {
    hide Plain, YearLast, ClosingEntry, RowsInRange, Postable;
    ClosingAccepted(rows, RetainedAccount(a));
    ClosingNets(rows, RetainedAccount(a), EVERY);
    YearHasItsEnd(a.config, y);
    InYearIff(a.config, y, YearLast(a.config, y));
  }

  /** An open year can be closed: with an open period on its last day, revenue, expense and
      retained-earnings accounts that can be posted to, and sums in range. */
  lemma CanClose(a: Db, y: int, id: Id, period: Id, movements: seq<BalanceRow>) returns (b: Db)
    requires Plain(a.config, y) && !YearClosed(a, y) && id !in a.entries
    requires period in a.periods && a.periods[period].open && a.periods[period].start <= YearLast(a.config, y) <= a.periods[period].end
    requires IsGrouped(a, Year(a.config, y), movements)
    requires var rows := Where(movements, Reports.IsProfitOrLoss);
      RowsInRange(rows) && forall i | 0 <= i < |rows| :: Usable(a, rows[i].id)
    requires Usable(a, a.config.retained)
    ensures Closes(a, y, b)
  {
    hide Plain, IsGrouped, RowsInRange, YearLast, Year, ClosingEntry, Prepares;
    var rows := Where(movements, Reports.IsProfitOrLoss);
    var outcome := ClosingEntry(rows, RetainedAccount(a));
    ClosingDecides(rows, RetainedAccount(a));
    assert Sweepable(a, y, outcome);
    if outcome.NothingToClose? {
      b := a.(years := a.years[y := YearEnd(true, None, 0)]);
    } else {
      var p := Posting(YearLast(a.config, y), Source.Closing, outcome.lines, y, period);
      var op := CloseYear(id, y, outcome.netIncome, p);
      ClosingPostable(a, rows, RetainedAccount(a));
      ClosePrepares(a, y, op, rows);
      b := Effect(op, a).value;
      assert Sweeps(a, y, op);
    }
  }

  // ---- closed years stay swept --------------------------------------------------------------------

  lemma YearHasItsEnd(c: Config, y: int)
    requires Plain(c, y)
    ensures InWindow(Year(c, y), YearLast(c, y))
  {
    hide Calendar.FiscalYearStart, Calendar.FiscalYearEnd, Calendar.PlainYear, Calendar.MonthStart;
    Calendar.PlainBounds(y, c.startMonth);
    Calendar.MonthsIncrease(12 * y + c.startMonth - 1, 12 * y + c.startMonth + 11);
  }

  lemma InYearIff(c: Config, y: int, d: Day)
    requires Plain(c, y)
    ensures InWindow(Year(c, y), d) <==> Calendar.FiscalYearForDate(d, c.startMonth) == y
  {
    hide Calendar.FiscalYearForDate, Calendar.FiscalYearStart, Calendar.FiscalYearEnd, Calendar.PlainYear;
    Calendar.FiscalYearOfDate(d, y, c.startMonth);
  }

  /** Every closed year has no movement left on any revenue or expense account. */
  ghost predicate ClosedYearsSwept(db: Db) {
    forall y, a | Plain(db.config, y) && YearClosed(db, y) && a in ProfitAndLoss(db) ::
      Balance(db.entries, iset{a}, Year(db.config, y)) == 0
  }

  /** An operation that posts into another year changes no balance within this one. */
  lemma OtherYearFrozen(op: Op, db: Db, y: int, accounts: iset<Id>)
    requires JournalOk(db) && StillGood(db, op) && Effect(op, db).Some? && Plain(db.config, y) && PostedYear(op) != Some(y)
    ensures Balance(Effect(op, db).value.entries, accounts, Year(db.config, y)) == Balance(db.entries, accounts, Year(db.config, y))
  {
    hide Balance, Net, JournalOk, Year, Plain, Effect, StillGood;
    C.EffectMovesBalance(op, db, accounts, Year(db.config, y));
    PostedYearIsDated(op, db);
    match JournalingOf(op) {
      case Posts(_, p) => InYearIff(db.config, y, p.date);
      case Reverses(_, r) => InYearIff(db.config, y, r.date);
      case Drafts => if op.PostDraft? { InYearIff(db.config, y, op.posting.date); }
      case Untouched =>
    }
  }

  /** While a year stays closed, no operation changes any balance within it. */
  lemma ClosedYearFrozen(op: Op, db: Db, y: int, accounts: iset<Id>)
    requires JournalOk(db) && StillGood(db, op) && Effect(op, db).Some?
    requires Plain(db.config, y) && YearClosed(db, y) && YearClosed(Effect(op, db).value, y)
    ensures Balance(Effect(op, db).value.entries, accounts, Year(db.config, y)) == Balance(db.entries, accounts, Year(db.config, y))
  {
    hide Balance, JournalOk, Year, Plain, YearClosed, Effect, StillGood, PostedYear;
    PostsOutside(op, db, y);
    OtherYearFrozen(op, db, y, accounts);
  }

  lemma PostedYearIsDated(op: Op, db: Db)
    requires StillGood(db, op)
    ensures match JournalingOf(op)
            case Posts(_, p) => p.fiscalYear == FiscalYear(db, p.date)
            case Reverses(_, r) => r.fiscalYear == FiscalYear(db, r.date)
            case Drafts => op.PostDraft? ==> op.posting.fiscalYear == FiscalYear(db, op.posting.date)
            case Untouched => true
  {
    hide FiscalYear, LinesLive, PeriodCovers;
  }

  function PostedYear(op: Op): Option<int> {
    match JournalingOf(op)
    case Posts(_, p) => Some(p.fiscalYear)
    case Reverses(_, r) => Some(r.fiscalYear)
    case Drafts => if op.PostDraft? then Some(op.posting.fiscalYear) else None
    case Untouched => None
  }

  lemma PostsOutside(op: Op, db: Db, y: int)
    requires StillGood(db, op) && Effect(op, db).Some? && YearClosed(db, y) && YearClosed(Effect(op, db).value, y)
    ensures PostedYear(op) != Some(y)
  {
    hide PostEffect, ReverseEffect, StillGoodPosting, SettleAll, UnwindAll;
    match JournalingOf(op) {
      case Posts(id, p) =>
        PostedOnlyIf(op, db);
        NeedsOpenYear(db, id, p);
      case Reverses(id, r) =>
        PostedOnlyIf(op, db);
        ReverseNeedsOpenYear(db, id, r);
        ReverseTouches(db, id, r);
      case Drafts =>
      case Untouched =>
    }
  }

  lemma PostedOnlyIf(op: Op, db: Db)
    requires Effect(op, db).Some?
    ensures JournalingOf(op).Posts? ==> PostEffect(db, JournalingOf(op).id, JournalingOf(op).posting).Some?
    ensures JournalingOf(op).Reverses? ==> ReverseEffect(db, JournalingOf(op).id, JournalingOf(op).reversal).Some?
  {
    hide Effect, PostEffect, ReverseEffect, SettleAll, UnwindAll;
    DocumentShape(op, db);
  }

  lemma NeedsOpenYear(db: Db, id: Id, p: Posting)
    requires PostEffect(db, id, p).Some?
    ensures !YearClosed(db, p.fiscalYear)
  {
  }

  lemma ReverseNeedsOpenYear(db: Db, id: Id, r: Reversing)
    requires ReverseEffect(db, id, r).Some?
    ensures !r.allowClosedYear ==> !YearClosed(db, r.fiscalYear)
  {
  }

  datatype Step = Operate(op: Op) | Close(fiscalYear: int) | ReopenEmpty(fiscalYear: int) | Chart(accounts: map<Id, Account>)

  /** One atomic step.  Operations other than close may use preparations of any age. */
  ghost predicate Takes(a: Db, s: Step, b: Db) {
    match s
    case Operate(op) => StillGood(a, op) && Effect(op, a) == Some(b) && (op.CloseYear? ==> Sweeps(a, op.fiscalYear, op))
    case Close(y) => Closes(a, y, b)
    case ReopenEmpty(y) => ReopensEmpty(a, y, b)
    case Chart(accounts) => ChartChange(System(a, {}, map[]), accounts) && b == a.(accounts := accounts)
  }

  /** On every revenue and expense account the lines take back what the year moved there. */
  ghost predicate Offsets(db: Db, y: int, lines: seq<Line>) {
    forall a | a in ProfitAndLoss(db) :: Net(lines, iset{a}) == -Balance(db.entries, iset{a}, Year(db.config, y))
  }

  ghost predicate OffsetsIfClose(db: Db, op: Op) {
    op.CloseYear? && Plain(db.config, op.fiscalYear) ==> Offsets(db, op.fiscalYear, op.posting.lines)
  }

  /** No revenue or expense account has any movement left in the year. */
  ghost predicate YearSwept(db: Db, y: int) {
    forall a | a in ProfitAndLoss(db) :: Balance(db.entries, iset{a}, Year(db.config, y)) == 0
  }

  lemma CloseIsDated(db: Db, op: Op)
    requires StillGood(db, op) && op.CloseYear?
    ensures op.posting.date == YearLast(db.config, op.fiscalYear)
  {
    hide StillGoodPosting, YearLast;
  }

  lemma CloseMovesAccount(a: Db, op: Op, account: Id)
    requires LedgerOk(a) && StillGood(a, op) && Effect(op, a).Some? && op.CloseYear? && Plain(a.config, op.fiscalYear)
    ensures Balance(Effect(op, a).value.entries, iset{account}, Year(a.config, op.fiscalYear))
         == Balance(a.entries, iset{account}, Year(a.config, op.fiscalYear)) + Net(op.posting.lines, iset{account})
  {
    hide JournalOk, ReversalsOk, YearsOk, NumbersOk, DocumentsOk, StillGood, Effect, Balance, Net, Plain;
    C.EffectMovesBalance(op, a, iset{account}, Year(a.config, op.fiscalYear));
    CloseIsDated(a, op);
    YearHasItsEnd(a.config, op.fiscalYear);
  }

  /** A close sweeps its year exactly when its entry takes back what the year has moved on the
      database it commits to. */
  lemma CloseSweepsIff(a: Db, op: Op)
    requires LedgerOk(a) && StillGood(a, op) && Effect(op, a).Some? && op.CloseYear? && Plain(a.config, op.fiscalYear)
    ensures YearSwept(Effect(op, a).value, op.fiscalYear) <==> Offsets(a, op.fiscalYear, op.posting.lines)
  {
    hide LedgerOk, StillGood, Effect, Balance, Net, Plain, ProfitAndLoss, Year;
    var b, y := Effect(op, a).value, op.fiscalYear;
    EffectFrames(op, a);
    SamePl(a, b);
    forall k | k in ProfitAndLoss(a)
      ensures Balance(b.entries, iset{k}, Year(a.config, y)) == 0
         <==> Net(op.posting.lines, iset{k}) == -Balance(a.entries, iset{k}, Year(a.config, y))
    {
      CloseMovesAccount(a, op, k);
    }
  }

  lemma SweepsOffsets(db: Db, op: Op)
    requires LedgerOk(db) && ChartOk(db) && op.CloseYear? && Sweeps(db, op.fiscalYear, op)
    ensures OffsetsIfClose(db, op)
  {
    hide JournalOk, Balance, Net, Sweepable, ProfitAndLoss, Year, ChartOk, Plain;
    forall a | a in ProfitAndLoss(db)
      ensures Net(op.posting.lines, iset{a}) == -Balance(db.entries, iset{a}, Year(db.config, op.fiscalYear))
    {
      ClosingLinesMove(db, op.fiscalYear, op.posting.lines, op.netIncome, iset{a});
      ProfitExcludesRetained(db, a);
    }
  }

  ghost predicate SweptOk(db: Db) { LedgerOk(db) && ChartOk(db) && ClosedYearsSwept(db) }

  lemma ProfitExcludesRetained(db: Db, a: Id)
    requires ChartOk(db) && a in ProfitAndLoss(db)
    ensures a != db.config.retained && iset{a} * ProfitAndLoss(db) == iset{a}
  {
  }

  lemma CloseSweeps(a: Db, y: int, b: Db, account: Id)
    requires LedgerOk(a) && ChartOk(a) && Closes(a, y, b) && Plain(a.config, y)
    requires account in a.accounts && (a.accounts[account].accountType.Revenue? || a.accounts[account].accountType.Expense?)
    ensures Balance(b.entries, iset{account}, Year(a.config, y)) == 0
  {
    assert account in ProfitAndLoss(a);
    hide LedgerOk, Closes, Balance, Plain, ProfitAndLoss;
    CloseMoves(a, y, b, iset{account}, Year(a.config, y));
    YearHasItsEnd(a.config, y);
    ProfitExcludesRetained(a, account);
  }

  lemma EndOutside(c: Config, y: int, z: int)
    requires Plain(c, y) && Plain(c, z) && y != z
    ensures !InWindow(Year(c, z), YearLast(c, y))
  {
    hide *;
    YearHasItsEnd(c, y);
    InYearIff(c, y, YearLast(c, y));
    InYearIff(c, z, YearLast(c, y));
  }

  lemma YearsClosedBy(op: Op, db: Db, y: int)
    requires Effect(op, db).Some? && YearClosed(Effect(op, db).value, y)
    ensures YearClosed(db, y) || (op.CloseYear? && op.fiscalYear == y)
  {
    hide PostEffect, ReverseEffect;
    DocumentShape(op, db);
    match op {
      case CloseYear(id, _, _, p) => PostTouches(db, id, p);
      case ReopenClosedYear(id, _, r) => ReverseTouches(db, id, r);
      case _ =>
    }
  }

  lemma OperationKeepsSwept(a: Db, op: Op)
    requires SweptOk(a) && StillGood(a, op) && Effect(op, a).Some? && OffsetsIfClose(a, op)
    ensures SweptOk(Effect(op, a).value)
  {
    hide LedgerOk, StillGood, Effect, ClosedYearsSwept, ChartOk, OffsetsIfClose;
    EffectKeepsLedger(op, a);
    EffectFrames(op, a);
    SameChart(a, Effect(op, a).value);
    OperationKeepsYearsSwept(a, op);
  }

  lemma SameChart(a: Db, b: Db)
    requires ChartOk(a) && b.config == a.config && b.accounts == a.accounts
    ensures ChartOk(b)
  {
  }

  lemma OperationKeepsYearsSwept(a: Db, op: Op)
    requires SweptOk(a) && StillGood(a, op) && Effect(op, a).Some? && OffsetsIfClose(a, op)
    ensures ClosedYearsSwept(Effect(op, a).value)
  {
    hide SweptOk, StillGood, Effect, Balance, ProfitAndLoss, Year, Plain, OffsetsIfClose, YearClosed;
    var b := Effect(op, a).value;
    EffectFrames(op, a);
    SamePl(a, b);
    forall y, k | Plain(b.config, y) && YearClosed(b, y) && k in ProfitAndLoss(b)
      ensures Balance(b.entries, iset{k}, Year(b.config, y)) == 0
    {
      OperationKeepsZero(a, op, y, k);
    }
  }

  lemma OperationKeepsZero(a: Db, op: Op, y: int, k: Id)
    requires SweptOk(a) && StillGood(a, op) && Effect(op, a).Some? && OffsetsIfClose(a, op)
    requires Plain(a.config, y) && YearClosed(Effect(op, a).value, y) && k in ProfitAndLoss(a)
    ensures Balance(Effect(op, a).value.entries, iset{k}, Year(a.config, y)) == 0
  {
    hide LedgerOk, StillGood, Effect, Balance, ProfitAndLoss, Year, Plain, OffsetsIfClose, ChartOk, YearClosed;
    YearsClosedBy(op, a, y);
    if YearClosed(a, y) {
      FrozenStep(op, a, y, iset{k});
    } else {
      FreshCloseSweeps(a, op, k);
    }
  }

  lemma SamePl(a: Db, b: Db)
    requires a.accounts == b.accounts
    ensures ProfitAndLoss(b) == ProfitAndLoss(a)
  {
  }

  lemma FrozenStep(op: Op, db: Db, y: int, accounts: iset<Id>)
    requires LedgerOk(db) && StillGood(db, op) && Effect(op, db).Some?
    requires Plain(db.config, y) && YearClosed(db, y) && YearClosed(Effect(op, db).value, y)
    ensures Balance(Effect(op, db).value.entries, accounts, Year(db.config, y)) == Balance(db.entries, accounts, Year(db.config, y))
  {
    hide StillGood, Effect, Balance, Year, Plain, YearClosed, JournalOk;
    ClosedYearFrozen(op, db, y, accounts);
  }

  lemma FreshCloseSweeps(a: Db, op: Op, account: Id)
    requires LedgerOk(a) && StillGood(a, op) && Effect(op, a).Some?
    requires op.CloseYear? && OffsetsIfClose(a, op) && Plain(a.config, op.fiscalYear) && account in ProfitAndLoss(a)
    ensures Balance(Effect(op, a).value.entries, iset{account}, Year(a.config, op.fiscalYear)) == 0
  {
    hide LedgerOk, StillGood, Effect, Balance, Net, Plain, ProfitAndLoss, Year;
    CloseMovesAccount(a, op, account);
  }

  lemma EmptyCloseKeepsSwept(a: Db, y: int, b: Db)
    requires SweptOk(a) && Sweepable(a, y, NothingToClose) && b == a.(years := a.years[y := YearEnd(true, None, 0)])
    ensures SweptOk(b)
  {
    hide LedgerOk, Balance, ProfitAndLoss, Year, Plain, Sweepable;
    YearsAsideKeepsLedger(a, b, y);
    SamePl(a, b);
    forall z, k | Plain(b.config, z) && YearClosed(b, z) && k in ProfitAndLoss(b)
      ensures Balance(b.entries, iset{k}, Year(b.config, z)) == 0
    {
      if z == y {
        EmptyYear(a, y, k);
      }
    }
  }

  lemma EmptyYear(db: Db, y: int, account: Id)
    requires LedgerOk(db) && ChartOk(db) && Sweepable(db, y, NothingToClose) && account in ProfitAndLoss(db)
    ensures Balance(db.entries, iset{account}, Year(db.config, y)) == 0
  {
    hide JournalOk, Sweepable, Balance, ProfitAndLoss, Year;
    EmptyYearMoves(db, y, iset{account});
    ProfitExcludesRetained(db, account);
  }

  lemma {:induction false} ElsewhereNet(lines: seq<Line>, accounts: iset<Id>)
    requires forall i | 0 <= i < |lines| :: lines[i].account !in accounts
    ensures Net(lines, accounts) == 0
  {
    if lines != [] { ElsewhereNet(lines[..|lines| - 1], accounts); }
  }

  lemma UnknownAccount(db: Db, a: Id, w: Window)
    requires JournalOk(db) && a !in db.accounts
    ensures Balance(db.entries, iset{a}, w) == 0
  {
    forall i | i in db.entries ensures NetFn(db.entries, iset{a}, w)(i) == 0 {
      assert EntryOk(db, db.entries[i]);
      if Counts(db.entries[i], w) { ElsewhereNet(db.entries[i].lines, iset{a}); }
    }
    SumZero(db.entries.Keys, NetFn(db.entries, iset{a}, w));
  }

  lemma ChartKeepsSwept(a: Db, accounts: map<Id, Account>)
    requires SweptOk(a) && ChartChange(System(a, {}, map[]), accounts)
    ensures SweptOk(a.(accounts := accounts))
  {
    hide Balance, JournalOk, ReversalsOk, YearsOk, NumbersOk, DocumentsOk, Year, Plain;
    var b := a.(accounts := accounts);
    ChangeChartKeepsLedger(System(a, {}, map[]), accounts);
    forall y, k | Plain(b.config, y) && YearClosed(b, y) && k in ProfitAndLoss(b)
      ensures Balance(b.entries, iset{k}, Year(b.config, y)) == 0
    {
      if k in a.accounts {
        assert k in ProfitAndLoss(a);
      } else {
        UnknownAccount(a, k, Year(a.config, y));
      }
    }
  }

  lemma StepKeepsSwept(a: Db, s: Step, b: Db)
    requires SweptOk(a) && Takes(a, s, b)
    ensures SweptOk(b)
  {
    hide SweptOk, StillGood, Effect, Prepares, Sweepable, OffsetsIfClose, LedgerOk, ChartOk;
    SweptParts(a);
    match s {
      case Operate(op) =>
        if op.CloseYear? { SweepsOffsets(a, op); } else { NotAClose(a, op); }
        OperationKeepsSwept(a, op);
      case Chart(accounts) => ChartKeepsSwept(a, accounts);
      case ReopenEmpty(y) => ReopenEmptyKeepsSwept(a, y, b);
      case Close(y) =>
        if op :| Sweeps(a, y, op) && Prepares(a, op) && Effect(op, a) == Some(b) {
          PreparedIsGood(a, op);
          SweepsOffsets(a, op);
          OperationKeepsSwept(a, op);
        } else {
          EmptyCloseKeepsSwept(a, y, b);
        }
    }
  }

  lemma NotAClose(db: Db, op: Op)
    requires !op.CloseYear?
    ensures OffsetsIfClose(db, op)
  {
  }

  lemma SweptParts(a: Db)
    requires SweptOk(a)
    ensures LedgerOk(a) && ChartOk(a)
  {
  }

  lemma ReopenEmptyKeepsSwept(a: Db, y: int, b: Db)
    requires SweptOk(a) && ReopensEmpty(a, y, b)
    ensures SweptOk(b)
  {
    hide LedgerOk, Balance, ProfitAndLoss, Year, Plain;
    YearsAsideKeepsLedger(a, b, y);
    SamePl(a, b);
  }

  ghost predicate IsHistory(states: seq<Db>, steps: seq<Step>) {
    && |states| == |steps| + 1 && Initial(System(states[0], {}, map[])) && ChartOk(states[0])
    && forall i | 0 <= i < |steps| :: Takes(states[i], steps[i], states[i + 1])
  }

  /** In every history of atomic posts, drafts, reversals, document operations, closes and
      reopens, every closed year has zero net movement on every revenue and expense account. */
  lemma {:induction false} ClosedYearsStaySwept(states: seq<Db>, steps: seq<Step>, i: nat)
    requires IsHistory(states, steps) && i < |states|
    ensures SweptOk(states[i])
  {
    hide Takes, LedgerOk;
    if i == 0 {
      InitialOk(System(states[0], {}, map[]));
    } else {
      hide SweptOk, Initial;
      ClosedYearsStaySwept(states, steps, i - 1);
      assert Takes(states[i - 1], steps[i - 1], states[i]);
      StepKeepsSwept(states[i - 1], steps[i - 1], states[i]);
    }
  }

  /** In every interleaving, a year that is closed before and after a step keeps every balance. */
  lemma ClosedYearFrozenInRuns(states: seq<System>, events: seq<Event>, i: nat, y: int, accounts: iset<Id>)
    requires IsRun(states, events) && i < |events|
    requires Plain(states[i].db.config, y) && YearClosed(states[i].db, y) && YearClosed(states[i + 1].db, y)
    ensures Balance(states[i + 1].db.entries, accounts, Year(states[i].db.config, y))
         == Balance(states[i].db.entries, accounts, Year(states[i].db.config, y))
  {
    RunOk(states, events, i);
    RunIsSerial(states, events, i);
    hide Effect, StillGood, Balance, Year, Plain, YearClosed, LedgerOk;
    if events[i].Commit? {
      var t := events[i].t;
      assert RunningOk(states[i], t);
      FrozenStep(states[i].running[t].0, states[i].db, y, accounts);
    }
  }
}
