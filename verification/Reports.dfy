/** The financial statements (src/reporting/cash-flow.service.ts, balance-sheet.service.ts,
income-statement.service.ts): derived views whose identities hold in every ledger in order. */
module Reports {
  import opened Options
  import opened Ledger
  import Money
  import opened Invariants
  import opened Protocol
  import opened Balances

  // ---- sums over classes of rows ------------------------------------------------------------

  /** Credits minus debits of the rows in a class of accounts. */
  function Effect(rows: seq<BalanceRow>, pick: Account -> bool): Amount {
    if rows == [] then 0 else
      Effect(rows[..|rows| - 1], pick) +
      (if pick(rows[|rows| - 1].account) then rows[|rows| - 1].credit - rows[|rows| - 1].debit else 0)
  }

  // A class split in two adds up.
  lemma {:induction false} EffectSplits(rows: seq<BalanceRow>, whole: Account -> bool, a: Account -> bool, b: Account -> bool)
    requires forall r | r in rows :: (whole(r.account) <==> a(r.account) || b(r.account)) && !(a(r.account) && b(r.account))
    ensures Effect(rows, whole) == Effect(rows, a) + Effect(rows, b)
  {
    if rows != [] {
      assert forall r | r in rows[..|rows| - 1] :: r in rows;
      assert rows[|rows| - 1] in rows;
      EffectSplits(rows[..|rows| - 1], whole, a, b);
    }
  }

  lemma {:induction false} EffectOfWhere(rows: seq<BalanceRow>, pick: Account -> bool)
    ensures Effect(rows, pick) == RowsTotal(Where(rows, pick), Credit) - RowsTotal(Where(rows, pick), Debit)
  {
    if rows != [] {
      EffectOfWhere(rows[..|rows| - 1], pick);
      var kept := Where(rows[..|rows| - 1], pick);
      assert (kept + [rows[|rows| - 1]])[..|kept|] == kept;
      assert kept + [] == kept;
    }
  }

  /** The rows' effect is the ledger balance of the class, seen from the credit side. */
  lemma EffectIsBalance(db: Db, w: Window, rows: seq<BalanceRow>, pick: Account -> bool)
    requires JournalOk(db) && IsGrouped(db, w, rows)
    ensures Effect(rows, pick) == -Balance(db.entries, AccountsWhere(db, pick), w)
  {
    EffectOfWhere(rows, pick);
    ClassBalance(db, w, rows, pick);
  }

  lemma EffectOfAll(db: Db, w: Window, rows: seq<BalanceRow>)
    requires JournalOk(db) && IsGrouped(db, w, rows)
    ensures Effect(rows, AnyAccount) == 0
  {
    EffectOfWhere(rows, AnyAccount);
    WhereAny(rows);
    TrialBalanceAgrees(db, w, rows);
  }

  predicate AnyAccount(a: Account) { true }

  lemma {:induction false} WhereAny(rows: seq<BalanceRow>)
    ensures Where(rows, AnyAccount) == rows
  {
    if rows != [] {
      WhereAny(rows[..|rows| - 1]);
      assert rows == rows[..|rows| - 1] + [rows[|rows| - 1]];
    }
  }

  // ---- sums in Money arithmetic ---------------------------------------------------------------

  lemma NoEffects(rows: seq<BalanceRow>)
    ensures forall pick: Account -> bool :: Effect(rows[..0], pick) == 0
  {
  }

  lemma {:induction false} EffectBounds(rows: seq<BalanceRow>, pick: Account -> bool)
    requires RowsNonNegative(rows)
    ensures -RowsTotal(rows, Debit) <= Effect(rows, pick) <= RowsTotal(rows, Credit)
  {
    if rows != [] { EffectBounds(rows[..|rows| - 1], pick); }
  }

  lemma EffectWithin(rows: seq<BalanceRow>, pick: Account -> bool)
    requires Representable(rows)
    ensures -Money.LIMIT <= Effect(rows, pick) <= Money.LIMIT
  {
    EffectBounds(rows, pick);
    PrefixTotals(rows, 0, Debit);
    PrefixTotals(rows, 0, Credit);
  }

  lemma EffectStep(rows: seq<BalanceRow>, i: nat, pick: Account -> bool)
    requires i < |rows|
    ensures Effect(rows[..i + 1], pick) == Effect(rows[..i], pick) + (if pick(rows[i].account) then rows[i].credit - rows[i].debit else 0)
  {
    PrefixRow(rows, i);
  }

  lemma EffectAddsExactly(rows: seq<BalanceRow>, i: nat, pick: Account -> bool)
    requires Representable(rows) && i < |rows|
    ensures var e, c := Effect(rows[..i], pick), rows[i].credit - rows[i].debit;
      && Money.Subtract(rows[i].credit, rows[i].debit) == c && Money.Subtract(rows[i].debit, rows[i].credit) == -c
      && Money.Add(e, c) == e + c && Money.Add(-e, -c) == -e - c
      && Effect(rows[..i + 1], pick) == e + (if pick(rows[i].account) then c else 0)
  {
    hide Money.Add, Money.Subtract, Effect;
    var e, c := Effect(rows[..i], pick), rows[i].credit - rows[i].debit;
    SidesAddExactly(rows, i);
    EffectStep(rows, i, pick);
    PrefixWithin(rows, i);
    EffectBounds(rows[..i], pick);
    Money.AddExactIff(e, c);
    Money.AddExactIff(-e, -c);
  }

  /** filter and reduce with credit minus debit. */
  method SumEffects(rows: seq<BalanceRow>, pick: Account -> bool) returns (total: Amount)
    ensures Representable(rows) ==> total == Effect(rows, pick)
  {
    hide Money.Add, Money.Subtract, Representable, Effect;
    total := 0;
    NoEffects(rows);
    for i := 0 to |rows|
      invariant Representable(rows) ==> total == Effect(rows[..i], pick)
    {
      if Representable(rows) { EffectAddsExactly(rows, i, pick); }
      if pick(rows[i].account) { total := Money.Add(total, Money.Subtract(rows[i].credit, rows[i].debit)); }
    }
    assert rows[..|rows|] == rows;
  }

  /** filter and reduce with debit minus credit. */
  method SumPositions(rows: seq<BalanceRow>, pick: Account -> bool) returns (total: Amount)
    ensures Representable(rows) ==> total == -Effect(rows, pick)
  {
    hide Money.Add, Money.Subtract, Representable, Effect;
    total := 0;
    NoEffects(rows);
    for i := 0 to |rows|
      invariant Representable(rows) ==> total == -Effect(rows[..i], pick)
    {
      if Representable(rows) { EffectAddsExactly(rows, i, pick); }
      if pick(rows[i].account) { total := Money.Add(total, Money.Subtract(rows[i].debit, rows[i].credit)); }
    }
    assert rows[..|rows|] == rows;
  }

  predicate IsProfitOrLoss(a: Account) { a.accountType.Revenue? || a.accountType.Expense? }

  // ---- cash flow ------------------------------------------------------------------------------

  predicate IsCash(a: Account) { a.role == Some(Cash) }

  predicate NonCashPl(a: Account) { !IsCash(a) && IsProfitOrLoss(a) }

  predicate InInvesting(a: Account) { !IsCash(a) && !IsProfitOrLoss(a) && a.category.Investing? }

  predicate InFinancing(a: Account) { !IsCash(a) && !IsProfitOrLoss(a) && a.category.Financing? }

  /** NONE counts as operating. */
  predicate InOperating(a: Account) { !IsCash(a) && !IsProfitOrLoss(a) && !a.category.Investing? && !a.category.Financing? }

  datatype CashFlow = CashFlow(
    netIncome: Amount, operating: Amount, investing: Amount, financing: Amount,
    netChange: Amount, opening: Amount, closing: Amount, reconciles: bool)

  /** generate in Money arithmetic, while sums stay within 10^16 rupiah: each figure is the
      effect of its class of accounts.  A closing balance below 10^16 rupiah is said to reconcile
      exactly when it does. */
  method GenerateCashFlow(movements: seq<BalanceRow>, before: seq<BalanceRow>, after: seq<BalanceRow>) returns (r: CashFlow)
    ensures Representable(movements) ==>
      && r.netIncome == Effect(movements, NonCashPl)
      && r.operating == Effect(movements, NonCashPl) + Effect(movements, InOperating)
      && r.investing == Effect(movements, InInvesting) && r.financing == Effect(movements, InFinancing)
      && r.netChange == r.operating + r.investing + r.financing
    ensures Representable(before) ==> r.opening == -Effect(before, IsCash)
    ensures Representable(after) ==> r.closing == -Effect(after, IsCash)
    ensures Representable(after) && r.opening + r.netChange == r.closing ==> r.reconciles
    ensures -Money.LIMIT < r.closing < Money.LIMIT ==> (r.reconciles <==> r.opening + r.netChange == r.closing)
  {
    hide Money.Add, Money.Subtract, Representable, Effect;
    var netIncome := SumEffects(movements, NonCashPl);
    var operating, investing, financing := 0, 0, 0;
    NoEffects(movements);
    for i := 0 to |movements|
      invariant Representable(movements) ==> operating == Effect(movements[..i], InOperating)
      invariant Representable(movements) ==> investing == Effect(movements[..i], InInvesting)
      invariant Representable(movements) ==> financing == Effect(movements[..i], InFinancing)
    {
      var row := movements[i];
      if Representable(movements) {
        EffectAddsExactly(movements, i, InOperating);
        EffectAddsExactly(movements, i, InInvesting);
        EffectAddsExactly(movements, i, InFinancing);
      }
      var amount := Money.Subtract(row.credit, row.debit);
      if IsCash(row.account) || IsProfitOrLoss(row.account) || amount == 0 { continue; }
      match row.account.category {
        case Investing => investing := Money.Add(investing, amount);
        case Financing => financing := Money.Add(financing, amount);
        case _ => operating := Money.Add(operating, amount);
      }
    }
    assert movements[..|movements|] == movements;
    if Representable(movements) { SectionsAddExactly(movements); }
    var total := Money.Add(netIncome, operating);
    var netChange := Money.Add(Money.Add(total, investing), financing);
    var opening := SumPositions(before, IsCash);
    var closing := SumPositions(after, IsCash);
    if Representable(after) && opening + netChange == closing { CashAddsExactly(after, opening, netChange); }
    if -Money.LIMIT < closing < Money.LIMIT { SumsExactlyTo(opening, netChange, closing); }
    r := CashFlow(netIncome, total, investing, financing, netChange, opening, closing, Money.Add(opening, netChange) == closing);
  }

  lemma SectionsAddExactly(rows: seq<BalanceRow>)
    requires Representable(rows)
    ensures var a, b, c, d := Effect(rows, NonCashPl), Effect(rows, InOperating), Effect(rows, InInvesting), Effect(rows, InFinancing);
      Money.Add(a, b) == a + b && Money.Add(a + b, c) == a + b + c && Money.Add(a + b + c, d) == a + b + c + d
  {
    hide Money.Add;
    var ab := (a: Account) => NonCashPl(a) || InOperating(a);
    var abc := (a: Account) => ab(a) || InInvesting(a);
    var abcd := (a: Account) => abc(a) || InFinancing(a);
    EffectSplits(rows, ab, NonCashPl, InOperating);
    EffectSplits(rows, abc, ab, InInvesting);
    EffectSplits(rows, abcd, abc, InFinancing);
    EffectWithin(rows, ab);
    EffectWithin(rows, abc);
    EffectWithin(rows, abcd);
    Money.AddExactIff(Effect(rows, NonCashPl), Effect(rows, InOperating));
    Money.AddExactIff(Effect(rows, ab), Effect(rows, InInvesting));
    Money.AddExactIff(Effect(rows, abc), Effect(rows, InFinancing));
  }

  // Rounding never makes a sum meet a value below the limit that it does not meet.
  lemma SumsExactlyTo(a: Amount, b: Amount, c: Amount)
    requires -Money.LIMIT < c < Money.LIMIT
    ensures Money.Add(a, b) == c <==> a + b == c
  {
    hide Money.Sig20;
    var n := a + b;
    Money.AddExactIff(Money.LIMIT, 0);
    Money.AddExactIff(-Money.LIMIT, 0);
    Money.AddExactIff(a, b);
    if n >= Money.LIMIT { Money.SigMonotone(Money.LIMIT, n); }
    if n <= -Money.LIMIT { Money.SigMonotone(n, -Money.LIMIT); }
  }

  lemma CashAddsExactly(after: seq<BalanceRow>, opening: Amount, change: Amount)
    requires Representable(after) && opening + change == -Effect(after, IsCash)
    ensures Money.Add(opening, change) == opening + change
  {
    hide Money.Add;
    EffectWithin(after, IsCash);
    Money.AddExactIff(opening, change);
  }

  /** Opening cash plus operating, investing and financing is closing cash, whatever the
      categories of the accounts. */
  lemma CashFlowReconciles(db: Db, from: Day, to: Day, movements: seq<BalanceRow>, before: seq<BalanceRow>, after: seq<BalanceRow>)
    requires JournalOk(db) && from <= to
    requires IsGrouped(db, Between(from, to), movements)
    requires IsGrouped(db, UpTo(from - 1), before) && IsGrouped(db, UpTo(to), after)
    ensures -Effect(before, IsCash)
          + (Effect(movements, NonCashPl) + Effect(movements, InOperating) + Effect(movements, InInvesting) + Effect(movements, InFinancing))
         == -Effect(after, IsCash)
  {
    hide JournalOk, IsGrouped;
    EffectIsBalance(db, UpTo(from - 1), before, IsCash);
    EffectIsBalance(db, UpTo(to), after, IsCash);
    EffectIsBalance(db, Between(from, to), movements, IsCash);
    WindowSplits(db.entries, AccountsWhere(db, IsCash), from, to);
    SectionsCoverNonCash(movements);
    EffectOfAll(db, Between(from, to), movements);
  }

  lemma SectionsCoverNonCash(rows: seq<BalanceRow>)
    ensures Effect(rows, AnyAccount) == Effect(rows, IsCash) + Effect(rows, NonCashPl)
          + Effect(rows, InOperating) + Effect(rows, InInvesting) + Effect(rows, InFinancing)
  {
    var nonCash := (a: Account) => !IsCash(a);
    var nonCashOther := (a: Account) => !IsCash(a) && !IsProfitOrLoss(a);
    var notOperating := (a: Account) => InInvesting(a) || InFinancing(a);
    EffectSplits(rows, AnyAccount, IsCash, nonCash);
    EffectSplits(rows, nonCash, NonCashPl, nonCashOther);
    EffectSplits(rows, nonCashOther, InOperating, notOperating);
    EffectSplits(rows, notOperating, InInvesting, InFinancing);
  }

  // ---- balance sheet ------------------------------------------------------------------------------

  function NaturalTotal(rows: seq<BalanceRow>): Amount {
    if rows == [] then 0 else
      NaturalTotal(rows[..|rows| - 1]) +
      NaturalSide(rows[|rows| - 1].account.accountType, rows[|rows| - 1].debit, rows[|rows| - 1].credit)
  }

  function OfSubtype(rows: seq<BalanceRow>, s: Subtype): seq<BalanceRow> { Where(rows, (a: Account) => a.subtype == s) }

  /** naturalSide in Money arithmetic. */
  function RoundedNatural(r: BalanceRow): Amount {
    if r.account.accountType.Asset? || r.account.accountType.Expense?
    then Money.Subtract(r.debit, r.credit) else Money.Subtract(r.credit, r.debit)
  }

  predicate DebitNatured(a: Account) { a.accountType.Asset? || a.accountType.Expense? }

  /** All rows count on the same side. */
  predicate OneNature(rows: seq<BalanceRow>, debit: bool) { forall i | 0 <= i < |rows| :: DebitNatured(rows[i].account) == debit }

  /** Natural sides add exactly: each side within 10^16 rupiah if all rows are of one nature, as in
      every section of the statements, and otherwise both sides together. */
  predicate NaturalFits(rows: seq<BalanceRow>) {
    && Representable(rows)
    && (OneNature(rows, true) || OneNature(rows, false) || RowsTotal(rows, Debit) + RowsTotal(rows, Credit) <= Money.LIMIT)
  }

  lemma {:induction false} NaturalBounds(rows: seq<BalanceRow>)
    requires RowsNonNegative(rows)
    ensures -(RowsTotal(rows, Debit) + RowsTotal(rows, Credit)) <= NaturalTotal(rows) <= RowsTotal(rows, Debit) + RowsTotal(rows, Credit)
    ensures OneNature(rows, true) ==> -RowsTotal(rows, Credit) <= NaturalTotal(rows) <= RowsTotal(rows, Debit)
    ensures OneNature(rows, false) ==> -RowsTotal(rows, Debit) <= NaturalTotal(rows) <= RowsTotal(rows, Credit)
  {
    if rows != [] { NaturalBounds(rows[..|rows| - 1]); }
  }

  lemma NaturalAddsExactly(rows: seq<BalanceRow>, i: nat)
    requires NaturalFits(rows) && i < |rows|
    ensures Money.Add(NaturalTotal(rows[..i]), RoundedNatural(rows[i])) == NaturalTotal(rows[..i + 1])
  {
    hide Money.Add, Money.Subtract, NaturalTotal, RowsTotal;
    SidesAddExactly(rows, i);
    PrefixWithin(rows, i);
    NaturalBounds(rows[..i]);
    NaturalStep(rows, i);
    Money.AddExactIff(NaturalTotal(rows[..i]), RoundedNatural(rows[i]));
  }

  lemma NaturalStep(rows: seq<BalanceRow>, i: nat)
    requires i < |rows|
    ensures NaturalTotal(rows[..i + 1]) == NaturalTotal(rows[..i]) + NaturalSide(rows[i].account.accountType, rows[i].debit, rows[i].credit)
  {
    PrefixRow(rows, i);
  }

  /** total = total.add(naturalSide(...)) over some rows. */
  method SumNatural(rows: seq<BalanceRow>) returns (total: Amount)
    ensures NaturalFits(rows) ==> total == NaturalTotal(rows)
  {
    hide Money.Add, RoundedNatural, NaturalFits;
    total := 0;
    for i := 0 to |rows|
      invariant NaturalFits(rows) ==> total == NaturalTotal(rows[..i])
    {
      if NaturalFits(rows) { NaturalAddsExactly(rows, i); }
      total := Money.Add(total, RoundedNatural(rows[i]));
    }
    assert rows[..|rows|] == rows;
  }

  // A class of representable rows is representable.
  lemma {:induction false} WhereTotals(rows: seq<BalanceRow>, pick: Account -> bool, side: Side)
    requires RowsNonNegative(rows)
    ensures RowsNonNegative(Where(rows, pick)) && 0 <= RowsTotal(Where(rows, pick), side) <= RowsTotal(rows, side)
  {
    if rows != [] {
      var kept := Where(rows[..|rows| - 1], pick);
      WhereTotals(rows[..|rows| - 1], pick, side);
      assert (kept + [rows[|rows| - 1]])[..|kept|] == kept;
      assert kept + [] == kept;
    }
  }

  lemma WhereRepresentable(rows: seq<BalanceRow>, pick: Account -> bool)
    requires Representable(rows)
    ensures Representable(Where(rows, pick))
  {
    WhereTotals(rows, pick, Debit);
    WhereTotals(rows, pick, Credit);
  }

  lemma {:induction false} WhereOneNature(rows: seq<BalanceRow>, pick: Account -> bool, debit: bool)
    requires forall r | r in rows && pick(r.account) :: DebitNatured(r.account) == debit
    ensures OneNature(Where(rows, pick), debit)
  {
    if rows != [] {
      assert forall r | r in rows[..|rows| - 1] :: r in rows;
      assert rows[|rows| - 1] in rows;
      WhereOneNature(rows[..|rows| - 1], pick, debit);
    }
  }

  lemma ClassFits(rows: seq<BalanceRow>, pick: Account -> bool, debit: bool)
    requires Representable(rows) && forall r | r in rows && pick(r.account) :: DebitNatured(r.account) == debit
    ensures NaturalFits(Where(rows, pick))
  {
    hide Representable;
    WhereRepresentable(rows, pick);
    WhereOneNature(rows, pick, debit);
  }

  /** group: the natural-side total of some rows and, per subtype, its rows in order. */
  method Group(rows: seq<BalanceRow>) returns (groups: map<Subtype, seq<BalanceRow>>, total: Amount)
    ensures NaturalFits(rows) ==> total == NaturalTotal(rows)
    ensures forall s: Subtype :: OfSubtype(rows, s) == if s in groups then groups[s] else []
    ensures forall s | s in groups :: groups[s] != []
  {
    hide OfSubtype, Money.Add, RoundedNatural, NaturalFits;
    groups, total := map[], 0;
    NoneOfSubtype(rows);
    for i := 0 to |rows|
      invariant NaturalFits(rows) ==> total == NaturalTotal(rows[..i])
      invariant forall s: Subtype :: OfSubtype(rows[..i], s) == if s in groups then groups[s] else []
      invariant forall s | s in groups :: groups[s] != []
    {
      var r := rows[i];
      if NaturalFits(rows) { NaturalAddsExactly(rows, i); }
      total := Money.Add(total, RoundedNatural(r));
      var lines := if r.account.subtype in groups then groups[r.account.subtype] else [];
      groups := groups[r.account.subtype := lines + [r]];
      assert rows[..i + 1] == rows[..i] + [r];
      forall s: Subtype ensures OfSubtype(rows[..i + 1], s) == if s in groups then groups[s] else [] {
        SubtypeSnoc(rows[..i], r, s);
      }
    }
    assert rows[..|rows|] == rows;
  }

  lemma NoneOfSubtype(rows: seq<BalanceRow>)
    ensures forall s: Subtype :: OfSubtype(rows[..0], s) == []
  {
  }

  lemma SubtypeSnoc(rows: seq<BalanceRow>, r: BalanceRow, s: Subtype)
    ensures OfSubtype(rows + [r], s) == OfSubtype(rows, s) + (if r.account.subtype == s then [r] else [])
  {
    assert (rows + [r])[..|rows|] == rows;
  }

  predicate IsAsset(a: Account) { a.accountType.Asset? }

  predicate IsLiability(a: Account) { a.accountType.Liability? }

  predicate IsEquity(a: Account) { a.accountType.Equity? }

  datatype BalanceSheet = BalanceSheet(
    totalAssets: Amount, totalLiabilities: Amount, totalEquity: Amount, currentYearEarnings: Amount, balanced: bool)

  /** generate in Money arithmetic: while sums stay within 10^16 rupiah the figures are those of
      the account classes and the flag says exactly whether they balance. */
  method GenerateBalanceSheet(rows: seq<BalanceRow>, yearRows: seq<BalanceRow>) returns (b: BalanceSheet)
    ensures Representable(rows) ==>
      && b.totalAssets == NaturalTotal(Where(rows, IsAsset)) && b.totalLiabilities == NaturalTotal(Where(rows, IsLiability))
      && b.totalEquity == NaturalTotal(Where(rows, IsEquity)) + Effect(rows, IsProfitOrLoss)
      && (b.balanced <==> b.totalAssets == b.totalLiabilities + b.totalEquity)
    ensures Representable(yearRows) ==> b.currentYearEarnings == Effect(yearRows, IsProfitOrLoss)
  {
    hide Money.Add, Representable, NaturalFits, NaturalTotal, Effect;
    if Representable(rows) {
      ClassFits(rows, IsAsset, true);
      ClassFits(rows, IsLiability, false);
      ClassFits(rows, IsEquity, false);
      SheetAddsExactly(rows);
    }
    var _, assets := Group(Where(rows, IsAsset));
    var _, liabilities := Group(Where(rows, IsLiability));
    var _, equity := Group(Where(rows, IsEquity));
    var earnings := SumEffects(rows, IsProfitOrLoss);
    var currentYear := SumEffects(yearRows, IsProfitOrLoss);
    var totalEquity := Money.Add(equity, earnings);
    b := BalanceSheet(assets, liabilities, totalEquity, currentYear, assets == Money.Add(liabilities, totalEquity));
  }

  lemma SheetAddsExactly(rows: seq<BalanceRow>)
    requires Representable(rows)
    ensures var l, q, e := NaturalTotal(Where(rows, IsLiability)), NaturalTotal(Where(rows, IsEquity)), Effect(rows, IsProfitOrLoss);
      Money.Add(q, e) == q + e && Money.Add(l, q + e) == l + (q + e)
  {
    hide Money.Add;
    var qe := (a: Account) => IsEquity(a) || IsProfitOrLoss(a);
    var lqe := (a: Account) => IsLiability(a) || qe(a);
    NaturalOfWhere(rows, IsLiability, false);
    NaturalOfWhere(rows, IsEquity, false);
    EffectSplits(rows, qe, IsEquity, IsProfitOrLoss);
    EffectSplits(rows, lqe, IsLiability, qe);
    EffectWithin(rows, qe);
    EffectWithin(rows, lqe);
    Money.AddExactIff(Effect(rows, IsEquity), Effect(rows, IsProfitOrLoss));
    Money.AddExactIff(Effect(rows, IsLiability), Effect(rows, qe));
  }

  lemma {:induction false} NaturalOfWhere(rows: seq<BalanceRow>, pick: Account -> bool, debitNatured: bool)
    requires forall a: Account :: pick(a) ==> (debitNatured <==> a.accountType.Asset? || a.accountType.Expense?)
    ensures NaturalTotal(Where(rows, pick)) == if debitNatured then -Effect(rows, pick) else Effect(rows, pick)
  {
    if rows != [] {
      var front, last := rows[..|rows| - 1], rows[|rows| - 1];
      NaturalOfWhere(front, pick, debitNatured);
      NaturalSnoc(Where(front, pick), last);
      assert Where(front, pick) + [] == Where(front, pick);
      assert pick(last.account) ==> (debitNatured <==> last.account.accountType.Asset? || last.account.accountType.Expense?);
    }
  }

  lemma NaturalSnoc(rows: seq<BalanceRow>, r: BalanceRow)
    ensures NaturalTotal(rows + [r]) == NaturalTotal(rows) + NaturalSide(r.account.accountType, r.debit, r.credit)
  {
    assert (rows + [r])[..|rows|] == rows;
  }

  /** Assets equal liabilities plus equity with cumulative earnings, contra accounts included. */
  lemma BalanceSheetBalances(db: Db, w: Window, rows: seq<BalanceRow>)
    requires JournalOk(db) && IsGrouped(db, w, rows)
    ensures NaturalTotal(Where(rows, IsAsset))
         == NaturalTotal(Where(rows, IsLiability)) + (NaturalTotal(Where(rows, IsEquity)) + Effect(rows, IsProfitOrLoss))
  {
    hide JournalOk, IsGrouped;
    NaturalOfWhere(rows, IsAsset, true);
    NaturalOfWhere(rows, IsLiability, false);
    NaturalOfWhere(rows, IsEquity, false);
    EffectOfAll(db, w, rows);
    var rest1 := (a: Account) => !IsAsset(a);
    var rest2 := (a: Account) => !IsAsset(a) && !IsLiability(a);
    EffectSplits(rows, AnyAccount, IsAsset, rest1);
    EffectSplits(rows, rest1, IsLiability, rest2);
    EffectSplits(rows, rest2, IsEquity, IsProfitOrLoss);
  }

  // ---- income statement -----------------------------------------------------------------------------

  predicate IsTax(a: Account) { IsProfitOrLoss(a) && a.role == Some(TaxExpense) }

  predicate InSection(a: Account, s: Subtype) { IsProfitOrLoss(a) && a.role != Some(TaxExpense) && a.subtype == s }

  function SectionOf(s: Subtype): Account -> bool { (a: Account) => InSection(a, s) }

  /** section: the natural-side total of the profit-and-loss rows of one subtype. */
  function Section(rows: seq<BalanceRow>, s: Subtype): Amount {
    NaturalTotal(Where(rows, SectionOf(s)))
  }

  datatype IncomeStatement = IncomeStatement(
    revenue: Amount, cogs: Amount, grossProfit: Amount, operatingExpense: Amount, operatingProfit: Amount,
    otherIncome: Amount, otherExpense: Amount, profitBeforeTax: Amount, taxExpense: Amount, netIncome: Amount)

  /** The statement in exact arithmetic. */
  function Statement(rows: seq<BalanceRow>): IncomeStatement {
    var revenue, cogs := Section(rows, RevenueAccount), Section(rows, Cogs);
    var grossProfit := revenue - cogs;
    var operatingExpense := Section(rows, OperatingExpense);
    var operatingProfit := grossProfit - operatingExpense;
    var otherIncome, otherExpense := Section(rows, OtherIncome), Section(rows, OtherExpense);
    var profitBeforeTax := operatingProfit + otherIncome - otherExpense;
    var tax := NaturalTotal(Where(rows, IsTax));
    IncomeStatement(revenue, cogs, grossProfit, operatingExpense, operatingProfit,
                    otherIncome, otherExpense, profitBeforeTax, tax, profitBeforeTax - tax)
  }

  /** Both sides of the rows in a class. */
  function Turnover(rows: seq<BalanceRow>, pick: Account -> bool): Amount {
    if rows == [] then 0 else
      Turnover(rows[..|rows| - 1], pick) +
      (if pick(rows[|rows| - 1].account) then rows[|rows| - 1].debit + rows[|rows| - 1].credit else 0)
  }

  lemma {:induction false} NaturalTurnover(rows: seq<BalanceRow>, pick: Account -> bool)
    requires RowsNonNegative(rows)
    ensures -Turnover(rows, pick) <= NaturalTotal(Where(rows, pick)) <= Turnover(rows, pick)
  {
    if rows != [] {
      var front, last := rows[..|rows| - 1], rows[|rows| - 1];
      NaturalTurnover(front, pick);
      NaturalSnoc(Where(front, pick), last);
      assert Where(front, pick) + [] == Where(front, pick);
    }
  }

  // The six figures come from disjoint rows.
  lemma {:induction false} SectionsTurnover(rows: seq<BalanceRow>)
    requires RowsNonNegative(rows)
    ensures Turnover(rows, SectionOf(RevenueAccount)) + Turnover(rows, SectionOf(Cogs)) + Turnover(rows, SectionOf(OperatingExpense))
          + Turnover(rows, SectionOf(OtherIncome)) + Turnover(rows, SectionOf(OtherExpense)) + Turnover(rows, IsTax)
         <= RowsTotal(rows, Debit) + RowsTotal(rows, Credit)
  {
    if rows != [] { SectionsTurnover(rows[..|rows| - 1]); }
  }

  lemma SubtractExactly(a: Amount, b: Amount)
    requires -Money.LIMIT <= a - b <= Money.LIMIT
    ensures Money.Subtract(a, b) == a - b
  {
    Money.AddExactIff(a, -b);
  }

  /** The statement's sums are exact: each side within 10^16 rupiah over a coherent chart whose
      TAX_EXPENSE accounts are expenses, and otherwise both sides together. */
  predicate StatementFits(rows: seq<BalanceRow>) {
    && Representable(rows)
    && (|| RowsTotal(rows, Debit) + RowsTotal(rows, Credit) <= Money.LIMIT
        || forall r | r in rows :: Coherent(r.account) && !RevenueTax(r.account))
  }

  lemma SectionFits(rows: seq<BalanceRow>, s: Subtype)
    requires StatementFits(rows)
    ensures NaturalFits(Where(rows, SectionOf(s)))
  {
    if RowsTotal(rows, Debit) + RowsTotal(rows, Credit) <= Money.LIMIT {
      WhereTotals(rows, SectionOf(s), Debit);
      WhereTotals(rows, SectionOf(s), Credit);
    } else {
      ClassFits(rows, SectionOf(s), !(s == RevenueAccount || s == OtherIncome));
    }
  }

  lemma TaxFits(rows: seq<BalanceRow>)
    requires StatementFits(rows)
    ensures NaturalFits(Where(rows, IsTax))
  {
    if RowsTotal(rows, Debit) + RowsTotal(rows, Credit) <= Money.LIMIT {
      WhereTotals(rows, IsTax, Debit);
      WhereTotals(rows, IsTax, Credit);
    } else {
      ClassFits(rows, IsTax, true);
    }
  }

  /** generate in Money arithmetic, while its sums are exact. */
  method GenerateIncomeStatement(rows: seq<BalanceRow>) returns (r: IncomeStatement)
    ensures StatementFits(rows) ==> r == Statement(rows)
  {
    hide Money.Add, Money.Subtract, StatementFits, NaturalFits, NaturalTotal, Where;
    if StatementFits(rows) {
      SectionFits(rows, RevenueAccount);
      SectionFits(rows, Cogs);
      SectionFits(rows, OperatingExpense);
      SectionFits(rows, OtherIncome);
      SectionFits(rows, OtherExpense);
      TaxFits(rows);
      StatementExact(rows);
    }
    var revenue := SumNatural(Where(rows, SectionOf(RevenueAccount)));
    var cogs := SumNatural(Where(rows, SectionOf(Cogs)));
    var grossProfit := Money.Subtract(revenue, cogs);
    var operatingExpense := SumNatural(Where(rows, SectionOf(OperatingExpense)));
    var operatingProfit := Money.Subtract(grossProfit, operatingExpense);
    var otherIncome := SumNatural(Where(rows, SectionOf(OtherIncome)));
    var otherExpense := SumNatural(Where(rows, SectionOf(OtherExpense)));
    var profitBeforeTax := Money.Subtract(Money.Add(operatingProfit, otherIncome), otherExpense);
    var tax := SumNatural(Where(rows, IsTax));
    r := IncomeStatement(revenue, cogs, grossProfit, operatingExpense, operatingProfit,
                         otherIncome, otherExpense, profitBeforeTax, tax, Money.Subtract(profitBeforeTax, tax));
  }

  /** Every intermediate figure of the statement is within 10^16 rupiah. */
  predicate Within(s: IncomeStatement) {
    && -Money.LIMIT <= s.grossProfit <= Money.LIMIT && -Money.LIMIT <= s.operatingProfit <= Money.LIMIT
    && -Money.LIMIT <= s.operatingProfit + s.otherIncome <= Money.LIMIT
    && -Money.LIMIT <= s.profitBeforeTax <= Money.LIMIT && -Money.LIMIT <= s.netIncome <= Money.LIMIT
  }

  lemma TurnoverWithin(rows: seq<BalanceRow>)
    requires RowsNonNegative(rows) && RowsTotal(rows, Debit) + RowsTotal(rows, Credit) <= Money.LIMIT
    ensures Within(Statement(rows))
  {
    hide NaturalTotal, Turnover, Where;
    NaturalTurnover(rows, SectionOf(RevenueAccount));
    NaturalTurnover(rows, SectionOf(Cogs));
    NaturalTurnover(rows, SectionOf(OperatingExpense));
    NaturalTurnover(rows, SectionOf(OtherIncome));
    NaturalTurnover(rows, SectionOf(OtherExpense));
    NaturalTurnover(rows, IsTax);
    SectionsTurnover(rows);
  }

  // Over an ordinary chart the figures are effects of growing classes of accounts.
  lemma EffectsWithin(rows: seq<BalanceRow>)
    requires Representable(rows) && forall r | r in rows :: Coherent(r.account) && !RevenueTax(r.account)
    ensures Within(Statement(rows))
  {
    hide NaturalTotal, Effect, Where, Representable;
    var rev, cogs, opex, inc, exp := SectionOf(RevenueAccount), SectionOf(Cogs), SectionOf(OperatingExpense), SectionOf(OtherIncome), SectionOf(OtherExpense);
    var u1 := (a: Account) => rev(a) || cogs(a);
    var u2 := (a: Account) => u1(a) || opex(a);
    var u3 := (a: Account) => u2(a) || inc(a);
    var u4 := (a: Account) => u3(a) || exp(a);
    var u5 := (a: Account) => u4(a) || IsTax(a);
    SectionEffect(rows, RevenueAccount);
    SectionEffect(rows, Cogs);
    SectionEffect(rows, OperatingExpense);
    SectionEffect(rows, OtherIncome);
    SectionEffect(rows, OtherExpense);
    TaxEffect(rows);
    NoEffectWithout(rows, RevenueTax);
    EffectSplits(rows, u1, rev, cogs);
    EffectSplits(rows, u2, u1, opex);
    EffectSplits(rows, u3, u2, inc);
    EffectSplits(rows, u4, u3, exp);
    EffectSplits(rows, u5, u4, IsTax);
    EffectWithin(rows, u1);
    EffectWithin(rows, u2);
    EffectWithin(rows, u3);
    EffectWithin(rows, u4);
    EffectWithin(rows, u5);
  }

  lemma StatementExact(rows: seq<BalanceRow>)
    requires StatementFits(rows)
    ensures var s := Statement(rows);
      && Money.Subtract(s.revenue, s.cogs) == s.grossProfit && Money.Subtract(s.grossProfit, s.operatingExpense) == s.operatingProfit
      && Money.Add(s.operatingProfit, s.otherIncome) == s.operatingProfit + s.otherIncome
      && Money.Subtract(s.operatingProfit + s.otherIncome, s.otherExpense) == s.profitBeforeTax
      && Money.Subtract(s.profitBeforeTax, s.taxExpense) == s.netIncome
  {
    hide Money.Add, Money.Subtract, NaturalTotal, Where;
    var s := Statement(rows);
    if RowsTotal(rows, Debit) + RowsTotal(rows, Credit) <= Money.LIMIT { TurnoverWithin(rows); } else { EffectsWithin(rows); }
    SubtractExactly(s.revenue, s.cogs);
    SubtractExactly(s.grossProfit, s.operatingExpense);
    Money.AddExactIff(s.operatingProfit, s.otherIncome);
    SubtractExactly(s.operatingProfit + s.otherIncome, s.otherExpense);
    SubtractExactly(s.profitBeforeTax, s.taxExpense);
  }

  predicate RevenueTax(a: Account) { IsTax(a) && a.accountType.Revenue? }

  lemma {:induction false} SectionEffect(rows: seq<BalanceRow>, s: Subtype)
    requires forall r | r in rows :: Coherent(r.account)
    ensures Section(rows, s) == if s == RevenueAccount || s == OtherIncome then Effect(rows, SectionOf(s)) else -Effect(rows, SectionOf(s))
  {
    if rows == [] {
    } else {
      var front, last, pick := rows[..|rows| - 1], rows[|rows| - 1], SectionOf(s);
      assert forall r | r in front :: r in rows;
      assert last in rows;
      SectionEffect(front, s);
      var kept := Where(front, pick);
      assert (kept + [last])[..|kept|] == kept;
      assert kept + [] == kept;
      assert InSection(last.account, s) ==> (last.account.accountType.Revenue? <==> s == RevenueAccount || s == OtherIncome);
    }
  }

  lemma {:induction false} TaxEffect(rows: seq<BalanceRow>)
    ensures NaturalTotal(Where(rows, IsTax)) == -Effect(rows, IsTax) + 2 * Effect(rows, RevenueTax)
  {
    if rows != [] {
      TaxEffect(rows[..|rows| - 1]);
      var kept := Where(rows[..|rows| - 1], IsTax);
      assert (kept + [rows[|rows| - 1]])[..|kept|] == kept;
      assert kept + [] == kept;
    }
  }

  /** With coherent accounts the statement's net income is the period's earnings if and only
      if what is booked on a tax-expense account of type REVENUE, where no chart should have
      one, nets to zero. */
  lemma NetIncomeIffEarnings(rows: seq<BalanceRow>)
    requires forall r | r in rows :: Coherent(r.account)
    ensures Statement(rows).netIncome == Effect(rows, IsProfitOrLoss) <==> Effect(rows, RevenueTax) == 0
  {
    SectionEffect(rows, RevenueAccount);
    SectionEffect(rows, Cogs);
    SectionEffect(rows, OperatingExpense);
    SectionEffect(rows, OtherIncome);
    SectionEffect(rows, OtherExpense);
    TaxEffect(rows);
    SectionsCoverEarnings(rows);
  }

  lemma {:induction false} SectionsCoverEarnings(rows: seq<BalanceRow>)
    requires forall r | r in rows :: Coherent(r.account)
    ensures Effect(rows, IsProfitOrLoss) == Effect(rows, IsTax) + Effect(rows, SectionOf(RevenueAccount)) + Effect(rows, SectionOf(Cogs))
          + Effect(rows, SectionOf(OperatingExpense)) + Effect(rows, SectionOf(OtherIncome)) + Effect(rows, SectionOf(OtherExpense))
  {
    if rows != [] {
      assert forall r | r in rows[..|rows| - 1] :: r in rows;
      assert rows[|rows| - 1] in rows;
      SectionsCoverEarnings(rows[..|rows| - 1]);
    }
  }

  lemma {:induction false} NoEffectWithout(rows: seq<BalanceRow>, pick: Account -> bool)
    requires forall r | r in rows :: !pick(r.account)
    ensures Effect(rows, pick) == 0
  {
    if rows != [] {
      assert forall r | r in rows[..|rows| - 1] :: r in rows;
      assert rows[|rows| - 1] in rows;
      NoEffectWithout(rows[..|rows| - 1], pick);
    }
  }

  // ---- the figures as ledger balances -----------------------------------------------------------------

  /** A class of accounts' balance in a window of the ledger. */
  ghost function ClassNet(db: Db, w: Window, pick: Account -> bool): Amount {
    Balance(db.entries, (iset a | a in db.accounts && pick(db.accounts[a])), w)
  }

  lemma EffectOfClass(db: Db, w: Window, rows: seq<BalanceRow>, pick: Account -> bool, same: Account -> bool)
    requires JournalOk(db) && IsGrouped(db, w, rows) && forall a: Account :: pick(a) <==> same(a)
    ensures Effect(rows, pick) == -ClassNet(db, w, same)
  {
    EffectIsBalance(db, w, rows, pick);
    var these := iset a | a in db.accounts && same(db.accounts[a]);
    assert AccountsWhere(db, pick) == these;
    assert ClassNet(db, w, same) == Balance(db.entries, these, w);
  }

  // A natural-side total is credits less debits of the credit-natured accounts, and the other way round.
  lemma {:induction false} NaturalSplits(rows: seq<BalanceRow>, pick: Account -> bool, debit: Account -> bool, credit: Account -> bool)
    requires forall a: Account :: debit(a) <==> pick(a) && (a.accountType.Asset? || a.accountType.Expense?)
    requires forall a: Account :: credit(a) <==> pick(a) && !(a.accountType.Asset? || a.accountType.Expense?)
    ensures NaturalTotal(Where(rows, pick)) == Effect(rows, credit) - Effect(rows, debit)
  {
    if rows != [] {
      var front, last := rows[..|rows| - 1], rows[|rows| - 1];
      NaturalSplits(front, pick, debit, credit);
      NaturalSnoc(Where(front, pick), last);
      assert Where(front, pick) + [] == Where(front, pick);
      assert debit(last.account) <==> pick(last.account) && (last.account.accountType.Asset? || last.account.accountType.Expense?);
      assert credit(last.account) <==> pick(last.account) && !(last.account.accountType.Asset? || last.account.accountType.Expense?);
    }
  }

  /** The cash flow's figures are movements of the ledger: profit-and-loss accounts, the other
      accounts by category, the CASH accounts themselves; only the last are left out of the rest. */
  lemma CashFlowFigures(db: Db, w: Window, rows: seq<BalanceRow>)
    requires JournalOk(db) && IsGrouped(db, w, rows)
    ensures Effect(rows, IsCash) == -ClassNet(db, w, (a: Account) => a.role == Some(Cash))
    ensures Effect(rows, NonCashPl)
         == -ClassNet(db, w, (a: Account) => a.role != Some(Cash) && (a.accountType.Revenue? || a.accountType.Expense?))
    ensures Effect(rows, InInvesting) == -ClassNet(db, w,
      (a: Account) => a.role != Some(Cash) && !a.accountType.Revenue? && !a.accountType.Expense? && a.category == Investing)
    ensures Effect(rows, InFinancing) == -ClassNet(db, w,
      (a: Account) => a.role != Some(Cash) && !a.accountType.Revenue? && !a.accountType.Expense? && a.category == Financing)
    ensures Effect(rows, InOperating) == -ClassNet(db, w,
      (a: Account) => a.role != Some(Cash) && !a.accountType.Revenue? && !a.accountType.Expense? && a.category in {Operating, NoCategory})
  {
    hide JournalOk, IsGrouped, Effect, ClassNet;
    EffectOfClass(db, w, rows, IsCash, (a: Account) => a.role == Some(Cash));
    EffectOfClass(db, w, rows, NonCashPl, (a: Account) => a.role != Some(Cash) && (a.accountType.Revenue? || a.accountType.Expense?));
    EffectOfClass(db, w, rows, InInvesting,
      (a: Account) => a.role != Some(Cash) && !a.accountType.Revenue? && !a.accountType.Expense? && a.category == Investing);
    EffectOfClass(db, w, rows, InFinancing,
      (a: Account) => a.role != Some(Cash) && !a.accountType.Revenue? && !a.accountType.Expense? && a.category == Financing);
    EffectOfClass(db, w, rows, InOperating,
      (a: Account) => a.role != Some(Cash) && !a.accountType.Revenue? && !a.accountType.Expense? && a.category in {Operating, NoCategory});
  }

  /** The balance sheet's figures are balances of the ledger by account type. */
  lemma BalanceSheetFigures(db: Db, w: Window, rows: seq<BalanceRow>)
    requires JournalOk(db) && IsGrouped(db, w, rows)
    ensures NaturalTotal(Where(rows, IsAsset)) == ClassNet(db, w, (a: Account) => a.accountType == Asset)
    ensures NaturalTotal(Where(rows, IsLiability)) == -ClassNet(db, w, (a: Account) => a.accountType == Liability)
    ensures NaturalTotal(Where(rows, IsEquity)) == -ClassNet(db, w, (a: Account) => a.accountType == Equity)
    ensures Effect(rows, IsProfitOrLoss) == -ClassNet(db, w, (a: Account) => a.accountType in {Revenue, Expense})
  {
    hide JournalOk, IsGrouped, Effect, ClassNet;
    NaturalOfWhere(rows, IsAsset, true);
    NaturalOfWhere(rows, IsLiability, false);
    NaturalOfWhere(rows, IsEquity, false);
    EffectOfClass(db, w, rows, IsAsset, (a: Account) => a.accountType == Asset);
    EffectOfClass(db, w, rows, IsLiability, (a: Account) => a.accountType == Liability);
    EffectOfClass(db, w, rows, IsEquity, (a: Account) => a.accountType == Equity);
    EffectOfClass(db, w, rows, IsProfitOrLoss, (a: Account) => a.accountType in {Revenue, Expense});
  }

  /** Debits less credits of a class's expense accounts and credits less debits of its revenue accounts. */
  ghost function NaturalNet(db: Db, w: Window, pick: Account -> bool): Amount {
    ClassNet(db, w, (a: Account) => a.accountType == Expense && pick(a)) - ClassNet(db, w, (a: Account) => a.accountType == Revenue && pick(a))
  }

  lemma NaturalOfClass(db: Db, w: Window, rows: seq<BalanceRow>, pick: Account -> bool, same: Account -> bool)
    requires JournalOk(db) && IsGrouped(db, w, rows)
    requires forall a: Account :: pick(a) <==> (a.accountType.Expense? || a.accountType.Revenue?) && same(a)
    ensures NaturalTotal(Where(rows, pick)) == NaturalNet(db, w, same)
  {
    hide JournalOk, IsGrouped, Effect, ClassNet;
    var debit := (a: Account) => a.accountType == Expense && same(a);
    var credit := (a: Account) => a.accountType == Revenue && same(a);
    NaturalSplits(rows, pick, debit, credit);
    EffectOfClass(db, w, rows, debit, debit);
    EffectOfClass(db, w, rows, credit, credit);
  }

  /** The income statement's figures are movements of the ledger by subtype, with whatever carries
      the TAX_EXPENSE role on its own line, and each subtotal is what its line says. */
  lemma IncomeFigures(db: Db, w: Window, rows: seq<BalanceRow>)
    requires JournalOk(db) && IsGrouped(db, w, rows)
    ensures var s := Statement(rows);
      && s.revenue == NaturalNet(db, w, (a: Account) => a.role != Some(TaxExpense) && a.subtype == RevenueAccount)
      && s.cogs == NaturalNet(db, w, (a: Account) => a.role != Some(TaxExpense) && a.subtype == Cogs)
      && s.operatingExpense == NaturalNet(db, w, (a: Account) => a.role != Some(TaxExpense) && a.subtype == OperatingExpense)
      && s.otherIncome == NaturalNet(db, w, (a: Account) => a.role != Some(TaxExpense) && a.subtype == OtherIncome)
      && s.otherExpense == NaturalNet(db, w, (a: Account) => a.role != Some(TaxExpense) && a.subtype == OtherExpense)
      && s.taxExpense == NaturalNet(db, w, (a: Account) => a.role == Some(TaxExpense))
      && s.grossProfit == s.revenue - s.cogs && s.operatingProfit == s.revenue - s.cogs - s.operatingExpense
      && s.profitBeforeTax == s.operatingProfit + s.otherIncome - s.otherExpense && s.netIncome == s.profitBeforeTax - s.taxExpense
  {
    hide JournalOk, IsGrouped, NaturalTotal, Where, NaturalNet;
    NaturalOfClass(db, w, rows, SectionOf(RevenueAccount), (a: Account) => a.role != Some(TaxExpense) && a.subtype == RevenueAccount);
    NaturalOfClass(db, w, rows, SectionOf(Cogs), (a: Account) => a.role != Some(TaxExpense) && a.subtype == Cogs);
    NaturalOfClass(db, w, rows, SectionOf(OperatingExpense), (a: Account) => a.role != Some(TaxExpense) && a.subtype == OperatingExpense);
    NaturalOfClass(db, w, rows, SectionOf(OtherIncome), (a: Account) => a.role != Some(TaxExpense) && a.subtype == OtherIncome);
    NaturalOfClass(db, w, rows, SectionOf(OtherExpense), (a: Account) => a.role != Some(TaxExpense) && a.subtype == OtherExpense);
    NaturalOfClass(db, w, rows, IsTax, (a: Account) => a.role == Some(TaxExpense));
  }

  // ---- over whole runs ---------------------------------------------------------------------------------

  /** No account of the chart is of type REVENUE and holds the TAX_EXPENSE role. */
  predicate TaxIsExpense(accounts: map<Id, Account>) { forall a | a in accounts :: !RevenueTax(accounts[a]) }

  // Rows show the chart's own accounts.
  lemma RowsShowChart(db: Db, w: Window, rows: seq<BalanceRow>)
    requires IsGrouped(db, w, rows) && ChartCoherent(db.accounts)
    ensures forall r | r in rows :: Coherent(r.account)
    ensures TaxIsExpense(db.accounts) ==> forall r | r in rows :: !RevenueTax(r.account)
  {
    forall r | r in rows ensures r.id in db.accounts && r.account == db.accounts[r.id] {
      var i :| 0 <= i < |rows| && rows[i] == r;
      assert RowOk(db, w, rows[i]);
    }
  }

  /** In every reachable ledger, for every period: the net income of the income statement is
      the earnings of the same period (with the fiscal year's start, the balance sheet's
      current-year earnings) if and only if tax-expense accounts of type REVENUE net to zero
      in it; so always, when the chart has no such account. */
  lemma EarningsAgree(states: seq<System>, events: seq<Event>, i: nat, from: Day, to: Day, movements: seq<BalanceRow>)
    requires IsRun(states, events) && i < |states| && IsGrouped(states[i].db, Between(from, to), movements)
    ensures Statement(movements).netIncome == Effect(movements, IsProfitOrLoss) <==> Effect(movements, RevenueTax) == 0
    ensures TaxIsExpense(states[i].db.accounts) ==> Statement(movements).netIncome == Effect(movements, IsProfitOrLoss)
  {
    hide IsGrouped, Statement, IsRun;
    ChartStaysCoherent(states, events, i);
    RowsShowChart(states[i].db, Between(from, to), movements);
    NetIncomeIffEarnings(movements);
    if TaxIsExpense(states[i].db.accounts) { NoEffectWithout(movements, RevenueTax); }
  }

  /** In every reachable ledger, at every date: trial balance totals agree, the balance sheet
      balances, the cash flow reconciles and, in a chart whose TAX_EXPENSE account is an
      expense, the income statement shows the period's earnings. */
  lemma ReportsHold(states: seq<System>, events: seq<Event>, i: nat, from: Day, to: Day,
                    movements: seq<BalanceRow>, before: seq<BalanceRow>, after: seq<BalanceRow>)
    requires IsRun(states, events) && i < |states| && from <= to
    requires var db := states[i].db;
             IsGrouped(db, Between(from, to), movements) && IsGrouped(db, UpTo(from - 1), before) && IsGrouped(db, UpTo(to), after)
    ensures RowsTotal(after, Debit) == RowsTotal(after, Credit)
    ensures NaturalTotal(Where(after, IsAsset))
         == NaturalTotal(Where(after, IsLiability)) + (NaturalTotal(Where(after, IsEquity)) + Effect(after, IsProfitOrLoss))
    ensures -Effect(before, IsCash)
          + (Effect(movements, NonCashPl) + Effect(movements, InOperating) + Effect(movements, InInvesting) + Effect(movements, InFinancing))
         == -Effect(after, IsCash)
    ensures TaxIsExpense(states[i].db.accounts) ==> Statement(movements).netIncome == Effect(movements, IsProfitOrLoss)
  {
    hide IsGrouped, JournalOk, IsRun, Statement;
    RunOk(states, events, i);
    TrialBalanceAgrees(states[i].db, UpTo(to), after);
    BalanceSheetBalances(states[i].db, UpTo(to), after);
    CashFlowReconciles(states[i].db, from, to, movements, before, after);
    EarningsAgree(states, events, i, from, to, movements);
  }
}
