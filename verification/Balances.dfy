/** Grouped balances, trial balance and account balance (src/ledger/balances/balances.service.ts,
src/ledger/balances/signing.ts). */
module Balances {
  import Money
  import opened Ledger
  import opened Sums
  import opened Preparation
  import opened Invariants

  datatype Side = Debit | Credit

  function Amounts(lines: seq<Line>, accounts: iset<Id>, side: Side): Amount {
    if side.Debit? then Debits(lines, accounts) else Credits(lines, accounts)
  }

  ghost function SideFn(entries: map<Id, Entry>, accounts: iset<Id>, w: Window, side: Side): nat -> int {
    (i: nat) => if i in entries && Counts(entries[i], w) then Amounts(entries[i].lines, accounts, side) else 0
  }

  /** SUM(debit) or SUM(credit) over the posted lines of a set of accounts in a window. */
  ghost function SideTotal(entries: map<Id, Entry>, accounts: iset<Id>, w: Window, side: Side): Amount {
    SumOver(entries.Keys, SideFn(entries, accounts, w, side))
  }

  lemma BalanceIsDifference(entries: map<Id, Entry>, accounts: iset<Id>, w: Window)
    ensures Balance(entries, accounts, w) == SideTotal(entries, accounts, w, Debit) - SideTotal(entries, accounts, w, Credit)
  {
    SumAdd(entries.Keys, NetFn(entries, accounts, w), SideFn(entries, accounts, w, Credit), SideFn(entries, accounts, w, Debit));
  }

  // ---- sums over sets of accounts -------------------------------------------------------------

  lemma {:induction false} AmountsUnion(lines: seq<Line>, a: iset<Id>, b: iset<Id>, side: Side)
    requires a !! b
    ensures Amounts(lines, a + b, side) == Amounts(lines, a, side) + Amounts(lines, b, side)
  {
    if lines != [] { AmountsUnion(lines[..|lines| - 1], a, b, side); }
  }

  lemma SideUnion(entries: map<Id, Entry>, a: iset<Id>, b: iset<Id>, w: Window, side: Side)
    requires a !! b
    ensures SideTotal(entries, a + b, w, side) == SideTotal(entries, a, w, side) + SideTotal(entries, b, w, side)
  {
    forall i | i in entries
      ensures SideFn(entries, a + b, w, side)(i) == SideFn(entries, a, w, side)(i) + SideFn(entries, b, w, side)(i)
    {
      AmountsUnion(entries[i].lines, a, b, side);
    }
    SumAdd(entries.Keys, SideFn(entries, a, w, side), SideFn(entries, b, w, side), SideFn(entries, a + b, w, side));
  }

  // Accounts that no counted line mentions do not matter.
  lemma {:induction false} AmountsSame(lines: seq<Line>, a: iset<Id>, b: iset<Id>, side: Side)
    requires forall i | 0 <= i < |lines| :: lines[i].account in a <==> lines[i].account in b
    ensures Amounts(lines, a, side) == Amounts(lines, b, side)
  {
    if lines != [] { AmountsSame(lines[..|lines| - 1], a, b, side); }
  }

  lemma SideSame(entries: map<Id, Entry>, a: iset<Id>, b: iset<Id>, w: Window, side: Side)
    requires forall i, k | i in entries && Counts(entries[i], w) && 0 <= k < |entries[i].lines| ::
      entries[i].lines[k].account in a <==> entries[i].lines[k].account in b
    ensures SideTotal(entries, a, w, side) == SideTotal(entries, b, w, side)
  {
    forall i | i in entries ensures SideFn(entries, a, w, side)(i) == SideFn(entries, b, w, side)(i) {
      if Counts(entries[i], w) { AmountsSame(entries[i].lines, a, b, side); }
    }
    SumCong(entries.Keys, SideFn(entries, a, w, side), SideFn(entries, b, w, side));
  }

  lemma BalanceUnion(entries: map<Id, Entry>, a: iset<Id>, b: iset<Id>, w: Window)
    requires a !! b
    ensures Balance(entries, a + b, w) == Balance(entries, a, w) + Balance(entries, b, w)
  {
    BalanceIsDifference(entries, a, w);
    BalanceIsDifference(entries, b, w);
    BalanceIsDifference(entries, a + b, w);
    SideUnion(entries, a, b, w, Debit);
    SideUnion(entries, a, b, w, Credit);
  }

  /** Debits equal credits over the whole ledger, in any window. */
  lemma LedgerBalances(db: Db, w: Window)
    requires JournalOk(db)
    ensures SideTotal(db.entries, EVERY, w, Debit) == SideTotal(db.entries, EVERY, w, Credit)
    ensures Balance(db.entries, EVERY, w) == 0
  {
    forall i | i in db.entries ensures SideFn(db.entries, EVERY, w, Debit)(i) == SideFn(db.entries, EVERY, w, Credit)(i) {
      assert EntryOk(db, db.entries[i]);
    }
    SumCong(db.entries.Keys, SideFn(db.entries, EVERY, w, Debit), SideFn(db.entries, EVERY, w, Credit));
    BalanceIsDifference(db.entries, EVERY, w);
  }

  // A window up to a day splits at any earlier day.
  lemma WindowSplits(entries: map<Id, Entry>, accounts: iset<Id>, from: Day, to: Day)
    requires from <= to
    ensures Balance(entries, accounts, UpTo(to)) == Balance(entries, accounts, UpTo(from - 1)) + Balance(entries, accounts, Between(from, to))
  {
    SumAdd(entries.Keys, NetFn(entries, accounts, UpTo(from - 1)), NetFn(entries, accounts, Between(from, to)), NetFn(entries, accounts, UpTo(to)));
  }

  // ---- groupedBalances ---------------------------------------------------------------------------

  /** One row of the grouped query: an account with its summed debits and credits. */
  datatype BalanceRow = BalanceRow(id: Id, account: Account, debit: Amount, credit: Amount)

  ghost predicate HasLine(db: Db, w: Window, a: Id) {
    exists i, k :: i in db.entries && Counts(db.entries[i], w) && 0 <= k < |db.entries[i].lines| && db.entries[i].lines[k].account == a
  }

  ghost predicate RowOk(db: Db, w: Window, r: BalanceRow) {
    && r.id in db.accounts && db.accounts[r.id] == r.account
    && r.debit == SideTotal(db.entries, iset{r.id}, w, Debit) && r.credit == SideTotal(db.entries, iset{r.id}, w, Credit)
  }

  ghost predicate Distinct(rows: seq<BalanceRow>) { forall i, j | 0 <= i < j < |rows| :: rows[i].id != rows[j].id }

  /** The result of the query, in any order: the live accounts with a posted line in the window. */
  ghost predicate IsGrouped(db: Db, w: Window, rows: seq<BalanceRow>) {
    && Distinct(rows)
    && (forall i | 0 <= i < |rows| :: RowOk(db, w, rows[i]) && Live(db, rows[i].id))
    && (forall a: Id :: Live(db, a) && HasLine(db, w, a) ==> exists i :: 0 <= i < |rows| && rows[i].id == a)
  }

  ghost function Ids(rows: seq<BalanceRow>): iset<Id> { iset i | 0 <= i < |rows| :: rows[i].id }

  function RowsTotal(rows: seq<BalanceRow>, side: Side): Amount {
    if rows == [] then 0 else
      RowsTotal(rows[..|rows| - 1], side) + (if side.Debit? then rows[|rows| - 1].debit else rows[|rows| - 1].credit)
  }

  // Adding up rows is summing over the set of their accounts.
  lemma {:induction false} RowsAreAccounts(db: Db, w: Window, rows: seq<BalanceRow>, side: Side)
    requires Distinct(rows) && forall i | 0 <= i < |rows| :: RowOk(db, w, rows[i])
    ensures RowsTotal(rows, side) == SideTotal(db.entries, Ids(rows), w, side)
  {
    if rows == [] {
      NoAccountsNoAmount(db.entries, w, side);
      assert Ids(rows) == iset{};
    } else {
      var front, last := rows[..|rows| - 1], rows[|rows| - 1];
      RowsAreAccounts(db, w, front, side);
      SnocIds(rows);
      assert Ids(front) !! iset{last.id};
      SideUnion(db.entries, Ids(front), iset{last.id}, w, side);
    }
  }

  lemma SnocIds(rows: seq<BalanceRow>)
    requires rows != []
    ensures Ids(rows) == Ids(rows[..|rows| - 1]) + iset{rows[|rows| - 1].id}
  {
    var front, last := rows[..|rows| - 1], rows[|rows| - 1];
    forall a: Id ensures a in Ids(rows) <==> a in Ids(front) + iset{last.id} {
      if a in Ids(rows) {
        var i :| 0 <= i < |rows| && rows[i].id == a;
        if i < |front| { assert front[i].id == a; }
      }
      if a in Ids(front) {
        var i :| 0 <= i < |front| && front[i].id == a;
        assert rows[i].id == a;
      }
    }
  }

  lemma NoAccountsNoAmount(entries: map<Id, Entry>, w: Window, side: Side)
    ensures SideTotal(entries, iset{}, w, side) == 0
  {
    forall i | i in entries ensures SideFn(entries, iset{}, w, side)(i) == 0 { NoAccountsInLines(entries[i].lines, side); }
    SumZero(entries.Keys, SideFn(entries, iset{}, w, side));
  }

  lemma {:induction false} NoAccountsInLines(lines: seq<Line>, side: Side)
    ensures Amounts(lines, iset{}, side) == 0
  {
    if lines != [] { NoAccountsInLines(lines[..|lines| - 1], side); }
  }

  // Every counted line is on an account that has a row.
  lemma RowsCoverLedger(db: Db, w: Window, rows: seq<BalanceRow>, accounts: iset<Id>, side: Side)
    requires JournalOk(db) && IsGrouped(db, w, rows)
    ensures SideTotal(db.entries, accounts, w, side) == SideTotal(db.entries, accounts * Ids(rows), w, side)
  {
    forall i, k | i in db.entries && Counts(db.entries[i], w) && 0 <= k < |db.entries[i].lines|
      ensures db.entries[i].lines[k].account in accounts <==> db.entries[i].lines[k].account in accounts * Ids(rows)
    {
      var a := db.entries[i].lines[k].account;
      assert EntryOk(db, db.entries[i]);
      assert HasLine(db, w, a) && Live(db, a);
      var j :| 0 <= j < |rows| && rows[j].id == a;
    }
    SideSame(db.entries, accounts, accounts * Ids(rows), w, side);
  }

  function Where(rows: seq<BalanceRow>, pick: Account -> bool): seq<BalanceRow> {
    if rows == [] then [] else
      Where(rows[..|rows| - 1], pick) + (if pick(rows[|rows| - 1].account) then [rows[|rows| - 1]] else [])
  }

  lemma {:induction false} WhereKeeps(rows: seq<BalanceRow>, pick: Account -> bool, r: BalanceRow)
    ensures r in Where(rows, pick) <==> r in rows && pick(r.account)
  {
    if rows != [] {
      WhereKeeps(rows[..|rows| - 1], pick, r);
      assert rows == rows[..|rows| - 1] + [rows[|rows| - 1]];
    }
  }

  lemma {:induction false} WhereDistinct(rows: seq<BalanceRow>, pick: Account -> bool)
    requires Distinct(rows)
    ensures Distinct(Where(rows, pick))
  {
    if rows != [] {
      var front, last := rows[..|rows| - 1], rows[|rows| - 1];
      var kept := Where(front, pick);
      WhereDistinct(front, pick);
      forall i | 0 <= i < |kept| ensures kept[i].id != last.id {
        WhereKeeps(front, pick, kept[i]);
        var j :| 0 <= j < |front| && front[j] == kept[i];
      }
    }
  }

  /** All accounts the chart classifies this way. */
  ghost function AccountsWhere(db: Db, pick: Account -> bool): iset<Id> { iset a | a in db.accounts && pick(db.accounts[a]) }

  /** The rows of a class of accounts add up to the ledger balance of that class. */
  lemma ClassTotals(db: Db, w: Window, rows: seq<BalanceRow>, pick: Account -> bool, side: Side)
    requires JournalOk(db) && IsGrouped(db, w, rows)
    ensures RowsTotal(Where(rows, pick), side) == SideTotal(db.entries, AccountsWhere(db, pick), w, side)
  {
    var picked := Where(rows, pick);
    WhereDistinct(rows, pick);
    forall i | 0 <= i < |picked| ensures RowOk(db, w, picked[i]) { WhereKeeps(rows, pick, picked[i]); }
    RowsAreAccounts(db, w, picked, side);
    RowsCoverLedger(db, w, rows, AccountsWhere(db, pick), side);
    assert Ids(picked) == AccountsWhere(db, pick) * Ids(rows) by { PickedIds(db, w, rows, pick); }
  }

  lemma PickedIds(db: Db, w: Window, rows: seq<BalanceRow>, pick: Account -> bool)
    requires IsGrouped(db, w, rows)
    ensures Ids(Where(rows, pick)) == AccountsWhere(db, pick) * Ids(rows)
  {
    var picked := Where(rows, pick);
    forall a: Id ensures a in Ids(picked) <==> a in AccountsWhere(db, pick) * Ids(rows) {
      if a in Ids(picked) {
        var i :| 0 <= i < |picked| && picked[i].id == a;
        WhereKeeps(rows, pick, picked[i]);
        var j :| 0 <= j < |rows| && rows[j] == picked[i];
      }
      if a in AccountsWhere(db, pick) * Ids(rows) {
        var j :| 0 <= j < |rows| && rows[j].id == a;
        WhereKeeps(rows, pick, rows[j]);
        var i :| 0 <= i < |picked| && picked[i] == rows[j];
      }
    }
  }

  lemma ClassBalance(db: Db, w: Window, rows: seq<BalanceRow>, pick: Account -> bool)
    requires JournalOk(db) && IsGrouped(db, w, rows)
    ensures RowsTotal(Where(rows, pick), Debit) - RowsTotal(Where(rows, pick), Credit)
         == Balance(db.entries, AccountsWhere(db, pick), w)
  {
    ClassTotals(db, w, rows, pick, Debit);
    ClassTotals(db, w, rows, pick, Credit);
    BalanceIsDifference(db.entries, AccountsWhere(db, pick), w);
  }

  // ---- within 10^16 rupiah ------------------------------------------------------------------------

  /** Sums as the database returns them, each side within 10^16 rupiah. */
  predicate Representable(rows: seq<BalanceRow>) {
    RowsNonNegative(rows) && RowsTotal(rows, Debit) <= Money.LIMIT && RowsTotal(rows, Credit) <= Money.LIMIT
  }

  predicate RowsNonNegative(rows: seq<BalanceRow>) {
    forall i | 0 <= i < |rows| :: 0 <= rows[i].debit && 0 <= rows[i].credit
  }

  lemma {:induction false} PrefixTotals(rows: seq<BalanceRow>, n: nat, side: Side)
    requires n <= |rows| && RowsNonNegative(rows)
    ensures 0 <= RowsTotal(rows[..n], side) <= RowsTotal(rows, side)
  {
    if n == |rows| {
      assert rows[..n] == rows;
      if rows != [] { PrefixTotals(rows[..n - 1], n - 1, side); assert rows[..n - 1][..n - 1] == rows[..n - 1]; }
    } else {
      PrefixTotals(rows[..|rows| - 1], n, side);
      assert rows[..|rows| - 1][..n] == rows[..n];
    }
  }

  lemma PrefixRow(rows: seq<BalanceRow>, i: nat)
    requires i < |rows|
    ensures rows[..i + 1] != [] && rows[..i + 1][|rows[..i + 1]| - 1] == rows[i] && rows[..i + 1][..i] == rows[..i]
  {
  }

  // Every prefix, and every row within it, stays within the limit.
  lemma PrefixWithin(rows: seq<BalanceRow>, i: nat)
    requires Representable(rows) && i < |rows|
    ensures 0 <= rows[i].debit && 0 <= rows[i].credit
    ensures 0 <= RowsTotal(rows[..i], Debit) && 0 <= RowsTotal(rows[..i], Credit)
    ensures RowsTotal(rows[..i], Debit) + rows[i].debit <= RowsTotal(rows, Debit) <= Money.LIMIT
    ensures RowsTotal(rows[..i], Credit) + rows[i].credit <= RowsTotal(rows, Credit) <= Money.LIMIT
  {
    PrefixRow(rows, i);
    PrefixTotals(rows, i, Debit);
    PrefixTotals(rows, i, Credit);
    PrefixTotals(rows, i + 1, Debit);
    PrefixTotals(rows, i + 1, Credit);
  }

  lemma SidesAddExactly(rows: seq<BalanceRow>, i: nat)
    requires Representable(rows) && i < |rows|
    ensures Money.Add(RowsTotal(rows[..i], Debit), rows[i].debit) == RowsTotal(rows[..i + 1], Debit)
    ensures Money.Add(RowsTotal(rows[..i], Credit), rows[i].credit) == RowsTotal(rows[..i + 1], Credit)
    ensures Money.Subtract(rows[i].debit, rows[i].credit) == rows[i].debit - rows[i].credit
    ensures Money.Subtract(rows[i].credit, rows[i].debit) == rows[i].credit - rows[i].debit
  {
    hide Money.Sig20, Representable;
    PrefixRow(rows, i);
    PrefixWithin(rows, i);
    Money.AddExactIff(RowsTotal(rows[..i], Debit), rows[i].debit);
    Money.AddExactIff(RowsTotal(rows[..i], Credit), rows[i].credit);
    Money.AddExactIff(rows[i].debit, -rows[i].credit);
    Money.AddExactIff(rows[i].credit, -rows[i].debit);
  }

  // ---- signing -----------------------------------------------------------------------------------

  /** signedNet: positive on the account's normal side. */
  function SignedNet(debitNormal: bool, debit: Amount, credit: Amount): Amount {
    if debitNormal then debit - credit else credit - debit
  }

  /** naturalSide: positive on the natural side of the account's type. */
  function NaturalSide(t: AccountType, debit: Amount, credit: Amount): Amount {
    if t.Asset? || t.Expense? then debit - credit else credit - debit
  }

  // ---- trial balance -----------------------------------------------------------------------------

  datatype TrialBalance = TrialBalance(rows: seq<(Id, Amount, Amount, Amount)>, totalDebit: Amount, totalCredit: Amount)

  /** A row of the trial balance. */
  function Listed(r: BalanceRow): (Id, Amount, Amount, Amount) {
    (r.id, r.debit, r.credit, SignedNet(r.account.debitNormal, r.debit, r.credit))
  }

  predicate Moved(r: BalanceRow) { r.debit != 0 || r.credit != 0 }

  function ListedRows(rows: seq<BalanceRow>): seq<(Id, Amount, Amount, Amount)> {
    if rows == [] then [] else
      ListedRows(rows[..|rows| - 1]) + (if Moved(rows[|rows| - 1]) then [Listed(rows[|rows| - 1])] else [])
  }

  /** trialBalance in decimal arithmetic: while each side stays within 10^16 rupiah, the exact
      totals of all rows and the rows that moved, in order. */
  method MakeTrialBalance(rows: seq<BalanceRow>) returns (t: TrialBalance)
    ensures Representable(rows) ==>
      t == TrialBalance(ListedRows(rows), RowsTotal(rows, Debit), RowsTotal(rows, Credit))
  {
    hide Money.Add, Money.Subtract, Representable;
    var debit, credit := 0, 0;
    var out: seq<(Id, Amount, Amount, Amount)> := [];
    for i := 0 to |rows|
      invariant Representable(rows) ==> debit == RowsTotal(rows[..i], Debit) && credit == RowsTotal(rows[..i], Credit)
      invariant Representable(rows) ==> out == ListedRows(rows[..i])
    {
      var r := rows[i];
      assert rows[..i + 1][..i] == rows[..i];
      if Representable(rows) { SidesAddExactly(rows, i); }
      if r.debit == 0 && r.credit == 0 { continue; }
      debit, credit := Money.Add(debit, r.debit), Money.Add(credit, r.credit);
      var net := if r.account.debitNormal then Money.Subtract(r.debit, r.credit) else Money.Subtract(r.credit, r.debit);
      out := out + [(r.id, r.debit, r.credit, net)];
    }
    assert rows[..|rows|] == rows;
    t := TrialBalance(out, debit, credit);
  }

  /** The trial balance of every ledger in order balances, at every date. */
  lemma TrialBalanceAgrees(db: Db, w: Window, rows: seq<BalanceRow>)
    requires JournalOk(db) && IsGrouped(db, w, rows)
    ensures RowsTotal(rows, Debit) == RowsTotal(rows, Credit)
  {
    RowsAreAccounts(db, w, rows, Debit);
    RowsAreAccounts(db, w, rows, Credit);
    RowsCoverLedger(db, w, rows, EVERY, Debit);
    RowsCoverLedger(db, w, rows, EVERY, Credit);
    assert EVERY * Ids(rows) == Ids(rows);
    LedgerBalances(db, w);
  }

  lemma {:induction false} ListedFrom(rows: seq<BalanceRow>, t: (Id, Amount, Amount, Amount))
    ensures t in ListedRows(rows) <==> exists i :: 0 <= i < |rows| && (rows[i].debit != 0 || rows[i].credit != 0) && t == Listed(rows[i])
  {
    if rows != [] {
      var front, last := rows[..|rows| - 1], rows[|rows| - 1];
      ListedFrom(front, t);
      if i :| 0 <= i < |rows| && (rows[i].debit != 0 || rows[i].credit != 0) && t == Listed(rows[i]) {
        if i < |front| { assert front[i] == rows[i]; }
      }
      if i :| 0 <= i < |front| && (front[i].debit != 0 || front[i].credit != 0) && t == Listed(front[i]) {
        assert rows[i] == front[i];
      }
    }
  }

  // An account without a posted line in the window has no amounts there.
  lemma NoLineNoAmount(db: Db, w: Window, a: Id, side: Side)
    ensures SideTotal(db.entries, iset{a}, w, side) != 0 ==> HasLine(db, w, a)
  {
    if !HasLine(db, w, a) {
      SideSame(db.entries, iset{a}, iset{}, w, side);
      NoAccountsNoAmount(db.entries, w, side);
    }
  }

  /** The account's debits, its credits and, signed to be positive on its normal side, its balance. */
  ghost predicate Shows(db: Db, w: Window, t: (Id, Amount, Amount, Amount)) {
    && t.0 in db.accounts && !db.accounts[t.0].deleted && (t.1 != 0 || t.2 != 0)
    && t.1 == SideTotal(db.entries, iset{t.0}, w, Debit) && t.2 == SideTotal(db.entries, iset{t.0}, w, Credit)
    && t.3 == if db.accounts[t.0].debitNormal then Balance(db.entries, iset{t.0}, w) else -Balance(db.entries, iset{t.0}, w)
  }

  lemma RowShows(db: Db, w: Window, r: BalanceRow)
    requires RowOk(db, w, r) && Live(db, r.id) && (r.debit != 0 || r.credit != 0)
    ensures Shows(db, w, Listed(r))
  {
    BalanceIsDifference(db.entries, iset{r.id}, w);
  }

  lemma ShownHasRow(db: Db, w: Window, rows: seq<BalanceRow>, t: (Id, Amount, Amount, Amount))
    requires IsGrouped(db, w, rows) && Shows(db, w, t)
    ensures exists i :: 0 <= i < |rows| && (rows[i].debit != 0 || rows[i].credit != 0) && t == Listed(rows[i])
  {
    hide SideTotal, Balance;
    NoLineNoAmount(db, w, t.0, Debit);
    NoLineNoAmount(db, w, t.0, Credit);
    BalanceIsDifference(db.entries, iset{t.0}, w);
    var i :| 0 <= i < |rows| && rows[i].id == t.0;
    assert RowOk(db, w, rows[i]);
  }

  /** The trial balance lists exactly the live accounts with amounts in the window, each with its
      ledger balance on its normal side. */
  lemma TrialBalanceShows(db: Db, w: Window, rows: seq<BalanceRow>, t: (Id, Amount, Amount, Amount))
    requires IsGrouped(db, w, rows)
    ensures t in ListedRows(rows) <==> Shows(db, w, t)
  {
    hide RowOk, Shows, Listed, HasLine, ListedRows;
    ListedFrom(rows, t);
    if Shows(db, w, t) { ShownHasRow(db, w, rows, t); }
    if i :| 0 <= i < |rows| && (rows[i].debit != 0 || rows[i].credit != 0) && t == Listed(rows[i]) { RowShows(db, w, rows[i]); }
  }

  /** And lists none of them twice. */
  lemma {:induction false} ListedOnce(rows: seq<BalanceRow>)
    requires Distinct(rows)
    ensures forall i, j | 0 <= i < j < |ListedRows(rows)| :: ListedRows(rows)[i].0 != ListedRows(rows)[j].0
  {
    if rows != [] {
      var front, last := rows[..|rows| - 1], rows[|rows| - 1];
      ListedOnce(front);
      forall i | 0 <= i < |ListedRows(front)| ensures ListedRows(front)[i].0 != last.id {
        ListedFrom(front, ListedRows(front)[i]);
      }
    }
  }
}
