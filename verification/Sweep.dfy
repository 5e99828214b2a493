/** The closing entry of a fiscal year (src/close/year-end-close.service.ts): every revenue and
expense account swept to zero, the difference taken to retained earnings. */
module Sweep {
  import opened Options
  import opened Ledger
  import opened Invariants
  import opened Balances
  import opened Reports
  import AssertBalanced
  import Money

  function Position(r: BalanceRow): Amount { r.debit - r.credit }

  /** Debits minus credits of the rows on a set of accounts. */
  function RowsNet(rows: seq<BalanceRow>, accounts: iset<Id>): Amount {
    if rows == [] then 0 else
      RowsNet(rows[..|rows| - 1], accounts) +
      (if rows[|rows| - 1].id in accounts then Position(rows[|rows| - 1]) else 0)
  }

  /** A line that brings an account with this position to zero. */
  function Offset(account: Id, position: Amount): Line {
    if position < 0 then Line(account, -position, 0) else Line(account, 0, position)
  }

  function SweepLines(rows: seq<BalanceRow>): seq<Line> {
    if rows == [] then [] else
      var last := rows[|rows| - 1];
      SweepLines(rows[..|rows| - 1]) + (if Position(last) == 0 then [] else [Offset(last.id, Position(last))])
  }

  datatype Outcome = NothingToClose | RetainedMissing | Swept(lines: seq<Line>, netIncome: Amount)

  function TotalPosition(rows: seq<BalanceRow>): Amount { RowsTotal(rows, Debit) - RowsTotal(rows, Credit) }

  /** The entry for these revenue and expense rows, with exact arithmetic. */
  function ClosingEntry(rows: seq<BalanceRow>, retained: Option<Id>): Outcome {
    var lines, net := SweepLines(rows), TotalPosition(rows);
    if lines == [] then NothingToClose
    else if net == 0 then Swept(lines, 0)
    else if retained.None? then RetainedMissing
    else Swept(lines + [Offset(retained.value, -net)], -net)
  }

  /** Sums as the database returns them, each side below 10^16 rupiah. */
  predicate RowsInRange(rows: seq<BalanceRow>) {
    && RowsNonNegative(rows)
    && RowsTotal(rows, Debit) < Money.LIMIT && RowsTotal(rows, Credit) < Money.LIMIT
  }

  // ---- the loop -------------------------------------------------------------------------------

  lemma NegateExact(a: Amount)
    requires -Money.LIMIT < a < Money.LIMIT
    ensures Money.Multiply(a, -1_000_000) == -a
  {
    hide Money.Sig20, Money.DivHalfUp;
    assert a * -1_000_000 == -a * 1_000_000;
    Money.FourDecimalsExact(-a);
    Money.DivMultiple(-a, 1_000_000);
  }

  /** The rounded arithmetic of one turn of the loop is exact. */
  lemma TurnIsExact(rows: seq<BalanceRow>, i: nat)
    requires RowsInRange(rows) && i < |rows|
    ensures Money.Subtract(rows[i].debit, rows[i].credit) == Position(rows[i])
    ensures Money.Subtract(-TotalPosition(rows[..i]), Position(rows[i])) == -TotalPosition(rows[..i + 1])
    ensures Money.Multiply(Position(rows[i]), -1_000_000) == -Position(rows[i])
  {
    hide Money.Sig20, Money.SigUnit, Money.Multiply, Money.DivHalfUp;
    PrefixRow(rows, i);
    PrefixTotals(rows, i, Debit);
    PrefixTotals(rows, i, Credit);
    PrefixTotals(rows, i + 1, Debit);
    PrefixTotals(rows, i + 1, Credit);
    Money.AddExactIff(rows[i].debit, -rows[i].credit);
    Money.AddExactIff(-TotalPosition(rows[..i]), -Position(rows[i]));
    NegateExact(Position(rows[i]));
  }

  lemma ResultIsExact(rows: seq<BalanceRow>)
    requires RowsInRange(rows)
    ensures Money.Multiply(-TotalPosition(rows), -1_000_000) == TotalPosition(rows)
  {
    hide Money.Multiply;
    PrefixTotals(rows, 0, Debit);
    PrefixTotals(rows, 0, Credit);
    NegateExact(-TotalPosition(rows));
  }

  /** close, up to the posting of its entry: `movements` are the year's movements, `retained`
      the account found with the RETAINED_EARNINGS role. */
  method BuildClosing(movements: seq<BalanceRow>, retained: Option<Id>) returns (r: Outcome)
    ensures var rows := Where(movements, IsProfitOrLoss); RowsInRange(rows) ==> r == ClosingEntry(rows, retained)
    ensures var rows := Where(movements, IsProfitOrLoss); RowsInRange(rows) ==>
      && (r.NothingToClose? <==> forall i | 0 <= i < |rows| :: rows[i].debit == rows[i].credit)
      && (r.RetainedMissing? <==> !r.NothingToClose? && RowsTotal(rows, Debit) != RowsTotal(rows, Credit) && retained.None?)
  {
    hide Money.Sig20, Money.SigUnit, Money.Multiply, Money.DivHalfUp, Money.Subtract, RowsInRange;
    var rows := Where(movements, IsProfitOrLoss);
    ClosingDecides(rows, retained);
    var lines: seq<Line>, netIncome := [], 0;
    for i := 0 to |rows|
      invariant RowsInRange(rows) ==> lines == SweepLines(rows[..i]) && netIncome == -TotalPosition(rows[..i])
    {
      PrefixRow(rows, i);
      if RowsInRange(rows) { TurnIsExact(rows, i); }
      var position := Money.Subtract(rows[i].debit, rows[i].credit);
      if position == 0 { continue; }
      netIncome := Money.Subtract(netIncome, position);
      if position < 0 {
        lines := lines + [Line(rows[i].id, Money.Multiply(position, -1_000_000), 0)];
      } else {
        lines := lines + [Line(rows[i].id, 0, position)];
      }
    }
    assert rows[..|rows|] == rows;
    if lines == [] { return NothingToClose; }
    if netIncome != 0 {
      if retained.None? { return RetainedMissing; }
      if RowsInRange(rows) { ResultIsExact(rows); }
      if netIncome < 0 {
        lines := lines + [Line(retained.value, Money.Multiply(netIncome, -1_000_000), 0)];
      } else {
        lines := lines + [Line(retained.value, 0, netIncome)];
      }
    }
    return Swept(lines, netIncome);
  }

  lemma {:induction false} NothingSwept(rows: seq<BalanceRow>)
    ensures SweepLines(rows) == [] <==> forall i | 0 <= i < |rows| :: rows[i].debit == rows[i].credit
  {
    if rows != [] {
      var front, last := rows[..|rows| - 1], rows[|rows| - 1];
      NothingSwept(front);
      assert forall i | 0 <= i < |front| :: front[i] == rows[i];
      if SweepLines(rows) == [] {
        assert last.debit == last.credit;
        forall i | 0 <= i < |rows| ensures rows[i].debit == rows[i].credit { assert i < |front| ==> rows[i] == front[i]; }
      }
    }
  }

  /** When there is an entry: none if every revenue and expense row nets to zero; otherwise always,
      unless the sides differ in total and there is no account to take the difference. */
  lemma ClosingDecides(rows: seq<BalanceRow>, retained: Option<Id>)
    ensures ClosingEntry(rows, retained).NothingToClose? <==> forall i | 0 <= i < |rows| :: rows[i].debit == rows[i].credit
    ensures ClosingEntry(rows, retained).RetainedMissing?
       <==> (exists i :: 0 <= i < |rows| && rows[i].debit != rows[i].credit)
            && RowsTotal(rows, Debit) != RowsTotal(rows, Credit) && retained.None?
    ensures ClosingEntry(rows, retained).Swept? ==>
              ClosingEntry(rows, retained).netIncome == RowsTotal(rows, Credit) - RowsTotal(rows, Debit)
  {
    NothingSwept(rows);
  }

  /** The entry's lines are on the swept accounts and on retained earnings. */
  lemma {:induction false} SweepAccounts(rows: seq<BalanceRow>)
    ensures forall i | 0 <= i < |SweepLines(rows)| :: HasRow(rows, SweepLines(rows)[i].account)
  {
    if rows != [] {
      var front, last, lines := rows[..|rows| - 1], rows[|rows| - 1], SweepLines(rows);
      SweepAccounts(front);
      forall i | 0 <= i < |lines| ensures HasRow(rows, lines[i].account) {
        if i < |SweepLines(front)| {
          assert lines[i] == SweepLines(front)[i];
          var k :| 0 <= k < |front| && front[k].id == lines[i].account;
          assert rows[k] == front[k];
        } else {
          assert rows[|rows| - 1].id == lines[i].account;
        }
      }
    }
  }

  predicate HasRow(rows: seq<BalanceRow>, a: Id) { exists k :: 0 <= k < |rows| && rows[k].id == a }

  // ---- what the entry amounts to -----------------------------------------------------------------

  lemma {:induction false} SweepNets(rows: seq<BalanceRow>, accounts: iset<Id>)
    ensures Net(SweepLines(rows), accounts) == -RowsNet(rows, accounts)
    ensures forall i | 0 <= i < |SweepLines(rows)| :: OneSided(SweepLines(rows)[i])
  {
    if rows != [] {
      var last := rows[|rows| - 1];
      SweepNets(rows[..|rows| - 1], accounts);
      SnocNet(SweepLines(rows[..|rows| - 1]), Offset(last.id, Position(last)), accounts);
      assert SweepLines(rows[..|rows| - 1]) + [] == SweepLines(rows[..|rows| - 1]);
    }
  }

  lemma SnocNet(lines: seq<Line>, l: Line, accounts: iset<Id>)
    ensures Debits(lines + [l], accounts) == Debits(lines, accounts) + (if l.account in accounts then l.debit else 0)
    ensures Credits(lines + [l], accounts) == Credits(lines, accounts) + (if l.account in accounts then l.credit else 0)
  {
    assert (lines + [l])[..|lines|] == lines;
  }

  lemma {:induction false} SweepSides(rows: seq<BalanceRow>)
    requires RowsNonNegative(rows)
    ensures Debits(SweepLines(rows), EVERY) <= RowsTotal(rows, Credit)
    ensures Credits(SweepLines(rows), EVERY) <= RowsTotal(rows, Debit)
  {
    if rows != [] {
      var last := rows[|rows| - 1];
      SweepSides(rows[..|rows| - 1]);
      SnocNet(SweepLines(rows[..|rows| - 1]), Offset(last.id, Position(last)), EVERY);
      assert SweepLines(rows[..|rows| - 1]) + [] == SweepLines(rows[..|rows| - 1]);
    }
  }

  lemma {:induction false} WholeNet(rows: seq<BalanceRow>)
    ensures RowsNet(rows, EVERY) == TotalPosition(rows)
  {
    if rows != [] { WholeNet(rows[..|rows| - 1]); }
  }

  function Retained(retained: Option<Id>, accounts: iset<Id>, n: Amount): Amount {
    if retained.Some? && retained.value in accounts then n else 0
  }

  /** The closing entry is balanced, in years of profit, loss and neither; on every set of
      accounts it takes away what the year moved there, and it moves the year's result to
      retained earnings. */
  lemma ClosingNets(rows: seq<BalanceRow>, retained: Option<Id>, accounts: iset<Id>)
    requires ClosingEntry(rows, retained).Swept?
    ensures Net(ClosingEntry(rows, retained).lines, accounts) == Retained(retained, accounts, TotalPosition(rows)) - RowsNet(rows, accounts)
    ensures Balanced(ClosingEntry(rows, retained).lines)
  {
    hide SweepLines, RowsNet, TotalPosition, Debits, Credits;
    var lines, net := SweepLines(rows), TotalPosition(rows);
    SweepNets(rows, accounts);
    SweepNets(rows, EVERY);
    WholeNet(rows);
    if net != 0 {
      SnocNet(lines, Offset(retained.value, -net), accounts);
      SnocNet(lines, Offset(retained.value, -net), EVERY);
    } else {
      ZeroNeedsTwo(lines);
    }
  }

  lemma ZeroNeedsTwo(lines: seq<Line>)
    requires lines != [] && forall i | 0 <= i < |lines| :: OneSided(lines[i])
    requires Net(lines, EVERY) == 0
    ensures 2 <= |lines|
  {
    assert Debits([], EVERY) == Credits([], EVERY) == 0;
    assert lines[..0] == [];
  }

  /** assertBalanced accepts every closing entry. */
  lemma ClosingAccepted(rows: seq<BalanceRow>, retained: Option<Id>)
    requires RowsInRange(rows) && ClosingEntry(rows, retained).Swept?
    ensures AssertBalanced.Accepts(ClosingEntry(rows, retained).lines) && AssertBalanced.InRange(ClosingEntry(rows, retained).lines)
  {
    var lines, net := SweepLines(rows), TotalPosition(rows);
    ClosingNets(rows, retained, EVERY);
    SweepSides(rows);
    if net != 0 { SnocNet(lines, Offset(retained.value, -net), EVERY); }
    AssertBalanced.AcceptsIffBalanced(ClosingEntry(rows, retained).lines);
  }

  // ---- rows and ledger -----------------------------------------------------------------------------

  lemma {:induction false} RowsNetIsBalance(db: Db, w: Window, rows: seq<BalanceRow>, accounts: iset<Id>)
    requires Distinct(rows) && forall i | 0 <= i < |rows| :: RowOk(db, w, rows[i])
    ensures RowsNet(rows, accounts) == Balance(db.entries, accounts * Ids(rows), w)
  {
    if rows == [] {
      assert accounts * Ids(rows) == iset{};
      NoAccountsNoAmount(db.entries, w, Debit);
      NoAccountsNoAmount(db.entries, w, Credit);
      BalanceIsDifference(db.entries, iset{}, w);
    } else {
      var front, last := rows[..|rows| - 1], rows[|rows| - 1];
      RowsNetIsBalance(db, w, front, accounts);
      SnocIds(rows);
      if last.id in accounts {
        assert accounts * Ids(rows) == accounts * Ids(front) + iset{last.id};
        assert accounts * Ids(front) !! iset{last.id};
        BalanceUnion(db.entries, accounts * Ids(front), iset{last.id}, w);
        BalanceIsDifference(db.entries, iset{last.id}, w);
      } else {
        assert accounts * Ids(rows) == accounts * Ids(front);
      }
    }
  }

  /** The revenue and expense accounts of the chart. */
  ghost function ProfitAndLoss(db: Db): iset<Id> { AccountsWhere(db, IsProfitOrLoss) }

  /** The swept rows carry exactly the year's movements on revenue and expense accounts. */
  lemma PlRowsAreMovements(db: Db, w: Window, movements: seq<BalanceRow>, accounts: iset<Id>)
    requires JournalOk(db) && IsGrouped(db, w, movements)
    ensures RowsNet(Where(movements, IsProfitOrLoss), accounts) == Balance(db.entries, accounts * ProfitAndLoss(db), w)
  {
    var rows, pl := Where(movements, IsProfitOrLoss), ProfitAndLoss(db);
    WhereDistinct(movements, IsProfitOrLoss);
    forall i | 0 <= i < |rows| ensures RowOk(db, w, rows[i]) { WhereKeeps(movements, IsProfitOrLoss, rows[i]); }
    RowsNetIsBalance(db, w, rows, accounts);
    PickedIds(db, w, movements, IsProfitOrLoss);
    assert accounts * Ids(rows) == accounts * pl * Ids(movements);
    RowsCoverLedger(db, w, movements, accounts * pl, Debit);
    RowsCoverLedger(db, w, movements, accounts * pl, Credit);
    BalanceIsDifference(db.entries, accounts * pl, w);
    BalanceIsDifference(db.entries, accounts * pl * Ids(movements), w);
  }
}
