/** Closing several years in any order, and reopening them again. */
module ClosingOrder {
  import opened Options
  import opened Ledger
  import opened Operations
  import opened Preparation
  import opened Invariants
  import opened Protocol
  import opened Sweep
  import opened YearEndClose
  import Balances
  import Preservation
  import C = ControlAccounts

  // ---- any order ------------------------------------------------------------------------------

  /** What closing all these years moves, each judged in the database before any of them. */
  ghost function TotalMove(db: Db, years: seq<int>, accounts: iset<Id>, w: Window): Amount {
    if years == [] then 0 else
      var y := years[|years| - 1];
      TotalMove(db, years[..|years| - 1], accounts, w) + C.At(w, YearLast(db.config, y), ClosingMove(db, y, accounts))
  }

  ghost predicate DistinctPlain(c: Config, years: seq<int>) {
    && (forall i | 0 <= i < |years| :: Plain(c, years[i]))
    && (forall i, j | 0 <= i < j < |years| :: years[i] != years[j])
  }

  /** Closes of these years, one after another. */
  ghost predicate ClosesAll(states: seq<Db>, years: seq<int>) {
    && |states| == |years| + 1 && LedgerOk(states[0]) && DistinctPlain(states[0].config, years)
    && forall i | 0 <= i < |years| :: Closes(states[i], years[i], states[i + 1])
  }

  lemma ClosesPrefix(states: seq<Db>, years: seq<int>)
    requires ClosesAll(states, years) && years != []
    ensures ClosesAll(states[..|years|], years[..|years| - 1])
    ensures Closes(states[|years| - 1], years[|years| - 1], states[|years|])
    ensures DistinctPlain(states[0].config, years[..|years| - 1])
  {
    hide Closes, LedgerOk, Plain;
    assert states[..|years|][0] == states[0];
    forall i | 0 <= i < |years| - 1 ensures Closes(states[..|years|][i], years[..|years| - 1][i], states[..|years|][i + 1]) {
      assert Closes(states[i], years[i], states[i + 1]);
    }
  }

  lemma {:induction false} ClosesKeepLedger(states: seq<Db>, years: seq<int>)
    requires ClosesAll(states, years)
    ensures var last := states[|years|]; LedgerOk(last) && last.config == states[0].config && last.accounts == states[0].accounts
    decreases |years|
  {
    hide Closes, LedgerOk, DistinctPlain;
    if years != [] {
      ClosesPrefix(states, years);
      ClosesKeepLedger(states[..|years|], years[..|years| - 1]);
      CloseKeepsLedger(states[|years| - 1], years[|years| - 1], states[|years|]);
    }
  }

  lemma {:induction false} MoveOutside(db: Db, years: seq<int>, z: int, accounts: iset<Id>)
    requires DistinctPlain(db.config, years) && Plain(db.config, z) && z !in years
    ensures TotalMove(db, years, accounts, Year(db.config, z)) == 0
  {
    hide Plain, ClosingMove, Year, YearLast;
    if years != [] {
      assert years[|years| - 1] != z && Plain(db.config, years[|years| - 1]);
      MoveOutside(db, years[..|years| - 1], z, accounts);
      EndOutside(db.config, years[|years| - 1], z);
    }
  }

  /** After any sequence of closes every balance has moved by the sum of what each year alone
      would have moved. */
  lemma {:induction false} ClosesMove(states: seq<Db>, years: seq<int>, accounts: iset<Id>, w: Window)
    requires ClosesAll(states, years)
    ensures Balance(states[|years|].entries, accounts, w)
         == Balance(states[0].entries, accounts, w) + TotalMove(states[0], years, accounts, w)
    decreases |years|
  {
    hide Closes, LedgerOk, DistinctPlain, Balance, YearLast;
    if years != [] {
      var front, y, a := years[..|years| - 1], years[|years| - 1], states[|years| - 1];
      ClosesPrefix(states, years);
      ClosesMove(states[..|years|], front, accounts, w);
      ClosesKeepLedger(states[..|years|], front);
      EarnedUnmoved(states, years, accounts);
      EarnedUnmoved(states, years, EVERY);
      CloseMoves(a, y, states[|years|], accounts, w);
    }
  }

  lemma LastIsNew(c: Config, years: seq<int>)
    requires years != [] && DistinctPlain(c, years)
    ensures Plain(c, years[|years| - 1]) && years[|years| - 1] !in years[..|years| - 1]
  {
  }

  // The closes before the last leave the last year's earnings alone.
  lemma {:induction false} EarnedUnmoved(states: seq<Db>, years: seq<int>, accounts: iset<Id>)
    requires ClosesAll(states, years) && years != []
    ensures Earned(states[|years| - 1], years[|years| - 1], accounts) == Earned(states[0], years[|years| - 1], accounts)
    decreases |years|, 0
  {
    hide Closes, LedgerOk, Balance, Year, Plain;
    var front, y := years[..|years| - 1], years[|years| - 1];
    var pl := accounts * ProfitAndLoss(states[0]);
    ClosesPrefix(states, years);
    ClosesKeepLedger(states[..|years|], front);
    SamePl(states[0], states[|years| - 1]);
    LastIsNew(states[0].config, years);
    ClosesMove(states[..|years|], front, pl, Year(states[0].config, y));
    MoveOutside(states[0], front, y, pl);
  }

  function Without<T>(s: seq<T>, i: nat): seq<T>
    requires i < |s|
  {
    s[..i] + s[i + 1..]
  }

  lemma {:induction false} MoveOfAnyYear(db: Db, years: seq<int>, i: nat, accounts: iset<Id>, w: Window)
    requires i < |years|
    ensures TotalMove(db, years, accounts, w)
         == TotalMove(db, Without(years, i), accounts, w) + C.At(w, YearLast(db.config, years[i]), ClosingMove(db, years[i], accounts))
    decreases |years|
  {
    hide YearLast, ClosingMove;
    var n := |years| - 1;
    if i == n {
      assert Without(years, i) == years[..n];
    } else {
      MoveOfAnyYear(db, years[..n], i, accounts, w);
      assert Without(years, i)[..n - 1] == Without(years[..n], i);
      assert Without(years, i)[n - 1] == years[n];
    }
  }

  lemma DropFromBoth(ys: seq<int>, zs: seq<int>) returns (i: nat)
    requires multiset(ys) == multiset(zs) && ys != []
    ensures i < |zs| && zs[i] == ys[|ys| - 1] && multiset(ys[..|ys| - 1]) == multiset(Without(zs, i))
  {
    var n, y := |ys| - 1, ys[|ys| - 1];
    assert ys == ys[..n] + [y];
    assert y in multiset(zs);
    i :| 0 <= i < |zs| && zs[i] == y;
    assert zs == zs[..i] + [y] + zs[i + 1..];
    assert multiset(zs) == multiset(Without(zs, i)) + multiset{y};
    assert multiset(ys) == multiset(ys[..n]) + multiset{y};
    assert multiset(ys[..n]) == multiset(ys) - multiset{y};
    assert multiset(Without(zs, i)) == multiset(zs) - multiset{y};
  }

  lemma {:induction false} MovePermutes(db: Db, ys: seq<int>, zs: seq<int>, accounts: iset<Id>, w: Window)
    requires multiset(ys) == multiset(zs)
    ensures TotalMove(db, ys, accounts, w) == TotalMove(db, zs, accounts, w)
    decreases |ys|
  {
    hide YearLast, ClosingMove, Without, C.At;
    if ys == [] {
      assert |zs| == |multiset(zs)| == 0;
    } else {
      var i := DropFromBoth(ys, zs);
      MovePermutes(db, ys[..|ys| - 1], Without(zs, i), accounts, w);
      MoveOfAnyYear(db, zs, i, accounts, w);
    }
  }

  /** Closing the same years in two different orders gives every account the same balance at
      every date. */
  lemma CloseOrderIrrelevant(states: seq<Db>, ys: seq<int>, others: seq<Db>, zs: seq<int>, accounts: iset<Id>, w: Window)
    requires ClosesAll(states, ys) && ClosesAll(others, zs) && states[0] == others[0] && multiset(ys) == multiset(zs)
    ensures Balance(states[|ys|].entries, accounts, w) == Balance(others[|zs|].entries, accounts, w)
  {
    hide Closes, DistinctPlain, LedgerOk, Balance, TotalMove;
    ClosesMove(states, ys, accounts, w);
    ClosesMove(others, zs, accounts, w);
    MovePermutes(states[0], ys, zs, accounts, w);
  }

  /** Sum of each year's own net income. */
  ghost function TotalIncome(db: Db, years: seq<int>): Amount {
    if years == [] then 0 else TotalIncome(db, years[..|years| - 1]) + NetIncome(db, years[|years| - 1])
  }

  lemma {:induction false} RetainedMove(db: Db, years: seq<int>)
    requires ChartOk(db)
    ensures TotalMove(db, years, iset{db.config.retained}, Always) == -TotalIncome(db, years)
  {
    hide YearLast, Balance;
    if years != [] {
      RetainedMove(db, years[..|years| - 1]);
      RetainedEarnsNothing(db, years[|years| - 1]);
    }
  }

  lemma RetainedEarnsNothing(db: Db, y: int)
    requires ChartOk(db)
    ensures Earned(db, y, iset{db.config.retained}) == 0
  {
    var w := Year(db.config, y);
    assert iset{db.config.retained} * ProfitAndLoss(db) == iset{};
    NothingOnNoAccounts(db.entries, w);
  }

  lemma NothingOnNoAccounts(entries: map<Id, Entry>, w: Window)
    ensures Balance(entries, iset{}, w) == 0
  {
    hide Balance;
    var none: iset<Id> := iset{};
    Balances.BalanceUnion(entries, none, none, w);
    assert none + none == none;
  }

  /** Retained earnings rise, on the credit side, by the sum of each year's own net income. */
  lemma RetainedRises(states: seq<Db>, years: seq<int>)
    requires ClosesAll(states, years) && ChartOk(states[0])
    ensures var retained := iset{states[0].config.retained};
            -Balance(states[|years|].entries, retained, Always)
            == -Balance(states[0].entries, retained, Always) + TotalIncome(states[0], years)
  {
    hide Closes, DistinctPlain, LedgerOk, Balance, ChartOk;
    ClosesMove(states, years, iset{states[0].config.retained}, Always);
    RetainedMove(states[0], years);
  }

  // ---- reopening ----------------------------------------------------------------------------------

  /** Reopening takes back exactly what the closing moved, whatever was posted in between. */
  lemma ReopenUndoes(a: Db, y: int, b: Db, c: Db, d: Db, accounts: iset<Id>, w: Window)
    requires LedgerOk(a) && Closes(a, y, b)
    requires LedgerOk(c) && EntriesGrow(b.entries, c.entries) && y in c.years && y in b.years && c.years[y].entry == b.years[y].entry
    requires Reopens(c, y, d)
    ensures Balance(d.entries, accounts, w) - Balance(c.entries, accounts, w)
         == Balance(a.entries, accounts, w) - Balance(b.entries, accounts, w)
  {
    hide Balance, LedgerOk, Prepares, Effect, StillGood, Sweepable, EntriesGrow, Net;
    if op :| Sweeps(a, y, op) && Prepares(a, op) && Effect(op, a) == Some(b) {
      PreparedIsGood(a, op);
      PostingMoves(a, op, b, accounts, w);
      CloseYearRecords(a, op);
      EntryKept(b, c, op.id);
      ReopenMoves(c, y, d, op.id, accounts, w);
    } else {
      ReopenEmptyMoves(c, y, d);
    }
  }

  lemma EntryKept(b: Db, c: Db, id: Id)
    requires EntriesGrow(b.entries, c.entries) && id in b.entries
    ensures id in c.entries && c.entries[id].lines == b.entries[id].lines && c.entries[id].date == b.entries[id].date
  {
  }

  lemma OperationMoves(op: Op, db: Db, accounts: iset<Id>, w: Window)
    requires LedgerOk(db) && StillGood(db, op) && Effect(op, db).Some?
    ensures Balance(Effect(op, db).value.entries, accounts, w) == Balance(db.entries, accounts, w) + C.Move(op, accounts, w)
  {
    hide Balance, Effect, StillGood, Net, C.Move;
    C.EffectMovesBalance(op, db, accounts, w);
  }

  lemma PostingMoves(a: Db, op: Op, b: Db, accounts: iset<Id>, w: Window)
    requires LedgerOk(a) && StillGood(a, op) && op.CloseYear? && Effect(op, a) == Some(b)
    ensures Balance(b.entries, accounts, w) == Balance(a.entries, accounts, w) + C.At(w, op.posting.date, Net(op.posting.lines, accounts))
  {
    hide Balance, Effect, StillGood, Net, LedgerOk;
    OperationMoves(op, a, accounts, w);
  }

  lemma ReopenMoves(c: Db, y: int, d: Db, id: Id, accounts: iset<Id>, w: Window)
    requires LedgerOk(c) && Reopens(c, y, d) && y in c.years && c.years[y].entry == Some(id) && id in c.entries
    ensures Balance(d.entries, accounts, w) == Balance(c.entries, accounts, w) - C.At(w, c.entries[id].date, Net(c.entries[id].lines, accounts))
  {
    hide Balance, Effect, StillGood, Net, Prepares, LedgerOk;
    var op: Op :| op.ReopenClosedYear? && op.fiscalYear == y && Prepares(c, op) && Effect(op, c) == Some(d);
    PreparedIsGood(c, op);
    OperationMoves(op, c, accounts, w);
    PreparedReopen(c, op, id);
  }

  lemma PreparedReopen(c: Db, op: Op, id: Id)
    requires op.ReopenClosedYear? && Prepares(c, op) && id in c.entries
    requires op.fiscalYear in c.years && c.years[op.fiscalYear].entry == Some(id)
    ensures op.reversal.original == id && op.reversal.lines == c.entries[id].lines && op.reversal.date == c.entries[id].date
  {
  }

  lemma ReopenEmptyMoves(c: Db, y: int, d: Db)
    requires Reopens(c, y, d) && y in c.years && c.years[y].entry.None?
    ensures d.entries == c.entries
  {
    hide Effect;
  }

  lemma ReopenFrames(c: Db, y: int, d: Db)
    requires LedgerOk(c) && Reopens(c, y, d)
    ensures LedgerOk(d) && d.config == c.config && d.accounts == c.accounts
  {
    hide LedgerOk, Effect, Prepares, StillGood;
    if op: Op :| op.ReopenClosedYear? && op.fiscalYear == y && Prepares(c, op) && Effect(op, c) == Some(d) {
      PreparedIsGood(c, op);
      Preservation.EffectKeepsLedger(op, c);
      EffectFrames(op, c);
    } else {
      YearsAsideKeepsLedger(c, d, y);
    }
  }

  /** Reopening right after closing restores every balance at every date. */
  lemma ReopenRestores(a: Db, y: int, b: Db, c: Db, accounts: iset<Id>, w: Window)
    requires LedgerOk(a) && Closes(a, y, b) && Reopens(b, y, c)
    ensures Balance(c.entries, accounts, w) == Balance(a.entries, accounts, w)
  {
    hide Balance, LedgerOk, Closes, Reopens;
    CloseKeepsLedger(a, y, b);
    CloseRecordsOf(a, y, b);
    ReopenUndoes(a, y, b, b, c, accounts, w);
  }

  lemma CloseRecordsOf(a: Db, y: int, b: Db)
    requires LedgerOk(a) && Closes(a, y, b)
    ensures y in b.years && b.years[y].closed && b.years[y].netIncome == NetIncome(a, y) && EntriesGrow(b.entries, b.entries)
  {
    hide JournalOk, Closes;
    CloseRecords(a, y, b);
  }

  /** Closing again after reopening gives the balances and the net income of the first close. */
  lemma CloseAgain(a: Db, y: int, b: Db, c: Db, d: Db, accounts: iset<Id>, w: Window)
    requires LedgerOk(a) && Closes(a, y, b) && Reopens(b, y, c) && Closes(c, y, d)
    ensures Balance(d.entries, accounts, w) == Balance(b.entries, accounts, w)
    ensures YearClosed(b, y) && YearClosed(d, y) && d.years[y].netIncome == b.years[y].netIncome
  {
    hide Balance, LedgerOk, Closes, Reopens, Year, YearLast, ProfitAndLoss;
    CloseKeepsLedger(a, y, b);
    ReopenFrames(b, y, c);
    SamePl(a, c);
    ReopenRestores(a, y, b, c, accounts, w);
    ReopenRestores(a, y, b, c, accounts * ProfitAndLoss(a), Year(a.config, y));
    ReopenRestores(a, y, b, c, EVERY * ProfitAndLoss(a), Year(a.config, y));
    CloseMoves(a, y, b, accounts, w);
    CloseMoves(c, y, d, accounts, w);
    CloseRecordsOf(a, y, b);
    CloseRecordsOf(c, y, d);
  }
}
