/** Closing and reopening accounting periods and fiscal years over whole runs
(src/ledger/periods/periods.service.ts, src/close/year-end-close.service.ts). */
module Periods {
  import opened Options
  import opened Ledger
  import opened Operations
  import opened Preparation
  import opened Invariants
  import opened Protocol

  /** The step commits this operation. */
  predicate Commits(s: System, e: Event, op: Op) { e.Commit? && e.t in s.running && s.running[e.t].0 == op }

  predicate OpenPeriod(db: Db, p: Id) { p in db.periods && db.periods[p].open }

  predicate ClosedPeriod(db: Db, p: Id) { p in db.periods && !db.periods[p].open }

  predicate Stamped(db: Db, e: Id, p: Id) { e in db.entries && db.entries[e].stamp.Some? && db.entries[e].stamp.value.period == p }

  predicate StampedIn(db: Db, e: Id, y: int) { e in db.entries && db.entries[e].stamp.Some? && db.entries[e].stamp.value.fiscalYear == y }

  // ---- what one operation does to a period ---------------------------------------------------------

  lemma PeriodMoves(op: Op, db: Db, p: Id)
    requires Effect(op, db).Some? && p in db.periods
    ensures var b := Effect(op, db).value;
      && p in b.periods && b.periods[p].start == db.periods[p].start && b.periods[p].end == db.periods[p].end
      && (op == CloseAccountingPeriod(p) ==> db.periods[p].open && !b.periods[p].open)
      && (op == ReopenAccountingPeriod(p) ==> b.periods[p].open)
      && (op != CloseAccountingPeriod(p) && op != ReopenAccountingPeriod(p) ==> b.periods[p] == db.periods[p])
  {
    hide PostEffect, ReverseEffect, SettleAll, UnwindAll, JournalShape;
    DocumentShape(op, db);
  }

  lemma OnlyExisting(op: Op, db: Db, p: Id)
    requires Effect(op, db).Some? && (op == CloseAccountingPeriod(p) || op == ReopenAccountingPeriod(p))
    ensures p in db.periods
  {
  }

  // ---- over runs -------------------------------------------------------------------------------------

  /** When the close of a period commits, the period was open and is closed from then on; when a
      reopening commits, it is open. */
  lemma CommitTurnsPeriod(states: seq<System>, events: seq<Event>, i: nat, p: Id)
    requires IsRun(states, events) && i < |events|
    ensures Commits(states[i], events[i], CloseAccountingPeriod(p)) ==>
              OpenPeriod(states[i].db, p) && ClosedPeriod(states[i + 1].db, p)
    ensures Commits(states[i], events[i], ReopenAccountingPeriod(p)) ==> OpenPeriod(states[i + 1].db, p)
  {
    hide Effect, Steps, Initial;
    RunIsSerial(states, events, i);
    if Commits(states[i], events[i], CloseAccountingPeriod(p)) || Commits(states[i], events[i], ReopenAccountingPeriod(p)) {
      var op := states[i].running[events[i].t].0;
      OnlyExisting(op, states[i].db, p);
      PeriodMoves(op, states[i].db, p);
    }
  }

  lemma StepMovesPeriod(states: seq<System>, events: seq<Event>, i: nat, p: Id)
    requires IsRun(states, events) && i < |events| && p in states[i].db.periods
    ensures p in states[i + 1].db.periods
    ensures states[i + 1].db.periods[p].start == states[i].db.periods[p].start && states[i + 1].db.periods[p].end == states[i].db.periods[p].end
    ensures !Commits(states[i], events[i], CloseAccountingPeriod(p)) && !Commits(states[i], events[i], ReopenAccountingPeriod(p)) ==>
              states[i + 1].db.periods[p] == states[i].db.periods[p]
  {
    hide Effect, Steps, Initial;
    RunIsSerial(states, events, i);
    if events[i].Commit? { PeriodMoves(states[i].running[events[i].t].0, states[i].db, p); }
  }

  /** No step from i up to j commits the operation. */
  predicate NoneCommits(states: seq<System>, events: seq<Event>, i: nat, j: nat, op: Op)
    requires i <= j <= |events| < |states|
  {
    forall k | i <= k < j :: !Commits(states[k], events[k], op)
  }

  /** A closed period stays closed until a reopening commits, and until then no entry is posted
      into it, however stale the tokens in flight. */
  lemma {:induction false} PeriodStaysClosed(states: seq<System>, events: seq<Event>, i: nat, j: nat, p: Id, e: Id)
    requires IsRun(states, events) && i <= j < |states| && ClosedPeriod(states[i].db, p)
    requires NoneCommits(states, events, i, j, ReopenAccountingPeriod(p))
    ensures ClosedPeriod(states[j].db, p) && states[j].db.periods[p] == states[i].db.periods[p]
    ensures Stamped(states[j].db, e, p) ==> Stamped(states[i].db, e, p)
    decreases j
  {
    hide Steps, Initial, Commits, Stamped, StampedIn;
    if i < j {
      PeriodStaysClosed(states, events, i, j - 1, p, e);
      CommitTurnsPeriod(states, events, j - 1, p);
      StepMovesPeriod(states, events, j - 1, p);
      if Stamped(states[j].db, e, p) && !Stamped(states[j - 1].db, e, p) { NewStampInOpenPeriod(states, events, j - 1, p, e); }
    }
  }

  lemma NewStampInOpenPeriod(states: seq<System>, events: seq<Event>, i: nat, p: Id, e: Id)
    requires IsRun(states, events) && i < |events| && Stamped(states[i + 1].db, e, p) && !Stamped(states[i].db, e, p)
    ensures OpenPeriod(states[i].db, p)
  {
    StampsStay(states, events, i, e);
    CommitsInOpenTime(states, events, i, e);
  }

  lemma StampsStay(states: seq<System>, events: seq<Event>, i: nat, e: Id)
    requires IsRun(states, events) && i < |events|
    ensures e in states[i].db.entries && states[i].db.entries[e].stamp.Some? ==>
              e in states[i + 1].db.entries && states[i + 1].db.entries[e].stamp == states[i].db.entries[e].stamp
  {
    hide LedgerOk, StillGood, Effect;
    RunOk(states, events, i);
    RunIsSerial(states, events, i);
    if events[i].Commit? {
      assert RunningOk(states[i], events[i].t);
      Preservation.EffectKeepsLedger(states[i].running[events[i].t].0, states[i].db);
    }
  }

  /** An open period stays open until its close commits. */
  lemma {:induction false} PeriodStaysOpen(states: seq<System>, events: seq<Event>, i: nat, j: nat, p: Id)
    requires IsRun(states, events) && i <= j < |states| && OpenPeriod(states[i].db, p)
    requires NoneCommits(states, events, i, j, CloseAccountingPeriod(p))
    ensures OpenPeriod(states[j].db, p)
    decreases j
  {
    hide Steps, Initial, Commits;
    if i < j {
      PeriodStaysOpen(states, events, i, j - 1, p);
      CommitTurnsPeriod(states, events, j - 1, p);
      StepMovesPeriod(states, events, j - 1, p);
    }
  }

  // ---- fiscal years ---------------------------------------------------------------------------------------

  predicate ReopensYear(s: System, e: Event, y: int) {
    e.Commit? && e.t in s.running && s.running[e.t].0.ReopenClosedYear? && s.running[e.t].0.fiscalYear == y
  }

  predicate ClosesYear(s: System, e: Event, y: int) {
    e.Commit? && e.t in s.running && s.running[e.t].0.CloseYear? && s.running[e.t].0.fiscalYear == y
  }

  lemma YearMoves(op: Op, db: Db, y: int)
    requires Effect(op, db).Some?
    ensures var b := Effect(op, db).value;
      && (op.CloseYear? && op.fiscalYear == y ==>
            !YearClosed(db, y) && YearClosed(b, y) && b.years[y] == YearEnd(true, Some(op.id), op.netIncome))
      && (op.ReopenClosedYear? && op.fiscalYear == y ==>
            YearClosed(db, y) && !YearClosed(b, y) && y in b.years && b.years[y].entry == db.years[y].entry
            && b.years[y].netIncome == db.years[y].netIncome)
      && (!(op.CloseYear? && op.fiscalYear == y) && !(op.ReopenClosedYear? && op.fiscalYear == y) ==>
            (y in b.years <==> y in db.years) && (y in db.years ==> b.years[y] == db.years[y]))
  {
    hide PostEffect, ReverseEffect, SettleAll, UnwindAll, JournalShape;
    DocumentShape(op, db);
    match op {
      case CloseYear(id, _, _, p) => PostTouches(db, id, p);
      case ReopenClosedYear(id, _, r) => ReverseTouches(db, id, r);
      case _ =>
    }
  }

  /** When a close commits the year was open and is closed, with the entry and net income of the
      close; when a reopening commits it was closed and is open. */
  lemma CommitTurnsYear(states: seq<System>, events: seq<Event>, i: nat, y: int)
    requires IsRun(states, events) && i < |events|
    ensures ClosesYear(states[i], events[i], y) ==>
      var op := states[i].running[events[i].t].0;
      && !YearClosed(states[i].db, y) && YearClosed(states[i + 1].db, y)
      && states[i + 1].db.years[y].entry == Some(op.id) && states[i + 1].db.years[y].netIncome == op.netIncome
    ensures ReopensYear(states[i], events[i], y) ==> YearClosed(states[i].db, y) && !YearClosed(states[i + 1].db, y)
    ensures !ClosesYear(states[i], events[i], y) && !ReopensYear(states[i], events[i], y) ==>
              (y in states[i + 1].db.years <==> y in states[i].db.years)
              && (y in states[i].db.years ==> states[i + 1].db.years[y] == states[i].db.years[y])
  {
    hide Effect, Steps, Initial;
    RunIsSerial(states, events, i);
    if events[i].Commit? { YearMoves(states[i].running[events[i].t].0, states[i].db, y); }
  }

  /** A closed year stays closed until a reopening commits, and until then no entry is posted into
      it: the exclusive lock and the re-check hold off every stale token. */
  lemma {:induction false} YearStaysClosed(states: seq<System>, events: seq<Event>, i: nat, j: nat, y: int, e: Id)
    requires IsRun(states, events) && i <= j < |states| && YearClosed(states[i].db, y)
    requires forall k | i <= k < j :: !ReopensYear(states[k], events[k], y)
    ensures YearClosed(states[j].db, y) && states[j].db.years[y] == states[i].db.years[y]
    ensures StampedIn(states[j].db, e, y) ==> StampedIn(states[i].db, e, y)
    decreases j
  {
    hide Steps, Initial, Commits, Stamped, StampedIn;
    if i < j {
      YearStaysClosed(states, events, i, j - 1, y, e);
      CommitTurnsYear(states, events, j - 1, y);
      if StampedIn(states[j].db, e, y) && !StampedIn(states[j - 1].db, e, y) { NoNewStampInClosedYear(states, events, j - 1, y, e); }
    }
  }

  lemma NoNewStampInClosedYear(states: seq<System>, events: seq<Event>, i: nat, y: int, e: Id)
    requires IsRun(states, events) && i < |events| && StampedIn(states[i + 1].db, e, y)
    requires YearClosed(states[i].db, y) && YearClosed(states[i + 1].db, y) && states[i + 1].db.years[y] == states[i].db.years[y]
    ensures StampedIn(states[i].db, e, y)
  {
    hide JournalOk, ReversalsOk, NumbersOk, DocumentsOk, StillGood;
    RunOk(states, events, i);
    StampsStay(states, events, i, e);
    if !StampedIn(states[i].db, e, y) { CommitsInOpenTime(states, events, i, e); }
  }
}
