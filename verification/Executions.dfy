/** Which states the running system reaches: in particular every history of atomic effects is
realised by transactions that run statement by statement. */
module Executions {
  import opened Options
  import opened Ledger
  import opened Statements
  import opened Operations
  import opened Serializability
  import opened Preparation
  import opened Protocol

  ghost predicate Path(states: seq<System>, events: seq<Event>, a: System, b: System) {
    && |states| == |events| + 1 && states[0] == a && states[|events|] == b
    && forall i | 0 <= i < |events| :: Steps(states[i], events[i], states[i + 1])
  }

  /** Some sequence of steps leads from a to b. */
  ghost predicate Reaches(a: System, b: System) {
    exists states: seq<System>, events: seq<Event> :: Path(states, events, a, b)
  }

  lemma ReachesItself(s: System)
    ensures Reaches(s, s)
  {
    assert Path([s], [], s, s);
  }

  lemma ReachesThen(a: System, b: System, e: Event, c: System)
    requires Reaches(a, b) && Steps(b, e, c)
    ensures Reaches(a, c)
  {
    hide Steps;
    var states: seq<System>, events: seq<Event> :| Path(states, events, a, b);
    var states2, events2 := states + [c], events + [e];
    forall i | 0 <= i < |events2| ensures Steps(states2[i], events2[i], states2[i + 1]) {
      if i < |events| { assert Steps(states[i], events[i], states[i + 1]); }
    }
    assert Path(states2, events2, a, c);
  }

  lemma {:induction false} ReachesFurther(a: System, b: System, states: seq<System>, events: seq<Event>, c: System)
    requires Reaches(a, b) && Path(states, events, b, c)
    ensures Reaches(a, c)
    decreases |events|
  {
    hide Steps;
    if events != [] {
      var n := |events| - 1;
      assert Path(states[..n + 1], events[..n], b, states[n]) by {
        assert states[..n + 1][0] == b;
        forall i | 0 <= i < n ensures Steps(states[..n + 1][i], events[..n][i], states[..n + 1][i + 1]) {
          assert Steps(states[i], events[i], states[i + 1]);
        }
      }
      ReachesFurther(a, b, states[..n + 1], events[..n], states[n]);
      ReachesThen(a, states[n], events[n], c);
    }
  }

  lemma ReachesTransitive(a: System, b: System, c: System)
    requires Reaches(a, b) && Reaches(b, c)
    ensures Reaches(a, c)
  {
    var states: seq<System>, events: seq<Event> :| Path(states, events, b, c);
    ReachesFurther(a, b, states, events, c);
  }

  lemma {:induction false} PathOk(states: seq<System>, events: seq<Event>, a: System, b: System, i: nat)
    requires Path(states, events, a, b) && SystemOk(a) && i < |states|
    ensures SystemOk(states[i])
  {
    hide SystemOk, Steps;
    if i > 0 {
      PathOk(states, events, a, b, i - 1);
      StepOk(states[i - 1], events[i - 1], states[i]);
    }
  }

  /** Whatever is reached from a state in order is in order. */
  lemma ReachesOk(a: System, b: System)
    requires Reaches(a, b) && SystemOk(a)
    ensures SystemOk(b)
  {
    hide SystemOk, Steps;
    var states: seq<System>, events: seq<Event> :| Path(states, events, a, b);
    PathOk(states, events, a, b, |events|);
  }

  /** What is reached from an initial state is the end of a run. */
  lemma ReachedByRun(a: System, b: System) returns (states: seq<System>, events: seq<Event>)
    requires Initial(a) && Reaches(a, b)
    ensures IsRun(states, events) && states[0] == a && states[|events|] == b
  {
    hide Steps;
    states, events :| Path(states, events, a, b);
  }

  // ---- one transaction alone ---------------------------------------------------------------------

  lemma {:induction false} ExecutesAlone(s: System, t: nat, op: Op, tx: Tx, b: Db) returns (end: Tx)
    requires s.running == map[t := (op, tx)] && Run(tx.rest, View(s.db, tx.writes), tx.env) == Some(b)
    ensures end.rest.Done? && View(s.db, end.writes) == b && Reaches(s, s.(running := map[t := (op, end)]))
    decreases tx.rest
  {
    hide View, Step, EnvAfter, Reaches, Steps;
    ReachesItself(s);
    if tx.rest.Done? {
      end := tx;
    } else {
      var next := AdvancesAlone(s, t, op, tx);
      var s2 := s.(running := map[t := (op, next)]);
      ReachesThen(s, s, Execute(t), s2);
      end := ExecutesAlone(s2, t, op, next, b);
      ReachesTransitive(s, s2, s2.(running := map[t := (op, end)]));
    }
  }

  lemma AdvancesAlone(s: System, t: nat, op: Op, tx: Tx) returns (next: Tx)
    requires s.running == map[t := (op, tx)] && tx.rest.Then? && Step(tx.rest.stmt, View(s.db, tx.writes), tx.env).Some?
    ensures Steps(s, Execute(t), s.(running := map[t := (op, next)]))
    ensures View(s.db, next.writes) == Step(tx.rest.stmt, View(s.db, tx.writes), tx.env).value
    ensures next.env == EnvAfter(tx.rest.stmt, View(s.db, tx.writes), tx.env) && next.rest == tx.rest.rest
  {
    hide Step, EnvAfter, View;
    AdvanceViews(tx, s.db);
    next := Advance(tx, s.db).value;
    assert s.running[t := (op, next)] == map[t := (op, next)];
  }

  // Executing a statement moves the transaction's view as running it does.
  lemma AdvanceViews(tx: Tx, db: Db)
    requires tx.rest.Then? && Step(tx.rest.stmt, View(db, tx.writes), tx.env).Some?
    ensures Advance(tx, db).Some?
    ensures var next := Advance(tx, db).value;
      && View(db, next.writes) == Step(tx.rest.stmt, View(db, tx.writes), tx.env).value
      && next.env == EnvAfter(tx.rest.stmt, View(db, tx.writes), tx.env)
      && next.rest == tx.rest.rest && next.done == tx.done + [tx.rest.stmt]
  {
    var view := View(db, tx.writes);
    match Act(tx.rest.stmt, view, tx.env)
    case Keep =>
    case Put(w) => assert (tx.writes + [w])[..|tx.writes|] == tx.writes;
  }

  /** Between transactions, a prepared operation whose effect is defined can be carried out. */
  lemma Performs(s: System, op: Op, b: Db)
    requires s.running == map[] && op in s.prepared && Effect(op, s.db) == Some(b)
    ensures Reaches(s, s.(db := b))
  {
    hide Effect, Program, Run;
    RunIsEffect(op, s.db);
    var tx := Fresh(Program(op));
    var s1 := s.(running := map[0 := (op, tx)]);
    assert s1.running == s.running[0 := (op, tx)];
    ReachesItself(s);
    ReachesThen(s, s, Begin(0, op), s1);
    var end := ExecutesAlone(s1, 0, op, tx, b);
    var s2 := s1.(running := map[0 := (op, end)]);
    ReachesTransitive(s, s1, s2);
    assert s2.running - {0} == map[];
    ReachesThen(s, s2, Commit(0), s.(db := b));
  }

  /** Preparing and carrying out an operation at once. */
  lemma PreparesAndPerforms(s: System, op: Op, b: Db)
    requires s.running == map[] && Prepares(s.db, op) && Effect(op, s.db) == Some(b)
    ensures Reaches(s, s.(db := b, prepared := s.prepared + {op}))
  {
    hide Effect, Prepares;
    var s1 := s.(prepared := s.prepared + {op});
    ReachesItself(s);
    ReachesThen(s, s, Prepare(op), s1);
    Performs(s1, op, b);
    ReachesTransitive(s, s1, s1.(db := b));
  }

  // ---- serial histories ----------------------------------------------------------------------------

  /** Operations carried out one after the other, each prepared on the database it finds. */
  ghost predicate IsSerial(dbs: seq<Db>, ops: seq<Op>) {
    && |dbs| == |ops| + 1
    && forall i | 0 <= i < |ops| :: Prepares(dbs[i], ops[i]) && Effect(ops[i], dbs[i]) == Some(dbs[i + 1])
  }

  function OpsSet(ops: seq<Op>): set<Op> { set i | 0 <= i < |ops| :: ops[i] }

  /** The converse of serializability: every serial history of atomic effects is a run. */
  lemma {:induction false} SerialHistoriesRun(s: System, dbs: seq<Db>, ops: seq<Op>)
    requires IsSerial(dbs, ops) && s.running == map[] && s.db == dbs[0]
    ensures Reaches(s, s.(db := dbs[|ops|], prepared := s.prepared + OpsSet(ops)))
    decreases |ops|
  {
    hide Effect, Prepares;
    if ops == [] {
      assert s.prepared + OpsSet(ops) == s.prepared;
      ReachesItself(s);
    } else {
      var n := |ops| - 1;
      assert IsSerial(dbs[..n + 1], ops[..n]) by {
        forall i | 0 <= i < n ensures Prepares(dbs[..n + 1][i], ops[..n][i]) && Effect(ops[..n][i], dbs[..n + 1][i]) == Some(dbs[..n + 1][i + 1]) {
          assert Prepares(dbs[i], ops[i]) && Effect(ops[i], dbs[i]) == Some(dbs[i + 1]);
        }
      }
      SerialHistoriesRun(s, dbs[..n + 1], ops[..n]);
      var mid := s.(db := dbs[n], prepared := s.prepared + OpsSet(ops[..n]));
      assert Prepares(dbs[n], ops[n]) && Effect(ops[n], dbs[n]) == Some(dbs[n + 1]);
      PreparesAndPerforms(mid, ops[n], dbs[n + 1]);
      assert OpsSet(ops) == OpsSet(ops[..n]) + {ops[n]} by {
        forall op | op in OpsSet(ops) ensures op in OpsSet(ops[..n]) + {ops[n]} {
          var i :| 0 <= i < |ops| && ops[i] == op;
          if i < n { assert ops[..n][i] == op; }
        }
        forall op | op in OpsSet(ops[..n]) ensures op in OpsSet(ops) {
          var i :| 0 <= i < n && ops[..n][i] == op;
          assert ops[i] == op;
        }
      }
      assert mid.prepared + {ops[n]} == s.prepared + OpsSet(ops);
      ReachesTransitive(s, mid, s.(db := dbs[n + 1], prepared := s.prepared + OpsSet(ops)));
    }
  }
}
