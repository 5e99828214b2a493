/** Reserve-first idempotency for one user and key (src/common/idempotency): a class that
updates the key's row, and the interleaving of any number of requests that share the key. */
module Idempotency {
  import opened Options

  type Time = int

  /** Method, path and body hash of a request. */
  datatype Request = Request(endpoint: nat, hash: nat)

  datatype Body = Null | Json(text: nat)

  /** `serial` tells successive rows of the same key apart; no statement reads it. */
  datatype Row = Row(
    serial: nat, request: Request, createdAt: Time, response: Option<(Body, int)>, completedAt: Option<Time>)

  datatype Reply = Proceed | Replay(body: Body, status: int) | InProgress | Mismatch

  // ---- the statements ------------------------------------------------------------------------

  predicate InFlight(r: Row) { r.response.None? || r.response.value.0.Null? }

  predicate Stale(r: Row, now: Time, ttl: Time) { now - r.createdAt > ttl }

  /** The deleteMany of a reclaim. */
  predicate Reclaimable(row: Option<Row>, now: Time, ttl: Time) {
    row.Some? && row.value.response.None? && row.value.completedAt.None? && row.value.createdAt < now - ttl
  }

  /** What a request finds out about an existing row; Proceed stands for "stale, try to reclaim". */
  function Judge(row: Option<Row>, request: Request, allowReclaim: bool, now: Time, ttl: Time): Reply {
    if row.None? then InProgress
    else if row.value.request != request then Mismatch
    else if !InFlight(row.value) then Replay(row.value.response.value.0, row.value.response.value.1)
    else if allowReclaim && Stale(row.value, now, ttl) then Proceed
    else InProgress
  }

  function Purged(row: Option<Row>, threshold: Time): Option<Row> {
    if row.Some? && row.value.completedAt.Some? && row.value.completedAt.value < threshold then None else row
  }

  function Completed(r: Row, body: Body, status: int, now: Time): Row {
    r.(response := Some((body, status)), completedAt := Some(now))
  }

  // ---- the service, one call at a time ---------------------------------------------------------

  /** What reserve answers when nothing runs beside it. */
  function Answer(row: Option<Row>, request: Request, now: Time, ttl: Time): Reply {
    if row.None? then Proceed
    else if Judge(row, request, true, now, ttl).Proceed? then (if Reclaimable(row, now, ttl) then Proceed else InProgress)
    else Judge(row, request, true, now, ttl)
  }

  /** What it answers on the second pass, when it may not reclaim again. */
  function Unreclaimed(row: Option<Row>, request: Request, now: Time, ttl: Time): Reply {
    if row.None? then Proceed else Judge(row, request, false, now, ttl)
  }

  class KeyService {
    var row: Option<Row>
    var inserts: nat
    const ttl: Time

    constructor (ttl: Time)
      ensures row == None && inserts == 0 && this.ttl == ttl
    {
      row, inserts := None, 0;
      this.ttl := ttl;
    }

    method Reserve(request: Request, now: Time) returns (r: Reply)
      modifies this
      ensures r.Proceed? <==>
        || old(row).None?
        || var o := old(row).value; o.request == request && o.response.None? && o.completedAt.None? && now - o.createdAt > ttl
      ensures r.Mismatch? <==> old(row).Some? && old(row).value.request != request
      ensures r.Replay? <==>
        old(row).Some? && old(row).value.request == request && old(row).value.response.Some? && old(row).value.response.value.0 != Null
      ensures r.Replay? ==> old(row).value.response == Some((r.body, r.status))
      ensures r == Answer(old(row), request, now, ttl)
      ensures r.Proceed? ==> row == Some(Row(old(inserts), request, now, None, None)) && inserts == old(inserts) + 1
      ensures !r.Proceed? ==> row == old(row) && inserts == old(inserts)
    {
      r := ReserveOnce(request, now, true);
    }

    method ReserveOnce(request: Request, now: Time, allowReclaim: bool) returns (r: Reply)
      modifies this
      ensures r.Proceed? <==>
        || old(row).None?
        || var o := old(row).value;
           allowReclaim && o.request == request && o.response.None? && o.completedAt.None? && now - o.createdAt > ttl
      ensures r.Mismatch? <==> old(row).Some? && old(row).value.request != request
      ensures r.Replay? <==>
        old(row).Some? && old(row).value.request == request && old(row).value.response.Some? && old(row).value.response.value.0 != Null
      ensures r.Replay? ==> old(row).value.response == Some((r.body, r.status))
      ensures r == if allowReclaim then Answer(old(row), request, now, ttl) else Unreclaimed(old(row), request, now, ttl)
      ensures r.Proceed? ==> row == Some(Row(old(inserts), request, now, None, None)) && inserts == old(inserts) + 1
      ensures !r.Proceed? ==> row == old(row) && inserts == old(inserts)
      decreases allowReclaim, 1
    {
      if row.None? {
        row, inserts := Some(Row(inserts, request, now, None, None)), inserts + 1;
        return Proceed;
      }
      r := ResolveExisting(request, now, allowReclaim);
    }

    /** The mutual recursion ends because only the first pass may reclaim. */
    method ResolveExisting(request: Request, now: Time, allowReclaim: bool) returns (r: Reply)
      requires row.Some?
      modifies this
      ensures r == if allowReclaim then Answer(old(row), request, now, ttl) else Unreclaimed(old(row), request, now, ttl)
      ensures r.Proceed? ==> row == Some(Row(old(inserts), request, now, None, None)) && inserts == old(inserts) + 1
      ensures !r.Proceed? ==> row == old(row) && inserts == old(inserts)
      decreases allowReclaim, 0
    {
      r := Judge(row, request, allowReclaim, now, ttl);
      if !r.Proceed? { return; }
      if Reclaimable(row, now, ttl) {
        row := None;
        r := ReserveOnce(request, now, false);
        return;
      }
      return InProgress;
    }

    method Complete(body: Body, status: int, now: Time) returns (ok: bool)
      modifies this
      ensures ok <==> old(row).Some?
      ensures row == if ok then Some(old(row).value.(response := Some((body, status)), completedAt := Some(now))) else old(row)
      ensures inserts == old(inserts)
    {
      if row.None? { return false; }
      row := Some(Completed(row.value, body, status, now));
      return true;
    }

    method Release()
      modifies this
      ensures row == None && inserts == old(inserts)
    {
      row := None;
    }

    /** The interceptor: reserve, run the handler (`result` is its response, if it does not throw),
        then complete or release.  The handler runs exactly when the key is free; a response that
        is not null is replayed to the same request at any later time, and after a failure the
        key is free again. */
    method Intercept(request: Request, now: Time, result: Option<(Body, int)>, later: Time) returns (end: End)
      modifies this
      ensures end.Answered? <==> !Answer(old(row), request, now, ttl).Proceed?
      ensures end.Answered? ==> end.reply == Answer(old(row), request, now, ttl) && row == old(row) && inserts == old(inserts)
      ensures !end.Answered? ==> inserts == old(inserts) + 1
      ensures !end.Answered? && result.Some? ==> end == Done(result.value.0, result.value.1)
      ensures !end.Answered? && result.Some? ==>
        forall t: Time :: Answer(row, request, t, ttl) == if result.value.0.Null? then InProgress else Replay(result.value.0, result.value.1)
      ensures !end.Answered? && result.None? ==> end == Failed && forall t: Time :: Answer(row, request, t, ttl) == Proceed
    {
      var r := Reserve(request, now);
      if !r.Proceed? { return Answered(r); }
      if result.Some? {
        var ok := Complete(result.value.0, result.value.1, later);
        return Done(result.value.0, result.value.1);
      }
      Release();
      return Failed;
    }

    /** A purge never touches a reservation in flight.  It frees exactly the key of a request
        completed before the threshold, and otherwise changes no answer. */
    method PurgeCompleted(threshold: Time)
      modifies this
      ensures inserts == old(inserts)
      ensures old(row).Some? && old(row).value.completedAt.None? ==> row == old(row)
      ensures row == if old(row).Some? && old(row).value.completedAt.Some? && old(row).value.completedAt.value < threshold then None else old(row)
      ensures row != old(row) ==> forall request: Request, now: Time :: Answer(row, request, now, ttl) == Proceed
      ensures row == Purged(old(row), threshold)
    {
      if row.Some? && row.value.completedAt.Some? && row.value.completedAt.value < threshold { row := None; }
    }
  }

  // ---- many requests at once ----------------------------------------------------------------------

  datatype End = Answered(reply: Reply) | Done(body: Body, status: int) | Failed | Crashed

  /** A request on its way through the interceptor. */
  datatype Agent =
    | Creating(request: Request, allowReclaim: bool)
    | Resolving(request: Request, allowReclaim: bool)
    | Reclaiming(request: Request)
    | Running(serial: nat, since: Time)
    | Completing(serial: nat, since: Time, body: Body, status: int)
    | Releasing(serial: nat, since: Time)
    | Finished(end: End, grant: Option<nat>)

  datatype State = State(ttl: Time, now: Time, row: Option<Row>, inserts: nat, reclaimed: seq<nat>, agents: map<nat, Agent>)

  datatype Event =
    | Tick(now: Time)
    | Arrive(a: nat, request: Request)
    | Create(a: nat)
    | Read(a: nat)
    | Reclaim(a: nat)
    | Succeed(a: nat, body: Body, status: int)
    | Fail(a: nat)
    | Complete(a: nat)
    | CompleteFails(a: nat)
    | Release(a: nat)
    | Crash(a: nat)
    | Purge(threshold: Time)

  function With(s: State, a: nat, g: Agent): State { s.(agents := s.agents[a := g]) }

  predicate Owner(g: Agent) { g.Running? || g.Completing? || g.Releasing? }

  function CreateStep(s: State, a: nat, g: Agent): State
    requires g.Creating?
  {
    if s.row.None?
    then With(s, a, Running(s.inserts, s.now)).(row := Some(Row(s.inserts, g.request, s.now, None, None)), inserts := s.inserts + 1)
    else With(s, a, Resolving(g.request, g.allowReclaim))
  }

  function ReadStep(s: State, a: nat, g: Agent): State
    requires g.Resolving?
  {
    var r := Judge(s.row, g.request, g.allowReclaim, s.now, s.ttl);
    With(s, a, if r.Proceed? then Reclaiming(g.request) else Finished(Answered(r), None))
  }

  function ReclaimStep(s: State, a: nat, g: Agent): State
    requires g.Reclaiming?
  {
    if Reclaimable(s.row, s.now, s.ttl)
    then With(s, a, Creating(g.request, false)).(row := None, reclaimed := s.reclaimed + [s.row.value.serial])
    else With(s, a, Finished(Answered(InProgress), None))
  }

  /** complete() updates whatever row has the key; without one it throws, and the error path releases. */
  function CompleteStep(s: State, a: nat, g: Agent): State
    requires g.Completing?
  {
    if s.row.Some?
    then With(s, a, Finished(Done(g.body, g.status), Some(g.serial))).(row := Some(Completed(s.row.value, g.body, g.status, s.now)))
    else With(s, a, Releasing(g.serial, g.since))
  }

  /** One database statement or handler outcome; None when the event cannot happen. */
  function Apply(s: State, e: Event): Option<State> {
    match e
    case Tick(now) => if s.now <= now then Some(s.(now := now)) else None
    case Arrive(a, request) => if a !in s.agents then Some(With(s, a, Creating(request, true))) else None
    case Purge(threshold) => Some(s.(row := Purged(s.row, threshold)))
    case Create(a) => if a in s.agents && s.agents[a].Creating? then Some(CreateStep(s, a, s.agents[a])) else None
    case Read(a) => if a in s.agents && s.agents[a].Resolving? then Some(ReadStep(s, a, s.agents[a])) else None
    case Reclaim(a) => if a in s.agents && s.agents[a].Reclaiming? then Some(ReclaimStep(s, a, s.agents[a])) else None
    case Complete(a) => if a in s.agents && s.agents[a].Completing? then Some(CompleteStep(s, a, s.agents[a])) else None
    case Succeed(a, body, status) =>
      if a in s.agents && s.agents[a].Running?
      then Some(With(s, a, Completing(s.agents[a].serial, s.agents[a].since, body, status))) else None
    case Fail(a) =>
      if a in s.agents && s.agents[a].Running? then Some(With(s, a, Releasing(s.agents[a].serial, s.agents[a].since))) else None
    case CompleteFails(a) =>
      if a in s.agents && s.agents[a].Completing? then Some(With(s, a, Releasing(s.agents[a].serial, s.agents[a].since))) else None
    case Release(a) =>
      if a in s.agents && s.agents[a].Releasing?
      then Some(With(s, a, Finished(Failed, Some(s.agents[a].serial))).(row := None)) else None
    case Crash(a) =>
      if a in s.agents && !s.agents[a].Finished? then Some(With(s, a, Finished(Crashed, Grant(s.agents[a])))) else None
  }

  ghost predicate IsRun(states: seq<State>, events: seq<Event>) {
    && |states| == |events| + 1
    && states[0].row == None && states[0].inserts == 0 && states[0].agents == map[] && states[0].reclaimed == []
    && forall i | 0 <= i < |events| :: Apply(states[i], events[i]) == Some(states[i + 1])
  }

  // ---- one execution per insert, one reclaim per row -------------------------------------------------

  /** The row whose insertion let this request execute. */
  function Grant(g: Agent): Option<nat> {
    if Owner(g) then Some(g.serial) else if g.Finished? then g.grant else None
  }

  predicate Granted(s: State, a: nat, serial: nat) { a in s.agents && Grant(s.agents[a]) == Some(serial) }

  ghost predicate Executes(s: State, serial: nat) { exists a: nat :: Granted(s, a, serial) }

  predicate NoneTwice(s: seq<nat>) { forall i, j | 0 <= i < j < |s| :: s[i] != s[j] }

  ghost predicate GrantsOk(s: State) {
    && (forall n: nat :: n < s.inserts ==> Executes(s, n))
    && (forall a: nat, n: nat :: Granted(s, a, n) ==> n < s.inserts)
    && (forall a: nat, b: nat, n: nat :: Granted(s, a, n) && Granted(s, b, n) ==> a == b)
    && (s.row.Some? ==> s.row.value.serial < s.inserts && s.row.value.serial !in s.reclaimed)
    && NoneTwice(s.reclaimed) && (forall n: nat | n in s.reclaimed :: n < s.inserts)
  }

  // A step of agent a changes nobody else's grant, and its own only by creating the row.
  lemma GrantMoves(s: State, e: Event, s2: State, n: nat, b: nat)
    requires Apply(s, e) == Some(s2)
    ensures e.Create? && s.row.None? ==> (Granted(s2, b, n) <==> Granted(s, b, n) || (b == e.a && n == s.inserts))
    ensures !(e.Create? && s.row.None?) ==> (Granted(s2, b, n) <==> Granted(s, b, n))
    ensures s2.inserts == s.inserts + (if e.Create? && s.row.None? then 1 else 0)
  {
  }

  lemma GrantsKept(s: State, e: Event, s2: State)
    requires GrantsOk(s) && Apply(s, e) == Some(s2)
    ensures GrantsOk(s2)
  {
    hide Apply, Granted;
    RowMoves(s, e, s2);
    GrantMoves(s, e, s2, 0, 0);
    forall n: nat | n < s2.inserts ensures Executes(s2, n) {
      if n < s.inserts {
        assert Executes(s, n);
        var a: nat :| Granted(s, a, n);
        GrantMoves(s, e, s2, n, a);
      } else {
        GrantMoves(s, e, s2, n, e.a);
        assert Granted(s2, e.a, n);
      }
    }
    forall a: nat, b: nat, n: nat | Granted(s2, a, n) && Granted(s2, b, n) ensures a == b {
      GrantMoves(s, e, s2, n, a);
      GrantMoves(s, e, s2, n, b);
    }
    forall a: nat, n: nat | Granted(s2, a, n) ensures n < s2.inserts { GrantMoves(s, e, s2, n, a); }
  }

  lemma RowMoves(s: State, e: Event, s2: State)
    requires Apply(s, e) == Some(s2)
    ensures s2.row.Some? ==>
      (s.row.Some? && s2.row.value.serial == s.row.value.serial) || (s.row.None? && e.Create? && s2.row.value.serial == s.inserts)
    ensures s2.reclaimed == s.reclaimed
      || (s.row.Some? && s2.row.None? && s2.reclaimed == s.reclaimed + [s.row.value.serial])
  {
  }

  /** Every insert of a reservation grants exactly one execution, and each reservation is
      reclaimed at most once, in every interleaving. */
  lemma {:induction false} OneExecutionPerInsert(states: seq<State>, events: seq<Event>, i: nat)
    requires IsRun(states, events) && i < |states|
    ensures GrantsOk(states[i])
  {
    if i > 0 {
      OneExecutionPerInsert(states, events, i - 1);
      GrantsKept(states[i - 1], events[i - 1], states[i]);
    }
  }

  // ---- owners that finish in time ------------------------------------------------------------------------

  /** Every owner is still within the in-flight time to live. */
  ghost predicate Timely(s: State) {
    forall a | a in s.agents && Owner(s.agents[a]) :: s.now - s.agents[a].since <= s.ttl
  }

  predicate Holds(row: Option<Row>, g: Agent)
    requires Owner(g)
  {
    && row.Some? && row.value.serial == g.serial && row.value.createdAt == g.since
    && row.value.response.None? && row.value.completedAt.None?
  }

  /** Whoever executes holds the row; a completed row carries the response of its execution. */
  ghost predicate OwnersOk(s: State) {
    && (forall a | a in s.agents && Owner(s.agents[a]) :: Holds(s.row, s.agents[a]))
    && (s.row.Some? && s.row.value.completedAt.Some? ==> exists a: nat :: CompletedBy(s, a))
  }

  predicate CompletedBy(s: State, a: nat)
    requires s.row.Some?
  {
    && a in s.agents && s.agents[a].Finished? && s.agents[a].grant == Some(s.row.value.serial)
    && s.agents[a].end.Done? && s.row.value.response == Some((s.agents[a].end.body, s.agents[a].end.status))
  }

  lemma SoleOwner(s: State, a: nat, b: nat)
    requires GrantsOk(s) && OwnersOk(s) && a in s.agents && b in s.agents && Owner(s.agents[a]) && Owner(s.agents[b])
    ensures a == b
  {
    assert Granted(s, a, s.agents[a].serial) && Granted(s, b, s.agents[a].serial);
  }

  lemma OwnersKept(s: State, e: Event, s2: State)
    requires GrantsOk(s) && OwnersOk(s) && Timely(s) && Apply(s, e) == Some(s2)
    ensures OwnersOk(s2)
  {
    forall b | b in s2.agents && Owner(s2.agents[b]) ensures Holds(s2.row, s2.agents[b]) {
      OwnerKept(s, e, s2, b);
    }
    if s2.row.Some? && s2.row.value.completedAt.Some? {
      if e.Complete? && s2.agents[e.a].Finished? {
        assert Granted(s, e.a, s.agents[e.a].serial);
        assert CompletedBy(s2, e.a);
      } else {
        var b: nat :| CompletedBy(s, b);
        assert CompletedBy(s2, b);
      }
    }
  }

  lemma OwnerKept(s: State, e: Event, s2: State, b: nat)
    requires GrantsOk(s) && OwnersOk(s) && Timely(s) && Apply(s, e) == Some(s2)
    requires b in s2.agents && Owner(s2.agents[b])
    ensures Holds(s2.row, s2.agents[b])
  {
    if b in s.agents && Owner(s.agents[b]) {
      assert Holds(s.row, s.agents[b]);
      if e.Complete? || e.Release? { SoleOwner(s, b, e.a); }
    }
  }

  ghost predicate TimelyRun(states: seq<State>, events: seq<Event>) {
    IsRun(states, events) && forall i | 0 <= i < |states| :: Timely(states[i])
  }

  lemma {:induction false} TimelyRunOk(states: seq<State>, events: seq<Event>, i: nat)
    requires TimelyRun(states, events) && i < |states|
    ensures GrantsOk(states[i]) && OwnersOk(states[i])
  {
    OneExecutionPerInsert(states, events, i);
    if i > 0 {
      TimelyRunOk(states, events, i - 1);
      OwnersKept(states[i - 1], events[i - 1], states[i]);
    }
  }

  /** If every owner finishes within the time to live, executions never overlap. */
  lemma NoOverlap(states: seq<State>, events: seq<Event>, i: nat, a: nat, b: nat)
    requires TimelyRun(states, events) && i < |states|
    requires a in states[i].agents && b in states[i].agents && Owner(states[i].agents[a]) && Owner(states[i].agents[b])
    ensures a == b
  {
    TimelyRunOk(states, events, i);
    SoleOwner(states[i], a, b);
  }

  /** a still executes and holds its row, past the time to live. */
  predicate Overrun(s: State, a: nat) {
    a in s.agents && Owner(s.agents[a]) && Holds(s.row, s.agents[a]) && s.now - s.agents[a].since > s.ttl
  }

  /** Two executions at once: every run that reaches an owner past the time to live, still holding
      its row, goes on to a retry that executes beside it. */
  lemma OverrunOverlaps(states: seq<State>, events: seq<Event>, a: nat, b: nat) returns (states2: seq<State>, events2: seq<Event>)
    requires IsRun(states, events)
    requires Overrun(states[|events|], a) && b !in states[|events|].agents
    ensures IsRun(states2, events2) && |events2| == |events| + 5 && states2[..|states|] == states
    ensures var s := states2[|events2|]; a in s.agents && b in s.agents && Owner(s.agents[a]) && Owner(s.agents[b])
  {
    var s0 := states[|events|];
    var request := s0.row.value.request;
    var s1 := With(s0, b, Creating(request, true));
    var s2 := CreateStep(s1, b, s1.agents[b]);
    var s3 := ReadStep(s2, b, s2.agents[b]);
    var s4 := ReclaimStep(s3, b, s3.agents[b]);
    var s5 := CreateStep(s4, b, s4.agents[b]);
    var more, last := [s1, s2, s3, s4, s5], [Arrive(b, request), Create(b), Read(b), Reclaim(b), Create(b)];
    states2, events2 := states + more, events + last;
    forall i | 0 <= i < |events2| ensures Apply(states2[i], events2[i]) == Some(states2[i + 1]) {
      if i >= |events| {
        var k := i - |events|;
        assert states2[i] == ([s0] + more)[k] && states2[i + 1] == more[k] && events2[i] == last[k];
        assert k == 0 || k == 1 || k == 2 || k == 3 || k == 4;
      }
    }
  }

  /** Such an owner is reached in three steps: a request arrives, reserves, and time passes. */
  lemma OverrunHappens(request: Request, ttl: nat) returns (states: seq<State>, events: seq<Event>)
    ensures IsRun(states, events) && |events| == 3
    ensures states[3].ttl == ttl && Overrun(states[3], 0)
  {
    var s0 := State(ttl, 0, None, 0, [], map[]);
    var s1 := With(s0, 0, Creating(request, true));
    var s2 := CreateStep(s1, 0, s1.agents[0]);
    var s3 := s2.(now := ttl + 1);
    states, events := [s0, s1, s2, s3], [Arrive(0, request), Create(0), Tick(ttl + 1)];
  }

  lemma CompletedRowStays(s: State, e: Event, s2: State)
    requires GrantsOk(s) && OwnersOk(s) && Timely(s) && Apply(s, e) == Some(s2)
    requires s.row.Some? && s.row.value.completedAt.Some? && !(e.Purge? && s.row.value.completedAt.value < e.threshold)
    ensures s2.row == s.row && s2.inserts == s.inserts
  {
    NobodyOwnsCompleted(s);
  }

  lemma NobodyOwnsCompleted(s: State)
    requires OwnersOk(s) && s.row.Some? && s.row.value.completedAt.Some?
    ensures forall a | a in s.agents :: !Owner(s.agents[a])
  {
  }

  /** After a completed execution nothing executes again, and the row keeps its response,
      until a purge removes it. */
  lemma {:induction false} CompletedUntilPurge(states: seq<State>, events: seq<Event>, i: nat, j: nat)
    requires TimelyRun(states, events) && i <= j < |states|
    requires states[i].row.Some? && states[i].row.value.completedAt.Some?
    requires forall k | i <= k < j && events[k].Purge? :: events[k].threshold <= states[i].row.value.completedAt.value
    ensures states[j].row == states[i].row && states[j].inserts == states[i].inserts
    decreases j - i
  {
    if i < j {
      CompletedUntilPurge(states, events, i, j - 1);
      TimelyRunOk(states, events, j - 1);
      CompletedRowStays(states[j - 1], events[j - 1], states[j]);
    }
  }

  /** A request that looks at a completed row gets the response of the execution that wrote it,
      exactly when it is the same request and the response is not null, and is refused exactly
      when it is another request. */
  lemma ReplaysResponse(states: seq<State>, events: seq<Event>, i: nat, a: nat) returns (owner: nat)
    requires TimelyRun(states, events) && i < |events| && events[i] == Read(a)
    requires states[i].row.Some? && states[i].row.value.completedAt.Some?
    ensures a in states[i].agents && states[i].agents[a].Resolving?
    ensures owner in states[i].agents && states[i].agents[owner].Finished? && states[i].agents[owner].end.Done?
    ensures var end := states[i].agents[owner].end;
      states[i + 1].agents[a] == Finished(Answered(Replay(end.body, end.status)), None)
      <==> states[i].agents[a].request == states[i].row.value.request && !end.body.Null?
    ensures states[i + 1].agents[a] == Finished(Answered(Mismatch), None) <==> states[i].agents[a].request != states[i].row.value.request
  {
    TimelyRunOk(states, events, i);
    owner :| CompletedBy(states[i], owner);
    assert Apply(states[i], events[i]) == Some(states[i + 1]);
  }

  /** A handler that returns null leaves a row no request can ever replay: until it is purged,
      every retry is told that the request is still in progress. */
  lemma NullNeverReplays(row: Row, request: Request, now: Time, ttl: Time)
    requires row.response.Some? && row.response.value.0.Null? && row.completedAt.Some? && row.request == request
    ensures Answer(Some(row), request, now, ttl) == InProgress
  {
  }

  // ---- every request comes to an end --------------------------------------------------------------------

  function StepsLeft(g: Agent): nat {
    match g
    case Creating(_, reclaim) => if reclaim then 7 else 4
    case Resolving(_, reclaim) => if reclaim then 6 else 1
    case Reclaiming(_) => 5
    case Running(_, _) => 3
    case Completing(_, _, _, _) => 2
    case Releasing(_, _) => 1
    case Finished(_, _) => 0
  }

  predicate Acts(e: Event, a: nat) {
    !e.Tick? && !e.Purge? && !e.Arrive? && e.a == a
  }

  /** Reserving and resolving in turns ends: each step of a request brings it closer to its
      end, and nobody else's step touches it. */
  lemma EachStepProgresses(s: State, e: Event, s2: State, a: nat)
    requires Apply(s, e) == Some(s2) && a in s.agents
    ensures a in s2.agents
    ensures if Acts(e, a) then StepsLeft(s2.agents[a]) < StepsLeft(s.agents[a]) else s2.agents[a] == s.agents[a]
  {
  }
}
