/** Refresh-token rotation with reuse detection (src/auth/refresh-token.service.ts), each
method one atomic step. */
module RefreshTokens {
  import opened Options

  type Id = nat
  type Time = int

  datatype Status = Active | Consumed | Revoked

  datatype Token = Token(user: Id, family: Id, status: Status, expiresAt: Time, replacedBy: Option<Id>)

  type Tokens = map<Id, Token>

  // ---- what each method does to the table ----------------------------------------------------

  datatype Rotation = Rotated | Invalid | Reuse

  function RotationOf(tokens: Tokens, jti: Id, user: Id): Rotation {
    if jti !in tokens || tokens[jti].user != user || tokens[jti].status.Revoked? then Invalid
    else if tokens[jti].status.Consumed? then Reuse
    else Rotated
  }

  function RevokeFamily(tokens: Tokens, family: Id): Tokens {
    map t | t in tokens :: if tokens[t].family == family then tokens[t].(status := Revoked) else tokens[t]
  }

  function RevokeUser(tokens: Tokens, user: Id): Tokens {
    map t | t in tokens :: if tokens[t].user == user then tokens[t].(status := Revoked) else tokens[t]
  }

  function Unexpired(tokens: Tokens, now: Time): Tokens {
    map t | t in tokens && !(tokens[t].expiresAt < now) :: tokens[t]
  }

  function Successor(tokens: Tokens, jti: Id, next: Id, expiresAt: Time): Tokens
    requires jti in tokens
  {
    tokens[jti := tokens[jti].(status := Consumed, replacedBy := Some(next))]
          [next := Token(tokens[jti].user, tokens[jti].family, Active, expiresAt, None)]
  }

  function AfterRotate(tokens: Tokens, jti: Id, user: Id, next: Id, expiresAt: Time): Tokens {
    match RotationOf(tokens, jti, user)
    case Invalid => tokens
    case Reuse => RevokeFamily(tokens, tokens[jti].family)
    case Rotated => Successor(tokens, jti, next, expiresAt)
  }

  // ---- histories -----------------------------------------------------------------------------------

  datatype Event =
    | Issue(jti: Id, family: Id, user: Id, expiresAt: Time)
    | Rotate(jti: Id, user: Id, next: Id, expiresAt: Time)
    | RevokeByJti(jti: Id)
    | RevokeAll(user: Id)
    | Purge(now: Time)

  /** The table, and beside it what was ever issued: each family's tokens in order of issue,
      and the user each family was issued to. */
  datatype State = State(tokens: Tokens, chains: map<Id, seq<Id>>, users: map<Id, Id>)

  predicate Used(s: State, id: Id) { exists f :: f in s.chains && id in s.chains[f] }

  function TokensAfter(tokens: Tokens, e: Event): Tokens {
    match e
    case Issue(jti, family, user, expiresAt) => tokens[jti := Token(user, family, Active, expiresAt, None)]
    case Rotate(jti, user, next, expiresAt) => AfterRotate(tokens, jti, user, next, expiresAt)
    case RevokeByJti(jti) => if jti in tokens then RevokeFamily(tokens, tokens[jti].family) else tokens
    case RevokeAll(user) => RevokeUser(tokens, user)
    case Purge(now) => Unexpired(tokens, now)
  }

  /** Drawn ids are new. */
  ghost predicate Steps(s: State, e: Event, s2: State) {
    && s2.tokens == TokensAfter(s.tokens, e)
    && match e
       case Issue(jti, family, user, _) =>
         && !Used(s, jti) && family !in s.chains
         && s2.chains == s.chains[family := [jti]] && s2.users == s.users[family := user]
       case Rotate(jti, user, next, _) =>
         && !Used(s, next) && s2.users == s.users
         && s2.chains == (if RotationOf(s.tokens, jti, user).Rotated? && s.tokens[jti].family in s.chains
                          then s.chains[s.tokens[jti].family := s.chains[s.tokens[jti].family] + [next]] else s.chains)
       case _ => s2.chains == s.chains && s2.users == s.users
  }

  ghost predicate IsHistory(states: seq<State>, events: seq<Event>) {
    && |states| == |events| + 1 && states[0] == State(map[], map[], map[])
    && forall i | 0 <= i < |events| :: Steps(states[i], events[i], states[i + 1])
  }

  // ---- every family is a chain --------------------------------------------------------------------

  predicate ChainsOk(chains: map<Id, seq<Id>>) {
    forall f, g, i, j | f in chains && g in chains && 0 <= i < |chains[f]| && 0 <= j < |chains[g]| && chains[f][i] == chains[g][j] ::
      f == g && i == j
  }

  /** A stored token sits at place i of its family's chain: its successor is the next one, it
      is consumed only if it has one, and only the last of the chain may be active. */
  predicate Sits(s: State, t: Id, i: nat)
    requires t in s.tokens
  {
    var row := s.tokens[t];
    && row.family in s.chains && row.family in s.users && row.user == s.users[row.family]
    && i < |s.chains[row.family]| && s.chains[row.family][i] == t
    && row.replacedBy == (if i + 1 < |s.chains[row.family]| then Some(s.chains[row.family][i + 1]) else None)
    && (row.status.Active? ==> i + 1 == |s.chains[row.family]|)
    && (row.status.Consumed? ==> i + 1 < |s.chains[row.family]|)
  }

  ghost predicate Linear(s: State) {
    ChainsOk(s.chains) && forall t | t in s.tokens :: exists i: nat :: Sits(s, t, i)
  }

  lemma ChainsGrow(chains: map<Id, seq<Id>>, f: Id, next: Id)
    requires ChainsOk(chains) && !(exists g :: g in chains && next in chains[g])
    ensures ChainsOk(chains[f := (if f in chains then chains[f] else []) + [next]])
  {
  }

  lemma IssueKeepsLinear(s: State, e: Event, s2: State)
    requires Linear(s) && e.Issue? && Steps(s, e, s2)
    ensures Linear(s2)
  {
    ChainsGrow(s.chains, e.family, e.jti);
    assert [] + [e.jti] == [e.jti];
    forall t | t in s2.tokens ensures exists i: nat :: Sits(s2, t, i) {
      if t == e.jti {
        assert Sits(s2, t, 0);
      } else {
        var i: nat :| Sits(s, t, i);
        assert Sits(s2, t, i);
      }
    }
  }

  lemma RotateKeepsLinear(s: State, e: Event, s2: State)
    requires Linear(s) && e.Rotate? && RotationOf(s.tokens, e.jti, e.user).Rotated? && Steps(s, e, s2)
    ensures Linear(s2)
  {
    var f := s.tokens[e.jti].family;
    var last: nat :| Sits(s, e.jti, last);
    ChainsGrow(s.chains, f, e.next);
    assert s.chains[f][last] == e.jti;
    assert e.next != e.jti;
    forall t | t in s2.tokens ensures exists i: nat :: Sits(s2, t, i) {
      if t == e.next {
        assert Sits(s2, t, |s.chains[f]|);
      } else {
        var i: nat :| Sits(s, t, i);
        assert t != e.jti && s.tokens[t].family == f ==> i != last;
        assert Sits(s2, t, i);
      }
    }
  }

  lemma RestKeepsLinear(s: State, e: Event, s2: State)
    requires Linear(s) && Steps(s, e, s2) && !e.Issue?
    requires e.Rotate? ==> !RotationOf(s.tokens, e.jti, e.user).Rotated?
    ensures Linear(s2)
  {
    forall t | t in s2.tokens ensures exists i: nat :: Sits(s2, t, i) {
      var i: nat :| Sits(s, t, i);
      assert Sits(s2, t, i);
    }
  }

  /** In every history each family is a single chain in which only the last token may be active. */
  lemma {:induction false} FamiliesAreChains(states: seq<State>, events: seq<Event>, i: nat)
    requires IsHistory(states, events) && i < |states|
    ensures Linear(states[i])
  {
    if i > 0 {
      FamiliesAreChains(states, events, i - 1);
      assert Steps(states[i - 1], events[i - 1], states[i]);
      StepKeepsLinear(states[i - 1], events[i - 1], states[i]);
    }
  }

  /** So a family never has two active tokens, and no token succeeds two others. */
  lemma OneActivePerFamily(s: State, t: Id, u: Id)
    requires Linear(s) && t in s.tokens && u in s.tokens && s.tokens[t].family == s.tokens[u].family
    ensures s.tokens[t].status.Active? && s.tokens[u].status.Active? ==> t == u
    ensures s.tokens[t].replacedBy.Some? && s.tokens[t].replacedBy == s.tokens[u].replacedBy ==> t == u
  {
    var i: nat :| Sits(s, t, i);
    var j: nat :| Sits(s, u, j);
    assert s.tokens[t].replacedBy.Some? && s.tokens[t].replacedBy == s.tokens[u].replacedBy ==> i + 1 == j + 1;
  }

  // ---- a revoked family stays revoked -----------------------------------------------------------------

  /** Replay of a consumed token, logout of one device, or logout of all. */
  ghost predicate Revokes(s: State, e: Event, f: Id) {
    match e
    case Rotate(jti, user, _, _) =>
      jti in s.tokens && s.tokens[jti].user == user && s.tokens[jti].status.Consumed? && s.tokens[jti].family == f
    case RevokeByJti(jti) => jti in s.tokens && s.tokens[jti].family == f
    case RevokeAll(user) => exists t :: t in s.tokens && s.tokens[t].family == f && s.tokens[t].user == user
    case _ => false
  }

  /** The family was issued, and none of its tokens is active. */
  predicate Dead(s: State, f: Id) {
    f in s.chains && forall t | t in s.tokens && s.tokens[t].family == f :: !s.tokens[t].status.Active?
  }

  lemma FamilyHasOneUser(s: State, t: Id, u: Id)
    requires Linear(s) && t in s.tokens && u in s.tokens && s.tokens[t].family == s.tokens[u].family
    ensures s.tokens[t].user == s.tokens[u].user && s.tokens[t].family in s.chains
  {
    var i: nat :| Sits(s, t, i);
    var j: nat :| Sits(s, u, j);
  }

  lemma RevocationKills(s: State, e: Event, s2: State, f: Id)
    requires Linear(s) && Steps(s, e, s2) && Revokes(s, e, f)
    ensures Dead(s2, f)
  {
    var t :| t in s.tokens && s.tokens[t].family == f && (e.RevokeAll? ==> s.tokens[t].user == e.user);
    FamilyHasOneUser(s, t, t);
    forall u | u in s2.tokens && s2.tokens[u].family == f ensures !s2.tokens[u].status.Active? {
      FamilyHasOneUser(s, t, u);
    }
  }

  lemma DeadStaysDead(s: State, e: Event, s2: State, f: Id)
    requires Steps(s, e, s2) && Dead(s, f)
    ensures Dead(s2, f)
  {
  }

  lemma {:induction false} DeadForever(states: seq<State>, events: seq<Event>, i: nat, j: nat, f: Id)
    requires IsHistory(states, events) && i <= j < |states| && Dead(states[i], f)
    ensures Dead(states[j], f)
    decreases j - i
  {
    if i < j {
      DeadForever(states, events, i, j - 1, f);
      assert Steps(states[j - 1], events[j - 1], states[j]);
      DeadStaysDead(states[j - 1], events[j - 1], states[j], f);
    }
  }

  /** Once a consumed token is replayed or a family revoked, no token of that family ever
      rotates again, whatever is purged or issued in between. */
  lemma NoRotationAfterRevocation(states: seq<State>, events: seq<Event>, i: nat, j: nat, f: Id)
    requires IsHistory(states, events) && i < j < |events| && Revokes(states[i], events[i], f)
    requires events[j].Rotate? && events[j].jti in states[j].tokens && states[j].tokens[events[j].jti].family == f
    ensures !RotationOf(states[j].tokens, events[j].jti, events[j].user).Rotated?
    ensures Dead(states[j + 1], f)
  {
    FamiliesAreChains(states, events, i);
    assert Steps(states[i], events[i], states[i + 1]);
    RevocationKills(states[i], events[i], states[i + 1], f);
    DeadForever(states, events, i + 1, j, f);
    DeadForever(states, events, i + 1, j + 1, f);
  }

  // ---- the service ----------------------------------------------------------------------------------

  /** t is the family's one active token. */
  predicate SoleActive(s: State, f: Id, t: Id) {
    && t in s.tokens && s.tokens[t].family == f && s.tokens[t].status.Active?
    && forall u | u in s.tokens && s.tokens[u].family == f && s.tokens[u].status.Active? :: u == t
  }

  lemma ActiveIsSole(s: State, t: Id)
    requires Linear(s) && t in s.tokens && s.tokens[t].status.Active?
    ensures SoleActive(s, s.tokens[t].family, t)
  {
    forall u | u in s.tokens && s.tokens[u].family == s.tokens[t].family && s.tokens[u].status.Active? ensures u == t {
      OneActivePerFamily(s, t, u);
    }
  }

  lemma StepKeepsLinear(s: State, e: Event, s2: State)
    requires Linear(s) && Steps(s, e, s2)
    ensures Linear(s2)
  {
    hide Linear, Steps;
    if e.Issue? {
      IssueKeepsLinear(s, e, s2);
    } else if e.Rotate? && RotationOf(s.tokens, e.jti, e.user).Rotated? {
      RotateKeepsLinear(s, e, s2);
    } else {
      RestKeepsLinear(s, e, s2);
    }
  }

  lemma RefusalSteps(s: State, jti: Id, user: Id, next: Id, expiresAt: Time)
    requires Linear(s) && !Used(s, next)
    requires jti !in s.tokens || s.tokens[jti].user != user || s.tokens[jti].status.Revoked?
    ensures Steps(s, Event.Rotate(jti, user, next, expiresAt), s)
  {
  }

  lemma ReplaySteps(s: State, jti: Id, user: Id, next: Id, expiresAt: Time)
    requires Linear(s) && !Used(s, next) && jti in s.tokens && s.tokens[jti].user == user && s.tokens[jti].status.Consumed?
    ensures var s2 := s.(tokens := RevokeFamily(s.tokens, s.tokens[jti].family));
      Linear(s2) && Steps(s, Event.Rotate(jti, user, next, expiresAt), s2) && Dead(s2, s.tokens[jti].family)
  {
    var s2, e := s.(tokens := RevokeFamily(s.tokens, s.tokens[jti].family)), Event.Rotate(jti, user, next, expiresAt);
    assert Steps(s, e, s2);
    hide Linear, Steps, Dead;
    StepKeepsLinear(s, e, s2);
    RevocationKills(s, e, s2, s.tokens[jti].family);
  }

  lemma SuccessSteps(s: State, jti: Id, user: Id, next: Id, expiresAt: Time)
    requires Linear(s) && !Used(s, next) && jti in s.tokens && s.tokens[jti].user == user && s.tokens[jti].status.Active?
    ensures var f := s.tokens[jti].family;
      && f in s.chains && next !in s.tokens && SoleActive(s, f, jti) && !Dead(s, f)
      && var s2 := State(Successor(s.tokens, jti, next, expiresAt), s.chains[f := s.chains[f] + [next]], s.users);
         Linear(s2) && Steps(s, Event.Rotate(jti, user, next, expiresAt), s2) && SoleActive(s2, f, next)
  {
    var f := s.tokens[jti].family;
    var i: nat :| Sits(s, jti, i);
    assert forall t | t in s.tokens :: Used(s, t) by {
      forall t | t in s.tokens ensures Used(s, t) { var j: nat :| Sits(s, t, j); }
    }
    var s2, e := State(Successor(s.tokens, jti, next, expiresAt), s.chains[f := s.chains[f] + [next]], s.users), Event.Rotate(jti, user, next, expiresAt);
    assert Steps(s, e, s2);
    hide Linear, Steps, Used;
    ActiveIsSole(s, jti);
    StepKeepsLinear(s, e, s2);
    ActiveIsSole(s2, next);
  }

  lemma PurgeKeeps(s: State, now: Time)
    requires Linear(s)
    ensures var s2 := s.(tokens := Unexpired(s.tokens, now));
      Steps(s, Purge(now), s2) && Linear(s2) && forall f | f in s.chains && Dead(s, f) :: Dead(s2, f)
  {
    hide Linear, Dead;
    var s2 := s.(tokens := Unexpired(s.tokens, now));
    StepKeepsLinear(s, Purge(now), s2);
    forall f | f in s.chains && Dead(s, f) ensures Dead(s2, f) { DeadStaysDead(s, Purge(now), s2, f); }
  }

  /** The table as the service updates it, with the history that makes every family a chain.
      `jti`, `family` and `next` are freshly drawn UUIDs. */
  class RefreshTokenService {
    var tokens: Tokens
    ghost var chains: map<Id, seq<Id>>
    ghost var users: map<Id, Id>

    ghost function Now(): State
      reads this
    {
      State(tokens, chains, users)
    }

    ghost predicate Valid()
      reads this
    {
      Linear(Now())
    }

    constructor ()
      ensures Valid() && Now() == State(map[], map[], map[])
    {
      tokens, chains, users := map[], map[], map[];
    }

    /** A new family whose one active token is jti. */
    method Issue(jti: Id, family: Id, user: Id, expiresAt: Time)
      requires Valid() && !Used(Now(), jti) && family !in chains
      modifies this
      ensures Valid() && Steps(old(Now()), Event.Issue(jti, family, user, expiresAt), Now())
      ensures SoleActive(Now(), family, jti) && tokens[jti].user == user && tokens[jti].expiresAt == expiresAt
      ensures forall t | t in old(tokens) :: t in tokens && tokens[t] == old(tokens)[t]
    {
      ghost var before := Now();
      tokens := tokens[jti := Token(user, family, Active, expiresAt, None)];
      chains, users := chains[family := [jti]], users[family := user];
      StepKeepsLinear(before, Event.Issue(jti, family, user, expiresAt), Now());
      ActiveIsSole(Now(), jti);
    }

    /** Rotation hands the family's activity on to `next`; a replayed token kills its family; a
        dead family never rotates. */
    method Rotate(jti: Id, user: Id, next: Id, expiresAt: Time) returns (r: Rotation)
      requires Valid() && !Used(Now(), next)
      modifies this
      ensures Valid() && Steps(old(Now()), Event.Rotate(jti, user, next, expiresAt), Now())
      ensures r.Reuse? <==> jti in old(tokens) && old(tokens)[jti].user == user && old(tokens)[jti].status.Consumed?
      ensures r.Rotated? <==> jti in old(tokens) && old(tokens)[jti].user == user && old(tokens)[jti].status.Active?
      ensures r.Reuse? ==> forall t | t in old(tokens) && old(tokens)[t].family == old(tokens)[jti].family ::
                t in tokens && tokens[t].status.Revoked?
      ensures r.Reuse? ==> forall t | t in old(tokens) && old(tokens)[t].family != old(tokens)[jti].family ::
                t in tokens && tokens[t] == old(tokens)[t]
      ensures r.Rotated? ==> next in tokens && tokens[next].expiresAt == expiresAt && tokens[next].user == user
      ensures r.Rotated? ==> jti in tokens && tokens[jti].status.Consumed? && tokens[jti].replacedBy == Some(next)
      ensures r.Rotated? ==> forall t | t in old(tokens) && t != jti :: t in tokens && tokens[t] == old(tokens)[t]
      ensures r.Rotated? ==> jti in old(tokens) && SoleActive(old(Now()), old(tokens)[jti].family, jti)
      ensures r.Rotated? ==> SoleActive(Now(), old(tokens)[jti].family, next)
      ensures r.Reuse? ==> jti in old(tokens) && Dead(Now(), old(tokens)[jti].family)
      ensures r.Invalid? ==> Now() == old(Now())
      ensures jti in old(tokens) && Dead(old(Now()), old(tokens)[jti].family) ==> !r.Rotated?
    {
      hide Linear, Steps, Dead, Sits, SoleActive, Used;
      ghost var before := Now();
      if jti !in tokens || tokens[jti].user != user || tokens[jti].status.Revoked? {
        RefusalSteps(before, jti, user, next, expiresAt);
        return Invalid;
      }
      var family := tokens[jti].family;
      if tokens[jti].status.Consumed? {
        RevokeWhereFamily(family);
        ReplaySteps(before, jti, user, next, expiresAt);
        return Reuse;
      }
      SuccessSteps(before, jti, user, next, expiresAt);
      tokens := tokens[jti := tokens[jti].(status := Consumed, replacedBy := Some(next))];
      tokens := tokens[next := Token(user, family, Active, expiresAt, None)];
      chains := chains[family := chains[family] + [next]];
      return Rotated;
    }

    /** updateMany where familyId */
    method RevokeWhereFamily(family: Id)
      modifies this
      ensures tokens == RevokeFamily(old(tokens), family) && chains == old(chains) && users == old(users)
    {
      tokens := map t | t in tokens :: if tokens[t].family == family then tokens[t].(status := Revoked) else tokens[t];
    }

    /** Logout of one device kills the family of a known token. */
    method RevokeFamilyByJti(jti: Id)
      requires Valid()
      modifies this
      ensures Valid() && Steps(old(Now()), RevokeByJti(jti), Now())
      ensures jti in old(tokens) ==> Dead(Now(), old(tokens)[jti].family)
      ensures forall t | t in old(tokens) ::
                t in tokens && (if jti in old(tokens) && old(tokens)[t].family == old(tokens)[jti].family
                                then tokens[t].status.Revoked? else tokens[t] == old(tokens)[t])
    {
      ghost var before := Now();
      if jti in tokens { RevokeWhereFamily(tokens[jti].family); }
      StepKeepsLinear(before, RevokeByJti(jti), Now());
      if jti in before.tokens { RevocationKills(before, RevokeByJti(jti), Now(), before.tokens[jti].family); }
    }

    /** Logout everywhere kills every family in which the user has a token. */
    method RevokeAllForUser(user: Id)
      requires Valid()
      modifies this
      ensures Valid() && Steps(old(Now()), RevokeAll(user), Now())
      ensures forall t | t in old(tokens) && old(tokens)[t].user == user :: Dead(Now(), old(tokens)[t].family)
      ensures forall t | t in old(tokens) ::
                t in tokens && (if old(tokens)[t].user == user then tokens[t].status.Revoked? else tokens[t] == old(tokens)[t])
    {
      ghost var before := Now();
      tokens := map t | t in tokens :: if tokens[t].user == user then tokens[t].(status := Revoked) else tokens[t];
      StepKeepsLinear(before, RevokeAll(user), Now());
      forall t | t in before.tokens && before.tokens[t].user == user ensures Dead(Now(), before.tokens[t].family) {
        RevocationKills(before, RevokeAll(user), Now(), before.tokens[t].family);
      }
    }

    /** Purging brings no family back to life and counts what it removed. */
    method PurgeExpired(now: Time) returns (count: nat)
      requires Valid()
      modifies this
      ensures Valid() && Steps(old(Now()), Purge(now), Now())
      ensures forall f | f in chains && Dead(old(Now()), f) :: Dead(Now(), f)
      ensures forall t :: t in tokens <==> t in old(tokens) && now <= old(tokens)[t].expiresAt
      ensures forall t | t in tokens :: tokens[t] == old(tokens)[t]
      ensures count == |old(tokens).Keys - tokens.Keys|
    {
      hide Linear, Dead, Steps;
      ghost var before := Now();
      var kept := map t | t in tokens && !(tokens[t].expiresAt < now) :: tokens[t];
      count := |tokens.Keys - kept.Keys|;
      assert kept == Unexpired(tokens, now);
      tokens := kept;
      PurgeKeeps(before, now);
    }
  }
}
