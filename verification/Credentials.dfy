/** The provider credential pool: lanes, quota scopes, reservations and cooldowns. */
module Credentials {
  import opened Wrappers

  type LaneId = nat

  datatype Health = Unknown | Available | Degraded | RateLimited | AuthFailed | Disabled | QuotaExhausted

  datatype Scope = Scope(name: string)

  /** `known` is a quota scope confidence other than UNKNOWN. */
  datatype Lane = Lane(provider: string, enabled: bool, hasKey: bool, scope: Option<Scope>, known: bool, limit: int,
                       health: Health, cooldown: Option<real>, tokens: Option<int>, tokensReset: Option<real>)

  datatype Reservation = Reservation(lane: LaneId, probe: bool, open: bool)

  datatype Pool = Pool(lanes: map<LaneId, Lane>, reservations: seq<Reservation>)

  datatype Which = All | WorkOnly

  predicate Counts(r: Reservation, which: Which, lanes: set<LaneId>) {
    r.open && r.lane in lanes && (which.All? || !r.probe)
  }

  /** Open reservations on the given lanes, with or without health probes. */
  function Open(rs: seq<Reservation>, which: Which, lanes: set<LaneId>): (n: nat) {
    if rs == [] then 0
    else Open(rs[..|rs| - 1], which, lanes) + if Counts(rs[|rs| - 1], which, lanes) then 1 else 0
  }

  /** All reservations a lane ever had. */
  function Used(rs: seq<Reservation>, l: LaneId): (n: nat) {
    if rs == [] then 0 else Used(rs[..|rs| - 1], l) + if rs[|rs| - 1].lane == l then 1 else 0
  }

  function LanesOf(lanes: map<LaneId, Lane>, scope: Scope): (ids: set<LaneId>) {
    set l | l in lanes && lanes[l].scope == Some(scope)
  }

  function ActiveScope(p: Pool, l: LaneId): (n: nat)
    requires l in p.lanes
  {
    if p.lanes[l].scope.None? then 0 else Open(p.reservations, All, LanesOf(p.lanes, p.lanes[l].scope.value))
  }

  /** The query and the filter of `reserve_provider_credential`. */
  predicate Grantable(p: Pool, provider: string, l: LaneId, now: real, estimate: int) {
    l in p.lanes
    && var lane := p.lanes[l];
       && lane.provider == provider && lane.enabled && lane.hasKey
       && !lane.health.AuthFailed? && !lane.health.Disabled? && !lane.health.QuotaExhausted?
       && (lane.cooldown.None? || lane.cooldown.value <= now)
       && Open(p.reservations, All, {l}) < lane.limit
       && (!lane.known || ActiveScope(p, l) < lane.limit)
       && (lane.tokens.None? || lane.tokens.value >= estimate || (lane.tokensReset.Some? && lane.tokensReset.value <= now))
  }

  function HealthRank(h: Health): (n: nat) {
    match h case Available => 0 case Unknown => 1 case _ => 2
  }

  /** `ORDER BY active, health, used, credential_id`. */
  predicate Before(p: Pool, a: LaneId, b: LaneId)
    requires a in p.lanes && b in p.lanes
  {
    var activeA, activeB := Open(p.reservations, All, {a}), Open(p.reservations, All, {b});
    var rankA, rankB := HealthRank(p.lanes[a].health), HealthRank(p.lanes[b].health);
    var usedA, usedB := Used(p.reservations, a), Used(p.reservations, b);
    || activeA < activeB
    || (activeA == activeB && (rankA < rankB || (rankA == rankB && (usedA < usedB || (usedA == usedB && a < b)))))
  }

  /**
   `a` is no worse than `b`: it has fewer open reservations, or as many and it answered last or was
   never asked while `b` failed last, or the same health and it was used less, or as often and it
   comes first.
   */
  predicate Preferred(p: Pool, a: LaneId, b: LaneId)
    requires a in p.lanes && b in p.lanes
  {
    var activeA, activeB := Open(p.reservations, All, {a}), Open(p.reservations, All, {b});
    var healthA, healthB := p.lanes[a].health, p.lanes[b].health;
    var usedA, usedB := Used(p.reservations, a), Used(p.reservations, b);
    && activeA <= activeB
    && (activeA == activeB && healthB.Available? ==> healthA.Available?)
    && (activeA == activeB && healthB.Unknown? ==> healthA.Available? || healthA.Unknown?)
    && (activeA == activeB && healthA == healthB ==> usedA <= usedB && (usedA == usedB ==> a <= b))
  }

  /** What the provider answered, as far as the pool looks at it. */
  datatype Answer = Answer(status: Option<nat>, retryAfter: Option<real>, tokens: Option<int>, resetIn: Option<real>)

  function HealthAfter(status: Option<nat>): (h: Health) {
    if status == Some(401) || status == Some(403) then AuthFailed
    else if status == Some(429) then RateLimited
    else if status.Some? && status.value >= 400 then Degraded
    else Available
  }

  function CooldownAfter(a: Answer, now: real): (c: Option<real>) {
    if a.retryAfter.Some? then Some(now + a.retryAfter.value)
    else if a.status == Some(429) then Some(now + 60.0)
    else None
  }

  /** A rate limit in a known scope reaches every enabled lane of that scope. */
  predicate Spreads(p: Pool, l: LaneId, a: Answer)
    requires l in p.lanes
  {
    p.lanes[l].scope.Some? && p.lanes[l].known && HealthAfter(a.status).RateLimited?
  }

  function LaneAfter(p: Pool, l: LaneId, a: Answer, now: real, x: LaneId): (lane: Lane)
    requires l in p.lanes && x in p.lanes
  {
    var own := if x != l then p.lanes[x]
               else p.lanes[x].(health := HealthAfter(a.status), cooldown := CooldownAfter(a, now), tokens := a.tokens,
                                tokensReset := if a.resetIn.Some? then Some(now + a.resetIn.value) else None);
    if Spreads(p, l, a) && own.scope == p.lanes[l].scope && own.enabled
    then own.(health := HealthAfter(a.status), cooldown := CooldownAfter(a, now)) else own
  }

  datatype Op =
    | Grant(provider: string, lane: LaneId, now: real, estimate: int)
    | Probe(lane: LaneId)
    | Reconcile(reservation: nat, answer: Answer, now: real)

  function Step(p: Pool, op: Op): (p': Pool) {
    match op
    case Grant(provider, l, now, estimate) =>
      if Grantable(p, provider, l, now, estimate) then p.(reservations := p.reservations + [Reservation(l, false, true)]) else p
    case Probe(l) =>
      if l in p.lanes && p.lanes[l].enabled then p.(reservations := p.reservations + [Reservation(l, true, true)]) else p
    case Reconcile(i, a, now) =>
      if i < |p.reservations| && p.reservations[i].lane in p.lanes then
        var l := p.reservations[i].lane;
        Pool(map x | x in p.lanes :: LaneAfter(p, l, a, now, x), p.reservations[i := p.reservations[i].(open := false)])
      else p
  }

  function Exec(p: Pool, ops: seq<Op>): (p': Pool) {
    if ops == [] then p else Step(Exec(p, ops[..|ops| - 1]), ops[|ops| - 1])
  }

  class Store {
    var pool: Pool

    constructor (lanes: map<LaneId, Lane>)
      ensures pool == Pool(lanes, [])
    {
      pool := Pool(lanes, []);
    }

    /** The first grantable lane in the order of the query is reserved, if there is one. */
    method ReserveProviderCredential(provider: string, now: real, estimate: int) returns (granted: Option<LaneId>)
      modifies this
      ensures granted.None? ==> pool == old(pool) && forall l :: !Grantable(old(pool), provider, l, now, estimate)
      ensures granted.Some? ==>
                && Grantable(old(pool), provider, granted.value, now, estimate)
                && pool == Step(old(pool), Grant(provider, granted.value, now, estimate))
                && forall l :: Grantable(old(pool), provider, l, now, estimate) ==> !Before(old(pool), l, granted.value)
      ensures granted.Some? ==>
                forall l :: Grantable(old(pool), provider, l, now, estimate) ==>
                  Preferred(old(pool), granted.value, l)
    {
      var left := pool.lanes.Keys;
      granted := None;
      while left != {}
        invariant left <= pool.lanes.Keys && pool == old(pool)
        invariant granted.None? ==> forall l :: l !in left ==> !Grantable(pool, provider, l, now, estimate)
        invariant granted.Some? ==>
                    && Grantable(pool, provider, granted.value, now, estimate)
                    && forall l :: l !in left && Grantable(pool, provider, l, now, estimate) ==>
                              !Before(pool, l, granted.value)
        decreases left
      {
        var l :| l in left;
        if Grantable(pool, provider, l, now, estimate) && (granted.None? || Before(pool, l, granted.value)) {
          granted := Some(l);
        }
        left := left - {l};
      }
      if granted.Some? {
        pool := pool.(reservations := pool.reservations + [Reservation(granted.value, false, true)]);
      }
    }

    method ReserveProbe(l: LaneId) returns (ok: bool)
      modifies this
      ensures ok == (l in old(pool).lanes && old(pool).lanes[l].enabled) && pool == Step(old(pool), Probe(l))
    {
      ok := l in pool.lanes && pool.lanes[l].enabled;
      if ok {
        pool := pool.(reservations := pool.reservations + [Reservation(l, true, true)]);
      }
    }

    method ReconcileProviderCredential(i: nat, a: Answer, now: real)
      modifies this
      ensures pool == Step(old(pool), Reconcile(i, a, now))
    {
      if i >= |pool.reservations| || pool.reservations[i].lane !in pool.lanes {
        return;
      }
      var l := pool.reservations[i].lane;
      ghost var before := pool;
      var health, cooldown := HealthAfter(a.status), CooldownAfter(a, now);
      var reset := if a.resetIn.Some? then Some(now + a.resetIn.value) else None;
      var spreads := Spreads(pool, l, a);
      pool := pool.(reservations := pool.reservations[i := pool.reservations[i].(open := false)]);
      pool := pool.(lanes := pool.lanes[l := pool.lanes[l].(health := health, cooldown := cooldown,
        tokens := a.tokens, tokensReset := reset)]);
      if spreads {
        var scope, lanes := pool.lanes[l].scope, pool.lanes;
        pool := pool.(lanes := map x | x in lanes ::
          if lanes[x].scope == scope && lanes[x].enabled then lanes[x].(health := health, cooldown := cooldown) else lanes[x]);
      }
      assert pool.lanes == Step(before, Reconcile(i, a, now)).lanes;
    }
  }

  lemma {:induction false} OpenSplits(rs: seq<Reservation>, which: Which, small: set<LaneId>, large: set<LaneId>)
    requires small <= large
    ensures Open(rs, which, small) <= Open(rs, which, large) && Open(rs, WorkOnly, large) <= Open(rs, All, large)
  {
    if rs != [] {
      OpenSplits(rs[..|rs| - 1], which, small, large);
    }
  }

  lemma OpenMore(rs: seq<Reservation>, r: Reservation, which: Which, lanes: set<LaneId>)
    ensures Open(rs + [r], which, lanes) == Open(rs, which, lanes) + if Counts(r, which, lanes) then 1 else 0
  {
    assert (rs + [r])[..|rs|] == rs;
  }

  lemma {:induction false} OpenClosed(rs: seq<Reservation>, i: nat, which: Which, lanes: set<LaneId>)
    requires i < |rs|
    ensures Open(rs[i := rs[i].(open := false)], which, lanes) <= Open(rs, which, lanes)
  {
    var after := rs[i := rs[i].(open := false)];
    if i == |rs| - 1 {
      assert after[..i] == rs[..i];
    } else {
      assert after[..|rs| - 1] == rs[..|rs| - 1][i := rs[i].(open := false)];
      OpenClosed(rs[..|rs| - 1], i, which, lanes);
    }
  }

  predicate LaneWithin(p: Pool, l: LaneId)
    requires l in p.lanes
  {
    Open(p.reservations, WorkOnly, {l}) == 0 || Open(p.reservations, WorkOnly, {l}) <= p.lanes[l].limit
  }

  /** A scope all of whose lanes are known stays within its largest lane limit. */
  predicate ScopeWithin(p: Pool, scope: Scope) {
    (forall l :: l in LanesOf(p.lanes, scope) ==> p.lanes[l].known) ==>
      || Open(p.reservations, WorkOnly, LanesOf(p.lanes, scope)) == 0
      || exists l :: l in LanesOf(p.lanes, scope) && Open(p.reservations, WorkOnly, LanesOf(p.lanes, scope)) <= p.lanes[l].limit
  }

  ghost predicate Within(p: Pool) {
    && (forall l {:trigger LaneWithin(p, l)} :: l in p.lanes ==> LaneWithin(p, l))
    && (forall scope {:trigger ScopeWithin(p, scope)} :: ScopeWithin(p, scope))
  }

  /** The part of a lane that configuration fixes. */
  predicate SameConfig(before: Pool, after: Pool) {
    && after.lanes.Keys == before.lanes.Keys
    && forall l :: l in before.lanes ==>
         && after.lanes[l].scope == before.lanes[l].scope && after.lanes[l].known == before.lanes[l].known
         && after.lanes[l].limit == before.lanes[l].limit && after.lanes[l].enabled == before.lanes[l].enabled
  }

  lemma StepKeepsLane(p: Pool, op: Op, l: LaneId)
    requires l in p.lanes && LaneWithin(p, l)
    ensures l in Step(p, op).lanes && LaneWithin(Step(p, op), l)
  {
    match op
    case Grant(_, x, _, _) =>
      OpenMore(p.reservations, Reservation(x, false, true), WorkOnly, {l});
      OpenSplits(p.reservations, WorkOnly, {l}, {l});
    case Probe(x) =>
      OpenMore(p.reservations, Reservation(x, true, true), WorkOnly, {l});
    case Reconcile(i, _, _) =>
      if i < |p.reservations| {
        OpenClosed(p.reservations, i, WorkOnly, {l});
      }
  }

  lemma ScopeKept(p: Pool, p': Pool, scope: Scope)
    requires SameConfig(p, p') && ScopeWithin(p, scope)
    requires Open(p'.reservations, WorkOnly, LanesOf(p.lanes, scope)) <= Open(p.reservations, WorkOnly, LanesOf(p.lanes, scope))
    ensures ScopeWithin(p', scope)
  {
    var ids := LanesOf(p.lanes, scope);
    assert LanesOf(p'.lanes, scope) == ids;
    if (forall l :: l in ids ==> p'.lanes[l].known) && Open(p'.reservations, WorkOnly, ids) > 0 {
      assert forall l :: l in ids ==> p.lanes[l].known;
      var l :| l in ids && Open(p.reservations, WorkOnly, ids) <= p.lanes[l].limit;
      assert p'.lanes[l].limit == p.lanes[l].limit;
    }
  }

  lemma GrantKeepsScope(p: Pool, op: Op, scope: Scope)
    requires ScopeWithin(p, scope) && op.Grant?
    ensures ScopeWithin(Step(p, op), scope)
  {
    var p', ids, x := Step(p, op), LanesOf(p.lanes, scope), op.lane;
    OpenMore(p.reservations, Reservation(x, false, true), WorkOnly, ids);
    if Grantable(p, op.provider, x, op.now, op.estimate) && x in ids {
      OpenSplits(p.reservations, WorkOnly, ids, ids);
      if p.lanes[x].known {
        assert Open(p'.reservations, WorkOnly, ids) <= p'.lanes[x].limit;
      }
    } else {
      ScopeKept(p, p', scope);
    }
  }

  lemma StepKeepsScope(p: Pool, op: Op, scope: Scope)
    requires ScopeWithin(p, scope)
    ensures ScopeWithin(Step(p, op), scope)
  {
    var p', ids := Step(p, op), LanesOf(p.lanes, scope);
    match op
    case Grant(_, _, _, _) => GrantKeepsScope(p, op, scope);
    case Probe(x) =>
      OpenMore(p.reservations, Reservation(x, true, true), WorkOnly, ids);
      ScopeKept(p, p', scope);
    case Reconcile(i, _, _) =>
      if i < |p.reservations| {
        OpenClosed(p.reservations, i, WorkOnly, ids);
      }
      ScopeKept(p, p', scope);
  }

  /** The pool is never oversubscribed, whatever the interleaving of grants, probes and reconciliations. */
  lemma {:induction false} NeverOversubscribed(lanes: map<LaneId, Lane>, ops: seq<Op>)
    ensures Within(Exec(Pool(lanes, []), ops))
  {
    if ops != [] {
      var init := ops[..|ops| - 1];
      NeverOversubscribed(lanes, init);
      var p := Exec(Pool(lanes, []), init);
      var p' := Step(p, ops[|ops| - 1]);
      forall l | l in p'.lanes
        ensures LaneWithin(p', l)
      {
        assert LaneWithin(p, l);
        StepKeepsLane(p, ops[|ops| - 1], l);
      }
      forall scope
        ensures ScopeWithin(p', scope)
      {
        assert ScopeWithin(p, scope);
        StepKeepsScope(p, ops[|ops| - 1], scope);
      }
    }
  }

  /** Only an answer on the lane itself, or a rate limit spreading in its scope, touches a lane's cooldown. */
  predicate Touches(p: Pool, op: Op, x: LaneId) {
    && op.Reconcile? && op.reservation < |p.reservations| && x in p.lanes
    && var l := p.reservations[op.reservation].lane;
       l == x || (l in p.lanes && Spreads(p, l, op.answer) && p.lanes[l].scope == p.lanes[x].scope)
  }

  ghost predicate Untouched(p: Pool, ops: seq<Op>, x: LaneId) {
    forall i {:trigger ops[..i]} :: 0 <= i < |ops| ==> !Touches(Exec(p, ops[..i]), ops[i], x)
  }

  lemma {:induction false} CooldownKept(p: Pool, ops: seq<Op>, x: LaneId)
    requires x in p.lanes && Untouched(p, ops, x)
    ensures x in Exec(p, ops).lanes && Exec(p, ops).lanes[x].cooldown == p.lanes[x].cooldown
  {
    if ops != [] {
      var init := ops[..|ops| - 1];
      forall i | 0 <= i < |init|
        ensures !Touches(Exec(p, init[..i]), init[i], x)
      {
        assert init[..i] == ops[..i];
      }
      CooldownKept(p, init, x);
      assert !Touches(Exec(p, init), ops[|ops| - 1], x);
    }
  }

  /**
   After a 429 in a known scope no enabled lane of it is granted before the cooldown, until that
   lane is reconciled itself or another rate limit spreads in the scope.
   */
  lemma CooldownHolds(p: Pool, i: nat, a: Answer, at: real, ops: seq<Op>, x: LaneId, provider: string, now: real,
                      estimate: int)
    requires i < |p.reservations| && p.reservations[i].lane in p.lanes && Spreads(p, p.reservations[i].lane, a)
    requires x in p.lanes && p.lanes[x].enabled && p.lanes[x].scope == p.lanes[p.reservations[i].lane].scope
    requires Untouched(Step(p, Reconcile(i, a, at)), ops, x)
    requires now < at + (if a.retryAfter.Some? then a.retryAfter.value else 60.0)
    ensures !Grantable(Exec(Step(p, Reconcile(i, a, at)), ops), provider, x, now, estimate)
  {
    CooldownKept(Step(p, Reconcile(i, a, at)), ops, x);
  }

  /** What an answer does to its own lane, and to the others. */
  lemma EachLaneAfterAnswer(p: Pool, i: nat, a: Answer, now: real, x: LaneId)
    requires i < |p.reservations| && p.reservations[i].lane in p.lanes && x in p.lanes
    ensures var l, p' := p.reservations[i].lane, Step(p, Reconcile(i, a, now));
            && x in p'.lanes && p'.reservations == p.reservations[i := p.reservations[i].(open := false)]
            && (x == l && (a.status == Some(401) || a.status == Some(403)) ==> p'.lanes[x].health == AuthFailed)
            && (x == l && a.status == Some(429) ==> p'.lanes[x].health == RateLimited)
            && (x == l && (a.status.None? || a.status.value < 400) ==> p'.lanes[x].health == Available)
            && (x == l && a.status.Some? && a.status.value >= 400 && a.status.value !in {401, 403, 429} ==>
               p'.lanes[x].health == Degraded)
            && (x == l ==> p'.lanes[x].tokens == a.tokens)
            && (x == l && a.resetIn.Some? ==> p'.lanes[x].tokensReset == Some(now + a.resetIn.value))
            && (x == l && a.resetIn.None? ==> p'.lanes[x].tokensReset.None?)
            && (x == l && a.retryAfter.Some? ==> p'.lanes[x].cooldown == Some(now + a.retryAfter.value))
            && (x == l && a.retryAfter.None? && a.status == Some(429) ==> p'.lanes[x].cooldown == Some(now + 60.0))
            && (x == l && a.retryAfter.None? && a.status != Some(429) ==> p'.lanes[x].cooldown.None?)
            && (x != l && (a.status != Some(429) || !p.lanes[l].known || !p.lanes[x].enabled) ==> p'.lanes[x] == p.lanes[x])
            && (x != l && (p.lanes[l].scope.None? || p.lanes[x].scope != p.lanes[l].scope) ==> p'.lanes[x] == p.lanes[x])
            && p'.lanes[x].provider == p.lanes[x].provider && p'.lanes[x].limit == p.lanes[x].limit
               && p'.lanes[x].enabled == p.lanes[x].enabled
  {
  }

  lemma {:induction false} HealthKept(p: Pool, ops: seq<Op>, x: LaneId)
    requires x in p.lanes && Untouched(p, ops, x)
    ensures x in Exec(p, ops).lanes && Exec(p, ops).lanes[x].health == p.lanes[x].health
  {
    if ops != [] {
      var init := ops[..|ops| - 1];
      forall i | 0 <= i < |init|
        ensures !Touches(Exec(p, init[..i]), init[i], x)
      {
        assert init[..i] == ops[..i];
      }
      HealthKept(p, init, x);
      assert !Touches(Exec(p, init), ops[|ops| - 1], x);
    }
  }

  /** A lane whose key was refused is never granted again, until it is reconciled itself or a rate limit spreads to it. */
  lemma RefusedKeyRetiresLane(p: Pool, i: nat, a: Answer, at: real, ops: seq<Op>, provider: string, now: real,
                              estimate: int)
    requires i < |p.reservations| && p.reservations[i].lane in p.lanes && (a.status == Some(401) || a.status == Some(403))
    requires Untouched(Step(p, Reconcile(i, a, at)), ops, p.reservations[i].lane)
    ensures !Grantable(Exec(Step(p, Reconcile(i, a, at)), ops), provider, p.reservations[i].lane, now, estimate)
  {
    EachLaneAfterAnswer(p, i, a, at, p.reservations[i].lane);
    HealthKept(Step(p, Reconcile(i, a, at)), ops, p.reservations[i].lane);
  }
}
