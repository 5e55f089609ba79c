/** The program tables of the database: feature tasks, their jobs, promotion, and the run lease. */
module Program {
  import opened Wrappers
  import opened Graph
  import Plan

  type Commit = nat
  datatype Owner = Owner(id: string)

  datatype JobState =
    | Queued | Running | Verifying | Reviewing | Ready | Retry | Blocked | Failed | Cancelled | Accepted

  datatype FeatureState =
    | Approved | Executing | Paused | Halted | Abandoned | ReadyForReview | Delivered

  /** The immutable part of an approved plan: tasks in position order, one of them terminal. */
  datatype Shape = Shape(order: seq<Key>, deps: Deps, priority: map<Key, int>, terminal: Key)

  ghost predicate ValidShape(sh: Shape) {
    && Distinct(sh.order)
    && sh.deps.Keys == (set k | k in sh.order) && sh.priority.Keys == sh.deps.Keys
    && Closed(sh.deps) && Acyclic(sh.deps) && SoleSink(sh.deps, sh.terminal)
  }

  /** Approval marks as terminal the tasks no task references; a valid plan has exactly one. */
  lemma ApprovedPlanHasShape(tasks: seq<Plan.PlanTask>, priority: map<Key, int>) returns (sh: Shape)
    requires Plan.ValidPlan(tasks) && priority.Keys == Plan.DepsOf(tasks).Keys
    ensures ValidShape(sh) && sh.order == Plan.Keys(tasks) && sh.deps == Plan.DepsOf(tasks)
    ensures forall k :: k in sh.order ==> (k == sh.terminal <==> !Referenced(sh.deps, k))
  {
    Plan.EdgesOkClosed(Plan.DepsOf(tasks));
    var sink := Plan.TerminalFedByAll(tasks);
    sh := Shape(Plan.Keys(tasks), Plan.DepsOf(tasks), priority, sink);
  }

  /** A task with its job; `promoted` is the promotion state VERIFIED_FOR_CHAINING. */
  datatype Row = Row(state: JobState, promoted: bool, verified: Option<Commit>, accepted: Option<Commit>)

  datatype Tables = Tables(rows: map<Key, Row>, feature: FeatureState, owner: Option<Owner>, expires: int)

  ghost predicate ValidTables(sh: Shape, t: Tables) {
    ValidShape(sh) && t.rows.Keys == sh.deps.Keys
  }

  predicate InFlight(s: JobState) { s.Running? || s.Verifying? || s.Reviewing? }

  predicate Dispatchable(s: JobState) { s.Queued? || s.Retry? }

  predicate Dead(s: JobState) { s.Blocked? || s.Failed? || s.Cancelled? }

  predicate Runnable(f: FeatureState) { f.Approved? || f.Executing? }

  /** The release condition of a prerequisite. */
  predicate Settled(row: Row) {
    row.state.Accepted? || (row.promoted && row.verified.Some?)
  }

  predicate DepsSettled(sh: Shape, rows: map<Key, Row>, k: Key)
    requires k in sh.deps
  {
    forall d :: d in sh.deps[k] ==> d in rows && Settled(rows[d])
  }

  predicate Eligible(sh: Shape, rows: map<Key, Row>, k: Key) {
    k in rows && k in sh.deps && Dispatchable(rows[k].state) && DepsSettled(sh, rows, k)
  }

  /** `ORDER BY priority, position`: position order is the order of `keys`. */
  function InsertByPriority(priority: map<Key, int>, k: Key, sorted: seq<Key>): (r: seq<Key>)
    requires k in priority && forall x :: x in sorted ==> x in priority
    ensures multiset(r) == multiset([k]) + multiset(sorted)
    ensures |r| == |sorted| + 1
    ensures forall x :: x in r <==> x == k || x in sorted
  {
    if sorted == [] || priority[k] <= priority[sorted[0]] then [k] + sorted
    else
      assert sorted == [sorted[0]] + sorted[1..];
      [sorted[0]] + InsertByPriority(priority, k, sorted[1..])
  }

  function EligibleByPriority(sh: Shape, rows: map<Key, Row>, keys: seq<Key>): (r: seq<Key>)
    requires forall k :: k in keys ==> k in sh.priority
    ensures forall k :: k in r <==> k in keys && Eligible(sh, rows, k)
    ensures Distinct(keys) ==> Distinct(r)
  {
    if keys == [] then []
    else
      assert keys == [keys[0]] + keys[1..];
      var rest := EligibleByPriority(sh, rows, keys[1..]);
      if Eligible(sh, rows, keys[0]) then
        DistinctAfterInsert(sh.priority, keys[0], rest);
        InsertByPriority(sh.priority, keys[0], rest)
      else rest
  }

  lemma {:induction false} DistinctAfterInsert(priority: map<Key, int>, k: Key, sorted: seq<Key>)
    requires k in priority && forall x :: x in sorted ==> x in priority
    ensures Distinct(sorted) && k !in sorted ==> Distinct(InsertByPriority(priority, k, sorted))
  {
    if sorted != [] && Distinct(sorted) && k !in sorted && priority[k] > priority[sorted[0]] {
      DistinctAfterInsert(priority, k, sorted[1..]);
      assert sorted[0] !in sorted[1..];
      var tail := InsertByPriority(priority, k, sorted[1..]);
      assert sorted[0] !in tail;
    }
  }

  function ReadyJobs(sh: Shape, t: Tables, limit: nat): (r: seq<Key>)
    requires forall k :: k in sh.order ==> k in sh.priority
    ensures |r| <= limit
    ensures forall k :: k in r ==> Runnable(t.feature) && k in sh.order && Eligible(sh, t.rows, k)
    ensures Distinct(sh.order) ==> Distinct(r)
  {
    if !Runnable(t.feature) then []
    else
      var all := EligibleByPriority(sh, t.rows, sh.order);
      if |all| <= limit then all else all[..limit]
  }

  /** Smaller priority number first, then earlier position. */
  ghost predicate Precedes(sh: Shape, a: Key, b: Key)
    requires a in sh.priority && b in sh.priority
  {
    || sh.priority[a] < sh.priority[b]
    || (sh.priority[a] == sh.priority[b] && EarlierIn(sh.order, a, b))
  }

  ghost predicate InQueueOrder(sh: Shape, s: seq<Key>) {
    && (forall k :: k in s ==> k in sh.priority)
    && forall i, j :: 0 <= i < j < |s| ==> Precedes(sh, s[i], s[j])
  }

  lemma PrependKeepsOrder(sh: Shape, k: Key, s: seq<Key>)
    requires k in sh.priority && InQueueOrder(sh, s) && forall x :: x in s ==> Precedes(sh, k, x)
    ensures InQueueOrder(sh, [k] + s)
  {
    var r := [k] + s;
    forall i, j | 0 <= i < j < |r|
      ensures Precedes(sh, r[i], r[j])
    {
      assert r[j] == s[j - 1] && s[j - 1] in s;
      assert i > 0 ==> r[i] == s[i - 1];
    }
  }

  lemma HeadPrecedes(sh: Shape, s: seq<Key>, x: Key)
    requires s != [] && InQueueOrder(sh, s) && x in s[1..]
    ensures x in sh.priority && Precedes(sh, s[0], x)
  {
    var n :| 0 <= n < |s| - 1 && s[1..][n] == x;
    assert s[n + 1] == x;
  }

  lemma {:induction false} InsertKeepsOrder(sh: Shape, k: Key, s: seq<Key>)
    requires k in sh.priority && InQueueOrder(sh, s)
    requires forall x :: x in s ==> EarlierIn(sh.order, k, x)
    ensures InQueueOrder(sh, InsertByPriority(sh.priority, k, s))
  {
    if s == [] || sh.priority[k] <= sh.priority[s[0]] {
      forall x | x in s
        ensures Precedes(sh, k, x)
      {
        if x != s[0] {
          HeadPrecedes(sh, s, x);
        }
      }
      PrependKeepsOrder(sh, k, s);
    } else {
      var rest := InsertByPriority(sh.priority, k, s[1..]);
      InsertKeepsOrder(sh, k, s[1..]);
      forall x | x in rest
        ensures Precedes(sh, s[0], x)
      {
        if x != k {
          HeadPrecedes(sh, s, x);
        }
      }
      PrependKeepsOrder(sh, s[0], rest);
    }
  }

  lemma LaterInOrder(order: seq<Key>, from: nat, x: Key)
    requires from < |order| && x in order[from + 1..]
    ensures EarlierIn(order, order[from], x)
  {
    var rest := order[from + 1..];
    var n :| 0 <= n < |rest| && rest[n] == x;
    assert order[from + 1 + n] == x;
  }

  lemma OneMoreInOrder(sh: Shape, rows: map<Key, Row>, from: nat)
    requires from < |sh.order| && forall k :: k in sh.order ==> k in sh.priority
    requires InQueueOrder(sh, EligibleByPriority(sh, rows, sh.order[from + 1..]))
    ensures InQueueOrder(sh, EligibleByPriority(sh, rows, sh.order[from..]))
  {
    var keys := sh.order[from..];
    assert keys[0] == sh.order[from] && keys[1..] == sh.order[from + 1..];
    var rest := EligibleByPriority(sh, rows, keys[1..]);
    forall x | x in rest
      ensures EarlierIn(sh.order, keys[0], x)
    {
      LaterInOrder(sh.order, from, x);
    }
    InsertKeepsOrder(sh, keys[0], rest);
  }

  lemma {:induction false} EligibleInOrder(sh: Shape, rows: map<Key, Row>, from: nat)
    requires from <= |sh.order| && forall k :: k in sh.order ==> k in sh.priority
    ensures InQueueOrder(sh, EligibleByPriority(sh, rows, sh.order[from..]))
    decreases |sh.order| - from
  {
    if from < |sh.order| {
      EligibleInOrder(sh, rows, from + 1);
      OneMoreInOrder(sh, rows, from);
    }
  }

  /**
   The released jobs are the first eligible ones in (priority, position) order: an eligible job
   left out comes after every job released, and is left out only when the limit is used up.
   */
  lemma ReadyJobsAreFirst(sh: Shape, t: Tables, limit: nat, left: Key)
    requires ValidTables(sh, t) && Runnable(t.feature)
    requires left in sh.order && Eligible(sh, t.rows, left) && left !in ReadyJobs(sh, t, limit)
    ensures InQueueOrder(sh, ReadyJobs(sh, t, limit) + [left])
    ensures |ReadyJobs(sh, t, limit)| == limit
  {
    assert sh.order[0..] == sh.order;
    EligibleInOrder(sh, t.rows, 0);
    var all := EligibleByPriority(sh, t.rows, sh.order);
    assert all[..limit] == ReadyJobs(sh, t, limit);
    PrefixAndLater(sh, all, limit, left);
  }

  lemma PrefixAndLater(sh: Shape, all: seq<Key>, limit: nat, left: Key)
    requires InQueueOrder(sh, all) && limit <= |all|
    requires left in all && left !in all[..limit]
    ensures InQueueOrder(sh, all[..limit] + [left])
  {
    forall n | 0 <= n < limit
      ensures all[n] != left
    {
      assert all[..limit][n] == all[n];
    }
    var j :| limit <= j < |all| && all[j] == left;
    var s := all[..limit] + [left];
    forall a, b | 0 <= a < b < |s|
      ensures Precedes(sh, s[a], s[b])
    {
      assert s[a] == all[a] && s[a] in all[..limit];
      if b < limit {
        assert s[b] == all[b];
      } else {
        assert s[b] == all[j];
      }
    }
  }

  predicate Promotable(sh: Shape, rows: map<Key, Row>, k: Key) {
    k in rows && k != sh.terminal && rows[k].state.Ready? && !rows[k].promoted
  }

  /**
   No deadlock: when nothing is in flight, nothing is dead, every finished milestone is promoted
   and the terminal task is unfinished, some job is ready, whatever the states came from.
   */
  lemma SomethingIsReady(sh: Shape, t: Tables, limit: nat)
    requires ValidTables(sh, t) && Runnable(t.feature) && limit >= 1
    requires forall k :: k in t.rows ==> !InFlight(t.rows[k].state) && !Dead(t.rows[k].state)
    requires forall k :: k in t.rows ==> !Promotable(sh, t.rows, k)
    requires forall k :: k in t.rows && t.rows[k].promoted ==> t.rows[k].verified.Some?
    requires !t.rows[sh.terminal].state.Ready? && !t.rows[sh.terminal].state.Accepted?
    ensures ReadyJobs(sh, t, limit) != []
  {
    var waiting := set k | k in t.rows && Dispatchable(t.rows[k].state);
    assert sh.terminal in waiting;
    var k := MinimalTask(sh.deps, waiting);
    assert Eligible(sh, t.rows, k) by {
      forall d | d in sh.deps[k]
        ensures d in t.rows && Settled(t.rows[d])
      {
        assert Edge(sh.deps, k, d);
        assert d !in waiting && !Promotable(sh, t.rows, d);
      }
    }
    assert k in EligibleByPriority(sh, t.rows, sh.order);
  }

  datatype PromoteResult = Promoted | AlreadyPromoted | TerminalTask | NotReady | AnotherCommit

  function PromoteOutcome(sh: Shape, rows: map<Key, Row>, k: Key, commit: Commit): (r: PromoteResult)
    requires k in rows
  {
    if k == sh.terminal then TerminalTask
    else if !rows[k].state.Ready? then NotReady
    else if rows[k].promoted then
      if rows[k].verified != Some(commit) then AnotherCommit else AlreadyPromoted
    else Promoted
  }

  function Promote(sh: Shape, t: Tables, k: Key, commit: Commit): (t': Tables)
    requires k in t.rows
  {
    if PromoteOutcome(sh, t.rows, k, commit).Promoted? then
      t.(rows := t.rows[k := t.rows[k].(promoted := true, verified := Some(commit))], feature := Executing)
    else t
  }

  function Claim(t: Tables, owner: Owner, now: int, lease: int): (r: (bool, Tables))
  {
    if Runnable(t.feature) && (t.owner.None? || t.owner == Some(owner) || t.expires < now) then
      (true, t.(feature := Executing, owner := Some(owner), expires := now + lease))
    else (false, t)
  }

  predicate HoldsRun(t: Tables, owner: Owner) {
    t.owner == Some(owner) && t.feature.Executing?
  }

  function Release(t: Tables, owner: Owner, state: FeatureState): (t': Tables)
  {
    if t.owner == Some(owner) then t.(feature := state, owner := None) else t
  }

  /**
   A claimed run stays with its owner exactly until its lease lapses: before that no rival can claim
   it, after that any can. Its owner may always claim it again.
   */
  lemma ClaimLastsUntilLapse(t: Tables, o: Owner, now: int, lease: int, rival: Owner, later: int, next: int)
    requires Claim(t, o, now, lease).0 && rival != o
    ensures var held := Claim(t, o, now, lease).1;
            && HoldsRun(held, o) && Claim(held, o, later, next).0
            && (Claim(held, rival, later, next).0 <==> later > now + lease)
            && (Claim(held, rival, later, next).0 ==> HoldsRun(Claim(held, rival, later, next).1, rival))
  {
  }

  /** Human acceptance of one task; finishing the terminal task delivers the feature. */
  function Accept(sh: Shape, t: Tables, k: Key, commit: Commit): (t': Tables)
    requires k in t.rows
  {
    t.(rows := t.rows[k := t.rows[k].(state := JobState.Accepted, accepted := Some(commit))],
       feature := if k == sh.terminal then Delivered else Executing)
  }

  function WithState(rows: map<Key, Row>, k: Key, s: JobState): (rows': map<Key, Row>)
    requires k in rows
  {
    rows[k := rows[k].(state := s)]
  }

  /** Promotion is write-once: no transaction changes or removes a recorded commit. */
  ghost predicate KeepsPromotions(before: map<Key, Row>, after: map<Key, Row>) {
    before.Keys == after.Keys &&
    forall k :: k in before && before[k].promoted ==> after[k].promoted && after[k].verified == before[k].verified
  }

  /** The connection to the program tables; each method is one transaction. */
  class ProgramStore {
    const shape: Shape
    var rows: map<Key, Row>
    var feature: FeatureState
    var owner: Option<Owner>
    var expires: int

    ghost function Model(): Tables
      reads this
    {
      Tables(rows, feature, owner, expires)
    }

    ghost predicate Valid()
      reads this
    {
      rows.Keys == shape.deps.Keys
    }

    constructor (shape: Shape, rows: map<Key, Row>)
      requires rows.Keys == shape.deps.Keys
      ensures Valid() && this.shape == shape && Model() == Tables(rows, Approved, None, 0)
    {
      this.shape, this.rows := shape, rows;
      feature, owner, expires := Approved, None, 0;
    }

    method PromoteProgramTask(k: Key, commit: Commit) returns (r: PromoteResult)
      requires Valid() && k in rows
      modifies this`rows, this`feature
      ensures Valid() && r == PromoteOutcome(shape, old(rows), k, commit)
      ensures Model() == Promote(shape, old(Model()), k, commit)
      ensures r.TerminalTask? <==> k == shape.terminal
      ensures r.NotReady? <==> k != shape.terminal && !old(rows)[k].state.Ready?
      ensures r.Promoted? <==> k != shape.terminal && old(rows)[k].state.Ready? && !old(rows)[k].promoted
      ensures r.AlreadyPromoted? ==> old(rows)[k].promoted && old(rows)[k].verified == Some(commit)
      ensures r.AnotherCommit? ==> old(rows)[k].promoted && old(rows)[k].verified != Some(commit)
      ensures r.Promoted? ==>
                rows == old(rows)[k := old(rows)[k].(promoted := true, verified := Some(commit))] && feature.Executing?
      ensures !r.Promoted? ==> rows == old(rows) && feature == old(feature)
      ensures KeepsPromotions(old(rows), rows)
    {
      if k == shape.terminal {
        return TerminalTask;
      }
      var row := rows[k];
      if !row.state.Ready? {
        return NotReady;
      }
      if row.promoted {
        if row.verified != Some(commit) {
          return AnotherCommit;
        }
        return AlreadyPromoted;
      }
      rows := rows[k := row.(promoted := true, verified := Some(commit))];
      feature := Executing;
      return Promoted;
    }

    method ClaimProgramRun(runner: Owner, now: int, lease: int) returns (claimed: bool)
      requires Valid()
      modifies this`feature, this`owner, this`expires
      ensures Valid() && (claimed, Model()) == Claim(old(Model()), runner, now, lease)
      ensures claimed <==>
                (old(feature).Approved? || old(feature).Executing?)
                  && (old(owner).None? || old(owner) == Some(runner) || old(expires) < now)
      ensures claimed ==> feature.Executing? && owner == Some(runner) && expires == now + lease
      ensures !claimed ==> Model() == old(Model())
    {
      if Runnable(feature) && (owner.None? || owner == Some(runner) || expires < now) {
        feature, owner, expires := Executing, Some(runner), now + lease;
        return true;
      }
      return false;
    }

    method HeartbeatProgramRun(runner: Owner, now: int, lease: int) returns (held: bool)
      requires Valid()
      modifies this`expires
      ensures Valid() && held == HoldsRun(old(Model()), runner)
      ensures held <==> old(owner) == Some(runner) && old(feature).Executing?
      ensures Model() == if held then old(Model()).(expires := now + lease) else old(Model())
    {
      held := owner == Some(runner) && feature.Executing?;
      if held {
        expires := now + lease;
      }
    }

    method ReleaseProgramRun(runner: Owner, state: FeatureState)
      requires Valid()
      modifies this`feature, this`owner
      ensures Valid() && Model() == Release(old(Model()), runner, state)
      ensures old(owner) == Some(runner) ==> feature == state && owner.None?
      ensures old(owner) != Some(runner) ==> feature == old(feature) && owner == old(owner)
    {
      if owner == Some(runner) {
        feature, owner := state, None;
      }
    }

    method SetProgramState(state: FeatureState)
      requires Valid()
      modifies this`feature, this`owner
      ensures Valid() && Model() == old(Model()).(feature := state, owner := None)
    {
      feature, owner := state, None;
    }

    method SetState(k: Key, state: JobState)
      requires Valid() && k in rows
      modifies this`rows
      ensures Valid() && rows == WithState(old(rows), k, state)
      ensures rows == old(rows)[k := old(rows)[k].(state := state)]
      ensures KeepsPromotions(old(rows), rows)
    {
      rows := rows[k := rows[k].(state := state)];
    }

    method CompleteAcceptance(k: Key, commit: Commit)
      requires Valid() && k in rows
      modifies this`rows, this`feature
      ensures Valid() && Model() == Accept(shape, old(Model()), k, commit)
      ensures rows == old(rows)[k := old(rows)[k].(state := JobState.Accepted, accepted := Some(commit))]
      ensures feature == if k == shape.terminal then Delivered else Executing
      ensures KeepsPromotions(old(rows), rows)
    {
      rows := rows[k := rows[k].(state := JobState.Accepted, accepted := Some(commit))];
      feature := if k == shape.terminal then Delivered else Executing;
    }
  }
}
