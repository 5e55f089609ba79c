/** Which prerequisite commits a job is built on, and in which order. */
module Chaining {
  import opened Wrappers
  import opened Graph
  import opened Program

  /** The commit a prerequisite contributes to a program task. */
  function ChainCommit(row: Row): (c: Option<Commit>)
    ensures Settled(row) && (row.state.Accepted? ==> row.accepted.Some?) ==> c.Some?
  {
    if row.accepted.Some? then row.accepted
    else if row.promoted then row.verified
    else None
  }

  predicate Chained(rows: map<Key, Row>, k: Key) {
    k in rows && ChainCommit(rows[k]).Some?
  }

  /** Tasks in an order where prerequisites come first. */
  ghost predicate PrerequisitesFirst(g: Deps, trail: seq<Key>) {
    Distinct(trail) && forall i, d :: 0 <= i < |trail| && Edge(g, trail[i], d) ==> d in trail[..i]
  }

  /** `trail` lists exactly the transitive prerequisites of `job`, prerequisites first. */
  ghost predicate IsChain(g: Deps, job: Key, trail: seq<Key>) {
    PrerequisitesFirst(g, trail) && forall k :: k in trail <==> DependsOn(g, job, k)
  }

  function CommitOf(rows: map<Key, Row>, k: Key): Commit
    requires Chained(rows, k)
  {
    ChainCommit(rows[k]).value
  }

  predicate AllChained(rows: map<Key, Row>, trail: seq<Key>) {
    forall i :: 0 <= i < |trail| ==> Chained(rows, trail[i])
  }

  function CommitsOf(rows: map<Key, Row>, trail: seq<Key>): (r: seq<Commit>)
    requires AllChained(rows, trail)
  {
    seq(|trail|, i requires 0 <= i < |trail| => CommitOf(rows, trail[i]))
  }

  /** Keeps the first occurrence of every commit. */
  function FirstOnly(commits: seq<Commit>): (r: seq<Commit>)
    ensures Distinct(r)
    ensures forall c :: c in r <==> c in commits
    ensures Distinct(commits) ==> r == commits
  {
    if commits == [] then []
    else
      var init := commits[..|commits| - 1];
      var last := commits[|commits| - 1];
      var kept := FirstOnly(init);
      assert commits == init + [last];
      assert Distinct(commits) ==> Distinct(init) && last !in init;
      if last in kept then kept else kept + [last]
  }

  lemma CommitsExtend(rows: map<Key, Row>, trail: seq<Key>, k: Key)
    requires AllChained(rows, trail) && Chained(rows, k)
    ensures AllChained(rows, trail + [k])
    ensures CommitsOf(rows, trail + [k]) == CommitsOf(rows, trail) + [CommitOf(rows, k)]
    ensures FirstOnly(CommitsOf(rows, trail + [k])) ==
            var kept := FirstOnly(CommitsOf(rows, trail));
            var c := CommitOf(rows, k);
            if c in kept then kept else kept + [c]
  {
    var commits, c := CommitsOf(rows, trail), CommitOf(rows, k);
    assert CommitsOf(rows, trail + [k]) == commits + [c];
    assert (commits + [c])[..|commits|] == commits;
  }

  lemma TrailExtend(g: Deps, trail: seq<Key>, k: Key)
    requires PrerequisitesFirst(g, trail) && k !in trail
    requires forall d :: Edge(g, k, d) ==> d in trail
    ensures PrerequisitesFirst(g, trail + [k])
  {
    var longer := trail + [k];
    forall i, d | 0 <= i < |longer| && Edge(g, longer[i], d)
      ensures d in longer[..i]
    {
      assert longer[..i] == trail[..i];
      if i == |trail| {
        assert trail[..i] == trail;
      }
    }
  }

  /** What the walk keeps: the visited tasks with their commits, in the order they were finished. */
  ghost predicate WalkState(g: Deps, rows: map<Key, Row>, ordered: seq<Commit>, visited: set<Key>, trail: seq<Key>) {
    && visited == (set k | k in trail) && visited <= g.Keys
    && PrerequisitesFirst(g, trail) && AllChained(rows, trail)
    && ordered == FirstOnly(CommitsOf(rows, trail))
  }

  lemma ExtendWalk(g: Deps, rows: map<Key, Row>, ordered: seq<Commit>, visited: set<Key>, trail: seq<Key>, k: Key)
    requires WalkState(g, rows, ordered, visited, trail)
    requires k in g && k !in visited && AllIn(g[k], visited) && Chained(rows, k)
    ensures var c := CommitOf(rows, k);
            WalkState(g, rows, if c in ordered then ordered else ordered + [c], visited + {k}, trail + [k])
  {
    assert forall d :: Edge(g, k, d) ==> d in visited;
    TrailExtend(g, trail, k);
    CommitsExtend(rows, trail, k);
  }

  ghost predicate Under(g: Deps, keys: seq<Key>, d: Key) {
    exists k :: k in keys && (d == k || DependsOn(g, k, d))
  }

  lemma UnderOne(g: Deps, keys: seq<Key>, i: nat, d: Key)
    requires i < |keys| && Under(g, [keys[i]], d)
    ensures Under(g, keys, d)
  {
    var k :| k in [keys[i]] && (d == k || DependsOn(g, k, d));
    assert k == keys[i] && k in keys;
  }

  lemma UnderJob(g: Deps, job: Key, d: Key)
    requires job in g && Under(g, g[job], d)
    ensures DependsOn(g, job, d)
  {
    var k :| k in g[job] && (d == k || DependsOn(g, k, d));
    assert Edge(g, job, k);
    if d == k {
      DirectDependency(g, job, d);
    } else {
      DependsOnVia(g, job, k, d);
    }
  }

  /** The nested visit of `dependency_commits` over a snapshot of the rows. */
  class ChainWalk {
    const deps: Deps
    const rows: map<Key, Row>
    var ordered: seq<Commit>
    var visited: set<Key>
    ghost var trail: seq<Key>
    ghost const rank: map<Key, nat>

    ghost predicate Sound() {
      Closed(deps) && Acyclic(deps) && rows.Keys == deps.Keys && RankOf(deps, rank)
    }

    ghost predicate Valid()
      reads this
    {
      WalkState(deps, rows, ordered, visited, trail)
    }

    constructor (deps: Deps, rows: map<Key, Row>)
      requires Closed(deps) && Acyclic(deps) && rows.Keys == deps.Keys
      ensures Sound() && Valid() && this.deps == deps && this.rows == rows && trail == []
    {
      this.deps, this.rows := deps, rows;
      ordered, visited, trail := [], {}, [];
      AcyclicIffRanked(deps);
      ghost var r :| RankOf(deps, r);
      rank := r;
    }

    /** `missing` is the task whose commit is not available, which raises the error. */
    method Visit(key: Key) returns (missing: Option<Key>)
      requires Sound() && Valid() && key in deps
      modifies this
      ensures missing.None? ==> Valid() && key in visited && old(visited) <= visited
      ensures missing.None? ==> forall d :: d in visited - old(visited) ==> Under(deps, [key], d)
      ensures missing.Some? ==> Under(deps, [key], missing.value) && !Chained(rows, missing.value)
      decreases rank[key], 1
    {
      if key in visited {
        return None;
      }
      AllDepsKnown(key);
      missing := VisitAll(deps[key], rank[key]);
      if missing.Some? {
        UnderJob(deps, key, missing.value);
        assert key in [key];
        return;
      }
      forall d | d in visited - old(visited)
        ensures d != key && Under(deps, [key], d)
      {
        UnderJob(deps, key, d);
        NothingBelowItself(deps, key);
        assert key in [key];
      }
      assert key in [key];
      var commit := rows[key].accepted;
      if commit.None? && rows[key].promoted {
        commit := rows[key].verified;
      }
      if commit.None? {
        return Some(key);
      }
      assert key !in visited - old(visited);
      ExtendWalk(deps, rows, ordered, visited, trail, key);
      visited := visited + {key};
      trail := trail + [key];
      if commit.value !in ordered {
        ordered := ordered + [commit.value];
      }
    }

    lemma AllDepsKnown(key: Key)
      requires Sound() && key in deps
      ensures forall d :: d in deps[key] ==> d in deps && rank[d] < rank[key]
    {
      forall d | d in deps[key]
        ensures d in deps && rank[d] < rank[key]
      {
        assert Edge(deps, key, d);
      }
    }

    method VisitAll(keys: seq<Key>, ghost bound: nat) returns (missing: Option<Key>)
      requires Sound() && Valid() && forall k :: k in keys ==> k in deps && rank[k] < bound
      modifies this
      ensures missing.None? ==> Valid() && AllIn(keys, visited) && old(visited) <= visited
      ensures missing.None? ==> forall d :: d in visited - old(visited) ==> Under(deps, keys, d)
      ensures missing.Some? ==> Under(deps, keys, missing.value) && !Chained(rows, missing.value)
      decreases bound, 0
    {
      var i := 0;
      while i < |keys|
        invariant 0 <= i <= |keys|
        invariant Valid() && FirstIn(keys, i, visited) && old(visited) <= visited
        invariant forall d :: d in visited - old(visited) ==> Under(deps, keys, d)
      {
        ghost var before := visited;
        missing := Visit(keys[i]);
        if missing.Some? {
          UnderOne(deps, keys, i, missing.value);
          return;
        }
        forall d | d in visited - old(visited)
          ensures Under(deps, keys, d)
        {
          if d !in before {
            UnderOne(deps, keys, i, d);
          }
        }
        FirstInGrows(keys, i, before, visited);
        i := i + 1;
      }
      FirstInAll(keys, visited);
      return None;
    }
  }

  /** An accepted commit, or a commit recorded by a promotion. */
  predicate HasCommit(rows: map<Key, Row>, d: Key) {
    d in rows && (rows[d].accepted.Some? || (rows[d].promoted && rows[d].verified.Some?))
  }

  ghost predicate AllHaveCommits(g: Deps, rows: map<Key, Row>, job: Key) {
    forall d {:trigger HasCommit(rows, d)} :: DependsOn(g, job, d) ==> HasCommit(rows, d)
  }

  /** The accepted commit of `d` is `c`, or `d` has none and was promoted with `c`. */
  predicate Contributes(rows: map<Key, Row>, d: Key, c: Commit) {
    d in rows && (rows[d].accepted == Some(c) || (rows[d].accepted.None? && rows[d].promoted && rows[d].verified == Some(c)))
  }

  /**
   Every transitive prerequisite has a commit and contributes it: the accepted one, or the promoted
   one if there is no accepted one. Nothing else is in the chain.
   */
  ghost predicate AllContribute(g: Deps, rows: map<Key, Row>, job: Key, commits: seq<Commit>) {
    && (forall d {:trigger HasCommit(rows, d)} :: DependsOn(g, job, d) ==>
          && HasCommit(rows, d)
          && (rows[d].accepted.Some? ==> rows[d].accepted.value in commits)
          && (rows[d].accepted.None? ==> rows[d].verified.value in commits))
    && forall c :: c in commits ==> Contributed(g, rows, job, c)
  }

  ghost predicate Contributed(g: Deps, rows: map<Key, Row>, job: Key, c: Commit) {
    exists d :: DependsOn(g, job, d) && Contributes(rows, d, c)
  }

  lemma ChainHolds(g: Deps, rows: map<Key, Row>, job: Key, trail: seq<Key>, commits: seq<Commit>)
    requires ChainOf(g, rows, job, trail, commits)
    ensures AllContribute(g, rows, job, commits)
  {
    var all := CommitsOf(rows, trail);
    forall d | DependsOn(g, job, d)
      ensures Chained(rows, d) && CommitOf(rows, d) in commits
    {
      var i :| 0 <= i < |trail| && trail[i] == d;
      assert all[i] == CommitOf(rows, d);
    }
    forall c | c in commits
      ensures Contributed(g, rows, job, c)
    {
      var i :| 0 <= i < |all| && all[i] == c;
      assert trail[i] in trail && Chained(rows, trail[i]) && Contributes(rows, trail[i], c);
    }
  }

  /**
   `dependency_commits`: raises exactly when some transitive prerequisite has no commit, and
   otherwise returns the commits of the transitive prerequisites, prerequisites first, each
   commit once.
   */
  method DependencyCommits(sh: Shape, rows: map<Key, Row>, job: Key) returns (r: Result<seq<Commit>, Key>)
    requires ValidShape(sh) && rows.Keys == sh.deps.Keys && job in sh.deps
    ensures r.Success? <==> AllHaveCommits(sh.deps, rows, job)
    ensures r.Failure? ==> DependsOn(sh.deps, job, r.error) && !HasCommit(rows, r.error)
    ensures r.Success? ==> AllContribute(sh.deps, rows, job, r.value)
    ensures r.Success? ==> exists trail :: ChainOf(sh.deps, rows, job, trail, r.value)
  {
    var walk := new ChainWalk(sh.deps, rows);
    walk.AllDepsKnown(job);
    var missing := walk.VisitAll(sh.deps[job], walk.rank[job]);
    if missing.Some? {
      UnderJob(sh.deps, job, missing.value);
      assert !HasCommit(rows, missing.value);
      return Failure(missing.value);
    }
    WalkIsChain(sh.deps, rows, job, walk.ordered, walk.visited, walk.trail);
    ChainHolds(sh.deps, rows, job, walk.trail, walk.ordered);
    return Success(walk.ordered);
  }

  lemma WalkIsChain(g: Deps, rows: map<Key, Row>, job: Key, ordered: seq<Commit>, visited: set<Key>, trail: seq<Key>)
    requires WalkState(g, rows, ordered, visited, trail) && job in g && AllIn(g[job], visited)
    requires forall d :: d in visited ==> Under(g, g[job], d)
    ensures ChainOf(g, rows, job, trail, ordered)
  {
    forall d
      ensures d in trail <==> DependsOn(g, job, d)
    {
      if d in trail {
        assert d in visited;
        UnderJob(g, job, d);
      }
      if DependsOn(g, job, d) {
        TrailIsClosed(g, trail, visited);
        ClosureHolds(g, visited, job, d);
      }
    }
  }

  ghost predicate ChainOf(g: Deps, rows: map<Key, Row>, job: Key, trail: seq<Key>, commits: seq<Commit>) {
    IsChain(g, job, trail) && AllChained(rows, trail) && commits == FirstOnly(CommitsOf(rows, trail))
  }

  lemma TrailIsClosed(g: Deps, trail: seq<Key>, visited: set<Key>)
    requires PrerequisitesFirst(g, trail) && visited == (set k | k in trail)
    ensures forall x, y :: x in visited && Edge(g, x, y) ==> y in visited
  {
    forall x, y | x in visited && Edge(g, x, y)
      ensures y in visited
    {
      var i :| 0 <= i < |trail| && trail[i] == x;
      assert y in trail[..i];
    }
  }
}
