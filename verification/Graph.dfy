/** Dependency graphs: walks, cycles, ranks, and the depth-first cycle search. */
module Graph {

  datatype Key = Key(name: string)

  /** Each task key with the keys it depends on. */
  type Deps = map<Key, seq<Key>>

  ghost predicate Edge(g: Deps, k: Key, d: Key) {
    k in g && d in g[k]
  }

  /** Every dependency names a task of the graph. */
  ghost predicate Closed(g: Deps) {
    forall k, d :: Edge(g, k, d) ==> d in g
  }

  ghost predicate StepAt(g: Deps, p: seq<Key>, i: nat)
    requires i + 1 < |p|
  {
    Edge(g, p[i], p[i + 1])
  }

  /** A walk follows dependency edges from a task towards its prerequisites. */
  ghost predicate Walk(g: Deps, p: seq<Key>) {
    p != [] && forall i :: 0 <= i && i + 1 < |p| ==> StepAt(g, p, i)
  }

  ghost predicate Cycle(g: Deps, p: seq<Key>) {
    |p| >= 2 && Walk(g, p) && p[0] == p[|p| - 1]
  }

  ghost predicate Acyclic(g: Deps) {
    forall p :: !Cycle(g, p)
  }

  ghost predicate WalkFromTo(g: Deps, p: seq<Key>, k: Key, d: Key) {
    |p| >= 2 && Walk(g, p) && p[0] == k && p[|p| - 1] == d
  }

  /** `d` is a direct or transitive dependency of `k`. */
  ghost predicate DependsOn(g: Deps, k: Key, d: Key) {
    exists p :: WalkFromTo(g, p, k, d)
  }

  /** `rank` strictly decreases along the edges of the tasks it covers, and covers their dependencies. */
  ghost predicate Ranked(g: Deps, rank: map<Key, nat>) {
    forall k, d :: Edge(g, k, d) && k in rank ==> d in rank && rank[d] < rank[k]
  }

  ghost predicate RankOf(g: Deps, rank: map<Key, nat>) {
    rank.Keys == g.Keys && Ranked(g, rank)
  }

  lemma AppendStep(g: Deps, p: seq<Key>, d: Key)
    requires Walk(g, p) && Edge(g, p[|p| - 1], d)
    ensures Walk(g, p + [d])
  {
    var q := p + [d];
    forall i | 0 <= i && i + 1 < |q|
      ensures StepAt(g, q, i)
    {
      if i + 1 < |p| {
        assert StepAt(g, p, i);
      }
    }
  }

  lemma SubWalk(g: Deps, p: seq<Key>, lo: nat, hi: nat)
    requires Walk(g, p) && lo < hi <= |p|
    ensures Walk(g, p[lo..hi])
  {
    forall i | 0 <= i && i + 1 < hi - lo
      ensures StepAt(g, p[lo..hi], i)
    {
      assert StepAt(g, p, lo + i);
    }
  }

  lemma {:induction false} WalkDescends(g: Deps, rank: map<Key, nat>, p: seq<Key>, j: nat)
    requires Ranked(g, rank) && Walk(g, p)
    requires 0 < j < |p| && p[0] in rank
    ensures p[j] in rank && rank[p[j]] < rank[p[0]]
    decreases j
  {
    if j > 1 {
      WalkDescends(g, rank, p, j - 1);
    }
    assert StepAt(g, p, j - 1);
  }

  lemma RankedIsAcyclic(g: Deps, rank: map<Key, nat>)
    requires RankOf(g, rank)
    ensures Acyclic(g)
  {
    forall p | Cycle(g, p)
      ensures false
    {
      assert StepAt(g, p, 0);
      WalkDescends(g, rank, p, |p| - 1);
    }
  }

  ghost predicate Distinct<T>(s: seq<T>) {
    forall i, j :: 0 <= i < j < |s| ==> s[i] != s[j]
  }

  lemma {:induction false} DistinctFits<T>(s: seq<T>, container: set<T>)
    requires Distinct(s)
    requires forall x :: x in s ==> x in container
    ensures |s| <= |container|
    decreases |s|
  {
    if s != [] {
      var last := s[|s| - 1];
      DistinctFits(s[..|s| - 1], container - {last});
    }
  }

  ghost predicate NeedsInside(g: Deps, rest: set<Key>, k: Key) {
    exists d :: Edge(g, k, d) && d in rest
  }

  /** In a set where every task has a dependency inside the set, walks grow without bound. */
  lemma {:induction false} WalkInside(g: Deps, rest: set<Key>, n: nat) returns (p: seq<Key>)
    requires rest != {} && rest <= g.Keys
    requires forall k :: k in rest ==> NeedsInside(g, rest, k)
    ensures |p| == n + 1 && Walk(g, p)
    ensures forall k :: k in p ==> k in rest
  {
    if n == 0 {
      var k :| k in rest;
      p := [k];
    } else {
      var q := WalkInside(g, rest, n - 1);
      assert q[n - 1] in rest;
      var d :| Edge(g, q[n - 1], d) && d in rest;
      AppendStep(g, q, d);
      p := q + [d];
    }
  }

  /** A walk that comes back to a task makes the graph cyclic. */
  lemma WalkBackIsCyclic(g: Deps, p: seq<Key>, i: nat, j: nat)
    requires Walk(g, p) && i < j < |p| && p[i] == p[j]
    ensures !Acyclic(g)
  {
    SubWalk(g, p, i, j + 1);
    assert Cycle(g, p[i..j + 1]);
  }

  /** In an acyclic graph some task of any non-empty set has no dependency left in the set. */
  lemma MinimalTask(g: Deps, rest: set<Key>) returns (k: Key)
    requires Acyclic(g) && rest != {} && rest <= g.Keys
    ensures k in rest && forall d :: Edge(g, k, d) ==> d !in rest
  {
    if forall k :: k in rest ==> NeedsInside(g, rest, k) {
      var p := WalkInside(g, rest, |rest|);
      if Distinct(p) {
        DistinctFits(p, rest);
      }
      var i, j :| 0 <= i < j < |p| && p[i] == p[j];
      WalkBackIsCyclic(g, p, i, j);
    }
    k :| k in rest && !NeedsInside(g, rest, k);
  }

  /** Ranks below the number of ranked tasks, so the next task can be put above them all. */
  ghost predicate PartialRank(g: Deps, rank: map<Key, nat>) {
    rank.Keys <= g.Keys && Ranked(g, rank) && forall k :: k in rank ==> rank[k] < |rank|
  }

  lemma RankNext(g: Deps, partial: map<Key, nat>, k: Key)
    requires PartialRank(g, partial) && k in g && k !in partial
    requires forall d :: Edge(g, k, d) ==> d in partial
    ensures PartialRank(g, partial[k := |partial|])
    ensures partial[k := |partial|].Keys == partial.Keys + {k}
  {
    var wider := partial[k := |partial|];
    assert wider.Keys == partial.Keys + {k};
    assert |wider| == |wider.Keys| && |partial| == |partial.Keys|;
    forall x, d | Edge(g, x, d) && x in wider
      ensures d in wider && wider[d] < wider[x]
    {
      if x != k {
        assert d in partial;
      }
    }
  }

  lemma {:induction false} ExtendRank(g: Deps, partial: map<Key, nat>) returns (rank: map<Key, nat>)
    requires Closed(g) && Acyclic(g) && PartialRank(g, partial)
    ensures RankOf(g, rank)
    decreases g.Keys - partial.Keys
  {
    var rest := g.Keys - partial.Keys;
    if rest == {} {
      assert partial.Keys == g.Keys;
      rank := partial;
    } else {
      var k := MinimalTask(g, rest);
      RankNext(g, partial, k);
      assert g.Keys - (partial.Keys + {k}) == rest - {k};
      rank := ExtendRank(g, partial[k := |partial|]);
    }
  }

  /** Having no cycle and admitting a rank are the same thing. */
  lemma AcyclicIffRanked(g: Deps)
    requires Closed(g)
    ensures Acyclic(g) <==> exists rank :: RankOf(g, rank)
  {
    if Acyclic(g) {
      var rank := ExtendRank(g, map[]);
    }
    if rank :| RankOf(g, rank) {
      RankedIsAcyclic(g, rank);
    }
  }

  lemma DirectDependency(g: Deps, k: Key, d: Key)
    requires Edge(g, k, d)
    ensures DependsOn(g, k, d)
  {
    var p := [k, d];
    assert StepAt(g, p, 0);
    assert WalkFromTo(g, p, k, d);
  }

  lemma DependsOnStep(g: Deps, k: Key, via: Key, d: Key)
    requires DependsOn(g, k, via) && Edge(g, via, d)
    ensures DependsOn(g, k, d)
  {
    var p :| WalkFromTo(g, p, k, via);
    AppendStep(g, p, d);
    assert WalkFromTo(g, p + [d], k, d);
  }

  lemma DependsOnVia(g: Deps, k: Key, via: Key, d: Key)
    requires Edge(g, k, via) && DependsOn(g, via, d)
    ensures DependsOn(g, k, d)
  {
    var p :| WalkFromTo(g, p, via, d);
    var q := [k] + p;
    forall i | 0 <= i && i + 1 < |q|
      ensures StepAt(g, q, i)
    {
      if i > 0 {
        assert StepAt(g, p, i - 1);
      }
    }
    assert WalkFromTo(g, q, k, d);
  }

  lemma NothingBelowItself(g: Deps, k: Key)
    requires Acyclic(g)
    ensures !DependsOn(g, k, k)
  {
    if p :| WalkFromTo(g, p, k, k) {
      WalkBackIsCyclic(g, p, 0, |p| - 1);
    }
  }

  lemma {:induction false} ClosureHoldsAlong(g: Deps, good: set<Key>, p: seq<Key>, j: nat)
    requires Walk(g, p) && 0 < j < |p|
    requires forall x :: Edge(g, p[0], x) ==> x in good
    requires forall x, y :: x in good && Edge(g, x, y) ==> y in good
    ensures p[j] in good
    decreases j
  {
    if j > 1 {
      ClosureHoldsAlong(g, good, p, j - 1);
    }
    assert StepAt(g, p, j - 1);
  }

  /**
   A set that holds the direct dependencies of `k`, and the dependencies of all its members,
   holds every transitive dependency of `k`.
   */
  lemma ClosureHolds(g: Deps, good: set<Key>, k: Key, d: Key)
    requires DependsOn(g, k, d)
    requires forall x :: Edge(g, k, x) ==> x in good
    requires forall x, y :: x in good && Edge(g, x, y) ==> y in good
    ensures d in good
  {
    var p :| WalkFromTo(g, p, k, d);
    ClosureHoldsAlong(g, good, p, |p| - 1);
  }

  lemma NothingBelow(g: Deps, k: Key)
    requires forall d :: !Edge(g, k, d)
    ensures forall d :: !DependsOn(g, k, d)
  {
    forall p: seq<Key>, d
      ensures !WalkFromTo(g, p, k, d)
    {
      assert |p| >= 2 ==> StepAt(g, p, 0) == Edge(g, p[0], p[1]);
    }
  }

  lemma FirstTwoDiffer(keys: seq<Key>)
    requires Distinct(keys)
    ensures |keys| > 1 ==> keys[0] in keys && keys[1] in keys && keys[0] != keys[1]
  {
  }

  lemma AllSame(keys: seq<Key>, k: Key)
    requires Distinct(keys) && k in keys && forall x :: x in keys ==> x == k
    ensures keys == [k]
  {
    FirstTwoDiffer(keys);
    assert keys[0] in keys;
  }

  ghost predicate EarlierIn(order: seq<Key>, a: Key, b: Key) {
    exists i, j :: 0 <= i < j < |order| && order[i] == a && order[j] == b
  }

  ghost predicate Referenced(g: Deps, d: Key) {
    exists k :: Edge(g, k, d)
  }

  /** `sink` is the one task no other task depends on. */
  ghost predicate SoleSink(g: Deps, sink: Key) {
    sink in g && !Referenced(g, sink) && forall k {:trigger Referenced(g, k)} :: k in g && k != sink ==> Referenced(g, k)
  }

  lemma {:induction false} FeedsSinkFromRank(g: Deps, rank: map<Key, nat>, sink: Key, k: Key, ceiling: nat)
    requires RankOf(g, rank) && SoleSink(g, sink)
    requires k in g && k != sink
    requires forall x :: x in rank ==> rank[x] <= ceiling
    ensures DependsOn(g, sink, k)
    decreases ceiling - rank[k]
  {
    assert Referenced(g, k);
    var user :| Edge(g, user, k);
    if user == sink {
      DirectDependency(g, sink, k);
    } else {
      FeedsSinkFromRank(g, rank, sink, user, ceiling);
      DependsOnStep(g, sink, user, k);
    }
  }

  lemma {:induction false} RankCeiling(keys: set<Key>, rank: map<Key, nat>) returns (ceiling: nat)
    requires keys <= rank.Keys
    ensures forall k :: k in keys ==> rank[k] <= ceiling
    decreases keys
  {
    if keys == {} {
      ceiling := 0;
    } else {
      var k :| k in keys;
      var below := RankCeiling(keys - {k}, rank);
      ceiling := if rank[k] > below then rank[k] else below;
    }
  }

  /** An acyclic graph with one sink: every other task transitively feeds that sink. */
  lemma SoleSinkFedByAll(g: Deps, sink: Key, k: Key)
    requires Closed(g) && Acyclic(g) && SoleSink(g, sink)
    requires k in g && k != sink
    ensures DependsOn(g, sink, k)
  {
    AcyclicIffRanked(g);
    var rank :| RankOf(g, rank);
    var ceiling := RankCeiling(rank.Keys, rank);
    FeedsSinkFromRank(g, rank, sink, k, ceiling);
  }

  /** What the visit keeps: the keys being visited lie on a walk, the visited ones are ranked. */
  ghost predicate SearchState(g: Deps, visiting: set<Key>, visited: set<Key>, path: seq<Key>, rank: map<Key, nat>) {
    && visited == rank.Keys && PartialRank(g, rank)
    && (path != [] ==> Walk(g, path))
    && visiting == (set k | k in path) && visiting <= g.Keys && visiting !! visited
  }

  lemma EnterVisit(g: Deps, visiting: set<Key>, visited: set<Key>, path: seq<Key>, rank: map<Key, nat>, key: Key)
    requires SearchState(g, visiting, visited, path, rank)
    requires key in g && key !in visited
    requires Closed(g) && (path != [] ==> Edge(g, path[|path| - 1], key))
    ensures SearchState(g, visiting + {key}, visited, path + [key], rank)
    ensures AllIn(g[key], g.Keys)
  {
    forall d | d in g[key]
      ensures d in g.Keys
    {
      assert Edge(g, key, d);
    }
    if path != [] {
      AppendStep(g, path, key);
    }
  }

  lemma LeaveVisit(g: Deps, visiting: set<Key>, visited: set<Key>, path: seq<Key>, rank: map<Key, nat>, key: Key)
    requires SearchState(g, visiting + {key}, visited, path + [key], rank)
    requires key !in visiting && visiting == (set k | k in path)
    requires key in g && AllIn(g[key], visited)
    ensures SearchState(g, visiting, visited + {key}, path, rank[key := |rank|])
    ensures visiting + {key} - {key} == visiting
  {
    RankNext(g, rank, key);
    if path != [] {
      SubWalk(g, path + [key], 0, |path|);
      assert (path + [key])[0..|path|] == path;
    }
  }

  ghost predicate AllIn(s: seq<Key>, keys: set<Key>) {
    forall k :: k in s ==> k in keys
  }

  ghost predicate FirstIn(s: seq<Key>, n: nat, keys: set<Key>) {
    forall i :: 0 <= i < n && i < |s| ==> s[i] in keys
  }

  lemma FirstInGrows(s: seq<Key>, n: nat, before: set<Key>, after: set<Key>)
    requires FirstIn(s, n, before) && before <= after && n < |s| && s[n] in after
    ensures FirstIn(s, n + 1, after)
  {
  }

  lemma FirstInAll(s: seq<Key>, keys: set<Key>)
    requires FirstIn(s, |s|, keys)
    ensures AllIn(s, keys)
  {
  }

  lemma CycleOnPath(g: Deps, path: seq<Key>, key: Key)
    requires path != [] && Walk(g, path) && key in path && Edge(g, path[|path| - 1], key)
    ensures !Acyclic(g)
  {
    var i :| 0 <= i < |path| && path[i] == key;
    SubWalk(g, path, i, |path|);
    assert path[i..|path|] == path[i..];
    AppendStep(g, path[i..], key);
    assert Cycle(g, path[i..] + [key]);
  }

  /** The recursive visit of `validate_plan` with the two sets it mutates. */
  class CycleSearch {
    const graph: Deps
    var visiting: set<Key>
    var visited: set<Key>
    ghost var path: seq<Key>
    ghost var rank: map<Key, nat>

    ghost predicate Valid()
      reads this
    {
      SearchState(graph, visiting, visited, path, rank)
    }

    constructor (graph: Deps)
      ensures Valid() && this.graph == graph && visiting == {} && path == [] && visited == {}
    {
      this.graph := graph;
      visiting, visited := {}, {};
      path, rank := [], map[];
    }

    /** `cycle` stands for the raised error: it is set exactly when a dependency cycle was met. */
    method Visit(key: Key) returns (cycle: bool)
      requires Closed(graph) && Valid() && key in graph
      requires path != [] ==> Edge(graph, path[|path| - 1], key)
      modifies this`visiting, this`visited, this`path, this`rank
      ensures cycle ==> !Acyclic(graph)
      ensures !cycle ==> Valid() && visiting == old(visiting) && path == old(path)
      ensures !cycle ==> key in visited && old(visited) <= visited
      decreases graph.Keys - visiting, 0
    {
      if key in visiting {
        CycleOnPath(graph, path, key);
        return true;
      }
      if key in visited {
        return false;
      }
      EnterVisit(graph, visiting, visited, path, rank, key);
      visiting, path := visiting + {key}, path + [key];
      cycle := VisitAll(graph[key]);
      if cycle {
        return true;
      }
      LeaveVisit(graph, old(visiting), visited, old(path), rank, key);
      visiting, visited := visiting - {key}, visited + {key};
      path, rank := old(path), rank[key := |rank|];
      return false;
    }

    /** The loop over the keys of the plan, and over the dependencies of one task. */
    method VisitAll(keys: seq<Key>) returns (cycle: bool)
      requires Closed(graph) && Valid() && AllIn(keys, graph.Keys)
      requires path != [] ==> path[|path| - 1] in graph && keys == graph[path[|path| - 1]]
      modifies this`visiting, this`visited, this`path, this`rank
      ensures cycle ==> !Acyclic(graph)
      ensures !cycle ==> Valid() && visiting == old(visiting) && path == old(path)
      ensures !cycle ==> AllIn(keys, visited) && old(visited) <= visited
      decreases graph.Keys - visiting, 1
    {
      var i := 0;
      while i < |keys|
        invariant 0 <= i <= |keys|
        invariant Valid() && visiting == old(visiting) && path == old(path)
        invariant FirstIn(keys, i, visited) && old(visited) <= visited
      {
        ghost var before := visited;
        cycle := Visit(keys[i]);
        if cycle {
          return true;
        }
        FirstInGrows(keys, i, before, visited);
        i := i + 1;
      }
      FirstInAll(keys, visited);
      return false;
    }
  }
}
