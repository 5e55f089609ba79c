/** Validation of feature plans and of the stricter autonomous-program plans. */
module Plan {
  import opened Wrappers
  import opened Graph

  /** One entry of `plan.tasks`, after decoding; absent optional fields are None. */
  datatype PlanTask = PlanTask(
    id: Key,
    request: string,
    acceptance: seq<string>,
    dependsOn: seq<Key>,
    complexity: Option<string>,
    risk: Option<string>,
    budget: Option<string>,
    checklistItems: Option<seq<string>>)

  datatype PlanError =
    | EmptyPlan
    | InvalidId(index: nat)
    | DuplicateId(key: Key)
    | MissingRequest(key: Key)
    | InvalidComplexity(key: Key)
    | InvalidRisk(key: Key)
    | InvalidBudget(key: Key)
    | UnknownDependencies(key: Key)
    | SelfDependency(key: Key)
    | DependencyCycle
    | TerminalTasks(sinks: seq<Key>)
    | TooFewTasks
    | TooManyTasks
    | MissingAcceptance(key: Key)
    | InvalidChecklist
    | DuplicateChecklist
    | MissingChecklistItems(key: Key)
    | UnknownChecklistItems(key: Key)
    | UncoveredItems(items: set<string>)

  const MIN_PROGRAM_TASKS := 2
  const MAX_PROGRAM_TASKS := 50

  predicate IsLower(c: char) { 'a' <= c <= 'z' }

  predicate IsIdChar(c: char) {
    IsLower(c) || '0' <= c <= '9' || c == '_' || c == '-'
  }

  predicate IdOk(id: string) {
    1 <= |id| <= 40 && IsLower(id[0]) && forall i :: 1 <= i < |id| ==> IsIdChar(id[i])
  }

  /** The characters `str.strip` removes. */
  predicate IsSpace(c: char) {
    var n := c as int;
    || 9 <= n <= 13 || 28 <= n <= 32 || n == 0x85 || n == 0xA0 || n == 0x1680
    || 0x2000 <= n <= 0x200A || n == 0x2028 || n == 0x2029 || n == 0x202F || n == 0x205F || n == 0x3000
  }

  predicate NonBlank(s: string) {
    exists i :: 0 <= i < |s| && !IsSpace(s[i])
  }

  predicate OneOf(value: Option<string>, allowed: seq<string>) {
    value.None? || value.value in allowed
  }

  const COMPLEXITIES := ["TRIVIAL", "STANDARD", "DIFFICULT"]
  const RISKS := ["LOW", "MEDIUM", "HIGH", "CRITICAL"]
  const BUDGETS := ["trivial", "standard", "difficult", "high-risk"]

  predicate FieldsOk(task: PlanTask) {
    && IdOk(task.id.name) && NonBlank(task.request)
    && OneOf(task.complexity, COMPLEXITIES) && OneOf(task.risk, RISKS) && OneOf(task.budget, BUDGETS)
  }

  function Keys(tasks: seq<PlanTask>): (keys: seq<Key>)
    ensures |keys| == |tasks| && forall i :: 0 <= i < |tasks| ==> keys[i] == tasks[i].id
  {
    seq(|tasks|, i requires 0 <= i < |tasks| => tasks[i].id)
  }

  lemma LastIsNew(tasks: seq<PlanTask>)
    requires tasks != []
    ensures Keys(tasks) == Keys(tasks[..|tasks| - 1]) + [tasks[|tasks| - 1].id]
    ensures Distinct(Keys(tasks)) ==> Distinct(Keys(tasks[..|tasks| - 1]))
    ensures Distinct(Keys(tasks)) ==> forall i :: 0 <= i < |tasks| - 1 ==> tasks[i].id != tasks[|tasks| - 1].id
  {
    assert forall i :: 0 <= i < |tasks| ==> Keys(tasks)[i] == tasks[i].id;
  }

  /** The dictionary built from the tasks. */
  function DepsOf(tasks: seq<PlanTask>): (g: Deps)
    ensures g.Keys == set k | k in Keys(tasks)
    ensures Distinct(Keys(tasks)) ==> forall i :: 0 <= i < |tasks| ==> g[tasks[i].id] == tasks[i].dependsOn
  {
    if tasks == [] then map[]
    else
      var last := tasks[|tasks| - 1];
      var init := tasks[..|tasks| - 1];
      LastIsNew(tasks);
      DepsOf(init)[last.id := last.dependsOn]
  }

  ghost predicate KeyEdgesOk(g: Deps, k: Key) {
    forall d :: Edge(g, k, d) ==> d in g && d != k
  }

  /** Dependencies name other tasks of the plan. */
  ghost predicate EdgesOk(g: Deps) {
    forall k :: k in g ==> KeyEdgesOk(g, k)
  }

  lemma EdgesOkClosed(g: Deps)
    requires EdgesOk(g)
    ensures Closed(g)
  {
    forall k, d | Edge(g, k, d)
      ensures d in g
    {
      assert KeyEdgesOk(g, k);
    }
  }

  /** `sinks` lists each task no other task depends on once, in plan order. */
  ghost predicate ListsSinks(g: Deps, keys: seq<Key>, sinks: seq<Key>) {
    Distinct(sinks) && (forall k :: k in sinks <==> k in keys && !Referenced(g, k)) && InOrder(keys, sinks)
  }

  ghost predicate InOrder(keys: seq<Key>, sinks: seq<Key>) {
    forall i, j :: 0 <= i < j < |sinks| ==> EarlierIn(keys, sinks[i], sinks[j])
  }

  ghost predicate TasksOk(tasks: seq<PlanTask>) {
    tasks != [] && Distinct(Keys(tasks)) && forall i :: 0 <= i < |tasks| ==> FieldsOk(tasks[i])
  }

  ghost predicate GraphOk(tasks: seq<PlanTask>) {
    TasksOk(tasks) && EdgesOk(DepsOf(tasks))
  }

  /** What a plan must satisfy, stated without the search that decides it. */
  ghost predicate ValidPlan(tasks: seq<PlanTask>) {
    GraphOk(tasks) && Acyclic(DepsOf(tasks)) && exists sink :: SoleSink(DepsOf(tasks), sink)
  }

  /** The first check that task `i` fails, in the order of the loop. */
  ghost predicate TaskErrorAt(tasks: seq<PlanTask>, i: nat, e: PlanError)
    requires i < |tasks|
  {
    var task := tasks[i];
    match e
    case InvalidId(index) => index == i && !IdOk(task.id.name)
    case DuplicateId(key) => key == task.id && IdOk(key.name) && key in Keys(tasks)[..i]
    case MissingRequest(key) => key == task.id && IdOk(key.name) && !NonBlank(task.request)
    case InvalidComplexity(key) => key == task.id && NonBlank(task.request) && !OneOf(task.complexity, COMPLEXITIES)
    case InvalidRisk(key) => key == task.id && OneOf(task.complexity, COMPLEXITIES) && !OneOf(task.risk, RISKS)
    case InvalidBudget(key) => key == task.id && OneOf(task.risk, RISKS) && !OneOf(task.budget, BUDGETS)
    case _ => false
  }

  /** The error of the first bad task. */
  ghost predicate TasksError(tasks: seq<PlanTask>, e: PlanError) {
    || (tasks == [] && e.EmptyPlan?)
    || exists i :: 0 <= i < |tasks| && TaskErrorAt(tasks, i, e) && Distinct(Keys(tasks)[..i])
                   && forall j :: 0 <= j < i ==> FieldsOk(tasks[j])
  }

  ghost predicate EdgeErrorAt(g: Deps, key: Key, e: PlanError) {
    match e
    case UnknownDependencies(k) => k == key && exists d :: Edge(g, k, d) && d !in g
    case SelfDependency(k) => k == key && Edge(g, k, k) && forall d :: Edge(g, k, d) ==> d in g
    case _ => false
  }

  /** The error of the first task with a bad dependency. */
  ghost predicate EdgesError(g: Deps, keys: seq<Key>, e: PlanError) {
    exists i :: 0 <= i < |keys| && EdgeErrorAt(g, keys[i], e) && forall j :: 0 <= j < i ==> KeyEdgesOk(g, keys[j])
  }

  /** What each error says about the plan, whose checks run in this order. */
  ghost predicate Explains(tasks: seq<PlanTask>, e: PlanError) {
    var g := DepsOf(tasks);
    || TasksError(tasks, e)
    || (TasksOk(tasks) && EdgesError(g, Keys(tasks), e))
    || (GraphOk(tasks) && !Acyclic(g) && e.DependencyCycle?)
    || (GraphOk(tasks) && Acyclic(g) && e.TerminalTasks? && ListsSinks(g, Keys(tasks), e.sinks) && |e.sinks| != 1)
  }

  /** The first loop: identifiers and enumerated fields. */
  method CheckTasks(tasks: seq<PlanTask>) returns (r: Result<seq<Key>, PlanError>)
    ensures r.Success? <==> TasksOk(tasks)
    ensures r.Success? ==> r.value == Keys(tasks)
    ensures r.Failure? ==> TasksError(tasks, r.error)
  {
    if tasks == [] {
      return Failure(EmptyPlan);
    }
    var keys: seq<Key> := [];
    for index := 0 to |tasks|
      invariant keys == Keys(tasks)[..index] && Distinct(keys)
      invariant forall i :: 0 <= i < index ==> FieldsOk(tasks[i])
    {
      var task := tasks[index];
      if !IdOk(task.id.name) {
        return Failure(InvalidId(index));
      }
      if task.id in keys {
        assert exists i :: 0 <= i < index && Keys(tasks)[i] == Keys(tasks)[index];
        assert TaskErrorAt(tasks, index, DuplicateId(task.id));
        return Failure(DuplicateId(task.id));
      }
      if !NonBlank(task.request) {
        return Failure(MissingRequest(task.id));
      }
      if !OneOf(task.complexity, COMPLEXITIES) {
        return Failure(InvalidComplexity(task.id));
      }
      if !OneOf(task.risk, RISKS) {
        return Failure(InvalidRisk(task.id));
      }
      if !OneOf(task.budget, BUDGETS) {
        return Failure(InvalidBudget(task.id));
      }
      keys := keys + [task.id];
    }
    return Success(keys);
  }

  /** The second loop: every dependency names another task of the plan. */
  method CheckEdges(graph: Deps, keys: seq<Key>) returns (r: Result<(), PlanError>)
    requires graph.Keys == set k | k in keys
    ensures r.Success? <==> EdgesOk(graph)
    ensures r.Failure? ==> EdgesError(graph, keys, r.error)
  {
    var i := 0;
    while i < |keys|
      invariant 0 <= i <= |keys|
      invariant forall j :: 0 <= j < i ==> KeyEdgesOk(graph, keys[j])
    {
      var key := keys[i];
      var deps := set d | d in graph[key];
      var missing := deps - graph.Keys;
      if missing != {} {
        var d :| d in missing;
        assert Edge(graph, key, d) && !KeyEdgesOk(graph, key);
        assert EdgeErrorAt(graph, keys[i], UnknownDependencies(key));
        return Failure(UnknownDependencies(key));
      }
      if key in graph[key] {
        assert Edge(graph, key, key) && !KeyEdgesOk(graph, key);
        assert EdgeErrorAt(graph, keys[i], SelfDependency(key)) by {
          assert forall d :: Edge(graph, key, d) ==> d in deps && d !in missing;
        }
        return Failure(SelfDependency(key));
      }
      forall d | Edge(graph, key, d)
        ensures d in graph && d != key
      {
        assert d in deps && d !in missing;
      }
      i := i + 1;
    }
    return Success(());
  }

  /**
   Raises exactly on the plans that are not valid; the cycle error exactly when the checks
   before it pass and the graph has a cycle, the terminal error exactly when it is acyclic
   but does not have one sink.
   */
  method ValidatePlan(tasks: seq<PlanTask>) returns (r: Result<seq<PlanTask>, PlanError>)
    ensures r.Success? <==> ValidPlan(tasks)
    ensures r.Success? ==> r.value == tasks
    ensures r == Failure(DependencyCycle) <==> GraphOk(tasks) && !Acyclic(DepsOf(tasks))
    ensures r.Failure? && r.error.TerminalTasks? <==>
            GraphOk(tasks) && Acyclic(DepsOf(tasks)) && forall sink :: !SoleSink(DepsOf(tasks), sink)
    ensures r.Failure? ==> Explains(tasks, r.error)
  {
    var checked := CheckTasks(tasks);
    if checked.Failure? {
      return Failure(checked.error);
    }
    var keys := checked.value;
    var graph := DepsOf(tasks);
    var edges := CheckEdges(graph, keys);
    if edges.Failure? {
      return Failure(edges.error);
    }
    EdgesOkClosed(graph);
    var cycle := HasCycle(graph, keys);
    if cycle {
      return Failure(DependencyCycle);
    }
    var sinks := FindSinks(graph, keys);
    OneListedSink(graph, keys, sinks);
    if |sinks| != 1 {
      return Failure(TerminalTasks(sinks));
    }
    return Success(tasks);
  }

  /** The depth-first search from every task. */
  method HasCycle(graph: Deps, keys: seq<Key>) returns (cycle: bool)
    requires Closed(graph) && graph.Keys == (set k | k in keys)
    ensures cycle <==> !Acyclic(graph)
  {
    var search := new CycleSearch(graph);
    cycle := search.VisitAll(keys);
    if !cycle {
      assert RankOf(graph, search.rank) by {
        forall k | k in graph
          ensures k in search.visited
        {
          assert k in keys;
        }
      }
      RankedIsAcyclic(graph, search.rank);
    }
  }

  method References(graph: Deps) returns (referenced: set<Key>)
    ensures forall d :: d in referenced <==> Referenced(graph, d)
  {
    referenced := set k, d | k in graph && d in graph[k] :: d;
    forall d
      ensures d in referenced <==> Referenced(graph, d)
    {
      ReferencedIff(graph, d);
    }
  }

  method FindSinks(graph: Deps, keys: seq<Key>) returns (sinks: seq<Key>)
    requires Distinct(keys)
    ensures ListsSinks(graph, keys, sinks)
  {
    var referenced := References(graph);
    sinks := [];
    var i := 0;
    while i < |keys|
      invariant 0 <= i <= |keys|
      invariant sinks == SinksIn(graph, keys[..i])
    {
      assert keys[..i + 1][..i] == keys[..i];
      if keys[i] !in referenced {
        sinks := sinks + [keys[i]];
      }
      i := i + 1;
    }
    assert keys[..i] == keys;
    SinksInList(graph, keys);
  }

  ghost function SinksIn(g: Deps, keys: seq<Key>): (sinks: seq<Key>) {
    if keys == [] then []
    else
      var last := keys[|keys| - 1];
      SinksIn(g, keys[..|keys| - 1]) + if Referenced(g, last) then [] else [last]
  }

  lemma {:induction false} SinksInList(g: Deps, keys: seq<Key>)
    requires Distinct(keys)
    ensures ListsSinks(g, keys, SinksIn(g, keys))
  {
    if keys == [] {
    } else {
      var front, last := keys[..|keys| - 1], keys[|keys| - 1];
      SinksInList(g, front);
      SinksOneMore(g, front, last, SinksIn(g, front));
      assert keys == front + [last];
    }
  }

  lemma ReferencedIff(g: Deps, d: Key)
    ensures Referenced(g, d) <==> exists k :: k in g && d in g[k]
  {
    assert forall k :: k in g && d in g[k] ==> Edge(g, k, d);
  }

  lemma SinksOneMore(g: Deps, front: seq<Key>, last: Key, sinks: seq<Key>)
    requires last !in front && ListsSinks(g, front, sinks)
    ensures ListsSinks(g, front + [last], sinks + if Referenced(g, last) then [] else [last])
  {
    var more := if Referenced(g, last) then [] else [last];
    forall k
      ensures k in sinks + more <==> k in front + [last] && !Referenced(g, k)
    {
      assert k in front + [last] <==> k in front || k == last;
      assert k in sinks + more <==> k in sinks || k in more;
    }
    InOrderOneMore(front, last, sinks);
    assert sinks + [] == sinks;
  }

  lemma InOrderOneMore(front: seq<Key>, last: Key, sinks: seq<Key>)
    requires InOrder(front, sinks) && forall k :: k in sinks ==> k in front
    ensures InOrder(front + [last], sinks) && InOrder(front + [last], sinks + [last])
  {
    forall a, b | 0 <= a < b < |sinks + [last]|
      ensures EarlierIn(front + [last], (sinks + [last])[a], (sinks + [last])[b])
    {
      assert sinks[a] in front;
      if b < |sinks| {
        EarlierInLonger(front, last, sinks[a], sinks[b]);
      } else {
        EarlierThanLast(front, last, sinks[a]);
      }
    }
    assert forall a :: 0 <= a < |sinks| ==> (sinks + [last])[a] == sinks[a];
  }

  lemma EarlierThanLast(order: seq<Key>, last: Key, a: Key)
    requires a in order
    ensures EarlierIn(order + [last], a, last)
  {
    var n :| 0 <= n < |order| && order[n] == a;
    assert (order + [last])[n] == a && (order + [last])[|order|] == last;
  }

  lemma EarlierInLonger(order: seq<Key>, last: Key, a: Key, b: Key)
    requires EarlierIn(order, a, b)
    ensures EarlierIn(order + [last], a, b)
  {
    var i, j :| 0 <= i < j < |order| && order[i] == a && order[j] == b;
    assert (order + [last])[i] == a && (order + [last])[j] == b;
  }

  /** The list has one entry exactly when one task is the sole sink, and then it is that task. */
  lemma OneListedSink(g: Deps, keys: seq<Key>, sinks: seq<Key>)
    requires g.Keys == (set k | k in keys) && ListsSinks(g, keys, sinks)
    ensures |sinks| == 1 <==> exists sink :: SoleSink(g, sink)
    ensures forall sink :: SoleSink(g, sink) ==> sinks == [sink]
  {
    if |sinks| == 1 {
      var sink := sinks[0];
      assert sink in sinks;
      forall k | k in g && k != sink
        ensures Referenced(g, k)
      {
        assert k in keys && k !in sinks;
      }
      assert SoleSink(g, sink);
    }
    forall sink | SoleSink(g, sink)
      ensures sinks == [sink]
    {
      assert sink in sinks;
      AllSame(sinks, sink);
    }
  }

  /** A valid plan has one terminal task, and every other task transitively feeds it. */
  lemma TerminalFedByAll(tasks: seq<PlanTask>) returns (sink: Key)
    requires ValidPlan(tasks)
    ensures SoleSink(DepsOf(tasks), sink)
    ensures forall sinks :: ListsSinks(DepsOf(tasks), Keys(tasks), sinks) ==> sinks == [sink]
    ensures forall k :: k in Keys(tasks) && k != sink ==> DependsOn(DepsOf(tasks), sink, k)
  {
    var g, keys := DepsOf(tasks), Keys(tasks);
    sink :| SoleSink(g, sink);
    EdgesOkClosed(g);
    forall sinks | ListsSinks(g, keys, sinks)
      ensures sinks == [sink]
    {
      OneListedSink(g, keys, sinks);
    }
    forall k | k in keys && k != sink
      ensures DependsOn(g, sink, k)
    {
      SoleSinkFedByAll(g, sink, k);
    }
  }

  /** Any two tasks whose fields are in order, the second depending on the first, are a valid plan. */
  lemma TwoTaskPlanIsValid(first: PlanTask, second: PlanTask)
    requires FieldsOk(first) && FieldsOk(second) && first.id != second.id
    requires first.dependsOn == [] && second.dependsOn == [first.id]
    ensures ValidPlan([first, second])
  {
    var tasks := [first, second];
    var g, keys := DepsOf(tasks), Keys(tasks);
    assert keys == [first.id, second.id];
    assert g[tasks[0].id] == [] && g[tasks[1].id] == [first.id];
    var rank: map<Key, nat> := map[first.id := 0, second.id := 1];
    assert RankOf(g, rank);
    RankedIsAcyclic(g, rank);
    assert Edge(g, second.id, first.id);
    assert forall k :: k in g ==> KeyEdgesOk(g, k);
    assert SoleSink(g, second.id) by {
      assert Referenced(g, first.id);
    }
  }

  datatype ProgramPlan = ProgramPlan(version: nat, checklist: Option<seq<string>>, tasks: seq<PlanTask>)

  ghost predicate ChecklistOk(checklist: seq<string>) {
    checklist != [] && Distinct(checklist) && forall i :: 0 <= i < |checklist| ==> NonBlank(checklist[i])
  }

  /** Task items come from the checklist, every task has some, and every checklist item is claimed by a task. */
  ghost predicate Covers(tasks: seq<PlanTask>, checklist: seq<string>) {
    && (forall i :: 0 <= i < |tasks| ==> ClaimsFrom(tasks[i], checklist))
    && (forall item :: item in checklist ==> Claimed(tasks, item))
  }

  ghost predicate ClaimsFrom(task: PlanTask, checklist: seq<string>) {
    && task.checklistItems.Some? && task.checklistItems.value != []
    && forall item :: item in task.checklistItems.value ==> item in checklist
  }

  ghost predicate Claimed(tasks: seq<PlanTask>, item: string) {
    exists i :: 0 <= i < |tasks| && tasks[i].checklistItems.Some? && item in tasks[i].checklistItems.value
  }

  ghost predicate AllAccepted(tasks: seq<PlanTask>) {
    forall i :: 0 <= i < |tasks| ==> tasks[i].acceptance != []
  }

  ghost predicate ValidProgram(tasks: seq<PlanTask>, checklist: Option<seq<string>>) {
    && ValidPlan(tasks)
    && MIN_PROGRAM_TASKS <= |tasks| <= MAX_PROGRAM_TASKS
    && AllAccepted(tasks)
    && (checklist.Some? ==> ChecklistOk(checklist.value) && Covers(tasks, checklist.value))
  }

  function Members(s: seq<string>): set<string> { set x | x in s }

  lemma {:induction false} MembersCount(s: seq<string>)
    ensures |Members(s)| <= |s|
    ensures |Members(s)| == |s| <==> Distinct(s)
  {
    if s != [] {
      var init, last := s[..|s| - 1], s[|s| - 1];
      MembersCount(init);
      assert s == init + [last];
      assert Members(s) == Members(init) + {last};
      if last in init {
        var i :| 0 <= i < |init| && init[i] == last;
        assert Members(s) == Members(init) && s[i] == s[|s| - 1];
      } else {
        assert |Members(s)| == |Members(init)| + 1;
        assert Distinct(init) ==> Distinct(s) by {
          forall i, j | Distinct(init) && 0 <= i < j < |s|
            ensures s[i] != s[j]
          {
            assert s[i] == init[i];
          }
        }
        assert Distinct(s) ==> Distinct(init) by {
          forall i, j | Distinct(s) && 0 <= i < j < |init|
            ensures init[i] != init[j]
          {
            assert s[i] != s[j];
          }
        }
      }
    }
  }

  ghost predicate CoverageErrorAt(task: PlanTask, checklist: seq<string>, e: PlanError) {
    match e
    case MissingChecklistItems(key) => key == task.id && (task.checklistItems.None? || task.checklistItems.value == [])
    case UnknownChecklistItems(key) =>
      && key == task.id && task.checklistItems.Some?
      && exists item :: item in task.checklistItems.value && item !in checklist
    case _ => false
  }

  /** What each error says about the checklist, whose checks run in this order. */
  ghost predicate ExplainsCoverage(tasks: seq<PlanTask>, checklist: seq<string>, e: PlanError) {
    || (e.InvalidChecklist? && (checklist == [] || exists i :: 0 <= i < |checklist| && !NonBlank(checklist[i])))
    || (e.DuplicateChecklist? && checklist != [] && !Distinct(checklist))
    || (exists i :: 0 <= i < |tasks| && CoverageErrorAt(tasks[i], checklist, e)
                    && forall j :: 0 <= j < i ==> ClaimsFrom(tasks[j], checklist))
    || (e.UncoveredItems? && e.items != {} && e.items == set item | item in checklist && !Claimed(tasks, item))
  }

  /** What each error of the stricter validation says. */
  ghost predicate ExplainsProgram(tasks: seq<PlanTask>, checklist: Option<seq<string>>, e: PlanError) {
    || Explains(tasks, e)
    || (ValidPlan(tasks)
        && match e
           case TooFewTasks => |tasks| < MIN_PROGRAM_TASKS
           case TooManyTasks => |tasks| > MAX_PROGRAM_TASKS
           case MissingAcceptance(key) => FirstUnaccepted(tasks, key)
           case _ => AllAccepted(tasks) && checklist.Some? && ExplainsCoverage(tasks, checklist.value, e))
  }

  ghost predicate FirstUnaccepted(tasks: seq<PlanTask>, key: Key) {
    exists i :: 0 <= i < |tasks| && tasks[i].id == key && tasks[i].acceptance == []
                && forall j :: 0 <= j < i ==> tasks[j].acceptance != []
  }

  /** Grows the set of covered items task by task. */
  method CheckCoverage(tasks: seq<PlanTask>, checklist: seq<string>) returns (r: Result<(), PlanError>)
    ensures r.Success? <==> ChecklistOk(checklist) && Covers(tasks, checklist)
    ensures r.Failure? ==> ExplainsCoverage(tasks, checklist, r.error)
    ensures r.Failure? ==> !r.error.TooFewTasks? && !r.error.TooManyTasks? && !r.error.MissingAcceptance?
  {
    if checklist == [] || exists i :: 0 <= i < |checklist| && !NonBlank(checklist[i]) {
      return Failure(InvalidChecklist);
    }
    MembersCount(checklist);
    if |Members(checklist)| != |checklist| {
      return Failure(DuplicateChecklist);
    }
    var known := Members(checklist);
    var covered: set<string> := {};
    for i := 0 to |tasks|
      invariant forall j :: 0 <= j < i ==> ClaimsFrom(tasks[j], checklist)
      invariant forall item :: item in covered <==> Claimed(tasks[..i], item)
    {
      var items := tasks[i].checklistItems;
      if items.None? || items.value == [] {
        assert !ClaimsFrom(tasks[i], checklist);
        assert CoverageErrorAt(tasks[i], checklist, MissingChecklistItems(tasks[i].id));
        return Failure(MissingChecklistItems(tasks[i].id));
      }
      var unknown := Members(items.value) - known;
      if unknown != {} {
        var item :| item in unknown;
        assert !ClaimsFrom(tasks[i], checklist) && item in items.value && item !in checklist;
        assert CoverageErrorAt(tasks[i], checklist, UnknownChecklistItems(tasks[i].id));
        return Failure(UnknownChecklistItems(tasks[i].id));
      }
      assert ClaimsFrom(tasks[i], checklist) by {
        forall item | item in items.value
          ensures item in checklist
        {
          assert item in Members(items.value) && item !in unknown;
        }
      }
      forall item
        ensures Claimed(tasks[..i + 1], item) <==> Claimed(tasks[..i], item) || item in items.value
      {
        if Claimed(tasks[..i], item) {
          var j :| 0 <= j < i && tasks[..i][j].checklistItems.Some? && item in tasks[..i][j].checklistItems.value;
          assert tasks[..i + 1][j] == tasks[j];
        }
        if item in items.value {
          assert tasks[..i + 1][i] == tasks[i];
        }
        if Claimed(tasks[..i + 1], item) && item !in items.value {
          var j :| 0 <= j < i + 1 && tasks[..i + 1][j].checklistItems.Some? && item in tasks[..i + 1][j].checklistItems.value;
          assert tasks[..i][j] == tasks[j];
        }
      }
      covered := covered + Members(items.value);
    }
    assert tasks[..|tasks|] == tasks;
    var missing := known - covered;
    if missing != {} {
      var item :| item in missing;
      assert item in checklist && !Claimed(tasks, item);
      assert missing == set item | item in checklist && !Claimed(tasks, item);
      return Failure(UncoveredItems(missing));
    }
    forall item | item in checklist
      ensures Claimed(tasks, item)
    {
      assert item in known && item !in missing;
    }
    return Success(());
  }

  method CheckAcceptance(tasks: seq<PlanTask>) returns (r: Result<(), PlanError>)
    ensures r.Success? <==> AllAccepted(tasks)
    ensures r.Failure? ==> r.error.MissingAcceptance? && FirstUnaccepted(tasks, r.error.key)
  {
    for i := 0 to |tasks|
      invariant forall j :: 0 <= j < i ==> tasks[j].acceptance != []
    {
      if tasks[i].acceptance == [] {
        return Failure(MissingAcceptance(tasks[i].id));
      }
    }
    return Success(());
  }

  /** Accepts exactly the valid programs. */
  method ValidateProgramPlan(tasks: seq<PlanTask>, checklist: Option<seq<string>>)
      returns (r: Result<ProgramPlan, PlanError>)
    ensures r.Success? <==> ValidProgram(tasks, checklist)
    ensures r.Success? ==> r.value == ProgramPlan(if checklist.Some? then 3 else 2, checklist, tasks)
    ensures r.Failure? ==> ExplainsProgram(tasks, checklist, r.error)
  {
    var validated := ValidatePlan(tasks);
    if validated.Failure? {
      return Failure(validated.error);
    }
    if |tasks| < MIN_PROGRAM_TASKS {
      return Failure(TooFewTasks);
    }
    if |tasks| > MAX_PROGRAM_TASKS {
      return Failure(TooManyTasks);
    }
    var acceptance := CheckAcceptance(tasks);
    if acceptance.Failure? {
      return Failure(acceptance.error);
    }
    if checklist.Some? {
      var coverage := CheckCoverage(tasks, checklist.value);
      if coverage.Failure? {
        return Failure(coverage.error);
      }
    }
    return Success(ProgramPlan(if checklist.Some? then 3 else 2, checklist, tasks));
  }
}
