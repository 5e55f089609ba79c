/**
 The program under every interleaving: supervisor, workers, operators, crashes and recovery each
 take one transaction or one git command at a time.
 */
module ProgramMachine {
  import opened Wrappers
  import opened Graph
  import opened Program
  import opened GitOps
  import opened Chaining

  /** Where a supervisor stands in its promotion pass. */
  datatype Pending = Idle | Checked(key: Key) | Made(key: Key, commit: Commit)

  /** A supervising process with the jobs it dispatched. */
  datatype Supervisor = Supervisor(active: seq<Key>, pending: Pending)

  /** An operator's command between its check and its write: `accept` commits in between. */
  datatype Human = Committing(key: Key) | Recording(key: Key, commit: Commit) | Rejecting(key: Key) | Cancelling(key: Key)

  /**
   The recorded worktrees. `maker` is the job each commit was made for; `passes` and `commits`
   count the worker passes and the commits of a job.
   */
  datatype Git = Git(trees: map<Key, Repo>, next: Commit, maker: map<Commit, Key>, passes: map<Key, nat>, commits: map<Key, nat>)

  /**
   `overlapped` tells whether a run was ever claimed while another supervisor was still up, `live`
   are the jobs some controller is working on, `orphans` the worktrees that exist on disk but not
   in the database, `refusals` the errors raised by `promote_program_task`.
   */
  datatype Prog = Prog(t: Tables, sups: map<Owner, Supervisor>, overlapped: bool, live: set<Key>, git: Git,
                       orphans: set<Key>, humans: set<Human>, refusals: seq<PromoteResult>)

  datatype Action =
    | ClaimRun(owner: Owner, now: int, lease: int)
    | CheckTask(owner: Owner, key: Key)
    | CommitTask(owner: Owner)
    | RecordTask(owner: Owner)
    | Dispatch(owner: Owner, limit: nat)
    | Enter(key: Key)
    | WorkerPass(key: Key, changed: bool)
    | WorkerState(key: Key, state: JobState)
    | Leave(key: Key)
    | Collect(owner: Owner, key: Key, raised: bool)
    | Crash(owner: Owner, survivors: set<Key>)
    | Stop(owner: Owner, feature: FeatureState)
    | Recover(key: Key, state: JobState)
    | AcceptCheck(key: Key)
    | AcceptCommit(key: Key, allowEmpty: bool)
    | AcceptRecord(key: Key, commit: Commit)
    | RejectCheck(key: Key)
    | RejectWrite(key: Key)
    | CancelCheck(key: Key)
    | CancelWrite(key: Key)
    | Quit(human: Human)
    | SetProgram(feature: FeatureState)

  /** Some supervisor dispatched `k` and has not collected it. */
  predicate ActiveIn(s: Prog, k: Key) {
    exists o {:trigger s.sups[o]} :: o in s.sups && k in s.sups[o].active
  }

  function Without(keys: seq<Key>, k: Key): (r: seq<Key>)
    ensures forall x :: x in r <==> x in keys && x != k
    ensures |r| <= |keys| && (Distinct(keys) ==> Distinct(r))
  {
    if keys == [] then []
    else
      assert Distinct(keys) ==> keys[|keys| - 1] !in keys[..|keys| - 1];
      var front := Without(keys[..|keys| - 1], k);
      var last := keys[|keys| - 1];
      if last == k then front else front + [last]
  }

  /** The loop that submits ready jobs which are not running. */
  function Submit(active: seq<Key>, ready: seq<Key>): (r: seq<Key>)
    ensures forall x :: x in r <==> x in active || x in ready
    ensures |r| <= |active| + |ready| && (Distinct(active) ==> Distinct(r))
  {
    if ready == [] then active
    else
      var front := Submit(active, ready[..|ready| - 1]);
      var last := ready[|ready| - 1];
      if last in front then front else front + [last]
  }

  ghost predicate Ordered(sh: Shape) {
    forall k :: k in sh.order ==> k in sh.priority
  }

  /** `commit_idempotent` on the worktree of `k`; a tree with nothing to commit raises and changes nothing. */
  function CommitTree(g: Git, k: Key, allowEmpty: bool): (g': Git)
    requires k in g.trees
  {
    if !Committable(g.trees[k], allowEmpty) || Committed(g.trees[k]) then g
    else
      g.(trees := g.trees[k := CommitIdempotent(g.trees[k], allowEmpty, g.next).value],
         next := g.next + 1, maker := g.maker[g.next := k], commits := g.commits[k := Count(g.commits, k) + 1])
  }

  function CreateTree(g: Git, k: Key): (g': Git) {
    if k in g.trees then g else g.(trees := g.trees[k := Repo(g.next, g.next, false, false)], next := g.next + 1)
  }

  /** A worker edits; `normalize_worker_commits` puts the head back on the baseline. */
  function WorkIn(g: Git, k: Key, changed: bool): (g': Git)
    requires k in g.trees
  {
    g.(trees := g.trees[k := Repo(g.trees[k].baseline, g.trees[k].baseline, changed, false)],
       passes := g.passes[k := Count(g.passes, k) + 1])
  }

  predicate GitMove(g: Git, g': Git, j: Key) {
    || g' == CreateTree(g, j)
    || (j in g.trees && (g' == CommitTree(g, j, true) || g' == CommitTree(g, j, false)))
    || (j in g.trees && (g' == WorkIn(g, j, true) || g' == WorkIn(g, j, false)))
  }

  function Count(m: map<Key, nat>, k: Key): (n: nat) {
    if k in m then m[k] else 0
  }

  predicate DepsChained(sh: Shape, rows: map<Key, Row>, k: Key)
    requires k in sh.deps
  {
    forall d :: d in sh.deps[k] ==> Chained(rows, d)
  }

  /** All prerequisites that `dependency_commits` would visit have a commit. */
  ghost predicate Chainable(sh: Shape, rows: map<Key, Row>, k: Key) {
    forall d :: DependsOn(sh.deps, k, d) ==> Chained(rows, d)
  }

  /**
   `ensure_worktree` and the state check of `run_job`: a clean worktree found on disk is adopted
   as it is; otherwise one is created, and recorded only once every prerequisite was integrated.
   */
  ghost function EnterJob(sh: Shape, s: Prog, k: Key): (s': Prog)
    requires k in s.t.rows
  {
    if k in s.live then s
    else if k in s.git.trees || k in s.orphans || Chainable(sh, s.t.rows, k) then
      var recorded := s.(git := CreateTree(s.git, k));
      if s.t.rows[k].state.Accepted? || s.t.rows[k].state.Cancelled? then recorded
      else recorded.(live := s.live + {k})
    else s.(orphans := s.orphans + {k})
  }

  /** `promote_program_task`; a task promoted before with the same commit is passed over silently. */
  function RecordCommit(sh: Shape, s: Prog, o: Owner, k: Key, commit: Commit): (s': Prog)
    requires k in s.t.rows && o in s.sups
  {
    var outcome := PromoteOutcome(sh, s.t.rows, k, commit);
    s.(t := Promote(sh, s.t, k, commit), sups := s.sups[o := s.sups[o].(pending := Idle)],
       refusals := if outcome.Promoted? || outcome.AlreadyPromoted? then s.refusals else s.refusals + [outcome])
  }

  function SetJob(s: Prog, k: Key, state: JobState): (s': Prog)
    requires k in s.t.rows
  {
    s.(t := s.t.(rows := WithState(s.t.rows, k, state)))
  }

  predicate Rejectable(state: JobState) { state.Ready? || state.Failed? || state.Retry? || state.Blocked? }

  /** One step; a step that is not enabled changes nothing. */
  ghost function Step(sh: Shape, workers: nat, s: Prog, a: Action): (s': Prog)
    requires Ordered(sh)
  {
    var rows := s.t.rows;
    match a
    case ClaimRun(o, now, lease) =>
      var claim := Claim(s.t, o, now, lease);
      if o !in s.sups && claim.0
      then s.(t := claim.1, sups := s.sups[o := Supervisor([], Idle)], overlapped := s.overlapped || s.sups != map[]) else s
    case CheckTask(o, k) =>
      if o in s.sups && s.sups[o].pending.Idle? && k !in s.sups[o].active && Promotable(sh, rows, k) && k in s.git.trees
      then s.(sups := s.sups[o := s.sups[o].(pending := Checked(k))]) else s
    case CommitTask(o) =>
      if o in s.sups && s.sups[o].pending.Checked? && s.sups[o].pending.key in s.git.trees then
        var k := s.sups[o].pending.key;
        var git := CommitTree(s.git, k, false);
        var next := if Committed(git.trees[k]) then Made(k, git.trees[k].head) else Idle;
        s.(git := git, sups := s.sups[o := s.sups[o].(pending := next)])
      else s
    case RecordTask(o) =>
      if o in s.sups && s.sups[o].pending.Made? && s.sups[o].pending.key in rows
      then RecordCommit(sh, s, o, s.sups[o].pending.key, s.sups[o].pending.commit) else s
    case Dispatch(o, limit) =>
      if o in s.sups && s.sups[o].pending.Idle? && |s.sups[o].active| + limit <= workers
      then s.(sups := s.sups[o := s.sups[o].(active := Submit(s.sups[o].active, ReadyJobs(sh, s.t, limit)))]) else s
    case Enter(k) => if k in rows then EnterJob(sh, s, k) else s
    case WorkerPass(k, changed) =>
      if k in s.live && k in s.git.trees then s.(git := WorkIn(s.git, k, changed)) else s
    case WorkerState(k, state) =>
      if k in s.live && k in rows && !state.Accepted? && !state.Queued? && !state.Cancelled? then SetJob(s, k, state) else s
    case Leave(k) => s.(live := s.live - {k})
    case Collect(o, k, raised) =>
      if o in s.sups && k in s.sups[o].active && k in rows then
        var popped := s.(sups := s.sups[o := s.sups[o].(active := Without(s.sups[o].active, k))]);
        if raised then SetJob(popped, k, Blocked) else popped
      else s
    case Crash(o, survivors) => if o in s.sups then s.(sups := s.sups - {o}, live := s.live * survivors) else s
    case Stop(o, state) => if o in s.sups then s.(t := Release(s.t, o, state), sups := s.sups - {o}) else s
    case Recover(k, state) =>
      if k in rows && InFlight(rows[k].state) && (state.Ready? || state.Retry? || state.Failed?) then SetJob(s, k, state) else s
    case AcceptCheck(k) =>
      if k in rows && rows[k].state.Ready? && k in s.git.trees then s.(humans := s.humans + {Committing(k)}) else s
    case AcceptCommit(k, allowEmpty) =>
      if Committing(k) in s.humans && k in s.git.trees then
        var git := CommitTree(s.git, k, allowEmpty);
        s.(git := git, humans := s.humans - {Committing(k)} +
                                 if Committed(git.trees[k]) then {Recording(k, git.trees[k].head)} else {})
      else s
    case AcceptRecord(k, commit) =>
      if Recording(k, commit) in s.humans && k in rows
      then s.(t := Accept(sh, s.t, k, commit), humans := s.humans - {Recording(k, commit)}) else s
    case RejectCheck(k) =>
      if k in rows && Rejectable(rows[k].state) then s.(humans := s.humans + {Rejecting(k)}) else s
    case RejectWrite(k) =>
      if Rejecting(k) in s.humans && k in rows then SetJob(s, k, Retry).(humans := s.humans - {Rejecting(k)}) else s
    case CancelCheck(k) =>
      if k in rows && !rows[k].state.Accepted? then s.(humans := s.humans + {Cancelling(k)}) else s
    case CancelWrite(k) =>
      if Cancelling(k) in s.humans && k in rows then SetJob(s, k, Cancelled).(humans := s.humans - {Cancelling(k)}) else s
    case Quit(human) => s.(humans := s.humans - {human})
    case SetProgram(state) => s.(t := s.t.(feature := state, owner := None))
  }

  ghost function Exec(sh: Shape, workers: nat, s: Prog, trace: seq<Action>): (s': Prog)
    requires Ordered(sh)
  {
    if trace == [] then s else Step(sh, workers, Exec(sh, workers, s, trace[..|trace| - 1]), trace[|trace| - 1])
  }

  lemma ExecMore(sh: Shape, workers: nat, s: Prog, trace: seq<Action>, a: Action)
    requires Ordered(sh)
    ensures Exec(sh, workers, s, trace + [a]) == Step(sh, workers, Exec(sh, workers, s, trace), a)
  {
    assert (trace + [a])[..|trace|] == trace;
  }

  /** One more line of a run, three steps long. */
  lemma ExecLine(sh: Shape, workers: nat, s: Prog, trace: seq<Action>, x: Action, y: Action, z: Action)
    requires Ordered(sh)
    ensures Exec(sh, workers, s, trace + [x, y, z]) ==
              Step(sh, workers, Step(sh, workers, Step(sh, workers, Exec(sh, workers, s, trace), x), y), z)
  {
    ExecMore(sh, workers, s, trace, x);
    ExecMore(sh, workers, s, trace + [x], y);
    ExecMore(sh, workers, s, trace + [x] + [y], z);
    assert trace + [x] + [y] + [z] == trace + [x, y, z];
  }

  /**
   A controller may enter a job that the supervisor dispatched, or one whose prerequisites have
   commits. `pmc run` does not check this when it adopts a worktree found on disk.
   */
  predicate Supervised(sh: Shape, s: Prog, a: Action) {
    a.Enter? && a.key in sh.deps ==> ActiveIn(s, a.key) || a.key in s.live || DepsChained(sh, s.t.rows, a.key)
  }

  ghost predicate StepOf(sh: Shape, workers: nat, states: seq<Prog>, actions: seq<Action>, i: nat)
    requires Ordered(sh) && i < |actions| && |states| == |actions| + 1
  {
    Supervised(sh, states[i], actions[i]) && states[i + 1] == Step(sh, workers, states[i], actions[i])
  }

  /** A run of supervised steps from an approved program. */
  ghost predicate IsRun(sh: Shape, workers: nat, states: seq<Prog>, actions: seq<Action>)
    requires Ordered(sh)
  {
    && |states| == |actions| + 1 && Initial(sh, states[0])
    && forall i {:trigger StepOf(sh, workers, states, actions, i)} :: 0 <= i < |actions| ==>
              StepOf(sh, workers, states, actions, i)
  }

  ghost predicate Reachable(sh: Shape, workers: nat, s: Prog)
    requires Ordered(sh)
  {
    exists states, actions :: IsRun(sh, workers, states, actions) && s == states[|actions|]
  }

  predicate Begun(row: Row) {
    InFlight(row.state) || row.state.Ready? || row.state.Accepted? || row.promoted || row.accepted.Some?
  }

  predicate Started(s: Prog, k: Key)
    requires k in s.t.rows
  {
    Begun(s.t.rows[k]) || k in s.live || ActiveIn(s, k)
  }

  predicate MadeFor(g: Git, c: Commit, k: Key) { c in g.maker && g.maker[c] == k }

  ghost predicate MakerBelow(g: Git) {
    forall c :: c in g.maker ==> c < g.next
  }

  /** The tree of `k` holds nothing that was not committed. */
  predicate Done(g: Git, k: Key) {
    k in g.trees && Committed(g.trees[k])
  }

  /** Commits made for `k`, plus one if it may still get one. */
  function CommitBudget(g: Git, k: Key): (n: nat) {
    Count(g.commits, k) + if Done(g, k) then 0 else 1
  }

  /** The head of a worktree is its baseline or a commit made for its job; each commit but an empty first one has its pass. */
  predicate TreeAt(g: Git, k: Key) {
    && (k in g.trees ==>
          && g.trees[k].baseline < g.next && g.trees[k].head < g.next
          && (g.trees[k].head != g.trees[k].baseline ==> MadeFor(g, g.trees[k].head, k)))
    && CommitBudget(g, k) <= Count(g.passes, k) + 1
  }

  ghost predicate GitOk(g: Git) {
    MakerBelow(g) && forall k {:trigger TreeAt(g, k)} :: TreeAt(g, k)
  }

  predicate RowAt(sh: Shape, s: Prog, k: Key)
    requires k in s.t.rows
  {
    var row := s.t.rows[k];
    && (row.state.Accepted? ==> row.accepted.Some?)
    && (row.promoted ==> k != sh.terminal && row.verified.Some? && MadeFor(s.git, row.verified.value, k))
    && (row.accepted.Some? ==> MadeFor(s.git, row.accepted.value, k))
  }

  predicate SafeAt(sh: Shape, s: Prog, k: Key)
    requires k in s.t.rows && k in sh.deps
  {
    Started(s, k) ==> DepsChained(sh, s.t.rows, k)
  }

  /** A supervisor holds distinct jobs within its pool, and promotes milestones with commits made for them. */
  ghost predicate SupAt(sh: Shape, workers: nat, s: Prog, o: Owner)
    requires o in s.sups
  {
    && Distinct(s.sups[o].active) && |s.sups[o].active| <= workers
    && match s.sups[o].pending
       case Idle => true
       case Checked(k) => k in s.t.rows && k != sh.terminal
       case Made(k, c) => k in s.t.rows && k != sh.terminal && MadeFor(s.git, c, k)
  }

  predicate HumanAt(sh: Shape, s: Prog, h: Human) {
    match h
    case Committing(k) => k in sh.deps && DepsChained(sh, s.t.rows, k)
    case Recording(k, c) => k in sh.deps && DepsChained(sh, s.t.rows, k) && MadeFor(s.git, c, k)
    case _ => true
  }

  /** Nobody but the one supervisor promotes, so what it is about to promote is not promoted yet. */
  predicate AloneAt(s: Prog, o: Owner)
    requires o in s.sups
  {
    && s.sups.Keys == {o}
    && (!s.sups[o].pending.Idle? && s.sups[o].pending.key in s.t.rows ==> !s.t.rows[s.sups[o].pending.key].promoted)
  }

  ghost predicate Alone(s: Prog) {
    && (forall o {:trigger AloneAt(s, o)} :: o in s.sups ==> AloneAt(s, o))
    && (forall i :: 0 <= i < |s.refusals| ==> s.refusals[i].NotReady?)
  }

  ghost predicate Inv(sh: Shape, workers: nat, s: Prog) {
    && s.t.rows.Keys == sh.deps.Keys
    && (forall k {:trigger SafeAt(sh, s, k)} :: k in s.t.rows ==> SafeAt(sh, s, k))
    && (forall k {:trigger RowAt(sh, s, k)} :: k in s.t.rows ==> RowAt(sh, s, k))
    && GitOk(s.git)
    && (forall o {:trigger SupAt(sh, workers, s, o)} :: o in s.sups ==> SupAt(sh, workers, s, o))
    && (forall h {:trigger HumanAt(sh, s, h)} :: h in s.humans ==> HumanAt(sh, s, h))
    && (forall i :: 0 <= i < |s.refusals| ==> s.refusals[i].NotReady? || s.refusals[i].AnotherCommit?)
    && (!s.overlapped ==> Alone(s))
  }

  ghost predicate Initial(sh: Shape, s: Prog) {
    && s.t.rows.Keys == sh.deps.Keys && (forall k :: k in s.t.rows ==> s.t.rows[k] == Row(Queued, false, None, None))
    && s.sups == map[] && !s.overlapped && s.live == {} && s.orphans == {} && s.humans == {} && s.refusals == []
    && s.git.trees == map[] && s.git.maker == map[] && s.git.passes == map[] && s.git.commits == map[]
  }

  /** Commits of prerequisites are never taken back. */
  ghost predicate KeepsCommits(before: map<Key, Row>, after: map<Key, Row>) {
    && KeepsPromotions(before, after)
    && forall k :: k in before && before[k].accepted.Some? ==> after[k].accepted.Some?
  }

  lemma StepKeepsCommits(sh: Shape, workers: nat, s: Prog, a: Action)
    requires Ordered(sh)
    ensures KeepsCommits(s.t.rows, Step(sh, workers, s, a).t.rows)
  {
    StepKeepsKeys(sh, workers, s, a);
    forall k | k in s.t.rows
      ensures KeepsRow(s.t.rows[k], Step(sh, workers, s, a).t.rows[k])
    {
      StepKeepsRow(sh, workers, s, a, k);
    }
  }

  predicate KeepsRow(before: Row, after: Row) {
    && (before.promoted ==> after.promoted && after.verified == before.verified)
    && (before.accepted.Some? ==> after.accepted.Some?)
  }

  lemma StepKeepsKeys(sh: Shape, workers: nat, s: Prog, a: Action)
    requires Ordered(sh)
    ensures Step(sh, workers, s, a).t.rows.Keys == s.t.rows.Keys
  {
  }

  /** What one step may do to the row of `k`: set its state, promote it, or accept it. */
  predicate RowMove(sh: Shape, s: Prog, a: Action, k: Key, after: Row)
    requires k in s.t.rows
  {
    var before := s.t.rows[k];
    || (after == before.(state := after.state)
        && (after.state == before.state || (!after.state.Accepted? && (Begun(after) ==> Begun(before) || k in s.live))))
    || (a.RecordTask? && a.owner in s.sups && s.sups[a.owner].pending.Made? && s.sups[a.owner].pending.key == k
        && PromoteOutcome(sh, s.t.rows, k, s.sups[a.owner].pending.commit).Promoted?
        && after == before.(promoted := true, verified := Some(s.sups[a.owner].pending.commit)))
    || (a.AcceptRecord? && a.key == k && Recording(k, a.commit) in s.humans
        && after == before.(state := JobState.Accepted, accepted := Some(a.commit)))
  }

  lemma StepMovesRow(sh: Shape, workers: nat, s: Prog, a: Action, k: Key)
    requires Ordered(sh) && k in s.t.rows && k in Step(sh, workers, s, a).t.rows
    ensures RowMove(sh, s, a, k, Step(sh, workers, s, a).t.rows[k])
  {
  }

  lemma StepKeepsRow(sh: Shape, workers: nat, s: Prog, a: Action, k: Key)
    requires Ordered(sh) && k in s.t.rows && k in Step(sh, workers, s, a).t.rows
    ensures KeepsRow(s.t.rows[k], Step(sh, workers, s, a).t.rows[k])
  {
    StepMovesRow(sh, workers, s, a, k);
  }

  lemma ChainedStays(sh: Shape, before: map<Key, Row>, after: map<Key, Row>, k: Key)
    requires KeepsCommits(before, after) && k in sh.deps
    ensures DepsChained(sh, before, k) ==> DepsChained(sh, after, k)
  {
  }

  lemma GitSteps(sh: Shape, workers: nat, s: Prog, a: Action)
    requires Ordered(sh)
    ensures Step(sh, workers, s, a).git == s.git || exists j :: GitMove(s.git, Step(sh, workers, s, a).git, j)
  {
    var s' := Step(sh, workers, s, a);
    if s'.git != s.git {
      match a
      case CommitTask(o) => assert GitMove(s.git, s'.git, s.sups[o].pending.key);
      case AcceptCommit(k, allowEmpty) => assert s'.git == CommitTree(s.git, k, allowEmpty) && GitMove(s.git, s'.git, k);
      case WorkerPass(k, changed) => assert s'.git == WorkIn(s.git, k, changed) && GitMove(s.git, s'.git, k);
      case Enter(k) => assert GitMove(s.git, s'.git, k);
      case _ => assert false;
    }
  }

  lemma GitMoveKeeps(g: Git, g': Git, j: Key, k: Key)
    requires GitMove(g, g', j) && MakerBelow(g) && TreeAt(g, k)
    ensures TreeAt(g', k)
  {
    if g' == CreateTree(g, j) {
      CreateKeeps(g, j, k);
    } else if g' == CommitTree(g, j, true) {
      CommitKeeps(g, j, true, k);
    } else if g' == CommitTree(g, j, false) {
      CommitKeeps(g, j, false, k);
    }
  }

  lemma CreateKeeps(g: Git, j: Key, k: Key)
    requires TreeAt(g, k)
    ensures TreeAt(CreateTree(g, j), k)
  {
  }

  lemma CommitKeeps(g: Git, j: Key, allowEmpty: bool, k: Key)
    requires j in g.trees && MakerBelow(g) && TreeAt(g, k)
    ensures TreeAt(CommitTree(g, j, allowEmpty), k)
  {
  }

  lemma GitMoveGrows(g: Git, g': Git, j: Key)
    requires GitMove(g, g', j) && MakerBelow(g)
    ensures MakerBelow(g') && forall c, k :: MadeFor(g, c, k) ==> MadeFor(g', c, k)
  {
  }

  /** Every commit keeps its job. */
  ghost predicate MakersKept(g: Git, g': Git) {
    forall c, k :: MadeFor(g, c, k) ==> MadeFor(g', c, k)
  }

  lemma StepKeepsRowAt(sh: Shape, workers: nat, s: Prog, a: Action, k: Key)
    requires Ordered(sh) && k in s.t.rows && k in Step(sh, workers, s, a).t.rows
    requires RowAt(sh, s, k) && MakersKept(s.git, Step(sh, workers, s, a).git)
    requires a.RecordTask? && a.owner in s.sups ==> SupAt(sh, workers, s, a.owner)
    requires a.AcceptRecord? && Recording(a.key, a.commit) in s.humans ==> HumanAt(sh, s, Recording(a.key, a.commit))
    ensures RowAt(sh, Step(sh, workers, s, a), k)
  {
    StepMovesRow(sh, workers, s, a, k);
  }

  lemma StepEnters(sh: Shape, workers: nat, s: Prog, a: Action, k: Key)
    requires Ordered(sh) && k in Step(sh, workers, s, a).live
    ensures k in s.live || (a.Enter? && a.key == k)
  {
  }

  lemma StepActivates(sh: Shape, workers: nat, s: Prog, a: Action, o: Owner, k: Key)
    requires Ordered(sh) && o in Step(sh, workers, s, a).sups && k in Step(sh, workers, s, a).sups[o].active
    ensures (o in s.sups && k in s.sups[o].active) || (a.Dispatch? && Eligible(sh, s.t.rows, k))
  {
  }

  /** Only dispatching, entering and recording an acceptance start a job. */
  lemma StepStarts(sh: Shape, workers: nat, s: Prog, a: Action, k: Key)
    requires Ordered(sh) && k in s.t.rows && k in Step(sh, workers, s, a).t.rows
    ensures Started(Step(sh, workers, s, a), k) ==>
              || Started(s, k) || (a.Enter? && a.key == k) || (a.Dispatch? && Eligible(sh, s.t.rows, k))
              || (a.AcceptRecord? && a.key == k && Recording(k, a.commit) in s.humans)
  {
    var s' := Step(sh, workers, s, a);
    StepMovesRow(sh, workers, s, a, k);
    if k in s'.live {
      StepEnters(sh, workers, s, a, k);
    } else if ActiveIn(s', k) {
      var o :| o in s'.sups && k in s'.sups[o].active;
      StepActivates(sh, workers, s, a, o, k);
    }
  }

  lemma StepKeepsSafeAt(sh: Shape, workers: nat, s: Prog, a: Action, k: Key)
    requires Ordered(sh) && Supervised(sh, s, a)
    requires k in s.t.rows && k in sh.deps && SafeAt(sh, s, k)
    requires forall d :: d in sh.deps[k] && d in s.t.rows ==> RowAt(sh, s, d)
    requires a.AcceptRecord? && Recording(a.key, a.commit) in s.humans ==> HumanAt(sh, s, Recording(a.key, a.commit))
    ensures k in Step(sh, workers, s, a).t.rows && SafeAt(sh, Step(sh, workers, s, a), k)
  {
    var s' := Step(sh, workers, s, a);
    StepKeepsCommits(sh, workers, s, a);
    ChainedStays(sh, s.t.rows, s'.t.rows, k);
    StepStarts(sh, workers, s, a, k);
  }

  lemma StepKeepsSupAt(sh: Shape, workers: nat, s: Prog, a: Action, o: Owner)
    requires Ordered(sh) && o in Step(sh, workers, s, a).sups && Step(sh, workers, s, a).t.rows.Keys == s.t.rows.Keys
    requires o in s.sups ==> SupAt(sh, workers, s, o)
    requires o in s.sups && s.sups[o].pending.Checked? ==> TreeAt(Step(sh, workers, s, a).git, s.sups[o].pending.key)
    requires MakersKept(s.git, Step(sh, workers, s, a).git)
    ensures SupAt(sh, workers, Step(sh, workers, s, a), o)
  {
  }

  /** An operator's command goes on only after its check and its commit. */
  predicate HumanMove(s: Prog, s': Prog, a: Action, h: Human) {
    || h in s.humans || h.Rejecting? || h.Cancelling?
    || (a.AcceptCheck? && h == Committing(a.key) && h.key in s.t.rows && s.t.rows[h.key].state.Ready?)
    || (a.AcceptCommit? && Committing(a.key) in s.humans && h.Recording? && h.key == a.key
        && h.key in s'.git.trees && Committed(s'.git.trees[h.key]) && h.commit == s'.git.trees[h.key].head)
  }

  lemma StepMovesHuman(sh: Shape, workers: nat, s: Prog, a: Action, h: Human)
    requires Ordered(sh) && h in Step(sh, workers, s, a).humans
    ensures HumanMove(s, Step(sh, workers, s, a), a, h)
  {
  }

  lemma StepKeepsHumanAt(sh: Shape, workers: nat, s: Prog, a: Action, h: Human)
    requires Ordered(sh) && s.t.rows.Keys == sh.deps.Keys && h in Step(sh, workers, s, a).humans
    requires h in s.humans ==> HumanAt(sh, s, h)
    requires a.AcceptCheck? && a.key in s.t.rows ==> SafeAt(sh, s, a.key)
    requires a.AcceptCommit? && Committing(a.key) in s.humans ==> HumanAt(sh, s, Committing(a.key))
    requires a.AcceptCommit? ==> TreeAt(Step(sh, workers, s, a).git, a.key)
    requires MakersKept(s.git, Step(sh, workers, s, a).git)
    ensures HumanAt(sh, Step(sh, workers, s, a), h)
  {
    var s' := Step(sh, workers, s, a);
    StepKeepsCommits(sh, workers, s, a);
    StepMovesHuman(sh, workers, s, a, h);
    if (h.Committing? || h.Recording?) && h.key in sh.deps {
      ChainedStays(sh, s.t.rows, s'.t.rows, h.key);
    }
  }

  lemma StepKeepsAloneAt(sh: Shape, workers: nat, s: Prog, a: Action, o: Owner)
    requires Ordered(sh) && o in Step(sh, workers, s, a).sups && !Step(sh, workers, s, a).overlapped
    requires forall p {:trigger AloneAt(s, p)} :: p in s.sups ==> AloneAt(s, p)
    ensures AloneAt(Step(sh, workers, s, a), o)
  {
    if o in s.sups {
      assert AloneAt(s, o);
    }
    if a.RecordTask? && a.owner in s.sups {
      assert AloneAt(s, a.owner);
    }
  }

  lemma StepRefuses(sh: Shape, workers: nat, s: Prog, a: Action)
    requires Ordered(sh) && (a.RecordTask? && a.owner in s.sups ==> SupAt(sh, workers, s, a.owner))
    ensures var after := Step(sh, workers, s, a).refusals;
            || after == s.refusals || after == s.refusals + [NotReady]
            || (after == s.refusals + [AnotherCommit] && a.RecordTask? && a.owner in s.sups && !AloneAt(s, a.owner))
  {
  }

  lemma StepKeepsGit(sh: Shape, workers: nat, s: Prog, a: Action)
    requires Ordered(sh) && GitOk(s.git)
    ensures GitOk(Step(sh, workers, s, a).git) && MakersKept(s.git, Step(sh, workers, s, a).git)
  {
    var g' := Step(sh, workers, s, a).git;
    GitSteps(sh, workers, s, a);
    if g' != s.git {
      var j :| GitMove(s.git, g', j);
      GitMoveGrows(s.git, g', j);
      forall k
        ensures TreeAt(g', k)
      {
        assert TreeAt(s.git, k);
        GitMoveKeeps(s.git, g', j, k);
      }
    }
  }

  lemma StepKeepsRest(sh: Shape, workers: nat, s: Prog, a: Action)
    requires Ordered(sh) && Inv(sh, workers, s)
    ensures var s' := Step(sh, workers, s, a);
            && (forall i :: 0 <= i < |s'.refusals| ==> s'.refusals[i].NotReady? || s'.refusals[i].AnotherCommit?)
            && (!s'.overlapped ==> Alone(s'))
  {
    var s' := Step(sh, workers, s, a);
    if a.RecordTask? && a.owner in s.sups {
      assert SupAt(sh, workers, s, a.owner);
      assert !s.overlapped ==> AloneAt(s, a.owner);
    }
    StepRefuses(sh, workers, s, a);
    if !s'.overlapped {
      forall o | o in s'.sups
        ensures AloneAt(s', o)
      {
        StepKeepsAloneAt(sh, workers, s, a, o);
      }
    }
  }

  lemma StepKeepsInv(sh: Shape, workers: nat, s: Prog, a: Action)
    requires Ordered(sh) && Inv(sh, workers, s) && Supervised(sh, s, a)
    ensures Inv(sh, workers, Step(sh, workers, s, a))
  {
    var s' := Step(sh, workers, s, a);
    StepKeepsKeys(sh, workers, s, a);
    StepKeepsGit(sh, workers, s, a);
    if a.RecordTask? && a.owner in s.sups {
      assert SupAt(sh, workers, s, a.owner);
    }
    if a.AcceptRecord? && Recording(a.key, a.commit) in s.humans {
      assert HumanAt(sh, s, Recording(a.key, a.commit));
    }
    forall k | k in s'.t.rows
      ensures RowAt(sh, s', k) && SafeAt(sh, s', k)
    {
      assert RowAt(sh, s, k) && SafeAt(sh, s, k);
      StepKeepsRowAt(sh, workers, s, a, k);
      forall d | d in sh.deps[k] && d in s.t.rows
        ensures RowAt(sh, s, d)
      {
      }
      StepKeepsSafeAt(sh, workers, s, a, k);
    }
    StepKeepsParties(sh, workers, s, a);
    StepKeepsRest(sh, workers, s, a);
  }

  lemma StepKeepsParties(sh: Shape, workers: nat, s: Prog, a: Action)
    requires Ordered(sh) && Inv(sh, workers, s)
    ensures var s' := Step(sh, workers, s, a);
            && (forall o {:trigger SupAt(sh, workers, s', o)} :: o in s'.sups ==> SupAt(sh, workers, s', o))
            && (forall h {:trigger HumanAt(sh, s', h)} :: h in s'.humans ==> HumanAt(sh, s', h))
  {
    var s' := Step(sh, workers, s, a);
    StepKeepsKeys(sh, workers, s, a);
    StepKeepsGit(sh, workers, s, a);
    forall o | o in s'.sups
      ensures SupAt(sh, workers, s', o)
    {
      if o in s.sups {
        assert SupAt(sh, workers, s, o);
        if s.sups[o].pending.Checked? {
          assert TreeAt(s'.git, s.sups[o].pending.key);
        }
      }
      StepKeepsSupAt(sh, workers, s, a, o);
    }
    if a.AcceptCheck? && a.key in s.t.rows {
      assert SafeAt(sh, s, a.key);
    }
    if a.AcceptCommit? {
      assert HumanAt(sh, s, Committing(a.key)) || Committing(a.key) !in s.humans;
      assert TreeAt(s'.git, a.key);
    }
    forall h | h in s'.humans
      ensures HumanAt(sh, s', h)
    {
      assert h in s.humans ==> HumanAt(sh, s, h);
      StepKeepsHumanAt(sh, workers, s, a, h);
    }
  }

  lemma StartsSafe(sh: Shape, workers: nat, s: Prog)
    requires Initial(sh, s)
    ensures Inv(sh, workers, s)
  {
  }

  lemma SafeMeansChainable(sh: Shape, workers: nat, s: Prog, k: Key)
    requires ValidShape(sh) && Inv(sh, workers, s) && k in s.t.rows
    requires Started(s, k) || DepsChained(sh, s.t.rows, k)
    ensures Chainable(sh, s.t.rows, k)
  {
    assert SafeAt(sh, s, k);
    var good := set d | d in s.t.rows && Chained(s.t.rows, d);
    forall x, y | x in good && Edge(sh.deps, x, y)
      ensures y in good
    {
      assert SafeAt(sh, s, x) && Started(s, x);
    }
    forall d | DependsOn(sh.deps, k, d)
      ensures Chained(s.t.rows, d)
    {
      ClosureHolds(sh.deps, good, k, d);
    }
  }

  lemma {:induction false} RunIsSafe(sh: Shape, workers: nat, states: seq<Prog>, actions: seq<Action>, n: nat)
    requires Ordered(sh) && IsRun(sh, workers, states, actions) && n <= |actions|
    ensures Inv(sh, workers, states[n])
  {
    if n == 0 {
      StartsSafe(sh, workers, states[0]);
    } else {
      RunIsSafe(sh, workers, states, actions, n - 1);
      assert StepOf(sh, workers, states, actions, n - 1);
      StepKeepsInv(sh, workers, states[n - 1], actions[n - 1]);
    }
  }

  lemma ReachableIsSafe(sh: Shape, workers: nat, s: Prog)
    requires Ordered(sh) && Reachable(sh, workers, s)
    ensures Inv(sh, workers, s)
  {
    var states, actions :| IsRun(sh, workers, states, actions) && s == states[|actions|];
    RunIsSafe(sh, workers, states, actions, |actions|);
  }

  /**
   Dependency safety over every interleaving: a job that is running, verifying, reviewing, ready,
   accepted, promoted, dispatched or being worked on has a commit for every transitive prerequisite.
   A pool is never exceeded, the terminal task is never promoted, and while no two supervisors
   overlapped, promotion only ever fails because a job is no longer ready.
   */
  lemma DependencySafety(sh: Shape, workers: nat, s: Prog)
    requires ValidShape(sh) && Reachable(sh, workers, s)
    ensures s.t.rows.Keys == sh.deps.Keys
    ensures forall k {:trigger Started(s, k)} :: k in s.t.rows && Started(s, k) ==> Chainable(sh, s.t.rows, k)
    ensures forall o {:trigger s.sups[o]} :: o in s.sups ==> Distinct(s.sups[o].active) && |s.sups[o].active| <= workers
    ensures forall i :: 0 <= i < |s.refusals| ==> s.refusals[i].NotReady? || (s.overlapped && s.refusals[i].AnotherCommit?)
    ensures !s.overlapped ==> forall o, p :: o in s.sups && p in s.sups ==> o == p
    ensures !s.t.rows[sh.terminal].promoted
  {
    ReachableIsSafe(sh, workers, s);
    forall k | k in s.t.rows && Started(s, k)
      ensures Chainable(sh, s.t.rows, k)
    {
      SafeMeansChainable(sh, workers, s, k);
    }
    forall o | o in s.sups
      ensures Distinct(s.sups[o].active) && |s.sups[o].active| <= workers && (!s.overlapped ==> s.sups.Keys == {o})
    {
      assert SupAt(sh, workers, s, o);
      assert !s.overlapped ==> AloneAt(s, o);
    }
    assert RowAt(sh, s, sh.terminal);
  }

  /** Different tasks never share a commit. */
  lemma CommitsAreDistinct(sh: Shape, workers: nat, s: Prog, a: Key, b: Key)
    requires Inv(sh, workers, s) && Chained(s.t.rows, a) && Chained(s.t.rows, b) && a != b
    ensures CommitOf(s.t.rows, a) != CommitOf(s.t.rows, b)
  {
    assert RowAt(sh, s, a) && RowAt(sh, s, b);
  }

  /** Ready implies chainable: all transitive prerequisites of a released job have a commit. */
  lemma ReleasedIsChainable(sh: Shape, workers: nat, s: Prog, limit: nat, k: Key)
    requires ValidShape(sh) && Reachable(sh, workers, s) && k in ReadyJobs(sh, s.t, limit)
    ensures Chainable(sh, s.t.rows, k)
  {
    ReachableIsSafe(sh, workers, s);
    forall d | d in sh.deps[k]
      ensures Chained(s.t.rows, d)
    {
      assert RowAt(sh, s, d);
    }
    SafeMeansChainable(sh, workers, s, k);
  }

  /** In a reachable state the chain of any job has no duplicate to drop: each prerequisite adds its own commit. */
  lemma ChainHasNoDuplicates(sh: Shape, workers: nat, s: Prog, k: Key, trail: seq<Key>, commits: seq<Commit>)
    requires Ordered(sh) && Reachable(sh, workers, s) && ChainOf(sh.deps, s.t.rows, k, trail, commits)
    ensures commits == CommitsOf(s.t.rows, trail) && Distinct(commits)
  {
    ReachableIsSafe(sh, workers, s);
    forall i, j | 0 <= i < j < |trail|
      ensures CommitsOf(s.t.rows, trail)[i] != CommitsOf(s.t.rows, trail)[j]
    {
      CommitsAreDistinct(sh, workers, s, trail[i], trail[j]);
    }
  }

  /** Over every run, supervised or not, a recorded promotion is never rewritten or retracted. */
  lemma {:induction false} PromotionIsWriteOnce(sh: Shape, workers: nat, s: Prog, trace: seq<Action>)
    requires Ordered(sh)
    ensures KeepsCommits(s.t.rows, Exec(sh, workers, s, trace).t.rows)
  {
    if trace != [] {
      var init := trace[..|trace| - 1];
      PromotionIsWriteOnce(sh, workers, s, init);
      StepKeepsCommits(sh, workers, Exec(sh, workers, s, init), trace[|trace| - 1]);
    }
  }

  lemma CommitKeepsBudget(g: Git, j: Key, allowEmpty: bool, k: Key)
    requires j in g.trees && TreeAt(g, k)
    ensures CommitBudget(CommitTree(g, j, allowEmpty), k) <= CommitBudget(g, k)
  {
  }

  lemma OtherWorkKeepsBudget(g: Git, j: Key, changed: bool, k: Key)
    requires j in g.trees && j != k
    ensures CommitBudget(WorkIn(g, j, changed), k) == CommitBudget(g, k)
  {
  }

  lemma CreateKeepsBudget(g: Git, j: Key, k: Key)
    ensures CommitBudget(CreateTree(g, j), k) == CommitBudget(g, k)
  {
  }

  lemma GitStays(sh: Shape, workers: nat, s: Prog, a: Action)
    requires Ordered(sh) && !a.CommitTask? && !a.AcceptCommit? && !a.WorkerPass? && !a.Enter?
    ensures Step(sh, workers, s, a).git == s.git
  {
  }

  lemma StepKeepsBudget(sh: Shape, workers: nat, s: Prog, a: Action, k: Key)
    requires Ordered(sh) && TreeAt(s.git, k) && !(a.WorkerPass? && a.key == k)
    ensures CommitBudget(Step(sh, workers, s, a).git, k) <= CommitBudget(s.git, k)
  {
    match a
    case CommitTask(o) =>
      if o in s.sups && s.sups[o].pending.Checked? && s.sups[o].pending.key in s.git.trees {
        CommitKeepsBudget(s.git, s.sups[o].pending.key, false, k);
      }
    case AcceptCommit(j, allowEmpty) =>
      if j in s.git.trees {
        CommitKeepsBudget(s.git, j, allowEmpty, k);
      }
    case WorkerPass(j, changed) =>
      if j in s.git.trees {
        OtherWorkKeepsBudget(s.git, j, changed, k);
      }
    case Enter(j) => CreateKeepsBudget(s.git, j, k);
    case _ => GitStays(sh, workers, s, a);
  }

  /**
   However often supervisors die between committing and recording, and whoever else commits:
   without a new worker pass a job gets at most one more commit, and none once everything is committed.
   */
  lemma {:induction false} CrashesMakeNoSecondCommit(sh: Shape, workers: nat, s: Prog, trace: seq<Action>, k: Key)
    requires Ordered(sh) && GitOk(s.git) && forall i :: 0 <= i < |trace| ==> !(trace[i].WorkerPass? && trace[i].key == k)
    ensures GitOk(Exec(sh, workers, s, trace).git)
    ensures CommitBudget(Exec(sh, workers, s, trace).git, k) <= CommitBudget(s.git, k)
  {
    if trace != [] {
      var init := trace[..|trace| - 1];
      CrashesMakeNoSecondCommit(sh, workers, s, init, k);
      var mid := Exec(sh, workers, s, init);
      assert TreeAt(mid.git, k);
      StepKeepsBudget(sh, workers, mid, trace[|trace| - 1], k);
      StepKeepsGit(sh, workers, mid, trace[|trace| - 1]);
    }
  }

  /**
   A supervisor that died is replaced: once its lease has lapsed another one may claim the run, with
   the tables and worktrees as they were, and what it left in flight can be recovered.
   */
  lemma TakeoverAfterCrash(sh: Shape, workers: nat, s: Prog, o: Owner, survivors: set<Key>, p: Owner, later: int,
                           lease: int, k: Key, state: JobState)
    requires Ordered(sh) && o in s.sups && p !in s.sups && HoldsRun(s.t, o) && later > s.t.expires
    requires k in s.t.rows && InFlight(s.t.rows[k].state) && (state.Ready? || state.Retry? || state.Failed?)
    ensures var dead := Step(sh, workers, s, Crash(o, survivors));
            && dead.sups == s.sups - {o} && dead.live == s.live * survivors && dead.t == s.t && dead.git == s.git
            && var taken := Step(sh, workers, dead, ClaimRun(p, later, lease));
            && taken.sups == dead.sups[p := Supervisor([], Idle)] && HoldsRun(taken.t, p)
            && taken.t.rows == s.t.rows && taken.git == s.git
            && Step(sh, workers, taken, Recover(k, state)).t.rows == s.t.rows[k := s.t.rows[k].(state := state)]
  {
  }

  /** The worktree check of `ensure_worktree` and the state check of `run_job` let the job in. */
  predicate Admits(s: Prog, k: Key) {
    && k in s.t.rows && !s.t.rows[k].state.Accepted? && !s.t.rows[k].state.Cancelled?
    && (k in s.git.trees || k in s.orphans)
  }

  /**
   Entering keeps dependency safety exactly when the entry is supervised, or is turned away: a
   recorded or leftover worktree is the only way past the prerequisites.
   */
  lemma EntryIsSafeIff(sh: Shape, workers: nat, s: Prog, k: Key)
    requires ValidShape(sh) && Inv(sh, workers, s) && k in s.t.rows
    ensures Inv(sh, workers, Step(sh, workers, s, Enter(k))) <==> (Supervised(sh, s, Enter(k)) || !Admits(s, k))
  {
    var a, s' := Enter(k), Step(sh, workers, s, Enter(k));
    if Supervised(sh, s, a) {
      StepKeepsInv(sh, workers, s, a);
    } else {
      UnchainableDep(sh, s, k);
      if Admits(s, k) {
        assert k in s'.live && !SafeAt(sh, s', k);
      } else {
        TurnedAwayKeepsInv(sh, workers, s, k);
      }
    }
  }

  lemma UnchainableDep(sh: Shape, s: Prog, k: Key)
    requires k in sh.deps && !DepsChained(sh, s.t.rows, k)
    ensures !Chainable(sh, s.t.rows, k)
  {
    var d :| d in sh.deps[k] && !Chained(s.t.rows, d);
    DirectDependency(sh.deps, k, d);
  }

  lemma TurnedAwayKeepsInv(sh: Shape, workers: nat, s: Prog, k: Key)
    requires Ordered(sh) && Inv(sh, workers, s) && k in s.t.rows && !Admits(s, k) && k !in s.live
    requires !Chainable(sh, s.t.rows, k)
    ensures Inv(sh, workers, Step(sh, workers, s, Enter(k)))
  {
    var s' := Step(sh, workers, s, Enter(k));
    StepKeepsGit(sh, workers, s, Enter(k));
    forall x | x in s'.t.rows
      ensures RowAt(sh, s', x) && SafeAt(sh, s', x)
    {
      assert RowAt(sh, s, x) && SafeAt(sh, s, x);
    }
    StepKeepsParties(sh, workers, s, Enter(k));
    StepKeepsRest(sh, workers, s, Enter(k));
  }

  lemma FirstIsMember(keys: seq<Key>)
    ensures keys != [] ==> keys[0] in keys
  {
  }

  /** A waiting task none of whose prerequisites is unfinished. */
  predicate Waits(sh: Shape, rows: map<Key, Row>, k: Key) {
    && k in rows && k in sh.deps && Dispatchable(rows[k].state)
    && forall d :: d in sh.deps[k] ==> d in rows && (Settled(rows[d]) || rows[d].state.Ready?)
  }

  predicate AwaitsPromotion(sh: Shape, rows: map<Key, Row>, k: Key)
    requires k in sh.deps
  {
    exists d :: d in sh.deps[k] && Promotable(sh, rows, d)
  }

  lemma WaitsOrEligible(sh: Shape, workers: nat, s: Prog, k: Key)
    requires ValidShape(sh) && Inv(sh, workers, s) && Waits(sh, s.t.rows, k)
    ensures Eligible(sh, s.t.rows, k) <==> !AwaitsPromotion(sh, s.t.rows, k)
  {
    if !Eligible(sh, s.t.rows, k) {
      var d :| d in sh.deps[k] && !Settled(s.t.rows[d]);
      assert RowAt(sh, s, d);
      assert Edge(sh.deps, k, d) && d != sh.terminal;
      assert Promotable(sh, s.t.rows, d);
    }
  }

  /**
   The query for ready jobs finds nothing exactly when every waiting task whose prerequisites are
   all finished has one that is still to be promoted.
   */
  lemma NothingReadyIff(sh: Shape, workers: nat, s: Prog, limit: nat)
    requires ValidShape(sh) && Inv(sh, workers, s) && Runnable(s.t.feature) && limit >= 1
    ensures ReadyJobs(sh, s.t, limit) == [] <==>
              forall k {:trigger Waits(sh, s.t.rows, k)} :: Waits(sh, s.t.rows, k) ==> AwaitsPromotion(sh, s.t.rows, k)
  {
    forall k | Waits(sh, s.t.rows, k)
      ensures Eligible(sh, s.t.rows, k) <==> !AwaitsPromotion(sh, s.t.rows, k)
    {
      WaitsOrEligible(sh, workers, s, k);
    }
    var all, released := EligibleByPriority(sh, s.t.rows, sh.order), ReadyJobs(sh, s.t, limit);
    FirstIsMember(all);
    FirstIsMember(released);
    if released == [] {
      assert all == [];
      forall k | Waits(sh, s.t.rows, k)
        ensures !Eligible(sh, s.t.rows, k)
      {
        assert k in sh.order && k !in all;
      }
    } else {
      assert Eligible(sh, s.t.rows, released[0]) && Waits(sh, s.t.rows, released[0]);
    }
  }

  /** With nothing released, dead or in flight and the terminal task unfinished, the program only waits for a promotion. */
  lemma StuckOnlyBeforePromotion(sh: Shape, workers: nat, s: Prog, limit: nat)
    requires ValidShape(sh) && Inv(sh, workers, s) && Runnable(s.t.feature) && limit >= 1
    requires ReadyJobs(sh, s.t, limit) == []
    requires forall k :: k in s.t.rows ==> !InFlight(s.t.rows[k].state) && !Dead(s.t.rows[k].state)
    requires !s.t.rows[sh.terminal].state.Ready? && !s.t.rows[sh.terminal].state.Accepted?
    ensures exists k :: Promotable(sh, s.t.rows, k)
  {
    forall k | k in s.t.rows && s.t.rows[k].promoted
      ensures s.t.rows[k].verified.Some?
    {
      assert RowAt(sh, s, k);
    }
    if forall k :: !Promotable(sh, s.t.rows, k) {
      SomethingIsReady(sh, s.t, limit);
    }
  }
}
