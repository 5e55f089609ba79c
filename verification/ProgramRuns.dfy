/** Runs of a two-task program, from its approval on, that end where one would not expect them to. */
module ProgramRuns {
  import opened Wrappers
  import opened Graph
  import opened Program
  import opened GitOps
  import opened Chaining
  import opened ProgramMachine

  /** A plan of two tasks, the second depending on the first. */
  function TwoTasks(a: Key, b: Key): (sh: Shape) {
    Shape([a, b], map[a := [], b := [a]], map[a := 0, b := 0], b)
  }

  lemma TwoTasksAreValid(a: Key, b: Key)
    requires a != b
    ensures ValidShape(TwoTasks(a, b)) && Ordered(TwoTasks(a, b))
  {
    var sh := TwoTasks(a, b);
    var rank: map<Key, nat> := map[a := 0, b := 1];
    assert RankOf(sh.deps, rank);
    RankedIsAcyclic(sh.deps, rank);
    assert Edge(sh.deps, b, a);
    assert Referenced(sh.deps, a);
  }

  function Approved2(a: Key, b: Key): (s: Prog) {
    var row := Row(Queued, false, None, None);
    Prog(Tables(map[a := row, b := row], Approved, None, 0), map[], false, {}, Git(map[], 0, map[], map[], map[]), {}, {}, [])
  }

  /** Two direct runs of a job whose prerequisite was never run: the second one is let in. */
  lemma DirectRunSkipsPrerequisites(workers: nat, a: Key, b: Key)
    requires a != b
    ensures ValidShape(TwoTasks(a, b)) && Initial(TwoTasks(a, b), Approved2(a, b))
    ensures var s := Exec(TwoTasks(a, b), workers, Approved2(a, b), [Enter(b)] + [Enter(b)]);
            b in s.live && !Chainable(TwoTasks(a, b), s.t.rows, b)
  {
    TwoTasksAreValid(a, b);
    var sh, s0 := TwoTasks(a, b), Approved2(a, b);
    assert !Chained(s0.t.rows, a);
    UnchainableDep(sh, s0, b);
    ExecMore(sh, workers, s0, [], Enter(b));
    assert [] + [Enter(b)] == [Enter(b)];
    ExecMore(sh, workers, s0, [Enter(b)], Enter(b));
    assert b in Exec(sh, workers, s0, [Enter(b)]).orphans;
  }

  lemma NothingReleased(sh: Shape, t: Tables, limit: nat)
    requires Ordered(sh) && forall k :: k in sh.order ==> !Eligible(sh, t.rows, k)
    ensures ReadyJobs(sh, t, limit) == []
  {
    FirstIsMember(ReadyJobs(sh, t, limit));
  }

  lemma EnteredAndClaimed(a: Key, b: Key, o: Owner)
    requires a != b
    ensures Ordered(TwoTasks(a, b))
    ensures var s := Step(TwoTasks(a, b), 2, Step(TwoTasks(a, b), 2, Approved2(a, b), Enter(a)), ClaimRun(o, 0, 90));
            s.t.rows == Approved2(a, b).t.rows && s.live == {a} && s.sups == map[o := Supervisor([], Idle)]
  {
    TwoTasksAreValid(a, b);
    NothingBelow(TwoTasks(a, b).deps, a);
  }

  lemma SeenStuck(sh: Shape, s: Prog, a: Key, b: Key, o: Owner, limit: nat)
    requires a != b && sh == TwoTasks(a, b) && Ordered(sh)
    requires s.t.rows == Approved2(a, b).t.rows && s.live == {a} && s.sups == map[o := Supervisor([], Idle)]
    ensures var s' := Step(sh, 2, Step(sh, 2, s, CheckTask(o, a)), WorkerState(a, Ready));
            s'.sups == s.sups && s'.t.rows == WithState(s.t.rows, a, Ready) && ReadyJobs(sh, s'.t, limit) == []
  {
    assert Step(sh, 2, s, CheckTask(o, a)) == s;
    var s' := Step(sh, 2, s, WorkerState(a, Ready));
    assert s'.t.rows == WithState(s.t.rows, a, Ready);
    assert a in sh.deps[b] && !Settled(s'.t.rows[a]);
    NothingReleased(sh, s'.t, limit);
  }

  /**
   Between the steps of one supervisor iteration "program cannot advance" can be seen: a job run
   outside the pool becomes ready after the promotion pass and before the query for ready jobs.
   */
  lemma CanLookStuckInsideAnIteration(a: Key, b: Key, o: Owner, limit: nat)
    requires a != b
    ensures Ordered(TwoTasks(a, b))
    ensures var s := Exec(TwoTasks(a, b), 2, Approved2(a, b),
                          [Enter(a)] + [ClaimRun(o, 0, 90), CheckTask(o, a), WorkerState(a, Ready)]);
            && s.sups == map[o := Supervisor([], Idle)] && ReadyJobs(TwoTasks(a, b), s.t, limit) == []
            && s.t.rows.Keys == {a, b} && s.t.rows[a].state.Ready? && s.t.rows[b].state.Queued?
  {
    EnteredAndClaimed(a, b, o);
    var sh, s0 := TwoTasks(a, b), Approved2(a, b);
    ExecMore(sh, 2, s0, [], Enter(a));
    assert [] + [Enter(a)] == [Enter(a)];
    ExecLine(sh, 2, s0, [Enter(a)], ClaimRun(o, 0, 90), CheckTask(o, a), WorkerState(a, Ready));
    SeenStuck(sh, Step(sh, 2, Step(sh, 2, s0, Enter(a)), ClaimRun(o, 0, 90)), a, b, o, limit);
  }

  lemma OnlyReady(sh: Shape, t: Tables, limit: nat, k: Key)
    requires Ordered(sh) && Distinct(sh.order) && Runnable(t.feature) && limit >= 1
    requires k in sh.order && forall x :: x in sh.order ==> (Eligible(sh, t.rows, x) <==> x == k)
    ensures ReadyJobs(sh, t, limit) == [k]
  {
    var all := EligibleByPriority(sh, t.rows, sh.order);
    assert k in all;
    AllSame(all, k);
  }

  lemma DispatchesOnly(sh: Shape, workers: nat, s: Prog, o: Owner, active: seq<Key>, k: Key)
    requires Ordered(sh) && Distinct(sh.order) && Runnable(s.t.feature)
    requires s.sups == map[o := Supervisor(active, Idle)] && k !in active && |active| < workers
    requires k in sh.order && forall x :: x in sh.order ==> (Eligible(sh, s.t.rows, x) <==> x == k)
    ensures Step(sh, workers, s, Dispatch(o, 1)) == s.(sups := map[o := Supervisor(active + [k], Idle)])
  {
    OnlyReady(sh, s.t, 1, k);
    assert Submit(active, [k]) == active + [k];
  }

  lemma EntersFresh(sh: Shape, workers: nat, s: Prog, k: Key)
    requires Ordered(sh) && k in s.t.rows && s.t.rows[k].state.Queued? && Chainable(sh, s.t.rows, k)
    requires k !in s.live && k !in s.git.trees
    ensures Step(sh, workers, s, Enter(k)) == s.(git := CreateTree(s.git, k), live := s.live + {k})
  {
  }

  lemma WorksUntilReady(sh: Shape, workers: nat, s: Prog, k: Key)
    requires Ordered(sh) && k in s.t.rows && k in s.live && k in s.git.trees
    ensures Step(sh, workers, Step(sh, workers, Step(sh, workers, s, WorkerPass(k, true)), WorkerState(k, Ready)),
                 AcceptCheck(k)) ==
              s.(t := s.t.(rows := WithState(s.t.rows, k, Ready)), git := WorkIn(s.git, k, true),
                 humans := s.humans + {Committing(k)})
  {
    var s1 := Step(sh, workers, s, WorkerPass(k, true));
    assert s1 == s.(git := WorkIn(s.git, k, true));
    var s2 := Step(sh, workers, s1, WorkerState(k, Ready));
    assert s2 == s1.(t := s1.t.(rows := WithState(s1.t.rows, k, Ready)));
  }

  lemma AcceptsChanges(sh: Shape, workers: nat, s: Prog, k: Key)
    requires Ordered(sh) && k in s.t.rows && Committing(k) in s.humans
    requires k in s.git.trees && s.git.trees[k].dirty && s.git.trees[k].baseline < s.git.next
    ensures var s' := Step(sh, workers, Step(sh, workers, s, AcceptCommit(k, false)), AcceptRecord(k, s.git.next));
            s'.t == Accept(sh, s.t, k, s.git.next) && s'.sups == s.sups && s'.live == s.live
  {
    var s1 := Step(sh, workers, s, AcceptCommit(k, false));
    assert Recording(k, s.git.next) in s1.humans && s1.t == s.t;
  }

  /** The supervisor dispatches the first task and its worker enters. */
  function FirstLine(a: Key, o: Owner): (trace: seq<Action>) {
    [ClaimRun(o, 0, 90), Dispatch(o, 1), Enter(a)]
  }

  /** The worker reports READY but has not left; the operator accepts and the second task is dispatched. */
  function AcceptLines(a: Key, o: Owner): (trace: seq<Action>) {
    FirstLine(a, o) + [WorkerPass(a, true), WorkerState(a, Ready), AcceptCheck(a)]
    + [AcceptCommit(a, false), AcceptRecord(a, 1), Dispatch(o, 1)]
  }

  lemma Claimed(a: Key, b: Key, o: Owner)
    requires Ordered(TwoTasks(a, b))
    ensures var s := Step(TwoTasks(a, b), 2, Approved2(a, b), ClaimRun(o, 0, 90));
            s == Approved2(a, b).(t := Tables(Approved2(a, b).t.rows, Executing, Some(o), 90),
                                  sups := map[o := Supervisor([], Idle)])
  {
  }

  lemma FirstEntered(a: Key, b: Key, o: Owner)
    requires a != b && Ordered(TwoTasks(a, b))
    ensures var s := Exec(TwoTasks(a, b), 2, Approved2(a, b), FirstLine(a, o));
            && s.t.rows == Approved2(a, b).t.rows && s.t.feature.Executing? && s.sups == map[o := Supervisor([a], Idle)]
            && s.live == {a} && s.git == CreateTree(Approved2(a, b).git, a) && s.refusals == []
  {
    var sh, s0 := TwoTasks(a, b), Approved2(a, b);
    TwoTasksAreValid(a, b);
    ExecLine(sh, 2, s0, [], ClaimRun(o, 0, 90), Dispatch(o, 1), Enter(a));
    assert [] + FirstLine(a, o) == FirstLine(a, o);
    Claimed(a, b, o);
    var s1 := Step(sh, 2, s0, ClaimRun(o, 0, 90));
    OnlyFirst(a, b);
    DispatchesOnly(sh, 2, s1, o, [], a);
    var s2 := Step(sh, 2, s1, Dispatch(o, 1));
    assert s2 == s1.(sups := map[o := Supervisor([a], Idle)]) by {
      assert [] + [a] == [a];
    }
    FirstChainable(a, b);
    EntersFresh(sh, 2, s2, a);
    assert Exec(sh, 2, s0, FirstLine(a, o)) == s2.(git := CreateTree(s2.git, a), live := {} + {a});
  }

  lemma FirstChainable(a: Key, b: Key)
    requires a != b
    ensures Chainable(TwoTasks(a, b), Approved2(a, b).t.rows, a)
  {
    NothingBelow(TwoTasks(a, b).deps, a);
  }

  lemma OnlyFirst(a: Key, b: Key)
    requires a != b
    ensures forall x :: x in [a, b] ==> (Eligible(TwoTasks(a, b), Approved2(a, b).t.rows, x) <==> x == a)
  {
    assert a in TwoTasks(a, b).deps[b] && !Settled(Approved2(a, b).t.rows[a]);
  }

  lemma WorkedAndAccepted(a: Key, b: Key, o: Owner, s: Prog)
    requires a != b && Ordered(TwoTasks(a, b)) && s.t.rows == Approved2(a, b).t.rows
    requires s.live == {a} && s.git == CreateTree(Approved2(a, b).git, a)
    ensures var sh := TwoTasks(a, b);
            var ready := Step(sh, 2, Step(sh, 2, Step(sh, 2, s, WorkerPass(a, true)), WorkerState(a, Ready)), AcceptCheck(a));
            var s' := Step(sh, 2, Step(sh, 2, ready, AcceptCommit(a, false)), AcceptRecord(a, 1));
            s'.t.rows == Accept(sh, s.t, a, 1).rows && s'.t.feature.Executing? && s'.sups == s.sups
  {
    var sh := TwoTasks(a, b);
    WorksUntilReady(sh, 2, s, a);
    var ready := Step(sh, 2, Step(sh, 2, Step(sh, 2, s, WorkerPass(a, true)), WorkerState(a, Ready)), AcceptCheck(a));
    AcceptsChanges(sh, 2, ready, a);
  }

  lemma OnlySecond(a: Key, b: Key)
    requires a != b
    ensures var t := Approved2(a, b).t;
            forall x :: x in [a, b] ==> (Eligible(TwoTasks(a, b), Accept(TwoTasks(a, b), t, a, 1).rows, x) <==> x == b)
  {
  }

  lemma AcceptedAndNextDispatched(a: Key, b: Key, o: Owner)
    requires a != b && Ordered(TwoTasks(a, b))
    ensures var s := Exec(TwoTasks(a, b), 2, Approved2(a, b), AcceptLines(a, o));
            && s.t.rows == Accept(TwoTasks(a, b), Approved2(a, b).t, a, 1).rows
            && s.sups == map[o := Supervisor([a, b], Idle)]
  {
    var sh, s0 := TwoTasks(a, b), Approved2(a, b);
    TwoTasksAreValid(a, b);
    FirstEntered(a, b, o);
    var ready := FirstLine(a, o) + [WorkerPass(a, true), WorkerState(a, Ready), AcceptCheck(a)];
    ExecLine(sh, 2, s0, FirstLine(a, o), WorkerPass(a, true), WorkerState(a, Ready), AcceptCheck(a));
    ExecLine(sh, 2, s0, ready, AcceptCommit(a, false), AcceptRecord(a, 1), Dispatch(o, 1));
    WorkedAndAccepted(a, b, o, Exec(sh, 2, s0, FirstLine(a, o)));
    OnlySecond(a, b);
    DispatchesOnly(sh, 2, Step(sh, 2, Step(sh, 2, Exec(sh, 2, s0, ready), AcceptCommit(a, false)),
                               AcceptRecord(a, 1)), o, [a], b);
    assert [a] + [b] == [a, b];
  }

  /**
   An acceptance can be overwritten: the worker that reported READY raises before it leaves, and
   collecting it sets the accepted job to BLOCKED while the task after it is already dispatched.
   The dependent keeps its commit, but its prerequisite is neither accepted nor promoted any more.
   */
  lemma AcceptanceCanBeOverwritten(a: Key, b: Key, o: Owner)
    requires a != b
    ensures ValidShape(TwoTasks(a, b)) && Initial(TwoTasks(a, b), Approved2(a, b))
    ensures var s := Exec(TwoTasks(a, b), 2, Approved2(a, b), AcceptLines(a, o) + [Leave(a)] + [Collect(o, a, true)]);
            && a in s.t.rows && b in s.t.rows && s.t.rows[a] == Row(Blocked, false, None, Some(1))
            && Started(s, b) && DependsOn(TwoTasks(a, b).deps, b, a) && !Settled(s.t.rows[a])
  {
    var sh, s0 := TwoTasks(a, b), Approved2(a, b);
    TwoTasksAreValid(a, b);
    AcceptedAndNextDispatched(a, b, o);
    ExecMore(sh, 2, s0, AcceptLines(a, o), Leave(a));
    ExecMore(sh, 2, s0, AcceptLines(a, o) + [Leave(a)], Collect(o, a, true));
    var s := Exec(sh, 2, s0, AcceptLines(a, o) + [Leave(a)] + [Collect(o, a, true)]);
    assert b in s.sups[o].active;
    DirectDependency(sh.deps, b, a);
  }

  /** What matters of a state while `o` stalls over `a`. */
  predicate Stands(s: Prog, a: Key, row: Row, o: Owner, sup: Supervisor, tree: Repo, next: Commit) {
    && a in s.t.rows && s.t.rows[a] == row && o in s.sups && s.sups[o] == sup
    && a in s.git.trees && s.git.trees[a] == tree && s.git.next == next && s.refusals == []
  }

  const READY := Row(Ready, false, None, None)
  const PROMOTED := Row(Ready, true, Some(1), None)
  const EDITED := Repo(0, 0, true, false)

  lemma WorkerLeaves(sh: Shape, s: Prog, a: Key, o: Owner)
    requires Ordered(sh) && a in s.live && s.sups.Keys == {o}
    requires Stands(s, a, Row(Queued, false, None, None), o, Supervisor([a], Idle), Repo(0, 0, false, false), 1)
    ensures var s' := Step(sh, 2, Step(sh, 2, Step(sh, 2, s, WorkerPass(a, true)), WorkerState(a, Ready)), Leave(a));
            Stands(s', a, READY, o, Supervisor([a], Idle), EDITED, 1) && a !in s'.live && s'.sups.Keys == {o}
  {
  }

  lemma Stalls(sh: Shape, s: Prog, a: Key, o: Owner)
    requires Ordered(sh) && a != sh.terminal && a !in s.live && s.sups.Keys == {o}
    requires Stands(s, a, READY, o, Supervisor([a], Idle), EDITED, 1)
    ensures var s' := Step(sh, 2, Step(sh, 2, Step(sh, 2, s, Collect(o, a, false)), CheckTask(o, a)), SetProgram(Paused));
            && Stands(s', a, READY, o, Supervisor([], Checked(a)), EDITED, 1) && a !in s'.live && s'.sups.Keys == {o}
  {
    assert Without([a], a) == [];
  }

  lemma RivalClaims(sh: Shape, s: Prog, a: Key, o: Owner, p: Owner)
    requires Ordered(sh) && a != sh.terminal && a !in s.live && s.sups.Keys == {o} && p != o
    requires Stands(s, a, READY, o, Supervisor([], Checked(a)), EDITED, 1)
    ensures var s' := Step(sh, 2, Step(sh, 2, Step(sh, 2, s, SetProgram(Approved)), ClaimRun(p, 1, 90)), CheckTask(p, a));
            && Stands(s', a, READY, o, Supervisor([], Checked(a)), EDITED, 1) && a !in s'.live
            && p in s'.sups && s'.sups[p] == Supervisor([], Checked(a))
  {
    var s1 := Step(sh, 2, s, SetProgram(Approved));
    var s2 := Step(sh, 2, s1, ClaimRun(p, 1, 90));
    assert s2.sups == s.sups[p := Supervisor([], Idle)] && s2.t.rows == s.t.rows && s2.git == s.git && s2.live == s.live;
  }

  lemma RivalPromotes(sh: Shape, s: Prog, a: Key, o: Owner, p: Owner)
    requires Ordered(sh) && a != sh.terminal && a !in s.live && p != o && p in s.sups && s.sups[p] == Supervisor([], Checked(a))
    requires Stands(s, a, READY, o, Supervisor([], Checked(a)), EDITED, 1)
    ensures var s' := Step(sh, 2, Step(sh, 2, Step(sh, 2, s, CommitTask(p)), RecordTask(p)), RejectCheck(a));
            && Stands(s', a, PROMOTED, o, Supervisor([], Checked(a)), Repo(0, 1, false, true), 2)
            && a !in s'.live && Rejecting(a) in s'.humans
  {
    var s1 := Step(sh, 2, s, CommitTask(p));
    assert Stands(s1, a, READY, o, Supervisor([], Checked(a)), Repo(0, 1, false, true), 2);
    assert s1.sups[p] == Supervisor([], Made(a, 1)) && s1.live == s.live;
    var s2 := Step(sh, 2, s1, RecordTask(p));
    assert Stands(s2, a, PROMOTED, o, Supervisor([], Checked(a)), Repo(0, 1, false, true), 2);
  }

  lemma WorkerReturns(sh: Shape, s: Prog, a: Key, o: Owner)
    requires Ordered(sh) && a !in s.live && Rejecting(a) in s.humans
    requires Stands(s, a, PROMOTED, o, Supervisor([], Checked(a)), Repo(0, 1, false, true), 2)
    ensures var s' := Step(sh, 2, Step(sh, 2, Step(sh, 2, s, RejectWrite(a)), Enter(a)), WorkerPass(a, true));
            Stands(s', a, PROMOTED.(state := Retry), o, Supervisor([], Checked(a)), EDITED, 2) && a in s'.live
  {
    var s1 := Step(sh, 2, s, RejectWrite(a));
    assert Stands(s1, a, PROMOTED.(state := Retry), o, Supervisor([], Checked(a)), Repo(0, 1, false, true), 2);
    assert Step(sh, 2, s1, Enter(a)) == s1.(live := s1.live + {a});
  }

  lemma StalledGoesOn(sh: Shape, s: Prog, a: Key, o: Owner)
    requires Ordered(sh) && a != sh.terminal && a in s.live
    requires Stands(s, a, PROMOTED.(state := Retry), o, Supervisor([], Checked(a)), EDITED, 2)
    ensures var s' := Step(sh, 2, Step(sh, 2, Step(sh, 2, s, WorkerState(a, Ready)), CommitTask(o)), RecordTask(o));
            s'.refusals == [AnotherCommit] && a in s'.t.rows && s'.t.rows[a] == PROMOTED
  {
    var s1 := Step(sh, 2, s, WorkerState(a, Ready));
    assert Stands(s1, a, PROMOTED, o, Supervisor([], Checked(a)), EDITED, 2);
    var s2 := Step(sh, 2, s1, CommitTask(o));
    assert s2.t == s1.t && s2.refusals == [] && s2.sups[o] == Supervisor([], Made(a, 2));
  }

  /** One supervisor stalls between checking a task and committing it. */
  function StallLines(a: Key, o: Owner): (trace: seq<Action>) {
    FirstLine(a, o) + [WorkerPass(a, true), WorkerState(a, Ready), Leave(a)]
    + [Collect(o, a, false), CheckTask(o, a), SetProgram(Paused)]
  }

  /**
   The program was paused and is resumed; another supervisor claims the run and promotes the task,
   which is rejected and worked on again. Then the first one goes on.
   */
  function RivalLines(a: Key, o: Owner, p: Owner): (trace: seq<Action>) {
    StallLines(a, o) + [SetProgram(Approved), ClaimRun(p, 1, 90), CheckTask(p, a)]
    + [CommitTask(p), RecordTask(p), RejectCheck(a)] + [RejectWrite(a), Enter(a), WorkerPass(a, true)]
    + [WorkerState(a, Ready), CommitTask(o), RecordTask(o)]
  }

  lemma StalledOver(a: Key, b: Key, o: Owner)
    requires a != b && Ordered(TwoTasks(a, b))
    ensures var s := Exec(TwoTasks(a, b), 2, Approved2(a, b), StallLines(a, o));
            Stands(s, a, READY, o, Supervisor([], Checked(a)), EDITED, 1) && a !in s.live && s.sups.Keys == {o}
  {
    var sh, s0 := TwoTasks(a, b), Approved2(a, b);
    FirstEntered(a, b, o);
    var worked := FirstLine(a, o) + [WorkerPass(a, true), WorkerState(a, Ready), Leave(a)];
    ExecLine(sh, 2, s0, FirstLine(a, o), WorkerPass(a, true), WorkerState(a, Ready), Leave(a));
    WorkerLeaves(sh, Exec(sh, 2, s0, FirstLine(a, o)), a, o);
    ExecLine(sh, 2, s0, worked, Collect(o, a, false), CheckTask(o, a), SetProgram(Paused));
    Stalls(sh, Exec(sh, 2, s0, worked), a, o);
  }

  /**
   While no two supervisors overlap, promotion never fails on a task promoted with another commit.
   With two it can: the first one goes on after the task was promoted, rejected and worked on again.
   */
  lemma StalledSupervisorIsRefused(a: Key, b: Key, o: Owner, p: Owner)
    requires a != b && o != p
    ensures Ordered(TwoTasks(a, b))
    ensures var s := Exec(TwoTasks(a, b), 2, Approved2(a, b), RivalLines(a, o, p));
            s.refusals == [AnotherCommit] && a in s.t.rows && s.t.rows[a].promoted && s.t.rows[a].verified == Some(1)
  {
    var sh, s0 := TwoTasks(a, b), Approved2(a, b);
    TwoTasksAreValid(a, b);
    StalledOver(a, b, o);
    var t0 := StallLines(a, o);
    var t1 := t0 + [SetProgram(Approved), ClaimRun(p, 1, 90), CheckTask(p, a)];
    var t2 := t1 + [CommitTask(p), RecordTask(p), RejectCheck(a)];
    var t3 := t2 + [RejectWrite(a), Enter(a), WorkerPass(a, true)];
    ExecLine(sh, 2, s0, t0, SetProgram(Approved), ClaimRun(p, 1, 90), CheckTask(p, a));
    RivalClaims(sh, Exec(sh, 2, s0, t0), a, o, p);
    ExecLine(sh, 2, s0, t1, CommitTask(p), RecordTask(p), RejectCheck(a));
    RivalPromotes(sh, Exec(sh, 2, s0, t1), a, o, p);
    ExecLine(sh, 2, s0, t2, RejectWrite(a), Enter(a), WorkerPass(a, true));
    WorkerReturns(sh, Exec(sh, 2, s0, t2), a, o);
    ExecLine(sh, 2, s0, t3, WorkerState(a, Ready), CommitTask(o), RecordTask(o));
    StalledGoesOn(sh, Exec(sh, 2, s0, t3), a, o);
  }
}
