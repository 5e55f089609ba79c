/** The supervisor loop that runs an approved program until a human has to look at it. */
module ProgramRunner {
  import opened Wrappers
  import opened Graph
  import opened Program
  import opened GitOps
  import opened RunInvariant
  import opened RunLog

  class Runner {
    const store: ProgramStore
    const trees: Worktrees
    const workers: nat
    const owner: Owner

    ghost predicate Valid()
      reads store, trees
    {
      store.Valid() && trees.Valid()
    }

    ghost predicate RunsIn(st: Start, w: World) {
      st.sh == store.shape && st.w == w
    }

    constructor (store: ProgramStore, trees: Worktrees, workers: nat, owner: Owner)
      requires store.Valid() && trees.Valid()
      ensures Valid() && this.store == store && this.trees == trees
      ensures this.workers == workers && this.owner == owner
    {
      this.store, this.trees, this.workers, this.owner := store, trees, workers, owner;
    }

    /** Recovery at the top of the loop: jobs in flight elsewhere whose lease has lapsed are repaired. */
    method RecoverExpired(w: World, active: set<Key>, all: bool)
      requires Valid() && ValidWorld(store.shape, w) && AllIn(store.shape.order, store.shape.deps.Keys)
      modifies store`rows
      ensures Valid() && Recovered(w, old(store.rows), store.rows, active)
      ensures all && store.shape.deps.Keys == (set k | k in store.shape.order) ==> InFlightOnlyIn(store.rows, active)
    {
      ghost var rows0 := store.rows;
      var order := store.shape.order;
      for i := 0 to |order|
        invariant Valid() && Recovered(w, rows0, store.rows, active)
        invariant all ==> forall k :: k in order[..i] && InFlight(store.rows[k].state) ==> k in active
      {
        var k := order[i];
        var lapsed: bool := *;
        if InFlight(store.rows[k].state) && k !in active && (all || lapsed) {
          RecoverOneMore(w, rows0, store.rows, active, k);
          store.SetState(k, w.recovery[k]);
        }
        assert order[..i + 1] == order[..i] + [k];
      }
      assert order[..|order|] == order;
    }

    /**
     `wait`, or the exit of the pool when `all` is set: each dispatched job moves on or finishes.
     The choice is arbitrary, but a wait that may not return empty-handed finishes some job.
     */
    method WaitForWorkers(w: World, active: set<Key>, some: bool, all: bool) returns (finished: set<Key>)
      requires Valid() && ValidWorld(store.shape, w) && active <= store.rows.Keys
      modifies store`rows, trees
      ensures Valid() && finished <= active
      ensures Worked(w, old(store.rows), old(trees.repos), store.rows, trees.repos, active, finished)
      ensures some && active != {} ==> finished != {}
      ensures all ==> finished == active
    {
      finished := {};
      ghost var rows0, repos0 := store.rows, trees.repos;
      NobodyWorked(w, rows0, repos0);
      var left := active;
      ghost var seen: set<Key> := {};
      while left != {}
        invariant Valid() && finished <= seen && seen == active - left && left <= active
        invariant Worked(w, rows0, repos0, store.rows, trees.repos, seen, finished)
        invariant some && seen != {} ==> finished != {}
        invariant all ==> finished == seen
        decreases left
      {
        var k :| k in left;
        ghost var rows, repos := store.rows, trees.repos;
        var over := Work(w, k, all || (some && finished == {}));
        OneMoreWorked(w, rows0, repos0, rows, repos, store.rows, trees.repos, seen, finished, k, over);
        finished := if over then finished + {k} else finished;
        left, seen := left - {k}, seen + {k};
      }
      assert seen == active;
    }

    /** One dispatched job makes some progress, possibly all of it. */
    method Work(w: World, k: Key, finish: bool) returns (over: bool)
      requires Valid() && ValidWorld(store.shape, w) && k in store.rows
      modifies store`rows, trees
      ensures Valid() && store.rows == old(store.rows)[k := old(store.rows)[k].(state := store.rows[k].state)]
      ensures k in trees.repos && trees.repos == old(trees.repos)[k := trees.repos[k]]
      ensures MidState(store.rows[k].state, w.results[k])
      ensures over ==> Collectable(w.results[k], store.rows[k].state, trees.repos, k)
      ensures finish ==> over
    {
      trees.EnsureWorktree(k);
      var ends: bool := *;
      over := finish || ends;
      if over && w.results[k].Returned? {
        trees.NormalizeWorkerCommits(k, w.results[k].changed);
        store.SetState(k, w.results[k].state);
      } else {
        var s: JobState := *;
        store.SetState(k, if MidState(s, w.results[k]) then s else Running);
      }
    }

    /** One row of the promotion pass; fails when there is nothing to commit. */
    method PromoteTask(k: Key) returns (r: Result<bool, Key>)
      requires Valid() && k in store.rows
      modifies store`rows, store`feature, trees
      ensures Valid() && (store.feature == old(store.feature) || store.feature.Executing?)
      ensures r.Success? && !r.value ==> !Promotable(store.shape, old(store.rows), k)
      ensures r.Success? && r.value ==>
                && Promotable(store.shape, old(store.rows), k)
                && k in old(trees.repos) && Committable(old(trees.repos)[k], false)
                && k in trees.repos && Committed(trees.repos[k])
                && trees.repos == old(trees.repos)[k := trees.repos[k]]
                && store.rows ==
                   old(store.rows)[k := old(store.rows)[k].(promoted := true, verified := Some(trees.repos[k].head))]
      ensures r.Failure? ==>
                && r.error == k && Promotable(store.shape, old(store.rows), k)
                && !(k in old(trees.repos) && Committable(old(trees.repos)[k], false))
      ensures r.Failure? || !r.value ==> store.rows == old(store.rows) && trees.repos == old(trees.repos)
    {
      var row := store.rows[k];
      if k == store.shape.terminal || !row.state.Ready? {
        return Success(false);
      }
      if row.promoted {
        return Success(false);
      }
      if k !in trees.repos {
        return Failure(k);
      }
      var commit := trees.CommitIdempotently(k, false);
      if commit.Failure? {
        return Failure(k);
      }
      var outcome := store.PromoteProgramTask(k, commit.value);
      return Success(outcome.Promoted?);
    }

    /** Commits and records every finished milestone outside `exclude`; fails with the task it stopped at. */
    method PromoteReady(exclude: set<Key>) returns (r: Result<nat, Key>, ghost scope: set<Key>)
      requires Valid() && ValidShape(store.shape)
      modifies store`rows, store`feature, trees
      ensures Valid() && scope !! exclude
      ensures PromotedIn(store.shape, old(store.rows), old(trees.repos), store.rows, trees.repos, scope)
      ensures store.feature == old(store.feature) || store.feature.Executing?
      ensures r.Success? ==> r.value == |NewlyPromoted(old(store.rows), store.rows)|
      ensures r.Success? ==> NothingPromotable(store.shape, store.rows, exclude)
      ensures r.Failure? ==>
                && r.error in old(store.rows) && r.error !in exclude
                && Promotable(store.shape, old(store.rows), r.error)
                && !(r.error in old(trees.repos) && Committable(old(trees.repos)[r.error], false))
    {
      ghost var sh, rows0, repos0 := store.shape, store.rows, trees.repos;
      var promoted := 0;
      var order := store.shape.order;
      var i := 0;
      while i < |order|
        invariant 0 <= i <= |order| && Valid()
        invariant PassState(sh, rows0, repos0, store.rows, trees.repos, exclude, i, promoted)
        invariant store.feature == old(store.feature) || store.feature.Executing?
      {
        var k := order[i];
        ghost var rows, repos := store.rows, trees.repos;
        PassAt(sh, rows0, repos0, rows, repos, exclude, i, promoted);
        if k !in exclude {
          var outcome := PromoteTask(k);
          if outcome.Failure? {
            return Failure(k), Visited(sh, i, exclude);
          }
          if outcome.value {
            OneMorePromoted(sh, rows0, repos0, rows, repos, store.rows, trees.repos, Visited(sh, i, exclude), k);
            promoted := promoted + 1;
          } else {
            OneMoreSkipped(sh, rows0, repos0, rows, repos, Visited(sh, i, exclude), k);
          }
        }
        i := i + 1;
      }
      NothingLeft(sh, rows0, repos0, store.rows, trees.repos, exclude);
      return Success(promoted), Visited(sh, |order|, exclude);
    }

    /** An operator may pause, cancel, or pause and resume the program; another supervisor may claim it. */
    method OthersMayIntervene(disturbed: bool)
      requires Valid()
      modifies store`feature, store`owner
      ensures Valid()
      ensures || (store.feature == old(store.feature) && store.owner == old(store.owner))
              || (disturbed && Interrupted(store.feature, store.owner, owner))
    {
      var pause: bool, abandon: bool, resume: bool, claim: bool, rival: Owner := *, *, *, *, *;
      if disturbed && (pause || abandon) {
        store.SetProgramState(if abandon then Abandoned else if resume then Approved else Paused);
      } else if disturbed && claim && rival != owner {
        store.feature, store.owner := Executing, Some(rival);
      }
    }

    /** The loop over the finished futures. */
    method Collect(w: World, running: set<Key>, finished: set<Key>, completed0: nat, error0: Option<RunError>,
                   ghost st: Start, ghost done: set<Key>, ghost log0: seq<RunEvent>)
      returns (active: set<Key>, completed: nat, error: Option<RunError>, ghost log: seq<RunEvent>)
      requires Valid() && RunsIn(st, w) && ValidWorld(store.shape, w)
      requires Collecting(st, store.rows, trees.repos, running, done, finished, completed0, error0)
      requires LogOk(w, log0, running, done, error0)
      modifies store`rows
      ensures Valid() && active == running - finished
      ensures LogOk(w, log, active, done + finished, error)
      ensures Collecting(st, store.rows, trees.repos, active, done + finished, {}, completed, error)
      ensures NewlyPromoted(st.rows, store.rows) == NewlyPromoted(st.rows, old(store.rows))
    {
      active, completed, error, log := running, completed0, error0, log0;
      var left := finished;
      ghost var collected := done;
      ghost var promoted := NewlyPromoted(st.rows, store.rows);
      while left != {}
        invariant Valid() && left <= active && active - left == running - finished
        invariant collected + left == done + finished
        invariant Collecting(st, store.rows, trees.repos, active, collected, left, completed, error)
        invariant NewlyPromoted(st.rows, store.rows) == promoted
        invariant LogOk(w, log, active, collected, error)
        decreases left
      {
        var k :| k in left;
        ghost var rows, errorBefore := store.rows, error;
        assert ValidFates(w, k);
        LogCollected(w, log, active, collected, error, k);
        log := log + [Collected(k)];
        if w.results[k].Raised? {
          store.SetState(k, Blocked);
          error := Some(JobError(k));
        } else if Dead(w.results[k].state) && error.None? {
          error := Some(JobError(k));
        }
        assert error == NextError(errorBefore, k, w.results[k]);
        CollectOne(st, rows, trees.repos, active, collected, left, completed, errorBefore, k, store.rows);
        TakeOne(active, collected, left, k);
        active, completed := active - {k}, completed + 1;
        left, collected := left - {k}, collected + {k};
      }
      TakenAll(active, collected, running, done, finished);
    }

    /** Fill the free workers with ready jobs, unless an error stopped dispatching. */
    method Dispatch(w: World, running: set<Key>, completed: nat, promoted: nat, error: Option<RunError>,
                    ghost st: Start, ghost done: set<Key>)
      returns (active: set<Key>)
      requires Valid() && RunsIn(st, w) && ValidShape(store.shape) && ValidWorld(store.shape, w)
      requires LoopState(st, workers, store.rows, trees.repos, running, done, completed, promoted, error)
      requires Held(store.feature, store.owner, owner, false) && NothingPromotable(store.shape, store.rows, running)
      ensures error.Some? || |running| >= workers ==> active == running
      ensures error.None? && |running| < workers ==>
                var ready := ReadyJobs(store.shape, store.Model(), workers - |running|);
                active == running + SetOf(ready)
      ensures LoopState(st, workers, store.rows, trees.repos, active, done, completed, promoted, error)
      ensures running <= active && forall k :: k in active && k !in running ==> Eligible(store.shape, store.rows, k)
    {
      active := running;
      var capacity := workers - |active|;
      if capacity > 0 && error.None? {
        var ready := ReadyJobs(store.shape, Tables(store.rows, store.feature, store.owner, store.expires), capacity);
        active := Submit(running, ready);
        DispatchKeepsLoop(st, workers, store.rows, trees.repos, running, done, completed, promoted, error, active, ready);
      }
    }

    /** The jobs that are not running yet are handed to the pool. */
    method Submit(running: set<Key>, ready: seq<Key>) returns (active: set<Key>)
      ensures active == running + SetOf(ready) && |active| <= |running| + |ready|
    {
      active := running;
      for i := 0 to |ready|
        invariant active == running + SetOf(ready[..i]) && |active| <= |running| + i
      {
        OneMoreInSet(ready, i);
        if ready[i] !in active {
          active := active + {ready[i]};
        }
      }
      assert ready[..|ready|] == ready;
    }

    method TerminalResult() returns (r: Option<FeatureState>)
      requires Valid() && store.shape.terminal in store.rows
      ensures r == match store.rows[store.shape.terminal].state
                   case Ready => Some(ReadyForReview)
                   case Accepted => Some(Delivered)
                   case _ => None
      ensures r.Some? <==> Passed(store.rows[store.shape.terminal].state)
    {
      var s := store.rows[store.shape.terminal].state;
      if s.Ready? {
        return Some(ReadyForReview);
      }
      if s.Accepted? {
        return Some(Delivered);
      }
      return None;
    }

    /** The top of an iteration: repair what crashed, then check that the run is still ours. */
    method CheckIn(w: World, active: set<Key>, completed: nat, promoted: nat, error: Option<RunError>, all: bool,
                   disturbed: bool, now: int, lease: int, ghost st: Start, ghost done: set<Key>)
      returns (end: Option<RunResult>)
      requires Valid() && RunsIn(st, w) && ValidWorld(store.shape, w)
               && store.shape.deps.Keys == (set k | k in store.shape.order)
      requires LoopState(st, workers, store.rows, trees.repos, active, done, completed, promoted, error)
      requires Held(store.feature, store.owner, owner, disturbed)
      modifies store`rows, store`expires
      ensures Valid() && Held(store.feature, store.owner, owner, disturbed)
      ensures LoopState(st, workers, store.rows, trees.repos, active, done, completed, promoted, error)
      ensures end.None? ==> Held(store.feature, store.owner, owner, false) && (all ==> InFlightOnlyIn(store.rows, active))
      ensures end.Some? ==> StopsHere(st, store.rows, store.feature, active, done, completed, error, disturbed, end.value)
    {
      ghost var rows := store.rows;
      RecoverExpired(w, active, all);
      RecoveryKeepsLoop(st, workers, rows, trees.repos, store.rows, active, done, completed, promoted, error);
      if store.feature.Paused? || store.feature.Abandoned? {
        return Some(Finished(store.feature, error, completed, promoted));
      }
      var held := store.HeartbeatProgramRun(owner, now, lease);
      return if held then None else Some(Aborted(LeaseLost));
    }

    /** Record what is verified, then look at the terminal task. */
    method PromoteAndLook(w: World, active: set<Key>, completed: nat, promoted0: nat, error: Option<RunError>,
                          ghost all: bool, disturbed: bool, ghost st: Start, ghost done: set<Key>)
      returns (end: Option<RunResult>, promoted: nat)
      requires Valid() && RunsIn(st, w) && ValidShape(store.shape) && ValidWorld(store.shape, w)
               && Held(store.feature, store.owner, owner, false)
      requires LoopState(st, workers, store.rows, trees.repos, active, done, completed, promoted0, error)
      requires all ==> InFlightOnlyIn(store.rows, active)
      modifies store`rows, store`feature, trees
      ensures Valid() && Held(store.feature, store.owner, owner, false)
      ensures end.None? && all ==> InFlightOnlyIn(store.rows, active)
      ensures Consistent(st, store.rows, trees.repos, active, done)
      ensures end.None? ==>
                LoopState(st, workers, store.rows, trees.repos, active, done, completed, promoted, error)
      ensures end.None? ==> NothingPromotable(store.shape, store.rows, active) && !TerminalDone(store.shape, store.rows, active)
      ensures end.Some? ==> StopsHere(st, store.rows, store.feature, active, done, completed, error, disturbed, end.value)
    {
      ghost var sh, rows, repos := store.shape, store.rows, trees.repos;
      var pass, scope := PromoteReady(active);
      promoted := promoted0;
      PassAddsUp(st, workers, rows, repos, store.rows, trees.repos, active, done, scope, completed, promoted, error);
      if pass.Failure? {
        EndsAtPromotion(st, rows, repos, store.rows, trees.repos, active, done, scope, pass.error, disturbed);
        return Some(Aborted(GitFailure(pass.error))), promoted;
      }
      promoted := promoted + pass.value;
      var terminal := TerminalResult();
      if terminal.Some? && store.shape.terminal !in active {
        EndsAtTerminal(st, workers, store.rows, trees.repos, active, done, completed, promoted, error, disturbed);
        return Some(Finished(terminal.value, error, completed, promoted)), promoted;
      }
      if all {
        PromotionKeepsInFlight(sh, rows, repos, store.rows, trees.repos, scope, active);
      }
      return None, promoted;
    }

    /** Wait for dispatched jobs, while others may intervene. */
    method Wait(w: World, running: set<Key>, completed: nat, promoted: nat, error: Option<RunError>, some: bool,
                disturbed: bool, ghost st: Start, ghost done: set<Key>)
      returns (finished: set<Key>)
      requires Valid() && RunsIn(st, w) && ValidWorld(store.shape, w) && Held(store.feature, store.owner, owner, false)
      requires LoopState(st, workers, store.rows, trees.repos, running, done, completed, promoted, error)
      modifies store`rows, store`feature, store`owner, trees
      ensures Valid() && Held(store.feature, store.owner, owner, disturbed)
      ensures finished <= running && (some && running != {} ==> finished != {})
      ensures Collecting(st, store.rows, trees.repos, running, done, finished, completed, error)
      ensures |running| <= workers && promoted == |NewlyPromoted(st.rows, store.rows)|
    {
      ghost var rows, repos := store.rows, trees.repos;
      finished := WaitForWorkers(w, running, some, false);
      WorkKeepsLoop(st, workers, rows, repos, store.rows, trees.repos, running, done, finished, completed, promoted, error);
      OthersMayIntervene(disturbed);
    }

    /** Wait for dispatched jobs and collect those that finished; an error ends the run once nothing is left running. */
    method WaitAndCollect(w: World, running: set<Key>, completed0: nat, promoted: nat, error0: Option<RunError>,
                          some: bool, disturbed: bool, ghost st: Start, ghost done0: set<Key>,
                          ghost log0: seq<RunEvent>)
      returns (end: Option<RunResult>, active: set<Key>, completed: nat, error: Option<RunError>, finished: set<Key>,
               ghost log: seq<RunEvent>)
      requires Valid() && RunsIn(st, w) && ValidWorld(store.shape, w) && Held(store.feature, store.owner, owner, false)
      requires LoopState(st, workers, store.rows, trees.repos, running, done0, completed0, promoted, error0)
      requires LogOk(w, log0, running, done0, error0)
      modifies store`rows, store`feature, store`owner, trees
      ensures LogOk(w, log, active, done0 + finished, error)
      ensures end.Some? ==> active == {} && end.value == Finished(Halted, error, completed, promoted)
      ensures Valid() && Held(store.feature, store.owner, owner, disturbed)
      ensures finished <= running && (some && running != {} ==> finished != {})
      ensures LoopState(st, workers, store.rows, trees.repos, active, done0 + finished, completed, promoted, error)
      ensures end.None? ==> error.None? || active != {}
      ensures end.Some? ==> end.value.Finished? && end.value.state.Halted?
      ensures end.Some? ==> Ended(st, store.rows, active, done0 + finished, disturbed, end.value)
    {
      finished := Wait(w, running, completed0, promoted, error0, some, disturbed, st, done0);
      active, completed, error, log := Collect(w, running, finished, completed0, error0, st, done0, log0);
      CollectingKeepsLoop(st, workers, store.rows, trees.repos, running, active, done0 + finished, completed, promoted, error);
      end := None;
      if error.Some? && active == {} {
        EndsOnError(st, workers, store.rows, trees.repos, done0 + finished, completed, promoted, error, disturbed);
        end := Some(Finished(Halted, error, completed, promoted));
      }
    }

    /** With nothing running: dead tasks end the run, jobs of an earlier supervisor are waited for. */
    method CheckIdle(w: World, completed: nat, promoted: nat, disturbed: bool, ghost st: Start, ghost done: set<Key>)
      returns (end: Option<RunResult>)
      requires Valid() && RunsIn(st, w) && ValidWorld(store.shape, w)
      requires LoopState(st, workers, store.rows, trees.repos, {}, done, completed, promoted, None)
      requires DeadKeys(store.rows) != {} || InFlightKeys(store.rows) != {}
      ensures end.None? ==> !InFlightOnlyIn(store.rows, {})
      ensures end.Some? ==> end.value == Finished(Halted, Some(DeadTasks), completed, promoted)
      ensures end.Some? ==> Ended(st, store.rows, {}, done, disturbed, end.value)
    {
      var blocked := DeadKeys(store.rows);
      if blocked != {} {
        EndsOnDead(st, workers, store.rows, trees.repos, done, completed, promoted, blocked, disturbed);
        return Some(Finished(Halted, Some(DeadTasks), completed, promoted));
      }
      var inFlight := InFlightKeys(store.rows);
      if inFlight == {} {
        // Where the program reports that the program cannot advance.
        assert false;
      }
      ghost var k :| k in inFlight;
      return None;
    }

    /** The upper half of an iteration: repair, check in, promote, and look at the terminal task. */
    method Survey(w: World, active: set<Key>, completed: nat, promoted0: nat, error: Option<RunError>, all: bool,
                  disturbed: bool, now: int, lease: int, ghost st: Start, ghost done: set<Key>)
      returns (end: Option<RunResult>, promoted: nat)
      requires Valid() && RunsIn(st, w) && ValidShape(store.shape) && ValidWorld(store.shape, w)
      requires LoopState(st, workers, store.rows, trees.repos, active, done, completed, promoted0, error)
      requires Held(store.feature, store.owner, owner, disturbed)
      modifies store`rows, store`feature, store`expires, trees
      ensures Valid() && Held(store.feature, store.owner, owner, disturbed)
      ensures Consistent(st, store.rows, trees.repos, active, done)
      ensures end.None? ==> Held(store.feature, store.owner, owner, false) && (all ==> InFlightOnlyIn(store.rows, active))
      ensures end.None? ==>
                LoopState(st, workers, store.rows, trees.repos, active, done, completed, promoted, error)
      ensures end.None? ==> NothingPromotable(store.shape, store.rows, active) && !TerminalDone(store.shape, store.rows, active)
      ensures end.Some? ==> StopsHere(st, store.rows, store.feature, active, done, completed, error, disturbed, end.value)
    {
      promoted := promoted0;
      end := CheckIn(w, active, completed, promoted, error, all, disturbed, now, lease, st, done);
      if end.Some? {
        return;
      }
      end, promoted := PromoteAndLook(w, active, completed, promoted0, error, all, disturbed, st, done);
    }

    /** The lower half of an iteration: dispatch, then wait for the pool, or look why it is empty. */
    method Advance(w: World, running: set<Key>, completed0: nat, promoted: nat, error0: Option<RunError>, some: bool,
                   disturbed: bool, ghost st: Start, ghost done0: set<Key>, ghost log0: seq<RunEvent>)
      returns (end: Option<RunResult>, active: set<Key>, completed: nat, error: Option<RunError>, finished: set<Key>,
               waited: bool, ghost log: seq<RunEvent>)
      requires Valid() && RunsIn(st, w) && ValidShape(store.shape) && ValidWorld(store.shape, w)
      requires LoopState(st, workers, store.rows, trees.repos, running, done0, completed0, promoted, error0)
      requires Held(store.feature, store.owner, owner, false) && NothingPromotable(store.shape, store.rows, running)
      requires !TerminalDone(store.shape, store.rows, running) && workers >= 1 && (error0.None? || running != {})
      requires LogOk(w, log0, running, done0, error0)
      modifies store`rows, store`feature, store`owner, trees
      ensures Valid() && Held(store.feature, store.owner, owner, disturbed)
      ensures LoopState(st, workers, store.rows, trees.repos, active, done0 + finished, completed, promoted, error)
      ensures LogOk(w, log, active, done0 + finished, error)
      ensures end.None? ==> error.None? || active != {}
      ensures end.None? && !waited ==> finished == {} && !InFlightOnlyIn(old(store.rows), running)
      ensures waited && some ==> finished != {}
      ensures finished == {} ==> done0 + finished == done0
      ensures finished != {} ==> Unfinished(w, st.rows) - (done0 + finished) < Unfinished(w, st.rows) - done0
      ensures end.Some? ==> end.value.Finished? && end.value.state.Halted?
      ensures end.Some? ==> Ended(st, store.rows, active, done0 + finished, disturbed, end.value)
      ensures end.Some? ==> LogExplains(w, log, end.value) && Begun(log) == active + (done0 + finished)
    {
      active := Dispatch(w, running, completed0, promoted, error0, st, done0);
      LogBegan(w, log0, running, done0, error0, active);
      log := log0 + [Began(active - running)];
      if active != {} {
        ghost var wider := active;
        end, active, completed, error, finished, log :=
          WaitAndCollect(w, active, completed0, promoted, error0, some, disturbed, st, done0, log);
        FewerLeft(w, st.rows, done0, finished, wider);
        waited := true;
      } else {
        NotStuck(st, workers, store.Model(), trees.repos, running, done0, completed0, promoted, error0);
        end := CheckIdle(w, completed0, promoted, disturbed, st, done0);
        completed, error, finished, waited := completed0, error0, {}, false;
        assert done0 + {} == done0;
      }
      if end.Some? {
        LogExplainsEnd(w, log, active, done0 + finished, error, end.value);
      }
    }

    /**
     The loop of `run`. `idle` bounds the waits that come back empty-handed and `horizon` the polls
     after which the leases of an earlier supervisor's jobs have lapsed; both may be any number.
     */
    method Supervise(w: World, idle0: nat, horizon0: nat, disturbed: bool, now: int, lease: int, ghost st: Start)
      returns (r: RunResult, active: set<Key>, ghost done: set<Key>, ghost log: seq<RunEvent>)
      requires Valid() && RunsIn(st, w) && workers >= 1 && ValidShape(store.shape) && ValidWorld(store.shape, w)
      requires st.rows == store.rows && st.repos == trees.repos && Restartable(store.shape, st.rows, st.repos)
      requires Held(store.feature, store.owner, owner, false)
      modifies store`rows, store`feature, store`owner, store`expires, trees
      ensures LogExplains(w, log, r) && Begun(log) == active + done
      ensures Valid() && Consistent(st, store.rows, trees.repos, active, done)
      ensures Ended(st, store.rows, active, done, disturbed, r)
      ensures Held(store.feature, store.owner, owner, disturbed)
      ensures r.Finished? ==> Succeeded(r) || r.state.Halted? || store.feature == r.state
    {
      var completed, promoted, error, idle, horizon := 0, 0, None, idle0, horizon0;
      active, done, log := {}, {}, [];
      StartsInLoopState(st, workers);
      while true
        invariant Valid() && Held(store.feature, store.owner, owner, disturbed)
        invariant LoopState(st, workers, store.rows, trees.repos, active, done, completed, promoted, error)
        invariant error.None? || active != {}
        invariant LogOk(w, log, active, done, error)
        decreases Unfinished(w, st.rows) - done, idle, horizon
      {
        var end;
        end, promoted := Survey(w, active, completed, promoted, error, horizon == 0, disturbed, now, lease, st, done);
        if end.Some? {
          LogExplainsEnd(w, log, active, done, error, end.value);
          return end.value, active, done, log;
        }
        var waited, finished;
        end, active, completed, error, finished, waited, log :=
          Advance(w, active, completed, promoted, error, idle == 0, disturbed, st, done, log);
        done := done + finished;
        if end.Some? {
          return end.value, active, done, log;
        }
        if waited {
          idle := if finished == {} then idle - 1 else idle;
          continue;
        }
        horizon := horizon - 1;
      }
    }

    /** Leaving the pool waits for the workers that still run. */
    method Drain(w: World, active: set<Key>, ghost st: Start, ghost done: set<Key>)
      requires Valid() && RunsIn(st, w) && ValidWorld(store.shape, w)
      requires Consistent(st, store.rows, trees.repos, active, done)
      modifies store`rows, trees
      ensures Valid() && Consistent(st, store.rows, trees.repos, active, done)
      ensures active == {} ==> store.rows == old(store.rows)
    {
      ghost var rows, repos := store.rows, trees.repos;
      var finished := WaitForWorkers(w, active, false, true);
      ConsistentAfterWork(st, rows, repos, store.rows, trees.repos, active, done, finished);
      if active == {} {
        NobodyLeft(w, rows, repos, store.rows, trees.repos, finished);
      }
    }

    /** The loop inside the pool, which is left only when no worker runs any more. */
    method SuperviseAndDrain(w: World, idle: nat, horizon: nat, disturbed: bool, now: int, lease: int, ghost st: Start)
      returns (r: RunResult, ghost log: seq<RunEvent>)
      requires Valid() && RunsIn(st, w) && workers >= 1 && ValidShape(store.shape) && ValidWorld(store.shape, w)
      requires st.rows == store.rows && st.repos == trees.repos && Restartable(store.shape, st.rows, st.repos)
      requires Held(store.feature, store.owner, owner, false)
      modifies store`rows, store`feature, store`owner, store`expires, trees
      ensures Valid() && Held(store.feature, store.owner, owner, disturbed) && !r.NotClaimed?
      ensures LogExplains(w, log, r)
      ensures SameKeys(store.shape, w, st.rows, store.rows)
      ensures OthersUntouched(st, store.rows, trees.repos, Begun(log))
      ensures RunOutcome(st, disturbed, r)
      ensures Succeeded(r) ==> AllDone(store.shape, store.rows)
      ensures Recorded(store.shape, st.rows, store.rows)
      ensures r.Finished? ==> Succeeded(r) || r.state.Halted? || store.feature == r.state
    {
      var active;
      ghost var done;
      r, active, done, log := Supervise(w, idle, horizon, disturbed, now, lease, st);
      OutcomeFromEnd(st, store.rows, trees.repos, active, done, disturbed, r);
      Drain(w, active, st, done);
      PromotionsKept(st, store.rows, trees.repos, active, done);
      ConsistentMeansUntouched(st, store.rows, trees.repos, active, done);
    }

    /**
     One call of `run`. Undisturbed, it ends in review exactly when every job is good; it never
     reports that the program cannot advance, and what it counts is what there was to do.
     */
    method Run(w: World, idle: nat, horizon: nat, disturbed: bool, now: int, lease: int)
      returns (r: RunResult, ghost log: seq<RunEvent>)
      requires Valid() && workers >= 1 && ValidShape(store.shape) && ValidWorld(store.shape, w)
      requires Restartable(store.shape, store.rows, trees.repos)
      modifies store`rows, store`feature, store`owner, store`expires, trees
      ensures Valid()
      ensures !r.NotClaimed? ==> LogExplains(w, log, r)
      ensures !r.NotClaimed? ==>
                && SameKeys(store.shape, w, old(store.rows), store.rows)
                && OthersUntouched(Start(store.shape, w, old(store.rows), old(trees.repos)), store.rows, trees.repos, Begun(log))
      ensures r.NotClaimed? <==> !Claim(old(store.Model()), owner, now, lease).0
      ensures r.NotClaimed? ==> store.Model() == old(store.Model()) && trees.repos == old(trees.repos)
      ensures RunOutcome(Start(store.shape, w, old(store.rows), old(trees.repos)), disturbed, r)
      ensures Succeeded(r) ==> AllDone(store.shape, store.rows)
      ensures !r.NotClaimed? ==> Recorded(store.shape, old(store.rows), store.rows)
      ensures !r.NotClaimed? && !disturbed ==> store.owner.None? && store.feature == FinalState(r)
    {
      var claimed := store.ClaimProgramRun(owner, now, lease);
      if !claimed {
        return NotClaimed, [];
      }
      r, log := SuperviseAndDrain(w, idle, horizon, disturbed, now, lease, Start(store.shape, w, store.rows, trees.repos));
      store.ReleaseProgramRun(owner, FinalState(r));
    }
  }
}
