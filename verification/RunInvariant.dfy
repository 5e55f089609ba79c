/** What one run of a program keeps true between the supervisor's steps, and why it cannot get stuck. */
module RunInvariant {
  import opened Wrappers
  import opened Graph
  import opened Program
  import opened GitOps

  /** What running one job comes to; `changed` tells whether a ready job left changes to commit. */
  datatype JobResult = Returned(state: JobState, changed: bool) | Raised

  datatype RunError = JobError(key: Key) | GitFailure(key: Key) | DeadTasks | CannotAdvance | LeaseLost

  /** `Aborted` is a run that ends by re-raising an exception. */
  datatype RunResult =
    | NotClaimed
    | Finished(state: FeatureState, error: Option<RunError>, completed: nat, promoted: nat)
    | Aborted(cause: RunError)

  /**
   Everything the run does not decide: what each job run comes to, and what recovery makes of a
   job that an earlier supervisor left in flight.
   */
  datatype World = World(results: map<Key, JobResult>, recovery: map<Key, JobState>)

  /** A program as a run finds it, in the world it runs in. */
  datatype Start = Start(sh: Shape, w: World, rows: map<Key, Row>, repos: map<Key, Repo>)

  ghost predicate ValidWorld(sh: Shape, w: World) {
    && w.results.Keys == sh.deps.Keys && w.recovery.Keys == sh.deps.Keys
    && forall k {:trigger ValidFates(w, k)} :: k in w.results ==> ValidFates(w, k)
  }

  /** `run_job` returns READY, BLOCKED or FAILED; recovery yields READY, RETRY or FAILED. */
  predicate ValidFates(w: World, k: Key)
    requires k in w.results && k in w.recovery
  {
    && (w.results[k].Returned? ==>
          w.results[k].state.Ready? || w.results[k].state.Blocked? || w.results[k].state.Failed?)
    && (w.recovery[k].Ready? || w.recovery[k].Retry? || w.recovery[k].Failed?)
  }

  /** The start of a run: fresh, or left behind by a supervisor that died at any point. */
  ghost predicate Restartable(sh: Shape, rows: map<Key, Row>, repos: map<Key, Repo>) {
    forall k {:trigger RestartableRow(sh, rows, repos, k)} :: k in rows ==> RestartableRow(sh, rows, repos, k)
  }

  ghost predicate RestartableRow(sh: Shape, rows: map<Key, Row>, repos: map<Key, Repo>, k: Key)
    requires k in rows
  {
    && k in sh.deps
    && (rows[k].promoted ==> rows[k].verified.Some? && Passed(rows[k].state) && k != sh.terminal)
    && (Passed(rows[k].state) || InFlight(rows[k].state) ==> k in repos && DepsSettled(sh, rows, k))
  }

  predicate Passed(s: JobState) { s.Ready? || s.Accepted? }

  /** Work that needs no further job run: ready or accepted, or ready after recovery. */
  predicate DoneBefore(w: World, rows: map<Key, Row>, k: Key)
    requires k in rows && k in w.recovery
  {
    Passed(rows[k].state) || (InFlight(rows[k].state) && w.recovery[k].Ready?)
  }

  predicate LostBefore(w: World, rows: map<Key, Row>, k: Key)
    requires k in rows && k in w.recovery
  {
    Dead(rows[k].state) || (InFlight(rows[k].state) && w.recovery[k].Failed?)
  }

  ghost function Unfinished(w: World, rows: map<Key, Row>): (keys: set<Key>)
    requires rows.Keys == w.recovery.Keys
  {
    set k | k in rows && !DoneBefore(w, rows, k) && !LostBefore(w, rows, k)
  }

  ghost function Unpromoted(sh: Shape, rows: map<Key, Row>): (keys: set<Key>)
  {
    set k | k in rows && k != sh.terminal && !Settled(rows[k])
  }

  /** The job ends ready with something to commit (the terminal task needs no commit). */
  ghost predicate GoodJob(st: Start, k: Key)
    requires k in st.rows && k in st.w.recovery && k in st.w.results
  {
    && !LostBefore(st.w, st.rows, k)
    && (DoneBefore(st.w, st.rows, k) ==>
          k == st.sh.terminal || Settled(st.rows[k]) || (k in st.repos && Committable(st.repos[k], false)))
    && (!DoneBefore(st.w, st.rows, k) ==>
          && st.w.results[k].Returned? && st.w.results[k].state.Ready?
          && (k == st.sh.terminal || st.w.results[k].changed))
  }

  ghost predicate AllGood(st: Start)
    requires st.rows.Keys == st.w.recovery.Keys == st.w.results.Keys
  {
    forall k {:trigger GoodJob(st, k)} :: k in st.rows ==> GoodJob(st, k)
  }

  /** A finished job run left the controller's head at the baseline, with or without edits. */
  predicate Ran(repos: map<Key, Repo>, k: Key, changed: bool) {
    k in repos && repos[k].head == repos[k].baseline && repos[k].dirty == changed
  }

  /** States a dispatched job can be seen in before its future is collected. */
  predicate MidState(s: JobState, r: JobResult) {
    Dispatchable(s) || InFlight(s) || (match r case Returned(f, _) => s == f case Raised => s.Ready?)
  }

  /** The effect of one promotion pass over the tasks of `scope`. */
  ghost predicate PromotedIn(sh: Shape, rows: map<Key, Row>, repos: map<Key, Repo>, rows': map<Key, Row>,
                             repos': map<Key, Repo>, scope: set<Key>)
  {
    && rows'.Keys == rows.Keys && repos'.Keys == repos.Keys
    && forall k {:trigger PromotedAt(sh, rows, repos, rows', repos', scope, k)} ::
         k in rows ==> PromotedAt(sh, rows, repos, rows', repos', scope, k)
  }

  ghost predicate PromotedAt(sh: Shape, rows: map<Key, Row>, repos: map<Key, Repo>, rows': map<Key, Row>,
                             repos': map<Key, Repo>, scope: set<Key>, k: Key)
    requires k in rows && k in rows' && repos'.Keys == repos.Keys
  {
    if k in scope && Promotable(sh, rows, k) then
      && k in repos && Committable(repos[k], false) && Committed(repos'[k])
      && rows'[k] == rows[k].(promoted := true, verified := Some(repos'[k].head))
    else
      rows'[k] == rows[k] && (k in repos ==> repos'[k] == repos[k])
  }

  function NewlyPromoted(before: map<Key, Row>, after: map<Key, Row>): (keys: set<Key>)
  {
    set k | k in before && k in after && after[k].promoted && !before[k].promoted
  }

  ghost predicate RecoveredAt(w: World, before: Row, after: Row, active: set<Key>, k: Key)
  {
    || after == before
    || (k !in active && InFlight(before.state) && k in w.recovery && after == before.(state := w.recovery[k]))
  }

  /** Recovery: only jobs in flight outside `active` change, to the state recovery gives them. */
  ghost predicate Recovered(w: World, before: map<Key, Row>, after: map<Key, Row>, active: set<Key>)
  {
    after.Keys == before.Keys && forall k {:trigger RecoveredAt(w, before[k], after[k], active, k)} ::
         k in before ==> RecoveredAt(w, before[k], after[k], active, k)
  }

  lemma RecoverOneMore(w: World, rows0: map<Key, Row>, rows: map<Key, Row>, active: set<Key>, k: Key)
    requires Recovered(w, rows0, rows, active) && k in rows && k in w.results && k in w.recovery && ValidFates(w, k)
    requires InFlight(rows[k].state) && k !in active
    ensures Recovered(w, rows0, WithState(rows, k, w.recovery[k]), active)
  {
    assert RecoveredAt(w, rows0[k], rows[k], active, k);
    var rows' := WithState(rows, k, w.recovery[k]);
    forall x | x in rows0
      ensures RecoveredAt(w, rows0[x], rows'[x], active, x)
    {
      assert RecoveredAt(w, rows0[x], rows[x], active, x);
    }
  }

  ghost predicate WorkedAt(w: World, rows: map<Key, Row>, repos: map<Key, Repo>, rows': map<Key, Row>,
                           repos': map<Key, Repo>, active: set<Key>, finished: set<Key>, k: Key)
    requires k in rows && k in rows' && repos.Keys <= repos'.Keys
  {
    if k in active then
      && k in w.results && rows'[k] == rows[k].(state := rows'[k].state) && MidState(rows'[k].state, w.results[k])
      && (k in finished ==> Collectable(w.results[k], rows'[k].state, repos', k))
    else
      rows'[k] == rows[k] && (k in repos ==> repos'[k] == repos[k])
  }

  /** What a worker left behind when its job run is over. */
  ghost predicate Collectable(r: JobResult, s: JobState, repos: map<Key, Repo>, k: Key) {
    r.Returned? ==> s == r.state && (s.Ready? ==> Ran(repos, k, r.changed))
  }

  /** Workers: only jobs of `active` move, those of `finished` to their result. */
  ghost predicate Worked(w: World, rows: map<Key, Row>, repos: map<Key, Repo>, rows': map<Key, Row>,
                         repos': map<Key, Repo>, active: set<Key>, finished: set<Key>)
  {
    && rows'.Keys == rows.Keys && repos.Keys <= repos'.Keys
    && forall k {:trigger WorkedAt(w, rows, repos, rows', repos', active, finished, k)} ::
         k in rows ==> WorkedAt(w, rows, repos, rows', repos', active, finished, k)
  }

  lemma NobodyWorked(w: World, rows: map<Key, Row>, repos: map<Key, Repo>)
    ensures Worked(w, rows, repos, rows, repos, {}, {})
  {
  }

  lemma OneMoreWorked(w: World, rows0: map<Key, Row>, repos0: map<Key, Repo>, rows: map<Key, Row>,
                      repos: map<Key, Repo>, rows': map<Key, Row>, repos': map<Key, Repo>, active: set<Key>,
                      finished: set<Key>, k: Key, over: bool)
    requires Worked(w, rows0, repos0, rows, repos, active, finished) && k !in active && finished <= active
    requires k in rows && k in rows' && rows' == rows[k := rows[k].(state := rows'[k].state)]
    requires k in repos' && repos' == repos[k := repos'[k]]
    requires k in w.results && MidState(rows'[k].state, w.results[k])
    requires over ==> Collectable(w.results[k], rows'[k].state, repos', k)
    ensures Worked(w, rows0, repos0, rows', repos', active + {k}, if over then finished + {k} else finished)
  {
    var finished' := if over then finished + {k} else finished;
    assert WorkedAt(w, rows0, repos0, rows, repos, active, finished, k);
    forall x | x in rows0
      ensures WorkedAt(w, rows0, repos0, rows', repos', active + {k}, finished', x)
    {
      assert WorkedAt(w, rows0, repos0, rows, repos, active, finished, x);
    }
  }

  ghost predicate SameKeys(sh: Shape, w: World, rows0: map<Key, Row>, rows: map<Key, Row>) {
    rows0.Keys == sh.deps.Keys == rows.Keys && w.results.Keys == sh.deps.Keys && w.recovery.Keys == sh.deps.Keys
  }

  /**
   What the loop keeps. `active` are the dispatched jobs, `done` the collected ones; the rest are
   as they were at the start or as recovery left them, and only promotions are added.
   */
  ghost predicate Consistent(st: Start, rows: map<Key, Row>, repos: map<Key, Repo>, active: set<Key>, done: set<Key>)
  {
    && SameKeys(st.sh, st.w, st.rows, rows) && st.repos.Keys <= repos.Keys
    && active !! done && active + done <= Unfinished(st.w, st.rows)
    && forall k {:trigger ConsistentAt(st, rows, repos, active, done, k)} ::
         k in rows ==> ConsistentAt(st, rows, repos, active, done, k)
  }

  ghost predicate ConsistentAt(st: Start, rows: map<Key, Row>, repos: map<Key, Repo>, active: set<Key>, done: set<Key>,
                               k: Key)
    requires k in rows && k in st.sh.deps && k in st.rows && k in st.w.results && k in st.w.recovery
    requires st.rows.Keys == st.w.recovery.Keys
  {
    && PromotionOk(st, rows, repos, active, k)
    && (k in active || k in done || Passed(rows[k].state) || InFlight(rows[k].state) ==> DepsSettled(st.sh, rows, k))
    && (if k in active then MidState(rows[k].state, st.w.results[k])
        else if k in done then CollectedAs(st.w.results[k], rows[k], repos, k)
        else UntouchedSince(st.w, st.rows[k], st.repos, rows[k], repos, k))
  }

  ghost predicate PromotionOk(st: Start, rows: map<Key, Row>, repos: map<Key, Repo>, active: set<Key>, k: Key)
    requires k in rows && k in st.rows && k in st.w.results && k in st.w.recovery
  {
    && (st.rows[k].promoted ==> rows[k].promoted)
    && (rows[k].promoted ==>
          && rows[k].verified.Some? && Passed(rows[k].state) && k != st.sh.terminal && k !in active
          && GoodJob(st, k))
    && (st.rows[k].promoted ==> rows[k].verified == st.rows[k].verified)
    && (rows[k].promoted && !st.rows[k].promoted ==> rows[k].state.Ready? && RecordsHead(rows[k], repos, k))
  }

  /** The recorded commit is the clean head of the job's worktree. */
  predicate RecordsHead(row: Row, repos: map<Key, Repo>, k: Key) {
    k in repos && Committed(repos[k]) && row.verified == Some(repos[k].head)
  }

  ghost predicate CollectedAs(r: JobResult, row: Row, repos: map<Key, Repo>, k: Key) {
    match r
    case Returned(s, changed) => row.state == s && (s.Ready? && !row.promoted ==> Ran(repos, k, changed))
    case Raised => row.state.Blocked?
  }

  ghost predicate UntouchedSince(w: World, row0: Row, repos0: map<Key, Repo>, row: Row, repos: map<Key, Repo>, k: Key)
    requires k in w.recovery
  {
    && (row.state == row0.state || (InFlight(row0.state) && row.state == w.recovery[k]))
    && (Passed(row0.state) || InFlight(row0.state) ==> k in repos0)
    && (k in repos0 && !row.promoted ==> k in repos && repos[k] == repos0[k])
  }

  lemma ConsistentAtStart(st: Start)
    requires SameKeys(st.sh, st.w, st.rows, st.rows) && Restartable(st.sh, st.rows, st.repos)
    ensures Consistent(st, st.rows, st.repos, {}, {})
  {
    forall k | k in st.rows
      ensures ConsistentAt(st, st.rows, st.repos, {}, {}, k)
    {
      StartsConsistentAt(st, k);
    }
  }

  lemma StartsConsistentAt(st: Start, k: Key)
    requires SameKeys(st.sh, st.w, st.rows, st.rows) && k in st.rows && RestartableRow(st.sh, st.rows, st.repos, k)
    ensures ConsistentAt(st, st.rows, st.repos, {}, {}, k)
  {
  }

  lemma ConsistentAfterPromotion(st: Start, rows: map<Key, Row>, repos: map<Key, Repo>, rows': map<Key, Row>,
                                 repos': map<Key, Repo>, active: set<Key>, done: set<Key>, scope: set<Key>)
    requires Consistent(st, rows, repos, active, done)
    requires PromotedIn(st.sh, rows, repos, rows', repos', scope) && scope !! active
    ensures Consistent(st, rows', repos', active, done)
    ensures NewlyPromoted(st.rows, rows') == NewlyPromoted(st.rows, rows) + NewlyPromoted(rows, rows')
    ensures NewlyPromoted(st.rows, rows) !! NewlyPromoted(rows, rows')
  {
    forall k | k in rows'
      ensures ConsistentAt(st, rows', repos', active, done, k)
    {
      assert ConsistentAt(st, rows, repos, active, done, k);
      assert PromotedAt(st.sh, rows, repos, rows', repos', scope, k);
      SettledStays(st.sh, rows, repos, rows', repos', scope, k);
      assert k in active || k in done ==> k in Unfinished(st.w, st.rows);
      PromotionKeepsAt(st, rows, repos, rows', repos', active, done, scope, k);
    }
    PromotionsAddUp(st, rows, repos, rows', repos', active, done, scope);
  }

  lemma PromotionsAddUp(st: Start, rows: map<Key, Row>, repos: map<Key, Repo>, rows': map<Key, Row>,
                        repos': map<Key, Repo>, active: set<Key>, done: set<Key>, scope: set<Key>)
    requires Consistent(st, rows, repos, active, done)
    requires PromotedIn(st.sh, rows, repos, rows', repos', scope)
    ensures NewlyPromoted(st.rows, rows') == NewlyPromoted(st.rows, rows) + NewlyPromoted(rows, rows')
    ensures NewlyPromoted(st.rows, rows) !! NewlyPromoted(rows, rows')
  {
    forall k | k in rows
      ensures rows[k].promoted ==> rows'[k].promoted
      ensures st.rows[k].promoted ==> rows[k].promoted
    {
      assert ConsistentAt(st, rows, repos, active, done, k);
      assert PromotedAt(st.sh, rows, repos, rows', repos', scope, k);
    }
  }

  lemma PromotionKeepsAt(st: Start, rows: map<Key, Row>, repos: map<Key, Repo>, rows': map<Key, Row>,
                         repos': map<Key, Repo>, active: set<Key>, done: set<Key>, scope: set<Key>, k: Key)
    requires st.rows.Keys == st.w.recovery.Keys && k in st.rows && k in st.w.results && k in st.sh.deps
    requires k in active || k in done ==> !DoneBefore(st.w, st.rows, k) && !LostBefore(st.w, st.rows, k)
    requires k in rows && k in rows' && repos'.Keys == repos.Keys
    requires ConsistentAt(st, rows, repos, active, done, k)
    requires PromotedAt(st.sh, rows, repos, rows', repos', scope, k) && (k in active ==> k !in scope)
    requires DepsSettled(st.sh, rows, k) ==> DepsSettled(st.sh, rows', k)
    ensures ConsistentAt(st, rows', repos', active, done, k)
  {
  }

  lemma SettledStays(sh: Shape, rows: map<Key, Row>, repos: map<Key, Repo>, rows': map<Key, Row>,
                     repos': map<Key, Repo>, scope: set<Key>, k: Key)
    requires PromotedIn(sh, rows, repos, rows', repos', scope) && k in sh.deps
    ensures DepsSettled(sh, rows, k) ==> DepsSettled(sh, rows', k)
  {
    forall d | d in sh.deps[k] && d in rows && Settled(rows[d])
      ensures Settled(rows'[d])
    {
      assert PromotedAt(sh, rows, repos, rows', repos', scope, d);
    }
  }

  lemma DepsStaySettled(sh: Shape, rows: map<Key, Row>, rows': map<Key, Row>)
    requires forall d :: d in rows && Settled(rows[d]) ==> d in rows' && Settled(rows'[d])
    ensures forall k :: k in sh.deps && DepsSettled(sh, rows, k) ==> DepsSettled(sh, rows', k)
  {
  }

  lemma RecoveryKeepsSettled(st: Start, rows: map<Key, Row>, rows': map<Key, Row>, active: set<Key>)
    requires Recovered(st.w, rows, rows', active)
    ensures forall k :: k in st.sh.deps && DepsSettled(st.sh, rows, k) ==> DepsSettled(st.sh, rows', k)
    ensures NewlyPromoted(st.rows, rows') == NewlyPromoted(st.rows, rows)
  {
    assert forall d :: d in rows ==> RecoveredAt(st.w, rows[d], rows'[d], active, d);
    DepsStaySettled(st.sh, rows, rows');
  }

  lemma ConsistentAfterRecovery(st: Start, rows: map<Key, Row>, repos: map<Key, Repo>, rows': map<Key, Row>,
                                active: set<Key>, done: set<Key>)
    requires Consistent(st, rows, repos, active, done) && ValidWorld(st.sh, st.w)
    requires Recovered(st.w, rows, rows', active)
    ensures Consistent(st, rows', repos, active, done)
    ensures NewlyPromoted(st.rows, rows') == NewlyPromoted(st.rows, rows)
  {
    RecoveryKeepsSettled(st, rows, rows', active);
    forall k | k in rows'
      ensures ConsistentAt(st, rows', repos, active, done, k)
    {
      assert ConsistentAt(st, rows, repos, active, done, k);
      RecoveryKeepsAt(st, rows, repos, rows', active, done, k);
    }
  }

  lemma RecoveryKeepsAt(st: Start, rows: map<Key, Row>, repos: map<Key, Repo>, rows': map<Key, Row>, active: set<Key>,
                        done: set<Key>, k: Key)
    requires SameKeys(st.sh, st.w, st.rows, rows) && SameKeys(st.sh, st.w, st.rows, rows') && k in rows
    requires ValidFates(st.w, k)
    requires ConsistentAt(st, rows, repos, active, done, k)
    requires RecoveredAt(st.w, rows[k], rows'[k], active, k)
    requires DepsSettled(st.sh, rows, k) ==> DepsSettled(st.sh, rows', k)
    ensures ConsistentAt(st, rows', repos, active, done, k)
  {
  }

  lemma ConsistentAfterWork(st: Start, rows: map<Key, Row>, repos: map<Key, Repo>, rows': map<Key, Row>,
                            repos': map<Key, Repo>, active: set<Key>, done: set<Key>, finished: set<Key>)
    requires Consistent(st, rows, repos, active, done) && ValidWorld(st.sh, st.w)
    requires Worked(st.w, rows, repos, rows', repos', active, finished)
    ensures Consistent(st, rows', repos', active, done)
    ensures NewlyPromoted(st.rows, rows') == NewlyPromoted(st.rows, rows)
  {
    forall d | d in rows
      ensures Settled(rows[d]) ==> Settled(rows'[d])
      ensures rows'[d].promoted == rows[d].promoted
    {
      assert WorkedAt(st.w, rows, repos, rows', repos', active, finished, d);
      ActiveIsUnsettled(st, rows, repos, active, done, d);
    }
    DepsStaySettled(st.sh, rows, rows');
    forall k | k in rows'
      ensures ConsistentAt(st, rows', repos', active, done, k)
    {
      assert WorkedAt(st.w, rows, repos, rows', repos', active, finished, k);
      assert ConsistentAt(st, rows, repos, active, done, k);
      WorkKeepsAt(st, rows, repos, rows', repos', active, done, finished, k);
    }
  }

  lemma ActiveIsUnsettled(st: Start, rows: map<Key, Row>, repos: map<Key, Repo>, active: set<Key>, done: set<Key>,
                          k: Key)
    requires Consistent(st, rows, repos, active, done) && ValidWorld(st.sh, st.w)
    requires k in rows
    ensures k in active ==> !Settled(rows[k])
  {
    assert ConsistentAt(st, rows, repos, active, done, k);
    assert ValidFates(st.w, k);
  }

  lemma WorkKeepsAt(st: Start, rows: map<Key, Row>, repos: map<Key, Repo>, rows': map<Key, Row>, repos': map<Key, Repo>,
                    active: set<Key>, done: set<Key>, finished: set<Key>, k: Key)
    requires SameKeys(st.sh, st.w, st.rows, rows) && SameKeys(st.sh, st.w, st.rows, rows') && k in rows
    requires repos.Keys <= repos'.Keys
    requires ConsistentAt(st, rows, repos, active, done, k)
    requires WorkedAt(st.w, rows, repos, rows', repos', active, finished, k)
    requires DepsSettled(st.sh, rows, k) ==> DepsSettled(st.sh, rows', k)
    ensures ConsistentAt(st, rows', repos', active, done, k)
  {
  }

  lemma ConsistentAfterDispatch(st: Start, rows: map<Key, Row>, repos: map<Key, Repo>, active: set<Key>, done: set<Key>,
                                ready: set<Key>)
    requires Consistent(st, rows, repos, active, done) && ValidWorld(st.sh, st.w)
    requires ready !! active && forall k :: k in ready ==> Eligible(st.sh, rows, k)
    ensures Consistent(st, rows, repos, active + ready, done)
  {
    forall k | k in ready
      ensures k in Unfinished(st.w, st.rows) && k !in done
    {
      assert Eligible(st.sh, rows, k);
      EligibleIsUnfinished(st, rows, repos, active, done, k);
    }
    forall k | k in rows
      ensures ConsistentAt(st, rows, repos, active + ready, done, k)
    {
      assert ConsistentAt(st, rows, repos, active, done, k);
      DispatchKeepsAt(st, rows, repos, active, done, ready, k);
    }
  }

  lemma EligibleIsUnfinished(st: Start, rows: map<Key, Row>, repos: map<Key, Repo>, active: set<Key>, done: set<Key>,
                             k: Key)
    requires Consistent(st, rows, repos, active, done) && ValidWorld(st.sh, st.w)
    requires k in rows && Dispatchable(rows[k].state) && k !in active
    ensures k in Unfinished(st.w, st.rows) && k !in done
  {
    assert ConsistentAt(st, rows, repos, active, done, k);
    WaitingIsUnfinishedAt(st, rows, repos, active, done, k);
  }

  lemma WaitingIsUnfinishedAt(st: Start, rows: map<Key, Row>, repos: map<Key, Repo>, active: set<Key>, done: set<Key>,
                              k: Key)
    requires SameKeys(st.sh, st.w, st.rows, rows) && k in rows && ValidFates(st.w, k)
    requires ConsistentAt(st, rows, repos, active, done, k)
    requires Dispatchable(rows[k].state) && k !in active
    ensures k in Unfinished(st.w, st.rows) && k !in done
  {
  }

  lemma DispatchKeepsAt(st: Start, rows: map<Key, Row>, repos: map<Key, Repo>, active: set<Key>, done: set<Key>,
                        ready: set<Key>, k: Key)
    requires SameKeys(st.sh, st.w, st.rows, rows) && k in rows && k !in ready * done
    requires ConsistentAt(st, rows, repos, active, done, k)
    requires k in ready ==> Eligible(st.sh, rows, k)
    ensures ConsistentAt(st, rows, repos, active + ready, done, k)
  {
  }

  lemma ConsistentAfterCollecting(st: Start, rows: map<Key, Row>, repos: map<Key, Repo>, rows': map<Key, Row>,
                                  active: set<Key>, done: set<Key>, k: Key)
    requires Consistent(st, rows, repos, active, done) && k in active && k in rows && !Settled(rows[k])
    requires k in rows' && rows' == rows[k := rows[k].(state := rows'[k].state)]
    requires k in st.w.results && CollectedAs(st.w.results[k], rows'[k], repos, k)
    ensures Consistent(st, rows', repos, active - {k}, done + {k})
    ensures NewlyPromoted(st.rows, rows') == NewlyPromoted(st.rows, rows)
  {
    assert ConsistentAt(st, rows, repos, active, done, k);
    CollectingKeepsPromoted(st.rows, rows, rows', k);
    forall x | x in rows'
      ensures ConsistentAt(st, rows', repos, active - {k}, done + {k}, x)
    {
      assert ConsistentAt(st, rows, repos, active, done, x);
      CollectingKeepsSettled(st.sh, rows, rows', k, x);
      CollectingKeepsAt(st, rows, repos, rows', active, done, k, x);
    }
  }

  lemma CollectingKeepsPromoted(rows0: map<Key, Row>, rows: map<Key, Row>, rows': map<Key, Row>, k: Key)
    requires k in rows && k in rows' && rows' == rows[k := rows[k].(state := rows'[k].state)]
    ensures NewlyPromoted(rows0, rows') == NewlyPromoted(rows0, rows)
  {
  }

  lemma CollectingKeepsSettled(sh: Shape, rows: map<Key, Row>, rows': map<Key, Row>, k: Key, x: Key)
    requires k in rows && k in rows' && rows' == rows[k := rows[k].(state := rows'[k].state)]
    requires !rows[k].promoted && !rows[k].state.Accepted? && x in sh.deps
    ensures DepsSettled(sh, rows, x) ==> DepsSettled(sh, rows', x)
  {
  }

  lemma CollectingKeepsAt(st: Start, rows: map<Key, Row>, repos: map<Key, Repo>, rows': map<Key, Row>, active: set<Key>,
                          done: set<Key>, k: Key, x: Key)
    requires SameKeys(st.sh, st.w, st.rows, rows) && SameKeys(st.sh, st.w, st.rows, rows') && x in rows
    requires ConsistentAt(st, rows, repos, active, done, x) && k in active && k !in done
    requires if x == k then rows'[x] == rows[x].(state := rows'[x].state) && CollectedAs(st.w.results[x], rows'[x], repos, x)
             else rows'[x] == rows[x]
    requires DepsSettled(st.sh, rows, x) ==> DepsSettled(st.sh, rows', x)
    ensures ConsistentAt(st, rows', repos, active - {k}, done + {k}, x)
  {
  }

  predicate EndsReady(r: JobResult) { r.Returned? && r.state.Ready? }

  /** Once the terminal task is finished and collected, every job was good and nothing is left over. */
  lemma TerminalReadyMeansAll(st: Start, rows: map<Key, Row>, repos: map<Key, Repo>, active: set<Key>, done: set<Key>)
    requires ValidShape(st.sh) && ValidWorld(st.sh, st.w)
    requires Consistent(st, rows, repos, active, done)
    requires st.sh.terminal in rows && Passed(rows[st.sh.terminal].state) && st.sh.terminal !in active
    ensures AllGood(st)
    ensures active == {} && done == Unfinished(st.w, st.rows)
    ensures NewlyPromoted(st.rows, rows) == Unpromoted(st.sh, st.rows)
    ensures forall k :: k in rows ==> Passed(rows[k].state) && (k != st.sh.terminal ==> Settled(rows[k]))
  {
    MilestonesSettled(st, rows, repos, active, done);
    forall k | k in rows
      ensures k !in active && GoodJob(st, k)
      ensures Passed(rows[k].state)
      ensures k in Unfinished(st.w, st.rows) ==> k in done
      ensures k in NewlyPromoted(st.rows, rows) <==> k in Unpromoted(st.sh, st.rows)
    {
      ActiveIsUnsettled(st, rows, repos, active, done, k);
      assert ConsistentAt(st, rows, repos, active, done, k);
      PassedWasGood(st, rows, repos, active, done, k);
    }
  }

  lemma MilestonesSettled(st: Start, rows: map<Key, Row>, repos: map<Key, Repo>, active: set<Key>, done: set<Key>)
    requires ValidShape(st.sh) && Consistent(st, rows, repos, active, done)
    requires st.sh.terminal in rows && Passed(rows[st.sh.terminal].state)
    ensures forall k :: k in rows && k != st.sh.terminal ==> Settled(rows[k])
  {
    var good := set k | k in rows && Settled(rows[k]);
    forall x, y | (x in good || x == st.sh.terminal) && Edge(st.sh.deps, x, y)
      ensures y in good
    {
      assert ConsistentAt(st, rows, repos, active, done, x);
    }
    forall k | k in rows && k != st.sh.terminal
      ensures Settled(rows[k])
    {
      SoleSinkFedByAll(st.sh.deps, st.sh.terminal, k);
      ClosureHolds(st.sh.deps, good, st.sh.terminal, k);
    }
  }

  lemma PassedWasGood(st: Start, rows: map<Key, Row>, repos: map<Key, Repo>, active: set<Key>, done: set<Key>, k: Key)
    requires SameKeys(st.sh, st.w, st.rows, rows) && k in rows && k !in active && ValidFates(st.w, k)
    requires k in done ==> k in Unfinished(st.w, st.rows)
    requires ConsistentAt(st, rows, repos, active, done, k)
    requires k == st.sh.terminal || Settled(rows[k])
    requires Passed(rows[k].state)
    ensures GoodJob(st, k)
    ensures k in Unfinished(st.w, st.rows) ==> k in done
    ensures k in NewlyPromoted(st.rows, rows) <==> k in Unpromoted(st.sh, st.rows)
  {
  }

  ghost predicate PassState(sh: Shape, rows0: map<Key, Row>, repos0: map<Key, Repo>, rows: map<Key, Row>,
                            repos: map<Key, Repo>, exclude: set<Key>, i: nat, promoted: nat)
  {
    && i <= |sh.order|
    && PromotedIn(sh, rows0, repos0, rows, repos, Visited(sh, i, exclude))
    && promoted == |NewlyPromoted(rows0, rows)|
  }

  lemma PassAt(sh: Shape, rows0: map<Key, Row>, repos0: map<Key, Repo>, rows: map<Key, Row>, repos: map<Key, Repo>,
               exclude: set<Key>, i: nat, promoted: nat)
    requires ValidShape(sh) && rows0.Keys == sh.deps.Keys && i < |sh.order|
    requires PassState(sh, rows0, repos0, rows, repos, exclude, i, promoted)
    ensures var k := sh.order[i];
            && k in rows0 && k !in Visited(sh, i, exclude) && rows[k] == rows0[k]
            && (k in repos <==> k in repos0) && (k in repos0 ==> repos[k] == repos0[k])
            && Visited(sh, i + 1, exclude) == if k in exclude then Visited(sh, i, exclude) else Visited(sh, i, exclude) + {k}
  {
    VisitedGrows(sh, i, exclude);
    PromotionIsLocal(sh, rows0, repos0, rows, repos, Visited(sh, i, exclude), sh.order[i]);
  }

  ghost function Visited(sh: Shape, i: nat, exclude: set<Key>): (keys: set<Key>)
    requires i <= |sh.order|
  {
    (set k | k in sh.order[..i]) - exclude
  }

  lemma VisitedGrows(sh: Shape, i: nat, exclude: set<Key>)
    requires ValidShape(sh) && i < |sh.order|
    ensures sh.order[i] in sh.deps && sh.order[i] !in Visited(sh, i, exclude)
    ensures sh.order[i] !in exclude ==> Visited(sh, i + 1, exclude) == Visited(sh, i, exclude) + {sh.order[i]}
    ensures sh.order[i] in exclude ==> Visited(sh, i + 1, exclude) == Visited(sh, i, exclude)
  {
    assert sh.order[..i + 1] == sh.order[..i] + [sh.order[i]];
  }

  lemma NothingLeft(sh: Shape, rows0: map<Key, Row>, repos0: map<Key, Repo>, rows: map<Key, Row>, repos: map<Key, Repo>,
                    exclude: set<Key>)
    requires ValidShape(sh) && rows0.Keys == sh.deps.Keys
    requires PromotedIn(sh, rows0, repos0, rows, repos, Visited(sh, |sh.order|, exclude))
    ensures forall k :: k in rows && k !in exclude ==> !Promotable(sh, rows, k)
  {
    assert sh.order[..|sh.order|] == sh.order;
    forall k | k in rows && k !in exclude
      ensures !Promotable(sh, rows, k)
    {
      assert PromotedAt(sh, rows0, repos0, rows, repos, Visited(sh, |sh.order|, exclude), k);
    }
  }

  lemma PromotionIsLocal(sh: Shape, rows0: map<Key, Row>, repos0: map<Key, Repo>, rows: map<Key, Row>,
                         repos: map<Key, Repo>, scope: set<Key>, k: Key)
    requires PromotedIn(sh, rows0, repos0, rows, repos, scope) && k in rows0 && k !in scope
    ensures rows[k] == rows0[k] && (k in repos <==> k in repos0) && (k in repos0 ==> repos[k] == repos0[k])
  {
    assert PromotedAt(sh, rows0, repos0, rows, repos, scope, k);
  }

  lemma OneMoreSkipped(sh: Shape, rows0: map<Key, Row>, repos0: map<Key, Repo>, rows: map<Key, Row>,
                       repos: map<Key, Repo>, scope: set<Key>, k: Key)
    requires PromotedIn(sh, rows0, repos0, rows, repos, scope) && k in rows0 && !Promotable(sh, rows0, k)
    ensures PromotedIn(sh, rows0, repos0, rows, repos, scope + {k})
  {
    forall x | x in rows0
      ensures PromotedAt(sh, rows0, repos0, rows, repos, scope + {k}, x)
    {
      assert PromotedAt(sh, rows0, repos0, rows, repos, scope, x);
    }
  }

  lemma OneMorePromoted(sh: Shape, rows0: map<Key, Row>, repos0: map<Key, Repo>, rows: map<Key, Row>,
                        repos: map<Key, Repo>, rows': map<Key, Row>, repos': map<Key, Repo>, scope: set<Key>, k: Key)
    requires PromotedIn(sh, rows0, repos0, rows, repos, scope) && k !in scope
    requires k in rows0 && Promotable(sh, rows0, k) && k in repos0 && Committable(repos0[k], false)
    requires k in repos' && Committed(repos'[k]) && repos' == repos[k := repos'[k]]
    requires rows' == rows[k := rows[k].(promoted := true, verified := Some(repos'[k].head))]
    ensures PromotedIn(sh, rows0, repos0, rows', repos', scope + {k})
    ensures |NewlyPromoted(rows0, rows')| == |NewlyPromoted(rows0, rows)| + 1
  {
    assert PromotedAt(sh, rows0, repos0, rows, repos, scope, k);
    forall x | x in rows0
      ensures PromotedAt(sh, rows0, repos0, rows', repos', scope + {k}, x)
    {
      assert PromotedAt(sh, rows0, repos0, rows, repos, scope, x);
    }
    assert k !in NewlyPromoted(rows0, rows);
    assert NewlyPromoted(rows0, rows') == NewlyPromoted(rows0, rows) + {k};
  }

  /** An operator paused or cancelled the program, or another supervisor took the run over. */
  predicate Interrupted(feature: FeatureState, holder: Option<Owner>, owner: Owner) {
    || ((feature.Paused? || feature.Abandoned? || feature.Approved?) && holder.None?)
    || (feature.Executing? && holder.Some? && holder != Some(owner))
  }

  /** The reported error: none while every collected job was ready, else one that was not. */
  ghost predicate ErrorOk(w: World, done: set<Key>, error: Option<RunError>) {
    match error
    case None => forall k :: k in done && k in w.results ==> EndsReady(w.results[k])
    case Some(e) => e.JobError? && e.key in done && e.key in w.results && !EndsReady(w.results[e.key])
  }

  /** The first dead job is reported; a job that raised replaces whatever was reported before. */
  function NextError(error: Option<RunError>, k: Key, r: JobResult): (e: Option<RunError>)
  {
    if r.Raised? || (Dead(r.state) && error.None?) then Some(JobError(k)) else error
  }

  /** Half-way through the finished futures: those of `left` are still to be collected. */
  ghost predicate Collecting(st: Start, rows: map<Key, Row>, repos: map<Key, Repo>, active: set<Key>, done: set<Key>,
                             left: set<Key>, completed: nat, error: Option<RunError>)
  {
    && Consistent(st, rows, repos, active, done)
    && left <= active && AllCollectable(st.w, rows, repos, left)
    && completed == |done| && ErrorOk(st.w, done, error)
  }

  lemma TakeOne(active: set<Key>, collected: set<Key>, left: set<Key>, k: Key)
    requires k in left && left <= active
    ensures active - {k} - (left - {k}) == active - left && left - {k} <= active - {k}
    ensures collected + {k} + (left - {k}) == collected + left
  {
  }

  lemma TakenAll(active: set<Key>, collected: set<Key>, running: set<Key>, done: set<Key>, finished: set<Key>)
    requires active - {} == running - finished && collected + {} == done + finished
    ensures active == running - finished && collected == done + finished
  {
  }

  lemma CollectOne(st: Start, rows: map<Key, Row>, repos: map<Key, Repo>, active: set<Key>, done: set<Key>,
                   left: set<Key>, completed: nat, error: Option<RunError>, k: Key, rows': map<Key, Row>)
    requires Collecting(st, rows, repos, active, done, left, completed, error)
    requires ValidWorld(st.sh, st.w) && k in left && k in rows && k in st.w.results
    requires rows' == if st.w.results[k].Raised? then WithState(rows, k, Blocked) else rows
    ensures Collecting(st, rows', repos, active - {k}, done + {k}, left - {k}, completed + 1,
                       NextError(error, k, st.w.results[k]))
    ensures NewlyPromoted(st.rows, rows') == NewlyPromoted(st.rows, rows)
  {
    assert ValidFates(st.w, k);
    assert rows' == rows[k := rows[k].(state := rows'[k].state)];
    ActiveIsUnsettled(st, rows, repos, active, done, k);
    ConsistentAfterCollecting(st, rows, repos, rows', active, done, k);
  }

  ghost predicate AllCollectable(w: World, rows: map<Key, Row>, repos: map<Key, Repo>, finished: set<Key>) {
    forall k :: k in finished ==> k in rows && k in w.results && Collectable(w.results[k], rows[k].state, repos, k)
  }

  lemma FinishedIsCollectable(w: World, rows: map<Key, Row>, repos: map<Key, Repo>, rows': map<Key, Row>,
                              repos': map<Key, Repo>, active: set<Key>, finished: set<Key>)
    requires Worked(w, rows, repos, rows', repos', active, finished) && finished <= active <= rows.Keys
    ensures AllCollectable(w, rows', repos', finished)
  {
    forall k | k in finished
      ensures k in rows' && k in w.results && Collectable(w.results[k], rows'[k].state, repos', k)
    {
      assert WorkedAt(w, rows, repos, rows', repos', active, finished, k);
    }
  }

  /** A milestone that cannot be committed was not a good job. */
  lemma UncommittableIsBad(st: Start, rows: map<Key, Row>, repos: map<Key, Repo>, active: set<Key>, done: set<Key>,
                           k: Key)
    requires Consistent(st, rows, repos, active, done)
    requires k in rows && Promotable(st.sh, rows, k) && k !in active
    requires !(k in repos && Committable(repos[k], false))
    ensures !AllGood(st)
  {
    assert ConsistentAt(st, rows, repos, active, done, k);
    assert k in done ==> k in Unfinished(st.w, st.rows);
    assert !GoodJob(st, k);
  }

  /** With everything collected ready, a dead task was lost before the run began. */
  lemma DeadIsBad(st: Start, rows: map<Key, Row>, repos: map<Key, Repo>, active: set<Key>, done: set<Key>, k: Key)
    requires Consistent(st, rows, repos, active, done) && ValidWorld(st.sh, st.w)
    requires ErrorOk(st.w, done, None) && k in rows && Dead(rows[k].state) && k !in active
    ensures !AllGood(st)
  {
    assert ConsistentAt(st, rows, repos, active, done, k);
    assert ValidFates(st.w, k);
    assert !GoodJob(st, k);
  }

  lemma ErrorIsBad(st: Start, done: set<Key>, error: Option<RunError>)
    requires SameKeys(st.sh, st.w, st.rows, st.rows) && done <= Unfinished(st.w, st.rows)
    requires ErrorOk(st.w, done, error) && error.Some?
    ensures !AllGood(st)
  {
    assert !GoodJob(st, error.value.key);
  }

  /** Why "program cannot advance" is never reported. */
  lemma NeverStuck(st: Start, t: Tables, repos: map<Key, Repo>, done: set<Key>, limit: nat)
    requires ValidShape(st.sh) && Consistent(st, t.rows, repos, {}, done)
    requires Runnable(t.feature) && limit >= 1
    requires InFlightOnlyIn(t.rows, {}) && forall k :: k in t.rows ==> !Dead(t.rows[k].state)
    requires NothingPromotable(st.sh, t.rows, {}) && !TerminalDone(st.sh, t.rows, {})
    ensures ReadyJobs(st.sh, t, limit) != []
  {
    forall k | k in t.rows && t.rows[k].promoted
      ensures t.rows[k].verified.Some?
    {
      assert ConsistentAt(st, t.rows, repos, {}, done, k);
    }
    SomethingIsReady(st.sh, t, limit);
  }

  lemma PromotionsKept(st: Start, rows: map<Key, Row>, repos: map<Key, Repo>, active: set<Key>, done: set<Key>)
    requires Consistent(st, rows, repos, active, done)
    ensures KeepsPromotions(st.rows, rows)
    ensures forall k :: k in NewlyPromoted(st.rows, rows) ==> k != st.sh.terminal && RecordsHead(rows[k], repos, k)
  {
    forall k | k in st.rows
      ensures st.rows[k].promoted ==> rows[k].promoted && rows[k].verified == st.rows[k].verified
      ensures k in NewlyPromoted(st.rows, rows) ==> k != st.sh.terminal && RecordsHead(rows[k], repos, k)
    {
      assert ConsistentAt(st, rows, repos, active, done, k);
    }
  }

  /** Everything the loop of one run keeps between iterations. */
  ghost predicate LoopState(st: Start, workers: nat, rows: map<Key, Row>, repos: map<Key, Repo>, active: set<Key>,
                            done: set<Key>, completed: nat, promoted: nat, error: Option<RunError>)
  {
    && Consistent(st, rows, repos, active, done)
    && |active| <= workers && completed == |done| && promoted == |NewlyPromoted(st.rows, rows)|
    && ErrorOk(st.w, done, error)
  }

  lemma RecoveryKeepsLoop(st: Start, workers: nat, rows: map<Key, Row>, repos: map<Key, Repo>, rows': map<Key, Row>,
                          active: set<Key>, done: set<Key>, completed: nat, promoted: nat, error: Option<RunError>)
    requires LoopState(st, workers, rows, repos, active, done, completed, promoted, error)
    requires Recovered(st.w, rows, rows', active) && ValidWorld(st.sh, st.w)
    ensures LoopState(st, workers, rows', repos, active, done, completed, promoted, error)
  {
    ConsistentAfterRecovery(st, rows, repos, rows', active, done);
  }

  lemma WorkKeepsLoop(st: Start, workers: nat, rows: map<Key, Row>, repos: map<Key, Repo>, rows': map<Key, Row>,
                      repos': map<Key, Repo>, active: set<Key>, done: set<Key>, finished: set<Key>, completed: nat,
                      promoted: nat, error: Option<RunError>)
    requires LoopState(st, workers, rows, repos, active, done, completed, promoted, error)
    requires Worked(st.w, rows, repos, rows', repos', active, finished) && ValidWorld(st.sh, st.w) && finished <= active
    ensures Collecting(st, rows', repos', active, done, finished, completed, error)
    ensures NewlyPromoted(st.rows, rows') == NewlyPromoted(st.rows, rows)
  {
    ConsistentAfterWork(st, rows, repos, rows', repos', active, done, finished);
    FinishedIsCollectable(st.w, rows, repos, rows', repos', active, finished);
  }

  lemma CollectingKeepsLoop(st: Start, workers: nat, rows: map<Key, Row>, repos: map<Key, Repo>, running: set<Key>,
                            active: set<Key>, done: set<Key>, completed: nat, promoted: nat, error: Option<RunError>)
    requires Collecting(st, rows, repos, active, done, {}, completed, error)
    requires active <= running && |running| <= workers && promoted == |NewlyPromoted(st.rows, rows)|
    ensures LoopState(st, workers, rows, repos, active, done, completed, promoted, error)
  {
    CountSubset(active, running);
  }

  lemma DisjointCount(a: set<Key>, b: set<Key>)
    requires a !! b
    ensures |a + b| == |a| + |b|
  {
  }

  lemma PassAddsUp(st: Start, workers: nat, rows: map<Key, Row>, repos: map<Key, Repo>, rows': map<Key, Row>,
                   repos': map<Key, Repo>, active: set<Key>, done: set<Key>, scope: set<Key>, completed: nat,
                   promoted: nat, error: Option<RunError>)
    requires LoopState(st, workers, rows, repos, active, done, completed, promoted, error)
    requires PromotedIn(st.sh, rows, repos, rows', repos', scope) && scope !! active
    ensures LoopState(st, workers, rows', repos', active, done, completed,
                      promoted + |NewlyPromoted(rows, rows')|, error)
  {
    ConsistentAfterPromotion(st, rows, repos, rows', repos', active, done, scope);
    DisjointCount(NewlyPromoted(st.rows, rows), NewlyPromoted(rows, rows'));
  }

  ghost predicate TerminalDone(sh: Shape, rows: map<Key, Row>, active: set<Key>) {
    sh.terminal in rows && Passed(rows[sh.terminal].state) && sh.terminal !in active
  }

  /** How the loop can end. */
  ghost predicate Ended(st: Start, rows: map<Key, Row>, active: set<Key>, done: set<Key>, disturbed: bool, r: RunResult)
    requires SameKeys(st.sh, st.w, st.rows, rows)
  {
    match r
    case NotClaimed => false
    case Aborted(cause) => if cause.LeaseLost? then disturbed else cause.GitFailure? && !AllGood(st)
    case Finished(state, error, completed, promoted) =>
      && completed == |done| && promoted == |NewlyPromoted(st.rows, rows)|
      && match state
         case ReadyForReview => error.None? && TerminalDone(st.sh, rows, active) && rows[st.sh.terminal].state.Ready?
         case Delivered => error.None? && TerminalDone(st.sh, rows, active) && rows[st.sh.terminal].state.Accepted?
         case Halted => error.Some? && !error.value.CannotAdvance? && !AllGood(st)
         case Paused => disturbed && (error.Some? ==> error.value.JobError?)
         case Abandoned => disturbed && (error.Some? ==> error.value.JobError?)
         case _ => false
  }

  predicate Succeeded(r: RunResult) {
    r.Finished? && (r.state.ReadyForReview? || r.state.Delivered?)
  }

  lemma NobodyLeft(w: World, rows: map<Key, Row>, repos: map<Key, Repo>, rows': map<Key, Row>, repos': map<Key, Repo>,
                   finished: set<Key>)
    requires Worked(w, rows, repos, rows', repos', {}, finished)
    ensures rows' == rows
  {
    forall k | k in rows
      ensures rows'[k] == rows[k]
    {
      assert WorkedAt(w, rows, repos, rows', repos', {}, finished, k);
    }
  }

  lemma FewerLeft(w: World, rows0: map<Key, Row>, done: set<Key>, finished: set<Key>, active: set<Key>)
    requires rows0.Keys == w.recovery.Keys
    requires active !! done && active + done <= Unfinished(w, rows0) && finished <= active
    ensures finished == {} ==> done + finished == done
    ensures finished != {} ==> Unfinished(w, rows0) - (done + finished) < Unfinished(w, rows0) - done
  {
    if k :| k in finished {
      assert k in Unfinished(w, rows0) - done && k !in Unfinished(w, rows0) - (done + finished);
    }
  }

  ghost predicate InFlightOnlyIn(rows: map<Key, Row>, active: set<Key>) {
    forall k {:trigger InFlight(rows[k].state)} :: k in rows && InFlight(rows[k].state) ==> k in active
  }

  function DeadKeys(rows: map<Key, Row>): (keys: set<Key>) {
    set k | k in rows && Dead(rows[k].state)
  }

  function InFlightKeys(rows: map<Key, Row>): (keys: set<Key>) {
    set k | k in rows && InFlight(rows[k].state)
  }

  ghost predicate NothingPromotable(sh: Shape, rows: map<Key, Row>, active: set<Key>) {
    forall k {:trigger Promotable(sh, rows, k)} :: k in rows && k !in active ==> !Promotable(sh, rows, k)
  }

  lemma PromotionKeepsInFlight(sh: Shape, rows: map<Key, Row>, repos: map<Key, Repo>, rows': map<Key, Row>,
                               repos': map<Key, Repo>, scope: set<Key>, active: set<Key>)
    requires PromotedIn(sh, rows, repos, rows', repos', scope) && InFlightOnlyIn(rows, active)
    ensures InFlightOnlyIn(rows', active)
  {
    forall k | k in rows' && InFlight(rows'[k].state)
      ensures k in active
    {
      assert PromotedAt(sh, rows, repos, rows', repos', scope, k);
    }
  }

  lemma StartsInLoopState(st: Start, workers: nat)
    requires SameKeys(st.sh, st.w, st.rows, st.rows) && Restartable(st.sh, st.rows, st.repos)
    ensures LoopState(st, workers, st.rows, st.repos, {}, {}, 0, 0, None)
  {
    ConsistentAtStart(st);
    assert NewlyPromoted(st.rows, st.rows) == {};
  }

  lemma {:induction false} CountSubset(small: set<Key>, large: set<Key>)
    requires small <= large
    ensures |small| <= |large|
  {
    assert large == small + (large - small);
    DisjointCount(small, large - small);
  }

  function SetOf(keys: seq<Key>): (s: set<Key>) { set k | k in keys }

  lemma OneMoreInSet(keys: seq<Key>, i: nat)
    requires i < |keys|
    ensures SetOf(keys[..i + 1]) == SetOf(keys[..i]) + {keys[i]}
  {
    assert keys[..i + 1] == keys[..i] + [keys[i]];
  }

  lemma NothingInSet(keys: seq<Key>)
    ensures SetOf(keys) == {} <==> keys == []
  {
    if keys != [] {
      assert keys[0] in SetOf(keys);
    }
  }

  lemma DispatchKeepsLoop(st: Start, workers: nat, rows: map<Key, Row>, repos: map<Key, Repo>, active: set<Key>,
                          done: set<Key>, completed: nat, promoted: nat, error: Option<RunError>, wider: set<Key>,
                          ready: seq<Key>)
    requires LoopState(st, workers, rows, repos, active, done, completed, promoted, error)
    requires ValidWorld(st.sh, st.w) && |wider| <= workers && wider == active + SetOf(ready)
    requires forall k :: k in ready ==> Eligible(st.sh, rows, k)
    ensures LoopState(st, workers, rows, repos, wider, done, completed, promoted, error)
  {
    ConsistentAfterDispatch(st, rows, repos, active, done, wider - active);
    assert active + (wider - active) == wider;
  }

  /** Why "program cannot advance" is never reported: if nothing is ready, something is dead or in flight. */
  lemma NotStuck(st: Start, workers: nat, t: Tables, repos: map<Key, Repo>, running: set<Key>, done: set<Key>,
                 completed: nat, promoted: nat, error: Option<RunError>)
    requires ValidShape(st.sh) && workers >= 1 && Runnable(t.feature)
    requires LoopState(st, workers, t.rows, repos, running, done, completed, promoted, error)
    requires NothingPromotable(st.sh, t.rows, running) && !TerminalDone(st.sh, t.rows, running)
    requires running == {} && SetOf(ReadyJobs(st.sh, t, workers)) == {}
    ensures DeadKeys(t.rows) != {} || InFlightKeys(t.rows) != {}
  {
    if DeadKeys(t.rows) == {} && InFlightKeys(t.rows) == {} {
      forall k | k in t.rows
        ensures !Dead(t.rows[k].state) && !InFlight(t.rows[k].state)
      {
        assert k !in DeadKeys(t.rows) && k !in InFlightKeys(t.rows);
      }
      NothingInSet(ReadyJobs(st.sh, t, workers));
      NeverStuck(st, t, repos, done, workers);
      assert false;
    }
  }

  /** The run lease is ours, unless others were allowed to intervene and did. */
  predicate Held(feature: FeatureState, holder: Option<Owner>, owner: Owner, disturbed: bool) {
    (holder == Some(owner) && feature.Executing?) || (disturbed && Interrupted(feature, holder, owner))
  }

  lemma EndsOnError(st: Start, workers: nat, rows: map<Key, Row>, repos: map<Key, Repo>, done: set<Key>, completed: nat,
                    promoted: nat, error: Option<RunError>, disturbed: bool)
    requires LoopState(st, workers, rows, repos, {}, done, completed, promoted, error) && error.Some?
    ensures Ended(st, rows, {}, done, disturbed, Finished(Halted, error, completed, promoted))
  {
    ErrorIsBad(st, done, error);
  }

  lemma EndsOnDead(st: Start, workers: nat, rows: map<Key, Row>, repos: map<Key, Repo>, done: set<Key>, completed: nat,
                   promoted: nat, dead: set<Key>, disturbed: bool)
    requires LoopState(st, workers, rows, repos, {}, done, completed, promoted, None) && ValidWorld(st.sh, st.w)
    requires dead == DeadKeys(rows) && dead != {}
    ensures Ended(st, rows, {}, done, disturbed, Finished(Halted, Some(DeadTasks), completed, promoted))
  {
    var k :| k in dead;
    DeadIsBad(st, rows, repos, {}, done, k);
  }

  lemma EndsAtTerminal(st: Start, workers: nat, rows: map<Key, Row>, repos: map<Key, Repo>, active: set<Key>,
                       done: set<Key>, completed: nat, promoted: nat, error: Option<RunError>, disturbed: bool)
    requires LoopState(st, workers, rows, repos, active, done, completed, promoted, error)
    requires ValidShape(st.sh) && ValidWorld(st.sh, st.w) && TerminalDone(st.sh, rows, active)
    ensures rows[st.sh.terminal].state.Ready? ==>
              Ended(st, rows, active, done, disturbed, Finished(ReadyForReview, error, completed, promoted))
    ensures rows[st.sh.terminal].state.Accepted? ==>
              Ended(st, rows, active, done, disturbed, Finished(Delivered, error, completed, promoted))
  {
    TerminalReadyMeansAll(st, rows, repos, active, done);
    if error.Some? {
      ErrorIsBad(st, done, error);
    }
  }

  /** The end of one promotion pass: either it stopped at a task with nothing to commit, or it adds up. */
  lemma EndsAtPromotion(st: Start, rows: map<Key, Row>, repos: map<Key, Repo>, rows': map<Key, Row>,
                        repos': map<Key, Repo>, active: set<Key>, done: set<Key>, scope: set<Key>, k: Key,
                        disturbed: bool)
    requires Consistent(st, rows, repos, active, done)
    requires PromotedIn(st.sh, rows, repos, rows', repos', scope)
    requires k in rows && Promotable(st.sh, rows, k) && k !in active
    requires !(k in repos && Committable(repos[k], false))
    ensures Ended(st, rows', active, done, disturbed, Aborted(GitFailure(k)))
  {
    UncommittableIsBad(st, rows, repos, active, done, k);
  }

  /** The feature state `run` releases: its result, or BLOCKED when an exception was raised. */
  function FinalState(r: RunResult): (state: FeatureState) {
    if r.Finished? then r.state else Halted
  }

  ghost predicate AllDone(sh: Shape, rows: map<Key, Row>) {
    forall k {:trigger rows[k]} :: k in rows ==> Passed(rows[k].state) && (k != sh.terminal ==> Settled(rows[k]))
  }

  /** Recorded promotions stay, and only milestones are promoted. */
  ghost predicate Recorded(sh: Shape, before: map<Key, Row>, after: map<Key, Row>) {
    KeepsPromotions(before, after) && sh.terminal !in NewlyPromoted(before, after)
  }

  /** What the result of `run` says about the jobs of the program. */
  ghost predicate RunOutcome(st: Start, disturbed: bool, r: RunResult)
    requires st.rows.Keys == st.w.recovery.Keys == st.w.results.Keys && st.sh.terminal in st.rows
  {
    && (r.Finished? ==> r.error != Some(CannotAdvance))
    && (r.Aborted? ==> r.cause.GitFailure? || (disturbed && r.cause.LeaseLost?))
    && (Succeeded(r) ==>
          && AllGood(st) && r.error.None?
          && (r.state.Delivered? <==> st.rows[st.sh.terminal].state.Accepted?)
          && r.completed == |Unfinished(st.w, st.rows)| && r.promoted == |Unpromoted(st.sh, st.rows)|)
    && (!disturbed && !r.NotClaimed? ==>
          && (Succeeded(r) <==> AllGood(st))
          && (Succeeded(r) || FinalState(r).Halted?))
  }

  lemma OutcomeFromEnd(st: Start, rows: map<Key, Row>, repos: map<Key, Repo>, active: set<Key>, done: set<Key>,
                       disturbed: bool, r: RunResult)
    requires ValidShape(st.sh) && ValidWorld(st.sh, st.w)
    requires Consistent(st, rows, repos, active, done)
    requires Ended(st, rows, active, done, disturbed, r)
    ensures RunOutcome(st, disturbed, r)
    ensures Succeeded(r) ==> active == {} && AllDone(st.sh, rows)
  {
    if Succeeded(r) {
      TerminalReadyMeansAll(st, rows, repos, active, done);
      TerminalKeepsAcceptance(st, rows, repos, active, done);
    }
  }

  /** The supervisor never accepts the terminal task itself. */
  lemma TerminalKeepsAcceptance(st: Start, rows: map<Key, Row>, repos: map<Key, Repo>, active: set<Key>, done: set<Key>)
    requires Consistent(st, rows, repos, active, done) && ValidWorld(st.sh, st.w)
    requires TerminalDone(st.sh, rows, active)
    ensures rows[st.sh.terminal].state.Accepted? <==> st.rows[st.sh.terminal].state.Accepted?
  {
    assert ConsistentAt(st, rows, repos, active, done, st.sh.terminal);
    assert ValidFates(st.w, st.sh.terminal);
    assert st.sh.terminal in done ==> st.sh.terminal in Unfinished(st.w, st.rows);
  }

  /** From a fresh program of n tasks: n jobs to complete and n - 1 to promote. */
  lemma FreshProgramCounts(st: Start)
    requires ValidShape(st.sh) && ValidWorld(st.sh, st.w) && st.rows.Keys == st.sh.deps.Keys
    requires forall k :: k in st.rows ==> st.rows[k] == Row(Queued, false, None, None)
    ensures Restartable(st.sh, st.rows, st.repos)
    ensures |Unfinished(st.w, st.rows)| == |st.sh.order| && |Unpromoted(st.sh, st.rows)| == |st.sh.order| - 1
    ensures AllGood(st) <==>
              forall k :: k in st.sh.order ==> EndsReady(st.w.results[k]) && (k == st.sh.terminal || st.w.results[k].changed)
  {
    FreshSets(st.sh, st.w, st.rows);
    CountDistinct(st.sh.order);
    forall k | k in st.rows
      ensures GoodJob(st, k) <==> EndsReady(st.w.results[k]) && (k == st.sh.terminal || st.w.results[k].changed)
    {
    }
  }

  /**
   From an all-queued program of n tasks an undisturbed run ends ready for review with n jobs
   completed and n - 1 promoted exactly when every job run ends ready with changes to commit.
   */
  lemma FreshRunCompletes(st: Start, r: RunResult)
    requires ValidShape(st.sh) && ValidWorld(st.sh, st.w) && st.rows.Keys == st.sh.deps.Keys
    requires forall k :: k in st.rows ==> st.rows[k] == Row(Queued, false, None, None)
    requires RunOutcome(st, false, r) && !r.NotClaimed?
    ensures r == Finished(ReadyForReview, None, |st.sh.order|, |st.sh.order| - 1) <==>
              forall k :: k in st.sh.order ==> EndsReady(st.w.results[k]) && (k == st.sh.terminal || st.w.results[k].changed)
  {
    FreshProgramCounts(st);
  }

  lemma FreshSets(sh: Shape, w: World, rows: map<Key, Row>)
    requires sh.deps.Keys == (set k | k in sh.order) && sh.terminal in sh.deps
    requires rows.Keys == sh.deps.Keys == w.recovery.Keys
    requires forall k :: k in rows ==> rows[k] == Row(Queued, false, None, None)
    ensures Unfinished(w, rows) == (set k | k in sh.order)
    ensures Unpromoted(sh, rows) == (set k | k in sh.order) - {sh.terminal}
  {
  }

  lemma {:induction false} CountDistinct(s: seq<Key>)
    requires Distinct(s)
    ensures |set k | k in s| == |s|
  {
    if s != [] {
      var front := s[..|s| - 1];
      CountDistinct(front);
      assert (set k | k in s) == (set k | k in front) + {s[|s| - 1]};
    }
  }
}
