/** What one run did, in order: the jobs it handed to the pool and the jobs it collected. */
module RunLog {
  import opened Wrappers
  import opened Graph
  import opened Program
  import opened GitOps
  import opened RunInvariant

  /** Every iteration dispatches once, possibly nothing. */
  datatype RunEvent = Began(keys: set<Key>) | Collected(key: Key)

  function Begun(log: seq<RunEvent>): (keys: set<Key>) {
    if log == [] then {}
    else Begun(log[..|log| - 1]) + if log[|log| - 1].Began? then log[|log| - 1].keys else {}
  }

  function Gathered(log: seq<RunEvent>): (keys: seq<Key>) {
    if log == [] then []
    else Gathered(log[..|log| - 1]) + if log[|log| - 1].Collected? then [log[|log| - 1].key] else []
  }

  predicate Failing(w: World, k: Key) { k in w.results && !EndsReady(w.results[k]) }

  predicate Raising(w: World, k: Key) { k in w.results && w.results[k].Raised? }

  /** Once a job was collected that did not end ready, nothing more is handed to the pool. */
  ghost predicate StopsAtFailure(w: World, log: seq<RunEvent>) {
    forall i, j {:trigger log[i], log[j]} ::
      0 <= i < j < |log| && log[i].Collected? && Failing(w, log[i].key) && log[j].Began? ==> log[j].keys == {}
  }

  /** The last job that raised, or else the first that did not end ready. */
  ghost predicate ReportedAt(w: World, gathered: seq<Key>, i: nat)
    requires i < |gathered|
  {
    && Failing(w, gathered[i])
    && if Raising(w, gathered[i]) then forall j :: i < j < |gathered| ==> !Raising(w, gathered[j])
       else
         && (forall j :: 0 <= j < |gathered| ==> !Raising(w, gathered[j]))
         && (forall j :: 0 <= j < i ==> !Failing(w, gathered[j]))
  }

  ghost predicate Reported(w: World, gathered: seq<Key>, error: Option<RunError>) {
    match error
    case None => forall i :: 0 <= i < |gathered| ==> !Failing(w, gathered[i])
    case Some(JobError(k)) => exists i :: 0 <= i < |gathered| && gathered[i] == k && ReportedAt(w, gathered, i)
    case _ => false
  }

  ghost predicate GathersOnly(log: seq<RunEvent>, done: set<Key>) {
    forall k :: k in Gathered(log) <==> k in done
  }

  ghost predicate LogOk(w: World, log: seq<RunEvent>, active: set<Key>, done: set<Key>, error: Option<RunError>) {
    && Begun(log) == active + done && GathersOnly(log, done)
    && StopsAtFailure(w, log) && Reported(w, Gathered(log), error)
  }

  lemma {:induction false} CollectedIsGathered(log: seq<RunEvent>, i: nat)
    requires i < |log| && log[i].Collected?
    ensures log[i].key in Gathered(log)
  {
    if i < |log| - 1 {
      CollectedIsGathered(log[..|log| - 1], i);
    }
  }

  lemma LogGrows(log: seq<RunEvent>, e: RunEvent)
    ensures Begun(log + [e]) == Begun(log) + if e.Began? then e.keys else {}
    ensures Gathered(log + [e]) == Gathered(log) + if e.Collected? then [e.key] else []
  {
    assert (log + [e])[..|log|] == log;
  }

  lemma StopsOneMore(w: World, log: seq<RunEvent>, e: RunEvent)
    requires StopsAtFailure(w, log)
    requires e.Began? && e.keys != {} ==> forall k :: k in Gathered(log) ==> !Failing(w, k)
    ensures StopsAtFailure(w, log + [e])
  {
    var longer := log + [e];
    forall i, j | 0 <= i < j < |longer| && longer[i].Collected? && Failing(w, longer[i].key) && longer[j].Began?
      ensures longer[j].keys == {}
    {
      assert longer[i] == log[i];
      CollectedIsGathered(log, i);
      if j < |log| {
        assert longer[j] == log[j];
      }
    }
  }

  lemma NoneFailing(w: World, gathered: seq<Key>, error: Option<RunError>)
    requires Reported(w, gathered, error) && error.None?
    ensures forall k :: k in gathered ==> !Failing(w, k)
  {
  }

  lemma LogBegan(w: World, log: seq<RunEvent>, active: set<Key>, done: set<Key>, error: Option<RunError>,
                 wider: set<Key>)
    requires LogOk(w, log, active, done, error) && active <= wider && (error.Some? ==> wider == active)
    ensures LogOk(w, log + [Began(wider - active)], wider, done, error)
  {
    LogGrows(log, Began(wider - active));
    assert Gathered(log) + [] == Gathered(log) && active + done + (wider - active) == wider + done;
    if wider != active {
      NoneFailing(w, Gathered(log), error);
    }
    StopsOneMore(w, log, Began(wider - active));
  }

  lemma ReportedMore(w: World, gathered: seq<Key>, error: Option<RunError>, k: Key)
    requires Reported(w, gathered, error) && k in w.results
             && (w.results[k].Raised? || EndsReady(w.results[k]) || Dead(w.results[k].state))
    ensures Reported(w, gathered + [k], NextError(error, k, w.results[k]))
  {
    var longer, error' := gathered + [k], NextError(error, k, w.results[k]);
    assert longer[|gathered|] == k;
    if error' == Some(JobError(k)) && error' != error {
      assert ReportedAt(w, longer, |gathered|);
    } else if w.results[k].Raised? {
      assert ReportedAt(w, longer, |gathered|);
    } else if error.Some? {
      var i :| 0 <= i < |gathered| && gathered[i] == error.value.key && ReportedAt(w, gathered, i);
      assert longer[i] == gathered[i] && ReportedAt(w, longer, i);
    }
  }

  lemma LogCollected(w: World, log: seq<RunEvent>, active: set<Key>, done: set<Key>, error: Option<RunError>, k: Key)
    requires LogOk(w, log, active, done, error) && k in active && k in w.results
    requires w.results[k].Raised? || EndsReady(w.results[k]) || Dead(w.results[k].state)
    ensures LogOk(w, log + [Collected(k)], active - {k}, done + {k}, NextError(error, k, w.results[k]))
  {
    LogGrows(log, Collected(k));
    StopsOneMore(w, log, Collected(k));
    ReportedMore(w, Gathered(log), error, k);
    assert active - {k} + (done + {k}) == active + done;
  }

  /** Jobs that were never handed to the pool are as the run found them, up to recovery and promotion. */
  ghost predicate OthersUntouched(st: Start, rows: map<Key, Row>, repos: map<Key, Repo>, begun: set<Key>)
    requires SameKeys(st.sh, st.w, st.rows, rows)
  {
    forall k {:trigger rows[k]} :: k in rows && k !in begun ==> UntouchedSince(st.w, st.rows[k], st.repos, rows[k], repos, k)
  }

  lemma ConsistentMeansUntouched(st: Start, rows: map<Key, Row>, repos: map<Key, Repo>, active: set<Key>,
                                 done: set<Key>)
    requires Consistent(st, rows, repos, active, done)
    ensures OthersUntouched(st, rows, repos, active + done)
  {
    forall k | k in rows && k !in active + done
      ensures UntouchedSince(st.w, st.rows[k], st.repos, rows[k], repos, k)
    {
      assert ConsistentAt(st, rows, repos, active, done, k);
    }
  }

  /** How the run may end before it dispatches: interrupted, uncommittable, or with a finished terminal task. */
  ghost predicate StopsHere(st: Start, rows: map<Key, Row>, feature: FeatureState, active: set<Key>, done: set<Key>,
                            completed: nat, error: Option<RunError>, disturbed: bool, r: RunResult)
    requires SameKeys(st.sh, st.w, st.rows, rows)
  {
    && Ended(st, rows, active, done, disturbed, r)
    && (r.Finished? ==>
          && !r.state.Halted? && (Succeeded(r) || feature == r.state)
          && r.error == error && r.completed == completed)
  }

  /**
   What the log says about the result: nothing was started after the first failure that was
   collected; a result that carries an error names the job that caused it; and a run that halts on
   an error has collected everything it started.
   */
  ghost predicate LogExplains(w: World, log: seq<RunEvent>, r: RunResult) {
    && StopsAtFailure(w, log) && (forall k :: k in Gathered(log) ==> k in Begun(log))
    && (r.Finished? && r.error != Some(DeadTasks) ==> Reported(w, Gathered(log), r.error))
    && (r.Finished? && r.error == Some(DeadTasks) ==> forall k :: k in Begun(log) ==> !Failing(w, k))
    && (r.Finished? ==> r.completed == |set k | k in Gathered(log)|)
    && (r.Finished? && r.state.Halted? ==> forall k :: k in Begun(log) ==> k in Gathered(log))
  }

  lemma LogExplainsEnd(w: World, log: seq<RunEvent>, active: set<Key>, done: set<Key>, error: Option<RunError>,
                       r: RunResult)
    requires LogOk(w, log, active, done, error)
    requires r.Finished? ==> r.completed == |done| && (r.state.Halted? ==> active == {})
    requires r.Finished? ==> r.error == error || (r.error == Some(DeadTasks) && error.None? && active == {})
    ensures LogExplains(w, log, r) && Begun(log) == active + done
  {
    assert (set k | k in Gathered(log)) == done;
    if error.None? && active == {} {
      forall k | k in Begun(log)
        ensures !Failing(w, k)
      {
        var i :| 0 <= i < |Gathered(log)| && Gathered(log)[i] == k;
      }
    }
  }
}
