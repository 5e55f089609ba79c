/** Job leases on a real clock: the table, the heartbeat that renews, and who may be inside `run_job`. */
module Leases {
  type Job = string
  type Holder = string

  datatype Lease = Lease(owner: Holder, expires: real)

  type Table = map<Job, Lease>

  function Acquire(t: Table, job: Job, owner: Holder, ttl: real, now: real): (r: (bool, Table)) {
    if job in t && t[job].expires > now && t[job].owner != owner then (false, t)
    else (true, t[job := Lease(owner, now + ttl)])
  }

  /** Renewing only asks whose lease it is, not whether it has lapsed. */
  function Renew(t: Table, job: Job, owner: Holder, ttl: real, now: real): (r: (bool, Table)) {
    if job in t && t[job].owner == owner then (true, t[job := Lease(owner, now + ttl)]) else (false, t)
  }

  function Release(t: Table, job: Job, owner: Holder): (t': Table) {
    if job in t && t[job].owner == owner then t - {job} else t
  }

  /** Recovery deletes lapsed leases. */
  function Purge(t: Table, now: real): (t': Table) {
    map job | job in t && !(t[job].expires < now) :: t[job]
  }

  /** The connection to the lease table; each method is one transaction. */
  class LeaseStore {
    var leases: Table

    constructor ()
      ensures leases == map[]
    {
      leases := map[];
    }

    method AcquireLease(job: Job, owner: Holder, ttl: real, now: real) returns (ok: bool)
      modifies this
      ensures (ok, leases) == Acquire(old(leases), job, owner, ttl, now)
      ensures !ok <==> job in old(leases) && old(leases)[job].expires > now && old(leases)[job].owner != owner
      ensures leases == if ok then old(leases)[job := Lease(owner, now + ttl)] else old(leases)
    {
      if job in leases && leases[job].expires > now && leases[job].owner != owner {
        return false;
      }
      leases := leases[job := Lease(owner, now + ttl)];
      return true;
    }

    method RenewLease(job: Job, owner: Holder, ttl: real, now: real) returns (ok: bool)
      modifies this
      ensures (ok, leases) == Renew(old(leases), job, owner, ttl, now)
      ensures ok <==> job in old(leases) && old(leases)[job].owner == owner
      ensures leases == if ok then old(leases)[job := Lease(owner, now + ttl)] else old(leases)
    {
      ok := job in leases && leases[job].owner == owner;
      if ok {
        leases := leases[job := Lease(owner, now + ttl)];
      }
    }

    method ReleaseLease(job: Job, owner: Holder)
      modifies this
      ensures leases == Release(old(leases), job, owner)
      ensures job in leases <==> job in old(leases) && old(leases)[job].owner != owner
      ensures forall j :: j != job ==> (j in leases <==> j in old(leases))
      ensures forall j :: j in leases ==> j in old(leases) && leases[j] == old(leases)[j]
    {
      if job in leases && leases[job].owner == owner {
        leases := leases - {job};
      }
    }

    method PurgeLapsed(now: real)
      modifies this
      ensures leases == Purge(old(leases), now)
      ensures forall job :: job in leases <==> job in old(leases) && old(leases)[job].expires >= now
      ensures forall job :: job in leases ==> leases[job] == old(leases)[job]
    {
      var left := leases.Keys;
      ghost var before := leases;
      while left != {}
        invariant left <= before.Keys
        invariant leases == map job | job in before && (job in left || !(before[job].expires < now)) :: before[job]
        decreases left
      {
        var job :| job in left;
        if leases[job].expires < now {
          leases := leases - {job};
        }
        left := left - {job};
      }
    }
  }

  /** A controller inside `run_job`. */
  datatype Run = Run(owner: Holder, job: Job)

  /** `last` is when the lease was last extended; a heartbeat that could not renew has stopped. */
  datatype Heartbeat = Beating(last: real) | Silent

  datatype Sys = Sys(now: real, leases: Table, runs: map<Run, Heartbeat>)

  datatype Action = Wait(dt: real) | Enter(run: Run) | Beat(run: Run) | Exit(run: Run) | Crash(run: Run) | Recover

  /** `max(5.0, ttl / 3)`. */
  function Interval(ttl: real): (i: real) {
    if ttl / 3.0 > 5.0 then ttl / 3.0 else 5.0
  }

  /** Every live heartbeat renews at most `delay` after its interval is over, so time waits for it. */
  predicate MayWait(ttl: real, delay: real, s: Sys, dt: real) {
    dt >= 0.0 && forall r :: r in s.runs && s.runs[r].Beating? ==> s.now + dt <= s.runs[r].last + Interval(ttl) + delay
  }

  function Step(ttl: real, delay: real, s: Sys, a: Action): (s': Sys) {
    match a
    case Wait(dt) => if MayWait(ttl, delay, s, dt) then s.(now := s.now + dt) else s
    case Enter(r) =>
      var got := Acquire(s.leases, r.job, r.owner, ttl, s.now);
      if r !in s.runs && got.0 then s.(leases := got.1, runs := s.runs[r := Beating(s.now)]) else s
    case Beat(r) =>
      if r in s.runs && s.runs[r].Beating? then
        var kept := Renew(s.leases, r.job, r.owner, ttl, s.now);
        s.(leases := kept.1, runs := s.runs[r := if kept.0 then Beating(s.now) else Silent])
      else s
    case Exit(r) =>
      if r in s.runs then s.(leases := Release(s.leases, r.job, r.owner), runs := s.runs - {r}) else s
    case Crash(r) => s.(runs := s.runs - {r})
    case Recover => s.(leases := Purge(s.leases, s.now))
  }

  function Exec(ttl: real, delay: real, s: Sys, trace: seq<Action>): (s': Sys) {
    if trace == [] then s else Step(ttl, delay, Exec(ttl, delay, s, trace[..|trace| - 1]), trace[|trace| - 1])
  }

  /** Each run holds its job's unexpired lease, so no job is run twice. */
  ghost predicate Exclusive(s: Sys) {
    forall r :: r in s.runs ==> HoldsLease(s, r)
  }

  predicate HoldsLease(s: Sys, r: Run) {
    r.job in s.leases && s.leases[r.job].owner == r.owner && s.leases[r.job].expires > s.now
  }

  ghost predicate Kept(ttl: real, delay: real, s: Sys) {
    forall r :: r in s.runs ==> KeptAt(ttl, delay, s, r)
  }

  predicate KeptAt(ttl: real, delay: real, s: Sys, r: Run)
    requires r in s.runs
  {
    && s.runs[r].Beating? && r.job in s.leases
    && s.leases[r.job] == Lease(r.owner, s.runs[r].last + ttl)
    && s.now <= s.runs[r].last + Interval(ttl) + delay
  }

  lemma OneRunPerJob(s: Sys, r1: Run, r2: Run)
    requires Exclusive(s) && r1 in s.runs && r2 in s.runs && r1.job == r2.job
    ensures r1 == r2
  {
    assert HoldsLease(s, r1) && HoldsLease(s, r2);
  }

  lemma StepKeeps(ttl: real, delay: real, s: Sys, a: Action)
    requires delay >= 0.0 && Interval(ttl) + delay < ttl && Kept(ttl, delay, s)
    ensures Kept(ttl, delay, Step(ttl, delay, s, a))
  {
    var s' := Step(ttl, delay, s, a);
    forall r | r in s'.runs
      ensures KeptAt(ttl, delay, s', r)
    {
      if r in s.runs {
        assert KeptAt(ttl, delay, s, r);
      }
      if !a.Wait? && !a.Recover? && a.run in s.runs {
        assert KeptAt(ttl, delay, s, a.run);
      }
    }
  }

  lemma {:induction false} ExecKeeps(ttl: real, delay: real, trace: seq<Action>, start: real)
    requires delay >= 0.0 && Interval(ttl) + delay < ttl
    ensures Kept(ttl, delay, Exec(ttl, delay, Sys(start, map[], map[]), trace))
  {
    if trace != [] {
      ExecKeeps(ttl, delay, trace[..|trace| - 1], start);
      StepKeeps(ttl, delay, Exec(ttl, delay, Sys(start, map[], map[]), trace[..|trace| - 1]), trace[|trace| - 1]);
    }
  }

  lemma KeptIsExclusive(ttl: real, delay: real, s: Sys)
    requires Interval(ttl) + delay < ttl && Kept(ttl, delay, s)
    ensures Exclusive(s)
  {
    forall r | r in s.runs
      ensures HoldsLease(s, r)
    {
      assert KeptAt(ttl, delay, s, r);
    }
  }

  ghost predicate AlwaysExclusive(ttl: real, delay: real, start: real) {
    forall trace :: Exclusive(Exec(ttl, delay, Sys(start, map[], map[]), trace))
  }

  /** With a late enough heartbeat the lease lapses under a live run. */
  lemma LapsesUnderARun(ttl: real, delay: real, start: real, r: Run)
    requires delay >= 0.0 && ttl > 0.0 && Interval(ttl) + delay >= ttl
    ensures !Exclusive(Exec(ttl, delay, Sys(start, map[], map[]), [Enter(r)] + [Wait(ttl)]))
  {
    var s0 := Sys(start, map[], map[]);
    var s1 := Step(ttl, delay, s0, Enter(r));
    assert s1 == Sys(start, map[r.job := Lease(r.owner, start + ttl)], map[r := Beating(start)]);
    ExecMore(ttl, delay, s0, [], Enter(r));
    assert [] + [Enter(r)] == [Enter(r)];
    ExecMore(ttl, delay, s0, [Enter(r)], Wait(ttl));
    assert !HoldsLease(Step(ttl, delay, s1, Wait(ttl)), r);
  }

  lemma ExecMore(ttl: real, delay: real, s: Sys, trace: seq<Action>, a: Action)
    ensures Exec(ttl, delay, s, trace + [a]) == Step(ttl, delay, Exec(ttl, delay, s, trace), a)
  {
    assert (trace + [a])[..|trace|] == trace;
  }

  /**
   Timed exclusion: every run of the system keeps at most one controller inside a job, under an
   unexpired lease, exactly when the renewal interval plus its delay is shorter than the lease.
   */
  lemma ExclusionIff(ttl: real, delay: real, start: real)
    requires delay >= 0.0 && ttl > 0.0
    ensures AlwaysExclusive(ttl, delay, start) <==> Interval(ttl) + delay < ttl
  {
    if Interval(ttl) + delay < ttl {
      forall trace
        ensures Exclusive(Exec(ttl, delay, Sys(start, map[], map[]), trace))
      {
        ExecKeeps(ttl, delay, trace, start);
        KeptIsExclusive(ttl, delay, Exec(ttl, delay, Sys(start, map[], map[]), trace));
      }
    } else {
      LapsesUnderARun(ttl, delay, start, Run("", ""));
    }
  }

  /** In the other case a second controller is let into the same job while the first still runs. */
  lemma SecondControllerEnters(ttl: real, delay: real, start: real, r1: Run, r2: Run)
    requires delay >= 0.0 && ttl > 0.0 && Interval(ttl) + delay >= ttl && r1.job == r2.job && r1 != r2
    ensures var s := Exec(ttl, delay, Sys(start, map[], map[]), [Enter(r1)] + [Wait(ttl)] + [Enter(r2)]);
            r1 in s.runs && r2 in s.runs
  {
    var s0 := Sys(start, map[], map[]);
    ExecMore(ttl, delay, s0, [], Enter(r1));
    assert [] + [Enter(r1)] == [Enter(r1)];
    var s1 := Step(ttl, delay, s0, Enter(r1));
    assert s1 == Sys(start, map[r1.job := Lease(r1.owner, start + ttl)], map[r1 := Beating(start)]);
    ExecMore(ttl, delay, s0, [Enter(r1)], Wait(ttl));
    var s2 := Step(ttl, delay, s1, Wait(ttl));
    assert s2 == s1.(now := start + ttl);
    ExecMore(ttl, delay, s0, [Enter(r1)] + [Wait(ttl)], Enter(r2));
  }

  /** While a run holds its lease, no rival gets in, renewal succeeds, and recovery leaves it alone. */
  lemma HolderIsUndisturbed(ttl: real, s: Sys, r: Run, rival: Holder)
    requires Exclusive(s) && r in s.runs && rival != r.owner
    ensures Acquire(s.leases, r.job, rival, ttl, s.now) == (false, s.leases)
    ensures Renew(s.leases, r.job, r.owner, ttl, s.now).0
    ensures r.job in Purge(s.leases, s.now) && Purge(s.leases, s.now)[r.job] == s.leases[r.job]
  {
    assert HoldsLease(s, r);
  }

  /**
   A lease that was granted keeps rivals out exactly until it lapses; its holder may always take it
   again, and once it is released any rival gets it at once.
   */
  lemma LeaseLastsUntilLapse(t: Table, job: Job, owner: Holder, ttl: real, now: real, rival: Holder, later: real,
                             next: real)
    requires Acquire(t, job, owner, ttl, now).0 && rival != owner
    ensures var held := Acquire(t, job, owner, ttl, now).1;
            && (Acquire(held, job, rival, next, later).0 <==> later >= now + ttl)
            && Acquire(held, job, owner, next, later).0 && Renew(held, job, owner, next, later).0
               && !Renew(held, job, rival, next, later).0
            && Acquire(Release(held, job, owner), job, rival, next, later).0
            && Release(held, job, rival) == held
  {
  }

  /** A controller that leaves gives its job free, and takes no other lease with it. */
  lemma ExitFreesJob(ttl: real, delay: real, s: Sys, r: Run, rival: Run)
    requires Exclusive(s) && r in s.runs && rival !in s.runs && rival.job == r.job
    ensures var s' := Step(ttl, delay, s, Exit(r));
            && r !in s'.runs && r.job !in s'.leases && Exclusive(s') && rival in Step(ttl, delay, s', Enter(rival)).runs
  {
    var s' := Step(ttl, delay, s, Exit(r));
    assert HoldsLease(s, r);
    forall x | x in s'.runs
      ensures HoldsLease(s', x)
    {
      assert HoldsLease(s, x);
      if x.job == r.job {
        OneRunPerJob(s, x, r);
      }
    }
  }

  /** Without any delay the condition is about the configured lease alone: it must exceed five seconds. */
  lemma PunctualHeartbeat(ttl: real, start: real)
    requires ttl > 0.0
    ensures AlwaysExclusive(ttl, 0.0, start) <==> ttl > 5.0
  {
    ExclusionIff(ttl, 0.0, start);
  }
}
