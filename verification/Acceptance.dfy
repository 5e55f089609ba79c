/**
 How long an acceptance lasts. `accept` writes ACCEPTED whatever the state is by then, and so do
 the other writers of the job: who else is at work decides whether the acceptance stays.
 */
module Acceptance {
  import opened Wrappers
  import opened Graph
  import opened Program
  import opened GitOps
  import opened Chaining
  import opened ProgramMachine

  /** No controller is inside the job, no supervisor has it dispatched, nobody is rejecting or cancelling it. */
  predicate Quiet(s: Prog, k: Key) {
    k !in s.live && !ActiveIn(s, k) && Rejecting(k) !in s.humans && Cancelling(k) !in s.humans
  }

  predicate Unopposed(s: Prog, k: Key) {
    k in s.t.rows && s.t.rows[k].state.Accepted? && Quiet(s, k)
  }

  lemma StaysAccepted(sh: Shape, workers: nat, s: Prog, a: Action, k: Key)
    requires Ordered(sh) && Unopposed(s, k) && k in Step(sh, workers, s, a).t.rows
    ensures Step(sh, workers, s, a).t.rows[k].state.Accepted?
  {
  }

  lemma StaysUnentered(sh: Shape, workers: nat, s: Prog, a: Action, k: Key)
    requires Ordered(sh) && Unopposed(s, k)
    ensures k !in Step(sh, workers, s, a).live
    ensures Rejecting(k) !in Step(sh, workers, s, a).humans && Cancelling(k) !in Step(sh, workers, s, a).humans
  {
  }

  lemma UnopposedStays(sh: Shape, workers: nat, s: Prog, a: Action, k: Key)
    requires Ordered(sh) && Unopposed(s, k)
    ensures Unopposed(Step(sh, workers, s, a), k)
  {
    var s' := Step(sh, workers, s, a);
    StepKeepsKeys(sh, workers, s, a);
    StaysAccepted(sh, workers, s, a, k);
    StaysUnentered(sh, workers, s, a, k);
    if ActiveIn(s', k) {
      var o :| o in s'.sups && k in s'.sups[o].active;
      StepActivates(sh, workers, s, a, o, k);
    }
  }

  lemma {:induction false} UnopposedLasts(sh: Shape, workers: nat, s: Prog, trace: seq<Action>, k: Key)
    requires Ordered(sh) && Unopposed(s, k)
    ensures Unopposed(Exec(sh, workers, s, trace), k)
  {
    if trace != [] {
      UnopposedLasts(sh, workers, s, trace[..|trace| - 1], k);
      UnopposedStays(sh, workers, Exec(sh, workers, s, trace[..|trace| - 1]), trace[|trace| - 1], k);
    }
  }

  predicate IsAccepted(s: Prog, k: Key) { k in s.t.rows && s.t.rows[k].state.Accepted? }

  /** The step that takes an acceptance back. */
  lemma OpponentStrikes(sh: Shape, workers: nat, s: Prog, k: Key) returns (a: Action)
    requires Ordered(sh) && IsAccepted(s, k) && !Quiet(s, k)
    ensures !IsAccepted(Step(sh, workers, s, a), k)
  {
    if k in s.live {
      a := WorkerState(k, Running);
    } else if ActiveIn(s, k) {
      var o :| o in s.sups && k in s.sups[o].active;
      a := Collect(o, k, true);
    } else if Rejecting(k) in s.humans {
      a := RejectWrite(k);
    } else {
      a := CancelWrite(k);
    }
  }

  /**
   An acceptance about to be recorded lasts in every continuation exactly when, at that moment, no
   controller is inside the job, no supervisor still has to collect it, and no operator is
   rejecting or cancelling it.
   */
  lemma AcceptanceLastsIff(sh: Shape, workers: nat, s: Prog, k: Key, commit: Commit)
    requires Ordered(sh) && k in s.t.rows && Recording(k, commit) in s.humans
    ensures var s' := Step(sh, workers, s, AcceptRecord(k, commit));
            (forall trace :: IsAccepted(Exec(sh, workers, s', trace), k)) <==> Quiet(s, k)
  {
    var s' := Step(sh, workers, s, AcceptRecord(k, commit));
    assert IsAccepted(s', k) && (Quiet(s', k) <==> Quiet(s, k));
    if Quiet(s, k) {
      forall trace
        ensures IsAccepted(Exec(sh, workers, s', trace), k)
      {
        UnopposedLasts(sh, workers, s', trace, k);
      }
    } else {
      var a := OpponentStrikes(sh, workers, s', k);
      ExecMore(sh, workers, s', [], a);
      assert !IsAccepted(Exec(sh, workers, s', [] + [a]), k);
    }
  }

  /** Operators accept a job only while it is quiet. */
  predicate Careful(s: Prog, a: Action) {
    a.AcceptRecord? && Recording(a.key, a.commit) in s.humans ==> Quiet(s, a.key)
  }

  predicate CarefulAt(s: Prog, k: Key) {
    k in s.t.rows && s.t.rows[k].accepted.Some? ==> Unopposed(s, k)
  }

  lemma StepKeepsCareful(sh: Shape, workers: nat, s: Prog, a: Action, k: Key)
    requires Ordered(sh) && Careful(s, a) && CarefulAt(s, k)
    ensures CarefulAt(Step(sh, workers, s, a), k)
  {
    StepKeepsKeys(sh, workers, s, a);
    if k in s.t.rows {
      if s.t.rows[k].accepted.Some? {
        UnopposedStays(sh, workers, s, a, k);
      } else if Step(sh, workers, s, a).t.rows[k].accepted.Some? {
        OnlyAcceptRecords(sh, workers, s, a, k);
      }
    }
  }

  lemma OnlyAcceptRecords(sh: Shape, workers: nat, s: Prog, a: Action, k: Key)
    requires Ordered(sh) && k in s.t.rows && s.t.rows[k].accepted.None? && k in Step(sh, workers, s, a).t.rows
    requires Step(sh, workers, s, a).t.rows[k].accepted.Some?
    ensures a.AcceptRecord? && a.key == k && Recording(k, a.commit) in s.humans
  {
    StepMovesRow(sh, workers, s, a, k);
  }

  ghost predicate CarefulRun(sh: Shape, workers: nat, states: seq<Prog>, actions: seq<Action>)
    requires Ordered(sh)
  {
    IsRun(sh, workers, states, actions) && forall i {:trigger actions[i]} :: 0 <= i < |actions| ==>
      Careful(states[i], actions[i])
  }

  ghost predicate ReachableCarefully(sh: Shape, workers: nat, s: Prog)
    requires Ordered(sh)
  {
    exists states, actions :: CarefulRun(sh, workers, states, actions) && s == states[|actions|]
  }

  lemma {:induction false} RunIsCareful(sh: Shape, workers: nat, states: seq<Prog>, actions: seq<Action>, n: nat,
                                        k: Key)
    requires Ordered(sh) && CarefulRun(sh, workers, states, actions) && n <= |actions|
    ensures CarefulAt(states[n], k)
  {
    if n > 0 {
      RunIsCareful(sh, workers, states, actions, n - 1, k);
      assert StepOf(sh, workers, states, actions, n - 1);
      assert Careful(states[n - 1], actions[n - 1]);
      StepKeepsCareful(sh, workers, states[n - 1], actions[n - 1], k);
    }
  }

  /**
   Over every run whose acceptances were quiet when recorded, every transitive prerequisite of a
   started job is accepted or promoted with a commit, and acceptances last.
   */
  lemma CarefulRunsSettle(sh: Shape, workers: nat, s: Prog, k: Key, d: Key)
    requires ValidShape(sh) && ReachableCarefully(sh, workers, s) && k in s.t.rows
    ensures Started(s, k) && DependsOn(sh.deps, k, d) ==> d in s.t.rows && Settled(s.t.rows[d])
    ensures s.t.rows[k].accepted.Some? ==> s.t.rows[k].state.Accepted?
  {
    var states, actions :| CarefulRun(sh, workers, states, actions) && s == states[|actions|];
    assert Reachable(sh, workers, s);
    RunIsCareful(sh, workers, states, actions, |actions|, k);
    if Started(s, k) && DependsOn(sh.deps, k, d) {
      DependencySafety(sh, workers, s);
      ReachableIsSafe(sh, workers, s);
      RunIsCareful(sh, workers, states, actions, |actions|, d);
      assert Chained(s.t.rows, d) && RowAt(sh, s, d);
    }
  }

  /**
   In a reachable state the chain of every dependent of an accepted task has its accepted commit,
   and not a commit it was promoted with before.
   */
  lemma AcceptedCommitIsChained(sh: Shape, workers: nat, s: Prog, k: Key, job: Key, trail: seq<Key>,
                                commits: seq<Commit>)
    requires Ordered(sh) && Reachable(sh, workers, s) && k in s.t.rows && s.t.rows[k].accepted.Some?
    requires DependsOn(sh.deps, job, k) && ChainOf(sh.deps, s.t.rows, job, trail, commits)
    ensures s.t.rows[k].accepted.value in commits
    ensures s.t.rows[k].promoted && s.t.rows[k].verified != s.t.rows[k].accepted ==>
              s.t.rows[k].verified.Some? && s.t.rows[k].verified.value !in commits
  {
    ReachableIsSafe(sh, workers, s);
    ChainHolds(sh.deps, s.t.rows, job, trail, commits);
    assert RowAt(sh, s, k) && HasCommit(s.t.rows, k);
    forall v | v in commits && MadeFor(s.git, v, k)
      ensures s.t.rows[k].accepted == Some(v)
    {
      assert Contributed(sh.deps, s.t.rows, job, v);
      var d :| DependsOn(sh.deps, job, d) && Contributes(s.t.rows, d, v);
      assert RowAt(sh, s, d);
    }
  }

  lemma {:induction false} AcceptedUntilNext(sh: Shape, workers: nat, s: Prog, k: Key, c: Commit, trace: seq<Action>)
    requires Ordered(sh) && k in s.t.rows && s.t.rows[k].accepted == Some(c)
    requires forall i :: 0 <= i < |trace| ==> !(trace[i].AcceptRecord? && trace[i].key == k)
    ensures k in Exec(sh, workers, s, trace).t.rows && Exec(sh, workers, s, trace).t.rows[k].accepted == Some(c)
  {
    if trace != [] {
      var mid := Exec(sh, workers, s, trace[..|trace| - 1]);
      AcceptedUntilNext(sh, workers, s, k, c, trace[..|trace| - 1]);
      StepKeepsKeys(sh, workers, mid, trace[|trace| - 1]);
      StepMovesRow(sh, workers, mid, trace[|trace| - 1], k);
    }
  }

  /** What accepting `k` with `c` at `s`, and then `trace`, leads to. */
  ghost function AfterAcceptance(sh: Shape, workers: nat, s: Prog, k: Key, c: Commit, trace: seq<Action>): (s': Prog)
    requires Ordered(sh)
  {
    Exec(sh, workers, Step(sh, workers, s, AcceptRecord(k, c)), trace)
  }

  lemma AcceptedAfter(sh: Shape, workers: nat, s: Prog, k: Key, c: Commit, trace: seq<Action>)
    requires Ordered(sh) && k in s.t.rows && Recording(k, c) in s.humans
    requires forall i :: 0 <= i < |trace| ==> !(trace[i].AcceptRecord? && trace[i].key == k)
    ensures var s' := AfterAcceptance(sh, workers, s, k, c, trace); k in s'.t.rows && s'.t.rows[k].accepted == Some(c)
  {
    AcceptedUntilNext(sh, workers, Step(sh, workers, s, AcceptRecord(k, c)), k, c, trace);
  }

  /**
   Once the acceptance of `k` with `c` is recorded, and until `k` is accepted again, the chain of
   every dependent has `c`, and no commit of `k` that `c` superseded.
   */
  lemma AcceptanceReachesDependents(sh: Shape, workers: nat, s: Prog, k: Key, c: Commit, trace: seq<Action>, job: Key,
                                    trail: seq<Key>, commits: seq<Commit>)
    requires Ordered(sh) && k in s.t.rows && Recording(k, c) in s.humans
    requires forall i :: 0 <= i < |trace| ==> !(trace[i].AcceptRecord? && trace[i].key == k)
    requires Reachable(sh, workers, AfterAcceptance(sh, workers, s, k, c, trace)) && DependsOn(sh.deps, job, k)
    requires ChainOf(sh.deps, AfterAcceptance(sh, workers, s, k, c, trace).t.rows, job, trail, commits)
    ensures c in commits
    ensures var row := AfterAcceptance(sh, workers, s, k, c, trace).t.rows[k];
            row.promoted && row.verified != Some(c) ==> row.verified.Some? && row.verified.value !in commits
  {
    AcceptedAfter(sh, workers, s, k, c, trace);
    AcceptedCommitIsChained(sh, workers, AfterAcceptance(sh, workers, s, k, c, trace), k, job, trail, commits);
  }
}
