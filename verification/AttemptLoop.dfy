/** The attempt loop of one job: decisions that survive a crash, retries, and what a return means. */
module AttemptLoop {
  import opened Wrappers
  import opened Graph
  import opened Program
  import opened Recovery

  datatype Candidate = Candidate(name: string)

  datatype Outcome =
    | Success | ProviderFailure | RateLimit | ResourceFailure | ExecutorFailure | ExecutorCrash | Timeout
    | ProtocolFailure | FormatFailure | TestFailure | LintFailure | BuildFailure | TypecheckFailure
    | ScopeFailure | SecurityFailure | PolicyFailure | ReviewFailure | HumanReject | CancelledRun

  datatype RetryAction = Complete | RetrySame | RetryAlternate | Requeue | Block | Terminal

  function PolicyFor(o: Outcome): (a: RetryAction) {
    match o
    case Success => Complete
    case ResourceFailure => Requeue
    case ProviderFailure | RateLimit | ExecutorFailure | ExecutorCrash | Timeout | ScopeFailure => RetryAlternate
    case ProtocolFailure | FormatFailure | TestFailure | LintFailure | BuildFailure | TypecheckFailure => RetrySame
    case ReviewFailure | HumanReject => RetrySame
    case SecurityFailure | PolicyFailure => Block
    case CancelledRun => Terminal
  }

  datatype Mode = Forced | Same | Scheduled

  datatype Decision = Decision(no: nat, candidate: Candidate, mode: Mode)

  /** An attempt row with its verification and reviews. */
  datatype AttemptRow = AttemptRow(no: nat, candidate: Candidate, started: int, status: AttemptStatus,
                                   verified: Option<bool>, reviews: seq<bool>)

  function DecisionFor(decisions: seq<Decision>, no: nat): (d: Option<Decision>)
    ensures d.Some? ==> d.value in decisions && d.value.no == no
    ensures d.None? ==> forall i :: 0 <= i < |decisions| ==> decisions[i].no != no
  {
    if decisions == [] then None
    else if decisions[0].no == no then Some(decisions[0])
    else DecisionFor(decisions[1..], no)
  }

  predicate Apart(decisions: seq<Decision>, i: nat, j: nat)
    requires i < |decisions| && j < |decisions|
  {
    decisions[i].no != decisions[j].no
  }

  ghost predicate OneEach(decisions: seq<Decision>) {
    forall i, j {:trigger Apart(decisions, i, j)} :: 0 <= i < j < |decisions| ==> Apart(decisions, i, j)
  }

  predicate NumberAt(decisions: seq<Decision>, i: nat, n: nat)
    requires i < |decisions|
  {
    1 <= decisions[i].no <= n
  }

  ghost predicate NumbersUpTo(decisions: seq<Decision>, n: nat) {
    forall i {:trigger NumberAt(decisions, i, n)} :: 0 <= i < |decisions| ==> NumberAt(decisions, i, n)
  }

  lemma NumbersGrow(decisions: seq<Decision>, n: nat, m: nat)
    requires NumbersUpTo(decisions, n) && n <= m
    ensures NumbersUpTo(decisions, m)
  {
    forall i | 0 <= i < |decisions|
      ensures NumberAt(decisions, i, m)
    {
      assert NumberAt(decisions, i, n);
    }
  }

  lemma NumbersMore(decisions: seq<Decision>, n: nat, d: Decision, m: nat)
    requires NumbersUpTo(decisions, n) && n <= m && 1 <= d.no <= m
    ensures NumbersUpTo(decisions + [d], m) && NumbersUpTo(decisions, m)
  {
    forall i | 0 <= i < |decisions|
      ensures NumberAt(decisions, i, m) && NumberAt(decisions + [d], i, m)
    {
      assert NumberAt(decisions, i, n);
    }
  }

  /** Attempts are numbered 1..n; each number has at most one decision, and its attempt runs that decision. */
  ghost predicate Replayable(attempts: seq<AttemptRow>, decisions: seq<Decision>) {
    && (forall i {:trigger attempts[i].no} :: 0 <= i < |attempts| ==> attempts[i].no == i + 1)
    && OneEach(decisions)
    && NumbersUpTo(decisions, |attempts| + 1)
    && (forall i {:trigger RunsItsDecision(attempts[i], decisions)} :: 0 <= i < |attempts| ==>
              RunsItsDecision(attempts[i], decisions))
  }

  ghost predicate RunsItsDecision(a: AttemptRow, decisions: seq<Decision>) {
    Decided(decisions, a.no, a.candidate)
  }

  ghost predicate Decided(decisions: seq<Decision>, no: nat, c: Candidate) {
    exists d :: d in decisions && d.no == no && d.candidate == c
  }

  function Since(attempts: seq<AttemptRow>, feedback: Option<int>): (n: nat) {
    if attempts == [] then 0
    else Since(attempts[..|attempts| - 1], feedback) +
         if feedback.None? || attempts[|attempts| - 1].started > feedback.value then 1 else 0
  }

  function Uses(used: seq<Candidate>, c: Candidate): (n: nat) {
    if used == [] then 0 else Uses(used[..|used| - 1], c) + if used[|used| - 1] == c then 1 else 0
  }

  /** Decisions that repeat `c` through `retry_same`. */
  function Repeats(decisions: seq<Decision>, c: Candidate): (n: nat) {
    if decisions == [] then 0
    else Repeats(decisions[..|decisions| - 1], c) +
         if decisions[|decisions| - 1].candidate == c && decisions[|decisions| - 1].mode.Same? then 1 else 0
  }

  predicate Open(a: AttemptRow) { a.status.Started? }

  lemma DecisionKeepsReplayable(attempts: seq<AttemptRow>, decisions: seq<Decision>, d: Decision)
    requires Replayable(attempts, decisions) && d.no == |attempts| + 1 && DecisionFor(decisions, d.no).None?
    ensures Replayable(attempts, decisions + [d])
  {
    forall i | 0 <= i < |attempts|
      ensures RunsItsDecision(attempts[i], decisions + [d])
    {
      assert RunsItsDecision(attempts[i], decisions);
      var e :| e in decisions && e.no == attempts[i].no && e.candidate == attempts[i].candidate;
      assert e in decisions + [d];
    }
    NumbersMore(decisions, |attempts| + 1, d, |attempts| + 1);
    forall i, j | 0 <= i < j < |decisions + [d]|
      ensures Apart(decisions + [d], i, j)
    {
      assert j < |decisions| ==> Apart(decisions, i, j);
    }
  }

  lemma AttemptKeepsReplayable(attempts: seq<AttemptRow>, decisions: seq<Decision>, a: AttemptRow, d: Decision)
    requires Replayable(attempts, decisions) && a.no == |attempts| + 1
    requires d in decisions && d.no == a.no && d.candidate == a.candidate
    ensures Replayable(attempts + [a], decisions)
  {
    assert RunsItsDecision(a, decisions);
    NumbersGrow(decisions, |attempts| + 1, |attempts| + 2);
  }

  /** The number of the next attempt is free, so the unique constraint never fails. */
  lemma NextNumberIsFree(attempts: seq<AttemptRow>, decisions: seq<Decision>, i: nat)
    requires Replayable(attempts, decisions) && i < |attempts|
    ensures attempts[i].no != |attempts| + 1
  {
    assert attempts[i].no == i + 1;
  }

  lemma MayBegin(attempts: seq<AttemptRow>, decisions: seq<Decision>, a: AttemptRow)
    requires Replayable(attempts, decisions) && a.no == |attempts| + 1 && Decided(decisions, a.no, a.candidate)
    ensures forall i :: 0 <= i < |attempts| ==> attempts[i].no != a.no
    ensures Replayable(attempts + [a], decisions)
  {
    forall i | 0 <= i < |attempts|
      ensures attempts[i].no != a.no
    {
      NextNumberIsFree(attempts, decisions, i);
    }
    var d :| d in decisions && d.no == a.no && d.candidate == a.candidate;
    AttemptKeepsReplayable(attempts, decisions, a, d);
  }

  lemma {:induction false} DecisionFound(decisions: seq<Decision>, d: Decision)
    requires d in decisions
    requires OneEach(decisions)
    ensures DecisionFor(decisions, d.no) == Some(d)
  {
    if decisions[0] != d {
      var rest := decisions[1..];
      var k :| 0 <= k < |decisions| && decisions[k] == d;
      assert Apart(decisions, 0, k) && rest[k - 1] == d;
      forall i, j | 0 <= i < j < |rest|
        ensures Apart(rest, i, j)
      {
        assert Apart(decisions, i + 1, j + 1);
      }
      DecisionFound(rest, d);
    }
  }

  /** Replay determinism: looking up the decision of an attempt's number gives the candidate it ran. */
  lemma ReplayIsDeterministic(attempts: seq<AttemptRow>, decisions: seq<Decision>, i: nat)
    requires Replayable(attempts, decisions) && i < |attempts|
    ensures DecisionFor(decisions, attempts[i].no).Some?
    ensures DecisionFor(decisions, attempts[i].no).value.candidate == attempts[i].candidate
  {
    assert RunsItsDecision(attempts[i], decisions);
    var d :| d in decisions && d.no == attempts[i].no && d.candidate == attempts[i].candidate;
    DecisionFound(decisions, d);
  }

  /** Recovery and re-verification change outcomes only, so they keep replay intact. */
  lemma OutcomesKeepReplayable(before: seq<AttemptRow>, after: seq<AttemptRow>, decisions: seq<Decision>)
    requires Replayable(before, decisions) && |after| == |before|
    requires forall i :: 0 <= i < |before| ==> SameAttempt(before[i], after[i])
    ensures Replayable(after, decisions)
  {
    forall i | 0 <= i < |after|
      ensures RunsItsDecision(after[i], decisions) && after[i].no == i + 1
    {
      assert SameAttempt(before[i], after[i]);
      assert RunsItsDecision(before[i], decisions);
    }
  }

  /** Only the outcome of an attempt changes once it has begun. */
  predicate SameAttempt(a: AttemptRow, b: AttemptRow) {
    a.no == b.no && a.candidate == b.candidate && a.started == b.started
  }

  lemma UpdateKeepsReplayable(attempts: seq<AttemptRow>, decisions: seq<Decision>, i: nat, a: AttemptRow)
    requires Replayable(attempts, decisions) && i < |attempts| && SameAttempt(attempts[i], a)
    ensures Replayable(attempts[i := a], decisions)
  {
    var after := attempts[i := a];
    forall j | 0 <= j < |after|
      ensures RunsItsDecision(after[j], decisions)
    {
      assert RunsItsDecision(attempts[j], decisions);
    }
  }

  function AtLeastZero(n: int): (m: nat) {
    if n < 0 then 0 else n
  }

  /** `retry_same` for `c`: repeats so far, plus the one that is planned. */
  function Planned(begun: seq<Decision>, retrySame: Option<Candidate>, c: Candidate): (n: nat) {
    Repeats(begun, c) + if retrySame == Some(c) then 1 else 0
  }

  ghost predicate RepeatsOk(begun: seq<Decision>, used: seq<Candidate>, retrySame: Option<Candidate>,
                            sameRetries: int) {
    forall c {:trigger Planned(begun, retrySame, c)} ::
      Planned(begun, retrySame, c) <= Uses(used, c) && Planned(begun, retrySame, c) <= AtLeastZero(sameRetries)
  }

  /** `used` has the candidate of the current attempt already; planning its repeat stays within bounds. */
  ghost predicate JustUsed(begun: seq<Decision>, used: seq<Candidate>, retrySame: Option<Candidate>, sameRetries: int,
                           c: Candidate) {
    && RepeatsOk(begun, used, retrySame, sameRetries)
    && Repeats(begun, c) < Uses(used, c)
  }

  /** What an attempt leaves for the next one. */
  datatype Follow = Follow(retrySame: Option<Candidate>, exclude: set<Candidate>)

  /** The flags after a failed attempt. */
  function FollowUp(action: RetryAction, ordered: bool, used: seq<Candidate>, sameRetries: int, c: Candidate,
                    f: Follow): (f': Follow) {
    if ordered then Follow(None, f.exclude + {c})
    else if action.RetryAlternate? then f.(exclude := f.exclude + {c})
    else if action.RetrySame? then
      if Uses(used, c) <= sameRetries then f.(retrySame := Some(c)) else f.(exclude := f.exclude + {c})
    else f
  }

  lemma FollowUpKeepsRepeats(begun: seq<Decision>, used: seq<Candidate>, f: Follow, sameRetries: int, c: Candidate,
                             action: RetryAction, ordered: bool)
    requires JustUsed(begun, used, f.retrySame, sameRetries, c)
    ensures RepeatsOk(begun, used, FollowUp(action, ordered, used, sameRetries, c, f).retrySame, sameRetries)
  {
    var f' := FollowUp(action, ordered, used, sameRetries, c, f);
    forall x
      ensures Planned(begun, f'.retrySame, x) <= Uses(used, x) && Planned(begun, f'.retrySame, x) <= AtLeastZero(sameRetries)
    {
      assert Planned(begun, f.retrySame, x) <= Uses(used, x);
    }
  }

  lemma UseOnce(begun: seq<Decision>, used: seq<Candidate>, retrySame: Option<Candidate>, sameRetries: int,
                d: Option<Decision>, c: Candidate, retrySame': Option<Candidate>)
    requires RepeatsOk(begun, used, retrySame, sameRetries)
    requires d.Some? ==> d.value.candidate == c
    requires d.Some? && d.value.mode.Same? ==> retrySame == Some(c) && retrySame'.None?
    requires retrySame' == retrySame || retrySame'.None?
    ensures var begun' := if d.Some? then begun + [d.value] else begun;
            JustUsed(begun', used + [c], retrySame', sameRetries, c)
  {
    var begun' := if d.Some? then begun + [d.value] else begun;
    assert (used + [c])[..|used|] == used;
    if d.Some? {
      assert begun'[..|begun|] == begun;
    }
    forall x
      ensures Planned(begun', retrySame', x) <= Uses(used + [c], x) && Planned(begun', retrySame', x) <= AtLeastZero(sameRetries)
    {
      assert Planned(begun, retrySame, x) <= Uses(used, x);
    }
    assert Planned(begun, retrySame, c) <= Uses(used, c);
  }

  lemma Appended(earlier: seq<Decision>, begun: seq<Decision>, d: Decision)
    ensures earlier + begun + [d] == earlier + (begun + [d])
    ensures Decided(earlier + begun + [d], d.no, d.candidate)
  {
    assert d in earlier + begun + [d];
  }

  datatype Choice = Chosen(candidate: Candidate) | NoCapability | Unavailable

  /** How `run_job` ends; a raised exception and the death of the process leave the tables as they are. */
  datatype Exit = Returned(state: JobState) | Raised

  /** How one attempt ends. */
  datatype Verdict = Done(state: JobState) | Again(action: RetryAction, reviewed: bool, incompatible: bool) | Occupied | Broken

  /** What an attempt met on its way; `Cut` is a death or an exception. */
  datatype Met =
    | Busy | ExecutorSaid(outcome: Outcome, incompatible: bool) | VerifierSaid(outcome: Outcome) | ReviewerRejected
    | AllGreen | Cut

  /** The row, the job state and the way on that go with what the attempt met. */
  ghost predicate Fits(met: Met, a: AttemptRow, state: JobState, v: Verdict) {
    match met
    case Busy => v.Occupied? && a.status.ExecutorFailed? && state == Retry
    case ExecutorSaid(o, incompatible) =>
      && a.status.ExecutorFailed? && a.verified.None?
      && (match PolicyFor(o)
          case Block => v == Done(Blocked) && state == Blocked
          case Terminal => v == Done(JobState.Failed) && state == JobState.Failed
          case action => v == Again(action, false, incompatible && o.ResourceFailure?) && state == Retry)
    case VerifierSaid(o) =>
      && a.status.VerifyFailed? && a.verified == Some(false)
      && (if PolicyFor(o).Block? then v == Done(Blocked) && state == Blocked
          else v == Again(PolicyFor(o), false, false) && state == Retry)
    case ReviewerRejected =>
      && a.status.ReviewFailed? && a.verified == Some(true) && a.reviews != [] && !a.reviews[|a.reviews| - 1]
      && v == Again(RetrySame, true, false) && state == Retry
    case AllGreen => a.status.Passed? && Green(a) && v == Done(Ready) && state == Ready
    case Cut => v.Broken?
  }

  /** Nothing is left to try after this. */
  predicate EndsJob(met: Met) {
    match met
    case ExecutorSaid(o, _) => PolicyFor(o).Block? || PolicyFor(o).Terminal?
    case VerifierSaid(o) => PolicyFor(o).Block?
    case AllGreen => true
    case _ => false
  }

  /**
   One turn of the loop: what was planned and to be avoided, what could be had and was chosen, what
   the attempt met, and whether its candidate is planned or barred for the next turn.
   */
  datatype Turn = Turn(first: bool, planned: Option<Candidate>, avoided: set<Candidate>, usable: set<Candidate>,
                       replayed: bool, candidate: Candidate, mode: Mode, met: Met, plan: Option<Candidate>, barred: bool)

  function Candidates(turns: seq<Turn>): (cs: seq<Candidate>)
    ensures |cs| == |turns| && forall i :: 0 <= i < |turns| ==> cs[i] == turns[i].candidate
  {
    seq(|turns|, i requires 0 <= i < |turns| => turns[i].candidate)
  }

  /** A forced candidate opens a fresh cycle, and a planned repeat is the very next choice. */
  predicate ChosenAsPlanned(t: Turn, forced: Option<Candidate>) {
    !t.replayed ==>
      && (t.first && forced.Some? ==> t.mode.Forced? && t.candidate == forced.value)
      && (!t.first && t.planned.Some? ==> t.mode.Same? && t.candidate == t.planned.value)
      && (t.mode.Scheduled? ==> t.candidate in t.usable && (t.candidate in t.avoided ==> t.usable <= t.avoided))
      && (t.mode.Same? ==> t.planned == Some(t.candidate)) && (t.mode.Forced? ==> t.first && forced == Some(t.candidate))
  }

  /** A repeat is planned for failures that are to be retried, up to the limit and in no fixed order of candidates. */
  predicate PlansRepeat(met: Met, uses: nat, ordered: bool, sameRetries: int) {
    && uses <= sameRetries
    && match met
       case ExecutorSaid(o, _) => !ordered && PolicyFor(o).RetrySame?
       case VerifierSaid(o) => !ordered && PolicyFor(o).RetrySame?
       case ReviewerRejected => true
       case _ => false
  }

  /** With a fixed order of candidates a failure drops whatever was planned. */
  predicate DropsPlan(met: Met, ordered: bool) { ordered && (met.ExecutorSaid? || met.VerifierSaid?) }

  /** A plan that a replayed decision did not use up stays. */
  function NextPlan(met: Met, kept: Option<Candidate>, c: Candidate, uses: nat, ordered: bool,
                    sameRetries: int): (plan: Option<Candidate>) {
    if PlansRepeat(met, uses, ordered, sameRetries) then Some(c)
    else if DropsPlan(met, ordered) then None
    else kept
  }

  /** The candidate is barred from the next turn: after every failure under a fixed order, else by policy or use. */
  predicate Bars(met: Met, uses: nat, ordered: bool, sameRetries: int) {
    match met
    case ExecutorSaid(o, incompatible) =>
      || (incompatible && o.ResourceFailure?) || ordered || PolicyFor(o).RetryAlternate?
      || (PolicyFor(o).RetrySame? && uses > sameRetries)
    case VerifierSaid(o) => ordered || PolicyFor(o).RetryAlternate? || (PolicyFor(o).RetrySame? && uses > sameRetries)
    case ReviewerRejected => uses > sameRetries
    case _ => false
  }

  /** A barred candidate, and the last one if enough were used. */
  function Avoided(turns: seq<Turn>, used: seq<Candidate>, sameRetries: int): (cs: set<Candidate>) {
    Barred(turns) + if used != [] && |used| >= sameRetries then {used[|used| - 1]} else {}
  }

  function Barred(turns: seq<Turn>): (cs: set<Candidate>) {
    if turns != [] && turns[|turns| - 1].barred then {turns[|turns| - 1].candidate} else {}
  }

  /** What is left of the plan once the candidate was chosen. */
  function Kept(t: Turn): (plan: Option<Candidate>) {
    if t.replayed then t.planned else None
  }

  predicate PlannedBy(t: Turn, uses: nat, ordered: bool, sameRetries: int) {
    t.plan == NextPlan(t.met, Kept(t), t.candidate, uses, ordered, sameRetries)
      && t.barred == Bars(t.met, uses, ordered, sameRetries)
  }

  ghost predicate TurnAt(turns: seq<Turn>, i: nat, forced: Option<Candidate>, ordered: bool, sameRetries: int,
                         anew: bool)
    requires i < |turns|
  {
    var t := turns[i];
    && t.first == (anew && i == 0) && t.planned == (if i == 0 then None else turns[i - 1].plan)
    && ChosenAsPlanned(t, forced) && t.avoided == Avoided(turns[..i], Candidates(turns[..i]), sameRetries)
    && (t.met.Cut? || EndsJob(t.met) ==> i == |turns| - 1)
    && (!t.met.Cut? ==> PlannedBy(t, Uses(Candidates(turns[..i + 1]), t.candidate), ordered, sameRetries))
  }

  ghost predicate Turns(turns: seq<Turn>, forced: Option<Candidate>, ordered: bool, sameRetries: int, anew: bool) {
    forall i {:trigger TurnAt(turns, i, forced, ordered, sameRetries, anew)} :: 0 <= i < |turns| ==>
      TurnAt(turns, i, forced, ordered, sameRetries, anew)
  }

  /** Turn `i` took the decision of its number, replayed or new, and ran it. */
  ghost predicate TurnInAt(turns: seq<Turn>, i: nat, before: nat, decisions0: seq<Decision>, attempts: seq<AttemptRow>,
                           decisions: seq<Decision>)
    requires i < |turns|
  {
    && turns[i].replayed == DecisionFor(decisions0, before + i + 1).Some?
    && Decided(decisions, before + i + 1, turns[i].candidate)
    && (!turns[i].replayed ==> Decision(before + i + 1, turns[i].candidate, turns[i].mode) in decisions)
    && (before + i < |attempts| ==> attempts[before + i].candidate == turns[i].candidate)
  }

  /** The turns are those of the tables: each has its number's decision and its attempt row. */
  ghost predicate TurnsIn(turns: seq<Turn>, before: nat, decisions0: seq<Decision>, attempts: seq<AttemptRow>,
                          decisions: seq<Decision>)
  {
    && before <= |attempts| <= before + |turns|
    && forall i {:trigger TurnInAt(turns, i, before, decisions0, attempts, decisions)} :: 0 <= i < |turns| ==>
         TurnInAt(turns, i, before, decisions0, attempts, decisions)
  }

  lemma TurnsMore(turns: seq<Turn>, t: Turn, forced: Option<Candidate>, ordered: bool, sameRetries: int, anew: bool)
    requires Turns(turns, forced, ordered, sameRetries, anew) && NoneCut(turns)
    requires t.first == (anew && turns == []) && t.planned == (if turns == [] then None else turns[|turns| - 1].plan)
    requires ChosenAsPlanned(t, forced) && t.avoided == Avoided(turns, Candidates(turns), sameRetries)
    requires !t.met.Cut? ==> PlannedBy(t, Uses(Candidates(turns) + [t.candidate], t.candidate), ordered, sameRetries)
    ensures Turns(turns + [t], forced, ordered, sameRetries, anew)
    ensures Candidates(turns + [t]) == Candidates(turns) + [t.candidate]
  {
    var longer := turns + [t];
    assert Candidates(longer) == Candidates(turns) + [t.candidate];
    assert longer[..|turns|] == turns && longer[..|turns| + 1] == longer;
    forall i | 0 <= i < |longer|
      ensures TurnAt(longer, i, forced, ordered, sameRetries, anew)
    {
      if i < |turns| {
        TurnStays(turns, t, i, forced, ordered, sameRetries, anew);
      }
    }
  }

  lemma TurnStays(turns: seq<Turn>, t: Turn, i: nat, forced: Option<Candidate>, ordered: bool, sameRetries: int,
                  anew: bool)
    requires Turns(turns, forced, ordered, sameRetries, anew) && NoneCut(turns) && i < |turns|
    ensures TurnAt(turns + [t], i, forced, ordered, sameRetries, anew)
  {
    assert TurnAt(turns, i, forced, ordered, sameRetries, anew) && WentOn(turns, i);
    assert (turns + [t])[..i + 1] == turns[..i + 1] && (turns + [t])[..i] == turns[..i];
  }

  lemma {:induction false} DecisionForMore(decisions0: seq<Decision>, begun: seq<Decision>, no: nat)
    requires no >= 1 && NumbersUpTo(begun, no - 1)
    ensures DecisionFor(decisions0 + begun, no).Some? <==> DecisionFor(decisions0, no).Some?
  {
    var all := decisions0 + begun;
    forall n | |decisions0| <= n < |all|
      ensures all[n].no < no
    {
      assert all[n] == begun[n - |decisions0|] && NumberAt(begun, n - |decisions0|, no - 1);
    }
    if DecisionFor(decisions0, no).Some? {
      assert DecisionFor(decisions0, no).value in all;
    }
    if DecisionFor(all, no).Some? {
      var n :| 0 <= n < |all| && all[n] == DecisionFor(all, no).value;
      assert decisions0[n].no == no;
    }
  }

  lemma DecidedMore(decisions: seq<Decision>, more: seq<Decision>, no: nat, c: Candidate)
    requires Decided(decisions, no, c) && forall d :: d in decisions ==> d in more
    ensures Decided(more, no, c)
  {
  }

  lemma TurnsInMore(turns: seq<Turn>, t: Turn, before: nat, decisions0: seq<Decision>, mid: seq<AttemptRow>,
                    decided: seq<Decision>, attempts: seq<AttemptRow>, decisions: seq<Decision>)
    requires TurnsIn(turns, before, decisions0, mid, decided) && |mid| == before + |turns|
    requires Extends(mid, attempts) && |attempts| <= |mid| + 1 && forall d :: d in decided ==> d in decisions
    requires t.replayed == DecisionFor(decisions0, |mid| + 1).Some? && Decided(decisions, |mid| + 1, t.candidate)
    requires !t.replayed ==> Decision(|mid| + 1, t.candidate, t.mode) in decisions
    requires |attempts| > |mid| ==> attempts[|mid|].candidate == t.candidate
    ensures TurnsIn(turns + [t], before, decisions0, attempts, decisions)
  {
    var longer := turns + [t];
    forall i | 0 <= i < |longer|
      ensures TurnInAt(longer, i, before, decisions0, attempts, decisions)
    {
      if i < |turns| {
        assert longer[i] == turns[i] && TurnInAt(turns, i, before, decisions0, mid, decided);
        DecidedMore(decided, decisions, before + i + 1, turns[i].candidate);
        assert attempts[..|mid|][before + i] == mid[before + i];
      }
    }
  }

  /** Between two points of one attempt only the row of that attempt changes. */
  ghost predicate OnlyLast(before: seq<AttemptRow>, after: seq<AttemptRow>) {
    && |after| == |before| > 0 && after[..|after| - 1] == before[..|before| - 1]
    && SameAttempt(before[|before| - 1], after[|after| - 1])
  }

  lemma OnlyLastTwice(first: seq<AttemptRow>, mid: seq<AttemptRow>, last: seq<AttemptRow>)
    requires OnlyLast(first, mid) && OnlyLast(mid, last)
    ensures OnlyLast(first, last)
  {
  }

  /** Verified, and rejected by no review. */
  ghost predicate Green(a: AttemptRow) {
    a.verified == Some(true) && forall j :: 0 <= j < |a.reviews| ==> a.reviews[j]
  }

  predicate WentOn(turns: seq<Turn>, i: nat)
    requires i < |turns|
  {
    !turns[i].met.Cut? && !EndsJob(turns[i].met)
  }

  ghost predicate NoneCut(turns: seq<Turn>) {
    forall i {:trigger WentOn(turns, i)} :: 0 <= i < |turns| ==> WentOn(turns, i)
  }

  /** Between two turns: the tables, the flags, and the turns that led there. */
  ghost predicate LoopOk(attempts0: seq<AttemptRow>, decisions0: seq<Decision>, attempts: seq<AttemptRow>,
                         decisions: seq<Decision>, f: Follow, used: seq<Candidate>, begun: seq<Decision>,
                         turns: seq<Turn>, forced: Option<Candidate>, ordered: bool, sameRetries: int, anew: bool)
  {
    && Replayable(attempts, decisions) && Extends(attempts0, attempts) && AllClosed(attempts, |attempts0|, |attempts|)
    && decisions == decisions0 + begun && RepeatsOk(begun, used, f.retrySame, sameRetries)
    && NumbersUpTo(begun, |attempts|)
    && Turns(turns, forced, ordered, sameRetries, anew) && Candidates(turns) == used
    && TurnsIn(turns, |attempts0|, decisions0, attempts, decisions)
    && |attempts| == |attempts0| + |turns| && NoneCut(turns)
    && f.retrySame == (if turns == [] then None else turns[|turns| - 1].plan) && f.exclude == Barred(turns)
  }

  /** What one turn does to the tables between `mid` with `decided` and now. */
  ghost predicate Taken(mid: seq<AttemptRow>, decided: seq<Decision>, begun: seq<Decision>, t: Turn,
                        attempts: seq<AttemptRow>, decisions: seq<Decision>, begun': seq<Decision>)
  {
    && Extends(mid, attempts) && |attempts| <= |mid| + 1
    && (|attempts| > |mid| ==> attempts[|mid|].candidate == t.candidate)
    && (!t.met.Cut? ==> |attempts| == |mid| + 1 && !Open(attempts[|mid|]))
    && t.replayed == DecisionFor(decided, |mid| + 1).Some? && Decided(decisions, |mid| + 1, t.candidate)
    && begun' == if t.replayed then begun else begun + [Decision(|mid| + 1, t.candidate, t.mode)]
  }

  /** What the scheduler is told to leave out. */
  function Excluded(f: Follow, used: seq<Candidate>, sameRetries: int): (cs: set<Candidate>) {
    f.exclude + if used != [] && |used| >= sameRetries then {used[|used| - 1]} else {}
  }

  /** What `exit` says after an attempt that met `met`. */
  ghost predicate ExitFits(exit: Option<Exit>, met: Met, attempts: seq<AttemptRow>, state: JobState) {
    match exit
    case None => !met.Cut? && !EndsJob(met)
    case Some(Raised) => met.Cut?
    case Some(Returned(s)) => !met.Cut? && s == state && attempts != [] && Fits(met, attempts[|attempts| - 1], state, Done(s))
  }

  /** The choice, the attempt and the flags of one turn. */
  ghost predicate AfterTurn(mid: seq<AttemptRow>, decided: seq<Decision>, f: Follow, used: seq<Candidate>,
                            begun: seq<Decision>, forced: Option<Candidate>, ordered: bool, sameRetries: int, t: Turn,
                            exit: Option<Exit>, attempts: seq<AttemptRow>, decisions: seq<Decision>, f': Follow,
                            begun': seq<Decision>, state: JobState)
  {
    && Taken(mid, decided, begun, t, attempts, decisions, begun')
    && t.planned == f.retrySame && ChosenAsPlanned(t, forced) && t.avoided == Excluded(f, used, sameRetries)
    && PlannedBy(t, Uses(used + [t.candidate], t.candidate), ordered, sameRetries)
    && ExitFits(exit, t.met, attempts, state)
    && (exit.None? ==>
          && RepeatsOk(begun', used + [t.candidate], f'.retrySame, sameRetries)
          && f' == Follow(t.plan, if t.barred then {t.candidate} else {}))
  }

  lemma IsAfterTurn(mid: seq<AttemptRow>, decided: seq<Decision>, f: Follow, used: seq<Candidate>, begun: seq<Decision>,
                    forced: Option<Candidate>, ordered: bool, sameRetries: int, t: Turn, met: Met, exit: Option<Exit>,
                    attempts: seq<AttemptRow>, decisions: seq<Decision>, f': Follow, begun': seq<Decision>,
                    state: JobState) returns (t': Turn)
    requires Extends(mid, attempts) && |attempts| <= |mid| + 1
    requires |attempts| > |mid| ==> attempts[|mid|].candidate == t.candidate
    requires !met.Cut? ==> |attempts| == |mid| + 1 && !Open(attempts[|attempts| - 1])
    requires t.replayed == DecisionFor(decided, |mid| + 1).Some? && Decided(decisions, |mid| + 1, t.candidate)
    requires begun' == if t.replayed then begun else begun + [Decision(|mid| + 1, t.candidate, t.mode)]
    requires t.planned == f.retrySame && ChosenAsPlanned(t, forced) && t.avoided == Excluded(f, used, sameRetries)
    requires ExitFits(exit, met, attempts, state)
    requires exit.None? ==>
               && RepeatsOk(begun', used + [t.candidate], f'.retrySame, sameRetries)
               && f' == Follow(NextPlan(met, Kept(t), t.candidate, Uses(used + [t.candidate], t.candidate), ordered,
                                        sameRetries),
                               if Bars(met, Uses(used + [t.candidate], t.candidate), ordered, sameRetries)
                                 then {t.candidate} else {})
    ensures AfterTurn(mid, decided, f, used, begun, forced, ordered, sameRetries, t', exit, attempts, decisions, f',
                      begun', state)
    ensures t'.first == t.first && t'.candidate == t.candidate
  {
    var uses := Uses(used + [t.candidate], t.candidate);
    t' := t.(met := met, plan := NextPlan(met, Kept(t), t.candidate, uses, ordered, sameRetries),
             barred := Bars(met, uses, ordered, sameRetries));
    assert Kept(t') == Kept(t);
  }

  /** The turn that was just taken is added to the others, whatever it met. */
  lemma TurnTaken(attempts0: seq<AttemptRow>, decisions0: seq<Decision>, mid: seq<AttemptRow>, decided: seq<Decision>,
                  f: Follow, used: seq<Candidate>, begun: seq<Decision>, turns: seq<Turn>, forced: Option<Candidate>,
                  ordered: bool, sameRetries: int, anew: bool, t: Turn, exit: Option<Exit>, attempts: seq<AttemptRow>,
                  f': Follow, begun': seq<Decision>, state: JobState)
    requires LoopOk(attempts0, decisions0, mid, decided, f, used, begun, turns, forced, ordered, sameRetries, anew)
    requires AfterTurn(mid, decided, f, used, begun, forced, ordered, sameRetries, t, exit, attempts,
                       decisions0 + begun', f', begun', state)
    requires t.first == (anew && turns == [])
    ensures Turns(turns + [t], forced, ordered, sameRetries, anew) && Candidates(turns + [t]) == used + [t.candidate]
    ensures TurnsIn(turns + [t], |attempts0|, decisions0, attempts, decisions0 + begun')
    ensures Extends(attempts0, attempts) && AllClosed(attempts, |attempts0|, |attempts| - 1)
    ensures exit.None? || exit.value.Returned? ==> AllClosed(attempts, |attempts0|, |attempts|)
  {
    ExtendsMore(attempts0, mid, attempts);
    DecisionForMore(decisions0, begun, |mid| + 1);
    TurnsMore(turns, t, forced, ordered, sameRetries, anew);
    TurnsInMore(turns, t, |attempts0|, decisions0, mid, decided, attempts, decisions0 + begun');
  }

  lemma LoopGoesOn(attempts0: seq<AttemptRow>, decisions0: seq<Decision>, mid: seq<AttemptRow>, decided: seq<Decision>,
                   f: Follow, used: seq<Candidate>, begun: seq<Decision>, turns: seq<Turn>, forced: Option<Candidate>,
                   ordered: bool, sameRetries: int, anew: bool, t: Turn, attempts: seq<AttemptRow>, f': Follow,
                   begun': seq<Decision>, state: JobState)
    requires LoopOk(attempts0, decisions0, mid, decided, f, used, begun, turns, forced, ordered, sameRetries, anew)
    requires AfterTurn(mid, decided, f, used, begun, forced, ordered, sameRetries, t, None, attempts,
                       decisions0 + begun', f', begun', state)
    requires t.first == (anew && turns == []) && Replayable(attempts, decisions0 + begun')
    ensures LoopOk(attempts0, decisions0, attempts, decisions0 + begun', f', used + [t.candidate], begun',
                   turns + [t], forced, ordered,
                   sameRetries, anew)
  {
    TurnTaken(attempts0, decisions0, mid, decided, f, used, begun, turns, forced, ordered, sameRetries, anew, t,
              None, attempts, f', begun', state);
    NumbersMore(begun, |mid|, Decision(|mid| + 1, t.candidate, t.mode), |attempts|);
    NoneCutMore(turns, t);
  }

  lemma NoneCutMore(turns: seq<Turn>, t: Turn)
    requires NoneCut(turns) && !t.met.Cut? && !EndsJob(t.met)
    ensures NoneCut(turns + [t])
  {
    forall i | 0 <= i < |turns + [t]|
      ensures WentOn(turns + [t], i)
    {
      assert i < |turns| ==> WentOn(turns, i);
    }
  }

  /** What `run_job` may say at the end of its last turn. */
  ghost predicate Ends(attempts0: seq<AttemptRow>, attempts: seq<AttemptRow>, state: JobState, exit: Exit) {
    && Extends(attempts0, attempts) && AllClosed(attempts, |attempts0|, |attempts| - 1)
    && (exit.Returned? ==>
          && AllClosed(attempts, |attempts0|, |attempts|)
          && state == exit.state && (state.Ready? || state.Blocked? || state.Failed?))
    && (exit == Returned(Ready) ==>
          |attempts| > |attempts0| && attempts[|attempts| - 1].status.Passed? && Green(attempts[|attempts| - 1]))
  }

  /**
   The last turn decides if it ends the job; otherwise no candidate could be had, an exception was
   raised, or the job failed because its allowance or its time was used up.
   */
  ghost predicate LastWord(turns: seq<Turn>, allowance: int, attempts: seq<AttemptRow>, state: JobState, exit: Exit) {
    if turns != [] && EndsJob(turns[|turns| - 1].met) then
      attempts != [] && exit == Returned(state) && Fits(turns[|turns| - 1].met, attempts[|attempts| - 1], state, Done(state))
    else exit.Raised? || exit == Returned(JobState.Failed) || (exit == Returned(Blocked) && |turns| < allowance)
  }

  /** The end of `run_job`, with the turns that led there. */
  ghost predicate Explained(attempts0: seq<AttemptRow>, decisions0: seq<Decision>, attempts: seq<AttemptRow>,
                            decisions: seq<Decision>, turns: seq<Turn>, forced: Option<Candidate>, ordered: bool,
                            sameRetries: int, anew: bool, allowance: int, state: JobState, exit: Exit)
  {
    && LastWord(turns, allowance, attempts, state, exit) && |attempts| <= |attempts0| + AtLeastZero(allowance)
    && Ends(attempts0, attempts, state, exit) && Turns(turns, forced, ordered, sameRetries, anew)
    && TurnsIn(turns, |attempts0|, decisions0, attempts, decisions)
  }

  lemma TurnEnds(attempts0: seq<AttemptRow>, decisions0: seq<Decision>, mid: seq<AttemptRow>, decided: seq<Decision>,
                 f: Follow, used: seq<Candidate>, begun: seq<Decision>, turns: seq<Turn>, forced: Option<Candidate>,
                 ordered: bool, sameRetries: int, anew: bool, allowance: int, t: Turn, exit: Exit,
                 attempts: seq<AttemptRow>, f': Follow, begun': seq<Decision>, state: JobState)
    requires LoopOk(attempts0, decisions0, mid, decided, f, used, begun, turns, forced, ordered, sameRetries, anew)
    requires AfterTurn(mid, decided, f, used, begun, forced, ordered, sameRetries, t, Some(exit), attempts,
                       decisions0 + begun', f', begun', state)
    requires t.first == (anew && turns == [])
    requires |turns| < allowance
    ensures Explained(attempts0, decisions0, attempts, decisions0 + begun', turns + [t], forced, ordered,
                      sameRetries, anew, allowance, state, exit)
  {
    TurnTaken(attempts0, decisions0, mid, decided, f, used, begun, turns, forced, ordered, sameRetries, anew, t,
              Some(exit), attempts, f',
              begun', state);
  }

  lemma LoopBegins(attempts: seq<AttemptRow>, decisions: seq<Decision>, forced: Option<Candidate>, ordered: bool,
                   sameRetries: int, anew: bool)
    requires Replayable(attempts, decisions)
    ensures LoopOk(attempts, decisions, attempts, decisions, Follow(None, {}), [], [], [], forced, ordered, sameRetries,
                   anew)
  {
    assert decisions + [] == decisions;
  }

  lemma LoopEnds(attempts0: seq<AttemptRow>, decisions0: seq<Decision>, attempts: seq<AttemptRow>,
                 decisions: seq<Decision>, f: Follow, used: seq<Candidate>, begun: seq<Decision>, turns: seq<Turn>,
                 forced: Option<Candidate>, ordered: bool, sameRetries: int, anew: bool, allowance: int, exit: Exit,
                 state: JobState)
    requires LoopOk(attempts0, decisions0, attempts, decisions, f, used, begun, turns, forced, ordered, sameRetries, anew)
    requires exit.Returned? ==> exit.state == state && (state.Failed? || (state.Blocked? && |turns| < allowance))
    requires |turns| <= AtLeastZero(allowance)
    ensures Explained(attempts0, decisions0, attempts, decisions, turns, forced, ordered, sameRetries, anew,
                      allowance, state, exit)
    ensures RepeatsAtMost(begun, AtLeastZero(sameRetries)) && decisions == decisions0 + begun
  {
    assert turns != [] ==> WentOn(turns, |turns| - 1);
    RepeatsBound(begun, used, f.retrySame, sameRetries);
  }

  /** The first decision of a fresh cycle is for the forced candidate, unless one was recorded before. */
  lemma ForcedComesFirst(attempts0: seq<AttemptRow>, decisions0: seq<Decision>, attempts: seq<AttemptRow>,
                         decisions: seq<Decision>, turns: seq<Turn>, c: Candidate, ordered: bool, sameRetries: int,
                         allowance: int, state: JobState, exit: Exit)
    requires Explained(attempts0, decisions0, attempts, decisions, turns, Some(c), ordered, sameRetries, true,
                       allowance, state, exit)
    requires turns != [] && DecisionFor(decisions0, |attempts0| + 1).None?
    ensures Decision(|attempts0| + 1, c, Forced) in decisions
    ensures |attempts| > |attempts0| ==> attempts[|attempts0|].candidate == c
  {
    assert TurnAt(turns, 0, Some(c), ordered, sameRetries, true);
    assert TurnInAt(turns, 0, |attempts0|, decisions0, attempts, decisions);
  }

  /**
   A failure that is to be retried with the same candidate, and still may be, makes that candidate
   the very next decision, unless one was recorded before; any other failure that is charged to the
   candidate keeps the scheduler from picking it next, unless nothing else can be had.
   */
  lemma FailureDecidesNext(attempts0: seq<AttemptRow>, decisions0: seq<Decision>, attempts: seq<AttemptRow>,
                           decisions: seq<Decision>, turns: seq<Turn>, forced: Option<Candidate>, ordered: bool,
                           sameRetries: int, anew: bool, allowance: int, state: JobState, exit: Exit, i: nat)
    requires Explained(attempts0, decisions0, attempts, decisions, turns, forced, ordered, sameRetries, anew,
                       allowance, state, exit)
    requires i + 1 < |turns| && DecisionFor(decisions0, |attempts0| + i + 2).None?
    ensures var uses := Uses(Candidates(turns[..i + 1]), turns[i].candidate);
            && (PlansRepeat(turns[i].met, uses, ordered, sameRetries) ==>
                  Decision(|attempts0| + i + 2, turns[i].candidate, Same) in decisions)
            && (Bars(turns[i].met, uses, ordered, sameRetries) && turns[i + 1].mode.Scheduled? ==>
                  turns[i + 1].candidate == turns[i].candidate ==> turns[i + 1].usable <= turns[i + 1].avoided)
  {
    assert TurnAt(turns, i, forced, ordered, sameRetries, anew) && TurnAt(turns, i + 1, forced, ordered, sameRetries, anew);
    assert TurnInAt(turns, i + 1, |attempts0|, decisions0, attempts, decisions);
    assert turns[..i + 1][|turns[..i + 1]| - 1] == turns[i];
  }

  /** What to mend with the same candidate. */
  predicate Mendable(o: Outcome) {
    || o.ProtocolFailure? || o.FormatFailure? || o.TestFailure? || o.LintFailure? || o.BuildFailure?
    || o.TypecheckFailure? || o.ReviewFailure? || o.HumanReject?
  }

  /** What speaks against the candidate. */
  predicate Charged(o: Outcome) {
    || o.ProviderFailure? || o.RateLimit? || o.ExecutorFailure? || o.ExecutorCrash? || o.Timeout? || o.ScopeFailure?
  }

  /**
   What an executor's failure leads to: some end the job, some are repeated until the candidate was
   used too often, some bar it at once, and a resource failure costs nothing unless the request did
   not fit; then the next turn goes by it.
   */
  lemma OutcomeDecides(attempts0: seq<AttemptRow>, decisions0: seq<Decision>, attempts: seq<AttemptRow>,
                       decisions: seq<Decision>, turns: seq<Turn>, forced: Option<Candidate>, sameRetries: int,
                       anew: bool, allowance: int, state: JobState, exit: Exit, i: nat)
    requires Explained(attempts0, decisions0, attempts, decisions, turns, forced, false, sameRetries, anew, allowance,
                       state, exit)
    requires i < |turns| && turns[i].met.ExecutorSaid?
    ensures var o, c := turns[i].met.outcome, turns[i].candidate;
            var tired := Uses(Candidates(turns[..i + 1]), c) > sameRetries;
            && (o.SecurityFailure? || o.PolicyFailure? ==> i == |turns| - 1 && exit == Returned(Blocked))
            && (o.CancelledRun? ==> i == |turns| - 1 && exit == Returned(JobState.Failed))
            && (i + 1 < |turns| ==>
                  && (turns[i].barred <==>
                        Charged(o) || (Mendable(o) && tired) || (o.ResourceFailure? && turns[i].met.incompatible))
                  && (turns[i].barred ==> c in turns[i + 1].avoided)
                  && (Mendable(o) && !tired ==> turns[i + 1].planned == Some(c))
                  && (!turns[i].replayed && (!Mendable(o) || tired) ==> turns[i + 1].planned.None?))
  {
    assert TurnAt(turns, i, forced, false, sameRetries, anew);
    if i + 1 < |turns| {
      NextGoesBy(turns, i, forced, sameRetries, anew);
    }
  }

  /** The next turn is planned, and avoids, as the last one left it. */
  lemma NextGoesBy(turns: seq<Turn>, i: nat, forced: Option<Candidate>, sameRetries: int, anew: bool)
    requires Turns(turns, forced, false, sameRetries, anew) && i + 1 < |turns|
    ensures turns[i + 1].planned == turns[i].plan
    ensures turns[i].barred ==> turns[i].candidate in turns[i + 1].avoided
  {
    assert TurnAt(turns, i + 1, forced, false, sameRetries, anew);
    assert turns[..i + 1][|turns[..i + 1]| - 1] == turns[i];
  }

  /** However the turn came out, it is explained by the turns so far. */
  lemma TurnExplained(attempts0: seq<AttemptRow>, decisions0: seq<Decision>, mid: seq<AttemptRow>,
                      decided: seq<Decision>, f: Follow, used: seq<Candidate>, begun: seq<Decision>, turns: seq<Turn>,
                      forced: Option<Candidate>, ordered: bool, sameRetries: int, anew: bool, allowance: int,
                      turn: Option<Turn>, ended: Option<Exit>, attempts: seq<AttemptRow>, decisions: seq<Decision>,
                      f': Follow, used': seq<Candidate>, begun': seq<Decision>, state: JobState)
      returns (turns': seq<Turn>)
    requires LoopOk(attempts0, decisions0, mid, decided, f, used, begun, turns, forced, ordered, sameRetries, anew)
    requires decisions == decisions0 + begun' && Replayable(attempts, decisions)
    requires turn.None? ==> attempts == mid && decisions == decided && begun' == begun
    requires |turns| < allowance
    requires turn.None? ==> ended == Some(Raised) || (ended == Some(Returned(Blocked)) && state == Blocked)
    requires turn.Some? ==>
               && AfterTurn(mid, decided, f, used, begun, forced, ordered, sameRetries, turn.value, ended, attempts,
                            decisions, f', begun', state)
               && turn.value.first == (anew && turns == []) && used' == used + [turn.value.candidate]
    ensures ended.None? ==>
              && LoopOk(attempts0, decisions0, attempts, decisions, f', used', begun', turns', forced, ordered,
                        sameRetries, anew)
              && |turns'| == |turns| + 1
    ensures ended.Some? ==>
              Explained(attempts0, decisions0, attempts, decisions, turns', forced, ordered, sameRetries, anew,
                        allowance, state, ended.value)
  {
    if turn.None? {
      turns' := turns;
      LoopEnds(attempts0, decisions0, attempts, decisions, f, used, begun, turns, forced, ordered, sameRetries, anew,
               allowance, ended.value, state);
    } else {
      turns' := turns + [turn.value];
      if ended.Some? {
        TurnEnds(attempts0, decisions0, mid, decided, f, used, begun, turns, forced, ordered, sameRetries, anew,
                 allowance, turn.value, ended.value,
                 attempts, f', begun', state);
      } else {
        LoopGoesOn(attempts0, decisions0, mid, decided, f, used, begun, turns, forced, ordered, sameRetries, anew,
                   turn.value, attempts,
                   f', begun', state);
      }
    }
  }

  lemma PlanFollows(met: Met, a: AttemptRow, state: JobState, v: Verdict, ordered: bool, used: seq<Candidate>,
                    sameRetries: int, c: Candidate, f: Follow)
    requires Fits(met, a, state, v) && v.Again? && f.exclude == if v.incompatible then {c} else {}
    ensures FollowUp(v.action, ordered && !v.reviewed, used, sameRetries, c, f) ==
              Follow(NextPlan(met, f.retrySame, c, Uses(used, c), ordered, sameRetries),
                     if Bars(met, Uses(used, c), ordered, sameRetries) then {c} else {})
  {
  }

  class JobRun {
    const limit: int
    const sameRetries: int
    const ordered: bool
    var attempts: seq<AttemptRow>
    var decisions: seq<Decision>
    var state: JobState

    ghost predicate Valid()
      reads this
    {
      Replayable(attempts, decisions)
    }

    constructor (maxAttempts: int, maxRepairs: int, sameRetries: int, ordered: bool)
      ensures Valid() && attempts == [] && decisions == [] && state == Queued
      ensures limit == if maxAttempts <= 1 + maxRepairs then maxAttempts else 1 + maxRepairs
      ensures this.sameRetries == sameRetries && this.ordered == ordered
    {
      limit := if maxAttempts <= 1 + maxRepairs then maxAttempts else 1 + maxRepairs;
      this.sameRetries, this.ordered := sameRetries, ordered;
      attempts, decisions, state := [], [], Queued;
    }

    /** The unique constraint on (job, number) rejects the row. */
    method BeginAttempt(no: nat, c: Candidate, started: int) returns (ok: bool)
      modifies this`attempts
      ensures ok <==> forall i :: 0 <= i < |old(attempts)| ==> old(attempts)[i].no != no
      ensures attempts == if ok then old(attempts) + [AttemptRow(no, c, started, Started, None, [])] else old(attempts)
    {
      for i := 0 to |attempts|
        invariant forall j :: 0 <= j < i ==> attempts[j].no != no
      {
        if attempts[i].no == no {
          return false;
        }
      }
      attempts := attempts + [AttemptRow(no, c, started, Started, None, [])];
      return true;
    }

    method UpdateLast(a: AttemptRow)
      requires Valid() && attempts != [] && SameAttempt(attempts[|attempts| - 1], a)
      modifies this`attempts
      ensures Valid() && OnlyLast(old(attempts), attempts) && attempts[|attempts| - 1] == a
    {
      UpdateKeepsReplayable(attempts, decisions, |attempts| - 1, a);
      attempts := attempts[|attempts| - 1 := a];
    }

    /**
     A persisted decision is replayed; otherwise a candidate is forced, repeated or scheduled. The
     scheduler picks from the candidates usable now, from an excluded one only if there is no other.
     */
    method Choose(no: nat, first: bool, forced: Option<Candidate>, exclude: set<Candidate>,
                  retrySame0: Option<Candidate>, usable: set<Candidate>)
      returns (choice: Choice, mode: Mode, retrySame: Option<Candidate>)
      requires first ==> retrySame0.None?
      ensures retrySame == retrySame0 || retrySame.None?
      ensures choice.Chosen? && DecisionFor(decisions, no).Some? ==>
                choice.candidate == DecisionFor(decisions, no).value.candidate
      ensures choice.Chosen? && DecisionFor(decisions, no).None? && mode.Same? ==>
                retrySame0 == Some(choice.candidate) && retrySame.None?
      ensures choice.Chosen? && DecisionFor(decisions, no).None? && mode.Forced? ==>
                forced == Some(choice.candidate) && first
      ensures choice.Chosen? && DecisionFor(decisions, no).None? && mode.Scheduled? ==>
                choice.candidate in usable && (choice.candidate in exclude ==> usable <= exclude)
      ensures choice.NoCapability? ==> usable == {} && DecisionFor(decisions, no).None?
      ensures DecisionFor(decisions, no).None? && first && forced.Some? ==>
                mode.Forced? && !choice.NoCapability? && (choice.Chosen? ==> choice.candidate == forced.value)
      ensures DecisionFor(decisions, no).None? && !first && retrySame0.Some? ==>
                mode.Same? && !choice.NoCapability? && (choice.Chosen? ==> choice.candidate == retrySame0.value)
      ensures retrySame == if DecisionFor(decisions, no).None? then None else retrySame0
    {
      retrySame, mode := retrySame0, Scheduled;
      var persisted := DecisionFor(decisions, no);
      var available: bool := *;
      if persisted.Some? {
        choice := if available then Chosen(persisted.value.candidate) else Unavailable;
      } else if (forced.Some? && first) || retrySame.Some? {
        var selected := if first then forced.value else retrySame.value;
        mode := if forced.Some? && first then Forced else Same;
        retrySame := None;
        choice := if available then Chosen(selected) else Unavailable;
      } else {
        var missing: bool := *;
        if usable - exclude != {} {
          var c :| c in usable - exclude;
          choice := Chosen(c);
        } else if usable != {} {
          var c :| c in usable;
          choice := Chosen(c);
          forall x | x in usable
            ensures x in exclude
          {
            assert x !in usable - exclude;
          }
        } else {
          choice := if missing then NoCapability else Unavailable;
        }
      }
    }

    /** Executor, verification and reviews of the attempt that has just begun. */
    method Execute(reviewers: nat) returns (v: Verdict, ghost met: Met)
      requires Valid() && attempts != [] && Open(attempts[|attempts| - 1]) && attempts[|attempts| - 1].reviews == []
      requires attempts[|attempts| - 1].verified.None?
      modifies this`attempts, this`state
      ensures Valid() && OnlyLast(old(attempts), attempts)
      ensures Fits(met, attempts[|attempts| - 1], state, v) && !met.Busy?
      ensures !v.Broken? ==> !Open(attempts[|attempts| - 1])
      ensures v.Done? ==> state == v.state && (v.state.Ready? || v.state.Blocked? || v.state.Failed?)
      ensures v == Done(Ready) ==> Green(attempts[|attempts| - 1]) && attempts[|attempts| - 1].status.Passed?
      ensures v.Again? ==> state == Retry
      ensures !v.Occupied?
    {
      var a := attempts[|attempts| - 1];
      var ok: bool, dies: bool, outcome: Outcome, incompatible: bool := *, *, *, *;
      if dies {
        return Broken, Cut;
      }
      if !ok {
        UpdateLast(a.(status := ExecutorFailed));
        dies := *;
        if dies {
          return Broken, Cut;
        }
        met := ExecutorSaid(outcome, incompatible);
        var action := PolicyFor(outcome);
        if action.Block? || action.Terminal? {
          state := if action.Block? then Blocked else JobState.Failed;
          return Done(state), met;
        }
        state := Retry;
        return Again(action, false, incompatible && outcome.ResourceFailure?), met;
      }
      v, met := Verify();
      if v == Done(Ready) {
        v, met := Review(reviewers);
      }
      if v == Done(Ready) {
        met := Cut;
        dies := *;
        if dies {
          return Broken, met;
        }
        UpdateLast(attempts[|attempts| - 1].(status := Passed));
        dies := *;
        if dies {
          return Broken, met;
        }
        state, met := Ready, AllGreen;
      }
    }

    /** The verifier's gate; `Done(Ready)` means the attempt may go on. */
    method Verify() returns (v: Verdict, ghost met: Met)
      requires Valid() && attempts != [] && Open(attempts[|attempts| - 1]) && attempts[|attempts| - 1].reviews == []
      modifies this`attempts, this`state
      ensures Valid() && OnlyLast(old(attempts), attempts)
      ensures v == Done(Ready) ==> Open(attempts[|attempts| - 1]) && Green(attempts[|attempts| - 1])
      ensures v.Done? && v != Done(Ready) ==> v == Done(Blocked) && state == Blocked && !Open(attempts[|attempts| - 1])
      ensures v.Again? ==> state == Retry && !Open(attempts[|attempts| - 1])
      ensures v != Done(Ready) ==> Fits(met, attempts[|attempts| - 1], state, v) && (met.VerifierSaid? || met.Cut?)
      ensures !v.Occupied?
    {
      met := Cut;
      var a := attempts[|attempts| - 1];
      var green: bool, dies: bool, outcome: Outcome := *, *, *;
      state := Verifying;
      if dies {
        return Broken, met;
      }
      a := a.(verified := Some(green));
      UpdateLast(a);
      dies := *;
      if dies {
        return Broken, met;
      }
      if green {
        return Done(Ready), met;
      }
      ghost var mid := attempts;
      UpdateLast(a.(status := VerifyFailed));
      OnlyLastTwice(old(attempts), mid, attempts);
      dies := *;
      if dies {
        return Broken, met;
      }
      met := VerifierSaid(outcome);
      if PolicyFor(outcome).Block? {
        state := Blocked;
        return Done(Blocked), met;
      }
      state := Retry;
      return Again(PolicyFor(outcome), false, false), met;
    }

    /** Independent reviews, up to the first rejection; `Done(Ready)` means none rejected. */
    method Review(reviewers: nat) returns (v: Verdict, ghost met: Met)
      requires Valid() && attempts != [] && Open(attempts[|attempts| - 1]) && Green(attempts[|attempts| - 1])
      modifies this`attempts, this`state
      ensures Valid() && OnlyLast(old(attempts), attempts)
      ensures v.Done? ==> v == Done(Ready) && Open(attempts[|attempts| - 1]) && Green(attempts[|attempts| - 1])
      ensures v.Again? ==> state == Retry && !Open(attempts[|attempts| - 1])
      ensures v != Done(Ready) ==> Fits(met, attempts[|attempts| - 1], state, v) && (met.ReviewerRejected? || met.Cut?)
      ensures !v.Occupied?
    {
      met := Cut;
      if reviewers > 0 {
        state := Reviewing;
      }
      for i := 0 to reviewers
        invariant Valid() && OnlyLast(old(attempts), attempts)
        invariant Open(attempts[|attempts| - 1]) && Green(attempts[|attempts| - 1])
      {
        var a := attempts[|attempts| - 1];
        var approves: bool, dies: bool := *, *;
        if dies {
          return Broken, met;
        }
        a := a.(reviews := a.reviews + [approves]);
        UpdateLast(a);
        dies := *;
        if dies {
          return Broken, met;
        }
        if !approves {
          UpdateLast(a.(status := ReviewFailed));
          dies := *;
          if dies {
            return Broken, met;
          }
          state := Retry;
          return Again(PolicyFor(Outcome.ReviewFailure), true, false), ReviewerRejected;
        }
      }
      return Done(Ready), met;
    }

    /** Choose a candidate for attempt `no`, record the decision unless it is a replayed one, and note the use. */
    method Decide(no: nat, first: bool, forced: Option<Candidate>, f: Follow, used: seq<Candidate>,
                  ghost earlier: seq<Decision>, ghost begun: seq<Decision>)
      returns (choice: Choice, f': Follow, used': seq<Candidate>, ghost begun': seq<Decision>, ghost turn: Turn)
      requires Valid() && no == |attempts| + 1 && (first ==> f.retrySame.None?)
      requires decisions == earlier + begun && RepeatsOk(begun, used, f.retrySame, sameRetries)
      modifies this`decisions
      ensures Valid() && decisions == earlier + begun'
      ensures choice.Chosen? ==>
                && Decided(decisions, no, choice.candidate)
                && JustUsed(begun', used', f'.retrySame, sameRetries, choice.candidate)
      ensures choice.Chosen? ==>
                && turn.first == first && turn.planned == f.retrySame && turn.candidate == choice.candidate
                && turn.replayed == DecisionFor(old(decisions), no).Some? && turn.met.Cut?
                && ChosenAsPlanned(turn, forced) && used' == used + [choice.candidate]
                && turn.avoided == Excluded(f, used, sameRetries)
                && f' == Follow(if turn.replayed then f.retrySame else None, {})
      ensures choice.Chosen? ==>
                if turn.replayed then begun' == begun else begun' == begun + [Decision(no, turn.candidate, turn.mode)]
      ensures !choice.Chosen? ==> begun' == begun
      ensures choice.NoCapability? && DecisionFor(old(decisions), no).None? ==> (first ==> forced.None?) && f.retrySame.None?
      ensures f'.retrySame == f.retrySame || f'.retrySame.None?
    {
      var exclude := f.exclude;
      if used != [] && |used| >= sameRetries {
        exclude := exclude + {used[|used| - 1]};
      }
      var mode, same;
      var usable: set<Candidate> := *;
      choice, mode, same := Choose(no, first, forced, exclude, f.retrySame, usable);
      f', used', begun' := Follow(same, {}), used, begun;
      if choice.Chosen? {
        var c := choice.candidate;
        var recorded: Option<Decision> := None;
        turn := Turn(first, f.retrySame, exclude, usable, DecisionFor(decisions, no).Some?, c, mode, Cut, None, false);
        if DecisionFor(decisions, no).None? {
          recorded := Some(Decision(no, c, mode));
          DecisionKeepsReplayable(attempts, decisions, recorded.value);
          Appended(earlier, begun, recorded.value);
          decisions := decisions + [recorded.value];
          begun' := begun + [recorded.value];
        }
        UseOnce(begun, used, f.retrySame, sameRetries, recorded, c, same);
        used' := used + [c];
      } else {
        turn := *;
      }
    }

    /** One attempt: its row, its resource, then the executor and the gates. */
    method Attempt(no: nat, c: Candidate, reviewers: nat) returns (v: Verdict, ghost met: Met)
      requires Valid() && no == |attempts| + 1 && Decided(decisions, no, c)
      modifies this`attempts, this`state
      ensures Valid() && Extends(old(attempts), attempts) && |attempts| <= |old(attempts)| + 1
      ensures |attempts| > |old(attempts)| ==> attempts[|old(attempts)|].candidate == c
      ensures met.Cut? <==> v.Broken?
      ensures !met.Cut? ==> |attempts| == |old(attempts)| + 1 && Fits(met, attempts[|attempts| - 1], state, v)
      ensures !v.Broken? ==> |attempts| == |old(attempts)| + 1 && !Open(attempts[|attempts| - 1])
      ensures v.Done? ==> state == v.state && (v.state.Ready? || v.state.Blocked? || v.state.Failed?)
      ensures v == Done(Ready) ==> Green(attempts[|attempts| - 1]) && attempts[|attempts| - 1].status.Passed?
    {
      var dies: bool, occupied: bool, started: int := *, *, *;
      if dies {
        return Broken, Cut;
      }
      state := Running;
      MayBegin(attempts, decisions, AttemptRow(no, c, started, Started, None, []));
      var ok := BeginAttempt(no, c, started);
      assert ok;
      ghost var begun := attempts;
      dies := *;
      if dies {
        return Broken, Cut;
      }
      if occupied {
        UpdateLast(attempts[|attempts| - 1].(status := ExecutorFailed));
        dies := *;
        if dies {
          v, met := Broken, Cut;
        } else {
          state, v, met := Retry, Occupied, Busy;
        }
      } else {
        v, met := Execute(reviewers);
      }
      OneMoreAttempt(old(attempts), begun, attempts);
    }

    /** One attempt, and the flags it leaves for the next turn. */
    method AttemptAndFollow(no: nat, c: Candidate, reviewers: nat, f: Follow, used: seq<Candidate>,
                            ghost begun: seq<Decision>)
      returns (exit: Option<Exit>, f': Follow, ghost met: Met)
      requires Valid() && no == |attempts| + 1 && Decided(decisions, no, c)
      requires JustUsed(begun, used, f.retrySame, sameRetries, c) && f.exclude == {}
      modifies this`attempts, this`state
      ensures Valid() && Extends(old(attempts), attempts) && |attempts| <= |old(attempts)| + 1
      ensures |attempts| > |old(attempts)| ==> attempts[|old(attempts)|].candidate == c
      ensures !met.Cut? ==> |attempts| == |old(attempts)| + 1 && !Open(attempts[|attempts| - 1])
      ensures ExitFits(exit, met, attempts, state)
      ensures exit.None? ==>
                && RepeatsOk(begun, used, f'.retrySame, sameRetries)
                && f' == Follow(NextPlan(met, f.retrySame, c, Uses(used, c), ordered, sameRetries),
                                if Bars(met, Uses(used, c), ordered, sameRetries) then {c} else {})
    {
      var v;
      v, met := Attempt(no, c, reviewers);
      exit, f' := None, f;
      match v {
        case Done(s) => exit := Some(Returned(s));
        case Broken => exit := Some(Raised);
        case Occupied =>
        case Again(action, reviewed, incompatible) =>
          var flags := if incompatible then f.(exclude := f.exclude + {c}) else f;
          FollowUpKeepsRepeats(begun, used, flags, sameRetries, c, action, ordered && !reviewed);
          PlanFollows(met, attempts[|attempts| - 1], state, v, ordered, used, sameRetries, c, flags);
          f' := FollowUp(action, ordered && !reviewed, used, sameRetries, c, flags);
      }
    }

    /** One turn of the loop; no turn is taken if no candidate can be had. */
    method TakeTurn(forced: Option<Candidate>, f: Follow, used: seq<Candidate>, reviewers: nat, first: bool,
                    ghost decisions0: seq<Decision>, ghost begun: seq<Decision>)
      returns (exit: Option<Exit>, f': Follow, used': seq<Candidate>, ghost begun': seq<Decision>, ghost turn: Option<Turn>)
      requires Valid() && decisions == decisions0 + begun && RepeatsOk(begun, used, f.retrySame, sameRetries)
      requires first ==> f.retrySame.None?
      modifies this`attempts, this`decisions, this`state
      ensures Valid() && decisions == decisions0 + begun' && RepeatsAtMost(begun', AtLeastZero(sameRetries))
      ensures |old(attempts)| <= |attempts| <= |old(attempts)| + 1
      ensures turn.None? ==> attempts == old(attempts) && decisions == old(decisions) && begun' == begun
      ensures turn.None? ==> exit == Some(Raised) || (exit == Some(Returned(Blocked)) && state == Blocked)
      ensures turn.Some? ==>
                && AfterTurn(old(attempts), old(decisions), f, used, begun, forced, ordered, sameRetries, turn.value,
                             exit, attempts,
                             decisions, f', begun', state)
                && turn.value.first == first && used' == used + [turn.value.candidate]
    {
      RepeatsBound(begun, used, f.retrySame, sameRetries);
      ghost var mid, decided := attempts, decisions;
      var choice;
      ghost var t;
      choice, f', used', begun', t := Decide(|attempts| + 1, first, forced, f, used, decisions0, begun);
      turn := None;
      if !choice.Chosen? {
        if choice.NoCapability? {
          state := Blocked;
          return Some(Returned(Blocked)), f', used', begun', turn;
        }
        return Some(Raised), f', used', begun', turn;
      }
      RepeatsBound(begun', used', f'.retrySame, sameRetries);
      ghost var met;
      exit, f', met := AttemptAndFollow(|attempts| + 1, choice.candidate, reviewers, f', used', begun');
      t := IsAfterTurn(mid, decided, f, used, begun, forced, ordered, sameRetries, t, met, exit, attempts, decisions,
                       f', begun', state);
      turn := Some(t);
    }

    /** The body of the loop, with the turns so far. */
    method NextTurn(forced: Option<Candidate>, f: Follow, used: seq<Candidate>, reviewers: nat, first: bool,
                    ghost attempts0: seq<AttemptRow>, ghost decisions0: seq<Decision>, ghost begun: seq<Decision>,
                    ghost turns: seq<Turn>, ghost anew: bool, ghost allowance: int)
      returns (exit: Option<Exit>, f': Follow, used': seq<Candidate>, ghost begun': seq<Decision>, ghost turns': seq<Turn>)
      requires LoopOk(attempts0, decisions0, attempts, decisions, f, used, begun, turns, forced, ordered, sameRetries, anew)
      requires first == (anew && turns == []) && |turns| < allowance
      modifies this`attempts, this`decisions, this`state
      ensures exit.None? ==>
                && LoopOk(attempts0, decisions0, attempts, decisions, f', used', begun', turns', forced, ordered,
                          sameRetries, anew)
                && |turns'| == |turns| + 1
      ensures exit.Some? ==> Valid() && decisions == decisions0 + begun' && RepeatsAtMost(begun', AtLeastZero(sameRetries))
      ensures exit.Some? ==>
                Explained(attempts0, decisions0, attempts, decisions, turns', forced, ordered, sameRetries, anew,
                          allowance, state, exit.value)
    {
      ghost var mid, decided := attempts, decisions;
      ghost var turn;
      exit, f', used', begun', turn := TakeTurn(forced, f, used, reviewers, first, decisions0, begun);
      turns' := TurnExplained(attempts0, decisions0, mid, decided, f, used, begun, turns, forced, ordered,
                              sameRetries, anew, allowance,
                              turn, exit, attempts, decisions, f', used', begun', state);
    }

    /**
     `_run_job_locked` for one job under its lease. `limit` is min(max_attempts, 1 + max_repairs);
     at any statement the process may die or an exception may be raised.
     */
    method RunJob(forced: Option<Candidate>, feedback: Option<int>, reviewers: nat)
      returns (exit: Exit, ghost begun: seq<Decision>, ghost turns: seq<Turn>)
      requires Valid()
      modifies this`attempts, this`decisions, this`state
      ensures Valid()
      ensures decisions == old(decisions) + begun
      ensures RepeatsAtMost(begun, AtLeastZero(sameRetries))
      ensures Explained(old(attempts), old(decisions), attempts, decisions, turns, forced, ordered, sameRetries,
                        Since(old(attempts), feedback) == 0, limit - Since(old(attempts), feedback), state, exit)
    {
      var cycle0 := Since(attempts, feedback);
      var cycle, used: seq<Candidate>, f := cycle0, [], Follow(None, {});
      ghost var attempts0, decisions0 := attempts, decisions;
      begun, turns := [], [];
      LoopBegins(attempts, decisions, forced, ordered, sameRetries, cycle0 == 0);
      while cycle < limit
        invariant LoopOk(attempts0, decisions0, attempts, decisions, f, used, begun, turns, forced, ordered, sameRetries,
                         cycle0 == 0)
        invariant cycle - cycle0 == |turns| && cycle0 <= cycle <= Max(cycle0, limit)
      {
        var exhausted: bool := *;
        if exhausted {
          break;
        }
        var ended;
        ended, f, used, begun, turns := NextTurn(forced, f, used, reviewers, cycle == 0, attempts0, decisions0, begun,
                                                 turns, cycle0 == 0, limit - cycle0);
        if ended.Some? {
          return ended.value, begun, turns;
        }
        cycle := cycle + 1;
      }
      state := JobState.Failed;
      LoopEnds(attempts0, decisions0, attempts, decisions, f, used, begun, turns, forced, ordered, sameRetries,
               cycle0 == 0, limit - cycle0, Returned(JobState.Failed), state);
      return Returned(JobState.Failed), begun, turns;
    }
  }

  lemma OneMoreAttempt(before: seq<AttemptRow>, begun: seq<AttemptRow>, after: seq<AttemptRow>)
    requires |begun| == |before| + 1 && begun[..|before|] == before && OnlyLast(begun, after)
    ensures Extends(before, after)
  {
  }

  lemma ExtendsMore(first: seq<AttemptRow>, before: seq<AttemptRow>, after: seq<AttemptRow>)
    requires Extends(first, before) && Extends(before, after) && |after| <= |before| + 1
    requires AllClosed(before, |first|, |before|)
    ensures Extends(first, after) && AllClosed(after, |first|, |after| - 1)
    ensures |after| > |before| && !Open(after[|after| - 1]) ==> AllClosed(after, |first|, |after|)
  {
    assert after[..|first|] == after[..|before|][..|first|];
    forall i | |first| <= i < |after| && i < |before|
      ensures !Open(after[i])
    {
      assert after[i] == after[..|before|][i] == before[i];
    }
  }

  /** No candidate is repeated through `retry_same` more than `n` times. */
  ghost predicate RepeatsAtMost(begun: seq<Decision>, n: nat) {
    forall c {:trigger Repeats(begun, c)} :: Repeats(begun, c) <= n
  }

  lemma RepeatsBound(begun: seq<Decision>, used: seq<Candidate>, retrySame: Option<Candidate>, sameRetries: int)
    requires RepeatsOk(begun, used, retrySame, sameRetries)
    ensures RepeatsAtMost(begun, AtLeastZero(sameRetries))
  {
    forall c
      ensures Repeats(begun, c) <= AtLeastZero(sameRetries)
    {
      assert Planned(begun, retrySame, c) <= AtLeastZero(sameRetries);
    }
  }

  function Max(a: int, b: int): (m: int) {
    if a < b then b else a
  }

  /** The attempts of the cycle: those started after the latest feedback, or all of them. */
  function InCycle(attempts: seq<AttemptRow>, feedback: Option<int>): (numbers: set<nat>) {
    set i: nat | i < |attempts| && (feedback.None? || attempts[i].started > feedback.value)
  }

  lemma {:induction false} SinceCountsCycle(attempts: seq<AttemptRow>, feedback: Option<int>)
    ensures Since(attempts, feedback) == |InCycle(attempts, feedback)|
  {
    if attempts == [] {
      assert InCycle(attempts, feedback) == {};
    } else {
      var n, front := |attempts| - 1, attempts[..|attempts| - 1];
      SinceCountsCycle(front, feedback);
      assert InCycle(front, feedback) == InCycle(attempts, feedback) - {n};
    }
  }

  /** With at most the remaining allowance of new attempts, the feedback cycle stays within its bound. */
  lemma CycleStaysBounded(before: seq<AttemptRow>, after: seq<AttemptRow>, feedback: Option<int>, limit: int)
    requires Extends(before, after) && |after| <= |before| + AtLeastZero(limit - Since(before, feedback))
    ensures |InCycle(after, feedback)| <= Max(|InCycle(before, feedback)|, limit)
  {
    SinceGrows(before, after, feedback);
    SinceCountsCycle(before, feedback);
    SinceCountsCycle(after, feedback);
  }

  ghost predicate Extends(before: seq<AttemptRow>, after: seq<AttemptRow>) {
    |before| <= |after| && after[..|before|] == before
  }

  ghost predicate AllClosed(attempts: seq<AttemptRow>, lo: int, hi: int) {
    forall i {:trigger Open(attempts[i])} :: 0 <= lo <= i < hi <= |attempts| ==> !Open(attempts[i])
  }

  lemma {:induction false} SinceGrows(before: seq<AttemptRow>, after: seq<AttemptRow>, feedback: Option<int>)
    requires Extends(before, after)
    ensures Since(before, feedback) <= Since(after, feedback) <= Since(before, feedback) + |after| - |before|
    decreases |after|
  {
    if |after| == |before| {
      assert after == before;
    } else {
      var front := after[..|after| - 1];
      assert front[..|before|] == before;
      SinceGrows(before, front, feedback);
    }
  }
}
