/** Repair of what a dead controller left half-done: one transaction over six tables. */
module Recovery {
  import opened Wrappers
  import opened Graph
  import opened Program

  datatype AttemptStatus = Started | Passed | ExecutorFailed | VerifyFailed | ReviewFailed | Withdrawn

  datatype Attempt = Attempt(job: Key, no: nat, status: AttemptStatus, error: Option<string>, outcome: Option<string>)

  datatype RequestState = Reserved | Sent | Succeeded | Failed

  datatype Request = Request(attempt: nat, state: RequestState, error: Option<string>)

  datatype Quota = Quota(job: Key, reserved: bool, tokens: int)

  datatype ResourceLease = ResourceLease(resource: string, job: Key, expires: real)

  datatype Credential = Credential(job: Key, reserved: bool)

  /** The tables recovery touches, and the credential reservations it does not. An attempt's id is its index. */
  datatype Database = Database(jobs: map<Key, JobState>, leases: map<Key, real>, attempts: seq<Attempt>, requests: seq<Request>,
                           quotas: seq<Quota>, resources: set<ResourceLease>, credentials: seq<Credential>)

  predicate LapsedJob(db: Database, now: real, j: Key) {
    j in db.jobs && InFlight(db.jobs[j]) && (j !in db.leases || db.leases[j] < now)
  }

  function Lapsed(db: Database, now: real): (js: set<Key>) {
    set j | j in db.jobs && LapsedJob(db, now, j)
  }

  predicate HasPassed(attempts: seq<Attempt>, j: Key) {
    exists i :: 0 <= i < |attempts| && attempts[i].job == j && attempts[i].status.Passed?
  }

  function CountOf(attempts: seq<Attempt>, j: Key): (n: nat) {
    if attempts == [] then 0
    else CountOf(attempts[..|attempts| - 1], j) + if attempts[|attempts| - 1].job == j then 1 else 0
  }

  function StateAfter(attempts: seq<Attempt>, j: Key, maxAttempts: int): (s: JobState) {
    if HasPassed(attempts, j) then Ready else if CountOf(attempts, j) >= maxAttempts then JobState.Failed else Retry
  }

  const LAPSED := "controller lease expired; recovered after restart"
  const REQUEST_LAPSED := "controller lease expired"

  function Coalesce(error: Option<string>, text: string): (e: Option<string>) {
    if error.Some? then error else Some(text)
  }

  function CloseAttempt(a: Attempt, js: set<Key>): (a': Attempt) {
    if a.job in js && a.status.Started?
    then a.(status := ExecutorFailed, error := Coalesce(a.error, LAPSED), outcome := Some("RESOURCE_FAILURE")) else a
  }

  function CloseRequest(r: Request, attempts: seq<Attempt>, js: set<Key>): (r': Request) {
    if r.attempt < |attempts| && attempts[r.attempt].job in js && attempts[r.attempt].status.Started?
      && (r.state.Reserved? || r.state.Sent?)
    then r.(state := RequestState.Failed, error := Coalesce(r.error, REQUEST_LAPSED)) else r
  }

  function CloseQuota(q: Quota, js: set<Key>): (q': Quota) {
    if q.job in js && q.reserved then q.(reserved := false, tokens := 0) else q
  }

  /** Repair of the jobs `js` at once: what the loop over the lapsed jobs amounts to. */
  function Repaired(db: Database, js: set<Key>, maxAttempts: int): (db': Database)
    requires js <= db.jobs.Keys
  {
    Database((map j | j in db.jobs :: if j in js then StateAfter(db.attempts, j, maxAttempts) else db.jobs[j]),
           db.leases - js,
           seq(|db.attempts|, i requires 0 <= i < |db.attempts| => CloseAttempt(db.attempts[i], js)),
           seq(|db.requests|, i requires 0 <= i < |db.requests| => CloseRequest(db.requests[i], db.attempts, js)),
           seq(|db.quotas|, i requires 0 <= i < |db.quotas| => CloseQuota(db.quotas[i], js)),
           (set r | r in db.resources && r.job !in js), db.credentials)
  }

  /** The two closing statements: lapsed leases go, whatever the state of their job. */
  function WithoutLapsed(db: Database, now: real): (db': Database) {
    db.(leases := (map j | j in db.leases && !(db.leases[j] < now) :: db.leases[j]),
        resources := (set r | r in db.resources && !(r.expires < now)))
  }

  function RecoverExpired(db: Database, now: real, maxAttempts: int): (db': Database) {
    WithoutLapsed(Repaired(db, Lapsed(db, now), maxAttempts), now)
  }

  lemma {:induction false} ClosingKeepsCount(before: seq<Attempt>, after: seq<Attempt>, js: set<Key>, j: Key)
    requires |after| == |before| && forall i :: 0 <= i < |before| ==> after[i] == CloseAttempt(before[i], js)
    ensures CountOf(after, j) == CountOf(before, j)
  {
    if before != [] {
      ClosingKeepsCount(before[..|before| - 1], after[..|after| - 1], js, j);
    }
  }

  lemma ClosingKeepsPassed(before: seq<Attempt>, after: seq<Attempt>, js: set<Key>, j: Key)
    requires |after| == |before| && forall i :: 0 <= i < |before| ==> after[i] == CloseAttempt(before[i], js)
    ensures HasPassed(after, j) <==> HasPassed(before, j)
  {
    if i :| 0 <= i < |before| && before[i].job == j && before[i].status.Passed? {
      assert after[i].status.Passed?;
    }
    if i :| 0 <= i < |after| && after[i].job == j && after[i].status.Passed? {
      assert before[i].status.Passed?;
    }
  }

  /** One more turn of the loop: repairing `js` and then `j` is repairing them together. */
  lemma RepairOneMore(db: Database, js: set<Key>, j: Key, maxAttempts: int)
    requires js <= db.jobs.Keys && j in db.jobs && j !in js
    ensures Repaired(Repaired(db, js, maxAttempts), {j}, maxAttempts) == Repaired(db, js + {j}, maxAttempts)
  {
    var mid := Repaired(db, js, maxAttempts);
    var once := Repaired(mid, {j}, maxAttempts);
    var both := Repaired(db, js + {j}, maxAttempts);
    ClosingKeepsCount(db.attempts, mid.attempts, js, j);
    ClosingKeepsPassed(db.attempts, mid.attempts, js, j);
    assert once.jobs == both.jobs && once.leases == both.leases && once.resources == both.resources;
    assert once.attempts == both.attempts;
    assert once.quotas == both.quotas;
    RequestsOneMore(db, js, j, maxAttempts);
  }

  lemma RequestsOneMore(db: Database, js: set<Key>, j: Key, maxAttempts: int)
    requires js <= db.jobs.Keys && j in db.jobs && j !in js
    ensures Repaired(Repaired(db, js, maxAttempts), {j}, maxAttempts).requests == Repaired(db, js + {j}, maxAttempts).requests
  {
    var mid := Repaired(db, js, maxAttempts);
    forall i | 0 <= i < |db.requests|
      ensures CloseRequest(mid.requests[i], mid.attempts, {j}) == CloseRequest(db.requests[i], db.attempts, js + {j})
    {
      var r := db.requests[i];
      if r.attempt < |db.attempts| {
        assert mid.attempts[r.attempt] == CloseAttempt(db.attempts[r.attempt], js);
      }
    }
  }

  lemma RepairNone(db: Database, maxAttempts: int)
    ensures Repaired(db, {}, maxAttempts) == db
  {
    var same := Repaired(db, {}, maxAttempts);
    assert same.jobs == db.jobs && same.leases == db.leases && same.resources == db.resources;
    assert same.attempts == db.attempts && same.requests == db.requests && same.quotas == db.quotas;
  }

  class Store {
    var db: Database

    constructor (db: Database)
      ensures this.db == db
    {
      this.db := db;
    }

    /** One iteration of the loop: the updates of one job, in the order of the program. */
    method RepairJob(j: Key, maxAttempts: int)
      requires j in db.jobs
      modifies this
      ensures db == Repaired(old(db), {j}, maxAttempts)
    {
      var attempts, requests := db.attempts, db.requests;
      var state := StateAfter(attempts, j, maxAttempts);
      db := db.(attempts := seq(|attempts|, i requires 0 <= i < |attempts| => CloseAttempt(attempts[i], {j})));
      db := db.(jobs := db.jobs[j := state]);
      db := db.(resources := (set r | r in db.resources && r.job !in {j}));
      var quotas := db.quotas;
      db := db.(quotas := seq(|quotas|, i requires 0 <= i < |quotas| => CloseQuota(quotas[i], {j})));
      db := db.(requests := seq(|requests|, i requires 0 <= i < |requests| => CloseRequest(requests[i], attempts, {j})));
      db := db.(leases := db.leases - {j});
      assert db.jobs == Repaired(old(db), {j}, maxAttempts).jobs;
    }

    method RecoverExpiredLeases(now: real, maxAttempts: int) returns (recovered: seq<Key>)
      modifies this
      ensures db == RecoverExpired(old(db), now, maxAttempts)
      ensures Distinct(recovered)
      ensures forall j :: j in recovered <==>
                && j in old(db).jobs && old(db).jobs[j] in {Running, Verifying, Reviewing}
                && (j !in old(db).leases || old(db).leases[j] < now)
    {
      ghost var db0 := db;
      var rows := Lapsed(db, now);
      recovered := [];
      ghost var js: set<Key> := {};
      RepairNone(db, maxAttempts);
      while rows != {}
        invariant js + rows == Lapsed(db0, now) && js !! rows
        invariant db == Repaired(db0, js, maxAttempts)
        invariant Distinct(recovered) && forall j :: j in recovered <==> j in js
        decreases rows
      {
        var j :| j in rows;
        RepairJob(j, maxAttempts);
        RepairOneMore(db0, js, j, maxAttempts);
        recovered := recovered + [j];
        rows, js := rows - {j}, js + {j};
      }
      assert js == Lapsed(db0, now);
      db := WithoutLapsed(db, now);
    }
  }

  /** Nothing of a recovered job is left open. */
  ghost predicate Closed(db: Database, j: Key) {
    && j !in db.leases && (j in db.jobs ==> !InFlight(db.jobs[j]))
    && (forall i :: 0 <= i < |db.attempts| && db.attempts[i].job == j ==> !db.attempts[i].status.Started?)
    && (forall i :: 0 <= i < |db.quotas| && db.quotas[i].job == j ==> !db.quotas[i].reserved)
    && (forall r :: r in db.resources ==> r.job != j)
  }

  /**
   Exactness for a lapsed job: its state is READY if an attempt was ready, else FAILED at the limit,
   else RETRY; no running attempt, reserved quota, resource lease or open request of an interrupted
   attempt is left. Attempts are closed, never added. Credential reservations stay as they were.
   */
  lemma LapsedIsRepaired(db: Database, now: real, maxAttempts: int, j: Key)
    requires LapsedJob(db, now, j)
    ensures var db' := RecoverExpired(db, now, maxAttempts);
            && Closed(db', j) && |db'.attempts| == |db.attempts| && db'.credentials == db.credentials
            && db'.jobs[j] == (if HasPassed(db.attempts, j) then Ready
                               else if CountOf(db.attempts, j) >= maxAttempts then JobState.Failed else Retry)
            && (HasPassed(db'.attempts, j) <==> HasPassed(db.attempts, j))
            && CountOf(db'.attempts, j) == CountOf(db.attempts, j)
            && forall i :: 0 <= i < |db.requests| && db.requests[i].attempt < |db.attempts|
                 && db.attempts[db.requests[i].attempt].job == j && db.attempts[db.requests[i].attempt].status.Started?
                 ==> db'.requests[i].state.Failed? || db'.requests[i].state.Succeeded?
  {
    var db' := RecoverExpired(db, now, maxAttempts);
    assert j in Lapsed(db, now);
    ClosingKeepsCount(db.attempts, db'.attempts, Lapsed(db, now), j);
    ClosingKeepsPassed(db.attempts, db'.attempts, Lapsed(db, now), j);
  }

  /** What happens to each row: only rows of lapsed jobs are closed, and lapsed leases go whoever holds them. */
  lemma EachRowAfterRecovery(db: Database, now: real, maxAttempts: int)
    ensures var db' := RecoverExpired(db, now, maxAttempts);
            && |db'.attempts| == |db.attempts| && |db'.requests| == |db.requests| && |db'.quotas| == |db.quotas|
            && (forall i :: 0 <= i < |db.attempts| ==>
                  var a := db.attempts[i];
                  db'.attempts[i] == if LapsedJob(db, now, a.job) && a.status.Started?
                                     then Attempt(a.job, a.no, ExecutorFailed,
                                                  Some(if a.error.Some? then a.error.value else LAPSED),
                                                  Some("RESOURCE_FAILURE"))
                                     else a)
            && (forall i :: 0 <= i < |db.quotas| ==>
                  var q := db.quotas[i];
                  db'.quotas[i] == if LapsedJob(db, now, q.job) && q.reserved then Quota(q.job, false, 0) else q)
            && (forall j :: j in db'.leases <==> j in db.leases && db.leases[j] >= now && !LapsedJob(db, now, j))
            && (forall r :: r in db'.resources <==> r in db.resources && r.expires >= now && !LapsedJob(db, now, r.job))
  {
    assert forall j :: j in Lapsed(db, now) <==> LapsedJob(db, now, j);
  }

  /** An open request of an interrupted attempt of a lapsed job fails; every other request stays as it was. */
  lemma EachRequestAfterRecovery(db: Database, now: real, maxAttempts: int, i: nat)
    requires i < |db.requests|
    ensures var db', r := RecoverExpired(db, now, maxAttempts), db.requests[i];
            var interrupted := r.attempt < |db.attempts| && db.attempts[r.attempt].status.Started?
              && LapsedJob(db, now, db.attempts[r.attempt].job);
            && i < |db'.requests|
            && (interrupted && (r.state.Reserved? || r.state.Sent?) ==>
                  && db'.requests[i].attempt == r.attempt && db'.requests[i].state == RequestState.Failed
                  && db'.requests[i].error == Some(if r.error.Some? then r.error.value else REQUEST_LAPSED))
            && (!interrupted || r.state.Succeeded? || r.state.Failed? ==> db'.requests[i] == r)
  {
    assert forall j :: j in Lapsed(db, now) <==> LapsedJob(db, now, j);
  }

  /** A job with a live lease, or not in flight, keeps its state, attempts, requests and quotas. */
  lemma OthersAreKept(db: Database, now: real, maxAttempts: int, j: Key)
    requires j in db.jobs && !LapsedJob(db, now, j)
    ensures var db' := RecoverExpired(db, now, maxAttempts);
            && db'.jobs[j] == db.jobs[j]
            && (forall i :: 0 <= i < |db.attempts| && db.attempts[i].job == j ==> db'.attempts[i] == db.attempts[i])
            && (forall i ::
                  0 <= i < |db.requests| && db.requests[i].attempt < |db.attempts|
                  && db.attempts[db.requests[i].attempt].job == j
                  ==> db'.requests[i] == db.requests[i])
            && (forall i :: 0 <= i < |db.quotas| && db.quotas[i].job == j ==> db'.quotas[i] == db.quotas[i])
            && (j in db.leases && !(db.leases[j] < now) ==> j in db'.leases && db'.leases[j] == db.leases[j])
            && (forall r :: r in db.resources && r.job == j && !(r.expires < now) ==> r in db'.resources)
  {
    assert j !in Lapsed(db, now);
  }

  /** A second pass at the same time finds nothing and changes nothing. */
  lemma RecoveryIsIdempotent(db: Database, now: real, maxAttempts: int)
    ensures var db' := RecoverExpired(db, now, maxAttempts);
            Lapsed(db', now) == {} && RecoverExpired(db', now, maxAttempts) == db'
  {
    var db' := RecoverExpired(db, now, maxAttempts);
    forall j
      ensures !LapsedJob(db', now, j)
    {
      if LapsedJob(db, now, j) {
        LapsedIsRepaired(db, now, maxAttempts, j);
      } else if j in db.jobs {
        OthersAreKept(db, now, maxAttempts, j);
      }
    }
    assert Lapsed(db', now) == {};
    RepairNone(db', maxAttempts);
    var again := WithoutLapsed(db', now);
    assert again.leases == db'.leases && again.resources == db'.resources;
  }

  /** A ready attempt counts even if it was rejected later: the attempt that died does not matter. */
  lemma RecoveryRevivesRejectedWork(j: Key, now: real, maxAttempts: int)
    ensures var db := Database(map[j := Running], map[],
                               [Attempt(j, 1, Passed, None, Some("SUCCESS")), Attempt(j, 2, Started, None, None)],
                               [], [], {}, []);
            var db' := RecoverExpired(db, now, maxAttempts);
            j in db'.jobs && db'.jobs[j].Ready? && db'.attempts[1].status.ExecutorFailed?
  {
    var db := Database(map[j := Running], map[],
                       [Attempt(j, 1, Passed, None, Some("SUCCESS")), Attempt(j, 2, Started, None, None)],
                       [], [], {}, []);
    assert db.attempts[0].job == j && db.attempts[0].status.Passed?;
    assert j in Lapsed(db, now);
  }
}
