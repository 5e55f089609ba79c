/** The single-writer board: one working task per project, whatever operations are applied. */
module Kanban {
  import opened Wrappers

  datatype TaskId = TaskId(name: string)
  datatype Project = Project(name: string)
  type Commit = nat

  datatype State = Backlog | Ready | Working | Checkpointed | NeedsRepair | Blocked | Done
  datatype Smoke = Pass | Warning | Fatal

  datatype Task = Task(project: Project, state: State, checkpoint: Option<Commit>, smoke: Option<Smoke>, created: nat)

  type Board = map<TaskId, Task>

  /** What git makes of a checkpoint. */
  datatype Push = NoChanges | CommitFails | PushFails | Pushed(commit: Commit)

  datatype Op =
    | AddTask(id: TaskId, project: Project, created: nat)
    | Start(id: TaskId, worktreeOk: bool)
    | Checkpoint(id: TaskId, push: Push)
    | RunSmoke(id: TaskId, passes: bool)
    | Warn(id: TaskId)
    | Block(id: TaskId)
    | Finish(id: TaskId)
    | Diagnose(project: Project, alive: set<TaskId>)

  predicate IsWorking(b: Board, id: TaskId, project: Project) {
    id in b && b[id].project == project && b[id].state.Working?
  }

  predicate Busy(b: Board, project: Project) {
    exists id :: id in b && IsWorking(b, id, project)
  }

  /** Another task of the project holds the writer slot. */
  predicate Taken(b: Board, id: TaskId)
    requires id in b
  {
    exists other :: other in b && other != id && IsWorking(b, other, b[id].project)
  }

  predicate Startable(s: State) { s.Ready? || s.Checkpointed? || s.NeedsRepair? || s.Working? }

  function WithState(b: Board, id: TaskId, s: State): (b': Board)
    requires id in b
  {
    b[id := b[id].(state := s)]
  }

  /** The state a smoke run writes, given the task it read before the command ran. */
  function AfterSmoke(read: Task, passes: bool): (s: State) {
    if !passes then NeedsRepair else if read.checkpoint.Some? then Checkpointed else read.state
  }

  function WithSmoke(b: Board, id: TaskId, s: State, passes: bool): (b': Board)
    requires id in b
  {
    b[id := b[id].(state := s, smoke := Some(if passes then Pass else Fatal))]
  }

  function Diagnosed(b: Board, project: Project, alive: set<TaskId>): (b': Board) {
    map id | id in b :: if IsWorking(b, id, project) && id !in alive then b[id].(state := NeedsRepair) else b[id]
  }

  /** One operation; one that raises leaves the board as the program leaves it. */
  function Step(b: Board, op: Op): (b': Board) {
    match op
    case AddTask(id, project, created) => if id in b then b else b[id := Task(project, Ready, None, None, created)]
    case Start(id, worktreeOk) =>
      if id in b && !Taken(b, id) && Startable(b[id].state) && worktreeOk then WithState(b, id, Working) else b
    case Checkpoint(id, push) =>
      if id !in b || !b[id].state.Working? then b
      else if push.PushFails? then WithState(b, id, State.Blocked)
      else if push.Pushed? then b[id := b[id].(state := Checkpointed, checkpoint := Some(push.commit))]
      else b
    case RunSmoke(id, passes) => if id in b then WithSmoke(b, id, AfterSmoke(b[id], passes), passes) else b
    case Warn(id) => if id in b then b[id := b[id].(smoke := Some(Warning))] else b
    case Block(id) => if id in b then WithState(b, id, State.Blocked) else b
    case Finish(id) =>
      if id in b && (b[id].smoke == Some(Pass) || b[id].smoke == Some(Warning)) then WithState(b, id, Done) else b
    case Diagnose(project, alive) => Diagnosed(b, project, alive)
  }

  function Exec(b: Board, ops: seq<Op>): (b': Board) {
    if ops == [] then b else Step(Exec(b, ops[..|ops| - 1]), ops[|ops| - 1])
  }

  /** An operation between the transaction that reads and the one that writes. */
  datatype Pending =
    | Starting(id: TaskId, worktreeOk: bool)
    | Saving(id: TaskId, push: Push)
    | Testing(id: TaskId, passes: bool, read: Task)
    | Finishing(id: TaskId)
    | Releasing(id: TaskId)

  /** These operations read nothing before they write. */
  predicate OneTransaction(op: Op) { op.AddTask? || op.Warn? || op.Block? }

  /** What an operation goes on to write, from the board it reads; nothing if it raises. */
  function Begin(b: Board, op: Op): (pending: set<Pending>) {
    match op
    case Start(id, worktreeOk) =>
      if id in b && !Taken(b, id) && Startable(b[id].state) then {Starting(id, worktreeOk)} else {}
    case Checkpoint(id, push) => if id in b && b[id].state.Working? then {Saving(id, push)} else {}
    case RunSmoke(id, passes) => if id in b then {Testing(id, passes, b[id])} else {}
    case Finish(id) => if id in b && (b[id].smoke == Some(Pass) || b[id].smoke == Some(Warning)) then {Finishing(id)} else {}
    case Diagnose(project, alive) => set id | id in b && IsWorking(b, id, project) && id !in alive :: Releasing(id)
    case _ => {}
  }

  /** The write, on whatever board is there by then. */
  function Written(b: Board, p: Pending): (b': Board) {
    if p.id !in b then b
    else
      match p
      case Starting(id, worktreeOk) => if worktreeOk then WithState(b, id, Working) else b
      case Saving(id, push) =>
        if push.PushFails? then WithState(b, id, State.Blocked)
        else if push.Pushed? then b[id := b[id].(state := Checkpointed, checkpoint := Some(push.commit))]
        else b
      case Testing(id, passes, read) => WithSmoke(b, id, AfterSmoke(read, passes), passes)
      case Finishing(id) => WithState(b, id, Done)
      case Releasing(id) => WithState(b, id, NeedsRepair)
  }

  function Rank(s: State): (n: nat) {
    match s case Ready => 0 case NeedsRepair => 1 case _ => 2
  }

  predicate Queued(b: Board, id: TaskId, project: Project) {
    id in b && b[id].project == project && (b[id].state.Ready? || b[id].state.Checkpointed? || b[id].state.NeedsRepair?)
  }

  predicate Earlier(b: Board, x: TaskId, y: TaskId)
    requires x in b && y in b
  {
    Rank(b[x].state) < Rank(b[y].state) || (Rank(b[x].state) == Rank(b[y].state) && b[x].created < b[y].created)
  }

  /** `x` is offered before `y`: new work before repairs before checkpointed work, and the older first. */
  predicate NoLater(b: Board, x: TaskId, y: TaskId)
    requires x in b && y in b
  {
    && (b[y].state.Ready? ==> b[x].state.Ready?)
    && (b[y].state.NeedsRepair? ==> b[x].state.Ready? || b[x].state.NeedsRepair?)
    && (b[x].state == b[y].state ==> b[x].created <= b[y].created)
  }

  class KanbanStore {
    var tasks: Board

    constructor ()
      ensures tasks == map[]
    {
      tasks := map[];
    }

    /** A task id that exists violates the primary key. */
    method AddNewTask(id: TaskId, project: Project, created: nat) returns (ok: bool)
      modifies this
      ensures tasks == Step(old(tasks), AddTask(id, project, created)) && ok == (id !in old(tasks))
    {
      ok := id !in tasks;
      if ok {
        tasks := tasks[id := Task(project, Ready, None, None, created)];
      }
    }

    method FinishTask(id: TaskId) returns (ok: bool)
      modifies this
      ensures tasks == Step(old(tasks), Finish(id))
      ensures ok <==> id in old(tasks) && (old(tasks)[id].smoke == Some(Pass) || old(tasks)[id].smoke == Some(Warning))
      ensures tasks == if ok then old(tasks)[id := old(tasks)[id].(state := Done)] else old(tasks)
    {
      ok := id in tasks && tasks[id].smoke.Some? && !tasks[id].smoke.value.Fatal?;
      if ok {
        tasks := tasks[id := tasks[id].(state := Done)];
      }
    }

    /** Blocking a task, or noting a warning, whatever its state. */
    method MarkTask(id: TaskId, warning: bool)
      modifies this
      ensures tasks == Step(old(tasks), if warning then Warn(id) else Block(id))
      ensures id in old(tasks) ==>
                tasks == old(tasks)[id := if warning then old(tasks)[id].(smoke := Some(Warning))
                  else old(tasks)[id].(state := State.Blocked)]
    {
      if id in tasks {
        tasks := tasks[id := if warning then tasks[id].(smoke := Some(Warning)) else tasks[id].(state := State.Blocked)];
      }
    }

    /** Other processes write between two transactions; tasks are never deleted. */
    method Interfere()
      modifies this
      ensures old(tasks).Keys <= tasks.Keys
    {
      var next: Board := *;
      if tasks.Keys <= next.Keys {
        tasks := next;
      }
    }

    /** The check reads one board, the write goes to whatever board is there by then. */
    method StartTask(id: TaskId, worktreeOk: bool) returns (ok: bool, ghost mid: Board)
      modifies this
      ensures ok <==> Begin(old(tasks), Start(id, worktreeOk)) == {Starting(id, worktreeOk)} && worktreeOk
      ensures old(tasks).Keys <= mid.Keys
      ensures tasks == if ok then Written(mid, Starting(id, worktreeOk)) else mid
      ensures ok <==> id in old(tasks) && !Taken(old(tasks), id) && Startable(old(tasks)[id].state) && worktreeOk
      ensures ok ==> tasks == mid[id := mid[id].(state := Working)]
    {
      var read := tasks;
      Interfere();
      mid := tasks;
      if id !in read || Taken(read, id) || !Startable(read[id].state) || !worktreeOk {
        return false, mid;
      }
      tasks := tasks[id := tasks[id].(state := Working)];
      return true, mid;
    }

    /** Commit, push, and only then record the checkpoint. */
    method CheckpointTask(id: TaskId, push: Push) returns (commit: Option<Commit>)
      modifies this
      ensures tasks == Step(old(tasks), Checkpoint(id, push))
      ensures commit.Some? <==> id in old(tasks) && old(tasks)[id].state.Working? && push.Pushed?
      ensures commit.Some? ==>
                commit == Some(push.commit)
                && tasks == old(tasks)[id := old(tasks)[id].(state := Checkpointed, checkpoint := commit)]
      ensures commit.None? ==>
                tasks == if id in old(tasks) && old(tasks)[id].state.Working? && push.PushFails?
                         then old(tasks)[id := old(tasks)[id].(state := State.Blocked)] else old(tasks)
      ensures commit.Some? ==> id in tasks && tasks[id].checkpoint == commit && tasks[id].state.Checkpointed?
      ensures commit.None? ==> forall x :: x in tasks ==> x in old(tasks) && tasks[x].checkpoint == old(tasks)[x].checkpoint
    {
      if id !in tasks || !tasks[id].state.Working? {
        return None;
      }
      match push {
        case NoChanges => return None;
        case CommitFails => return None;
        case PushFails =>
          tasks := tasks[id := tasks[id].(state := State.Blocked)];
          return None;
        case Pushed(c) =>
          tasks := tasks[id := tasks[id].(state := Checkpointed, checkpoint := Some(c))];
          return Some(c);
      }
    }

    /** The state written back is computed from the task read before the command ran. */
    method SmokeTest(id: TaskId, passes: bool) returns (ghost mid: Board)
      modifies this
      ensures old(tasks).Keys <= mid.Keys
      ensures tasks == if id in old(tasks) then Written(mid, Testing(id, passes, old(tasks)[id])) else mid
      ensures id in old(tasks) ==>
                && tasks[id].smoke == Some(if passes then Pass else Fatal)
                && (!passes ==> tasks[id].state.NeedsRepair?)
                && (passes ==> tasks[id].state == if old(tasks)[id].checkpoint.Some? then Checkpointed else old(tasks)[id].state)
    {
      var read := tasks;
      Interfere();
      mid := tasks;
      if id in read {
        var t := read[id];
        var next := if passes && t.checkpoint.Some? then Checkpointed else if !passes then NeedsRepair else t.state;
        tasks := tasks[id := tasks[id].(state := next, smoke := Some(if passes then Pass else Fatal))];
      }
    }

    /** Phantom working tasks give the writer slot back. */
    method DiagnoseWorking(project: Project, alive: set<TaskId>) returns (stale: set<TaskId>)
      modifies this
      ensures tasks == Step(old(tasks), Diagnose(project, alive))
      ensures tasks.Keys == old(tasks).Keys && forall id :: id in tasks ==>
                tasks[id] == if id in stale then old(tasks)[id].(state := NeedsRepair) else old(tasks)[id]
      ensures forall id :: id in stale <==> IsWorking(old(tasks), id, project) && id !in alive
    {
      ghost var before := tasks;
      var left := tasks.Keys;
      stale := {};
      while left != {}
        invariant left <= before.Keys && tasks.Keys == before.Keys
        invariant forall id :: id in before ==>
                    tasks[id] == if id !in left && IsWorking(before, id, project) && id !in alive
                                 then before[id].(state := NeedsRepair) else before[id]
        invariant forall id :: id in stale <==> id in before && id !in left && IsWorking(before, id, project) && id !in alive
        decreases left
      {
        var id :| id in left;
        if tasks[id].project == project && tasks[id].state.Working? && id !in alive {
          stale := stale + {id};
          tasks := tasks[id := tasks[id].(state := NeedsRepair)];
        }
        left := left - {id};
      }
      assert tasks == Diagnosed(before, project, alive);
    }

    /** Nothing while a task is working, else the first queued task by state and age. */
    method NextReady(project: Project) returns (next: Option<TaskId>)
      ensures Busy(tasks, project) ==> next.None?
      ensures !Busy(tasks, project) ==> (next.None? <==> forall id :: !Queued(tasks, id, project))
      ensures next.Some? ==> Queued(tasks, next.value, project) && !Taken(tasks, next.value)
      ensures next.Some? ==> Startable(tasks[next.value].state)
      ensures next.Some? ==> forall id :: Queued(tasks, id, project) ==> !Earlier(tasks, id, next.value)
      ensures next.Some? ==> forall id :: Queued(tasks, id, project) ==> NoLater(tasks, next.value, id)
    {
      next := None;
      if Busy(tasks, project) {
        return;
      }
      var left := tasks.Keys;
      while left != {}
        invariant left <= tasks.Keys
        invariant next.None? ==> forall id :: Queued(tasks, id, project) ==> id in left
        invariant next.Some? ==> Queued(tasks, next.value, project)
        invariant next.Some? ==> forall id :: Queued(tasks, id, project) && id !in left ==> !Earlier(tasks, id, next.value)
        decreases left
      {
        var id :| id in left;
        if Queued(tasks, id, project) && (next.None? || Earlier(tasks, id, next.value)) {
          next := Some(id);
        }
        left := left - {id};
      }
      if next.Some? {
        FreeSlot(tasks, next.value);
      }
    }
  }

  lemma FreeSlot(b: Board, id: TaskId)
    requires id in b && !Busy(b, b[id].project)
    ensures !Taken(b, id)
  {
  }

  /** At most one working task per project. */
  ghost predicate SingleWriter(b: Board) {
    forall x, y {:trigger b[x].state, b[y].state} ::
      x in b && y in b && b[x].state.Working? && b[y].state.Working? && b[x].project == b[y].project ==> x == y
  }

  lemma WorkingIsSafeIff(b: Board, id: TaskId)
    requires SingleWriter(b) && id in b
    ensures SingleWriter(WithState(b, id, Working)) <==> !Taken(b, id)
  {
    var b' := WithState(b, id, Working);
    if Taken(b, id) {
      var other :| other in b && other != id && IsWorking(b, other, b[id].project);
      assert b'[other].state.Working? && b'[id].state.Working?;
    } else {
      forall other | other in b && other != id
        ensures !(b[other].state.Working? && b[other].project == b[id].project)
      {
        assert !IsWorking(b, other, b[id].project);
      }
    }
  }

  lemma StepKeepsSingleWriter(b: Board, op: Op)
    requires SingleWriter(b)
    ensures SingleWriter(Step(b, op))
  {
    match op
    case Start(id, _) =>
      if id in b {
        WorkingIsSafeIff(b, id);
      }
    case _ =>
      assert forall x {:trigger Step(b, op)[x]} :: x in Step(b, op) && Step(b, op)[x].state.Working? ==>
               x in b && b[x].state.Working? && b[x].project == Step(b, op)[x].project;
  }

  /** The writer slot: every board reached by operations that nobody disturbs has a single writer per project. */
  lemma {:induction false} AlwaysSingleWriter(b: Board, ops: seq<Op>)
    requires SingleWriter(b)
    ensures SingleWriter(Exec(b, ops))
  {
    if ops != [] {
      AlwaysSingleWriter(b, ops[..|ops| - 1]);
      StepKeepsSingleWriter(Exec(b, ops[..|ops| - 1]), ops[|ops| - 1]);
    }
  }

  /** Every change of state by an undisturbed operation has its cause: no task works, passes or is done any other way. */
  lemma TransitionsHaveCauses(b: Board, op: Op, id: TaskId)
    requires id in b && Step(b, op)[id].state != b[id].state
    ensures var before, after := b[id], Step(b, op)[id];
            match after.state
            case Working => op.Start? && op.id == id && Startable(before.state) && !Taken(b, id)
            case Checkpointed =>
              || (op.Checkpoint? && op.id == id && before.state.Working? && after.checkpoint == Some(op.push.commit))
              || (op.RunSmoke? && op.id == id && op.passes && before.checkpoint.Some?)
            case NeedsRepair => (op.RunSmoke? && op.id == id && !op.passes)
              || (op.Diagnose? && id !in op.alive && before.state.Working?)
            case Blocked => op.id == id && (op.Block? || (op.Checkpoint? && op.push.PushFails? && before.state.Working?))
            case Done => op.Finish? && op.id == id && before.smoke.Some? && !before.smoke.value.Fatal?
            case _ => false
  {
    assert id in Step(b, op);
  }

  /** A task can be finished right after a smoke run exactly if the run passed. */
  lemma SmokeDecidesFinish(b: Board, id: TaskId, passes: bool)
    requires id in b
    ensures var b' := Step(Step(b, RunSmoke(id, passes)), Finish(id));
            && id in b' && (passes ==> b'[id].state.Done?)
            && (!passes ==> b'[id].state.NeedsRepair? && b' == Step(b, RunSmoke(id, passes)))
  {
  }

  /** After a diagnosis every working task of the project is known to be alive, and starting another one works. */
  lemma DiagnosisFreesTheSlot(b: Board, project: Project, alive: set<TaskId>, id: TaskId)
    ensures IsWorking(Step(b, Diagnose(project, alive)), id, project) ==> id in alive
    ensures alive == {} && Queued(b, id, project) ==>
              Step(Step(b, Diagnose(project, alive)), Start(id, true))[id].state.Working?
  {
    var b' := Step(b, Diagnose(project, alive));
    if alive == {} && Queued(b, id, project) {
      assert b'[id] == b[id];
      forall other | other in b'
        ensures !IsWorking(b', other, project)
      {
      }
      FreeSlot(b', id);
    }
  }

  /** An operation that nobody disturbs between its reads and its writes does what the one-step form says. */
  lemma UndisturbedIsOneStep(b: Board, op: Op, id: TaskId)
    requires !OneTransaction(op) && id in b
    ensures id in Step(b, op)
    ensures forall p :: p in Begin(b, op) ==> p.id in b && Written(b, p).Keys == b.Keys
    ensures forall p :: p in Begin(b, op) && p.id == id ==> Step(b, op)[id] == Written(b, p)[id]
    ensures (forall p :: p in Begin(b, op) ==> p.id != id) ==> Step(b, op)[id] == b[id]
  {
    if op.Diagnose? && IsWorking(b, id, op.project) && id !in op.alive {
      assert Releasing(id) in Begin(b, op);
    }
  }

  /** Processes on one board, each between its reads and its writes. */
  datatype Sys = Sys(board: Board, pending: multiset<Pending>)

  datatype Move = Read(op: Op) | Write(p: Pending) | Drop(p: Pending)

  function Next(s: Sys, m: Move): (s': Sys) {
    match m
    case Read(op) =>
      if OneTransaction(op) then s.(board := Step(s.board, op)) else s.(pending := s.pending + multiset(Begin(s.board, op)))
    case Write(p) =>
      if p in s.pending then Sys(Written(s.board, p), s.pending - multiset{p}) else s
    case Drop(p) => s.(pending := s.pending - multiset{p})
  }

  function Run(s: Sys, moves: seq<Move>): (s': Sys) {
    if moves == [] then s else Next(Run(s, moves[..|moves| - 1]), moves[|moves| - 1])
  }

  /** A start writes WORKING, and so does a passing smoke run of a task it read as WORKING without a checkpoint. */
  predicate WritesWorking(p: Pending) {
    (p.Starting? && p.worktreeOk) || (p.Testing? && AfterSmoke(p.read, p.passes).Working?)
  }

  /** WORKING is written for a task while another task of the project holds the slot. */
  predicate Clash(s: Sys, m: Move) {
    m.Write? && m.p in s.pending && WritesWorking(m.p) && m.p.id in s.board && Taken(s.board, m.p.id)
  }

  lemma SameStates(b: Board, b': Board)
    requires b'.Keys == b.Keys && forall id :: id in b ==> b'[id].state == b[id].state && b'[id].project == b[id].project
    ensures SingleWriter(b) <==> SingleWriter(b')
  {
  }

  lemma NoNewWorker(b: Board, b': Board)
    requires SingleWriter(b)
    requires forall id {:trigger b'[id]} :: id in b' && b'[id].state.Working? ==>
               id in b && b[id].state.Working? && b[id].project == b'[id].project
    ensures SingleWriter(b')
  {
  }

  /** A write keeps the single writer exactly when it writes no WORKING to a slot that is taken by then. */
  lemma WriteIsSafeIff(b: Board, p: Pending)
    requires SingleWriter(b) && p.id in b
    ensures SingleWriter(Written(b, p)) <==> !(WritesWorking(p) && Taken(b, p.id))
  {
    if WritesWorking(p) {
      WorkingIsSafeIff(b, p.id);
      SameStates(WithState(b, p.id, Working), Written(b, p));
    } else {
      NoNewWorker(b, Written(b, p));
    }
  }

  /** Over every interleaving of reads and writes, a step breaks the single writer exactly when it clashes. */
  lemma StepIsSafeIff(s: Sys, m: Move)
    requires SingleWriter(s.board)
    ensures SingleWriter(Next(s, m).board) <==> !Clash(s, m)
  {
    if m.Write? && m.p in s.pending && m.p.id in s.board {
      WriteIsSafeIff(s.board, m.p);
    } else if m.Read? && OneTransaction(m.op) {
      StepKeepsSingleWriter(s.board, m.op);
    }
  }

  /** Whatever the interleaving, only the write of a checkpoint that was pushed changes the recorded commit of a task. */
  lemma CheckpointsOnlyByPush(s: Sys, m: Move, id: TaskId)
    requires id in s.board
    ensures id in Next(s, m).board
    ensures Next(s, m).board[id].checkpoint != s.board[id].checkpoint ==>
              && m.Write? && m.p in s.pending && m.p.Saving? && m.p.id == id && m.p.push.Pushed?
              && Next(s, m).board[id].checkpoint == Some(m.p.push.commit)
  {
  }

  ghost predicate ClashAt(s: Sys, moves: seq<Move>, n: nat)
    requires n < |moves|
  {
    Clash(Run(s, moves[..n]), moves[n])
  }

  ghost predicate SafeAfter(s: Sys, moves: seq<Move>, n: nat)
    requires n <= |moves|
  {
    SingleWriter(Run(s, moves[..n]).board)
  }

  lemma RunOn(s: Sys, moves: seq<Move>, n: nat)
    requires n < |moves|
    ensures Run(s, moves[..n + 1]) == Next(Run(s, moves[..n]), moves[n])
  {
    assert moves[..n + 1][..n] == moves[..n];
  }

  lemma SafeNext(s: Sys, moves: seq<Move>, n: nat)
    requires n < |moves| && SafeAfter(s, moves, n)
    ensures SafeAfter(s, moves, n + 1) <==> !ClashAt(s, moves, n)
  {
    RunOn(s, moves, n);
    StepIsSafeIff(Run(s, moves[..n]), moves[n]);
  }

  lemma {:induction false} SafeUpTo(s: Sys, moves: seq<Move>, n: nat)
    requires SafeAfter(s, moves, 0) && n <= |moves|
    requires forall i {:trigger ClashAt(s, moves, i)} :: 0 <= i < n ==> !ClashAt(s, moves, i)
    ensures SafeAfter(s, moves, n)
  {
    if n > 0 {
      SafeUpTo(s, moves, n - 1);
      SafeNext(s, moves, n - 1);
    }
  }

  /** A run has a single writer throughout exactly when no write in it clashes. */
  lemma SingleWriterIff(s: Sys, moves: seq<Move>)
    requires SingleWriter(s.board)
    ensures (forall n {:trigger SafeAfter(s, moves, n)} :: 0 <= n <= |moves| ==> SafeAfter(s, moves, n)) <==>
            (forall n {:trigger ClashAt(s, moves, n)} :: 0 <= n < |moves| ==> !ClashAt(s, moves, n))
  {
    assert moves[..0] == [] && SafeAfter(s, moves, 0);
    if forall n {:trigger ClashAt(s, moves, n)} :: 0 <= n < |moves| ==> !ClashAt(s, moves, n) {
      forall n | 0 <= n <= |moves|
        ensures SafeAfter(s, moves, n)
      {
        SafeUpTo(s, moves, n);
      }
    } else {
      var n :| 0 <= n < |moves| && ClashAt(s, moves, n);
      if SafeAfter(s, moves, n) {
        SafeNext(s, moves, n);
      }
    }
  }

  lemma RunLine(s: Sys, moves: seq<Move>, x: Move, y: Move)
    ensures Run(s, moves + [x, y]) == Next(Next(Run(s, moves), x), y)
  {
    var all := moves + [x, y];
    assert all[..|moves| + 1] == moves + [x];
    assert (moves + [x])[..|moves|] == moves;
  }

  function Fresh(project: Project, created: nat): (t: Task) { Task(project, State.Ready, None, None, created) }

  function Two(project: Project, x: TaskId, y: TaskId, sx: State, sy: State): (b: Board) {
    map[x := Fresh(project, 0).(state := sx), y := Fresh(project, 1).(state := sy)]
  }

  /** Two tasks are added to an empty board. */
  function Added(project: Project, x: TaskId, y: TaskId): (moves: seq<Move>) {
    [Read(AddTask(x, project, 0)), Read(AddTask(y, project, 1))]
  }

  lemma TwoAdded(project: Project, x: TaskId, y: TaskId)
    requires x != y
    ensures Run(Sys(map[], multiset{}), Added(project, x, y)) == Sys(Two(project, x, y, State.Ready, State.Ready), multiset{})
  {
    RunLine(Sys(map[], multiset{}), [], Read(AddTask(x, project, 0)), Read(AddTask(y, project, 1)));
    assert [] + Added(project, x, y) == Added(project, x, y);
  }

  lemma StateSet(project: Project, x: TaskId, y: TaskId, sx: State, sy: State, s: State)
    requires x != y
    ensures WithState(Two(project, x, y, sx, sy), x, s) == Two(project, x, y, s, sy)
    ensures WithState(Two(project, x, y, sx, sy), y, s) == Two(project, x, y, sx, s)
  {
  }

  lemma NobodyWorks(project: Project, x: TaskId, y: TaskId, sx: State, sy: State, id: TaskId)
    requires x != y && id in [x, y] && !sx.Working? && !sy.Working?
    ensures !Taken(Two(project, x, y, sx, sy), id)
  {
  }

  lemma Starts(s: Sys, id: TaskId)
    requires id in s.board && !Taken(s.board, id) && Startable(s.board[id].state)
    ensures Next(s, Read(Start(id, true))) == s.(pending := s.pending + multiset{Starting(id, true)})
  {
    assert multiset({Starting(id, true)}) == multiset{Starting(id, true)};
  }

  lemma StartsAndWrites(s: Sys, id: TaskId)
    requires id in s.board && !Taken(s.board, id) && Startable(s.board[id].state)
    ensures Next(Next(s, Read(Start(id, true))), Write(Starting(id, true))) == s.(board := WithState(s.board, id, Working))
  {
    Starts(s, id);
    assert s.pending + multiset{Starting(id, true)} - multiset{Starting(id, true)} == s.pending;
  }

  lemma BothWorking(project: Project, x: TaskId, y: TaskId, b: Board)
    requires x != y && x in b && y in b && b[x].state.Working? && b[y].state.Working? && b[x].project == b[y].project
    ensures !SingleWriter(b)
  {
  }

  /** Two starters that both checked first both get in. */
  lemma TwoStartersRace(project: Project, x: TaskId, y: TaskId)
    requires x != y
    ensures var s := Run(Sys(map[], multiset{}),
                         Added(project, x, y) + [Read(Start(x, true)), Read(Start(y, true))]
                         + [Write(Starting(x, true)), Write(Starting(y, true))]);
            s.board == Two(project, x, y, Working, Working) && !SingleWriter(s.board)
  {
    var s0, added := Sys(map[], multiset{}), Added(project, x, y);
    TwoAdded(project, x, y);
    NobodyWorks(project, x, y, State.Ready, State.Ready, x);
    NobodyWorks(project, x, y, State.Ready, State.Ready, y);
    var read := added + [Read(Start(x, true)), Read(Start(y, true))];
    RunLine(s0, added, Read(Start(x, true)), Read(Start(y, true)));
    Starts(Run(s0, added), x);
    Starts(Next(Run(s0, added), Read(Start(x, true))), y);
    RunLine(s0, read, Write(Starting(x, true)), Write(Starting(y, true)));
    BothWrite(project, x, y, Run(s0, read));
    BothWorking(project, x, y, Two(project, x, y, Working, Working));
  }

  lemma BothWrite(project: Project, x: TaskId, y: TaskId, s: Sys)
    requires x != y && s.board == Two(project, x, y, State.Ready, State.Ready)
    requires Starting(x, true) in s.pending && Starting(y, true) in s.pending
    ensures Next(Next(s, Write(Starting(x, true))), Write(Starting(y, true))).board == Two(project, x, y, Working, Working)
  {
  }

  /** The first task starts and a smoke run reads it; a diagnosis finds nobody alive. */
  function SmokeStarted(project: Project, x: TaskId, y: TaskId): (moves: seq<Move>) {
    Added(project, x, y) + [Read(Start(x, true)), Write(Starting(x, true))]
    + [Read(RunSmoke(x, true)), Read(Diagnose(project, {}))]
  }

  /** The diagnosis frees the slot, the second task starts undisturbed, and the smoke run passes. */
  function SmokeEnded(project: Project, x: TaskId, y: TaskId): (moves: seq<Move>) {
    SmokeStarted(project, x, y) + [Write(Releasing(x)), Read(Start(y, true))]
    + [Write(Starting(y, true)), Write(Testing(x, true, Fresh(project, 0).(state := Working)))]
  }

  lemma SmokeReads(project: Project, x: TaskId, y: TaskId)
    requires x != y
    ensures Run(Sys(map[], multiset{}), SmokeStarted(project, x, y)) ==
              Sys(Two(project, x, y, Working, State.Ready),
                  multiset{Testing(x, true, Fresh(project, 0).(state := Working)), Releasing(x)})
  {
    var s0, added := Sys(map[], multiset{}), Added(project, x, y);
    TwoAdded(project, x, y);
    NobodyWorks(project, x, y, State.Ready, State.Ready, x);
    RunLine(s0, added, Read(Start(x, true)), Write(Starting(x, true)));
    StartsAndWrites(Run(s0, added), x);
    var started := added + [Read(Start(x, true)), Write(Starting(x, true))];
    StateSet(project, x, y, State.Ready, State.Ready, Working);
    RunLine(s0, started, Read(RunSmoke(x, true)), Read(Diagnose(project, {})));
    SmokeAndDiagnosisRead(project, x, y);
  }

  lemma SmokeAndDiagnosisRead(project: Project, x: TaskId, y: TaskId)
    requires x != y
    ensures var b := Two(project, x, y, Working, State.Ready);
            Next(Next(Sys(b, multiset{}), Read(RunSmoke(x, true))), Read(Diagnose(project, {}))) ==
              Sys(b, multiset{Testing(x, true, b[x]), Releasing(x)})
  {
    var b := Two(project, x, y, Working, State.Ready);
    assert Begin(b, Diagnose(project, {})) == {Releasing(x)};
    assert multiset({Releasing(x)}) == multiset{Releasing(x)};
    assert multiset({Testing(x, true, b[x])}) == multiset{Testing(x, true, b[x])};
  }

  /**
   A passing smoke run writes back the WORKING it read before its command ran: although every start
   checks and writes undisturbed, two tasks of one project work.
   */
  lemma SmokeRevivesWorker(project: Project, x: TaskId, y: TaskId)
    requires x != y
    ensures var s := Run(Sys(map[], multiset{}), SmokeEnded(project, x, y));
            x in s.board && y in s.board && s.board[x].state.Working? && s.board[y].state.Working? && !SingleWriter(s.board)
  {
    var s0, t0 := Sys(map[], multiset{}), SmokeStarted(project, x, y);
    var test := Testing(x, true, Fresh(project, 0).(state := Working));
    SmokeReads(project, x, y);
    RunLine(s0, t0, Write(Releasing(x)), Read(Start(y, true)));
    RunLine(s0, t0 + [Write(Releasing(x)), Read(Start(y, true))], Write(Starting(y, true)), Write(test));
    ReleasedAndStarted(project, x, y, test);
    TestWrites(project, x, y, test);
  }

  lemma TestWrites(project: Project, x: TaskId, y: TaskId, test: Pending)
    requires x != y && test == Testing(x, true, Fresh(project, 0).(state := Working))
    ensures var b := Next(Sys(Two(project, x, y, NeedsRepair, Working), multiset{test}), Write(test)).board;
            x in b && y in b && b[x].state.Working? && b[y].state.Working? && !SingleWriter(b)
  {
    var b0 := Two(project, x, y, NeedsRepair, Working);
    assert Next(Sys(b0, multiset{test}), Write(test)).board == WithSmoke(b0, x, Working, true);
    BothWorking(project, x, y, WithSmoke(b0, x, Working, true));
  }

  lemma ReleasedAndStarted(project: Project, x: TaskId, y: TaskId, test: Pending)
    requires x != y && test.Testing?
    ensures var s := Next(Sys(Two(project, x, y, Working, State.Ready), multiset{test, Releasing(x)}), Write(Releasing(x)));
            Next(Next(s, Read(Start(y, true))), Write(Starting(y, true))) ==
              Sys(Two(project, x, y, NeedsRepair, Working), multiset{test})
  {
    var s := Next(Sys(Two(project, x, y, Working, State.Ready), multiset{test, Releasing(x)}), Write(Releasing(x)));
    StateSet(project, x, y, Working, State.Ready, NeedsRepair);
    assert multiset{test, Releasing(x)} - multiset{Releasing(x)} == multiset{test};
    assert s == Sys(Two(project, x, y, NeedsRepair, State.Ready), multiset{test});
    NobodyWorks(project, x, y, NeedsRepair, State.Ready, y);
    StartsAndWrites(s, y);
    StateSet(project, x, y, NeedsRepair, State.Ready, Working);
  }
}
