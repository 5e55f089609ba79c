/** The shell-tool executor: turns, retries, and what it reports against the request ledger. */
module BashExecutor {
  import opened Wrappers
  import opened Ledger
  import AttemptLoop

  /** A shell command, without surrounding blanks: repeats are counted on the stripped text. */
  datatype Command = Command(text: string)

  /** What one provider call comes to. */
  datatype Chat =
    | Replied(usage: Usage, action: Action)
    | TooManyRequests | ServerError | ToolUseFailed | OtherStatus | TimedOut | ClientError

  /** What the reply asks for, after decoding; `Breaks` escapes the executor as an exception. */
  datatype Action = Shell(command: Command) | Finish | Research | BadAction | Unparsable | MalformedCall | Breaks

  /** What running a command comes to. */
  datatype Observation = Observed(progress: bool) | ToolError | Unsafe | CommandTimeout | WorkspaceLimit | PolicyBreach

  datatype ExitKind =
    | Completed | OverBudget | ProviderFailed | ModelTimeout | RequestFailed | InvalidToolCall | Repeated | NoProgress
    | CommandTimedOut | WorkspaceFull | PolicyViolation | UnsafeCommand | TurnsExhausted | Crashed

  datatype Config = Config(maxTurns: int, rateRetries: int, serverRetries: int, toolRetries: int, repeatLimit: int,
                           noDiffLimit: int, tokenLimit: int)

  /** What a run met: each request with its answer, each command that ran, and one that was refused as a repeat. */
  datatype Event = Asked(answer: Result<Chat, Refusal>) | Ran(command: Command, seen: Observation) | Repeats(command: Command)

  /** The token and cost sums an execution result carries; a missing value counts as zero. */
  datatype Report = Report(kind: ExitKind, input: nat, output: nat, cost: real)

  /** The two ways out that report no usage at all. */
  predicate DropsUsage(kind: ExitKind) { kind.InvalidToolCall? || kind.Crashed? }

  function CostOf(cost: Option<real>): (c: real) {
    if cost.Some? then cost.value else 0.0
  }

  /** The check the controller makes after the executor returned. */
  predicate Mismatch(s: Spent, r: Report) {
    s.input + s.output != r.input + r.output || (s.cost.Some? && s.cost.value != r.cost)
  }

  /**
   The sums of a report are those of the tickets, unless the exit drops them; the controller's check
   then fires exactly if there was something to drop.
   */
  predicate Billed(s: Spent, r: Report) {
    && (DropsUsage(r.kind) ==> r == Report(r.kind, 0, 0, 0.0))
    && (!DropsUsage(r.kind) ==> r.input == s.input && r.output == s.output && r.cost == CostOf(s.cost))
    && (Mismatch(s, r) <==> DropsUsage(r.kind) && (s.input + s.output > 0 || CostOf(s.cost) != 0.0))
  }

  lemma BillsAll(s: Spent, kind: ExitKind)
    ensures Billed(s, if DropsUsage(kind) then Report(kind, 0, 0, 0.0) else Report(kind, s.input, s.output, CostOf(s.cost)))
  {
  }

  function AtLeastZero(n: int): (m: nat) {
    if n < 0 then 0 else n
  }

  function CallsPerTurn(c: Config): (n: nat) {
    1 + AtLeastZero(c.rateRetries) + AtLeastZero(c.serverRetries) + AtLeastZero(c.toolRetries)
  }

  function MaxCalls(c: Config): (n: nat) {
    AtLeastZero(c.maxTurns) * CallsPerTurn(c)
  }

  function Times(executed: seq<Command>, command: Command): (n: nat) {
    if executed == [] then 0
    else Times(executed[..|executed| - 1], command) + if executed[|executed| - 1] == command then 1 else 0
  }

  ghost predicate RepeatsWithin(executed: seq<Command>, limit: nat) {
    forall command {:trigger Times(executed, command)} :: Times(executed, command) <= limit
  }

  ghost predicate CountsMatch(counts: map<Command, nat>, executed: seq<Command>) {
    forall command {:trigger Times(executed, command)} ::
      Times(executed, command) == if command in counts then counts[command] else 0
  }

  lemma CountOneMore(counts: map<Command, nat>, executed: seq<Command>, command: Command, limit: nat)
    requires CountsMatch(counts, executed) && RepeatsWithin(executed, limit) && Times(executed, command) < limit
    ensures CountsMatch(counts[command := Times(executed, command) + 1], executed + [command])
    ensures RepeatsWithin(executed + [command], limit)
  {
    var after, count := executed + [command], Times(executed, command) + 1;
    assert after[..|executed|] == executed && after[|after| - 1] == command;
    forall x
      ensures Times(after, x) == if x in counts[command := count] then counts[command := count][x] else 0
      ensures Times(after, x) <= limit
    {
      assert Times(after, x) == Times(executed, x) + if x == command then 1 else 0;
      assert Times(executed, x) == if x in counts then counts[x] else 0;
    }
  }

  /** How often the provider answered with just this status. */
  function Statuses(log: seq<Event>, chat: Chat): (n: nat) {
    if log == [] then 0
    else Statuses(log[..|log| - 1], chat) + if log[|log| - 1] == Asked(Success(chat)) then 1 else 0
  }

  /** The retry allowance of a status; the others have none. */
  function Allowance(cfg: Config, chat: Chat): (n: nat) {
    match chat
    case TooManyRequests => AtLeastZero(cfg.rateRetries)
    case ServerError => AtLeastZero(cfg.serverRetries)
    case ToolUseFailed => AtLeastZero(cfg.toolRetries)
    case _ => 0
  }

  predicate RetriedAt(cfg: Config, log: seq<Event>, i: nat)
    requires i < |log|
  {
    && log[i].Asked? && log[i].answer.Success? && !log[i].answer.value.Replied?
    && Statuses(log[..i], log[i].answer.value) < Allowance(cfg, log[i].answer.value)
  }

  /** Requests of one turn that were all answered by a status and retried within its allowance. */
  ghost predicate Retried(cfg: Config, log: seq<Event>) {
    forall i {:trigger RetriedAt(cfg, log, i)} :: 0 <= i < |log| ==> RetriedAt(cfg, log, i)
  }

  /** The last answer of a turn, after `retried`, and what it comes to. */
  predicate TurnEnds(cfg: Config, retried: seq<Event>, answer: Result<Chat, Refusal>, r: Result<Chat, ExitKind>) {
    match answer
    case Failure(BudgetExceeded) => r == Failure(OverBudget)
    case Failure(_) => r == Failure(RequestFailed)
    case Success(Replied(_, _)) => r == Success(answer.value)
    case Success(TimedOut) => r == Failure(ModelTimeout)
    case Success(ClientError) => r == Failure(RequestFailed)
    case Success(chat) => r == Failure(ProviderFailed) && Statuses(retried, chat) == Allowance(cfg, chat)
  }

  /** Commands in a row that changed nothing; a tool error neither counts nor helps. */
  function Stale(log: seq<Event>): (n: nat) {
    if log == [] then 0
    else
      match log[|log| - 1]
      case Ran(_, Observed(progress)) => if progress then 0 else Stale(log[..|log| - 1]) + 1
      case _ => Stale(log[..|log| - 1])
  }

  /** Replies of the model. */
  function Answers(log: seq<Event>): (n: nat) {
    if log == [] then 0
    else
      Answers(log[..|log| - 1]) +
      if log[|log| - 1].Asked? && log[|log| - 1].answer.Success? && log[|log| - 1].answer.value.Replied? then 1 else 0
  }

  predicate Stuck(cfg: Config, log: seq<Event>, tokens: nat) {
    log != [] && log[|log| - 1].Ran? && log[|log| - 1].seen.Observed? && Stale(log) >= cfg.noDiffLimit
      && tokens >= cfg.tokenLimit
  }

  /** This event ends the run whatever came before. */
  predicate Final(e: Event) {
    match e
    case Repeats(_) => true
    case Ran(_, seen) => !seen.Observed? && !seen.ToolError?
    case Asked(Failure(_)) => true
    case Asked(Success(Replied(_, action))) => action.Finish? || action.MalformedCall? || action.Breaks?
    case Asked(Success(chat)) => chat.OtherStatus? || chat.TimedOut? || chat.ClientError?
  }

  predicate IsStatus(e: Event) {
    && e.Asked? && e.answer.Success?
    && (e.answer.value.TooManyRequests? || e.answer.value.ServerError? || e.answer.value.ToolUseFailed?
       || e.answer.value.OtherStatus?)
  }

  predicate IsReply(e: Event, action: Action) {
    e.Asked? && e.answer.Success? && e.answer.value.Replied? && e.answer.value.action == action
  }

  /** Each kind of exit goes with one kind of last event, and with no other. */
  predicate EndsBy(cfg: Config, log: seq<Event>, tokens: nat, kind: ExitKind) {
    var e := if log == [] then None else Some(log[|log| - 1]);
    && (kind.Completed? <==> e.Some? && IsReply(e.value, Finish))
    && (kind.InvalidToolCall? <==> e.Some? && IsReply(e.value, MalformedCall))
    && (kind.Crashed? <==> e.Some? && IsReply(e.value, Breaks))
    && (kind.OverBudget? <==> e == Some(Asked(Failure(BudgetExceeded))))
    && (kind.RequestFailed? <==> e.Some? && e.value.Asked? && (e.value == Asked(Success(ClientError))
                                     || (e.value.answer.Failure? && !e.value.answer.error.BudgetExceeded?)))
    && (kind.ModelTimeout? <==> e == Some(Asked(Success(TimedOut))))
    && (kind.ProviderFailed? <==> e.Some? && IsStatus(e.value))
    && (kind.Repeated? <==> e.Some? && e.value.Repeats?)
    && (kind.UnsafeCommand? <==> e.Some? && e.value.Ran? && e.value.seen.Unsafe?)
    && (kind.CommandTimedOut? <==> e.Some? && e.value.Ran? && e.value.seen.CommandTimeout?)
    && (kind.WorkspaceFull? <==> e.Some? && e.value.Ran? && e.value.seen.WorkspaceLimit?)
    && (kind.PolicyViolation? <==> e.Some? && e.value.Ran? && e.value.seen.PolicyBreach?)
    && (kind.NoProgress? <==> Stuck(cfg, log, tokens))
    && (kind.TurnsExhausted? <==> GoesOn(cfg, log, tokens))
    && (kind.TurnsExhausted? ==> Answers(log) == AtLeastZero(cfg.maxTurns))
  }

  /** Nothing that would have ended the run happened before its last event. */
  ghost predicate OpenUntilLast(log: seq<Event>) {
    forall i {:trigger Final(log[i])} :: 0 <= i < |log| - 1 ==> !Final(log[i])
  }

  /** The conversation goes on after the last event. */
  predicate GoesOn(cfg: Config, log: seq<Event>, tokens: nat) {
    log != [] ==> !Final(log[|log| - 1]) && !IsStatus(log[|log| - 1]) && !Stuck(cfg, log, tokens)
  }

  lemma LogOneMore(log: seq<Event>, e: Event)
    ensures (log + [e])[..|log|] == log && (log + [e])[|log|] == e
    ensures Answers(log + [e]) ==
              Answers(log) + if e.Asked? && e.answer.Success? && e.answer.value.Replied? then 1 else 0
    ensures Stale(log + [e]) ==
              match e
              case Ran(_, Observed(progress)) => if progress then 0 else Stale(log) + 1
              case _ => Stale(log)
  {
    assert (log + [e])[..|log|] == log;
  }

  /** How often each status was answered. */
  function Tried(log: seq<Event>): (counts: (nat, nat, nat, nat)) {
    (Statuses(log, TooManyRequests), Statuses(log, ServerError), Statuses(log, ToolUseFailed), Statuses(log, OtherStatus))
  }

  lemma TriedOneMore(log: seq<Event>, chat: Chat)
    requires chat.TooManyRequests? || chat.ServerError? || chat.ToolUseFailed?
    ensures var t := Tried(log);
            Tried(log + [Asked(Success(chat))]) ==
              match chat
              case TooManyRequests => (t.0 + 1, t.1, t.2, t.3)
              case ServerError => (t.0, t.1 + 1, t.2, t.3)
              case ToolUseFailed => (t.0, t.1, t.2 + 1, t.3)
  {
    assert (log + [Asked(Success(chat))])[..|log|] == log;
  }

  lemma RetriedMore(cfg: Config, log: seq<Event>, e: Event)
    requires Retried(cfg, log) && e.Asked? && e.answer.Success? && !e.answer.value.Replied?
    requires Statuses(log, e.answer.value) < Allowance(cfg, e.answer.value)
    ensures Retried(cfg, log + [e])
  {
    var longer := log + [e];
    forall i | 0 <= i < |longer|
      ensures RetriedAt(cfg, longer, i)
    {
      if i < |log| {
        assert RetriedAt(cfg, log, i);
        assert longer[..i] == log[..i];
      } else {
        assert longer[..i] == log;
      }
    }
  }

  ghost predicate AllOpen(log: seq<Event>) {
    forall i {:trigger Final(log[i])} :: 0 <= i < |log| ==> !Final(log[i])
  }

  lemma OpenOneMore(log: seq<Event>, e: Event)
    requires AllOpen(log)
    ensures OpenUntilLast(log + [e]) && (!Final(e) ==> AllOpen(log + [e]))
  {
    var longer := log + [e];
    forall i | 0 <= i < |longer| - 1
      ensures !Final(longer[i])
    {
      assert longer[i] == log[i] && !Final(log[i]);
    }
    if !Final(e) {
      forall i | 0 <= i < |longer|
        ensures !Final(longer[i])
      {
        assert i < |log| ==> longer[i] == log[i] && !Final(log[i]);
      }
    }
  }

  /** Requests that were retried end nothing, answer nothing, and change nothing. */
  lemma {:induction false} RetriesAreOpen(cfg: Config, log: seq<Event>, retried: seq<Event>)
    requires AllOpen(log) && Retried(cfg, retried)
    ensures AllOpen(log + retried) && Answers(log + retried) == Answers(log) && Stale(log + retried) == Stale(log)
  {
    if retried == [] {
      assert log + retried == log;
    } else {
      var front, last := retried[..|retried| - 1], retried[|retried| - 1];
      forall i | 0 <= i < |front|
        ensures RetriedAt(cfg, front, i)
      {
        assert RetriedAt(cfg, retried, i) && retried[..i] == front[..i];
      }
      RetriesAreOpen(cfg, log, front);
      assert RetriedAt(cfg, retried, |front|);
      LogOneMore(log + front, last);
      OpenOneMore(log + front, last);
      assert log + retried == log + front + [last];
    }
  }

  /** The exit a reply asks for by itself. */
  function ExitOf(action: Action): (kind: Option<ExitKind>) {
    match action
    case MalformedCall => Some(InvalidToolCall)
    case Breaks => Some(Crashed)
    case Finish => Some(Completed)
    case _ => None
  }

  ghost predicate ReplyLogged(cfg: Config, log: seq<Event>, tokens: nat, action: Action) {
    match ExitOf(action)
    case Some(kind) => EndsBy(cfg, log, tokens, kind)
    case None => AllOpen(log) && GoesOn(cfg, log, tokens)
  }

  /** The last request of a turn ends the run, or is a reply that ends it or leaves it open. */
  lemma LastAskedEnds(cfg: Config, log: seq<Event>, retried: seq<Event>, answer: Result<Chat, Refusal>,
                      r: Result<Chat, ExitKind>, tokens: nat)
    requires log != [] && log[|log| - 1] == Asked(answer) && TurnEnds(cfg, retried, answer, r)
    ensures r.Failure? ==> EndsBy(cfg, log, tokens, r.error)
    ensures r.Success? ==>
              && r.value.Replied?
              && match ExitOf(r.value.action)
                 case Some(kind) => EndsBy(cfg, log, tokens, kind)
                 case None => !Final(Asked(answer)) && GoesOn(cfg, log, tokens)
  {
  }

  /** Where a turn leaves the log: at a failure that ends the run, or at a reply. */
  lemma TurnLogged(cfg: Config, log: seq<Event>, retried: seq<Event>, answer: Result<Chat, Refusal>,
                   r: Result<Chat, ExitKind>, tokens: nat)
    requires AllOpen(log) && Retried(cfg, retried) && TurnEnds(cfg, retried, answer, r)
    ensures var after := log + retried + [Asked(answer)];
            && OpenUntilLast(after) && Stale(after) == Stale(log)
            && Answers(after) == Answers(log) + (if r.Success? then 1 else 0)
            && (r.Failure? ==> EndsBy(cfg, after, tokens, r.error))
            && (r.Success? ==> r.value.Replied? && ReplyLogged(cfg, after, tokens, r.value.action))
  {
    var mid := log + retried;
    RetriesAreOpen(cfg, log, retried);
    LogOneMore(mid, Asked(answer));
    OpenOneMore(mid, Asked(answer));
    LastAskedEnds(cfg, mid + [Asked(answer)], retried, answer, r, tokens);
  }

  /** Where a command leaves the log. */
  lemma CommandLogged(cfg: Config, log: seq<Event>, event: Event, tokens: nat, exit: Option<ExitKind>)
    requires AllOpen(log) && !event.Asked?
    requires exit == match event
                     case Repeats(_) => Some(Repeated)
                     case Ran(_, Unsafe) => Some(UnsafeCommand)
                     case Ran(_, CommandTimeout) => Some(CommandTimedOut)
                     case Ran(_, WorkspaceLimit) => Some(WorkspaceFull)
                     case Ran(_, PolicyBreach) => Some(PolicyViolation)
                     case _ => if Stuck(cfg, log + [event], tokens) then Some(NoProgress) else None
    ensures OpenUntilLast(log + [event]) && Answers(log + [event]) == Answers(log)
    ensures exit.Some? ==> EndsBy(cfg, log + [event], tokens, exit.value)
    ensures exit.None? ==> AllOpen(log + [event]) && GoesOn(cfg, log + [event], tokens)
  {
    LogOneMore(log, event);
    OpenOneMore(log, event);
  }

  /** Every ticket since `before` is this attempt's and was settled once; earlier rows are as before. */
  ghost predicate SettledOnce(before: seq<Request>, rows: seq<Request>, attempt: nat) {
    && |before| <= |rows| && rows[..|before|] == before
    && forall i {:trigger rows[i].settled} :: |before| <= i < |rows| ==> rows[i].attempt == attempt && rows[i].settled == 1
  }

  function StateOf(chat: Chat): (state: RequestState) {
    if chat.Replied? then Succeeded else if chat.TooManyRequests? then RateLimited else Failed
  }

  function UsageOf(chat: Chat): (u: Usage) {
    if chat.Replied? then chat.usage else Usage(None, None, None)
  }

  /** The sums after one call: a failed call is recorded without usage. */
  function Charged(s: Spent, chat: Chat): (s': Spent) {
    if chat.Replied? then
      Spent(s.input + Known(chat.usage.input, 0), s.output + Known(chat.usage.output, 0),
            if chat.usage.cost.None? then s.cost else Some(CostOf(s.cost) + chat.usage.cost.value))
    else s
  }

  lemma SettleLast(before: seq<Request>, rows: seq<Request>, attempt: nat, row: Request, chat: Chat)
    requires SettledOnce(before, rows, attempt) && row.attempt == attempt && row.settled == 0
    ensures var after := (rows + [row])[|rows| := Finished(row, StateOf(chat), UsageOf(chat))];
            SettledOnce(before, after, attempt) && SpentOn(after, attempt) == Charged(SpentOn(rows, attempt), chat)
  {
    var last := Finished(row, StateOf(chat), UsageOf(chat));
    var after := (rows + [row])[|rows| := last];
    assert after[..|rows|] == rows && after[|rows|] == last;
    assert after[..|before|] == rows[..|before|];
    forall i | |before| <= i < |after|
      ensures after[i].attempt == attempt && after[i].settled == 1
    {
      assert i < |rows| ==> after[i] == rows[i] && rows[i].settled == 1;
    }
  }

  class Executor {
    const cfg: Config
    const ledger: JobLedger
    const attempt: nat
    const costHint: Option<real>
    var calls: nat
    var commandCounts: map<Command, nat>
    var noProgress: nat
    ghost var executed: seq<Command>
    ghost var log: seq<Event>

    ghost predicate HintOk() { costHint.Some? ==> costHint.value >= 0.0 }

    constructor (cfg: Config, ledger: JobLedger, attempt: nat, costHint: Option<real>)
      ensures this.cfg == cfg && this.ledger == ledger && this.attempt == attempt && this.costHint == costHint
      ensures calls == 0 && commandCounts == map[] && noProgress == 0 && executed == [] && log == []
    {
      this.cfg, this.ledger, this.attempt, this.costHint := cfg, ledger, attempt, costHint;
      calls, commandCounts, noProgress, executed, log := 0, map[], 0, [], [];
    }

    /** The accounting part of one call: a ticket is reserved, the provider is asked, the ticket is settled. */
    method Ask(ghost before: seq<Request>) returns (r: Result<Chat, Refusal>)
      requires HintOk() && ledger.Valid() && SettledOnce(before, ledger.rows, attempt)
      modifies this`calls, this`log, ledger`rows, ledger`excess
      ensures ledger.Valid() && SettledOnce(before, ledger.rows, attempt) && log == old(log) + [Asked(r)]
      ensures r.Success? ==> calls == old(calls) + 1 && |ledger.rows| == |old(ledger.rows)| + 1
      ensures r.Success? && r.value.Replied? ==>
                var row := ledger.rows[|old(ledger.rows)|];
                row.state.Succeeded? && Usage(row.actualIn, row.actualOut, row.actualCost) == r.value.usage
      ensures r.Success? && !r.value.Replied? ==>
                var row := ledger.rows[|old(ledger.rows)|];
                && row.state == (if r.value.TooManyRequests? then RateLimited else RequestState.Failed)
                && row.actualIn.None? && row.actualOut.None? && row.actualCost.None?
      ensures r.Failure? ==> ledger.rows == old(ledger.rows) && calls == old(calls)
      ensures r.Success? ==> SpentOn(ledger.rows, attempt) == Charged(SpentOn(old(ledger.rows), attempt), r.value)
    {
      var softLimit: Option<int>, estimateIn: nat, estimateOut: nat, available: bool, chat: Chat := *, *, *, *, *;
      var ticket := ledger.Reserve(attempt, softLimit, estimateIn, estimateOut, costHint, available);
      if ticket.Failure? {
        log := log + [Asked(Failure(ticket.error))];
        return Failure(ticket.error);
      }
      ghost var row := ledger.rows[ticket.value];
      calls := calls + 1;
      SettleLast(before, old(ledger.rows), attempt, row, chat);
      ledger.Finish(ticket.value, StateOf(chat), UsageOf(chat));
      assert ledger.rows == (old(ledger.rows) + [row])[|old(ledger.rows)| := Finished(row, StateOf(chat), UsageOf(chat))];
      log := log + [Asked(Success(chat))];
      return Success(chat);
    }

    /** One turn's request with its three separate retry allowances. */
    method Turn(ghost before: seq<Request>)
      returns (r: Result<Chat, ExitKind>, ghost retried: seq<Event>, ghost last: Result<Chat, Refusal>)
      requires HintOk() && ledger.Valid() && SettledOnce(before, ledger.rows, attempt)
      modifies this`calls, this`log, ledger`rows, ledger`excess
      ensures ledger.Valid() && SettledOnce(before, ledger.rows, attempt)
      ensures log == old(log) + retried + [Asked(last)] && Retried(cfg, retried) && TurnEnds(cfg, retried, last, r)
      ensures calls <= old(calls) + CallsPerTurn(cfg) && calls - old(calls) == |ledger.rows| - |old(ledger.rows)|
      ensures r.Failure? ==> !DropsUsage(r.error) && SpentOn(ledger.rows, attempt) == SpentOn(old(ledger.rows), attempt)
      ensures r.Success? ==>
                r.value.Replied?
                && SpentOn(ledger.rows, attempt) == Charged(SpentOn(old(ledger.rows), attempt), r.value)
    {
      var rateTry, serverTry, toolTry := 0, 0, 0;
      retried := [];
      while true
        invariant ledger.Valid() && SettledOnce(before, ledger.rows, attempt)
        invariant 0 <= rateTry <= AtLeastZero(cfg.rateRetries) && 0 <= serverTry <= AtLeastZero(cfg.serverRetries)
        invariant 0 <= toolTry <= AtLeastZero(cfg.toolRetries)
        invariant calls == old(calls) + rateTry + serverTry + toolTry
        invariant calls - old(calls) == |ledger.rows| - |old(ledger.rows)|
        invariant SpentOn(ledger.rows, attempt) == SpentOn(old(ledger.rows), attempt)
        invariant log == old(log) + retried && Retried(cfg, retried)
        invariant Tried(retried) == (rateTry, serverTry, toolTry, 0)
        decreases AtLeastZero(cfg.rateRetries) - rateTry, AtLeastZero(cfg.serverRetries) - serverTry,
                  AtLeastZero(cfg.toolRetries) - toolTry
      {
        var asked := Ask(before);
        last := asked;
        if asked.Failure? {
          return Failure(if asked.error.BudgetExceeded? then OverBudget else RequestFailed), retried, last;
        }
        match asked.value {
          case Replied(_, _) => return Success(asked.value), retried, last;
          case TooManyRequests =>
            if rateTry >= cfg.rateRetries {
              return Failure(ProviderFailed), retried, last;
            }
            rateTry := rateTry + 1;
          case ServerError =>
            if serverTry >= cfg.serverRetries {
              return Failure(ProviderFailed), retried, last;
            }
            serverTry := serverTry + 1;
          case ToolUseFailed =>
            if toolTry >= cfg.toolRetries {
              return Failure(ProviderFailed), retried, last;
            }
            toolTry := toolTry + 1;
          case OtherStatus => return Failure(ProviderFailed), retried, last;
          case TimedOut => return Failure(ModelTimeout), retried, last;
          case ClientError => return Failure(RequestFailed), retried, last;
        }
        RetriedMore(cfg, retried, Asked(asked));
        TriedOneMore(retried, asked.value);
        assert old(log) + retried + [Asked(asked)] == old(log) + (retried + [Asked(asked)]);
        retried := retried + [Asked(asked)];
      }
    }

    /** Counts a command that is about to run; it is refused if it ran too often. */
    method Count(command: Command) returns (refused: bool)
      requires CountsMatch(commandCounts, executed) && RepeatsWithin(executed, AtLeastZero(cfg.repeatLimit))
      modifies this`commandCounts, this`executed
      ensures refused <==> Times(old(executed), command) >= cfg.repeatLimit
      ensures executed == if refused then old(executed) else old(executed) + [command]
      ensures !refused ==> CountsMatch(commandCounts, executed)
      ensures RepeatsWithin(executed, AtLeastZero(cfg.repeatLimit))
    {
      var count := (if command in commandCounts then commandCounts[command] else 0) + 1;
      ghost var counts := commandCounts;
      commandCounts := commandCounts[command := count];
      assert Times(executed, command) == count - 1;
      if count > cfg.repeatLimit {
        return true;
      }
      CountOneMore(counts, executed, command, AtLeastZero(cfg.repeatLimit));
      executed := executed + [command];
      return false;
    }

    /** Runs a shell command unless it was run too often; `None` means the conversation goes on. */
    method RunCommand(command: Command, tokens: nat) returns (exit: Option<ExitKind>, ghost event: Event)
      requires CountsMatch(commandCounts, executed) && RepeatsWithin(executed, AtLeastZero(cfg.repeatLimit))
      requires noProgress == Stale(log)
      modifies this`commandCounts, this`executed, this`noProgress, this`log
      ensures exit.None? ==> CountsMatch(commandCounts, executed)
      ensures RepeatsWithin(executed, AtLeastZero(cfg.repeatLimit))
      ensures log == old(log) + [event] && !event.Asked? && event.command == command && noProgress == Stale(log)
      ensures event.Repeats? <==> Times(old(executed), command) >= cfg.repeatLimit
      ensures executed == if event.Ran? then old(executed) + [command] else old(executed)
      ensures exit == match event
                      case Repeats(_) => Some(Repeated)
                      case Ran(_, Unsafe) => Some(UnsafeCommand)
                      case Ran(_, CommandTimeout) => Some(CommandTimedOut)
                      case Ran(_, WorkspaceLimit) => Some(WorkspaceFull)
                      case Ran(_, PolicyBreach) => Some(PolicyViolation)
                      case _ => if Stuck(cfg, log, tokens) then Some(NoProgress) else None
    {
      var refused := Count(command);
      if refused {
        event := Repeats(command);
        LogOneMore(log, event);
        log := log + [event];
        return Some(Repeated), event;
      }
      exit, event := Observe(command, tokens);
    }

    /** What came of the command. */
    method Observe(command: Command, tokens: nat) returns (exit: Option<ExitKind>, ghost event: Event)
      requires noProgress == Stale(log)
      modifies this`noProgress, this`log
      ensures log == old(log) + [event] && event.Ran? && event.command == command && noProgress == Stale(log)
      ensures exit == match event.seen
                      case Unsafe => Some(UnsafeCommand)
                      case CommandTimeout => Some(CommandTimedOut)
                      case WorkspaceLimit => Some(WorkspaceFull)
                      case PolicyBreach => Some(PolicyViolation)
                      case _ => if Stuck(cfg, log, tokens) then Some(NoProgress) else None
    {
      var seen: Observation := *;
      event := Ran(command, seen);
      LogOneMore(log, event);
      log := log + [event];
      match seen {
        case Unsafe => return Some(UnsafeCommand), event;
        case CommandTimeout => return Some(CommandTimedOut), event;
        case WorkspaceLimit => return Some(WorkspaceFull), event;
        case PolicyBreach => return Some(PolicyViolation), event;
        case Observed(progress) =>
          noProgress := if progress then 0 else noProgress + 1;
          return if noProgress >= cfg.noDiffLimit && tokens >= cfg.tokenLimit then Some(NoProgress) else None, event;
        case ToolError => return None, event;
      }
    }

    /** The tickets and sums after `turn` turns. */
    ghost predicate Accounted(before: seq<Request>, turn: nat, input: nat, output: nat, cost: real)
      reads this`calls, ledger
    {
      && ledger.Valid() && SettledOnce(before, ledger.rows, attempt)
      && calls == |ledger.rows| - |before| && calls <= CallBound(turn, cfg)
      && SpentOn(ledger.rows, attempt).input == input && SpentOn(ledger.rows, attempt).output == output
      && CostOf(SpentOn(ledger.rows, attempt).cost) == cost
    }

    /** The commands run so far. */
    ghost predicate Counting()
      reads this`commandCounts, this`executed
    {
      CountsMatch(commandCounts, executed) && RepeatsWithin(executed, AtLeastZero(cfg.repeatLimit))
    }

    /** The conversation after `turn` turns, still open. */
    ghost predicate Talking(turn: nat, tokens: nat)
      reads this`log, this`noProgress
    {
      AllOpen(log) && Answers(log) == turn && noProgress == Stale(log) && GoesOn(cfg, log, tokens)
    }

    /**
     The end of an execution. Each ticket is settled exactly once; calls are bounded by the turns and
     retry allowances; the last event decides the kind of the exit; the controller's mismatch check
     fires exactly when the exit drops its usage and there was some.
     */
    ghost predicate Over(before: seq<Request>, r: Report)
      reads this, ledger
    {
      var s := SpentOn(ledger.rows, attempt);
      && ledger.Valid() && SettledOnce(before, ledger.rows, attempt)
      && calls == |ledger.rows| - |before| && calls <= MaxCalls(cfg)
      && RepeatsWithin(executed, AtLeastZero(cfg.repeatLimit))
      && Billed(s, r)
      && EndsBy(cfg, log, s.input + s.output, r.kind) && OpenUntilLast(log) && Answers(log) <= AtLeastZero(cfg.maxTurns)
    }

    /** What a reply asks for is done, or ends the run. */
    method Obey(action: Action, turn: nat, input: nat, output: nat, cost: real, ghost before: seq<Request>)
      returns (r: Option<Report>)
      requires Accounted(before, turn, input, output, cost) && Counting() && turn <= cfg.maxTurns
      requires ReplyLogged(cfg, log, input + output, action) && OpenUntilLast(log)
      requires Answers(log) == turn && noProgress == Stale(log)
      modifies this`commandCounts, this`noProgress, this`executed, this`log
      ensures r.None? ==> Accounted(before, turn, input, output, cost) && Counting() && Talking(turn, input + output)
      ensures r.Some? ==> Over(before, r.value)
    {
      CallBoundGrows(cfg);
      assert calls <= CallBound(turn, cfg) <= MaxCalls(cfg);
      var kind: Option<ExitKind>;
      match action {
        case MalformedCall => kind := Some(InvalidToolCall);
        case Breaks => kind := Some(Crashed);
        case Finish => kind := Some(Completed);
        case Unparsable => kind := None;
        case BadAction => kind := None;
        case Research => kind := None;
        case Shell(command) =>
          ghost var asked, event := log, Repeats(command);
          kind, event := RunCommand(command, input + output);
          CommandLogged(cfg, asked, event, input + output, kind);
      }
      r := None;
      if kind.Some? {
        BillsAll(SpentOn(ledger.rows, attempt), kind.value);
        r := Some(if DropsUsage(kind.value) then Report(kind.value, 0, 0, 0.0) else Report(kind.value, input, output, cost));
      }
    }

    /** One turn: a request with its retries, and what its reply asks for. */
    method TakeTurn(turn: nat, input0: nat, output0: nat, cost0: real, ghost before: seq<Request>)
      returns (r: Option<Report>, input: nat, output: nat, cost: real)
      requires HintOk() && Accounted(before, turn, input0, output0, cost0) && Counting() && Talking(turn, input0 + output0)
      requires turn < cfg.maxTurns
      modifies this`calls, this`commandCounts, this`noProgress, this`executed, this`log, ledger`rows, ledger`excess
      ensures r.None? ==> Accounted(before, turn + 1, input, output, cost) && Counting() && Talking(turn + 1, input + output)
      ensures r.Some? ==> Over(before, r.value)
    {
      input, output, cost := input0, output0, cost0;
      ghost var log0 := log;
      var reply;
      ghost var retried, last;
      reply, retried, last := Turn(before);
      CallBoundGrows(cfg);
      assert calls <= CallBound(turn + 1, cfg);
      if reply.Failure? {
        TurnLogged(cfg, log0, retried, last, reply, input + output);
        BillsAll(SpentOn(ledger.rows, attempt), reply.error);
        return Some(Report(reply.error, input, output, cost)), input, output, cost;
      }
      var u := reply.value.usage;
      input, output, cost := input + Known(u.input, 0), output + Known(u.output, 0), cost + CostOf(u.cost);
      TurnLogged(cfg, log0, retried, last, reply, input + output);
      r := Obey(reply.value.action, turn + 1, input, output, cost, before);
    }

    method Run() returns (r: Report)
      requires HintOk() && ledger.Valid() && SpentOn(ledger.rows, attempt) == Spent(0, 0, None)
      requires calls == 0 && commandCounts == map[] && noProgress == 0 && executed == [] && log == []
      modifies this`calls, this`commandCounts, this`noProgress, this`executed, this`log, ledger`rows, ledger`excess
      ensures Over(old(ledger.rows), r)
    {
      ghost var before := ledger.rows;
      var input, output, cost := 0, 0, 0.0;
      assert CountsMatch(commandCounts, executed);
      CallBoundGrows(cfg);
      var turn := 0;
      while turn < cfg.maxTurns
        invariant 0 <= turn <= AtLeastZero(cfg.maxTurns)
        invariant Accounted(before, turn, input, output, cost) && Counting() && Talking(turn, input + output)
      {
        var ended;
        ended, input, output, cost := TakeTurn(turn, input, output, cost, before);
        if ended.Some? {
          return ended.value;
        }
        turn := turn + 1;
      }
      BillsAll(SpentOn(ledger.rows, attempt), TurnsExhausted);
      return Report(TurnsExhausted, input, output, cost);
    }
  }

  /** The outcome the controller gives the exits that drop their usage; a mismatch overrides it. */
  function ControllerOutcome(s: Spent, r: Report): (o: AttemptLoop.Outcome)
    requires DropsUsage(r.kind)
  {
    if Mismatch(s, r) then AttemptLoop.PolicyFailure
    else if r.kind.InvalidToolCall? then AttemptLoop.ProtocolFailure
    else AttemptLoop.ExecutorCrash
  }

  /**
   A malformed tool call, which would be retried with the same candidate, and a crash, which would
   be retried with another one, block the job exactly when the attempt had used something.
   */
  lemma DroppedUsageBlocks(s: Spent, kind: ExitKind)
    requires DropsUsage(kind)
    ensures var action := AttemptLoop.PolicyFor(ControllerOutcome(s, Report(kind, 0, 0, 0.0)));
            && (action.Block? <==> s.input + s.output > 0 || CostOf(s.cost) != 0.0)
            && (!action.Block? ==> action == if kind.InvalidToolCall? then AttemptLoop.RetrySame else AttemptLoop.RetryAlternate)
  {
    assert Mismatch(s, Report(kind, 0, 0, 0.0)) <==> s.input + s.output > 0 || CostOf(s.cost) != 0.0;
  }

  function CallBound(turns: nat, cfg: Config): (n: nat) {
    if turns == 0 then 0 else CallBound(turns - 1, cfg) + CallsPerTurn(cfg)
  }

  lemma {:induction false} CallBoundIs(turns: nat, cfg: Config)
    ensures CallBound(turns, cfg) == turns * CallsPerTurn(cfg)
  {
    if turns > 0 {
      CallBoundIs(turns - 1, cfg);
    }
  }

  lemma CallBoundGrows(cfg: Config)
    ensures forall turn {:trigger CallBound(turn, cfg)} :: 0 <= turn <= AtLeastZero(cfg.maxTurns) ==>
              CallBound(turn, cfg) <= MaxCalls(cfg)
  {
    forall turn | 0 <= turn <= AtLeastZero(cfg.maxTurns)
      ensures CallBound(turn, cfg) <= MaxCalls(cfg)
    {
      CallBoundIs(turn, cfg);
      Monotone(turn, AtLeastZero(cfg.maxTurns), CallsPerTurn(cfg));
    }
  }

  lemma Monotone(a: nat, b: nat, n: nat)
    requires a <= b
    ensures a * n <= b * n
  {
  }
}
