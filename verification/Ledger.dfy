/** The model-request ledger of one job: the budget gate and the life of a ticket. */
module Ledger {
  import opened Wrappers

  datatype RequestState = Started | Succeeded | RateLimited | Failed

  /** A ledger row; `settled` counts how often it was finished. */
  datatype Request = Request(attempt: nat, started: int, state: RequestState, settled: nat,
                             estimateIn: nat, estimateOut: nat, estimateCost: Option<real>,
                             actualIn: Option<nat>, actualOut: Option<nat>, actualCost: Option<real>)

  datatype Usage = Usage(input: Option<nat>, output: Option<nat>, cost: Option<real>)

  datatype Budget = Budget(requests: int, input: Option<int>, output: Option<int>, cost: Option<real>)

  datatype Refusal = ContextTooLarge | BudgetExceeded | NoCapacity

  /** The request limit of a lane; a limit of zero counts as none. */
  predicate TooLarge(softLimit: Option<int>, estimateIn: nat, estimateOut: nat) {
    softLimit.Some? && softLimit.value != 0 && estimateIn + estimateOut > softLimit.value
  }

  predicate Counted(r: Request, feedback: Option<int>) { feedback.None? || r.started > feedback.value }

  function Known(actual: Option<nat>, estimate: nat): (n: nat) {
    if actual.Some? then actual.value else estimate
  }

  function KnownCost(actual: Option<real>, estimate: Option<real>): (c: real) {
    if actual.Some? then actual.value else if estimate.Some? then estimate.value else 0.0
  }

  /** What is committed since the latest feedback: actual usage where known, else the estimate. */
  datatype Committed = Committed(requests: nat, input: nat, output: nat, cost: real)

  function Add(c: Committed, r: Request): (c': Committed) {
    Committed(c.requests + 1, c.input + Known(r.actualIn, r.estimateIn), c.output + Known(r.actualOut, r.estimateOut),
              c.cost + KnownCost(r.actualCost, r.estimateCost))
  }

  function Totals(rows: seq<Request>, feedback: Option<int>): (c: Committed) {
    if rows == [] then Committed(0, 0, 0, 0.0)
    else
      var front := Totals(rows[..|rows| - 1], feedback);
      if Counted(rows[|rows| - 1], feedback) then Add(front, rows[|rows| - 1]) else front
  }

  predicate Fits(b: Budget, c: Committed, estimateIn: nat, estimateOut: nat, estimateCost: Option<real>) {
    && c.requests < b.requests
    && (b.input.Some? ==> c.input + estimateIn <= b.input.value)
    && (b.output.Some? ==> c.output + estimateOut <= b.output.value)
    && (b.cost.Some? ==> c.cost + KnownCost(None, estimateCost) <= b.cost.value)
  }

  /** Actual minus estimated usage of the requests finished since the last grant. */
  datatype Excess = Excess(input: int, output: int, cost: real)

  const NOTHING := Excess(0, 0, 0.0)

  function ExcessOf(before: Request, after: Request): (e: Excess) {
    Excess(Known(after.actualIn, after.estimateIn) - Known(before.actualIn, before.estimateIn),
           Known(after.actualOut, after.estimateOut) - Known(before.actualOut, before.estimateOut),
           KnownCost(after.actualCost, after.estimateCost) - KnownCost(before.actualCost, before.estimateCost))
  }

  function Plus(a: Excess, b: Excess): (e: Excess) {
    Excess(a.input + b.input, a.output + b.output, a.cost + b.cost)
  }

  /** The ceilings hold up to the excess; a program that never got a grant has committed nothing. */
  predicate Within(b: Budget, c: Committed, e: Excess) {
    || c == Committed(0, 0, 0, 0.0)
    || (&& c.requests <= b.requests
        && (b.input.Some? ==> c.input <= b.input.value + e.input)
        && (b.output.Some? ==> c.output <= b.output.value + e.output)
        && (b.cost.Some? ==> c.cost <= b.cost.value + e.cost))
  }

  function Finished(r: Request, state: RequestState, u: Usage): (r': Request) {
    r.(state := state, settled := r.settled + 1, actualIn := u.input, actualOut := u.output, actualCost := u.cost)
  }

  lemma {:induction false} ReplaceOne(rows: seq<Request>, feedback: Option<int>, i: nat, r: Request)
    requires i < |rows| && r.started == rows[i].started
    ensures var before, after := Totals(rows, feedback), Totals(rows[i := r], feedback);
            var e := if Counted(r, feedback) then ExcessOf(rows[i], r) else NOTHING;
            after.requests == before.requests && after.input == before.input + e.input
            && after.output == before.output + e.output && after.cost == before.cost + e.cost
            && (Counted(r, feedback) ==> before.requests >= 1)
  {
    var front := rows[..|rows| - 1];
    if i == |rows| - 1 {
      assert rows[i := r][..|rows| - 1] == front;
    } else {
      assert rows[i := r][..|rows| - 1] == front[i := r];
      ReplaceOne(front, feedback, i, r);
    }
  }

  lemma {:induction false} NothingSince(rows: seq<Request>, now: int)
    requires forall i :: 0 <= i < |rows| ==> rows[i].started <= now
    ensures Totals(rows, Some(now)) == Committed(0, 0, 0, 0.0)
  {
    if rows != [] {
      NothingSince(rows[..|rows| - 1], now);
    }
  }

  class JobLedger {
    const budget: Option<Budget>
    var rows: seq<Request>
    var feedback: Option<int>
    var clock: int
    ghost var excess: Excess

    /**
     One runner per job: the requests since the latest feedback never exceed their limit, and
     committed tokens and cost exceed the ceilings by no more than what requests finished since
     the last grant used beyond their estimates.
     */
    ghost predicate Valid()
      reads this
    {
      && (forall i :: 0 <= i < |rows| ==> rows[i].started <= clock)
      && (budget.Some? ==> Within(budget.value, Totals(rows, feedback), excess))
    }

    constructor (budget: Option<Budget>, now: int)
      ensures Valid() && rows == [] && this.budget == budget
    {
      this.budget, rows, feedback, clock, excess := budget, [], None, now, NOTHING;
    }

    /** The lane's limit comes first, then the budget over the totals; then the row is reserved and started. */
    method Reserve(attempt: nat, softLimit: Option<int>, estimateIn: nat, estimateOut: nat, estimateCost: Option<real>,
                   available: bool)
      returns (r: Result<nat, Refusal>)
      requires Valid() && (estimateCost.Some? ==> estimateCost.value >= 0.0)
      modifies this`rows, this`excess
      ensures Valid()
      ensures r == Failure(ContextTooLarge) <==> TooLarge(softLimit, estimateIn, estimateOut)
      ensures r == Failure(BudgetExceeded) <==>
                && !TooLarge(softLimit, estimateIn, estimateOut)
                && budget.Some? && !Fits(budget.value, Totals(old(rows), feedback), estimateIn, estimateOut, estimateCost)
      ensures r.Success? ==>
                && available && r.value == |old(rows)| && excess == NOTHING
                && rows == old(rows) + [Request(attempt, clock, Started, 0, estimateIn, estimateOut, estimateCost,
                                                None, None, None)]
      ensures r.Failure? ==> rows == old(rows) && excess == old(excess)
    {
      if TooLarge(softLimit, estimateIn, estimateOut) {
        return Failure(ContextTooLarge);
      }
      if budget.Some? {
        var b, totals := budget.value, Totals(rows, feedback);
        if totals.requests >= b.requests {
          return Failure(BudgetExceeded);
        }
        if b.input.Some? && totals.input + estimateIn > b.input.value {
          return Failure(BudgetExceeded);
        }
        if b.output.Some? && totals.output + estimateOut > b.output.value {
          return Failure(BudgetExceeded);
        }
        if b.cost.Some? && totals.cost + KnownCost(None, estimateCost) > b.cost.value {
          return Failure(BudgetExceeded);
        }
      }
      if !available {
        return Failure(NoCapacity);
      }
      var row := Request(attempt, clock, Started, 0, estimateIn, estimateOut, estimateCost, None, None, None);
      assert (rows + [row])[..|rows|] == rows;
      rows, excess := rows + [row], NOTHING;
      return Success(|rows| - 1);
    }

    /** `succeed` and `fail` record the outcome of a ticket. */
    method Finish(ticket: nat, state: RequestState, u: Usage)
      requires Valid() && ticket < |rows|
      modifies this`rows, this`excess
      ensures Valid() && rows == old(rows)[ticket := Finished(old(rows)[ticket], state, u)]
      ensures var row := rows[ticket];
              && row.state == state && row.settled == old(rows)[ticket].settled + 1
              && row.actualIn == u.input && row.actualOut == u.output && row.actualCost == u.cost
              && row.attempt == old(rows)[ticket].attempt && row.started == old(rows)[ticket].started
    {
      var after := Finished(rows[ticket], state, u);
      ReplaceOne(rows, feedback, ticket, after);
      excess := if Counted(after, feedback) then Plus(excess, ExcessOf(rows[ticket], after)) else excess;
      rows := rows[ticket := after];
    }

    /** Human feedback starts a new cycle. */
    method AddFeedback(now: int)
      requires Valid() && now >= clock
      modifies this`feedback, this`clock
      ensures Valid() && feedback == Some(now) && Totals(rows, feedback) == Committed(0, 0, 0, 0.0)
    {
      NothingSince(rows, now);
      feedback, clock := Some(now), now;
    }

    method Advance(now: int)
      requires Valid() && now >= clock
      modifies this`clock
      ensures Valid() && clock == now
    {
      clock := now;
    }
  }

  /** Token and cost sums of one attempt, over what the provider reported. */
  datatype Spent = Spent(input: nat, output: nat, cost: Option<real>)

  function SpentOn(rows: seq<Request>, attempt: nat): (s: Spent) {
    if rows == [] then Spent(0, 0, None)
    else
      var front := SpentOn(rows[..|rows| - 1], attempt);
      var r := rows[|rows| - 1];
      if r.attempt != attempt then front
      else
        Spent(front.input + Known(r.actualIn, 0), front.output + Known(r.actualOut, 0),
              if r.actualCost.None? then front.cost
              else Some((if front.cost.Some? then front.cost.value else 0.0) + r.actualCost.value))
  }
}
