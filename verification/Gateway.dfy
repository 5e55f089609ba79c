/** The failover loop of the provider gateway: one reset wait, bounded attempts, every ticket settled. */
module Gateway {
  import opened Wrappers

  /**
   What the upstream makes of one request; `Status` is an HTTP error with the delay to the next free
   lane, `TransportEscapes` an exception of the client that is no HTTP error, such as an invalid URL.
   */
  datatype Upstream =
    | KeyMissing | TransportError | TransportEscapes | Status(code: nat, delay: Option<nat>) | NotJson | NotObject | Answered

  /** What one turn of the loop meets: no ticket and the delay to the next free lane, or a ticket. */
  datatype Event = NoTicket(delay: Option<nat>) | Ticket(reply: Upstream)

  datatype Config = Config(maxFailovers: nat, maxWait: nat)

  /** `Escaped`: an exception left the handler. */
  datatype Response = Reply(status: nat) | Escaped

  /** Physical requests, reset waits, how often each granted ticket was settled, and the response. */
  datatype Served = Served(posts: nat, waits: nat, settled: seq<nat>, response: Response)

  predicate Fits(c: Config, delay: Option<nat>) { delay.Some? && delay.value <= c.maxWait }

  predicate Failover(code: nat) { code in {401, 403, 429, 500, 502, 503, 504} }

  /** Unused wait first, then remaining attempts. */
  function Serve(c: Config, env: nat -> Event, n: nat, attempts: nat, waited: bool, last: nat): (r: Served)
    requires attempts <= c.maxFailovers + 1
    decreases if waited then 0 else 1, c.maxFailovers + 1 - attempts
  {
    if attempts > c.maxFailovers then Served(0, 0, [], Reply(last))
    else
      match env(n)
      case NoTicket(delay) =>
        if !waited && Fits(c, delay) then OneWait(Serve(c, env, n + 1, 0, true, last))
        else if last == 429 then Served(0, 0, [], Reply(last))
        else Served(0, 0, [], Reply(if delay.Some? then 429 else 503))
      case Ticket(KeyMissing) => Served(0, 0, [1], Reply(503))
      case Ticket(TransportError) => OnePost(1, Serve(c, env, n + 1, attempts + 1, waited, last))
      case Ticket(TransportEscapes) => Served(1, 0, [0], Escaped)
      case Ticket(Status(code, delay)) =>
        if code == 429 && attempts + 1 > c.maxFailovers && !waited && Fits(c, delay)
        then OnePost(1, OneWait(Serve(c, env, n + 1, 0, true, code)))
        else if !Failover(code) then Served(1, 0, [1], Reply(code))
        else OnePost(1, Serve(c, env, n + 1, attempts + 1, waited, code))
      case Ticket(NotJson) => Served(1, 0, [1], Reply(502))
      case Ticket(NotObject) => Served(1, 0, [0], Escaped)
      case Ticket(Answered) => Served(1, 0, [1], Reply(200))
  }

  function OnePost(settlements: nat, rest: Served): (r: Served) {
    rest.(posts := rest.posts + 1, settled := [settlements] + rest.settled)
  }

  function OneWait(rest: Served): (r: Served) {
    rest.(waits := rest.waits + 1)
  }

  /** What was done before turn `n`, put in front of what is still to come. */
  function Joined(posts: nat, waits: nat, settled: seq<nat>, rest: Served): (r: Served) {
    Served(posts + rest.posts, waits + rest.waits, settled + rest.settled, rest.response)
  }

  lemma JoinedPost(posts: nat, waits: nat, settled: seq<nat>, rest: Served)
    ensures Joined(posts, waits, settled, OnePost(1, rest)) == Joined(posts + 1, waits, settled + [1], rest)
  {
    assert settled + ([1] + rest.settled) == settled + [1] + rest.settled;
  }

  class Handler {
    const cfg: Config
    var turn: nat

    constructor (cfg: Config)
      ensures this.cfg == cfg && turn == 0
    {
      this.cfg, turn := cfg, 0;
    }

    /** The handler of one chat completion. */
    method DoPost(env: nat -> Event) returns (r: Served)
      modifies this
      ensures r == Serve(cfg, env, old(turn), 0, false, 502)
    {
      ghost var goal := Serve(cfg, env, turn, 0, false, 502);
      var attempts, waited, last := 0, false, 502;
      var posts, waits: nat, settled: seq<nat> := 0, 0, [];
      while attempts <= cfg.maxFailovers
        invariant 0 <= attempts <= cfg.maxFailovers + 1
        invariant Joined(posts, waits, settled, Serve(cfg, env, turn, attempts, waited, last)) == goal
        decreases if waited then 0 else 1, cfg.maxFailovers + 1 - attempts
      {
        var event := env(turn);
        ghost var n := turn;
        turn := turn + 1;
        match event {
          case NoTicket(delay) =>
            if !waited && Fits(cfg, delay) {
              attempts, waited, waits := 0, true, waits + 1;
              continue;
            }
            return Served(posts, waits, settled, Reply(if last == 429 then last else if delay.Some? then 429 else 503));
          case Ticket(KeyMissing) =>
            return Served(posts, waits, settled + [1], Reply(503));
          case Ticket(TransportError) =>
            JoinedPost(posts, waits, settled, Serve(cfg, env, turn, attempts + 1, waited, last));
            attempts, posts, settled := attempts + 1, posts + 1, settled + [1];
          case Ticket(TransportEscapes) =>
            return Served(posts + 1, waits, settled + [0], Escaped);
          case Ticket(Status(code, delay)) =>
            last := code;
            if code == 429 && attempts + 1 > cfg.maxFailovers && !waited && Fits(cfg, delay) {
              JoinedPost(posts, waits, settled, OneWait(Serve(cfg, env, turn, 0, true, last)));
              attempts, waited, waits, posts, settled := 0, true, waits + 1, posts + 1, settled + [1];
              continue;
            }
            if !Failover(code) {
              return Served(posts + 1, waits, settled + [1], Reply(last));
            }
            JoinedPost(posts, waits, settled, Serve(cfg, env, turn, attempts + 1, waited, last));
            attempts, posts, settled := attempts + 1, posts + 1, settled + [1];
          case Ticket(NotJson) =>
            return Served(posts + 1, waits, settled + [1], Reply(502));
          case Ticket(NotObject) =>
            return Served(posts + 1, waits, settled + [0], Escaped);
          case Ticket(Answered) =>
            return Served(posts + 1, waits, settled + [1], Reply(200));
        }
      }
      return Served(posts, waits, settled, Reply(last));
    }
  }

  ghost predicate AllSettledOnce(settled: seq<nat>) {
    forall i :: 0 <= i < |settled| ==> settled[i] == 1
  }

  lemma {:induction false} ServeIsBounded(c: Config, env: nat -> Event, n: nat, attempts: nat, waited: bool, last: nat)
    requires attempts <= c.maxFailovers + 1
    ensures var r := Serve(c, env, n, attempts, waited, last);
            && r.posts <= (if waited then 0 else c.maxFailovers + 1) + (c.maxFailovers + 1 - attempts)
            && r.waits <= (if waited then 0 else 1)
            && r.posts <= |r.settled| <= r.posts + 1
            && (AllSettledOnce(r.settled) <==> r.response.Reply?)
            && (forall i :: 0 <= i < |r.settled| - 1 ==> r.settled[i] == 1)
    decreases if waited then 0 else 1, c.maxFailovers + 1 - attempts
  {
    if attempts <= c.maxFailovers {
      match env(n)
      case NoTicket(delay) =>
        if !waited && Fits(c, delay) {
          ServeIsBounded(c, env, n + 1, 0, true, last);
        }
      case Ticket(TransportError) =>
        ServeIsBounded(c, env, n + 1, attempts + 1, waited, last);
        PostKeeps(Serve(c, env, n + 1, attempts + 1, waited, last));
      case Ticket(Status(code, delay)) =>
        if code == 429 && attempts + 1 > c.maxFailovers && !waited && Fits(c, delay) {
          ServeIsBounded(c, env, n + 1, 0, true, code);
          PostKeeps(OneWait(Serve(c, env, n + 1, 0, true, code)));
        } else if Failover(code) {
          ServeIsBounded(c, env, n + 1, attempts + 1, waited, code);
          PostKeeps(Serve(c, env, n + 1, attempts + 1, waited, code));
        }
      case Ticket(TransportEscapes) =>
        assert Serve(c, env, n, attempts, waited, last).settled[0] == 0;
      case Ticket(NotObject) =>
        assert Serve(c, env, n, attempts, waited, last).settled[0] == 0;
      case _ =>
    }
  }

  lemma PostKeeps(rest: Served)
    ensures AllSettledOnce(OnePost(1, rest).settled) <==> AllSettledOnce(rest.settled)
  {
    if AllSettledOnce(OnePost(1, rest).settled) {
      forall i | 0 <= i < |rest.settled|
        ensures rest.settled[i] == 1
      {
        assert OnePost(1, rest).settled[i + 1] == rest.settled[i];
      }
    }
  }

  /**
   Failover: for any upstream the loop ends, makes at most 2 * (max_failovers + 1) physical requests,
   waits for a reset at most once, and settles every ticket once unless an exception escapes,
   from the client or from an answer that is no object.
   */
  lemma FailoverIsBounded(c: Config, env: nat -> Event, start: nat)
    ensures var r := Serve(c, env, start, 0, false, 502);
            && r.posts <= 2 * (c.maxFailovers + 1) && r.waits <= 1
            && (AllSettledOnce(r.settled) <==> r.response.Reply?)
            && |r.settled| <= 2 * (c.maxFailovers + 1) + 1
  {
    ServeIsBounded(c, env, start, 0, false, 502);
  }

  /** The code of the last HTTP error among the turns from `n` up to `m`. */
  function LastCode(env: nat -> Event, n: nat, m: nat, last: nat): (code: nat)
    requires n <= m
    decreases m - n
  {
    if n == m then last
    else LastCode(env, n + 1, m, if env(n).Ticket? && env(n).reply.Status? then env(n).reply.code else last)
  }

  /** The loop may go on after this turn. */
  predicate MayGoOn(e: Event) {
    e.NoTicket? || e.reply.TransportError?
    || (e.reply.Status? && e.reply.code in {401, 403, 429, 500, 502, 503, 504})
  }

  /** The answer goes back to one turn: to what the provider answered, or to the turn that had no ticket left. */
  predicate AnsweredBy(e: Event, code: nat, response: Response) {
    match e
    case NoTicket(delay) => response == Reply(if code == 429 || delay.Some? then 429 else 503)
    case Ticket(Answered) => response == Reply(200)
    case Ticket(NotJson) => response == Reply(502)
    case Ticket(KeyMissing) => response == Reply(503)
    case Ticket(Status(c, _)) => c !in {401, 403, 429, 500, 502, 503, 504} && response == Reply(c)
    case Ticket(NotObject) => response.Escaped?
    case Ticket(TransportEscapes) => response.Escaped?
    case Ticket(TransportError) => false
  }

  /** A delay that fits was worth waiting for, and the one wait was taken before or is taken now. */
  predicate WaitUsed(c: Config, delay: Option<nat>, waited: bool, waits: nat) {
    Fits(c, delay) ==> waited || waits > 0
  }

  ghost predicate HasCause(c: Config, env: nat -> Event, n: nat, m: nat, attempts: nat, waited: bool, last: nat,
                           r: Served) {
    && n <= m && (forall i {:trigger env(i)} :: n <= i < m ==> MayGoOn(env(i)))
    && (|| (AnsweredBy(env(m), LastCode(env, n, m, last), r.response)
            && (env(m).NoTicket? ==> WaitUsed(c, env(m).delay, waited, r.waits)))
        || (r.response == Reply(LastCode(env, n, m, last)) && r.posts + attempts >= c.maxFailovers + 1
            && (m == n ==> attempts > c.maxFailovers)
            && (m > n && env(m - 1).Ticket? && env(m - 1).reply.Status? && env(m - 1).reply.code == 429 ==>
                  WaitUsed(c, env(m - 1).reply.delay, waited, r.waits))))
  }

  /**
   The response has a cause: the first turn that ends the loop decides it, or every attempt was used
   up and the code of the last HTTP error goes back. Nothing is given up early: a delay that fits is
   waited for once.
   */
  lemma {:induction false} ResponseHasCause(c: Config, env: nat -> Event, n: nat, attempts: nat, waited: bool, last: nat)
    returns (m: nat)
    requires attempts <= c.maxFailovers + 1
    ensures HasCause(c, env, n, m, attempts, waited, last, Serve(c, env, n, attempts, waited, last))
    decreases if waited then 0 else 1, c.maxFailovers + 1 - attempts
  {
    m := n;
    if attempts <= c.maxFailovers {
      match env(n)
      case NoTicket(delay) =>
        if !waited && Fits(c, delay) {
          m := ResponseHasCause(c, env, n + 1, 0, true, last);
        }
      case Ticket(TransportError) =>
        m := ResponseHasCause(c, env, n + 1, attempts + 1, waited, last);
      case Ticket(Status(code, delay)) =>
        if code == 429 && attempts + 1 > c.maxFailovers && !waited && Fits(c, delay) {
          m := ResponseHasCause(c, env, n + 1, 0, true, code);
        } else if Failover(code) {
          m := ResponseHasCause(c, env, n + 1, attempts + 1, waited, code);
        }
      case _ =>
    }
  }

  function AlwaysLimited(): (env: nat -> Event) {
    n => Ticket(Status(429, Some(0)))
  }

  lemma {:induction false} LimitedPosts(c: Config, n: nat, attempts: nat, waited: bool, last: nat)
    requires attempts <= c.maxFailovers
    ensures Serve(c, AlwaysLimited(), n, attempts, waited, last).posts ==
            (if waited then 0 else c.maxFailovers + 1) + (c.maxFailovers + 1 - attempts)
    decreases if waited then 0 else 1, c.maxFailovers + 1 - attempts
  {
    if attempts + 1 <= c.maxFailovers {
      LimitedPosts(c, n + 1, attempts + 1, waited, 429);
    } else if !waited {
      LimitedPosts(c, n + 1, 0, true, 429);
    } else {
      assert Serve(c, AlwaysLimited(), n + 1, attempts + 1, waited, 429).posts == 0;
    }
  }

  /** The bound is reached: a provider that always answers 429 is asked 2 * (max_failovers + 1) times. */
  lemma BoundIsTight(c: Config, start: nat)
    ensures Serve(c, AlwaysLimited(), start, 0, false, 502).posts == 2 * (c.maxFailovers + 1)
  {
    LimitedPosts(c, start, 0, false, 502);
  }
}
