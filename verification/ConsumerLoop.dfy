/** The Kafka consumer loop: bounded retries with growing waits, dead-lettering, and offsets marked in order. */
module ConsumerLoop {
  import opened Common

  type Offset = nat

  /** What the processor answers; a transient error may carry a retry boundary. */
  datatype Result = Success | Permanent | Transient(retryAfter: Option<Time>) | Unknown

  /** Where the session's context is looked at. */
  datatype Point = BeforeAttempt | BeforeDeadLetter | DuringWait

  /** Everything outside the loop: the processor, the context and the dead-letter topic, as they answer in one
      session. */
  datatype Surroundings = Surroundings(
    process: (Offset, nat) -> Result, cancelled: (Offset, nat, Point) -> bool, deadLetter: Offset -> bool)

  datatype Config = Config(maxRetries: int, initialBackoff: Time, maxBackoff: Time)

  predicate Normal(c: Config) {
    c.maxRetries >= 0 && 0 < c.initialBackoff <= c.maxBackoff
  }

  /** normalized: sane settings stay as they are. */
  function Normalized(c: Config): (r: Config)
    ensures Normal(r) && (Normal(c) ==> r == c)
    ensures c.maxRetries >= 0 ==> r.maxRetries == c.maxRetries
    ensures c.maxBackoff > 0 ==> r.maxBackoff == c.maxBackoff
    ensures (c.maxRetries < 0 ==> r.maxRetries == 0) && (c.maxBackoff <= 0 ==> r.maxBackoff == 2_000_000_000)
    ensures r.initialBackoff < r.maxBackoff ==>
              r.initialBackoff == if c.initialBackoff > 0 then c.initialBackoff else 100_000_000
  {
    var initial := if c.initialBackoff <= 0 then 100_000_000 else c.initialBackoff;
    var most := if c.maxBackoff <= 0 then 2_000_000_000 else c.maxBackoff;
    Config(if c.maxRetries < 0 then 0 else c.maxRetries, Min(initial, most), most)
  }

  /** The wait that precedes retry k + 1 at the least. */
  function Backoff(c: Config, k: nat): Time {
    Min(c.initialBackoff * Doubled(k), c.maxBackoff)
  }

  lemma BackoffDoubles(c: Config, k: nat)
    requires Normal(c)
    ensures Backoff(c, k + 1) == Min(2 * Backoff(c, k), c.maxBackoff)
    ensures Backoff(c, 0) == c.initialBackoff
  {
  }

  /** The first n attempts were all transient failures, each followed by a full wait. */
  ghost predicate Reaches(s: Surroundings, m: Offset, n: nat) {
    forall i: nat | i < n ::
      !s.cancelled(m, i, BeforeAttempt) && s.process(m, i).Transient? && !s.cancelled(m, i, DuringWait)
  }

  predicate Exhausted(c: Config, s: Surroundings, m: Offset, n: nat) {
    s.process(m, n) != Success && (!s.process(m, n).Transient? || n >= c.maxRetries)
  }

  predicate DeadLettered(c: Config, s: Surroundings, m: Offset, n: nat) {
    Exhausted(c, s, m, n) && !s.cancelled(m, n, BeforeDeadLetter) && s.deadLetter(m)
  }

  /** Attempt n ends the message for good: it succeeds, or it fails for the last time and the dead-letter topic has the
      message. */
  ghost predicate SettlesAt(c: Config, s: Surroundings, m: Offset, n: nat) {
    && n <= c.maxRetries && Reaches(s, m, n) && !s.cancelled(m, n, BeforeAttempt)
    && (s.process(m, n) == Success || DeadLettered(c, s, m, n))
  }

  ghost predicate Settles(c: Config, s: Surroundings, m: Offset) {
    exists n: nat :: SettlesAt(c, s, m, n)
  }

  /** A message settles exactly if some attempt within the limit, after nothing but transient failures and with the
      session going on, either succeeds, or fails for good and the message is dead-lettered before the session ends. */
  lemma SettlesIff(c: Config, s: Surroundings, m: Offset)
    ensures Settles(c, s, m) <==>
              exists n: nat ::
                && n <= c.maxRetries && !s.cancelled(m, n, BeforeAttempt)
                && (forall i: nat | i < n ::
                      !s.cancelled(m, i, BeforeAttempt) && s.process(m, i).Transient? && !s.cancelled(m, i, DuringWait))
                && match s.process(m, n)
                   case Success => true
                   case Transient(_) => n == c.maxRetries && !s.cancelled(m, n, BeforeDeadLetter) && s.deadLetter(m)
                   case _ => !s.cancelled(m, n, BeforeDeadLetter) && s.deadLetter(m)
  {
    if n: nat :| SettlesAt(c, s, m, n) {
      assert n <= c.maxRetries && !s.cancelled(m, n, BeforeAttempt);
    }
    if n: nat :|
      && n <= c.maxRetries && !s.cancelled(m, n, BeforeAttempt)
      && (forall i: nat | i < n ::
            !s.cancelled(m, i, BeforeAttempt) && s.process(m, i).Transient? && !s.cancelled(m, i, DuringWait))
      && match s.process(m, n)
         case Success => true
         case Transient(_) => n == c.maxRetries && !s.cancelled(m, n, BeforeDeadLetter) && s.deadLetter(m)
         case _ => !s.cancelled(m, n, BeforeDeadLetter) && s.deadLetter(m)
    {
      assert SettlesAt(c, s, m, n);
    }
  }

  lemma StopsAt(c: Config, s: Surroundings, m: Offset, n: nat)
    requires n <= c.maxRetries && Reaches(s, m, n)
    requires s.cancelled(m, n, BeforeAttempt) || s.process(m, n) == Success || Exhausted(c, s, m, n)
             || s.cancelled(m, n, DuringWait)
    ensures Settles(c, s, m) <==> SettlesAt(c, s, m, n)
  {
  }

  /** processWithRetry. `runs` counts the processor's calls, `waits` the delays chosen, `dead` the retry count put into
      the dead letter. */
  method ProcessWithRetry(c: Config, s: Surroundings, m: Offset)
    returns (ok: bool, runs: nat, waits: seq<Time>, dead: Option<nat>)
    requires Normal(c)
    ensures ok <==> Settles(c, s, m)
    ensures runs <= c.maxRetries + 1
    ensures runs - 1 <= |waits| <= runs && |waits| <= c.maxRetries
    ensures forall k | 0 <= k < |waits| :: waits[k] >= Backoff(c, k)
    ensures forall k | 0 <= k < |waits| :: s.process(m, k).Transient?
              && waits[k] == var after := s.process(m, k).retryAfter;
                             if after.Some? then Max(Backoff(c, k), after.value) else Backoff(c, k)
    ensures ok ==> runs > 0 && (s.process(m, runs - 1) == Success <==> dead.None?)
    ensures dead.Some? ==> ok && runs > 0 && dead.value == runs - 1 && DeadLettered(c, s, m, runs - 1)
  {
    var backoff := c.initialBackoff;
    runs, waits, dead := 0, [], None;
    BackoffDoubles(c, 0);
    while true
      invariant runs == |waits| <= c.maxRetries && dead.None?
      invariant Reaches(s, m, runs) && backoff == Backoff(c, runs)
      invariant forall k | 0 <= k < |waits| :: s.process(m, k).Transient?
                  && waits[k] == var after := s.process(m, k).retryAfter;
                                 if after.Some? then Max(Backoff(c, k), after.value) else Backoff(c, k)
      decreases c.maxRetries - runs
    {
      var attempt := runs;
      if s.cancelled(m, attempt, BeforeAttempt) {
        StopsAt(c, s, m, attempt);
        return false, runs, waits, None;
      }
      var result := s.process(m, attempt);
      runs := runs + 1;
      if result == Success {
        StopsAt(c, s, m, attempt);
        return true, runs, waits, None;
      }
      if !result.Transient? || attempt >= c.maxRetries {
        StopsAt(c, s, m, attempt);
        if s.cancelled(m, attempt, BeforeDeadLetter) || !s.deadLetter(m) {
          return false, runs, waits, None;
        }
        return true, runs, waits, Some(attempt);
      }
      var delay := backoff;
      if result.retryAfter.Some? && result.retryAfter.value > delay {
        delay := result.retryAfter.value;
      }
      waits := waits + [delay];
      if s.cancelled(m, attempt, DuringWait) {
        StopsAt(c, s, m, attempt);
        return false, runs, waits, None;
      }
      BackoffDoubles(c, attempt);
      backoff := backoff * 2;
      if backoff > c.maxBackoff {
        backoff := c.maxBackoff;
      }
    }
  }

  /** How many messages from the front settle. */
  ghost function Front(c: Config, s: Surroundings, messages: seq<Offset>): (n: nat)
    ensures n <= |messages|
  {
    if messages == [] || !Settles(c, s, messages[0]) then 0 else 1 + Front(c, s, messages[1..])
  }

  lemma {:induction false} FrontIs(c: Config, s: Surroundings, messages: seq<Offset>, n: nat)
    requires n <= |messages| && forall i | 0 <= i < n :: Settles(c, s, messages[i])
    requires n == |messages| || !Settles(c, s, messages[n])
    ensures Front(c, s, messages) == n
  {
    if n > 0 {
      FrontIs(c, s, messages[1..], n - 1);
    }
  }

  /** ConsumeClaim: messages are marked one after the other until one cannot be settled. */
  method ConsumeClaim(c: Config, s: Surroundings, configured: bool, messages: seq<Offset>)
    returns (ok: bool, marked: seq<Offset>, dead: seq<Offset>)
    requires Normal(c)
    ensures marked == if configured then messages[..Front(c, s, messages)] else []
    ensures ok <==> configured && marked == messages
    ensures forall m | m in dead :: m in marked
    ensures forall m | m in marked :: m in dead || exists n: nat :: n <= c.maxRetries && s.process(m, n) == Success
  {
    marked, dead := [], [];
    if !configured {
      return false, [], [];
    }
    for i := 0 to |messages|
      invariant marked == messages[..i]
      invariant forall j | 0 <= j < i :: Settles(c, s, messages[j])
      invariant forall m | m in dead :: m in marked
      invariant forall m | m in marked :: m in dead || exists n: nat :: n <= c.maxRetries && s.process(m, n) == Success
    {
      var settled, runs, waits, letter := ProcessWithRetry(c, s, messages[i]);
      if !settled {
        FrontIs(c, s, messages, i);
        return false, marked, dead;
      }
      marked := marked + [messages[i]];
      if letter.Some? {
        dead := dead + [messages[i]];
      }
    }
    FrontIs(c, s, messages, |messages|);
    ok := true;
  }

  // ---- over several sessions ----

  /** Each session starts where the marked offsets of the one before end. */
  ghost function Position(c: Config, sessions: seq<Surroundings>, messages: seq<Offset>): (n: nat)
    ensures n <= |messages|
    decreases |sessions|
  {
    if sessions == [] then 0
    else
      var n := Front(c, sessions[0], messages);
      n + Position(c, sessions[1..], messages[n..])
  }

  lemma {:induction false} FrontSettles(c: Config, s: Surroundings, messages: seq<Offset>, i: nat)
    requires i < Front(c, s, messages)
    ensures Settles(c, s, messages[i])
  {
    if i > 0 {
      FrontSettles(c, s, messages[1..], i - 1);
    }
  }

  /** At least once, with nothing skipped: whatever lies below the position after any sessions was settled in one. */
  lemma {:induction false} NothingSkipped(c: Config, sessions: seq<Surroundings>, messages: seq<Offset>, i: nat)
    requires i < Position(c, sessions, messages)
    ensures exists s :: s in sessions && Settles(c, s, messages[i])
    decreases |sessions|
  {
    var n := Front(c, sessions[0], messages);
    if i < n {
      FrontSettles(c, sessions[0], messages, i);
      assert sessions[0] in sessions;
    } else {
      NothingSkipped(c, sessions[1..], messages[n..], i - n);
    }
  }
}
