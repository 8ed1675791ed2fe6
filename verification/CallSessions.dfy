/** The call service's Redis state: the two compare-and-set scripts as functions on a store value. */
module CallSessions {
  import opened Common

  type UserId = int
  type CallId = string

  const SECOND := 1_000_000_000
  const MILLI := 1_000_000

  /** A Kafka operation, or the sweeper's timeout operation "call-timeout:<id>:<deadline>". */
  datatype OpKey = KafkaOp(key: string) | TimeoutOp(id: CallId, deadline: Time)

  datatype Phase = Ringing | Active | Ended

  datatype EndReason = Unspecified | Rejected | Hangup | Timeout | Cancelled | Disconnected

  datatype Session = Session(
    id: CallId, caller: UserId, callee: UserId, offer: string, phase: Phase,
    answer: Option<string>, acceptedAt: Option<Time>,
    endReason: EndReason, endMessage: string, endedAt: Option<Time>,
    createdAt: Time, ringDeadline: Time)

  datatype PendingEvent = PendingEvent(eventId: string, op: OpKey, topic: string, payload: string)

  datatype Entry<+T> = Entry(value: T, expiresAt: Time)

  datatype Config = Config(ringTTL: Time, activeTTL: Time, terminatedTTL: Time, grace: Time,
                           operationTTL: Time, replayWindow: Time)

  /** Expired keys stay in the maps and count as absent, which is how Redis lets a reader see them. */
  datatype Store = Store(
    sessions: map<CallId, Entry<Session>>, busy: map<UserId, Entry<CallId>>,
    deadlines: map<CallId, int>, operations: map<OpKey, Time>, stream: seq<PendingEvent>)

  datatype Reply = Committed | Replayed | Refused | Failed

  const EMPTY := Store(map[], map[], map[], map[], [])

  /** Duration.Milliseconds, which truncates toward zero. */
  function Millis(d: Time): int {
    if d >= 0 then d / MILLI else -((-d) / MILLI)
  }

  /** The lifetime Redis gives a key set with 'PX', Millis(d). */
  function Px(d: Time): Time {
    Millis(d) * MILLI
  }

  function UnixSeconds(t: Time): int {
    t / SECOND
  }

  predicate Live<K, V>(m: map<K, Entry<V>>, k: K, now: Time) {
    k in m && now < m[k].expiresAt
  }

  predicate Holds(st: Store, u: UserId, id: CallId, now: Time) {
    Live(st.busy, u, now) && st.busy[u].value == id
  }

  predicate Done(st: Store, op: OpKey, now: Time) {
    op in st.operations && now < st.operations[op]
  }

  predicate Involves(s: Session, u: UserId) {
    u == s.caller || u == s.callee
  }

  /** NewRedisStore: defaults and the rule that the operation ledger outlives the replay window. Redis keeps whole
      milliseconds, so the rule fails for a retention that exceeds the window only by a fraction of one. */
  function Normalize(ringTTL: Time, activeTTL: Time, replayWindow: Time, operationTTL: Time): (c: Config)
    requires replayWindow > 0 && operationTTL > 0
    ensures c.replayWindow < c.operationTTL
    ensures ValidConfig(c) <==> (activeTTL <= 0 || MILLI <= activeTTL)
                                && (operationTTL <= replayWindow || replayWindow < Px(operationTTL))
    ensures (ringTTL > 0 ==> c.ringTTL == ringTTL) && (activeTTL > 0 ==> c.activeTTL == activeTTL)
    ensures (ringTTL <= 0 ==> c.ringTTL == 45 * SECOND) && (activeTTL <= 0 ==> c.activeTTL == 6 * 3600 * SECOND)
    ensures c.terminatedTTL == 5 * 60 * SECOND && c.grace == 60 * SECOND && c.replayWindow == replayWindow
    ensures replayWindow < operationTTL ==> c.operationTTL == operationTTL
    ensures operationTTL <= replayWindow ==> c.operationTTL == replayWindow + 24 * 3600 * SECOND
  {
    Config(
      if ringTTL <= 0 then 45 * SECOND else ringTTL,
      if activeTTL <= 0 then 6 * 3600 * SECOND else activeTTL,
      300 * SECOND, 60 * SECOND,
      if operationTTL <= replayWindow then replayWindow + 24 * 3600 * SECOND else operationTTL,
      replayWindow)
  }

  predicate ValidConfig(c: Config) {
    && 0 < c.ringTTL && MILLI <= c.activeTTL && MILLI <= c.terminatedTTL && MILLI <= c.grace
    && 0 < c.replayWindow < Px(c.operationTTL)
  }

  /** Lifetimes are computed at `at`, before the script runs at `now`. */
  function CreateTTL(cfg: Config, at: Time, s: Session): Time {
    if s.ringDeadline - at > 0 then s.ringDeadline - at else cfg.ringTTL
  }

  function Create(st: Store, cfg: Config, at: Time, now: Time, s: Session, op: OpKey, events: seq<PendingEvent>)
    : (Store, Reply)
  {
    var ttl := CreateTTL(cfg, at, s);
    if Done(st, op, now) then (st, Replayed)
    else if Live(st.busy, s.caller, now) || Live(st.busy, s.callee, now) then (st, Refused)
    else if Millis(ttl) < 1 then (st, Failed)
    else
      (Store(
         st.sessions[s.id := Entry(s, now + Px(ttl + cfg.grace))],
         st.busy[s.caller := Entry(s.id, now + Px(ttl))][s.callee := Entry(s.id, now + Px(ttl))],
         st.deadlines[s.id := UnixSeconds(s.ringDeadline)],
         st.operations[op := now + Px(cfg.operationTTL)],
         st.stream + events),
       Committed)
  }

  function TransitionTTL(cfg: Config, at: Time, updated: Session): Time {
    match updated.phase
    case Ended => cfg.terminatedTTL
    case Ringing => updated.ringDeadline - at + cfg.grace
    case Active => cfg.activeTTL
  }

  function Release(busy: map<UserId, Entry<CallId>>, u: UserId, id: CallId, now: Time): map<UserId, Entry<CallId>> {
    if Live(busy, u, now) && busy[u].value == id then busy - {u} else busy
  }

  function Extend(busy: map<UserId, Entry<CallId>>, u: UserId, now: Time, until: Time): map<UserId, Entry<CallId>> {
    if Live(busy, u, now) then busy[u := busy[u].(expiresAt := until)] else busy
  }

  function Transition(st: Store, cfg: Config, at: Time, now: Time, expected: Session, updated: Session, terminal: bool,
                      op: OpKey, events: seq<PendingEvent>): (Store, Reply)
  {
    var id, a, b := updated.id, updated.caller, updated.callee;
    var ttl := TransitionTTL(cfg, at, updated);
    if Done(st, op, now) then (st, Replayed)
    else if !Live(st.sessions, id, now) || st.sessions[id].value != expected then (st, Refused)
    else if !terminal && (!Holds(st, a, id, now) || !Holds(st, b, id, now)) then (st, Refused)
    else if Millis(ttl) < 1 then (st, Failed)
    else
      (Store(
         st.sessions[id := Entry(updated, now + Px(ttl))],
         if terminal then Release(Release(st.busy, a, id, now), b, id, now)
         else Extend(Extend(st.busy, a, now, now + Px(ttl)), b, now, now + Px(ttl)),
         st.deadlines - {id},
         st.operations[op := now + Px(cfg.operationTTL)],
         st.stream + events),
       Committed)
  }

  function GetSession(st: Store, id: CallId, now: Time): Option<Session> {
    if Live(st.sessions, id, now) then Some(st.sessions[id].value) else None
  }

  // ---- what the service decides from the session it read ----

  datatype Request =
    | Accept(user: UserId, at: Time, answer: string, callerOnline: bool)
    | Reject(user: UserId, at: Time, message: string)
    | HangUp(user: UserId, at: Time, reason: EndReason)
    | PushFailed(caller: UserId, callee: UserId, at: Time, why: string)
    | Expire(at: Time)

  datatype Decision = Update(session: Session, terminal: bool) | Forbidden | InvalidState | Ignored

  function Finished(s: Session, reason: EndReason, message: string, at: Time): Session {
    s.(phase := Ended, endReason := reason, endMessage := message, endedAt := Some(at))
  }

  function Decide(s: Session, r: Request): Decision {
    match r
    case Accept(user, at, answer, callerOnline) =>
      if s.callee != user then Forbidden
      else if s.phase != Ringing || !(at < s.ringDeadline) then InvalidState
      else
        var accepted := s.(phase := Active, answer := Some(answer), acceptedAt := Some(at));
        if callerOnline then Update(accepted, false)
        else Update(Finished(accepted, Disconnected, "caller unavailable after accept", at), true)
    case Reject(user, at, message) =>
      if s.callee != user then Forbidden
      else if s.phase != Ringing then InvalidState
      else Update(Finished(s, Rejected, message, at), true)
    case HangUp(user, at, reason) =>
      if !Involves(s, user) then Forbidden
      else if s.phase == Ended then InvalidState
      else Update(Finished(s, if reason in {Unspecified, Rejected, Timeout} then Hangup else reason, "", at), true)
    case PushFailed(caller, callee, at, why) =>
      if s.caller != caller || s.callee != callee || s.phase != Ringing then Ignored
      else Update(Finished(s, Cancelled, why, at), true)
    case Expire(at) =>
      if s.phase != Ringing || at < s.ringDeadline then Ignored
      else Update(Finished(s, Timeout, "call timed out", at), true)
  }

  // ---- the store in its own form: keys changed in place ----

  class RedisStore {
    const cfg: Config
    var sessions: map<CallId, Entry<Session>>
    var busy: map<UserId, Entry<CallId>>
    var deadlines: map<CallId, int>
    var operations: map<OpKey, Time>
    var stream: seq<PendingEvent>

    ghost function Value(): Store
      reads this
    {
      Store(sessions, busy, deadlines, operations, stream)
    }

    constructor (cfg: Config)
      ensures this.cfg == cfg && Value() == EMPTY
    {
      this.cfg := cfg;
      sessions, busy, deadlines, operations, stream := map[], map[], map[], map[], [];
    }

    method XAdd(events: seq<PendingEvent>)
      modifies this`stream
      ensures stream == old(stream) + events
    {
      var i := 0;
      while i < |events|
        invariant 0 <= i <= |events|
        invariant stream == old(stream) + events[..i]
      {
        stream := stream + [events[i]];
        i := i + 1;
      }
    }

    method DeleteIfOwned(u: UserId, id: CallId, now: Time)
      modifies this`busy
      ensures busy == Release(old(busy), u, id, now)
    {
      if Live(busy, u, now) && busy[u].value == id {
        busy := busy - {u};
      }
    }

    method PExpire(u: UserId, now: Time, until: Time)
      modifies this`busy
      ensures busy == Extend(old(busy), u, now, until)
    {
      if Live(busy, u, now) {
        busy := busy[u := busy[u].(expiresAt := until)];
      }
    }

    method CreateSessionWithEvents(at: Time, now: Time, s: Session, op: OpKey, events: seq<PendingEvent>)
      returns (reply: Reply)
      modifies this
      ensures (Value(), reply) == Create(old(Value()), cfg, at, now, s, op, events)
    {
      var ttl := s.ringDeadline - at;
      if ttl <= 0 {
        ttl := cfg.ringTTL;
      }
      if op in operations && now < operations[op] {
        return Replayed;
      }
      if Live(busy, s.caller, now) || Live(busy, s.callee, now) {
        return Refused;
      }
      if Millis(ttl) < 1 {
        return Failed;
      }
      busy := busy[s.caller := Entry(s.id, now + Px(ttl))];
      busy := busy[s.callee := Entry(s.id, now + Px(ttl))];
      sessions := sessions[s.id := Entry(s, now + Px(ttl + cfg.grace))];
      deadlines := deadlines[s.id := UnixSeconds(s.ringDeadline)];
      operations := operations[op := now + Px(cfg.operationTTL)];
      XAdd(events);
      return Committed;
    }

    method TransitionSessionWithEvents(at: Time, now: Time, expected: Session, updated: Session, terminal: bool,
                                       op: OpKey, events: seq<PendingEvent>) returns (reply: Reply)
      modifies this
      ensures (Value(), reply) == Transition(old(Value()), cfg, at, now, expected, updated, terminal, op, events)
    {
      var id := updated.id;
      var ttl := cfg.activeTTL;
      if updated.phase == Ended {
        ttl := cfg.terminatedTTL;
      } else if updated.phase == Ringing {
        ttl := updated.ringDeadline - at + cfg.grace;
      }
      if op in operations && now < operations[op] {
        return Replayed;
      }
      if !Live(sessions, id, now) || sessions[id].value != expected {
        return Refused;
      }
      if !terminal {
        if !Live(busy, updated.caller, now) || busy[updated.caller].value != id
           || !Live(busy, updated.callee, now) || busy[updated.callee].value != id {
          return Refused;
        }
      }
      if Millis(ttl) < 1 {
        return Failed;
      }
      assert ttl == TransitionTTL(cfg, at, updated);
      var until := now + Px(ttl);
      sessions := sessions[id := Entry(updated, until)];
      deadlines := deadlines - {id};
      if terminal {
        DeleteIfOwned(updated.caller, id, now);
        DeleteIfOwned(updated.callee, id, now);
      } else {
        PExpire(updated.caller, now, until);
        PExpire(updated.callee, now, until);
      }
      operations := operations[op := now + Px(cfg.operationTTL)];
      XAdd(events);
      return Committed;
    }

    /** ExpiredRinging on the ids a range query returned; `now` is the sweep's clock reading. */
    method ExpiredRinging(ids: seq<CallId>, now: Time) returns (expired: seq<Session>)
      modifies this`deadlines
      ensures expired == Due(sessions, ids, now)
      ensures deadlines == old(deadlines) - Stale(sessions, ids, now)
    {
      expired := [];
      var i := 0;
      while i < |ids|
        invariant 0 <= i <= |ids|
        invariant expired == Due(sessions, ids[..i], now)
        invariant deadlines == old(deadlines) - Stale(sessions, ids[..i], now)
      {
        var id := ids[i];
        DueStaleStep(sessions, ids, i, now);
        if IsDue(sessions, id, now) {
          expired := expired + [sessions[id].value];
        } else {
          deadlines := deadlines - {id};
        }
        i := i + 1;
      }
      assert ids[..|ids|] == ids;
    }
  }

  predicate IsDue(sessions: map<CallId, Entry<Session>>, id: CallId, now: Time) {
    && Live(sessions, id, now)
    && sessions[id].value.phase == Ringing
    && sessions[id].value.ringDeadline <= now
  }

  function Due(sessions: map<CallId, Entry<Session>>, ids: seq<CallId>, now: Time): seq<Session> {
    if ids == [] then []
    else
      var id := ids[|ids| - 1];
      Due(sessions, ids[..|ids| - 1], now) + if IsDue(sessions, id, now) then [sessions[id].value] else []
  }

  function Stale(sessions: map<CallId, Entry<Session>>, ids: seq<CallId>, now: Time): set<CallId> {
    set id | id in ids && !IsDue(sessions, id, now)
  }

  lemma DueStaleStep(sessions: map<CallId, Entry<Session>>, ids: seq<CallId>, i: nat, now: Time)
    requires i < |ids|
    ensures Due(sessions, ids[..i + 1], now)
         == Due(sessions, ids[..i], now) + if IsDue(sessions, ids[i], now) then [sessions[ids[i]].value] else []
    ensures Stale(sessions, ids[..i + 1], now)
         == Stale(sessions, ids[..i], now) + if IsDue(sessions, ids[i], now) then {} else {ids[i]}
  {
    assert ids[..i + 1] == ids[..i] + [ids[i]];
    assert (ids[..i + 1])[..i] == ids[..i];
  }

  lemma DueMembers(sessions: map<CallId, Entry<Session>>, ids: seq<CallId>, now: Time)
    ensures forall s | s in Due(sessions, ids, now) ::
              exists id :: id in ids && IsDue(sessions, id, now) && sessions[id].value == s
    ensures forall id | id in ids && IsDue(sessions, id, now) :: sessions[id].value in Due(sessions, ids, now)
  {
  }

  datatype Outcome = Replied(reply: Reply) | Declined(decision: Decision)

  /** A request on a session read earlier: decide, and commit the decision by compare-and-set. */
  function Answer(st: Store, cfg: Config, at: Time, now: Time, expected: Session, request: Request, op: OpKey,
                  events: Session -> seq<PendingEvent>)
    : (Store, Outcome)
  {
    match Decide(expected, request)
    case Update(updated, terminal) =>
      var (after, reply) := Transition(st, cfg, at, now, expected, updated, terminal, op, events(updated));
      (after, Replied(reply))
    case other => (st, Declined(other))
  }

  class CallService {
    const store: RedisStore

    constructor (store: RedisStore)
      ensures this.store == store
    {
      this.store := store;
    }

    /** What acceptAtomic, rejectAtomic, hangupAtomic and handlePushResultAtomic read first; anybody may write after. */
    method Read(id: CallId, now: Time) returns (session: Option<Session>)
      ensures session == GetSession(store.Value(), id, now)
    {
      session := None;
      if id in store.sessions && now < store.sessions[id].expiresAt {
        session := Some(store.sessions[id].value);
      }
    }

    /** The rest of them: decide from the session read at some earlier time, compute its events and its lifetime at
        `at`, and commit by compare-and-set at `now`. */
    method Respond(expected: Session, request: Request, op: OpKey, events: Session -> seq<PendingEvent>, at: Time,
                   now: Time)
      returns (outcome: Outcome)
      modifies store
      ensures (store.Value(), outcome) == Answer(old(store.Value()), store.cfg, at, now, expected, request, op, events)
    {
      var decision := Decide(expected, request);
      if !decision.Update? {
        return Declined(decision);
      }
      var reply := store.TransitionSessionWithEvents(at, now, expected, decision.session, decision.terminal, op,
                                                     events(decision.session));
      return Replied(reply);
    }

    /** One timeout of the sweep, from the session the sweeper read. */
    method ExpireOne(s: Session, events: seq<PendingEvent>, now: Time) returns (reply: Reply)
      modifies store
      ensures (store.Value(), reply) == Expiry(old(store.Value()), store.cfg, s, events, now)
    {
      var updated := Finished(s, Timeout, "call timed out", now);
      var op := TimeoutOp(s.id, s.ringDeadline);
      reply := store.TransitionSessionWithEvents(now, now, s, updated, true, op, events);
    }

    /** SweepExpired: every due call the range query returned ends as timed out, unless its timeout already ran; no
        other call changes. `events` are the end events of a call, or None when its routes cannot be read, which stops
        the sweep. */
    method SweepExpired(ids: seq<CallId>, events: Session -> Option<seq<PendingEvent>>, now: Time) returns (ok: bool)
      requires ValidConfig(store.cfg)
      requires Distinct(ids) && forall id | id in store.sessions :: store.sessions[id].value.id == id
      modifies store
      ensures var was := old(store.Value());
              (store.Value(), ok) == Sweep(was.(deadlines := was.deadlines - Stale(was.sessions, ids, now)), store.cfg,
                                           Due(was.sessions, ids, now), events, now)
      ensures ok <==> forall id | id in ids && IsDue(old(store.sessions), id, now) ::
                        events(old(store.sessions)[id].value).Some?
      ensures ok ==>
                forall id | id in ids && IsDue(old(store.sessions), id, now) ::
                  id in store.sessions
                  && store.sessions[id].value == TimedOut(old(store.Value()), old(store.sessions)[id].value, now)
      ensures forall id | id in old(store.sessions) && !(id in ids && IsDue(old(store.sessions), id, now)) ::
                id in store.sessions && store.sessions[id] == old(store.sessions)[id]
    {
      ghost var was := store.Value();
      var expired := store.ExpiredRinging(ids, now);
      DueMembers(was.sessions, ids, now);
      DueDistinct(was.sessions, ids, now);
      forall k | 0 <= k < |expired|
        ensures expired[k].id in ids && IsDue(was.sessions, expired[k].id, now)
                && was.sessions[expired[k].id].value == expired[k]
      {
        assert expired[k] in Due(was.sessions, ids, now);
      }
      ghost var start := store.Value();
      var i := 0;
      while i < |expired|
        invariant 0 <= i <= |expired|
        invariant SweptTo(was, store.Value(), expired, i, now)
        invariant Sweep(start, store.cfg, expired, events, now)
                  == Sweep(store.Value(), store.cfg, expired[i..], events, now)
        invariant forall k | 0 <= k < i :: events(expired[k]).Some?
      {
        ghost var prior := store.Value();
        var pending := events(expired[i]);
        if pending.None? {
          assert expired[i] in Due(was.sessions, ids, now);
          return false;
        }
        var reply := ExpireOne(expired[i], pending.value, now);
        ExpiryExpires(prior, store.cfg, expired[i], pending.value, now);
        assert expired[i..][1..] == expired[i + 1..];
        SweptStep(was, prior, store.Value(), expired, i, now);
        i := i + 1;
      }
      forall id | id in ids && IsDue(was.sessions, id, now)
        ensures id in store.sessions && store.sessions[id].value == TimedOut(was, was.sessions[id].value, now)
        ensures events(was.sessions[id].value).Some?
      {
        var k :| 0 <= k < |expired| && expired[k] == was.sessions[id].value;
      }
      return true;
    }
  }

  /** The transition that times a call out. */
  function Expiry(st: Store, cfg: Config, s: Session, events: seq<PendingEvent>, now: Time): (Store, Reply) {
    Transition(st, cfg, now, now, s, Finished(s, Timeout, "call timed out", now), true, TimeoutOp(s.id, s.ringDeadline),
               events)
  }

  /** The timeouts of a list of sessions, one after the other. */
  function Sweep(st: Store, cfg: Config, sessions: seq<Session>, events: Session -> Option<seq<PendingEvent>>,
                 now: Time): (Store, bool)
    decreases |sessions|
  {
    if sessions == [] then (st, true)
    else if events(sessions[0]).None? then (st, false)
    else
      var (after, reply) := Expiry(st, cfg, sessions[0], events(sessions[0]).value, now);
      if reply == Failed then (after, false) else Sweep(after, cfg, sessions[1..], events, now)
  }

  lemma ExpiryExpires(st: Store, cfg: Config, s: Session, events: seq<PendingEvent>, now: Time)
    requires ValidConfig(cfg) && Live(st.sessions, s.id, now) && st.sessions[s.id].value == s && s.phase == Ringing
    ensures ExpiredOnly(st, Expiry(st, cfg, s, events, now).0, s, now) && Expiry(st, cfg, s, events, now).1 != Failed
  {
  }

  predicate ExpiredOnly(was: Store, after: Store, s: Session, now: Time) {
    && after.sessions.Keys == was.sessions.Keys && s.id in after.sessions
    && (forall id | id in after.sessions && id != s.id :: after.sessions[id] == was.sessions[id])
    && after.sessions[s.id].value == TimedOut(was, s, now)
    && after.operations - {TimeoutOp(s.id, s.ringDeadline)} == was.operations - {TimeoutOp(s.id, s.ringDeadline)}
  }

  /** The sweep has handled the first i due sessions: those are timed out, the others are as they were. */
  ghost predicate SweptTo(was: Store, cur: Store, expired: seq<Session>, i: nat, now: Time) {
    && cur.sessions.Keys == was.sessions.Keys
    && (forall k | 0 <= k < |expired| ::
          && expired[k].id in cur.sessions
          && cur.sessions[expired[k].id].value == (if k < i then TimedOut(was, expired[k], now) else expired[k]))
    && (forall k | i <= k < |expired| ::
          && expired[k].phase == Ringing && Live(cur.sessions, expired[k].id, now)
          && TimedOut(cur, expired[k], now) == TimedOut(was, expired[k], now))
    && (forall id | id in was.sessions && (forall k | 0 <= k < |expired| :: expired[k].id != id) ::
          cur.sessions[id] == was.sessions[id])
  }

  lemma SweptStep(was: Store, cur: Store, next: Store, expired: seq<Session>, i: nat, now: Time)
    requires SweptTo(was, cur, expired, i, now) && i < |expired| && ExpiredOnly(cur, next, expired[i], now)
    requires forall j, k | 0 <= j < k < |expired| :: expired[j].id != expired[k].id
    ensures SweptTo(was, next, expired, i + 1, now)
  {
    forall k | i < k < |expired|
      ensures TimedOut(next, expired[k], now) == TimedOut(was, expired[k], now)
    {
      var op, op' := TimeoutOp(expired[i].id, expired[i].ringDeadline),
        TimeoutOp(expired[k].id, expired[k].ringDeadline);
      assert op != op';
      assert op' in next.operations <==> op' in next.operations - {op};
      assert op' in cur.operations <==> op' in cur.operations - {op};
      assert op' in next.operations ==> (next.operations - {op})[op'] == (cur.operations - {op})[op'];
    }
  }

  lemma DueDistinct(sessions: map<CallId, Entry<Session>>, ids: seq<CallId>, now: Time)
    requires Distinct(ids) && forall id | id in sessions :: sessions[id].value.id == id
    ensures forall i, j | 0 <= i < j < |Due(sessions, ids, now)| ::
              Due(sessions, ids, now)[i].id != Due(sessions, ids, now)[j].id
  {
    if ids != [] {
      var front, last := ids[..|ids| - 1], ids[|ids| - 1];
      DueDistinct(sessions, front, now);
      DueMembers(sessions, front, now);
      forall s | s in Due(sessions, front, now) ensures s.id != last {
        var id :| id in front && IsDue(sessions, id, now) && sessions[id].value == s;
      }
    }
  }

  function TimedOut(st: Store, s: Session, now: Time): Session {
    if Done(st, TimeoutOp(s.id, s.ringDeadline), now) then s else Finished(s, Timeout, "call timed out", now)
  }
}
