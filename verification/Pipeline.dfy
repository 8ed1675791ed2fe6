/** Runs of the pipeline: redelivering consumers, crashing relay workers and retention cleanup in any order. */
module Pipeline {
  import opened Common
  import opened Outbox

  /** One business transaction that took effect. */
  datatype Commit = Commit(time: Time, response: string, events: seq<PendingEvent>)

  /** What a relay worker remembers of its claim. */
  datatype Hold = Hold(event: PendingEvent, leaseUntil: Time, attempt: nat, published: bool)

  /** Where Kafka put a message, and what it keeps there: the event id header and the time it accepted the message. */
  datatype Place = Place(topic: string, partition: int, offset: int)
  datatype Record = Record(eventId: Option<EventId>, acceptedAt: Time)

  /** `log` is what Kafka accepted, each copy of an event in its own place, `sent` the events the relays published,
      `commits` the transactions of each operation that took effect, `grants` how often the present row of each event
      was claimed, `held` the claims whose worker is still running. */
  datatype World = World(
    db: Database, clock: Time, nextToken: Token, held: map<Token, Hold>, log: map<Place, Record>,
    commits: map<InboxKey, seq<Commit>>, sent: set<PendingEvent>, grants: map<EventId, nat>)

  const START := World(Database(map[], map[]), 0, 1, map[], map[], map[], {}, map[])

  datatype Action =
    | Produce(place: Place, eventId: Option<EventId>, now: Time)
    | Consume(service: Service, place: Place, business: Business, now: Time)
    | RelayClaim(service: Service, event: EventId, now: Time)
    | RelayPublish(token: Token, place: Place, now: Time)
    | RelayDone(token: Token, now: Time)
    | RelayFailed(token: Token, now: Time)
    | Crash(token: Token, now: Time)
    | ForgetInbox(keys: set<InboxKey>, now: Time)
    | ForgetOutbox(events: set<EventId>, now: Time)

  datatype Settings = Settings(relay: Config, retention: Retention)

  predicate ValidSettings(s: Settings) {
    && 0 < s.relay.lease && 0 < s.relay.initialBackoff && 0 < s.relay.maxBackoff
    && 0 <= s.retention.replayWindow < s.retention.keep
  }

  function KeyOf(id: EventId): InboxKey
    requires id.Derived?
  {
    InboxKey(id.service, id.op)
  }

  predicate Owns(k: InboxKey, events: seq<PendingEvent>) {
    forall i | 0 <= i < |events| :: events[i].id.Derived? && KeyOf(events[i].id) == k
  }

  predicate Delivered(w: World, id: EventId) {
    exists m | m in w.sent :: m.id == id
  }

  function OpAt(p: Place, r: Record): OpKey {
    OperationKey(KafkaMessage(p.topic, p.partition, p.offset, r.eventId))
  }

  /** The last moment Kafka can deliver the message in a place: every message has a replay window of its own. */
  function Closes(cfg: Settings, w: World, p: Place): Time
    requires p in w.log
  {
    w.log[p].acceptedAt + cfg.retention.replayWindow
  }

  /** What the surroundings guarantee: time does not run backwards, Kafka gives every accepted message a place of its
      own and delivers it only within its replay window, events are named after their operation, and other producers
      use no event id of these services. */
  predicate Permitted(cfg: Settings, w: World, a: Action) {
    && w.clock <= a.now
    && match a
       case Produce(p, id, _) => p !in w.log && (id.Some? ==> id.value.Foreign?)
       case Consume(service, p, b, now) =>
         && p in w.log && now <= Closes(cfg, w, p)
         && (b.Returns? ==> Owns(InboxKey(service, OpAt(p, w.log[p])), b.events))
       case RelayPublish(_, p, _) => p !in w.log
       case RelayDone(token, _) => token in w.held ==> w.held[token].published
       case _ => true
  }

  function Count<K>(m: map<K, nat>, k: K): nat {
    if k in m then m[k] else 0
  }

  function History(w: World, k: InboxKey): seq<Commit> {
    if k in w.commits then w.commits[k] else []
  }

  ghost function Step(cfg: Settings, w: World, a: Action): World
    requires ValidSettings(cfg)
  {
    match a
    case Produce(p, id, now) => w.(clock := now, log := w.log[p := Record(id, now)])
    case Consume(service, p, b, now) =>
      if p !in w.log then w.(clock := now)
      else
        var k := InboxKey(service, OpAt(p, w.log[p]));
        var (db, result) := Execute(w.db, k, b, now);
        var w1 := w.(db := db, clock := now);
        if result.Executed?
        then w1.(commits := w.commits[k := History(w, k) + [Commit(now, b.response, b.events)]],
                 grants := map e | e in w.grants && !IsEventId(b.events, e) :: w.grants[e])
        else w1
    case RelayClaim(service, e, now) =>
      if e in w.db.outbox && Eligible(w.db.outbox[e], service, now) then
        var row := Grant(w.db.outbox[e], w.nextToken, now + cfg.relay.lease);
        w.(db := w.db.(outbox := w.db.outbox[e := row]), clock := now, nextToken := w.nextToken + 1,
           held := w.held[w.nextToken :=
                            Hold(PendingEvent(e, row.topic, row.payload), row.leaseUntil, row.attempt, false)],
           grants := w.grants[e := Count(w.grants, e) + 1])
      else w.(clock := now)
    case RelayPublish(token, p, now) =>
      if token in w.held
      then w.(clock := now, sent := w.sent + {w.held[token].event},
              held := w.held[token := w.held[token].(published := true)],
              log := w.log[p := Record(Some(w.held[token].event.id), now)])
      else w.(clock := now)
    case RelayDone(token, now) =>
      if token in w.held
      then w.(clock := now, db := MarkPublished(w.db, w.held[token].event.id, token, now).0, held := w.held - {token})
      else w.(clock := now)
    case RelayFailed(token, now) =>
      if token in w.held
      then
        var next := now + Backoff(cfg.relay, w.held[token].attempt);
        w.(clock := now, db := MarkFailure(w.db, w.held[token].event.id, token, next).0, held := w.held - {token})
      else w.(clock := now)
    case Crash(token, now) => w.(clock := now, held := w.held - {token})
    case ForgetInbox(keys, now) => w.(clock := now, db := CleanInbox(w.db, keys, now - cfg.retention.keep))
    case ForgetOutbox(events, now) => w.(clock := now, db := CleanOutbox(w.db, events, now - cfg.retention.keep))
  }

  /** A failed publish gives the row back for a later attempt; a crash leaves it claimed, and its worker knows no more.
      */
  lemma FailuresDo(cfg: Settings, w: World, token: Token, now: Time)
    requires ValidSettings(cfg) && token in w.held
    ensures var after, e := Step(cfg, w, RelayFailed(token, now)), w.held[token].event.id;
            && token !in after.held && after.log == w.log && after.sent == w.sent
            && (Current(w.db, e, token) ==>
                  && e in after.db.outbox && after.db.outbox[e].status == Retryable && after.db.outbox[e].claim == 0
                  && after.db.outbox[e].nextAttemptAt == now + Backoff(cfg.relay, w.held[token].attempt))
            && (!Current(w.db, e, token) ==> after.db == w.db)
    ensures Step(cfg, w, Crash(token, now)) == w.(clock := now, held := w.held - {token})
  {
  }

  /** Cleanup of the outbox removes exactly the picked rows published longer ago than the retention. */
  lemma ForgettingDoes(cfg: Settings, w: World, events: set<EventId>, now: Time, e: EventId)
    requires ValidSettings(cfg)
    ensures e in Step(cfg, w, ForgetOutbox(events, now)).db.outbox <==>
              e in w.db.outbox && !(e in events && w.db.outbox[e].status == Published
                                    && w.db.outbox[e].publishedAt + cfg.retention.keep < now)
  {
  }

  ghost function Run(cfg: Settings, w: World, acts: seq<Action>): World
    requires ValidSettings(cfg)
    decreases |acts|
  {
    if acts == [] then w else Run(cfg, Step(cfg, w, acts[0]), acts[1..])
  }

  ghost predicate PermittedRun(cfg: Settings, w: World, acts: seq<Action>)
    requires ValidSettings(cfg)
    decreases |acts|
  {
    acts != [] ==> Permitted(cfg, w, acts[0]) && PermittedRun(cfg, Step(cfg, w, acts[0]), acts[1..])
  }

  // ---- the invariant, one concern at a time ----

  function Last(h: seq<Commit>): Commit
    requires h != []
  {
    h[|h| - 1]
  }

  /** Histories lie in the past and own their events; the inbox row of an operation holds its last answer, and is gone
      only when that answer is older than the retention. */
  predicate Answered(cfg: Settings, w: World) {
    && w.db.inbox.Keys <= w.commits.Keys
    && (forall k | k in w.commits :: w.commits[k] != [])
    && (forall k | k in w.commits :: forall i | 0 <= i < |w.commits[k]| ::
          w.commits[k][i].time <= w.clock && Owns(k, w.commits[k][i].events))
    && (forall k | k in w.commits && k in w.db.inbox ::
          w.db.inbox[k] == InboxRow(Last(w.commits[k]).response, Last(w.commits[k]).time))
    && (forall k | k in w.commits && k !in w.db.inbox :: Last(w.commits[k]).time + cfg.retention.keep < w.clock)
  }

  /** A copy of the message that names operation k. */
  predicate IsCopy(w: World, p: Place, k: InboxKey) {
    p in w.log && OpAt(p, w.log[p]) == k.op
  }

  /** Some copy of k can still be delivered at time t. */
  predicate OpenAt(cfg: Settings, w: World, k: InboxKey, t: Time) {
    exists p | p in w.log :: IsCopy(w, p, k) && t <= Closes(cfg, w, p)
  }

  /** An operation takes effect again only when the effect before is older than the retention, and from a copy still
      deliverable then. */
  predicate Repeated(cfg: Settings, w: World, k: InboxKey, h: seq<Commit>) {
    forall i | 0 < i < |h| :: h[i - 1].time + cfg.retention.keep < h[i].time && OpenAt(cfg, w, k, h[i].time)
  }

  predicate Repeats(cfg: Settings, w: World) {
    forall k | k in w.commits :: Repeated(cfg, w, k, w.commits[k])
  }

  predicate Emits(c: Commit, e: PendingEvent) {
    exists i | 0 <= i < |c.events| :: c.events[i] == e
  }

  predicate EmittedIn(h: seq<Commit>, e: PendingEvent) {
    exists i | 0 <= i < |h| :: Emits(h[i], e)
  }

  predicate Committed(w: World, e: PendingEvent) {
    e.id.Derived? && KeyOf(e.id) in w.commits && EmittedIn(w.commits[KeyOf(e.id)], e)
  }

  function Content(e: EventId, row: OutboxRow): PendingEvent {
    PendingEvent(e, row.topic, row.payload)
  }

  /** Outbox rows, claims in flight and published events all carry what a committed transaction emitted. */
  predicate Genuine(w: World) {
    && (forall e | e in w.db.outbox :: Committed(w, Content(e, w.db.outbox[e])) && w.db.outbox[e].service == e.service)
    && (forall t | t in w.held :: Committed(w, w.held[t].event))
    && (forall m | m in w.sent :: Committed(w, m))
  }

  predicate InOutbox(db: Database, e: PendingEvent) {
    e.id in db.outbox && Content(e.id, db.outbox[e.id]) == e
  }

  predicate KeptAll(w: World, c: Commit) {
    forall i | 0 <= i < |c.events| :: InOutbox(w.db, c.events[i]) || c.events[i] in w.sent
  }

  /** No committed event is lost: it is still in the outbox or the broker has it. */
  predicate Kept(w: World) {
    forall k | k in w.commits :: forall i | 0 <= i < |w.commits[k]| :: KeptAll(w, w.commits[k][i])
  }

  /** Published means the broker has it. */
  predicate PublishedSent(w: World) {
    && (forall e | e in w.db.outbox && w.db.outbox[e].status == Published :: Content(e, w.db.outbox[e]) in w.sent)
    && (forall t | t in w.held && w.held[t].published :: w.held[t].event in w.sent)
  }

  predicate RowFenced(cfg: Settings, w: World, e: EventId, row: OutboxRow) {
    && row.claim < w.nextToken && (row.status == Claimed <==> row.claim > 0)
    && row.attempt == Count(w.grants, e)
    && (row.status == Claimed ==> row.leaseUntil <= w.clock + cfg.relay.lease)
    && (row.status in {Pending, Retryable} ==> row.nextAttemptAt <= w.clock + cfg.relay.maxBackoff)
    && row.status != Failed
  }

  predicate HoldFenced(w: World, t: Token, h: Hold) {
    && 0 < t < w.nextToken
    && (Current(w.db, h.event.id, t) ==>
          Content(h.event.id, w.db.outbox[h.event.id]) == h.event
          && w.db.outbox[h.event.id].leaseUntil == h.leaseUntil && w.db.outbox[h.event.id].attempt == h.attempt)
    && (w.clock < h.leaseUntil ==> Current(w.db, h.event.id, t))
  }

  /** Tokens are never reissued, attempts count grants, and a worker inside its lease is the row's current holder. */
  predicate Fenced(cfg: Settings, w: World) {
    RowsFenced(cfg, w) && HoldsFenced(w)
  }

  predicate RowsFenced(cfg: Settings, w: World) {
    w.nextToken > 0 && forall e | e in w.db.outbox :: RowFenced(cfg, w, e, w.db.outbox[e])
  }

  predicate HoldsFenced(w: World) {
    forall t | t in w.held :: HoldFenced(w, t, w.held[t])
  }

  predicate CausedBySend(w: World, k: InboxKey) {
    k.op.EventOp? && k.op.id.Derived? ==> Delivered(w, k.op.id)
  }

  /** The first effect of an operation named by its place in Kafka came after Kafka accepted that message. */
  predicate Placed(w: World, k: InboxKey, h: seq<Commit>) {
    k.op.OffsetOp? && h != [] ==>
      var p := Place(k.op.topic, k.op.partition, k.op.offset); p in w.log && w.log[p].acceptedAt <= h[0].time
  }

  /** The log lies in the past and holds derived events only once they were published; operations named after them ran
      only then. */
  predicate Caused(w: World) {
    && (forall p | p in w.log :: w.log[p].acceptedAt <= w.clock)
    && (forall p | p in w.log && w.log[p].eventId.Some? && w.log[p].eventId.value.Derived? ::
        Delivered(w, w.log[p].eventId.value))
    && (forall k | k in w.commits :: CausedBySend(w, k) && Placed(w, k, w.commits[k]))
  }

  ghost predicate Inv(cfg: Settings, w: World) {
    Answered(cfg, w) && Repeats(cfg, w) && Genuine(w) && Kept(w) && PublishedSent(w) && Fenced(cfg, w) && Caused(w)
  }

  // ---- a transaction that takes effect ----

  /** A transaction of operation k that takes effect from the copy in place p. */
  predicate TookEffect(cfg: Settings, w: World, w2: World, k: InboxKey, p: Place, c: Commit) {
    && k !in w.db.inbox && Owns(k, c.events) && c.time == w2.clock && w.clock <= w2.clock
    && IsCopy(w, p, k) && c.time <= Closes(cfg, w, p)
    && w2.commits == w.commits[k := History(w, k) + [c]]
    && w2.db.inbox == w.db.inbox[k := InboxRow(c.response, c.time)]
    && w2.grants == (map e | e in w.grants && !IsEventId(c.events, e) :: w.grants[e])
    && w2.nextToken == w.nextToken && w2.held == w.held && w2.sent == w.sent && w2.log == w.log
  }

  ghost predicate Added(w: World, w2: World, k: InboxKey, c: Commit) {
    && (forall e :: e in w2.db.outbox <==> e in w.db.outbox || IsEventId(c.events, e))
    && (forall e | e in w.db.outbox :: w2.db.outbox[e] == w.db.outbox[e] && !IsEventId(c.events, e))
    && (forall i | 0 <= i < |c.events| ::
          w2.db.outbox[c.events[i].id] == NewRow(k.service, k.op, c.events[i], c.time))
  }

  predicate Ticked(w: World, w2: World) {
    w.clock <= w2.clock && w2 == w.(clock := w2.clock)
  }

  predicate TakesEffect(w: World, a: Action)
    requires a.Consume?
  {
    && a.place in w.log && InboxKey(a.service, OpAt(a.place, w.log[a.place])) !in w.db.inbox
    && a.business.Returns?
  }

  /** A consumed message takes effect, which needs its inbox row to be missing, or changes nothing. */
  lemma ConsumeEffect(cfg: Settings, w: World, a: Action)
    requires ValidSettings(cfg) && a.Consume? && Permitted(cfg, w, a)
    ensures var w2 := Step(cfg, w, a);
            var k := InboxKey(a.service, OpAt(a.place, w.log[a.place]));
            w2.clock == a.now &&
            if TakesEffect(w, a) && Insertable(w.db.outbox, a.business.events)
            then var c := Commit(a.now, a.business.response, a.business.events);
                 TookEffect(cfg, w, w2, k, a.place, c) && Added(w, w2, k, c)
            else Ticked(w, w2)
  {
    hide Insertable, InsertAll, NewRow, Owns, IsEventId, OpAt;
    var k, b := InboxKey(a.service, OpAt(a.place, w.log[a.place])), a.business;
    if k !in w.db.inbox && b.Returns? && Insertable(w.db.outbox, b.events) {
      Inserted(w.db.outbox, b.events, k.service, k.op, a.now);
      InsertedAreNew(w.db.outbox, b.events);
    }
  }

  lemma InsertedAreNew(outbox: map<EventId, OutboxRow>, events: seq<PendingEvent>)
    requires Insertable(outbox, events)
    ensures forall e | e in outbox :: !IsEventId(events, e)
  {
  }

  lemma EffectAnswered(cfg: Settings, w: World, w2: World, k: InboxKey, p: Place, c: Commit)
    requires Answered(cfg, w) && TookEffect(cfg, w, w2, k, p, c)
    ensures Answered(cfg, w2)
  {
    hide Owns, IsEventId, IsCopy;
  }

  lemma EffectRepeats(cfg: Settings, w: World, w2: World, k: InboxKey, p: Place, c: Commit)
    requires Answered(cfg, w) && Repeats(cfg, w) && TookEffect(cfg, w, w2, k, p, c)
    ensures Repeats(cfg, w2)
  {
    hide Owns, IsEventId, OpAt, Repeated, OpenAt;
    var h := History(w, k);
    forall k2 | k2 in w.commits ensures Repeated(cfg, w2, k2, w.commits[k2]) {
      RepeatedGrows(cfg, w, w2, k2, w.commits[k2]);
    }
    assert OpenAt(cfg, w2, k, c.time) by {
      CopyOpens(cfg, w2, k, p, c.time);
    }
    assert h == [] ==> Repeated(cfg, w2, k, h) by {
      NothingRepeats(cfg, w2, k);
    }
    RepeatedThen(cfg, w2, k, h, c);
  }

  lemma CopyOpens(cfg: Settings, w: World, k: InboxKey, p: Place, t: Time)
    requires IsCopy(w, p, k) && t <= Closes(cfg, w, p)
    ensures OpenAt(cfg, w, k, t)
  {
    hide OpAt;
  }

  lemma NothingRepeats(cfg: Settings, w: World, k: InboxKey)
    ensures Repeated(cfg, w, k, [])
  {
  }

  lemma RepeatedGrows(cfg: Settings, w: World, w2: World, k: InboxKey, h: seq<Commit>)
    requires forall p | p in w.log :: p in w2.log && w2.log[p] == w.log[p]
    requires Repeated(cfg, w, k, h)
    ensures Repeated(cfg, w2, k, h)
  {
    LogGrows(cfg, w, w2);
    hide OpenAt;
  }

  lemma RepeatedThen(cfg: Settings, w: World, k: InboxKey, h: seq<Commit>, c: Commit)
    requires Repeated(cfg, w, k, h) && OpenAt(cfg, w, k, c.time)
    requires h != [] ==> Last(h).time + cfg.retention.keep < c.time
    ensures Repeated(cfg, w, k, h + [c])
  {
    hide OpenAt;
    var h2 := h + [c];
    forall i | 0 < i < |h2| ensures h2[i - 1].time + cfg.retention.keep < h2[i].time && OpenAt(cfg, w, k, h2[i].time) {
      if i < |h| {
        assert h2[i] == h[i] && h2[i - 1] == h[i - 1];
      }
    }
  }

  lemma LogGrows(cfg: Settings, w: World, w2: World)
    requires forall p | p in w.log :: p in w2.log && w2.log[p] == w.log[p]
    ensures forall k, t :: OpenAt(cfg, w, k, t) ==> OpenAt(cfg, w2, k, t)
  {
    forall k, t | OpenAt(cfg, w, k, t) ensures OpenAt(cfg, w2, k, t) {
      var p :| p in w.log && IsCopy(w, p, k) && t <= Closes(cfg, w, p);
      assert IsCopy(w2, p, k) && Closes(cfg, w2, p) == Closes(cfg, w, p);
    }
  }

  lemma MoreEmitted(h: seq<Commit>, c: Commit, e: PendingEvent)
    ensures EmittedIn(h, e) ==> EmittedIn(h + [c], e)
    ensures Emits(c, e) ==> EmittedIn(h + [c], e)
  {
    hide Emits;
    if i :| 0 <= i < |h| && Emits(h[i], e) {
      assert (h + [c])[i] == h[i];
    }
    if Emits(c, e) {
      assert (h + [c])[|h|] == c;
    }
  }

  lemma EffectGenuine(cfg: Settings, w: World, w2: World, k: InboxKey, p: Place, c: Commit)
    requires Genuine(w) && TookEffect(cfg, w, w2, k, p, c) && Added(w, w2, k, c)
    ensures Genuine(w2)
  {
    hide Emits, EmittedIn, IsCopy;
    forall e: PendingEvent | Committed(w, e) ensures Committed(w2, e) {
      MoreEmitted(History(w, k), c, e);
    }
    forall e | e in w2.db.outbox && e !in w.db.outbox
      ensures Committed(w2, Content(e, w2.db.outbox[e])) && w2.db.outbox[e].service == e.service
    {
      var i :| 0 <= i < |c.events| && c.events[i].id == e;
      NewContent(c, i, k);
      MoreEmitted(History(w, k), c, c.events[i]);
    }
  }

  lemma NewContent(c: Commit, i: nat, k: InboxKey)
    requires i < |c.events|
    ensures Content(c.events[i].id, NewRow(k.service, k.op, c.events[i], c.time)) == c.events[i]
    ensures Emits(c, c.events[i])
  {
  }

  lemma EffectKept(cfg: Settings, w: World, w2: World, k: InboxKey, p: Place, c: Commit)
    requires Kept(w) && PublishedSent(w) && TookEffect(cfg, w, w2, k, p, c) && Added(w, w2, k, c)
    ensures Kept(w2) && PublishedSent(w2)
  {
    hide IsCopy, Owns;
    forall i | 0 <= i < |c.events| ensures InOutbox(w2.db, c.events[i]) {
      assert IsEventId(c.events, c.events[i].id);
    }
    forall d: Commit | KeptAll(w, d) ensures KeptAll(w2, d) {
    }
    forall e | e in w2.db.outbox && e !in w.db.outbox ensures w2.db.outbox[e].status == Pending {
      var i :| 0 <= i < |c.events| && c.events[i].id == e;
    }
  }

  lemma EffectFenced(cfg: Settings, w: World, w2: World, k: InboxKey, p: Place, c: Commit)
    requires ValidSettings(cfg) && Fenced(cfg, w) && TookEffect(cfg, w, w2, k, p, c) && Added(w, w2, k, c)
    ensures Fenced(cfg, w2)
  {
    hide IsCopy, Owns, IsEventId;
    forall e | e in w2.db.outbox ensures RowFenced(cfg, w2, e, w2.db.outbox[e]) {
      if e in w.db.outbox {
        assert RowFenced(cfg, w, e, w.db.outbox[e]);
      } else {
        NewRowAt(w, w2, k, c, e);
      }
    }
    forall t | t in w2.held ensures HoldFenced(w2, t, w2.held[t]) {
      assert HoldFenced(w, t, w.held[t]);
      var e := w.held[t].event.id;
      if e in w2.db.outbox && e !in w.db.outbox {
        NewRowAt(w, w2, k, c, e);
      }
    }
  }

  lemma NewRowAt(w: World, w2: World, k: InboxKey, c: Commit, e: EventId)
    requires Added(w, w2, k, c) && e in w2.db.outbox && e !in w.db.outbox
    ensures var row := w2.db.outbox[e];
            IsEventId(c.events, e) && row.status == Pending && row.claim == 0 && row.attempt == 0
              && row.nextAttemptAt == c.time
  {
    var i :| 0 <= i < |c.events| && c.events[i].id == e;
  }

  lemma EffectCaused(cfg: Settings, w: World, w2: World, k: InboxKey, p: Place, c: Commit)
    requires Answered(cfg, w) && Caused(w) && TookEffect(cfg, w, w2, k, p, c)
    ensures Caused(w2)
  {
    hide Owns, IsEventId, Delivered, BlankId;
    SentGrows(w, w2);
    assert History(w, k) != [] ==> (History(w, k) + [c])[0] == History(w, k)[0];
  }

  lemma SentGrows(w: World, w2: World)
    requires w.sent <= w2.sent
    ensures forall id :: Delivered(w, id) ==> Delivered(w2, id)
  {
  }

  lemma TickKeeps(cfg: Settings, w: World, w2: World)
    requires Inv(cfg, w) && Ticked(w, w2)
    ensures Inv(cfg, w2)
  {
    hide Emits, EmittedIn, Owns, OpAt, IsCopy, Answered, Repeats, Fenced, Caused;
    TickFenced(cfg, w, w2);
    RelayedHistory(cfg, w, w2);
  }

  lemma TickFenced(cfg: Settings, w: World, w2: World)
    requires Fenced(cfg, w) && Ticked(w, w2)
    ensures Fenced(cfg, w2)
  {
    forall t | t in w2.held ensures HoldFenced(w2, t, w2.held[t]) {
      assert HoldFenced(w, t, w.held[t]);
    }
  }

  lemma ConsumeKeeps(cfg: Settings, w: World, a: Action)
    requires ValidSettings(cfg) && Inv(cfg, w) && a.Consume? && Permitted(cfg, w, a)
    ensures Inv(cfg, Step(cfg, w, a))
  {
    ConsumeEffect(cfg, w, a);
    var w2 := Step(cfg, w, a);
    var k := InboxKey(a.service, OpAt(a.place, w.log[a.place]));
    hide Step, Answered, Repeats, Genuine, Kept, PublishedSent, Fenced, Caused, Added, Ticked, Permitted, Insertable,
         TookEffect, OpAt;
    if TakesEffect(w, a) && Insertable(w.db.outbox, a.business.events) {
      var c := Commit(a.now, a.business.response, a.business.events);
      EffectAnswered(cfg, w, w2, k, a.place, c);
      EffectRepeats(cfg, w, w2, k, a.place, c);
      EffectGenuine(cfg, w, w2, k, a.place, c);
      EffectKept(cfg, w, w2, k, a.place, c);
      EffectFenced(cfg, w, w2, k, a.place, c);
      EffectCaused(cfg, w, w2, k, a.place, c);
    } else {
      TickKeeps(cfg, w, w2);
    }
  }

  // ---- the relay ----

  predicate SameContents(a: map<EventId, OutboxRow>, b: map<EventId, OutboxRow>) {
    && a.Keys == b.Keys
    && forall e | e in a :: Content(e, a[e]) == Content(e, b[e]) && a[e].service == b[e].service
  }

  /** A relay step rewrites the bookkeeping of one row, never its content. */
  predicate Relayed(w: World, w2: World) {
    && w.clock <= w2.clock && w2.commits == w.commits && w2.sent == w.sent && w2.db.inbox == w.db.inbox
       && w2.log == w.log
    && SameContents(w.db.outbox, w2.db.outbox)
    && forall t | t in w2.held && t !in w.held ::
         exists e | e in w.db.outbox :: w2.held[t].event == Content(e, w.db.outbox[e])
  }

  lemma RelayedHistory(cfg: Settings, w: World, w2: World)
    requires Answered(cfg, w) && Repeats(cfg, w) && Caused(w) && Relayed(w, w2)
    ensures Answered(cfg, w2) && Repeats(cfg, w2) && Caused(w2)
  {
    hide Owns, OpAt, IsCopy, SameContents;
    LogGrows(cfg, w, w2);
    SentGrows(w, w2);
  }

  lemma RelayedKeeps(w: World, w2: World)
    requires Genuine(w) && Kept(w) && Relayed(w, w2)
    requires forall t | t in w.held && t in w2.held :: w2.held[t].event == w.held[t].event
    ensures Genuine(w2) && Kept(w2)
  {
    hide EmittedIn;
    forall e: PendingEvent | Committed(w, e) ensures Committed(w2, e) {
    }
    forall c: Commit | KeptAll(w, c) ensures KeptAll(w2, c) {
    }
  }

  lemma ClaimRelays(cfg: Settings, w: World, a: Action)
    requires ValidSettings(cfg) && a.RelayClaim? && Permitted(cfg, w, a)
    ensures Relayed(w, Step(cfg, w, a))
  {
    hide Eligible;
  }

  lemma ClaimSent(cfg: Settings, w: World, a: Action)
    requires ValidSettings(cfg) && PublishedSent(w) && a.RelayClaim? && w.nextToken !in w.held
    ensures PublishedSent(Step(cfg, w, a))
  {
    hide Eligible;
  }

  lemma ClaimRows(cfg: Settings, w: World, a: Action)
    requires ValidSettings(cfg) && RowsFenced(cfg, w) && a.RelayClaim? && Permitted(cfg, w, a)
    ensures RowsFenced(cfg, Step(cfg, w, a))
  {
    var w2 := Step(cfg, w, a);
    forall e | e in w2.db.outbox ensures RowFenced(cfg, w2, e, w2.db.outbox[e]) {
      assert RowFenced(cfg, w, e, w.db.outbox[e]);
    }
  }

  lemma ClaimHolders(cfg: Settings, w: World, a: Action)
    requires ValidSettings(cfg) && Fenced(cfg, w) && a.RelayClaim? && Permitted(cfg, w, a)
    ensures HoldsFenced(Step(cfg, w, a))
  {
    var w2 := Step(cfg, w, a);
    forall t | t in w2.held ensures HoldFenced(w2, t, w2.held[t]) {
      if t in w.held && t != w.nextToken {
        assert HoldFenced(w, t, w.held[t]);
      }
    }
  }

  lemma ClaimKeeps(cfg: Settings, w: World, a: Action)
    requires ValidSettings(cfg) && Inv(cfg, w) && a.RelayClaim? && Permitted(cfg, w, a)
    ensures Inv(cfg, Step(cfg, w, a))
  {
    hide Answered, Repeats, Genuine, Kept, PublishedSent, Caused, Relayed, Permitted, Grant, Eligible, RowsFenced,
      HoldsFenced;
    assert w.nextToken !in w.held by {
      HeldTokens(w);
    }
    ClaimRelays(cfg, w, a);
    ClaimSent(cfg, w, a);
    RelayedHistory(cfg, w, Step(cfg, w, a));
    RelayedKeeps(w, Step(cfg, w, a));
    ClaimRows(cfg, w, a);
    ClaimHolders(cfg, w, a);
  }

  lemma HeldTokens(w: World)
    requires HoldsFenced(w)
    ensures w.nextToken !in w.held
  {
    forall t | t in w.held ensures t != w.nextToken {
      assert HoldFenced(w, t, w.held[t]);
    }
  }

  predicate Settles(a: Action) {
    a.RelayDone? || a.RelayFailed?
  }

  lemma SettleRelays(cfg: Settings, w: World, a: Action)
    requires ValidSettings(cfg) && Settles(a) && Permitted(cfg, w, a)
    ensures Relayed(w, Step(cfg, w, a))
  {
    hide Backoff;
  }

  lemma SettleSent(cfg: Settings, w: World, a: Action)
    requires ValidSettings(cfg) && Fenced(cfg, w) && PublishedSent(w) && Settles(a) && Permitted(cfg, w, a)
    ensures PublishedSent(Step(cfg, w, a))
  {
    hide Backoff;
    if a.token in w.held {
      assert HoldFenced(w, a.token, w.held[a.token]);
    }
  }

  lemma SettleRows(cfg: Settings, w: World, a: Action)
    requires ValidSettings(cfg) && RowsFenced(cfg, w) && Settles(a) && Permitted(cfg, w, a)
    ensures RowsFenced(cfg, Step(cfg, w, a))
  {
    var w2 := Step(cfg, w, a);
    forall e | e in w2.db.outbox ensures RowFenced(cfg, w2, e, w2.db.outbox[e]) {
      assert RowFenced(cfg, w, e, w.db.outbox[e]);
    }
  }

  lemma SettleHolders(cfg: Settings, w: World, a: Action)
    requires ValidSettings(cfg) && HoldsFenced(w) && Settles(a) && Permitted(cfg, w, a)
    ensures HoldsFenced(Step(cfg, w, a))
  {
    hide Backoff;
    var w2 := Step(cfg, w, a);
    forall t | t in w2.held ensures HoldFenced(w2, t, w2.held[t]) {
      assert HoldFenced(w, t, w.held[t]);
    }
  }

  lemma SettleKeeps(cfg: Settings, w: World, a: Action)
    requires ValidSettings(cfg) && Inv(cfg, w) && Settles(a) && Permitted(cfg, w, a)
    ensures Inv(cfg, Step(cfg, w, a))
  {
    hide Answered, Repeats, Genuine, Kept, PublishedSent, RowsFenced, HoldsFenced, Caused, Relayed, Permitted, Backoff,
         MarkPublished, MarkFailure;
    SettleRelays(cfg, w, a);
    SettleSent(cfg, w, a);
    RelayedHistory(cfg, w, Step(cfg, w, a));
    RelayedKeeps(w, Step(cfg, w, a));
    SettleRows(cfg, w, a);
    SettleHolders(cfg, w, a);
  }

  // ---- producing, publishing, crashing, forgetting ----

  predicate Lessens(a: Action) {
    a.Produce? || a.RelayPublish? || a.Crash? || a.ForgetInbox? || a.ForgetOutbox?
  }

  /** The tables lose only rows that may be forgotten, relays lose claims, and Kafka gains messages, of events only what
      was claimed. */
  predicate Lessened(cfg: Settings, w: World, w2: World) {
    && w.clock <= w2.clock && w2.commits == w.commits && w2.nextToken == w.nextToken && w2.grants == w.grants
    && LessInbox(cfg, w, w2) && LessOutbox(w, w2) && LessHeld(w, w2) && MoreLog(w, w2)
    && w.sent <= w2.sent && (forall m | m in w2.sent :: m in w.sent || exists t | t in w.held :: w.held[t].event == m)
  }

  predicate LessInbox(cfg: Settings, w: World, w2: World) {
    && (forall k | k in w2.db.inbox :: k in w.db.inbox && w2.db.inbox[k] == w.db.inbox[k])
    && (forall k | k in w.db.inbox && k !in w2.db.inbox :: w.db.inbox[k].completedAt + cfg.retention.keep < w2.clock)
  }

  predicate LessOutbox(w: World, w2: World) {
    && (forall e | e in w2.db.outbox :: e in w.db.outbox && w2.db.outbox[e] == w.db.outbox[e])
    && (forall e | e in w.db.outbox && e !in w2.db.outbox :: w.db.outbox[e].status == Published)
  }

  predicate LessHeld(w: World, w2: World) {
    forall t | t in w2.held ::
      && t in w.held && w2.held[t] == w.held[t].(published := w2.held[t].published)
      && (w2.held[t].published ==> w.held[t].published || w.held[t].event in w2.sent)
  }

  predicate MoreLog(w: World, w2: World) {
    && (forall p | p in w.log :: p in w2.log && w2.log[p] == w.log[p])
    && (forall p | p in w2.log && p !in w.log ::
          w2.log[p].acceptedAt == w2.clock
          && (w2.log[p].eventId.Some? && w2.log[p].eventId.value.Derived? ==> Delivered(w2, w2.log[p].eventId.value)))
  }

  lemma LessensLess(cfg: Settings, w: World, a: Action)
    requires ValidSettings(cfg) && Permitted(cfg, w, a) && Lessens(a)
    ensures Lessened(cfg, w, Step(cfg, w, a))
  {
    if a.RelayPublish? && a.token in w.held {
      assert w.held[a.token].event in Step(cfg, w, a).sent;
    }
  }

  lemma LessAnswered(cfg: Settings, w: World, w2: World)
    requires Answered(cfg, w) && Lessened(cfg, w, w2)
    ensures Answered(cfg, w2)
  {
    hide LessOutbox, LessHeld, MoreLog, Owns;
  }

  lemma LessCaused(cfg: Settings, w: World, w2: World)
    requires Repeats(cfg, w) && Caused(w) && Lessened(cfg, w, w2)
    ensures Repeats(cfg, w2) && Caused(w2)
  {
    hide LessInbox, LessOutbox, LessHeld, Delivered, OpenAt;
    LogGrows(cfg, w, w2);
    SentGrows(w, w2);
  }

  lemma LessGenuine(cfg: Settings, w: World, w2: World)
    requires Genuine(w) && Lessened(cfg, w, w2)
    ensures Genuine(w2)
  {
    hide LessInbox, MoreLog, EmittedIn;
    forall e: PendingEvent | Committed(w, e) ensures Committed(w2, e) {
    }
  }

  lemma LessKept(cfg: Settings, w: World, w2: World)
    requires Kept(w) && PublishedSent(w) && Lessened(cfg, w, w2)
    ensures Kept(w2) && PublishedSent(w2)
  {
    hide LessInbox, MoreLog;
    forall c: Commit | KeptAll(w, c) ensures KeptAll(w2, c) {
    }
  }

  lemma LessFenced(cfg: Settings, w: World, w2: World)
    requires Fenced(cfg, w) && Lessened(cfg, w, w2)
    ensures Fenced(cfg, w2)
  {
    hide LessInbox, MoreLog;
    forall t | t in w2.held ensures HoldFenced(w2, t, w2.held[t]) {
      assert HoldFenced(w, t, w.held[t]);
    }
  }

  lemma LessensKeeps(cfg: Settings, w: World, a: Action)
    requires ValidSettings(cfg) && Inv(cfg, w) && Lessens(a) && Permitted(cfg, w, a)
    ensures Inv(cfg, Step(cfg, w, a))
  {
    hide Step, Answered, Repeats, Genuine, Kept, PublishedSent, Fenced, Caused, Permitted, Lessened;
    var w2 := Step(cfg, w, a);
    LessensLess(cfg, w, a);
    LessAnswered(cfg, w, w2);
    LessCaused(cfg, w, w2);
    LessGenuine(cfg, w, w2);
    LessKept(cfg, w, w2);
    LessFenced(cfg, w, w2);
  }

  lemma StepKeepsInv(cfg: Settings, w: World, a: Action)
    requires ValidSettings(cfg) && Inv(cfg, w) && Permitted(cfg, w, a)
    ensures Inv(cfg, Step(cfg, w, a))
  {
    hide Inv, Step, Permitted;
    match a
    case Consume(_, _, _, _) => ConsumeKeeps(cfg, w, a);
    case RelayClaim(_, _, _) => ClaimKeeps(cfg, w, a);
    case RelayDone(_, _) => SettleKeeps(cfg, w, a);
    case RelayFailed(_, _) => SettleKeeps(cfg, w, a);
    case _ => LessensKeeps(cfg, w, a);
  }

  lemma {:induction false} RunKeepsInv(cfg: Settings, w: World, acts: seq<Action>)
    requires ValidSettings(cfg) && Inv(cfg, w) && PermittedRun(cfg, w, acts)
    ensures Inv(cfg, Run(cfg, w, acts))
    decreases |acts|
  {
    hide Inv, Step, Permitted;
    if acts != [] {
      StepKeepsInv(cfg, w, acts[0]);
      RunKeepsInv(cfg, Step(cfg, w, acts[0]), acts[1..]);
    }
  }

  // ---- what holds over every run ----

  /** Every copy of k that Kafka has accepted can be delivered no longer than the inbox remembers an effect at
      time t. */
  predicate WithinRetention(cfg: Settings, w: World, k: InboxKey, t: Time) {
    forall p | p in w.log && IsCopy(w, p, k) :: Closes(cfg, w, p) <= t + cfg.retention.keep
  }

  /** Every run from empty tables is consistent. */
  lemma EveryRunIsConsistent(cfg: Settings, acts: seq<Action>)
    requires ValidSettings(cfg) && PermittedRun(cfg, START, acts)
    ensures Inv(cfg, Run(cfg, START, acts))
  {
    assert Inv(cfg, START);
    RunKeepsInv(cfg, START, acts);
  }

  /** However often an operation is delivered, published twice or interrupted by a crash, it takes effect at most once
      as long as all its copies close within the retention of the first effect. */
  lemma TakesEffectOnce(cfg: Settings, acts: seq<Action>, k: InboxKey)
    requires ValidSettings(cfg) && PermittedRun(cfg, START, acts)
    requires var w := Run(cfg, START, acts); History(w, k) != [] ==> WithinRetention(cfg, w, k, History(w, k)[0].time)
    ensures |History(Run(cfg, START, acts), k)| <= 1
  {
    hide Run, PermittedRun;
    EveryRunIsConsistent(cfg, acts);
    var w := Run(cfg, START, acts);
    if |History(w, k)| > 1 {
      RepeatNeedsLateCopy(cfg, w, k);
      assert false;
    }
  }

  /** A repeated effect betrays a copy that outlived the retention of the first. */
  lemma RepeatNeedsLateCopy(cfg: Settings, w: World, k: InboxKey)
    requires Inv(cfg, w) && |History(w, k)| > 1
    ensures !WithinRetention(cfg, w, k, History(w, k)[0].time)
  {
    hide Answered, Genuine, Kept, PublishedSent, Fenced, Caused;
    var h := w.commits[k];
    assert Repeated(cfg, w, k, h);
    assert h[1 - 1].time + cfg.retention.keep < h[1].time && OpenAt(cfg, w, k, h[1].time);
    var p :| p in w.log && IsCopy(w, p, k) && w.commits[k][1].time <= Closes(cfg, w, p);
  }

  /** An operation named by its place in Kafka has one copy, so it takes effect at most once in every run. */
  lemma PlacedOperationsRunOnce(cfg: Settings, acts: seq<Action>, k: InboxKey)
    requires ValidSettings(cfg) && PermittedRun(cfg, START, acts) && k.op.OffsetOp?
    ensures |History(Run(cfg, START, acts), k)| <= 1
  {
    hide Run, PermittedRun, Answered, Repeats, Genuine, Kept, PublishedSent, Fenced;
    EveryRunIsConsistent(cfg, acts);
    var w := Run(cfg, START, acts);
    if History(w, k) != [] {
      assert Placed(w, k, w.commits[k]);
      forall p | p in w.log && IsCopy(w, p, k) ensures p == Place(k.op.topic, k.op.partition, k.op.offset) {
      }
    }
    TakesEffectOnce(cfg, acts, k);
  }

  /** Nothing that happened is undone. */
  predicate Extends(w: World, w2: World) {
    && w.sent <= w2.sent && w.clock <= w2.clock
    && (forall p | p in w.log :: p in w2.log && w2.log[p] == w.log[p])
    && (forall k | k in w.commits :: k in w2.commits && w.commits[k] <= w2.commits[k])
  }

  lemma StepExtends(cfg: Settings, w: World, a: Action)
    requires ValidSettings(cfg) && Permitted(cfg, w, a)
    ensures Extends(w, Step(cfg, w, a))
  {
    if a.Consume? {
      ConsumeEffect(cfg, w, a);
      hide Step;
    } else {
      hide Backoff;
    }
  }

  lemma {:induction false} RunExtends(cfg: Settings, w: World, acts: seq<Action>)
    requires ValidSettings(cfg) && PermittedRun(cfg, w, acts)
    ensures Extends(w, Run(cfg, w, acts))
    decreases |acts|
  {
    hide Step, Permitted;
    if acts != [] {
      StepExtends(cfg, w, acts[0]);
      RunExtends(cfg, Step(cfg, w, acts[0]), acts[1..]);
    }
  }

  /** The operation that consuming the message in place p performs for a service. */
  function OperationAt(w: World, service: Service, p: Place): InboxKey
    requires p in w.log
  {
    InboxKey(service, OpAt(p, w.log[p]))
  }

  lemma HistoryInOrder(cfg: Settings, w: World, k: InboxKey)
    requires ValidSettings(cfg) && Inv(cfg, w) && k in w.commits
    ensures forall i | 0 < i < |w.commits[k]| ::
            w.commits[k][0].time + cfg.retention.keep < w.commits[k][i].time <= w.clock
    ensures w.commits[k] != [] && w.commits[k][0].time <= Last(w.commits[k]).time <= w.clock
  {
    hide Genuine, Kept, PublishedSent, Fenced, Caused;
    InOrder(cfg, w, k, |w.commits[k]|);
  }

  lemma {:induction false} InOrder(cfg: Settings, w: World, k: InboxKey, n: nat)
    requires ValidSettings(cfg) && Repeats(cfg, w) && k in w.commits && n <= |w.commits[k]|
    ensures forall i | 0 < i < n :: w.commits[k][0].time + cfg.retention.keep < w.commits[k][i].time
  {
    if n > 1 {
      InOrder(cfg, w, k, n - 1);
      var h := w.commits[k];
      assert Repeated(cfg, w, k, h) && h[n - 1 - 1].time + cfg.retention.keep < h[n - 1].time;
      assert n > 2 ==> h[0].time + cfg.retention.keep < h[n - 2].time;
    }
  }

  /** After any run, a redelivery of an operation from a copy that closes within the retention of its first effect gets
      the first response and changes nothing but the clock. */
  lemma ReplayIsSilent(cfg: Settings, w: World, acts: seq<Action>, a: Action)
    requires ValidSettings(cfg) && Inv(cfg, w) && PermittedRun(cfg, w, acts)
    requires a.Consume? && Permitted(cfg, Run(cfg, w, acts), a)
    requires OperationAt(Run(cfg, w, acts), a.service, a.place) in w.commits
    requires var k := OperationAt(Run(cfg, w, acts), a.service, a.place);
             w.commits[k] != [] && Closes(cfg, Run(cfg, w, acts), a.place) <= w.commits[k][0].time + cfg.retention.keep
    ensures var w2 := Run(cfg, w, acts);
            var k := OperationAt(w2, a.service, a.place);
            && Execute(w2.db, k, a.business, a.now).1 == Replayed(w.commits[k][0].response)
            && Step(cfg, w2, a) == w2.(clock := a.now)
  {
    var w2 := Run(cfg, w, acts);
    RunKeepsInv(cfg, w, acts);
    RunExtends(cfg, w, acts);
    hide Genuine, Kept, PublishedSent, Fenced, Caused, Owns, Insertable, InsertAll, Run, PermittedRun, OpAt;
    HistoryInOrder(cfg, w2, OperationAt(w2, a.service, a.place));
  }

  /** A relay that crashed after publishing publishes the event again: a copy of the event in another place finds the
      first one's effect when it closes within the retention of that effect. */
  lemma DuplicatePublishIsSilent(cfg: Settings, w: World, acts: seq<Action>, first: Place, copy: Action)
    requires ValidSettings(cfg) && Inv(cfg, w) && PermittedRun(cfg, w, acts)
    requires copy.Consume? && Permitted(cfg, Run(cfg, w, acts), copy)
    requires first in w.log && w.log[first].eventId.Some? && !BlankId(w.log[first].eventId.value)
    requires Run(cfg, w, acts).log[copy.place].eventId == w.log[first].eventId
    requires OperationAt(w, copy.service, first) in w.commits
    requires var h := w.commits[OperationAt(w, copy.service, first)];
             h != [] && Closes(cfg, Run(cfg, w, acts), copy.place) <= h[0].time + cfg.retention.keep
    ensures Step(cfg, Run(cfg, w, acts), copy) == Run(cfg, w, acts).(clock := copy.now)
  {
    hide Inv, Permitted, Run, PermittedRun, Step;
    ReplayIsSilent(cfg, w, acts, copy);
  }

  // ---- when an operation can take effect again ----

  lemma {:induction false} RunThen(cfg: Settings, w: World, acts: seq<Action>, a: Action)
    requires ValidSettings(cfg) && PermittedRun(cfg, w, acts) && Permitted(cfg, Run(cfg, w, acts), a)
    ensures PermittedRun(cfg, w, acts + [a]) && Run(cfg, w, acts + [a]) == Step(cfg, Run(cfg, w, acts), a)
    decreases |acts|
  {
    hide Step, Permitted;
    if acts == [] {
      assert acts + [a] == [a] && [a][1..] == [];
    } else {
      assert (acts + [a])[1..] == acts[1..] + [a];
      RunThen(cfg, Step(cfg, w, acts[0]), acts[1..], a);
    }
  }

  /** Forgetting an operation at time t and then consuming a copy of it at that time. */
  function ForgetAndConsume(service: Service, p: Place, k: InboxKey, t: Time): seq<Action> {
    [ForgetInbox({k}, t), Consume(service, p, Returns("", []), t)]
  }

  /** Past the retention of the last effect, a copy that is still deliverable takes effect again. */
  lemma LateCopyTakesEffect(cfg: Settings, w: World, service: Service, p: Place, t: Time)
    requires ValidSettings(cfg) && Inv(cfg, w) && p in w.log && w.clock <= t <= Closes(cfg, w, p)
    requires var k := OperationAt(w, service, p); k in w.commits && Last(w.commits[k]).time + cfg.retention.keep < t
    ensures var k := OperationAt(w, service, p);
            var acts := ForgetAndConsume(service, p, k, t);
            var w2 := Run(cfg, w, acts);
            && PermittedRun(cfg, w, acts)
            && w2.log == w.log && History(w2, k) == w.commits[k] + [Commit(t, "", [])]
  {
    hide Inv, Step, Permitted, OpAt, Run, PermittedRun;
    var k := OperationAt(w, service, p);
    var forget, consume := ForgetInbox({k}, t), Consume(service, p, Returns("", []), t);
    var w1 := Step(cfg, w, forget);
    ForgetsLate(cfg, w, k, t);
    ConsumesNothing(cfg, w1, service, p, t);
    TwoSteps(cfg, w, forget, consume);
  }

  lemma TwoSteps(cfg: Settings, w: World, a: Action, b: Action)
    requires ValidSettings(cfg) && Permitted(cfg, w, a) && Permitted(cfg, Step(cfg, w, a), b)
    ensures PermittedRun(cfg, w, [a]) && Run(cfg, w, [a]) == Step(cfg, w, a)
    ensures PermittedRun(cfg, w, [a, b]) && Run(cfg, w, [a, b]) == Step(cfg, Step(cfg, w, a), b)
  {
    hide Step, Permitted;
    RunThen(cfg, w, [], a);
    RunThen(cfg, w, [a], b);
    assert [] + [a] == [a] && [a] + [b] == [a, b];
  }

  /** Cleanup forgets an operation whose last effect is older than the retention. */
  lemma ForgetsLate(cfg: Settings, w: World, k: InboxKey, t: Time)
    requires ValidSettings(cfg) && Inv(cfg, w) && w.clock <= t
    requires k in w.commits && Last(w.commits[k]).time + cfg.retention.keep < t
    ensures var w2 := Step(cfg, w, ForgetInbox({k}, t));
            && Permitted(cfg, w, ForgetInbox({k}, t))
            && k !in w2.db.inbox && w2.clock == t && w2.log == w.log && w2.commits == w.commits
  {
    hide Repeats, Genuine, Kept, PublishedSent, Fenced, Caused, Owns;
  }

  /** A forgotten operation takes effect again, here with a transaction that emits nothing. */
  lemma ConsumesNothing(cfg: Settings, w: World, service: Service, p: Place, t: Time)
    requires ValidSettings(cfg) && p in w.log && w.clock <= t <= Closes(cfg, w, p)
    requires OperationAt(w, service, p) !in w.db.inbox
    ensures var k, a := OperationAt(w, service, p), Consume(service, p, Returns("", []), t);
            && Permitted(cfg, w, a) && Step(cfg, w, a).log == w.log
            && History(Step(cfg, w, a), k) == History(w, k) + [Commit(t, "", [])]
  {
    hide OpAt;
    ConsumeEffect(cfg, w, Consume(service, p, Returns("", []), t));
    hide Step;
  }

  /** After no run from w does consuming the copy in place p take effect. */
  ghost predicate StaysSilent(cfg: Settings, w: World, service: Service, p: Place)
    requires ValidSettings(cfg) && p in w.log
  {
    forall acts, b, t | PermittedRun(cfg, w, acts) && Permitted(cfg, Run(cfg, w, acts), Consume(service, p, b, t)) ::
      var w2 := Run(cfg, w, acts);
      History(Step(cfg, w2, Consume(service, p, b, t)), OperationAt(w, service, p))
        == History(w2, OperationAt(w, service, p))
  }

  /** A copy whose window is open stays silent in every run exactly when it closes within the retention of the last
      effect of its operation. */
  lemma CopyIsSilentIff(cfg: Settings, w: World, service: Service, p: Place)
    requires ValidSettings(cfg) && Inv(cfg, w) && p in w.log && w.clock <= Closes(cfg, w, p)
    requires OperationAt(w, service, p) in w.commits && w.commits[OperationAt(w, service, p)] != []
    ensures StaysSilent(cfg, w, service, p)
            <==> Closes(cfg, w, p) <= Last(w.commits[OperationAt(w, service, p)]).time + cfg.retention.keep
  {
    hide Inv, Run, PermittedRun, Permitted, Step, OpAt;
    var k, t := OperationAt(w, service, p), Closes(cfg, w, p);
    if Last(w.commits[k]).time + cfg.retention.keep < t {
      var forget, consume := ForgetInbox({k}, t), Consume(service, p, Returns("", []), t);
      LateConsume(cfg, w, service, p, t);
      assert !StaysSilent(cfg, w, service, p);
    } else {
      forall acts, b, at | PermittedRun(cfg, w, acts) && Permitted(cfg, Run(cfg, w, acts), Consume(service, p, b, at))
        ensures History(Step(cfg, Run(cfg, w, acts), Consume(service, p, b, at)), k) == History(Run(cfg, w, acts), k)
      {
        EarlyConsume(cfg, w, acts, service, p, b, at);
      }
    }
  }

  lemma LateConsume(cfg: Settings, w: World, service: Service, p: Place, t: Time)
    requires ValidSettings(cfg) && Inv(cfg, w) && p in w.log && w.clock <= t <= Closes(cfg, w, p)
    requires var k := OperationAt(w, service, p); k in w.commits && Last(w.commits[k]).time + cfg.retention.keep < t
    ensures var k := OperationAt(w, service, p);
            var acts, consume := [ForgetInbox({k}, t)], Consume(service, p, Returns("", []), t);
            && PermittedRun(cfg, w, acts) && Permitted(cfg, Run(cfg, w, acts), consume)
            && History(Step(cfg, Run(cfg, w, acts), consume), k) != History(Run(cfg, w, acts), k)
  {
    var k := OperationAt(w, service, p);
    hide Inv, Step, Permitted, OpAt, Run, PermittedRun;
    var forget, consume := ForgetInbox({k}, t), Consume(service, p, Returns("", []), t);
    var w1 := Step(cfg, w, forget);
    ForgetsLate(cfg, w, k, t);
    ConsumesNothing(cfg, w1, service, p, t);
    TwoSteps(cfg, w, forget, consume);
    assert |History(w1, k) + [Commit(t, "", [])]| == |History(w1, k)| + 1;
  }

  lemma EarlyConsume(cfg: Settings, w: World, acts: seq<Action>, service: Service, p: Place, b: Business, t: Time)
    requires ValidSettings(cfg) && Inv(cfg, w) && PermittedRun(cfg, w, acts) && p in w.log
    requires Permitted(cfg, Run(cfg, w, acts), Consume(service, p, b, t))
    requires var k := OperationAt(w, service, p);
             k in w.commits && w.commits[k] != [] && Closes(cfg, w, p) <= Last(w.commits[k]).time + cfg.retention.keep
    ensures var k := OperationAt(w, service, p);
            History(Step(cfg, Run(cfg, w, acts), Consume(service, p, b, t)), k) == History(Run(cfg, w, acts), k)
  {
    var w2, k := Run(cfg, w, acts), OperationAt(w, service, p);
    RunKeepsInv(cfg, w, acts);
    RunExtends(cfg, w, acts);
    ConsumeEffect(cfg, w2, Consume(service, p, b, t));
    Remembered(cfg, w, w2, k, t);
    hide Inv, Run, PermittedRun, Step, Owns, Insertable, OpAt, Added;
  }

  /** While the retention of an effect of k in w lasts, the inbox of a later world answers k. */
  lemma Remembered(cfg: Settings, w: World, w2: World, k: InboxKey, t: Time)
    requires ValidSettings(cfg) && Inv(cfg, w2) && Extends(w, w2) && k in w.commits && w.commits[k] != []
    requires w2.clock <= t <= Last(w.commits[k]).time + cfg.retention.keep
    ensures k in w2.db.inbox
  {
    hide Genuine, Kept, PublishedSent, Fenced, Caused, Owns;
    var h, i := w2.commits[k], |w.commits[k]| - 1;
    assert h[i] == Last(w.commits[k]);
    LaterEffects(cfg, w2, k, i, |h| - 1);
  }

  lemma {:induction false} LaterEffects(cfg: Settings, w: World, k: InboxKey, i: nat, j: nat)
    requires ValidSettings(cfg) && Repeats(cfg, w) && k in w.commits && i <= j < |w.commits[k]|
    ensures w.commits[k][i].time <= w.commits[k][j].time
  {
    if i < j {
      LaterEffects(cfg, w, k, i, j - 1);
      assert Repeated(cfg, w, k, w.commits[k]);
    }
  }

  /** Kafka accepts no further copy of k in the run. */
  ghost predicate NoNewCopies(cfg: Settings, w: World, acts: seq<Action>, k: InboxKey)
    requires ValidSettings(cfg)
  {
    forall p | p in Run(cfg, w, acts).log && IsCopy(Run(cfg, w, acts), p, k) :: p in w.log
  }

  ghost predicate CanRepeat(cfg: Settings, w: World, k: InboxKey)
    requires ValidSettings(cfg)
  {
    exists acts :: PermittedRun(cfg, w, acts) && NoNewCopies(cfg, w, acts, k)
      && History(Run(cfg, w, acts), k) != History(w, k)
  }

  /** A copy of k that is still deliverable and outlives the retention of the last effect. */
  predicate LateCopy(cfg: Settings, w: World, k: InboxKey, p: Place) {
    && k in w.commits && w.commits[k] != [] && IsCopy(w, p, k)
    && w.clock <= Closes(cfg, w, p) && Last(w.commits[k]).time + cfg.retention.keep < Closes(cfg, w, p)
  }

  lemma StepWithoutLateCopy(cfg: Settings, w: World, a: Action, k: InboxKey)
    requires ValidSettings(cfg) && Inv(cfg, w) && Permitted(cfg, w, a) && k in w.commits && w.commits[k] != []
    requires forall p :: !LateCopy(cfg, w, k, p)
    ensures History(Step(cfg, w, a), k) == w.commits[k]
  {
    if a.Consume? {
      ConsumeWithoutLateCopy(cfg, w, a, k);
    } else {
      hide Inv, Backoff;
    }
  }

  lemma ConsumeWithoutLateCopy(cfg: Settings, w: World, a: Action, k: InboxKey)
    requires ValidSettings(cfg) && Inv(cfg, w) && Permitted(cfg, w, a) && k in w.commits && w.commits[k] != []
    requires a.Consume? && forall p :: !LateCopy(cfg, w, k, p)
    ensures History(Step(cfg, w, a), k) == w.commits[k]
  {
    ConsumeEffect(cfg, w, a);
    hide Step, Inv, OpAt, Owns, Insertable, Added;
    if OperationAt(w, a.service, a.place) == k {
      assert !LateCopy(cfg, w, k, a.place);
      Remembered(cfg, w, w.(clock := w.clock), k, a.now);
    }
  }

  lemma {:induction false} RunWithoutLateCopy(cfg: Settings, w: World, acts: seq<Action>, k: InboxKey)
    requires ValidSettings(cfg) && Inv(cfg, w) && PermittedRun(cfg, w, acts) && k in w.commits && w.commits[k] != []
    requires NoNewCopies(cfg, w, acts, k) && forall p :: !LateCopy(cfg, w, k, p)
    ensures History(Run(cfg, w, acts), k) == w.commits[k]
    decreases |acts|
  {
    hide Inv, Step, Permitted, OpAt;
    if acts != [] {
      var w1 := Step(cfg, w, acts[0]);
      StepKeepsInv(cfg, w, acts[0]);
      StepExtends(cfg, w, acts[0]);
      StepWithoutLateCopy(cfg, w, acts[0], k);
      RunExtends(cfg, w1, acts[1..]);
      forall p ensures !LateCopy(cfg, w1, k, p) {
        assert !LateCopy(cfg, w, k, p);
      }
      RunWithoutLateCopy(cfg, w1, acts[1..], k);
    }
  }

  /** Without further copies an operation can take effect again exactly when one of its copies is still deliverable and
      outlives the retention of its last effect. */
  lemma RepeatsIffLateCopy(cfg: Settings, w: World, k: InboxKey)
    requires ValidSettings(cfg) && Inv(cfg, w) && k in w.commits && w.commits[k] != []
    ensures CanRepeat(cfg, w, k) <==> exists p :: LateCopy(cfg, w, k, p)
  {
    hide Inv, Run, PermittedRun;
    if p :| LateCopy(cfg, w, k, p) {
      var t := Closes(cfg, w, p);
      assert OperationAt(w, k.service, p) == k;
      LateCopyTakesEffect(cfg, w, k.service, p, t);
      var acts := ForgetAndConsume(k.service, p, k, t);
      assert NoNewCopies(cfg, w, acts, k);
      assert |History(Run(cfg, w, acts), k)| == |History(w, k)| + 1;
    } else {
      forall acts | PermittedRun(cfg, w, acts) && NoNewCopies(cfg, w, acts, k)
        ensures History(Run(cfg, w, acts), k) == History(w, k)
      {
        RunWithoutLateCopy(cfg, w, acts, k);
      }
    }
  }

  // ---- causes, and what is kept ----

  /** The operation at the start of a chain of derived events. */
  function Root(k: InboxKey): InboxKey
    decreases k.op
  {
    if k.op.EventOp? && k.op.id.Derived? then Root(InboxKey(k.op.id.service, k.op.id.op)) else k
  }

  /** Effects have causes: the whole chain of operations behind an effect, back to its root, took effect too, and each
      link was sent with the content its cause emitted. */
  lemma {:induction false} EffectsHaveCauses(cfg: Settings, w: World, k: InboxKey)
    requires Inv(cfg, w) && k in w.commits
    ensures Root(k) in w.commits
    ensures k.op.EventOp? && k.op.id.Derived? ==>
              exists m | m in w.sent :: m.id == k.op.id && Committed(w, m)
    decreases k.op
  {
    hide Answered, Repeats, Kept, PublishedSent, Fenced, EmittedIn;
    if k.op.EventOp? && k.op.id.Derived? {
      assert CausedBySend(w, k);
      var m :| m in w.sent && m.id == k.op.id;
      assert Committed(w, m);
      EffectsHaveCauses(cfg, w, KeyOf(m.id));
    }
  }

  /** No event of an effect is ever lost: after any further run it is in the outbox or with the broker. */
  lemma NothingIsLost(cfg: Settings, w: World, acts: seq<Action>, k: InboxKey, j: nat, i: nat)
    requires ValidSettings(cfg) && Inv(cfg, w) && PermittedRun(cfg, w, acts)
    requires k in w.commits && j < |w.commits[k]| && i < |w.commits[k][j].events|
    ensures var e := w.commits[k][j].events[i]; InOutbox(Run(cfg, w, acts).db, e) || e in Run(cfg, w, acts).sent
  {
    hide Answered, Repeats, Genuine, PublishedSent, Fenced, Caused, Run, PermittedRun, InOutbox;
    RunKeepsInv(cfg, w, acts);
    RunExtends(cfg, w, acts);
    var w2 := Run(cfg, w, acts);
    assert w2.commits[k][j] == w.commits[k][j];
    assert KeptAll(w2, w2.commits[k][j]);
  }

  /** Two workers never both hold an unexpired lease on one event. */
  lemma LeasesDoNotOverlap(cfg: Settings, w: World, t: Token, u: Token)
    requires Inv(cfg, w) && t in w.held && u in w.held && w.held[t].event.id == w.held[u].event.id
    requires w.clock < w.held[t].leaseUntil && w.clock < w.held[u].leaseUntil
    ensures t == u
  {
    assert HoldFenced(w, t, w.held[t]) && HoldFenced(w, u, w.held[u]);
  }

  lemma StepKeepsStale(cfg: Settings, w: World, a: Action, e: EventId, t: Token)
    requires ValidSettings(cfg) && Permitted(cfg, w, a) && t < w.nextToken && !Current(w.db, e, t)
    ensures !Current(Step(cfg, w, a).db, e, t) && t < Step(cfg, w, a).nextToken
  {
    hide Backoff, Owns, OpAt;
    if a.Consume? {
      ConsumeClaims(w.db, OperationAt(w, a.service, a.place), a.business, a.now, e, t);
    }
  }

  /** Inserting rows claims nothing. */
  lemma ConsumeClaims(db: Database, k: InboxKey, b: Business, now: Time, e: EventId, t: Token)
    requires !Current(db, e, t)
    ensures !Current(Execute(db, k, b, now).0, e, t)
  {
    if k !in db.inbox && b.Returns? && Insertable(db.outbox, b.events) {
      Inserted(db.outbox, b.events, k.service, k.op, now);
    }
  }

  /** A claim that was lost stays lost: after any run its token changes neither outcome of the row. */
  lemma {:induction false} StaleTokenChangesNothing(cfg: Settings, w: World, acts: seq<Action>, e: EventId, t: Token,
                                                    at: Time)
    requires ValidSettings(cfg) && PermittedRun(cfg, w, acts) && t < w.nextToken && !Current(w.db, e, t)
    ensures var db := Run(cfg, w, acts).db;
            MarkPublished(db, e, t, at) == (db, false) && MarkFailure(db, e, t, at) == (db, false)
    decreases |acts|
  {
    hide Step, Permitted;
    if acts != [] {
      StepKeepsStale(cfg, w, acts[0], e, t);
      StaleTokenChangesNothing(cfg, Step(cfg, w, acts[0]), acts[1..], e, t, at);
    }
  }

  predicate Removes(a: Action, e: EventId) {
    a.ForgetOutbox? && e in a.events
  }

  lemma StepKeepsPublished(cfg: Settings, w: World, a: Action, e: EventId)
    requires ValidSettings(cfg) && Permitted(cfg, w, a) && !Removes(a, e)
    requires e in w.db.outbox && w.db.outbox[e].status == Published
    ensures e in Step(cfg, w, a).db.outbox && Step(cfg, w, a).db.outbox[e] == w.db.outbox[e]
  {
    if a.Consume? {
      ConsumeEffect(cfg, w, a);
      hide Step, OpAt;
    } else {
      hide Backoff;
    }
  }

  /** Published is final: no run moves the row, only a cleanup that picks it removes it. */
  lemma {:induction false} PublishedIsFinal(cfg: Settings, w: World, acts: seq<Action>, e: EventId)
    requires ValidSettings(cfg) && PermittedRun(cfg, w, acts) && e in w.db.outbox && w.db.outbox[e].status == Published
    requires forall i | 0 <= i < |acts| :: !Removes(acts[i], e)
    ensures e in Run(cfg, w, acts).db.outbox && Run(cfg, w, acts).db.outbox[e] == w.db.outbox[e]
    decreases |acts|
  {
    hide Step, Permitted;
    if acts != [] {
      StepKeepsPublished(cfg, w, acts[0], e);
      PublishedIsFinal(cfg, Step(cfg, w, acts[0]), acts[1..], e);
    }
  }

  // ---- delivery stays possible ----

  lemma CanClaim(cfg: Settings, w: World, e: EventId, now: Time)
    requires ValidSettings(cfg) && Inv(cfg, w) && e in w.db.outbox && w.db.outbox[e].status != Published
    requires w.clock + Max(cfg.relay.lease, cfg.relay.maxBackoff) <= now
    ensures w.clock <= now && e.Derived? && Eligible(w.db.outbox[e], e.service, now)
  {
    hide Answered, Repeats, Kept, PublishedSent, Caused;
    assert RowFenced(cfg, w, e, w.db.outbox[e]);
    assert Committed(w, Content(e, w.db.outbox[e]));
  }

  predicate HeldBy(w: World, t: Token, m: PendingEvent) {
    t in w.held && w.held[t].event == m && Current(w.db, m.id, t) && InOutbox(w.db, m)
  }

  /** The row of a message is published, and Kafka has the message. */
  predicate IsDelivered(w: World, m: PendingEvent) {
    m.id in w.db.outbox && w.db.outbox[m.id].status == Published && m in w.sent
  }

  /** From a bounded time on, a worker can take any unpublished event and deliver it. */
  lemma CanAlwaysDeliver(cfg: Settings, w: World, e: EventId, p: Place, now: Time)
    requires ValidSettings(cfg) && Inv(cfg, w) && e in w.db.outbox && w.db.outbox[e].status != Published && p !in w.log
    requires w.clock + Max(cfg.relay.lease, cfg.relay.maxBackoff) <= now
    ensures e.Derived?
    ensures var acts := [RelayClaim(e.service, e, now), RelayPublish(w.nextToken, p, now), RelayDone(w.nextToken, now)];
            PermittedRun(cfg, w, acts) && IsDelivered(Run(cfg, w, acts), Content(e, w.db.outbox[e]))
  {
    hide Run, Inv, Eligible, Step, HeldBy, PermittedRun, Permitted, ValidSettings, IsDelivered, Content;
    CanClaim(cfg, w, e, now);
    var t, m := w.nextToken, Content(e, w.db.outbox[e]);
    var claim, publish, done := RelayClaim(e.service, e, now), RelayPublish(t, p, now), RelayDone(t, now);
    var w1 := ClaimHolds(cfg, w, e, now);
    PublishHolds(cfg, w1, t, m, p, now);
    TwoSteps(cfg, w, claim, publish);
    RunThen(cfg, w, [claim, publish], done);
    assert [claim, publish] + [done] == [claim, publish, done];
  }

  lemma ClaimHolds(cfg: Settings, w: World, e: EventId, now: Time) returns (w1: World)
    requires ValidSettings(cfg) && e.Derived? && e in w.db.outbox && Eligible(w.db.outbox[e], e.service, now)
    requires w.clock <= now
    ensures Permitted(cfg, w, RelayClaim(e.service, e, now))
    ensures w1 == Step(cfg, w, RelayClaim(e.service, e, now)) && w1.clock == now && w1.log == w.log
    ensures HeldBy(w1, w.nextToken, Content(e, w.db.outbox[e]))
  {
    w1 := Step(cfg, w, RelayClaim(e.service, e, now));
  }

  lemma PublishHolds(cfg: Settings, w: World, t: Token, m: PendingEvent, p: Place, now: Time)
    requires ValidSettings(cfg) && HeldBy(w, t, m) && w.clock == now && p !in w.log
    ensures var w1 := Step(cfg, w, RelayPublish(t, p, now));
            var w2 := Step(cfg, w1, RelayDone(t, now));
            && Permitted(cfg, w, RelayPublish(t, p, now)) && Permitted(cfg, w1, RelayDone(t, now)) && IsDelivered(w2, m)
  {
  }

  /** An outbox row has its completed inbox row until the last effect outlives the retention. */
  lemma RowHasInboxWhileRetained(cfg: Settings, w: World, e: EventId)
    requires Inv(cfg, w) && e in w.db.outbox
    ensures e.Derived? && KeyOf(e) in w.commits && w.commits[KeyOf(e)] != []
    ensures w.clock <= Last(w.commits[KeyOf(e)]).time + cfg.retention.keep ==> KeyOf(e) in w.db.inbox
  {
    hide Repeats, Kept, PublishedSent, Fenced, Caused, EmittedIn, Owns;
    assert Committed(w, Content(e, w.db.outbox[e]));
  }

  // ---- two runs to the limits ----

  const FIRST := Place("in", 0, 0)
  const EVENT := Derived("s", OffsetOp("in", 0, 0), "x")
  const MESSAGE := PendingEvent(EVENT, "out", "p")

  /** An operation of service s takes effect at time 0 and emits one event. */
  lemma EmitsOne(cfg: Settings) returns (acts: seq<Action>)
    requires ValidSettings(cfg)
    ensures PermittedRun(cfg, START, acts)
    ensures var w := Run(cfg, START, acts);
            && w.clock == 0 && w.nextToken == 1 && w.held == map[] && w.log == map[FIRST := Record(None, 0)]
            && w.commits == map[KeyOf(EVENT) := [Commit(0, "r", [MESSAGE])]]
            && w.db.inbox == map[KeyOf(EVENT) := InboxRow("r", 0)]
            && EVENT in w.db.outbox && w.db.outbox[EVENT] == NewRow("s", EVENT.op, MESSAGE, 0)
  {
    var produce, consume := Produce(FIRST, None, 0), Consume("s", FIRST, Returns("r", [MESSAGE]), 0);
    var w1 := Step(cfg, START, produce);
    assert "out"[0] == 'o';
    assert MESSAGE == [MESSAGE][0];
    ConsumeEffect(cfg, w1, consume);
    RunThen(cfg, START, [], produce);
    assert [] + [produce] == [produce];
    RunThen(cfg, START, [produce], consume);
    acts := [produce] + [consume];
    assert IsEventId([MESSAGE], EVENT) by {
      assert [MESSAGE][0].id == EVENT;
    }
    assert [] + [Commit(0, "r", [MESSAGE])] == [Commit(0, "r", [MESSAGE])];
  }

  /** Past the retention an event still unpublished outlives its inbox row. */
  lemma RowOutlivesInbox(cfg: Settings) returns (acts: seq<Action>)
    requires ValidSettings(cfg)
    ensures PermittedRun(cfg, START, acts)
    ensures var db := Run(cfg, START, acts).db; EVENT in db.outbox && KeyOf(EVENT) !in db.inbox
  {
    var before := EmitsOne(cfg);
    var forget := ForgetInbox({KeyOf(EVENT)}, cfg.retention.keep + 1);
    hide Run, PermittedRun;
    RunThen(cfg, START, before, forget);
    acts := before + [forget];
  }

  const COPY := Place("out", 0, 0)
  const LATE := Place("out", 0, 1)

  /** The relay publishes the event and crashes before it marks the row; service d takes the copy in at time 0. */
  lemma PublishesAndCrashes(cfg: Settings) returns (acts: seq<Action>)
    requires ValidSettings(cfg)
    ensures PermittedRun(cfg, START, acts)
    ensures var w := Run(cfg, START, acts);
            && w.clock == 0 && w.nextToken == 2
            && w.log == map[FIRST := Record(None, 0), COPY := Record(Some(EVENT), 0)]
            && History(w, InboxKey("d", EventOp(EVENT))) == [Commit(0, "ok", [])]
            && EVENT in w.db.outbox && w.db.outbox[EVENT].status == Claimed
               && w.db.outbox[EVENT].leaseUntil == cfg.relay.lease
            && w.db.outbox[EVENT].service == "s"
  {
    var before := EmitsOne(cfg);
    var claim, publish := RelayClaim("s", EVENT, 0), RelayPublish(1, COPY, 0);
    var crash, consume := Crash(1, 0), Consume("d", COPY, Returns("ok", []), 0);
    var w0 := Run(cfg, START, before);
    hide Run, PermittedRun;
    assert FIRST != COPY by {
      assert "in"[0] == 'i' && "out"[0] == 'o';
    }
    var w1 := Step(cfg, w0, claim);
    var w2 := Step(cfg, w1, publish);
    var w3 := Step(cfg, w2, crash);
    ConsumeEffect(cfg, w3, consume);
    assert [] + [Commit(0, "ok", [])] == [Commit(0, "ok", [])];
    RunThen(cfg, START, before, claim);
    RunThen(cfg, START, before + [claim], publish);
    RunThen(cfg, START, before + [claim] + [publish], crash);
    RunThen(cfg, START, before + [claim] + [publish] + [crash], consume);
    acts := before + [claim] + [publish] + [crash] + [consume];
  }

  lemma {:induction false} RunAppended(cfg: Settings, w: World, acts: seq<Action>, more: seq<Action>)
    requires ValidSettings(cfg) && PermittedRun(cfg, w, acts) && PermittedRun(cfg, Run(cfg, w, acts), more)
    ensures PermittedRun(cfg, w, acts + more) && Run(cfg, w, acts + more) == Run(cfg, Run(cfg, w, acts), more)
    decreases |acts|
  {
    hide Step, Permitted;
    if acts == [] {
      assert acts + more == more;
    } else {
      assert (acts + more)[1..] == acts[1..] + more;
      RunAppended(cfg, Step(cfg, w, acts[0]), acts[1..], more);
    }
  }

  /** Long after the crash the relay claims the row again and publishes a second copy. */
  lemma PublishesAgain(cfg: Settings, t: Time) returns (acts: seq<Action>)
    requires ValidSettings(cfg) && cfg.relay.lease <= t
    ensures PermittedRun(cfg, START, acts)
    ensures var w := Run(cfg, START, acts);
            && w.clock == t && LATE in w.log && w.log[LATE] == Record(Some(EVENT), t)
            && History(w, InboxKey("d", EventOp(EVENT))) == [Commit(0, "ok", [])]
  {
    var before := PublishesAndCrashes(cfg);
    var w0 := Run(cfg, START, before);
    hide Run, PermittedRun;
    assert LATE !in w0.log by {
      assert LATE != FIRST && LATE != COPY by {
        assert "in"[0] == 'i' && "out"[0] == 'o';
      }
    }
    var claim, publish := RelayClaim("s", EVENT, t), RelayPublish(2, LATE, t);
    RunThen(cfg, START, before, claim);
    RunThen(cfg, START, before + [claim], publish);
    acts := before + [claim] + [publish];
  }

  /** A crash between publish and mark can make one event take effect twice: the relay publishes it again after the
      consumer's inbox has forgotten it. */
  lemma RepublishTakesEffectTwice(cfg: Settings) returns (acts: seq<Action>)
    requires ValidSettings(cfg)
    ensures PermittedRun(cfg, START, acts)
    ensures |History(Run(cfg, START, acts), InboxKey("d", EventOp(EVENT)))| == 2
  {
    var k, t := InboxKey("d", EventOp(EVENT)), Max(cfg.relay.lease, cfg.retention.keep + 1);
    var before := PublishesAgain(cfg, t);
    var w := Run(cfg, START, before);
    EveryRunIsConsistent(cfg, before);
    var more := ForgetAndConsume("d", LATE, k, t);
    assert OperationAt(w, "d", LATE) == k;
    hide Run, PermittedRun, Inv, Step, OpAt, ForgetAndConsume;
    LateCopyTakesEffect(cfg, w, "d", LATE, t);
    RunAppended(cfg, START, before, more);
    acts := before + more;
  }
}
