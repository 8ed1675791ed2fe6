/** The transactional inbox and outbox, the relay that publishes outbox rows, and their retention cleanup. */
module Outbox {
  import opened Common

  type Service = string
  /** A relay worker's fencing token; 0 is the empty token. */
  type Token = nat

  /** OperationKey: the event id header when there is one that is not blank, otherwise the message's place in Kafka. */
  datatype OpKey = EventOp(id: EventId) | OffsetOp(topic: string, partition: int, offset: int)

  /** StableEventID derives an id from the operation that emits the event, through a digest taken as injective; other
      ids come from outside these services. */
  datatype EventId = Derived(service: Service, op: OpKey, suffix: string) | Foreign(text: string)

  predicate Blank(s: string) {
    forall i | 0 <= i < |s| :: IsSpace(s[i])
  }

  predicate BlankId(id: EventId) {
    id.Foreign? && Blank(id.text)
  }

  datatype KafkaMessage = KafkaMessage(topic: string, partition: int, offset: int, eventId: Option<EventId>)

  function OperationKey(m: KafkaMessage): OpKey {
    if m.eventId.Some? && !BlankId(m.eventId.value) then EventOp(m.eventId.value)
    else OffsetOp(m.topic, m.partition, m.offset)
  }

  datatype InboxKey = InboxKey(service: Service, op: OpKey)

  datatype InboxRow = InboxRow(response: string, completedAt: Time)

  datatype Status = Pending | Claimed | Retryable | Published | Failed

  datatype OutboxRow = OutboxRow(service: Service, op: OpKey, topic: string, payload: string, status: Status,
                                 attempt: nat, claim: Token, leaseUntil: Time, nextAttemptAt: Time, publishedAt: Time)

  datatype PendingEvent = PendingEvent(id: EventId, topic: string, payload: string)

  /** What the business callback did inside the transaction. */
  datatype Business = Raises | Returns(response: string, events: seq<PendingEvent>)

  datatype Execution = Executed(response: string) | Replayed(response: string) | RolledBack

  datatype Database = Database(inbox: map<InboxKey, InboxRow>, outbox: map<EventId, OutboxRow>)

  function NewRow(service: Service, op: OpKey, e: PendingEvent, now: Time): OutboxRow {
    OutboxRow(service, op, e.topic, e.payload, Pending, 0, 0, 0, now, 0)
  }

  predicate Publishable(e: PendingEvent) {
    !BlankId(e.id) && !Blank(e.topic) && e.payload != ""
  }

  ghost predicate Insertable(outbox: map<EventId, OutboxRow>, events: seq<PendingEvent>) {
    && (forall i | 0 <= i < |events| :: Publishable(events[i]) && events[i].id !in outbox)
    && (forall i, j | 0 <= i < j < |events| :: events[i].id != events[j].id)
  }

  function InsertAll(outbox: map<EventId, OutboxRow>, events: seq<PendingEvent>, service: Service, op: OpKey, now: Time)
    : map<EventId, OutboxRow>
  {
    if events == [] then outbox
    else
      var last := events[|events| - 1];
      InsertAll(outbox, events[..|events| - 1], service, op, now)[last.id := NewRow(service, op, last, now)]
  }

  /** ExecuteInboxOutbox: one transaction; a replay answers from the inbox, any failure leaves nothing behind. */
  ghost function Execute(db: Database, k: InboxKey, b: Business, now: Time): (Database, Execution) {
    if k in db.inbox then (db, Replayed(db.inbox[k].response))
    else if b.Raises? || !Insertable(db.outbox, b.events) then (db, RolledBack)
    else (Database(db.inbox[k := InboxRow(b.response, now)], InsertAll(db.outbox, b.events, k.service, k.op, now)),
          Executed(b.response))
  }

  // ---- relay ----

  datatype Config = Config(lease: Time, publishTimeout: Time, initialBackoff: Time, maxBackoff: Time)

  const DAY := 86_400_000_000

  /** normalize: the publish deadline always falls inside the lease. */
  function Normalize(c: Config): (r: Config)
    ensures 0 < r.lease && 0 <= r.publishTimeout < r.lease && 0 < r.initialBackoff && 0 < r.maxBackoff
    ensures c.lease > 0 ==> r.lease == c.lease
    ensures 0 < c.publishTimeout < r.lease ==> r.publishTimeout == c.publishTimeout
    ensures !(0 < c.publishTimeout < r.lease) ==> r.publishTimeout == r.lease / 2
    ensures c.lease <= 0 ==> r.lease == 30 * 1_000_000
    ensures r.initialBackoff == if c.initialBackoff > 0 then c.initialBackoff else 1_000_000
    ensures r.maxBackoff == if c.maxBackoff >= r.initialBackoff then c.maxBackoff else 60 * 1_000_000
  {
    var lease := if c.lease <= 0 then 30_000_000 else c.lease;
    var timeout := if c.publishTimeout <= 0 || c.publishTimeout >= lease then lease / 2 else c.publishTimeout;
    var initial := if c.initialBackoff <= 0 then 1_000_000 else c.initialBackoff;
    Config(lease, timeout, initial, if c.maxBackoff < initial then 60_000_000 else c.maxBackoff)
  }

  /** backoff, with exact doubling in place of floating point. */
  function Backoff(c: Config, attempt: nat): (d: Time)
    requires 0 < c.initialBackoff && 0 < c.maxBackoff
    ensures 0 < d <= c.maxBackoff
    ensures d == c.maxBackoff || d >= c.initialBackoff
    decreases attempt
  {
    if attempt <= 1 then Min(c.initialBackoff, c.maxBackoff)
    else Min(2 * Backoff(c, attempt - 1), c.maxBackoff)
  }

  /** The delay doubles with each attempt up to the maximum. */
  lemma {:induction false} BackoffDoubles(c: Config, attempt: nat)
    requires 0 < c.initialBackoff && 0 < c.maxBackoff
    ensures Backoff(c, attempt) == Min(c.initialBackoff * Doubled(if attempt < 1 then 0 else attempt - 1), c.maxBackoff)
  {
    if attempt > 1 {
      BackoffDoubles(c, attempt - 1);
      assert c.initialBackoff * Doubled(attempt - 1) == 2 * (c.initialBackoff * Doubled(attempt - 2));
    }
  }

  predicate Eligible(row: OutboxRow, service: Service, now: Time) {
    && row.service == service
    && ((row.status in {Pending, Retryable, Failed} && row.nextAttemptAt <= now)
        || (row.status == Claimed && row.leaseUntil <= now))
  }

  function Grant(row: OutboxRow, token: Token, leaseUntil: Time): OutboxRow {
    row.(status := Claimed, claim := token, leaseUntil := leaseUntil, attempt := row.attempt + 1)
  }

  predicate Current(db: Database, e: EventId, token: Token) {
    e in db.outbox && db.outbox[e].status == Claimed && db.outbox[e].claim == token
  }

  function MarkPublished(db: Database, e: EventId, token: Token, now: Time): (Database, bool) {
    if Current(db, e, token)
    then (db.(outbox := db.outbox[e := db.outbox[e].(status := Published, claim := 0, leaseUntil := 0,
                                                     publishedAt := now)]), true)
    else (db, false)
  }

  function MarkFailure(db: Database, e: EventId, token: Token, next: Time): (Database, bool) {
    if Current(db, e, token)
    then (db.(outbox := db.outbox[e := db.outbox[e].(status := Retryable, claim := 0, leaseUntil := 0,
                                                     nextAttemptAt := next)]), true)
    else (db, false)
  }

  // ---- retention ----

  datatype Retention = Retention(keep: Time, replayWindow: Time)

  /** LoadRetentionConfig: state is kept longer than Kafka can replay it. */
  function LoadRetention(keep: Time, replayWindow: Time): (r: Retention)
    requires keep > 0 && replayWindow > 0
    ensures r.replayWindow == replayWindow < r.keep
    ensures keep > replayWindow ==> r.keep == keep
    ensures keep <= replayWindow ==> r.keep == replayWindow + 24 * 3600 * 1_000_000
  {
    Retention(if keep <= replayWindow then replayWindow + DAY else keep, replayWindow)
  }

  /** CleanupReliabilityState; `picked` is what the ordered, limited scans returned. */
  function CleanInbox(db: Database, picked: set<InboxKey>, cutoff: Time): Database {
    db.(inbox := map k | k in db.inbox && !(k in picked && db.inbox[k].completedAt < cutoff) :: db.inbox[k])
  }

  function CleanOutbox(db: Database, picked: set<EventId>, cutoff: Time): Database {
    db.(outbox := map e | e in db.outbox
                          && !(e in picked && db.outbox[e].status == Published && db.outbox[e].publishedAt < cutoff)
                    :: db.outbox[e])
  }

  // ---- the tables changed in place ----

  class Tables {
    var inbox: map<InboxKey, InboxRow>
    var outbox: map<EventId, OutboxRow>
    /** consumer_operation_results, by creation time: an older table that only cleanup and migrations still touch. */
    var operationResults: map<InboxKey, Time>

    ghost function Value(): Database
      reads this
    {
      Database(inbox, outbox)
    }

    constructor ()
      ensures Value() == Database(map[], map[]) && operationResults == map[]
    {
      inbox, outbox, operationResults := map[], map[], map[];
    }

    /** Rows are inserted one by one; a bad or duplicate event rolls the whole transaction back. */
    method ExecuteInboxOutbox(k: InboxKey, b: Business, now: Time) returns (result: Execution)
      modifies this`inbox, this`outbox
      ensures (Value(), result) == Execute(old(Value()), k, b, now)
    {
      if k in inbox {
        return Replayed(inbox[k].response);
      }
      if b.Raises? {
        return RolledBack;
      }
      var saved := outbox;
      var i := 0;
      InsertNothing(saved, k.service, k.op, now);
      while i < |b.events|
        invariant 0 <= i <= |b.events|
        invariant Insertable(saved, b.events[..i])
        invariant outbox == InsertAll(saved, b.events[..i], k.service, k.op, now)
        invariant inbox == old(inbox)
      {
        hide InsertAll, Insertable, Publishable;
        var e := b.events[i];
        InsertNext(saved, b.events, i, k.service, k.op, now);
        if !Publishable(e) || e.id in outbox {
          InsertablePrefix(saved, b.events, i + 1);
          outbox := saved;
          return RolledBack;
        }
        outbox := outbox[e.id := NewRow(k.service, k.op, e, now)];
        i := i + 1;
      }
      assert b.events[..i] == b.events;
      inbox := inbox[k := InboxRow(b.response, now)];
      return Executed(b.response);
    }

    /** The relay's claim of the row its scan locked. */
    method ClaimRow(e: EventId, service: Service, token: Token, now: Time, lease: Time) returns (claimed: bool)
      modifies this`outbox
      ensures claimed == (e in old(outbox) && Eligible(old(outbox)[e], service, now))
      ensures outbox == if claimed then old(outbox)[e := Grant(old(outbox)[e], token, now + lease)] else old(outbox)
    {
      claimed := e in outbox && Eligible(outbox[e], service, now);
      if claimed {
        var row := outbox[e];
        outbox := outbox[e := row.(status := Claimed, claim := token, leaseUntil := now + lease,
                                   attempt := row.attempt + 1)];
      }
    }

    /** RunOnce after the claim: publish, then record the outcome under the claim token. */
    method Settle(e: EventId, token: Token, attempt: nat, published: bool, cfg: Config, now: Time)
      returns (recorded: bool)
      requires 0 < cfg.initialBackoff && 0 < cfg.maxBackoff
      modifies this`outbox
      ensures (Value(), recorded) == if published then MarkPublished(old(Value()), e, token, now)
                                     else MarkFailure(old(Value()), e, token, now + Backoff(cfg, attempt))
    {
      recorded := e in outbox && outbox[e].status == Claimed && outbox[e].claim == token;
      if recorded {
        var row := outbox[e].(claim := 0, leaseUntil := 0);
        if published {
          outbox := outbox[e := row.(status := Published, publishedAt := now)];
        } else {
          outbox := outbox[e := row.(status := Retryable, nextAttemptAt := now + Backoff(cfg, attempt))];
        }
      }
    }

    method CleanupReliabilityState(results: set<InboxKey>, inboxKeys: set<InboxKey>, events: set<EventId>, r: Retention,
                                   now: Time)
      modifies this
      ensures forall k :: k in operationResults <==>
                k in old(operationResults) && !(k in results && old(operationResults)[k] < now - r.keep)
      ensures forall k | k in operationResults :: operationResults[k] == old(operationResults)[k]
      ensures Value() == CleanOutbox(CleanInbox(old(Value()), inboxKeys, now - r.keep), events, now - r.keep)
    {
      var cutoff := now - r.keep;
      operationResults := map k | k in operationResults && !(k in results && operationResults[k] < cutoff)
                            :: operationResults[k];
      inbox := map k | k in inbox && !(k in inboxKeys && inbox[k].completedAt < cutoff) :: inbox[k];
      outbox := map e | e in outbox && !(e in events && outbox[e].status == Published && outbox[e].publishedAt < cutoff)
                  :: outbox[e];
    }
  }

  // ---- inserting a batch of events ----

  lemma InsertNothing(outbox: map<EventId, OutboxRow>, service: Service, op: OpKey, now: Time)
    ensures InsertAll(outbox, [], service, op, now) == outbox && Insertable(outbox, [])
  {
  }

  lemma InsertablePrefix(outbox: map<EventId, OutboxRow>, events: seq<PendingEvent>, n: nat)
    requires n <= |events| && !Insertable(outbox, events[..n])
    ensures !Insertable(outbox, events)
  {
  }

  predicate IsEventId(events: seq<PendingEvent>, id: EventId) {
    exists i | 0 <= i < |events| :: events[i].id == id
  }

  /** InsertAll adds exactly the listed events, as new pending rows, and keeps every other row. */
  lemma {:induction false} Inserted(outbox: map<EventId, OutboxRow>, events: seq<PendingEvent>, service: Service,
                                    op: OpKey, now: Time)
    requires Insertable(outbox, events)
    ensures var after := InsertAll(outbox, events, service, op, now);
            && (forall id :: id in after <==> id in outbox || IsEventId(events, id))
            && (forall id | id in outbox :: after[id] == outbox[id])
            && (forall i | 0 <= i < |events| :: after[events[i].id] == NewRow(service, op, events[i], now))
  {
    hide IsEventId, Publishable, NewRow;
    if events != [] {
      var n := |events| - 1;
      var front := events[..n];
      assert forall i | 0 <= i < n :: front[i] == events[i];
      Inserted(outbox, front, service, op, now);
      IsEventIdNext(events);
    } else {
      NoEventId(events);
    }
  }

  lemma NoEventId(events: seq<PendingEvent>)
    requires events == []
    ensures forall id :: !IsEventId(events, id)
  {
  }

  lemma IsEventIdNext(events: seq<PendingEvent>)
    requires events != []
    ensures forall id ::
              IsEventId(events, id) <==> IsEventId(events[..|events| - 1], id) || id == events[|events| - 1].id
  {
  }

  lemma InsertNext(outbox: map<EventId, OutboxRow>, events: seq<PendingEvent>, i: nat, service: Service, op: OpKey,
                   now: Time)
    requires i < |events| && Insertable(outbox, events[..i])
    ensures var before := InsertAll(outbox, events[..i], service, op, now);
            && InsertAll(outbox, events[..i + 1], service, op, now)
               == before[events[i].id := NewRow(service, op, events[i], now)]
            && (Insertable(outbox, events[..i + 1]) <==> Publishable(events[i]) && events[i].id !in before)
  {
    hide NewRow, Publishable;
    var front, longer := events[..i], events[..i + 1];
    assert longer[..i] == front;
    assert forall j | 0 <= j < i :: longer[j] == front[j];
    Inserted(outbox, front, service, op, now);
  }

  // ---- what each transaction does to the rows ----

  /** A message goes by its event id exactly if that has a character other than blanks, and by its place otherwise. */
  lemma OperationKeyIff(m: KafkaMessage)
    ensures var named := match m.eventId
                         case None => false
                         case Some(Derived(_, _, _)) => true
                         case Some(Foreign(text)) => HasText(text);
            OperationKey(m) == if named then EventOp(m.eventId.value) else OffsetOp(m.topic, m.partition, m.offset)
  {
  }

  predicate HasText(s: string) {
    exists i | 0 <= i < |s| :: !IsSpace(s[i])
  }

  lemma PublishableIff(e: PendingEvent)
    ensures Publishable(e) <==> (e.id.Derived? || HasText(e.id.text)) && HasText(e.topic) && e.payload != ""
  {
  }

  /** The transaction runs exactly if its operation has not and the callback succeeds with events that have an id of
      their own, a topic and a payload. */
  lemma ExecuteReply(db: Database, k: InboxKey, b: Business, now: Time)
    ensures var (after, result) := Execute(db, k, b, now);
            var sound := b.Returns? && (forall i | 0 <= i < |b.events| ::
                                          && Publishable(b.events[i]) && b.events[i].id !in db.outbox
                                          && forall j | 0 <= j < i :: b.events[j].id != b.events[i].id);
            && (result.Replayed? <==> k in db.inbox) && (result.Replayed? ==> result.response == db.inbox[k].response)
            && (result.RolledBack? <==> k !in db.inbox && !sound)
            && (result.Executed? <==> k !in db.inbox && sound)
            && (!result.Executed? ==> after == db)
  {
    hide InsertAll, Publishable;
  }

  /** Then its inbox row and response are there, and each event is a row that is due at once and nobody has claimed. */
  lemma ExecuteDoes(db: Database, k: InboxKey, b: Business, now: Time)
    requires Execute(db, k, b, now).1.Executed?
    ensures var (after, result) := Execute(db, k, b, now);
            && b.Returns? && result.response == b.response
            && after.inbox == db.inbox[k := InboxRow(b.response, now)]
            && (forall id :: id in after.outbox <==> id in db.outbox || IsEventId(b.events, id))
            && (forall id | id in db.outbox :: after.outbox[id] == db.outbox[id])
            && (forall i | 0 <= i < |b.events| ::
                  after.outbox[b.events[i].id]
                  == OutboxRow(k.service, k.op, b.events[i].topic, b.events[i].payload, Pending, 0, 0, 0, now, 0))
  {
    Inserted(db.outbox, b.events, k.service, k.op, now);
    hide InsertAll, IsEventId, Insertable;
  }

  /** A relay of the service may claim a row that waits and is due, or whose claim has run out; a published one never.
      */
  lemma EligibleIff(row: OutboxRow, service: Service, now: Time)
    ensures Eligible(row, service, now) <==>
              row.service == service && match row.status
                                        case Claimed => row.leaseUntil <= now
                                        case Published => false
                                        case _ => row.nextAttemptAt <= now
  {
  }

  /** A claim, a publication and a failure each write one row, the last two only under the current token. */
  lemma RelayDoes(db: Database, e: EventId, token: Token, now: Time, next: Time, until: Time)
    requires e in db.outbox
    ensures var r := db.outbox[e];
            var held := r.status == Claimed && r.claim == token;
            && Grant(r, token, until)
               == OutboxRow(r.service, r.op, r.topic, r.payload, Claimed, r.attempt + 1, token, until, r.nextAttemptAt,
                            r.publishedAt)
            && MarkPublished(db, e, token, now)
               == (if held
                   then (db.(outbox := db.outbox[e := OutboxRow(r.service, r.op, r.topic, r.payload, Published,
                                                            r.attempt,
                                                                0, 0, r.nextAttemptAt, now)]), true)
                   else (db, false))
            && MarkFailure(db, e, token, next)
               == (if held
                   then (db.(outbox := db.outbox[e := OutboxRow(r.service, r.op, r.topic, r.payload, Retryable,
                                                            r.attempt,
                                                                0, 0, next, r.publishedAt)]), true)
                   else (db, false))
  {
  }

  /** Without its row an outcome is lost. */
  lemma NoRowNoOutcome(db: Database, e: EventId, token: Token, now: Time, next: Time)
    requires e !in db.outbox
    ensures MarkPublished(db, e, token, now) == (db, false) == MarkFailure(db, e, token, next)
  {
  }

  /** Cleanup removes picked inbox rows completed, and picked published outbox rows published, before the cutoff. */
  lemma CleanupDoes(db: Database, keys: set<InboxKey>, events: set<EventId>, cutoff: Time)
    ensures var after := CleanOutbox(CleanInbox(db, keys, cutoff), events, cutoff);
            && (forall k :: k in after.inbox <==> k in db.inbox && (k in keys ==> cutoff <= db.inbox[k].completedAt))
            && (forall k | k in after.inbox :: after.inbox[k] == db.inbox[k])
            && (forall e :: e in after.outbox <==>
                  e in db.outbox && (e in events && db.outbox[e].status == Published ==>
                                       cutoff <= db.outbox[e].publishedAt))
            && (forall e | e in after.outbox :: after.outbox[e] == db.outbox[e])
  {
  }
}
