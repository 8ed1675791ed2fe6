/** Runs of durable push: enqueuers, claiming workers, recalls and the garbage collector in any order. */
module PushRuns {
  import opened Common
  import opened PushStore

  /** A result event of a call job. */
  datatype Telling = Telling(accepted: bool, at: Time)

  /** `calls` is what each call operation asks, as Kafka has it; `inbox` the operations the inbox remembers and when
      they completed; `recalled` the messages whose recall job has been created; `collected` the jobs that lost a row
      to garbage collection; `told` the result events written for each call job; `nextClaim` the next unused fencing
      token. */
  datatype World = World(store: Store, clock: Time, nextClaim: ClaimToken, calls: map<OpKey, VoipCall>,
                         inbox: map<OpKey, Time>, recalled: set<MessageId>, collected: set<JobId>,
                         told: map<JobId, seq<Telling>>)

  const START := World(EMPTY, 0, 1, map[], map[], {}, {}, map[])

  /** The attempts of a delivery, how long a call rings, and how long inbox and outbox rows and completed jobs are
      kept. */
  datatype Settings = Settings(max: nat, ring: Time, keep: Time, keepJobs: Time)

  datatype Action =
    | PostMessage(id: MessageId, posted: Message, now: Time)
    | RecallMessage(operator: UserId, id: MessageId, now: Time)
    | ChangeDevices(tokens: map<TokenId, DeviceToken>, muted: set<(UserId, UserId)>, now: Time)
    | PublishCall(op: OpKey, call: VoipCall, now: Time)
    | PushMessage(op: OpKey, push: MessageRequest, now: Time)
    | PushRecall(op: OpKey, recall: RecallRequest, now: Time)
    | PushCall(op: OpKey, now: Time)
    | ClaimBatch(q: Queue, picked: set<DeliveryKey>, now: Time, lease: Time)
    | Report(update: Update, now: Time)
    | CollectDeliveries(picked: set<DeliveryKey>, now: Time)
    | CollectDoneJobs(jobs: set<JobId>, now: Time)
    | ForgetInbox(ops: set<OpKey>, now: Time)
    | ForgetResults(jobs: set<JobId>, now: Time)

  /** What the surroundings guarantee: time does not run backwards, messages are posted once and unrecalled, a call
      request is published while its call rings, always asks the same and may come again at any time, and a worker
      never reports a row as pending or claimed. */
  predicate Permitted(cfg: Settings, w: World, a: Action) {
    && w.clock <= a.now
    && match a
       case PostMessage(id, m, _) => id !in w.store.messages && m.recall.None?
       case PublishCall(op, c, now) => op !in w.calls && (c.expiresAt.Some? ==> c.expiresAt.value <= now + cfg.ring)
       case PushCall(op, _) => op in w.calls
       case Report(u, _) => u.status !in {Pending, Claimed}
       case _ => true
  }

  /** EnqueueRequest: an operation the inbox remembers is answered from it; a failed one leaves nothing behind. */
  function Enqueue(w: World, op: OpKey, after: Store, reply: Reply, now: Time): World {
    if op in w.inbox then w
    else if reply in {Invalid, Conflict} then w
    else w.(store := after, inbox := w.inbox[op := now])
  }

  /** What an action does to the tables. */
  ghost function Move(cfg: Settings, w: World, a: Action): World {
    match a
    case PostMessage(id, m, _) => w.(store := w.store.(messages := w.store.messages[id := m]))
    case RecallMessage(operator, id, now) => w.(store := MarkRecalled(w.store, operator, id, now))
    case ChangeDevices(tokens, muted, _) => w.(store := w.store.(tokens := tokens, muted := muted))
    case PublishCall(op, c, _) => w.(calls := w.calls[op := c])
    case PushMessage(op, r, now) =>
      var (after, reply) := EnqueueMessage(w.store, op, r, now);
      Enqueue(w, op, after, reply, now)
    case PushRecall(op, r, now) =>
      var (after, reply) := EnqueueRecall(w.store, op, r, now);
      var w' := Enqueue(w, op, after, reply, now);
      if op !in w.inbox && reply == Enqueued then w'.(recalled := w.recalled + {r.message}) else w'
    case PushCall(op, now) =>
      if op !in w.calls then w
      else
        var (after, reply) := EnqueueVoip(w.store, op, w.calls[op], now);
        Enqueue(w, op, after, reply, now)
    case ClaimBatch(q, picked, now, lease) =>
      w.(store := Claim(w.store, q, picked, w.nextClaim, now, lease, cfg.max), nextClaim := w.nextClaim + 1)
    case Report(u, now) => w.(store := Finalize(w.store, u, now).0)
    case CollectDeliveries(picked, now) =>
      w.(store := CollectRows(w.store, picked, now - cfg.keepJobs),
         collected := w.collected + Lost(w.store, picked, now - cfg.keepJobs))
    case CollectDoneJobs(js, now) => w.(store := CollectJobs(w.store, js, now - cfg.keepJobs))
    case ForgetInbox(ops, now) =>
      w.(inbox := map op | op in w.inbox && !(op in ops && w.inbox[op] < now - cfg.keep) :: w.inbox[op])
    case ForgetResults(js, now) =>
      w.(store := w.store.(results := map j | j in w.store.results && !(j in js && ToldBefore(w, j, now - cfg.keep))
                                        :: w.store.results[j]))
  }

  function Tellings(w: World, j: JobId): seq<Telling> {
    if j in w.told then w.told[j] else []
  }

  predicate ToldBefore(w: World, j: JobId, cutoff: Time) {
    Tellings(w, j) != [] && Tellings(w, j)[|Tellings(w, j)| - 1].at < cutoff
  }

  predicate IsNew(w: World, w2: World, j: JobId) {
    j in w2.store.results && j !in w.store.results
  }

  /** Result rows that were not there before are new events. */
  function Tell(w: World, w2: World, now: Time): World {
    w2.(told := map j | j in w.told.Keys + w2.store.results.Keys ::
          if IsNew(w, w2, j) then Tellings(w, j) + [Telling(w2.store.results[j], now)] else Tellings(w, j))
  }

  ghost function Step(cfg: Settings, w: World, a: Action): World {
    Tell(w, Move(cfg, w, a), a.now).(clock := a.now)
  }

  function Lost(s: Store, picked: set<DeliveryKey>, cutoff: Time): set<JobId> {
    set k | k in s.deliveries && k in picked && Collectable(s, s.deliveries[k].job, cutoff) :: s.deliveries[k].job
  }

  ghost function Run(cfg: Settings, w: World, acts: seq<Action>): World
    decreases |acts|
  {
    if acts == [] then w else Run(cfg, Step(cfg, w, acts[0]), acts[1..])
  }

  ghost predicate PermittedRun(cfg: Settings, w: World, acts: seq<Action>)
    decreases |acts|
  {
    acts != [] ==> Permitted(cfg, w, acts[0]) && PermittedRun(cfg, Step(cfg, w, acts[0]), acts[1..])
  }

  // ---- the invariant ----

  predicate Fits(kind: Kind, k: DeliveryKey) {
    match kind
    case MessageKind(m) => m > 0 && OrdinaryRow(k, m)
    case RecallKind(m) => m > 0 && OrdinaryRow(k, -m)
    case VoipKind(c) => k.VoipRow? && k.callId == c.callId
  }

  /** Every delivery refers to a job that exists and is of its kind. */
  predicate Linked(s: Store) {
    forall k | k in s.deliveries ::
      && s.deliveries[k].job in s.jobs
      && Fits(s.jobs[s.deliveries[k].job].kind, k)
  }

  predicate Named(j: JobId, job: Job) {
    match j
    case OpJob(op) => job.op == op && !job.kind.RecallKind?
    case RecallJob(m) => job.kind == RecallKind(m)
    case NoJob => false
  }

  predicate JobsNamed(w: World) {
    && (forall j | j in w.store.jobs :: Named(j, w.store.jobs[j]))
    && (forall j | j in w.store.results :: j.OpJob?)
  }

  /** A job is pending exactly while a delivery of it is outstanding. */
  ghost predicate PendingIffOutstanding(s: Store) {
    forall j | j in s.jobs :: s.jobs[j].status == JobPending <==> HasOutstanding(s.deliveries, j)
  }

  predicate RowCounted(d: Delivery, max: nat, next: ClaimToken) {
    && d.attempt <= max && d.claim < next
    && (d.status == Pending ==> d.attempt == 0)
    && (d.status == Claimed ==> d.attempt > 0 && d.claim > 0)
    && (d.status != Claimed ==> d.claim == 0)
  }

  predicate Counted(max: nat, w: World) {
    w.nextClaim > 0 && forall k | k in w.store.deliveries :: RowCounted(w.store.deliveries[k], max, w.nextClaim)
  }

  /** A message whose recall job was created stays recalled, and none of its ordinary deliveries is outstanding. */
  predicate RecallHolds(w: World) {
    && (forall m | m in w.recalled :: m > 0 && m in w.store.messages && w.store.messages[m].recall.Some?)
    && (forall k | k in w.store.deliveries && k.MessageRow? && k.message in w.recalled ::
          !Outstanding(w.store.deliveries[k].status))
  }

  predicate ToldLast(w: World, j: JobId, accepted: bool) {
    Tellings(w, j) != [] && Tellings(w, j)[|Tellings(w, j)| - 1].accepted == accepted
  }

  /** Result rows are the last events told of their jobs. */
  predicate RowsTold(w: World) {
    && (forall j | j in w.told :: w.told[j] != [])
    && (forall j | j in w.store.results :: ToldLast(w, j, w.store.results[j]))
  }

  /** A call job is completed exactly when its result was told, so that none is created anew after that; until
      collection starts the result says whether some delivery was sent. */
  ghost predicate ResultsTrue(w: World) {
    forall j | j in w.store.jobs && w.store.jobs[j].kind.VoipKind? ::
      && (w.store.jobs[j].status == JobCompleted <==> j in w.told)
      && (j in w.told && j !in w.collected ==> ToldLast(w, j, HasSent(w.store.deliveries, j)))
  }

  /** A call has stopped ringing before the inbox forgets its request. */
  predicate RingsBriefly(cfg: Settings) {
    cfg.ring <= cfg.keep
  }

  ghost predicate Core(cfg: Settings, w: World) {
    && Linked(w.store) && JobsNamed(w) && PendingIffOutstanding(w.store)
    && Counted(cfg.max, w) && RecallHolds(w) && RowsTold(w) && (RingsBriefly(cfg) ==> ResultsTrue(w))
  }

  /** The inbox remembers a call operation until its call has expired. */
  predicate Timely(cfg: Settings, w: World, op: OpKey) {
    op in w.calls && VoipRequestValid(w.calls[op])
    && (w.calls[op].expiresAt.Some? ==>
          w.calls[op].expiresAt.value <= if op in w.inbox then w.inbox[op] + cfg.ring else w.clock)
  }

  predicate CallJob(cfg: Settings, w: World, j: JobId) {
    j.OpJob? && Timely(cfg, w, j.op)
  }

  predicate Lapsed(cfg: Settings, w: World) {
    && (forall op | op in w.calls && w.calls[op].expiresAt.Some? :: w.calls[op].expiresAt.value <= w.clock + cfg.ring)
    && (forall j | j in w.told :: CallJob(cfg, w, j))
    && (forall j | j in w.store.jobs && w.store.jobs[j].kind.VoipKind? :: CallJob(cfg, w, j))
  }

  ghost predicate Inv(cfg: Settings, w: World) {
    Core(cfg, w) && (RingsBriefly(cfg) ==> Lapsed(cfg, w))
  }

  // ---- framing: rows of a job that a step leaves alone ----

  predicate SameClass(a: Status, b: Status) {
    (Outstanding(a) <==> Outstanding(b)) && (a == Sent <==> b == Sent)
  }

  /** Job i owns the same rows in both tables, each still outstanding, sent or neither as before. */
  predicate AgreeOn(ds: map<DeliveryKey, Delivery>, ds2: map<DeliveryKey, Delivery>, i: JobId) {
    && (forall k | k in ds && ds[k].job == i :: k in ds2 && ds2[k].job == i && SameClass(ds[k].status, ds2[k].status))
    && (forall k | k in ds2 && ds2[k].job == i :: k in ds && ds[k].job == i)
  }

  lemma Agreeing(ds: map<DeliveryKey, Delivery>, ds2: map<DeliveryKey, Delivery>, i: JobId)
    requires AgreeOn(ds, ds2, i)
    ensures HasOutstanding(ds, i) <==> HasOutstanding(ds2, i)
    ensures HasSent(ds, i) <==> HasSent(ds2, i)
  {
  }

  // ---- enqueueing ----

  predicate AddsJob(w: World, w2: World, j: JobId, op: OpKey, kind: Kind, rows: set<DeliveryKey>) {
    && j !in w.store.jobs && rows !! w.store.deliveries.Keys
    && Named(j, Job(op, kind, JobPending, 0)) && (forall k | k in rows :: Fits(kind, k))
    && (forall k | k in rows && k.MessageRow? :: k.message !in w.recalled)
    && j in w2.store.jobs && w2.store.jobs == w.store.jobs[j := w2.store.jobs[j]]
    && w2.store.jobs[j].op == op && w2.store.jobs[j].kind == kind
    && (w2.store.jobs[j].status == JobCompleted <==> rows == {})
    && w2.store.deliveries == w.store.deliveries + (map k | k in rows :: Fresh(j))
    && w2.store.messages == w.store.messages && w2.recalled == w.recalled && w2.collected == w.collected
    && w2.nextClaim == w.nextClaim
    && if kind.VoipKind? && rows == {}
       then j !in w.store.results && w2.store.results == w.store.results[j := false]
            && ToldLast(w2, j, false) && w2.told == w.told[j := Tellings(w2, j)]
       else w2.store.results == w.store.results && w2.told == w.told
  }

  lemma AddsJobLinks(cfg: Settings, w: World, w2: World, j: JobId, op: OpKey, kind: Kind, rows: set<DeliveryKey>)
    requires Core(cfg, w) && AddsJob(w, w2, j, op, kind, rows)
    ensures Linked(w2.store) && JobsNamed(w2) && Counted(cfg.max, w2) && RecallHolds(w2) && RowsTold(w2)
  {
  }

  lemma AddsJobCompletes(cfg: Settings, w: World, w2: World, j: JobId, op: OpKey, kind: Kind, rows: set<DeliveryKey>)
    requires Linked(w.store) && JobsNamed(w) && PendingIffOutstanding(w.store)
    requires AddsJob(w, w2, j, op, kind, rows)
    ensures PendingIffOutstanding(w2.store)
    ensures ResultsTrue(w) && (kind.VoipKind? && rows != {} ==> j !in w.told) ==> ResultsTrue(w2)
  {
    forall i | i in w.store.jobs
      ensures HasOutstanding(w2.store.deliveries, i) <==> HasOutstanding(w.store.deliveries, i)
      ensures HasSent(w2.store.deliveries, i) <==> HasSent(w.store.deliveries, i)
    {
      OthersAgree(w, w2, j, op, kind, rows, i);
    }
    assert !HasSent(w2.store.deliveries, j) && (HasOutstanding(w2.store.deliveries, j) <==> rows != {}) by {
      OwnRows(w, w2, j, op, kind, rows);
    }
    hide HasOutstanding, HasSent, Linked, Fits;
  }

  lemma OthersAgree(w: World, w2: World, j: JobId, op: OpKey, kind: Kind, rows: set<DeliveryKey>, i: JobId)
    requires AddsJob(w, w2, j, op, kind, rows) && i in w.store.jobs
    ensures HasOutstanding(w2.store.deliveries, i) <==> HasOutstanding(w.store.deliveries, i)
    ensures HasSent(w2.store.deliveries, i) <==> HasSent(w.store.deliveries, i)
  {
    assert AgreeOn(w.store.deliveries, w2.store.deliveries, i);
    Agreeing(w.store.deliveries, w2.store.deliveries, i);
  }

  lemma OwnRows(w: World, w2: World, j: JobId, op: OpKey, kind: Kind, rows: set<DeliveryKey>)
    requires Linked(w.store) && AddsJob(w, w2, j, op, kind, rows)
    ensures !HasSent(w2.store.deliveries, j) && (HasOutstanding(w2.store.deliveries, j) <==> rows != {})
  {
    if k :| k in rows {
      assert w2.store.deliveries[k] == Fresh(j) && Owes(w2.store.deliveries[k], j);
    }
  }

  lemma PushMessageKeeps(cfg: Settings, w: World, op: OpKey, r: MessageRequest, now: Time)
    requires Core(cfg, w) && EnqueueMessage(w.store, op, r, now).1 == Enqueued
    ensures Core(cfg, w.(store := EnqueueMessage(w.store, op, r, now).0))
  {
    var w2 := w.(store := EnqueueMessage(w.store, op, r, now).0);
    var j, kind, rows := OpJob(op), MessageKind(r.message), MessageRows(w.store, r);
    assert AddsJob(w, w2, j, op, kind, rows);
    AddsJobLinks(cfg, w, w2, j, op, kind, rows);
    AddsJobCompletes(cfg, w, w2, j, op, kind, rows);
  }

  lemma TellNone(w: World, w2: World, now: Time)
    requires RowsTold(w) && w2.told == w.told && w2.store.results.Keys <= w.store.results.Keys
    ensures Tell(w, w2, now) == w2
  {
    assert w.told.Keys + w2.store.results.Keys == w.told.Keys;
    assert Tell(w, w2, now).told == w.told;
  }

  lemma TellOne(w: World, w2: World, j: JobId, now: Time)
    requires RowsTold(w) && w2.told == w.told && j !in w.store.results && j in w2.store.results
    requires w2.store.results == w.store.results[j := w2.store.results[j]]
    ensures Tell(w, w2, now).told == w.told[j := Tellings(w, j) + [Telling(w2.store.results[j], now)]]
  {
    assert w.told.Keys + w2.store.results.Keys == w.told.Keys + {j};
  }

  /** What is told depends on the result rows only. */
  lemma TellSame(w: World, v: World, w2: World, v2: World, now: Time)
    requires v.told == w.told && v.store.results == w.store.results && v2.store.results == w2.store.results
    ensures Tell(v, v2, now).told == Tell(w, w2, now).told
  {
    var a, b := Tell(v, v2, now).told, Tell(w, w2, now).told;
    assert a.Keys == b.Keys;
    forall j | j in a ensures a[j] == b[j] {
      assert Tellings(w, j) == Tellings(v, j) && (IsNew(w, w2, j) <==> IsNew(v, v2, j));
    }
  }

  lemma TellStore(w: World, w2: World, now: Time)
    ensures Tell(w, w2, now) == w2.(told := Tell(w, w2, now).told)
  {
  }

  /** The deliveries a call request gets. */
  function CallRows(s: Store, c: VoipCall, now: Time): set<DeliveryKey> {
    if c.expiresAt.None? || c.expiresAt.value <= now then {} else VoipRows(s, c)
  }

  lemma PushCallKeeps(cfg: Settings, w: World, op: OpKey, c: VoipCall, now: Time)
    requires Core(cfg, w) && EnqueueVoip(w.store, op, c, now).1 == Enqueued
    requires RingsBriefly(cfg) && CallRows(w.store, c, now) != {} ==> OpJob(op) !in w.told
    ensures Core(cfg, Tell(w, w.(store := EnqueueVoip(w.store, op, c, now).0), now))
  {
    var w1 := w.(store := EnqueueVoip(w.store, op, c, now).0);
    var w2, rows := Tell(w, w1, now), CallRows(w.store, c, now);
    if rows == {} {
      TellOne(w, w1, OpJob(op), now);
    } else {
      TellNone(w, w1, now);
    }
    assert AddsJob(w, w2, OpJob(op), op, VoipKind(c), rows);
    AddsJobLinks(cfg, w, w2, OpJob(op), op, VoipKind(c), rows);
    AddsJobCompletes(cfg, w, w2, OpJob(op), op, VoipKind(c), rows);
  }

  // ---- recall ----

  /** Superseding touches exactly the jobs of the message, and leaves none of them an outstanding row. */
  lemma SupersedeJobs(s: Store, m: MessageId, now: Time, j: JobId)
    requires Linked(s) && m > 0 && j in s.jobs
    ensures var s2 := Supersede(s, m, now);
            if JobOfMessage(s, j, m) then !HasOutstanding(s2.deliveries, j)
            else (HasOutstanding(s2.deliveries, j) <==> HasOutstanding(s.deliveries, j))
    ensures !s.jobs[j].kind.MessageKind? ==>
              (HasSent(Supersede(s, m, now).deliveries, j) <==> HasSent(s.deliveries, j))
  {
    var ds2 := Supersede(s, m, now).deliveries;
    if JobOfMessage(s, j, m) {
      forall k | k in ds2 ensures !Owes(ds2[k], j) {
        assert s.deliveries[k].job == j ==> Fits(s.jobs[j].kind, k);
      }
    } else {
      forall k | k in s.deliveries && s.deliveries[k].job == j ensures ds2[k] == s.deliveries[k] {
        assert Fits(s.jobs[j].kind, k);
      }
      assert AgreeOn(s.deliveries, ds2, j);
      Agreeing(s.deliveries, ds2, j);
    }
  }

  lemma SupersedeLinks(cfg: Settings, w: World, m: MessageId, now: Time)
    requires Linked(w.store) && JobsNamed(w) && Counted(cfg.max, w)
    ensures var w2 := w.(store := Supersede(w.store, m, now), recalled := w.recalled + {m});
            Linked(w2.store) && JobsNamed(w2) && Counted(cfg.max, w2)
  {
  }

  lemma SupersedeRecalls(w: World, m: MessageId, now: Time)
    requires RecallHolds(w) && m > 0 && m in w.store.messages && w.store.messages[m].recall.Some?
    ensures RecallHolds(w.(store := Supersede(w.store, m, now), recalled := w.recalled + {m}))
  {
  }

  lemma SupersedeKeeps(cfg: Settings, w: World, m: MessageId, now: Time)
    requires Core(cfg, w) && m > 0 && m in w.store.messages && w.store.messages[m].recall.Some?
    ensures Core(cfg, w.(store := Supersede(w.store, m, now), recalled := w.recalled + {m}))
  {
    var w2 := w.(store := Supersede(w.store, m, now), recalled := w.recalled + {m});
    SupersedeLinks(cfg, w, m, now);
    SupersedeRecalls(w, m, now);
    SupersedeResults(w, w2, m, now);
    hide Linked, JobsNamed, Counted, RecallHolds, PendingIffOutstanding, ResultsTrue;
  }

  lemma SupersedeResults(w: World, w2: World, m: MessageId, now: Time)
    requires Linked(w.store) && PendingIffOutstanding(w.store) && m > 0
    requires w2 == w.(store := Supersede(w.store, m, now), recalled := w.recalled + {m})
    ensures PendingIffOutstanding(w2.store) && (ResultsTrue(w) ==> ResultsTrue(w2))
  {
    hide HasOutstanding, HasSent;
    forall j | j in w.store.jobs
      ensures w2.store.jobs[j].status == JobPending <==> HasOutstanding(w2.store.deliveries, j)
      ensures w.store.jobs[j].kind.VoipKind? ==>
                (HasSent(w2.store.deliveries, j) <==> HasSent(w.store.deliveries, j))
                  && w2.store.jobs[j] == w.store.jobs[j]
    {
      SupersedeJobs(w.store, m, now, j);
    }
  }

  /** The rows filed under a negated message id belong to that message's recall job. */
  lemma RecallRowOwner(w: World, k: DeliveryKey)
    requires Linked(w.store) && JobsNamed(w) && k in w.store.deliveries && k.MessageRow? && k.message < 0
    ensures w.store.deliveries[k].job == RecallJob(-k.message) && RecallJob(-k.message) in w.store.jobs
  {
  }

  lemma RecallRowsAreNew(w: World, r: RecallRequest)
    requires Linked(w.store) && JobsNamed(w) && r.message > 0 && RecallJob(r.message) !in w.store.jobs
    ensures RecallRows(w.store, r) !! w.store.deliveries.Keys
  {
    if k :| k in RecallRows(w.store, r) && k in w.store.deliveries {
      RecallRowOwner(w, k);
      assert false;
    }
  }

  lemma RecallAddsJob(w: World, w1: World, w2: World, op: OpKey, r: RecallRequest, now: Time)
    requires Linked(w.store) && JobsNamed(w) && RecallHolds(w)
    requires EnqueueRecall(w.store, op, r, now).1 == Enqueued
    requires w1 == w.(store := Supersede(w.store, r.message, now), recalled := w.recalled + {r.message})
    requires w2 == w.(store := EnqueueRecall(w.store, op, r, now).0, recalled := w.recalled + {r.message})
    ensures AddsJob(w1, w2, RecallJob(r.message), op, RecallKind(r.message), RecallRows(w.store, r))
  {
    RecallRowsAreNew(w, r);
    hide Linked, JobsNamed;
  }

  lemma PushRecallKeeps(cfg: Settings, w: World, op: OpKey, r: RecallRequest, now: Time)
    requires Core(cfg, w) && EnqueueRecall(w.store, op, r, now).1 == Enqueued
    ensures Core(cfg, w.(store := EnqueueRecall(w.store, op, r, now).0, recalled := w.recalled + {r.message}))
  {
    var m := r.message;
    var w1 := w.(store := Supersede(w.store, m, now), recalled := w.recalled + {m});
    var w2 := w.(store := EnqueueRecall(w.store, op, r, now).0, recalled := w.recalled + {m});
    var rows := RecallRows(w.store, r);
    RecallAddsJob(w, w1, w2, op, r, now);
    SupersedeKeeps(cfg, w, m, now);
    hide AddsJob, Linked, JobsNamed, PendingIffOutstanding, Counted, RecallHolds, RowsTold, ResultsTrue, RecallRows,
         Supersede;
    AddsJobLinks(cfg, w1, w2, RecallJob(m), op, RecallKind(m), rows);
    AddsJobCompletes(cfg, w1, w2, RecallJob(m), op, RecallKind(m), rows);
  }

  // ---- completing jobs whose last outstanding row went ----

  /** The same rows for the same jobs; a row leaves its class only from outstanding, and then its job is in js. */
  predicate Progressed(ds: map<DeliveryKey, Delivery>, ds2: map<DeliveryKey, Delivery>, js: set<JobId>) {
    && ds2.Keys == ds.Keys
    && forall k | k in ds ::
         && ds2[k].job == ds[k].job
         && (SameClass(ds[k].status, ds2[k].status) || (Outstanding(ds[k].status) && ds[k].job in js))
  }

  lemma CompleteAllPending(w: World, ds2: map<DeliveryKey, Delivery>, js: set<JobId>, now: Time)
    requires PendingIffOutstanding(w.store) && Progressed(w.store.deliveries, ds2, js)
    ensures PendingIffOutstanding(CompleteAll(w.store.(deliveries := ds2), js, now))
  {
  }

  lemma CompleteAllResults(w: World, ds2: map<DeliveryKey, Delivery>, js: set<JobId>, now: Time)
    requires PendingIffOutstanding(w.store) && RowsTold(w) && JobsNamed(w)
    requires Progressed(w.store.deliveries, ds2, js) && js <= w.store.jobs.Keys
    ensures var w2 := Tell(w, w.(store := CompleteAll(w.store.(deliveries := ds2), js, now)), now);
            RowsTold(w2) && JobsNamed(w2) && (ResultsTrue(w) ==> ResultsTrue(w2))
  {
    hide Tell, ToldLast, HasOutstanding, HasSent, Progressed, PendingIffOutstanding, RowsTold;
    var w1 := w.(store := CompleteAll(w.store.(deliveries := ds2), js, now));
    var w2 := Tell(w, w1, now);
    TellStore(w, w1, now);
    CompleteAllRows(w, ds2, js, now);
    if ResultsTrue(w) {
      forall j | j in w.store.jobs && w.store.jobs[j].kind.VoipKind?
        ensures (w1.store.jobs[j].status == JobCompleted <==> j in w2.told)
        ensures j in w2.told && j !in w.collected ==> ToldLast(w2, j, HasSent(ds2, j))
      {
        CompleteOneResult(w, ds2, js, now, j);
      }
      hide JobsNamed;
    }
  }

  lemma TellAt(w: World, w1: World, j: JobId, now: Time)
    requires w1.told == w.told && RowsTold(w)
    ensures var w2 := Tell(w, w1, now);
            && (j in w2.told <==> j in w.told || IsNew(w, w1, j))
            && Tellings(w2, j) == if IsNew(w, w1, j) then Tellings(w, j) + [Telling(w1.store.results[j], now)]
                                  else Tellings(w, j)
  {
  }

  lemma CompletedJob(s: Store, js: set<JobId>, now: Time, j: JobId)
    requires j in s.jobs && s.jobs[j].kind.VoipKind?
    ensures var s2 := CompleteAll(s, js, now);
            && j in s2.jobs
            && (s2.jobs[j].status == JobCompleted <==> s.jobs[j].status == JobCompleted || Finishing(s, js, j))
            && (j in s2.results <==> j in s.results || Finishing(s, js, j))
            && (j in s2.results && j !in s.results ==> s2.results[j] == HasSent(s.deliveries, j))
  {
    hide HasOutstanding, HasSent;
  }

  lemma CompleteOneResult(w: World, ds2: map<DeliveryKey, Delivery>, js: set<JobId>, now: Time, j: JobId)
    requires PendingIffOutstanding(w.store) && RowsTold(w) && ResultsTrue(w)
    requires Progressed(w.store.deliveries, ds2, js) && j in w.store.jobs && w.store.jobs[j].kind.VoipKind?
    ensures var w1 := w.(store := CompleteAll(w.store.(deliveries := ds2), js, now));
            var w2 := Tell(w, w1, now);
            && j in w1.store.jobs
            && (w1.store.jobs[j].status == JobCompleted <==> j in w2.told)
            && (j in w2.told && j !in w.collected ==> ToldLast(w2, j, HasSent(ds2, j)))
  {
    hide Owes, HasOutstanding, HasSent, Progressed, Tell, CompleteAll;
    if w.store.jobs[j].status == JobCompleted {
      assert !HasOutstanding(w.store.deliveries, j);
      SameSent(w.store.deliveries, ds2, js, j);
    } else {
      assert HasOutstanding(w.store.deliveries, j);
      StillPending(w.store.deliveries, ds2, js, j);
    }
    CompletedJob(w.store.(deliveries := ds2), js, now, j);
    TellAt(w, w.(store := CompleteAll(w.store.(deliveries := ds2), js, now)), j, now);
  }

  /** A job whose outstanding rows all went is among the touched ones. */
  lemma StillPending(ds: map<DeliveryKey, Delivery>, ds2: map<DeliveryKey, Delivery>, js: set<JobId>, j: JobId)
    requires Progressed(ds, ds2, js) && HasOutstanding(ds, j)
    ensures HasOutstanding(ds2, j) || j in js
  {
    var k :| k in ds && Owes(ds[k], j);
    if j !in js {
      assert Owes(ds2[k], j);
    }
  }

  lemma SameSent(ds: map<DeliveryKey, Delivery>, ds2: map<DeliveryKey, Delivery>, js: set<JobId>, j: JobId)
    requires Progressed(ds, ds2, js) && !HasOutstanding(ds, j)
    ensures HasSent(ds, j) <==> HasSent(ds2, j)
  {
    assert forall k | k in ds && ds[k].job == j :: !Owes(ds[k], j);
  }

  lemma CompleteAllRows(w: World, ds2: map<DeliveryKey, Delivery>, js: set<JobId>, now: Time)
    requires RowsTold(w) && JobsNamed(w)
    ensures var w2 := Tell(w, w.(store := CompleteAll(w.store.(deliveries := ds2), js, now)), now);
            RowsTold(w2)
  {
    hide HasOutstanding, HasSent;
    var w1 := w.(store := CompleteAll(w.store.(deliveries := ds2), js, now));
    forall j ensures j in w1.store.results ==> ToldLast(Tell(w, w1, now), j, w1.store.results[j]) {
      TellAt(w, w1, j, now);
    }
  }

  /** Rows keep their jobs, stay counted, and never become outstanding again. */
  predicate Tightened(ds: map<DeliveryKey, Delivery>, ds2: map<DeliveryKey, Delivery>, max: nat, next: ClaimToken) {
    && ds2.Keys == ds.Keys
    && forall k | k in ds ::
         && ds2[k].job == ds[k].job
         && RowCounted(ds2[k], max, next)
         && (Outstanding(ds2[k].status) ==> Outstanding(ds[k].status))
  }

  /** The parts of the invariant that do not mention job status survive tightening. */
  lemma TightenedKeeps(cfg: Settings, w: World, w2: World)
    requires Linked(w.store) && RecallHolds(w) && w2.nextClaim > 0
    requires w2.store.messages == w.store.messages && w2.recalled == w.recalled
    requires w2.store.jobs.Keys == w.store.jobs.Keys
    requires forall j | j in w2.store.jobs :: w2.store.jobs[j].kind == w.store.jobs[j].kind
    requires Tightened(w.store.deliveries, w2.store.deliveries, cfg.max, w2.nextClaim)
    ensures Linked(w2.store) && Counted(cfg.max, w2) && RecallHolds(w2)
  {
  }

  /** Rows progress and the touched jobs are completed where terminal: the whole invariant survives. */
  lemma ProgressKeeps(cfg: Settings, w: World, ds2: map<DeliveryKey, Delivery>, js: set<JobId>, now: Time)
    requires Core(cfg, w) && js <= w.store.jobs.Keys
    requires Progressed(w.store.deliveries, ds2, js)
    requires Tightened(w.store.deliveries, ds2, cfg.max, w.nextClaim)
    ensures Core(cfg, Tell(w, w.(store := CompleteAll(w.store.(deliveries := ds2), js, now)), now))
  {
    var w2 := Tell(w, w.(store := CompleteAll(w.store.(deliveries := ds2), js, now)), now);
    CompleteAllPending(w, ds2, js, now);
    CompleteAllResults(w, ds2, js, now);
    TightenedKeeps(cfg, w, w2);
  }

  // ---- claiming ----

  lemma ExpireRowsProgress(w: World, q: Queue, now: Time, max: nat)
    requires Linked(w.store) && JobsNamed(w) && Counted(max, w)
    ensures JobsFound(w.store, q, now, max)
    ensures var ds, ds2 := w.store.deliveries, ExpireRows(w.store.deliveries, q, now, max);
            && Progressed(ds, ds2, ExhaustedJobs(ds, q, now, max)) && Tightened(ds, ds2, max, w.nextClaim)
    ensures ExhaustedJobs(w.store.deliveries, q, now, max) <= w.store.jobs.Keys
  {
  }

  lemma JobsAreFound(cfg: Settings, w: World, q: Queue, now: Time)
    requires Core(cfg, w)
    ensures JobsFound(w.store, q, now, cfg.max)
  {
    ExpireRowsProgress(w, q, now, cfg.max);
  }

  lemma ExpireKeeps(cfg: Settings, w: World, q: Queue, now: Time)
    requires Core(cfg, w)
    ensures Core(cfg, Tell(w, w.(store := ExpireExhausted(w.store, q, now, cfg.max)), now))
  {
    ExpireRowsProgress(w, q, now, cfg.max);
    ProgressKeeps(cfg, w, ExpireRows(w.store.deliveries, q, now, cfg.max),
                  ExhaustedJobs(w.store.deliveries, q, now, cfg.max),
                  now);
  }

  lemma TakeRowsProgress(w: World, q: Queue, picked: set<DeliveryKey>, now: Time, leaseUntil: Time, max: nat)
    ensures var ds2 := TakeRows(w.store, q, picked, w.nextClaim, now, leaseUntil, max).deliveries;
            Progressed(w.store.deliveries, ds2, {})
  {
  }

  lemma TakeRowsTighten(w: World, q: Queue, picked: set<DeliveryKey>, now: Time, leaseUntil: Time, max: nat)
    requires Counted(max, w)
    ensures var ds2 := TakeRows(w.store, q, picked, w.nextClaim, now, leaseUntil, max).deliveries;
            Tightened(w.store.deliveries, ds2, max, w.nextClaim + 1)
  {
  }

  lemma TakeKeeps(cfg: Settings, w: World, q: Queue, picked: set<DeliveryKey>, now: Time, leaseUntil: Time)
    requires Core(cfg, w)
    ensures Core(cfg, w.(store := TakeRows(w.store, q, picked, w.nextClaim, now, leaseUntil, cfg.max),
                        nextClaim := w.nextClaim + 1))
  {
    var w2 := w.(store := TakeRows(w.store, q, picked, w.nextClaim, now, leaseUntil, cfg.max),
                 nextClaim := w.nextClaim + 1);
    TakeRowsProgress(w, q, picked, now, leaseUntil, cfg.max);
    TakeRowsTighten(w, q, picked, now, leaseUntil, cfg.max);
    ReclassedKeeps(w, w2);
    TightenedKeeps(cfg, w, w2);
  }

  lemma ReclassedKeeps(w: World, w2: World)
    requires PendingIffOutstanding(w.store) && RowsTold(w) && JobsNamed(w)
    requires w2.store.jobs == w.store.jobs && w2.store.results == w.store.results
    requires w2.collected == w.collected && w2.told == w.told
    requires Progressed(w.store.deliveries, w2.store.deliveries, {})
    ensures PendingIffOutstanding(w2.store) && RowsTold(w2) && JobsNamed(w2) && (ResultsTrue(w) ==> ResultsTrue(w2))
  {
  }

  // ---- finalizing ----

  lemma CompleteOneIsAll(s: Store, j: JobId, now: Time)
    requires j in s.jobs
    ensures CompleteIfTerminal(s, j, now) == CompleteAll(s, {j}, now)
  {
    hide HasOutstanding, HasSent;
    var a, b := CompleteIfTerminal(s, j, now), CompleteAll(s, {j}, now);
    assert a.jobs == b.jobs;
    assert a.results == b.results;
  }

  lemma DevicesKeep(cfg: Settings, w: World, tokens: map<TokenId, DeviceToken>, muted: set<(UserId, UserId)>)
    requires Core(cfg, w)
    ensures Core(cfg, w.(store := w.store.(tokens := tokens, muted := muted)))
  {
  }

  lemma SettleProgress(cfg: Settings, w: World, u: Update)
    requires Counted(cfg.max, w) && Owned(w.store, u) && u.status !in {Pending, Claimed}
    ensures var ds, ds2 := w.store.deliveries, SettleRow(w.store, u).deliveries;
            Progressed(ds, ds2, {u.job}) && Tightened(ds, ds2, cfg.max, w.nextClaim)
  {
  }

  lemma FinalizeKeeps(cfg: Settings, w: World, u: Update, now: Time)
    requires Core(cfg, w) && Owned(w.store, u) && u.status !in {Pending, Claimed}
    ensures Core(cfg, Tell(w, w.(store := CompleteIfTerminal(SettleRow(w.store, u), u.job, now)), now))
  {
    var tokens, ds2 := SettleRow(w.store, u).tokens, SettleRow(w.store, u).deliveries;
    var v := w.(store := w.store.(tokens := tokens, muted := w.store.muted));
    var s2 := CompleteAll(v.store.(deliveries := ds2), {u.job}, now);
    SettleProgress(cfg, w, u);
    DevicesKeep(cfg, w, tokens, w.store.muted);
    assert {u.job} <= w.store.jobs.Keys;
    CompleteOneIsAll(SettleRow(w.store, u), u.job, now);
    assert v.store.(deliveries := ds2) == SettleRow(w.store, u);
    hide Core, CompleteAll, CompleteIfTerminal, SettleRow, Progressed, Tightened, Tell, Owned;
    ProgressKeeps(cfg, v, ds2, {u.job}, now);
    FinalTold(w, v, s2, now);
  }

  lemma FinalTold(w: World, v: World, s: Store, now: Time)
    requires v == w.(store := v.store) && v.store.results == w.store.results
    ensures Tell(v, v.(store := s), now) == Tell(w, w.(store := s), now)
  {
    TellSame(w, v, w.(store := s), v.(store := s), now);
  }

  // ---- collecting ----

  lemma CollectedRows(w: World, picked: set<DeliveryKey>, cutoff: Time, j: JobId)
    requires PendingIffOutstanding(w.store) && j in w.store.jobs
    ensures var ds, ds2 := w.store.deliveries, CollectRows(w.store, picked, cutoff).deliveries;
            && (HasOutstanding(ds, j) <==> HasOutstanding(ds2, j))
            && (j !in Lost(w.store, picked, cutoff) ==> (HasSent(ds, j) <==> HasSent(ds2, j)))
  {
    var ds, ds2 := w.store.deliveries, CollectRows(w.store, picked, cutoff).deliveries;
    if k :| k in ds && Owes(ds[k], j) {
      assert HasOutstanding(ds, j);
      assert k in ds2 && Owes(ds2[k], j);
    }
    if k :| k in ds2 && Owes(ds2[k], j) {
      assert Owes(ds[k], j);
    }
    if j !in Lost(w.store, picked, cutoff) {
      if k :| k in ds && ds[k].job == j && ds[k].status == Sent {
        assert k in ds2;
      }
      if k :| k in ds2 && ds2[k].job == j && ds2[k].status == Sent {
        assert k in ds;
      }
    }
  }

  lemma CollectLinks(cfg: Settings, w: World, picked: set<DeliveryKey>, cutoff: Time)
    requires Linked(w.store) && JobsNamed(w) && Counted(cfg.max, w) && RecallHolds(w) && RowsTold(w)
    ensures var w2 := w.(store := CollectRows(w.store, picked, cutoff),
                         collected := w.collected + Lost(w.store, picked, cutoff));
            Linked(w2.store) && JobsNamed(w2) && Counted(cfg.max, w2) && RecallHolds(w2) && RowsTold(w2)
  {
  }

  lemma CollectRowsKeeps(cfg: Settings, w: World, picked: set<DeliveryKey>, cutoff: Time)
    requires Core(cfg, w)
    ensures Core(cfg, w.(store := CollectRows(w.store, picked, cutoff),
                         collected := w.collected + Lost(w.store, picked, cutoff)))
  {
    hide Linked, JobsNamed, Counted, RecallHolds, RowsTold, HasOutstanding, HasSent, Lost;
    CollectLinks(cfg, w, picked, cutoff);
    forall j | j in w.store.jobs
      ensures var ds, ds2 := w.store.deliveries, CollectRows(w.store, picked, cutoff).deliveries;
              && (HasOutstanding(ds, j) <==> HasOutstanding(ds2, j))
              && (j !in Lost(w.store, picked, cutoff) ==> (HasSent(ds, j) <==> HasSent(ds2, j)))
    {
      CollectedRows(w, picked, cutoff, j);
    }
  }

  lemma CollectJobsKeeps(cfg: Settings, w: World, js: set<JobId>, cutoff: Time)
    requires Core(cfg, w)
    ensures Core(cfg, w.(store := CollectJobs(w.store, js, cutoff)))
  {
  }

  // ---- every step, every run ----

  lemma MessagesKeep(cfg: Settings, w: World, a: Action)
    requires Core(cfg, w) && Permitted(cfg, w, a) && (a.PostMessage? || a.RecallMessage?)
    ensures Core(cfg, Move(cfg, w, a))
  {
  }

  lemma ClaimKeeps(cfg: Settings, w: World, q: Queue, picked: set<DeliveryKey>, now: Time, lease: Time)
    requires Core(cfg, w)
    ensures Core(cfg, Tell(w, w.(store := Claim(w.store, q, picked, w.nextClaim, now, lease, cfg.max),
                                 nextClaim := w.nextClaim + 1), now))
  {
    hide Core, ExpireExhausted, JobsFound, Claimable, Tell;
    JobsAreFound(cfg, w, q, now);
    var s1 := ExpireExhausted(w.store, q, now, cfg.max);
    var w1 := Tell(w, w.(store := s1), now);
    ExpireKeeps(cfg, w, q, now);
    var s2 := TakeRows(s1, q, picked, w.nextClaim, now, now + lease, cfg.max);
    TakeTold(w, s1, s2, now);
    TakeKeeps(cfg, w1, q, picked, now, now + lease);
  }

  lemma TakeTold(w: World, s1: Store, s2: Store, now: Time)
    requires s2.results == s1.results
    ensures var w1 := Tell(w, w.(store := s1), now);
            && w1 == w.(store := s1, told := w1.told)
            && Tell(w, w.(store := s2, nextClaim := w.nextClaim + 1), now)
               == w1.(store := s2, nextClaim := w.nextClaim + 1)
  {
    TellSame(w, w, w.(store := s1), w.(store := s2, nextClaim := w.nextClaim + 1), now);
  }

  /** With the inbox and the job of a call request gone the call has expired, unless no result was ever told. */
  lemma ForgottenIsExpired(cfg: Settings, w: World, op: OpKey, now: Time)
    requires Lapsed(cfg, w) && w.clock <= now && op in w.calls && op !in w.inbox && OpJob(op) in w.told
    ensures CallRows(w.store, w.calls[op], now) == {}
  {
    assert CallJob(cfg, w, OpJob(op));
  }

  /** Clock, inbox and published calls do not matter here. */
  lemma CoreSame(cfg: Settings, w: World, w2: World)
    requires Core(cfg, w) && w2 == w.(clock := w2.clock, inbox := w2.inbox, calls := w2.calls)
    ensures Core(cfg, w2)
  {
  }

  lemma CoreTold(cfg: Settings, w: World)
    requires Core(cfg, w)
    ensures RowsTold(w)
  {
  }

  lemma EnqueueResults(s: Store, op: OpKey, m: MessageRequest, r: RecallRequest, now: Time)
    ensures EnqueueMessage(s, op, m, now).0.results == s.results && EnqueueRecall(s, op, r, now).0.results == s.results
  {
  }

  lemma MessageKept(cfg: Settings, w: World, a: Action)
    requires Core(cfg, w) && a.PushMessage?
    ensures Core(cfg, Tell(w, Move(cfg, w, a), a.now))
  {
    hide Core, Tell, EnqueueMessage;
    var (s2, reply) := EnqueueMessage(w.store, a.op, a.push, a.now);
    var w1 := if reply == Enqueued && a.op !in w.inbox then w.(store := s2) else w;
    IgnoredStays(w.store, a);
    if reply == Enqueued {
      PushMessageKeeps(cfg, w, a.op, a.push, a.now);
    }
    EnqueueResults(w.store, a.op, a.push, RecallRequest(0, 0, false, 0, 0, {}), a.now);
    CoreTold(cfg, w);
    TellNone(w, Move(cfg, w, a), a.now);
    CoreSame(cfg, w1, Move(cfg, w, a));
  }

  lemma IgnoredStays(s: Store, a: Action)
    ensures a.PushMessage? && EnqueueMessage(s, a.op, a.push, a.now).1 != Enqueued ==>
              EnqueueMessage(s, a.op, a.push, a.now).0 == s
    ensures a.PushRecall? && EnqueueRecall(s, a.op, a.recall, a.now).1 != Enqueued ==>
              EnqueueRecall(s, a.op, a.recall, a.now).0 == s
  {
    hide MessageRequestValid, RecallRequestValid, OpTaken;
  }

  lemma RecallKept(cfg: Settings, w: World, a: Action)
    requires Core(cfg, w) && a.PushRecall?
    ensures Core(cfg, Tell(w, Move(cfg, w, a), a.now))
  {
    hide Core, Tell, EnqueueRecall;
    var (s2, reply) := EnqueueRecall(w.store, a.op, a.recall, a.now);
    var w1 := if reply == Enqueued && a.op !in w.inbox
              then w.(store := s2, recalled := w.recalled + {a.recall.message}) else w;
    IgnoredStays(w.store, a);
    if reply == Enqueued {
      PushRecallKeeps(cfg, w, a.op, a.recall, a.now);
    }
    EnqueueResults(w.store, a.op, MessageRequest(0, 0, 0, false, {}), a.recall, a.now);
    CoreTold(cfg, w);
    TellNone(w, Move(cfg, w, a), a.now);
    CoreSame(cfg, w1, Move(cfg, w, a));
  }

  lemma CallKept(cfg: Settings, w: World, a: Action)
    requires Inv(cfg, w) && Permitted(cfg, w, a) && a.PushCall?
    ensures Core(cfg, Tell(w, Move(cfg, w, a), a.now))
  {
    hide Core, EnqueueVoip, Timely, Tell;
    if Executes(w, a) {
      if RingsBriefly(cfg) && OpJob(a.op) in w.told {
        ForgottenIsExpired(cfg, w, a.op, a.now);
      }
      PushCallKeeps(cfg, w, a.op, w.calls[a.op], a.now);
      InboxGrows(cfg, w, a);
    } else {
      CallUnchanged(cfg, w, a);
    }
  }

  lemma InboxGrows(cfg: Settings, w: World, a: Action)
    requires Executes(w, a)
    requires Core(cfg, Tell(w, w.(store := EnqueueVoip(w.store, a.op, w.calls[a.op], a.now).0), a.now))
    ensures Core(cfg, Tell(w, Move(cfg, w, a), a.now))
  {
    hide EnqueueVoip, Core;
    var w1 := w.(store := EnqueueVoip(w.store, a.op, w.calls[a.op], a.now).0);
    TellSame(w, w, w1, Move(cfg, w, a), a.now);
    CoreSame(cfg, Tell(w, w1, a.now), Tell(w, Move(cfg, w, a), a.now));
  }

  lemma CallUnchanged(cfg: Settings, w: World, a: Action)
    requires Core(cfg, w) && a.PushCall? && !Executes(w, a)
    ensures Core(cfg, Tell(w, Move(cfg, w, a), a.now))
  {
    hide Core, Tell, VoipRequestValid, OpTaken;
    CoreTold(cfg, w);
    TellNone(w, Move(cfg, w, a), a.now);
    CoreSame(cfg, w, Move(cfg, w, a));
  }

  /** The actions that write no result. */
  predicate Quiet(a: Action) {
    || a.PostMessage? || a.RecallMessage? || a.ChangeDevices? || a.PublishCall?
    || a.CollectDeliveries? || a.CollectDoneJobs? || a.ForgetInbox? || a.ForgetResults?
  }

  lemma QuietKeeps(cfg: Settings, w: World, a: Action)
    requires Core(cfg, w) && Permitted(cfg, w, a) && Quiet(a)
    ensures Core(cfg, Move(cfg, w, a))
  {
    hide Core;
    match a {
      case ChangeDevices(tokens, muted, _) => DevicesKeep(cfg, w, tokens, muted);
      case CollectDeliveries(picked, now) => CollectRowsKeeps(cfg, w, picked, now - cfg.keepJobs);
      case CollectDoneJobs(js, now) => CollectJobsKeeps(cfg, w, js, now - cfg.keepJobs);
      case ForgetResults(_, _) => ForgettingKeeps(cfg, w, a);
      case PostMessage(_, _, _) => MessagesKeep(cfg, w, a);
      case RecallMessage(_, _, _) => MessagesKeep(cfg, w, a);
      case _ => CoreSame(cfg, w, Move(cfg, w, a));
    }
  }

  lemma ForgettingKeeps(cfg: Settings, w: World, a: Action)
    requires Core(cfg, w) && a.ForgetResults?
    ensures Core(cfg, Move(cfg, w, a))
  {
  }

  lemma QuietTells(cfg: Settings, w: World, a: Action)
    requires RowsTold(w) && Quiet(a)
    ensures Tell(w, Move(cfg, w, a), a.now) == Move(cfg, w, a)
  {
    hide Tell;
    TellNone(w, Move(cfg, w, a), a.now);
  }

  lemma ReportKept(cfg: Settings, w: World, a: Action)
    requires Core(cfg, w) && a.Report? && Permitted(cfg, w, a)
    ensures Core(cfg, Tell(w, Move(cfg, w, a), a.now))
  {
    if Finalize(w.store, a.update, a.now).1 == Finalized {
      FinalizeKeeps(cfg, w, a.update, a.now);
      hide Core, Tell;
    } else {
      hide Tell;
      TellNone(w, Move(cfg, w, a), a.now);
    }
  }

  lemma MoveKeepsCore(cfg: Settings, w: World, a: Action)
    requires Inv(cfg, w) && Permitted(cfg, w, a)
    ensures Core(cfg, Tell(w, Move(cfg, w, a), a.now))
  {
    hide Linked, JobsNamed, PendingIffOutstanding, Counted, RecallHolds, RowsTold, ResultsTrue, Lapsed, Tell, Permitted;
    if Quiet(a) {
      QuietKeeps(cfg, w, a);
      QuietTells(cfg, w, a);
      hide Move;
    } else {
      match a
      case ClaimBatch(q, picked, now, lease) => ClaimKeeps(cfg, w, q, picked, now, lease);
      case Report(_, _) => ReportKept(cfg, w, a);
      case PushMessage(_, _, _) => MessageKept(cfg, w, a);
      case PushRecall(_, _, _) => RecallKept(cfg, w, a);
      case PushCall(_, _) => CallKept(cfg, w, a);
    }
  }

  /** Where new call jobs and new results come from. */
  lemma NewCallJob(cfg: Settings, w: World, a: Action, j: JobId)
    requires Permitted(cfg, w, a)
    requires var s2 := Move(cfg, w, a).store; j in s2.jobs && s2.jobs[j].kind.VoipKind?
    ensures (j in w.store.jobs && w.store.jobs[j].kind.VoipKind?)
            || (a.PushCall? && j == OpJob(a.op) && Executes(w, a))
  {
    if a.PushRecall? {
      NewRecallJob(w.store, a.op, a.recall, a.now, j);
    } else if a.ClaimBatch? {
      ClaimedJobs(w.store, a.q, a.picked, w.nextClaim, a.now, a.lease, cfg.max);
    } else if a.Report? {
      FinalizedJobs(w.store, a.update, a.now);
    } else if Quiet(a) {
      QuietJobs(cfg, w, a);
      hide Move;
    }
    hide Claim, Finalize, EnqueueRecall, MessageRequestValid, OpTaken, MessageRows, VoipRows;
  }

  lemma QuietJobs(cfg: Settings, w: World, a: Action)
    requires Quiet(a)
    ensures forall j | j in Move(cfg, w, a).store.jobs ::
              j in w.store.jobs && Move(cfg, w, a).store.jobs[j] == w.store.jobs[j]
  {
  }

  predicate SameKinds(s: Store, s2: Store) {
    s2.jobs.Keys == s.jobs.Keys && forall j | j in s.jobs :: s2.jobs[j].kind == s.jobs[j].kind
  }

  lemma ClaimedJobs(s: Store, q: Queue, picked: set<DeliveryKey>, token: ClaimToken, now: Time, lease: Time, max: nat)
    ensures SameKinds(s, Claim(s, q, picked, token, now, lease, max))
  {
    hide HasOutstanding, HasSent, Claimable, JobsFound;
  }

  lemma FinalizedJobs(s: Store, u: Update, now: Time)
    ensures SameKinds(s, Finalize(s, u, now).0)
  {
    hide HasOutstanding, HasSent;
  }

  lemma NewRecallJob(s: Store, op: OpKey, r: RecallRequest, now: Time, j: JobId)
    requires var s2 := EnqueueRecall(s, op, r, now).0; j in s2.jobs && s2.jobs[j].kind.VoipKind?
    ensures j in s.jobs && s.jobs[j].kind.VoipKind?
  {
    hide RecallRequestValid, OpTaken, RecallRows, NoRecallTarget;
  }

  lemma NewResult(cfg: Settings, w: World, a: Action, j: JobId)
    requires Permitted(cfg, w, a) && j in Move(cfg, w, a).store.results && j !in w.store.results
    ensures (j in w.store.jobs && w.store.jobs[j].kind.VoipKind? && w.store.jobs[j].status == JobPending)
            || (a.PushCall? && j == OpJob(a.op) && Executes(w, a))
  {
    hide HasOutstanding, HasSent, Claimable;
  }

  /** A call request that is not answered from the inbox and is accepted. */
  predicate Executes(w: World, a: Action) {
    a.PushCall? && a.op in w.calls && a.op !in w.inbox
    && EnqueueVoip(w.store, a.op, w.calls[a.op], a.now).1 == Enqueued
  }

  lemma InboxMoves(cfg: Settings, w: World, a: Action, op: OpKey)
    requires Permitted(cfg, w, a)
    ensures var w2 := Move(cfg, w, a);
            && (op in w.calls ==> op in w2.calls && w2.calls[op] == w.calls[op])
            && (op in w2.inbox ==> w2.inbox[op] == a.now || (op in w.inbox && w2.inbox[op] == w.inbox[op]))
            && (op in w.inbox && op !in w2.inbox ==> w.inbox[op] < a.now - cfg.keep)
            && (Executes(w, a) && op == a.op ==> op in w2.inbox && w2.inbox[op] == a.now)
  {
    hide EnqueueMessage, EnqueueRecall, EnqueueVoip;
  }

  lemma StepTimely(cfg: Settings, w: World, a: Action, op: OpKey)
    requires RingsBriefly(cfg) && Lapsed(cfg, w) && Permitted(cfg, w, a)
    requires Timely(cfg, w, op) || (Executes(w, a) && op == a.op)
    ensures Timely(cfg, Step(cfg, w, a), op)
  {
    InboxMoves(cfg, w, a, op);
    hide Move;
  }

  lemma StepLapsed(cfg: Settings, w: World, a: Action)
    requires RingsBriefly(cfg) && Inv(cfg, w) && Permitted(cfg, w, a)
    ensures Lapsed(cfg, Step(cfg, w, a))
  {
    var w2 := Step(cfg, w, a);
    forall j | j in w2.told ensures CallJob(cfg, w2, j) {
      if j !in w.told {
        NewResult(cfg, w, a, j);
      }
      ToldCallJob(cfg, w, a, j);
    }
    forall j | j in w2.store.jobs && w2.store.jobs[j].kind.VoipKind? ensures CallJob(cfg, w2, j) {
      NewCallJob(cfg, w, a, j);
      ToldCallJob(cfg, w, a, j);
    }
    CallsRing(cfg, w, a);
  }

  lemma ToldCallJob(cfg: Settings, w: World, a: Action, j: JobId)
    requires RingsBriefly(cfg) && Lapsed(cfg, w) && Permitted(cfg, w, a)
    requires CallJob(cfg, w, j) || (a.PushCall? && j == OpJob(a.op) && Executes(w, a))
    ensures CallJob(cfg, Step(cfg, w, a), j)
  {
    hide Step;
    StepTimely(cfg, w, a, j.op);
  }

  lemma CallsRing(cfg: Settings, w: World, a: Action)
    requires Lapsed(cfg, w) && Permitted(cfg, w, a)
    ensures var w2 := Step(cfg, w, a);
            forall op | op in w2.calls && w2.calls[op].expiresAt.Some? ::
              w2.calls[op].expiresAt.value <= w2.clock + cfg.ring
  {
    hide EnqueueMessage, EnqueueRecall, EnqueueVoip;
  }

  lemma StepKeepsInv(cfg: Settings, w: World, a: Action)
    requires Inv(cfg, w) && Permitted(cfg, w, a)
    ensures Inv(cfg, Step(cfg, w, a))
  {
    var w1 := Tell(w, Move(cfg, w, a), a.now);
    MoveKeepsCore(cfg, w, a);
    if RingsBriefly(cfg) {
      StepLapsed(cfg, w, a);
    }
    hide Move, Lapsed, Core, Tell, Permitted;
    CoreSame(cfg, w1, w1.(clock := a.now));
  }

  lemma {:induction false} RunKeepsInv(cfg: Settings, w: World, acts: seq<Action>)
    requires Inv(cfg, w) && PermittedRun(cfg, w, acts)
    ensures Inv(cfg, Run(cfg, w, acts))
    decreases |acts|
  {
    hide Inv, Step, Permitted;
    if acts != [] {
      StepKeepsInv(cfg, w, acts[0]);
      RunKeepsInv(cfg, Step(cfg, w, acts[0]), acts[1..]);
    }
  }

  // ---- main results ----

  /** In every run from the empty store: no delivery dangles, a job is pending exactly while it owes a delivery, no
      delivery is claimed more than max times, and as long as calls ring no longer than the inbox remembers, a call job
      is completed exactly when its result was told, which is as the deliveries say. */
  lemma EveryRunIsConsistent(cfg: Settings, acts: seq<Action>)
    requires PermittedRun(cfg, START, acts)
    ensures var w := Run(cfg, START, acts);
            && Linked(w.store) && PendingIffOutstanding(w.store) && (RingsBriefly(cfg) ==> ResultsTrue(w))
            && forall k | k in w.store.deliveries :: w.store.deliveries[k].attempt <= cfg.max
  {
    assert Inv(cfg, START);
    RunKeepsInv(cfg, START, acts);
  }

  lemma {:induction false} RunKeepsRecalled(cfg: Settings, w: World, acts: seq<Action>)
    ensures w.recalled <= Run(cfg, w, acts).recalled
    decreases |acts|
  {
    hide Step;
    if acts != [] {
      StepKeepsRecalled(cfg, w, acts[0]);
      RunKeepsRecalled(cfg, Step(cfg, w, acts[0]), acts[1..]);
    }
  }

  lemma StepKeepsRecalled(cfg: Settings, w: World, a: Action)
    ensures w.recalled <= Step(cfg, w, a).recalled
  {
    hide EnqueueMessage, EnqueueRecall, EnqueueVoip, Tell;
    TellStore(w, Move(cfg, w, a), a.now);
  }

  /** Once a recall job exists, after any run: no ordinary delivery of the message is outstanding or claimable, and a
      worker that claimed one earlier is fenced off and changes nothing. */
  lemma RecallWins(cfg: Settings, w: World, m: MessageId, acts: seq<Action>, t: TokenId, u: Update, q: Queue, now: Time)
    requires Inv(cfg, w) && m in w.recalled && PermittedRun(cfg, w, acts)
    requires u.key == MessageRow(m, t) && u.job != NoJob && u.attempt > 0 && u.claim > 0 && t > 0
    ensures var s := Run(cfg, w, acts).store;
            && (MessageRow(m, t) in s.deliveries ==> !Outstanding(s.deliveries[MessageRow(m, t)].status))
            && !Claimable(s, q, MessageRow(m, t), now, cfg.max)
            && Finalize(s, u, now) == (s, Fenced)
  {
    RunKeepsInv(cfg, w, acts);
    RunKeepsRecalled(cfg, w, acts);
  }

  ghost predicate OwesMessage(s: Store, m: MessageId) {
    exists k :: k in s.deliveries && OrdinaryRow(k, m) && Outstanding(s.deliveries[k].status)
  }

  /** A valid, first recall request silences its message exactly when it names somebody besides the operator to notify;
      otherwise it returns before touching any delivery. */
  lemma RecallNeedsTarget(cfg: Settings, w: World, op: OpKey, r: RecallRequest, now: Time)
    requires Inv(cfg, w) && RecallRequestValid(w.store, r)
    requires RecallJob(r.message) !in w.store.jobs && !OpTaken(w.store, op)
    ensures !OwesMessage(EnqueueRecall(w.store, op, r, now).0, r.message)
            <==> !NoRecallTarget(r) || !OwesMessage(w.store, r.message)
  {
  }

  lemma {:induction false} RunThen(cfg: Settings, w: World, acts: seq<Action>, a: Action)
    requires PermittedRun(cfg, w, acts) && Permitted(cfg, Run(cfg, w, acts), a)
    ensures PermittedRun(cfg, w, acts + [a]) && Run(cfg, w, acts + [a]) == Step(cfg, Run(cfg, w, acts), a)
    decreases |acts|
  {
    hide Step, Permitted;
    if acts == [] {
      assert acts + [a] == [a] && [a][1..] == [];
    } else {
      assert (acts + [a])[1..] == acts[1..] + [a];
      RunThen(cfg, Step(cfg, w, acts[0]), acts[1..], a);
    }
  }

  const POSTED := Message(1, 2, false, 0, None)
  const DEVICES := map[5 := DeviceToken(2, APNs, true)]
  const POSTED_STORE := EMPTY.(tokens := DEVICES, messages := map[7 := POSTED])

  lemma PostsOne(cfg: Settings) returns (acts: seq<Action>)
    ensures PermittedRun(cfg, START, acts)
    ensures Run(cfg, START, acts) == START.(store := POSTED_STORE)
  {
    var post, devices := PostMessage(7, POSTED, 0), ChangeDevices(DEVICES, {}, 0);
    RunThen(cfg, START, [], post);
    RunThen(cfg, START, [] + [post], devices);
    acts := [] + [post] + [devices];
  }

  /** One message is posted and pushed to the one device of its receiver. */
  lemma PushesOne(cfg: Settings) returns (acts: seq<Action>)
    ensures PermittedRun(cfg, START, acts)
    ensures Run(cfg, START, acts).store.messages == map[7 := POSTED] && OwesMessage(Run(cfg, START, acts).store, 7)
    ensures Run(cfg, START, acts).inbox == map["push" := 0] && RecallJob(7) !in Run(cfg, START, acts).store.jobs
    ensures Run(cfg, START, acts).clock == 0
  {
    var r := MessageRequest(7, 1, 1, false, {2});
    var before := PostsOne(cfg);
    hide Run, PermittedRun;
    RunThen(cfg, START, before, PushMessage("push", r, 0));
    acts := before + [PushMessage("push", r, 0)];
    assert MessageRow(7, 5) in MessageRows(POSTED_STORE, r);
    assert MessageRow(7, 5) in Run(cfg, START, acts).store.deliveries;
  }

  /** Who recalls a message and names only himself leaves its outstanding deliveries alone. */
  lemma RecallWithoutTarget(cfg: Settings) returns (acts: seq<Action>)
    ensures PermittedRun(cfg, START, acts)
    ensures var w := Run(cfg, START, acts);
            && 7 in w.store.messages && w.store.messages[7].recall.Some? && "recall" in w.inbox
            && OwesMessage(w.store, 7)
  {
    hide Run, PermittedRun, OwesMessage;
    var before := PushesOne(cfg);
    var recall, request := RecallMessage(1, 7, 0), RecallRequest(7, 1, false, 1, 0, {1});
    RunThen(cfg, START, before, recall);
    RunThen(cfg, START, before + [recall], PushRecall("recall", request, 0));
    acts := before + [recall] + [PushRecall("recall", request, 0)];
    assert "recall" != "push";
    SameOwed(Run(cfg, START, before).store, Run(cfg, START, acts).store, 7);
  }

  lemma SameOwed(s: Store, s2: Store, m: MessageId)
    requires s2.deliveries == s.deliveries
    ensures OwesMessage(s, m) <==> OwesMessage(s2, m)
  {
  }

  // ---- call results ----

  /** Some other delivery of the job is still outstanding. */
  ghost predicate OthersOwe(s: Store, u: Update) {
    exists k :: k in s.deliveries && k != u.key && Owes(s.deliveries[k], u.job)
  }

  ghost predicate OthersSent(s: Store, u: Update) {
    exists k :: k in s.deliveries && k != u.key && s.deliveries[k].job == u.job && s.deliveries[k].status == Sent
  }

  /** The report that settles the last outstanding delivery of a call job writes its result event: accepted exactly when
      this or another delivery was sent. Any other report writes none. */
  lemma LastReportDecides(cfg: Settings, w: World, u: Update, now: Time)
    requires RingsBriefly(cfg) && Inv(cfg, w)
    requires u.status !in {Pending, Claimed} && Finalize(w.store, u, now).1 == Finalized
    requires w.store.jobs[u.job].kind.VoipKind?
    ensures u.job !in w.told && u.job !in w.store.results
    ensures var results := Finalize(w.store, u, now).0.results;
            && (u.job in results <==> u.status != Retryable && !OthersOwe(w.store, u))
            && (u.job in results ==> (results[u.job] <==> u.status == Sent || OthersSent(w.store, u)))
            && (forall j | j in results && j != u.job :: j in w.store.results && results[j] == w.store.results[j])
  {
    var s2 := SettleRow(w.store, u);
    assert Owes(w.store.deliveries[u.key], u.job);
    SettledClass(w.store, u);
    hide HasOutstanding, HasSent, OthersOwe, OthersSent, Linked, JobsNamed, Counted, RecallHolds, Lapsed;
  }

  lemma SettledClass(s: Store, u: Update)
    requires Owned(s, u) && u.status !in {Pending, Claimed}
    ensures HasOutstanding(SettleRow(s, u).deliveries, u.job) <==> u.status == Retryable || OthersOwe(s, u)
    ensures HasSent(SettleRow(s, u).deliveries, u.job) <==> u.status == Sent || OthersSent(s, u)
  {
    var ds := SettleRow(s, u).deliveries;
    assert u.key in ds && ds[u.key].job == u.job && ds[u.key].status == u.status;
    if OthersOwe(s, u) {
      var k :| k in s.deliveries && k != u.key && Owes(s.deliveries[k], u.job);
      assert k in ds && Owes(ds[k], u.job);
    }
    if OthersSent(s, u) {
      var k :| k in s.deliveries && k != u.key && s.deliveries[k].job == u.job && s.deliveries[k].status == Sent;
      assert k in ds;
    }
  }

  /** A copy of a call request comes when inbox row, job and result row of its operation are all gone. */
  predicate LateCopy(w: World, a: Action, j: JobId) {
    && a.PushCall? && j == OpJob(a.op)
    && a.op !in w.inbox && !OpTaken(w.store, a.op) && j !in w.store.results
  }

  /** Once a result was told, the next event of its job comes from a late copy, and says that nothing was sent. */
  lemma StepTells(cfg: Settings, w: World, a: Action, j: JobId)
    requires RingsBriefly(cfg) && Inv(cfg, w) && Permitted(cfg, w, a) && j in w.told
    ensures j in Step(cfg, w, a).told
    ensures Tellings(Step(cfg, w, a), j)
            == Tellings(w, j) + if LateCopy(w, a, j) then [Telling(false, a.now)] else []
  {
    var w1 := Move(cfg, w, a);
    CoreTold(cfg, w);
    MoveTold(cfg, w, a);
    TellAt(w, w1, j, a.now);
    if LateCopy(w, a, j) {
      LateCopyTells(cfg, w, a, j);
    } else if IsNew(w, w1, j) {
      NewResult(cfg, w, a, j);
      CompletedTold(cfg, w, j);
      EarlyCopyTellsNothing(cfg, w, a, j);
      assert false;
    }
    hide Move, Inv, LateCopy;
  }

  lemma MoveTold(cfg: Settings, w: World, a: Action)
    ensures Move(cfg, w, a).told == w.told
  {
    hide EnqueueMessage, EnqueueRecall, EnqueueVoip;
  }

  lemma CompletedTold(cfg: Settings, w: World, j: JobId)
    requires RingsBriefly(cfg) && Core(cfg, w) && j in w.told && j in w.store.jobs && w.store.jobs[j].kind.VoipKind?
    ensures w.store.jobs[j].status == JobCompleted
  {
  }

  lemma LateCopyTells(cfg: Settings, w: World, a: Action, j: JobId)
    requires RingsBriefly(cfg) && Inv(cfg, w) && Permitted(cfg, w, a) && j in w.told && LateCopy(w, a, j)
    ensures IsNew(w, Move(cfg, w, a), j) && !Move(cfg, w, a).store.results[j]
  {
    ForgottenIsExpired(cfg, w, a.op, a.now);
    assert CallJob(cfg, w, j);
    if j in w.store.jobs {
      JobHasOp(w, j);
      assert false;
    }
  }

  lemma JobHasOp(w: World, j: JobId)
    requires JobsNamed(w) && j.OpJob? && j in w.store.jobs
    ensures OpTaken(w.store, j.op)
  {
    assert Named(j, w.store.jobs[j]);
  }

  lemma EarlyCopyTellsNothing(cfg: Settings, w: World, a: Action, j: JobId)
    requires RingsBriefly(cfg) && Inv(cfg, w) && Permitted(cfg, w, a) && j in w.told
    requires a.PushCall? && j == OpJob(a.op) && Executes(w, a)
    ensures LateCopy(w, a, j)
  {
    ForgottenIsExpired(cfg, w, a.op, a.now);
  }

  /** How many late copies of a job's request a run contains. */
  ghost function LateCopies(cfg: Settings, w: World, acts: seq<Action>, j: JobId): nat
    decreases |acts|
  {
    if acts == [] then 0
    else (if j in w.told && LateCopy(w, acts[0], j) then 1
          else 0) + LateCopies(cfg, Step(cfg, w, acts[0]), acts[1..], j)
  }

  /** No result is taken back, and every later event of a job answers a late copy with "nothing sent": a result is final
      exactly in the runs without late copies. */
  lemma {:induction false} ResultIsFinal(cfg: Settings, w: World, acts: seq<Action>, j: JobId)
    requires RingsBriefly(cfg) && Inv(cfg, w) && PermittedRun(cfg, w, acts) && j in w.told
    ensures var before, after := Tellings(w, j), Tellings(Run(cfg, w, acts), j);
            && before <= after && |after| == |before| + LateCopies(cfg, w, acts, j)
            && (forall i | |before| <= i < |after| :: !after[i].accepted)
    decreases |acts|
  {
    hide Inv, Step, Permitted, LateCopy;
    if acts != [] {
      StepKeepsInv(cfg, w, acts[0]);
      StepTells(cfg, w, acts[0], j);
      ResultIsFinal(cfg, Step(cfg, w, acts[0]), acts[1..], j);
    }
  }

  lemma FirstTelling(cfg: Settings, w: World, a: Action, j: JobId)
    requires Inv(cfg, w) && j !in w.told
    ensures |Tellings(Step(cfg, w, a), j)| <= 1
    ensures j in Step(cfg, w, a).told <==> |Tellings(Step(cfg, w, a), j)| == 1
  {
    CoreTold(cfg, w);
    MoveTold(cfg, w, a);
    TellAt(w, Move(cfg, w, a), j, a.now);
    hide Move, Inv;
  }

  /** A call job gets one result event in a run exactly when no copy of its request comes after inbox row, job and
      result row are all gone. */
  lemma OneResultIff(cfg: Settings, acts: seq<Action>, j: JobId)
    requires RingsBriefly(cfg) && PermittedRun(cfg, START, acts)
    ensures |Tellings(Run(cfg, START, acts), j)| <= 1 <==> LateCopies(cfg, START, acts, j) == 0
  {
    assert Inv(cfg, START);
    ResultsCounted(cfg, START, acts, j);
  }

  lemma {:induction false} ResultsCounted(cfg: Settings, w: World, acts: seq<Action>, j: JobId)
    requires RingsBriefly(cfg) && Inv(cfg, w) && PermittedRun(cfg, w, acts) && j !in w.told
    ensures var n := |Tellings(Run(cfg, w, acts), j)|;
            if n == 0 then LateCopies(cfg, w, acts, j) == 0 else n == 1 + LateCopies(cfg, w, acts, j)
    decreases |acts|
  {
    hide Inv, Step, Permitted, LateCopy;
    if acts != [] {
      var w1 := Step(cfg, w, acts[0]);
      StepKeepsInv(cfg, w, acts[0]);
      FirstTelling(cfg, w, acts[0], j);
      if j in w1.told {
        ResultIsFinal(cfg, w1, acts[1..], j);
      } else {
        ResultsCounted(cfg, w1, acts[1..], j);
      }
    }
  }

  // ---- a run with two results ----

  const CALL_JOB := OpJob("call")
  const CALL_ROW := VoipRow("id", 5)
  const CALLEE := map[5 := DeviceToken(2, VoIP, true)]

  function TheCall(cfg: Settings): VoipCall {
    VoipCall("id", 1, 2, Some(cfg.ring), "topic")
  }

  /** The world of the call: its request is published, its callee has one device, and the inbox knows it from time 0. */
  function CallWorld(cfg: Settings, status: JobStatus, row: Delivery, results: map<JobId, bool>,
                     told: map<JobId, seq<Telling>>, next: ClaimToken): World {
    START.(store := EMPTY.(jobs := map[CALL_JOB := Job("call", VoipKind(TheCall(cfg)), status, 0)],
                           deliveries := map[CALL_ROW := row], tokens := CALLEE, results := results),
           calls := map["call" := TheCall(cfg)], inbox := map["call" := 0], told := told, nextClaim := next)
  }

  lemma CallRequested(cfg: Settings) returns (acts: seq<Action>)
    requires cfg.ring > 0
    ensures PermittedRun(cfg, START, acts)
    ensures Run(cfg, START, acts) == START.(store := EMPTY.(tokens := CALLEE), calls := map["call" := TheCall(cfg)])
  {
    var publish, devices := PublishCall("call", TheCall(cfg), 0), ChangeDevices(CALLEE, {}, 0);
    RunThen(cfg, START, [], publish);
    RunThen(cfg, START, [] + [publish], devices);
    acts := [] + [publish] + [devices];
  }

  lemma PushStep(cfg: Settings, w: World)
    requires cfg.ring > 0 && w == START.(store := EMPTY.(tokens := CALLEE), calls := map["call" := TheCall(cfg)])
    ensures Step(cfg, w, PushCall("call", 0)) == CallWorld(cfg, JobPending, Fresh(CALL_JOB), map[], map[], 1)
  {
    var w1 := CallWorld(cfg, JobPending, Fresh(CALL_JOB), map[], map[], 1);
    assert VoipRows(w.store, TheCall(cfg)) == {CALL_ROW};
    assert CALL_ROW in {CALL_ROW};
    assert Move(cfg, w, PushCall("call", 0)) == w1;
    hide Move;
    TellNone(w, w1, 0);
  }

  lemma CallPushed(cfg: Settings) returns (acts: seq<Action>)
    requires cfg.ring > 0
    ensures PermittedRun(cfg, START, acts)
    ensures Run(cfg, START, acts) == CallWorld(cfg, JobPending, Fresh(CALL_JOB), map[], map[], 1)
  {
    var before := CallRequested(cfg);
    hide Run, PermittedRun, Step, CallWorld;
    RunThen(cfg, START, before, PushCall("call", 0));
    PushStep(cfg, Run(cfg, START, before));
    acts := before + [PushCall("call", 0)];
  }

  const CLAIMED := Delivery(CALL_JOB, Claimed, 1, 1, 1, None, "")
  const SENT := Delivery(CALL_JOB, Sent, 1, 0, 0, None, "")
  const SENDS := Update(CALL_JOB, CALL_ROW, 1, 1, Sent, None, "", false)

  lemma NothingExhausted(cfg: Settings, s: Store)
    requires cfg.max > 0 && s == CallWorld(cfg, JobPending, Fresh(CALL_JOB), map[], map[], 1).store
    ensures JobsFound(s, Calls, 0, cfg.max) && ExpireExhausted(s, Calls, 0, cfg.max) == s
  {
    hide Finishing;
    assert ExpireRows(s.deliveries, Calls, 0, cfg.max) == s.deliveries;
    assert ExhaustedJobs(s.deliveries, Calls, 0, cfg.max) == {};
    NoneFinishing(s);
    assert CompleteAll(s, {}, 0).jobs == s.jobs && CompleteAll(s, {}, 0).results == s.results;
  }

  lemma NoneFinishing(s: Store)
    ensures forall j :: !Finishing(s, {}, j)
  {
  }

  lemma ClaimsIt(cfg: Settings, s: Store)
    requires cfg.max > 0 && s == CallWorld(cfg, JobPending, Fresh(CALL_JOB), map[], map[], 1).store
    ensures Claim(s, Calls, {CALL_ROW}, 1, 0, 1, cfg.max)
            == CallWorld(cfg, JobPending, CLAIMED, map[], map[], 2).store
  {
    NothingExhausted(cfg, s);
    hide ExpireExhausted, JobsFound;
  }

  lemma SendsIt(cfg: Settings, s: Store)
    requires s == CallWorld(cfg, JobPending, CLAIMED, map[], map[], 2).store
    ensures Finalize(s, SENDS, 0).0 == CallWorld(cfg, JobCompleted, SENT, map[CALL_JOB := true], map[], 2).store
  {
    var s1 := SettleRow(s, SENDS);
    assert s1.deliveries == map[CALL_ROW := SENT];
    assert HasSent(s1.deliveries, CALL_JOB) by {
      assert CALL_ROW in s1.deliveries;
    }
    assert !HasOutstanding(s1.deliveries, CALL_JOB);
  }

  lemma ClaimStep(cfg: Settings, w: World)
    requires cfg.max > 0 && w == CallWorld(cfg, JobPending, Fresh(CALL_JOB), map[], map[], 1)
    ensures Step(cfg, w, ClaimBatch(Calls, {CALL_ROW}, 0, 1)) == CallWorld(cfg, JobPending, CLAIMED, map[], map[], 2)
  {
    hide Claim, Tell;
    ClaimsIt(cfg, w.store);
    TellNone(w, CallWorld(cfg, JobPending, CLAIMED, map[], map[], 2), 0);
  }

  lemma ReportStep(cfg: Settings, w: World)
    requires w == CallWorld(cfg, JobPending, CLAIMED, map[], map[], 2)
    ensures Step(cfg, w, Report(SENDS, 0))
            == CallWorld(cfg, JobCompleted, SENT, map[CALL_JOB := true], map[CALL_JOB := [Telling(true, 0)]], 2)
  {
    hide Finalize, Tell;
    SendsIt(cfg, w.store);
    var w1 := CallWorld(cfg, JobCompleted, SENT, map[CALL_JOB := true], map[], 2);
    TellOne(w, w1, CALL_JOB, 0);
    TellStore(w, w1, 0);
    assert [] + [Telling(true, 0)] == [Telling(true, 0)];
  }

  /** The delivery of the call is claimed and sent. */
  lemma CallSent(cfg: Settings) returns (acts: seq<Action>)
    requires cfg.ring > 0 && cfg.max > 0
    ensures PermittedRun(cfg, START, acts)
    ensures Run(cfg, START, acts)
            == CallWorld(cfg, JobCompleted, SENT, map[CALL_JOB := true], map[CALL_JOB := [Telling(true, 0)]], 2)
  {
    var before := CallPushed(cfg);
    var claim, report := ClaimBatch(Calls, {CALL_ROW}, 0, 1), Report(SENDS, 0);
    hide Run, PermittedRun, Step;
    RunThen(cfg, START, before, claim);
    ClaimStep(cfg, Run(cfg, START, before));
    RunThen(cfg, START, before + [claim], report);
    ReportStep(cfg, Run(cfg, START, before + [claim]));
    acts := before + [claim] + [report];
  }

  /** A time at which all that is left of the call may go. */
  function LongAfter(cfg: Settings): Time {
    Max(Max(cfg.keep, cfg.keepJobs), 0) + 1
  }

  /** The call's world long after, with what is left of it. */
  function LeftOver(cfg: Settings, jobs: map<JobId, Job>, rows: map<DeliveryKey, Delivery>, inbox: map<OpKey, Time>,
                    results: map<JobId, bool>): World {
    START.(store := EMPTY.(jobs := jobs, deliveries := rows, tokens := CALLEE, results := results),
           clock := LongAfter(cfg), nextClaim := 2, calls := map["call" := TheCall(cfg)], inbox := inbox,
           collected := {CALL_JOB}, told := map[CALL_JOB := [Telling(true, 0)]])
  }

  lemma CleanRows(cfg: Settings, w: World, a: Action)
    requires a == CollectDeliveries({CALL_ROW}, LongAfter(cfg))
    requires w == CallWorld(cfg, JobCompleted, SENT, map[CALL_JOB := true], map[CALL_JOB := [Telling(true, 0)]], 2)
    ensures Step(cfg, w, a) == LeftOver(cfg, w.store.jobs, map[], map["call" := 0], w.store.results)
  {
    assert Lost(w.store, {CALL_ROW}, a.now - cfg.keepJobs) == {CALL_JOB} by {
      assert CALL_ROW in w.store.deliveries;
    }
    assert Move(cfg, w, a) == LeftOver(cfg, w.store.jobs, map[], map["call" := 0], w.store.results).(clock := 0);
    QuietTells(cfg, w, a);
  }

  lemma CleanJobs(cfg: Settings, w: World, a: Action)
    requires a == CollectDoneJobs({CALL_JOB}, LongAfter(cfg))
    requires w == LeftOver(cfg, map[CALL_JOB := Job("call", VoipKind(TheCall(cfg)), JobCompleted, 0)], map[],
                           map["call" := 0], map[CALL_JOB := true])
    ensures Step(cfg, w, a) == LeftOver(cfg, map[], map[], map["call" := 0], w.store.results)
  {
    assert Move(cfg, w, a) == LeftOver(cfg, map[], map[], map["call" := 0], w.store.results);
    QuietTells(cfg, w, a);
  }

  lemma CleanInbox(cfg: Settings, w: World, a: Action)
    requires a == ForgetInbox({"call"}, LongAfter(cfg))
    requires w == LeftOver(cfg, map[], map[], map["call" := 0], map[CALL_JOB := true])
    ensures Step(cfg, w, a) == LeftOver(cfg, map[], map[], map[], w.store.results)
  {
    assert Move(cfg, w, a) == LeftOver(cfg, map[], map[], map[], w.store.results);
    QuietTells(cfg, w, a);
  }

  lemma CleanResult(cfg: Settings, w: World, a: Action)
    requires a == ForgetResults({CALL_JOB}, LongAfter(cfg))
    requires w == LeftOver(cfg, map[], map[], map[], map[CALL_JOB := true])
    ensures Step(cfg, w, a) == LeftOver(cfg, map[], map[], map[], map[])
  {
    assert Move(cfg, w, a) == LeftOver(cfg, map[], map[], map[], map[]);
    QuietTells(cfg, w, a);
  }

  lemma CallCollected(cfg: Settings) returns (acts: seq<Action>)
    requires cfg.ring > 0 && cfg.max > 0
    ensures PermittedRun(cfg, START, acts)
    ensures Run(cfg, START, acts) == LeftOver(cfg, map[], map[], map["call" := 0], map[CALL_JOB := true])
  {
    var sent := CallSent(cfg);
    var rows, jobs := CollectDeliveries({CALL_ROW}, LongAfter(cfg)), CollectDoneJobs({CALL_JOB}, LongAfter(cfg));
    hide Run, PermittedRun, Step;
    RunThen(cfg, START, sent, rows);
    CleanRows(cfg, Run(cfg, START, sent), rows);
    RunThen(cfg, START, sent + [rows], jobs);
    CleanJobs(cfg, Run(cfg, START, sent + [rows]), jobs);
    acts := sent + [rows] + [jobs];
  }

  /** Deliveries, job, inbox row and result row are cleaned up, each after its retention. */
  lemma CallCleaned(cfg: Settings) returns (acts: seq<Action>)
    requires cfg.ring > 0 && cfg.max > 0
    ensures PermittedRun(cfg, START, acts) && Run(cfg, START, acts) == LeftOver(cfg, map[], map[], map[], map[])
  {
    var before := CallCollected(cfg);
    var inbox, results := ForgetInbox({"call"}, LongAfter(cfg)), ForgetResults({CALL_JOB}, LongAfter(cfg));
    hide Run, PermittedRun, Step;
    RunThen(cfg, START, before, inbox);
    CleanInbox(cfg, Run(cfg, START, before), inbox);
    RunThen(cfg, START, before + [inbox], results);
    CleanResult(cfg, Run(cfg, START, before + [inbox]), results);
    acts := before + [inbox] + [results];
  }

  /** A copy of the request comes after all that: the call has expired, and its second result contradicts the first. */
  lemma OppositeResults(cfg: Settings) returns (acts: seq<Action>)
    requires RingsBriefly(cfg) && cfg.ring > 0 && cfg.max > 0
    ensures PermittedRun(cfg, START, acts)
    ensures Tellings(Run(cfg, START, acts), CALL_JOB) == [Telling(true, 0), Telling(false, LongAfter(cfg))]
  {
    var cleaned := CallCleaned(cfg);
    var again := PushCall("call", LongAfter(cfg));
    hide Run, PermittedRun;
    RunThen(cfg, START, cleaned, again);
    SecondResult(cfg, Run(cfg, START, cleaned), again);
    hide Step;
    acts := cleaned + [again];
  }

  lemma SecondResult(cfg: Settings, w: World, a: Action)
    requires RingsBriefly(cfg) && w == LeftOver(cfg, map[], map[], map[], map[])
             && a == PushCall("call", LongAfter(cfg))
    ensures Tellings(Step(cfg, w, a), CALL_JOB) == [Telling(true, 0), Telling(false, a.now)]
  {
    var w1 := Move(cfg, w, a);
    assert w1.told == w.told && w1.store.results == map[CALL_JOB := false];
    hide Move;
    TellOne(w, w1, CALL_JOB, a.now);
  }

  // ---- bounded delivery ----

  /** What is left of a delivery: two per claim still allowed, one for a claim being worked on, none when terminal. */
  function Fuel(d: Delivery, max: nat): nat {
    if !Outstanding(d.status) || d.attempt > max then 0
    else 1 + 2 * (max - d.attempt) + if d.status == Claimed then 1 else 0
  }

  /** How a row may change: fuel only burns, every change of an outstanding row burns some, terminal is terminal, and
      the attempt counter moves by one claim at most. */
  predicate Burns(d: Delivery, d2: Delivery, max: nat) {
    && Fuel(d2, max) <= Fuel(d, max)
    && (Outstanding(d.status) && d2 != d ==> Fuel(d2, max) < Fuel(d, max))
    && (!Outstanding(d.status) ==> d2 == d)
    && d.attempt <= d2.attempt <= d.attempt + 1
  }

  lemma RecallSparesRows(cfg: Settings, w: World, a: Action, k: DeliveryKey)
    requires Linked(w.store) && JobsNamed(w) && k in w.store.deliveries && a.PushRecall?
    ensures var d, w2 := w.store.deliveries[k], Step(cfg, w, a);
            k in w2.store.deliveries && (w2.store.deliveries[k] == d || w2.store.deliveries[k] == Superseded(d))
  {
    hide Linked, JobsNamed, HasOutstanding, Tell, OpTaken;
    TellStore(w, Move(cfg, w, a), a.now);
    if k in RecallRows(w.store, a.recall) && a.recall.message > 0 && RecallJob(a.recall.message) !in w.store.jobs {
      RecallRowOwner(w, k);
      assert false;
    }
  }

  lemma EnqueueSparesRows(cfg: Settings, w: World, a: Action, k: DeliveryKey)
    requires Linked(w.store) && JobsNamed(w) && k in w.store.deliveries
             && (a.PushMessage? || a.PushRecall? || a.PushCall?)
    ensures var d, w2 := w.store.deliveries[k], Step(cfg, w, a);
            k in w2.store.deliveries && (w2.store.deliveries[k] == d || w2.store.deliveries[k] == Superseded(d))
  {
    hide Linked, JobsNamed, HasOutstanding, Superseded, Tell, MessageRequestValid, VoipRequestValid, OpTaken;
    TellStore(w, Move(cfg, w, a), a.now);
    if a.PushRecall? {
      hide Step;
      RecallSparesRows(cfg, w, a, k);
    }
  }

  lemma SettledRow(s: Store, u: Update, now: Time, k: DeliveryKey)
    requires k in s.deliveries
    ensures var d, s2 := s.deliveries[k], Finalize(s, u, now).0;
            && k in s2.deliveries
            && (s2.deliveries[k] == d || (s2.deliveries[k] == Settled(d, u) && d.status == Claimed))
  {
  }

  lemma ClaimBatchRow(cfg: Settings, w: World, a: Action, k: DeliveryKey)
    requires a.ClaimBatch? && k in w.store.deliveries && RowCounted(w.store.deliveries[k], cfg.max, w.nextClaim)
    ensures k in Step(cfg, w, a).store.deliveries
    ensures Burns(w.store.deliveries[k], Step(cfg, w, a).store.deliveries[k], cfg.max)
  {
    hide Tell;
    TellStore(w, Move(cfg, w, a), a.now);
    if JobsFound(w.store, a.q, a.now, cfg.max) {
      TakenRow(w.store, a.q, a.picked, k, w.nextClaim, a.now, a.lease, cfg.max);
      hide ExpireExhausted, Claim, Claimable;
      assert Claimable(ExpireExhausted(w.store, a.q, a.now, cfg.max), a.q, k, a.now, cfg.max) ==>
               Outstanding(ExpireExhausted(w.store, a.q, a.now, cfg.max).deliveries[k].status)
               && ExpireExhausted(w.store, a.q, a.now, cfg.max).deliveries[k].attempt < cfg.max by {
        ClaimableRow(ExpireExhausted(w.store, a.q, a.now, cfg.max), a.q, k, a.now, cfg.max);
      }
    }
  }

  lemma ClaimableRow(s: Store, q: Queue, k: DeliveryKey, now: Time, max: nat)
    ensures Claimable(s, q, k, now, max) ==>
              k in s.deliveries && Outstanding(s.deliveries[k].status) && s.deliveries[k].attempt < max
  {
  }

  lemma ReportRow(cfg: Settings, w: World, a: Action, k: DeliveryKey)
    requires a.Report? && Permitted(cfg, w, a) && k in w.store.deliveries
             && RowCounted(w.store.deliveries[k], cfg.max, w.nextClaim)
    ensures k in Step(cfg, w, a).store.deliveries
    ensures Burns(w.store.deliveries[k], Step(cfg, w, a).store.deliveries[k], cfg.max)
  {
    hide Finalize;
    SettledRow(w.store, a.update, a.now, k);
  }

  lemma OthersSpareRows(cfg: Settings, w: World, a: Action, k: DeliveryKey)
    requires Quiet(a) && k in w.store.deliveries && k in Step(cfg, w, a).store.deliveries
    ensures Step(cfg, w, a).store.deliveries[k] == w.store.deliveries[k]
  {
  }

  lemma FuelOnlyBurns(cfg: Settings, w: World, a: Action, k: DeliveryKey)
    requires Inv(cfg, w) && Permitted(cfg, w, a) && k in w.store.deliveries && k in Step(cfg, w, a).store.deliveries
    ensures Burns(w.store.deliveries[k], Step(cfg, w, a).store.deliveries[k], cfg.max)
  {
    hide Step, Linked, JobsNamed, PendingIffOutstanding, RecallHolds, ResultsTrue, Counted;
    CountedRow(cfg, w, k);
    if a.PushMessage? || a.PushRecall? || a.PushCall? {
      EnqueueSparesRows(cfg, w, a, k);
    } else if a.ClaimBatch? {
      ClaimBatchRow(cfg, w, a, k);
    } else if a.Report? {
      ReportRow(cfg, w, a, k);
    } else {
      OthersSpareRows(cfg, w, a, k);
    }
  }

  /** When an outstanding delivery can be taken again: at once, at its retry time, or when its lease runs out. */
  function ReadyAt(d: Delivery, now: Time): Time {
    match d.status
    case Retryable => if d.nextRetryAt.None? then now else Max(now, d.nextRetryAt.value)
    case Claimed => Max(now, d.leaseUntil)
    case _ => now
  }

  function QueueOf(k: DeliveryKey): Queue {
    if k.MessageRow? then Messages else Calls
  }

  /** An outstanding delivery is never stuck: a claim at its ready time burns fuel. */
  lemma NeverStuck(cfg: Settings, w: World, k: DeliveryKey, now: Time, lease: Time)
    requires cfg.max > 0 && Inv(cfg, w) && k in w.store.deliveries && Outstanding(w.store.deliveries[k].status)
    requires now >= ReadyAt(w.store.deliveries[k], now)
    ensures var w2 := Step(cfg, w, ClaimBatch(QueueOf(k), {k}, now, lease));
            k in w2.store.deliveries && Fuel(w2.store.deliveries[k], cfg.max) < Fuel(w.store.deliveries[k], cfg.max)
  {
    hide Core, ExpireExhausted, Claim, Step, JobsFound, Tell;
    JobsAreFound(cfg, w, QueueOf(k), now);
    var q := QueueOf(k);
    var s1 := ExpireExhausted(w.store, q, now, cfg.max);
    CountedRow(cfg, w, k);
    TakenRow(w.store, q, {k}, k, w.nextClaim, now, lease, cfg.max);
    if w.store.deliveries[k].attempt < cfg.max {
      ExpireKeeps(cfg, w, q, now);
      TellStore(w, w.(store := s1), now);
      StaysPending(cfg, Tell(w, w.(store := s1), now), k);
    }
    ClaimBurns(cfg, w, k, now, lease);
  }

  lemma ClaimBurns(cfg: Settings, w: World, k: DeliveryKey, now: Time, lease: Time)
    requires cfg.max > 0 && k in w.store.deliveries && Outstanding(w.store.deliveries[k].status)
    requires now >= ReadyAt(w.store.deliveries[k], now) && RowCounted(w.store.deliveries[k], cfg.max, w.nextClaim)
    requires JobsFound(w.store, QueueOf(k), now, cfg.max)
    requires w.store.deliveries[k].attempt < cfg.max ==>
               var s1 := ExpireExhausted(w.store, QueueOf(k), now, cfg.max);
               var j := w.store.deliveries[k].job;
               j in s1.jobs && s1.jobs[j].status == JobPending
    ensures var w2 := Step(cfg, w, ClaimBatch(QueueOf(k), {k}, now, lease));
            k in w2.store.deliveries && Fuel(w2.store.deliveries[k], cfg.max) < Fuel(w.store.deliveries[k], cfg.max)
  {
  }

  /** A picked row is taken if it is claimable after expiry; any other row stays as expiry left it. */
  lemma TakenRow(s: Store, q: Queue, picked: set<DeliveryKey>, k: DeliveryKey, token: ClaimToken, now: Time,
                 lease: Time, max: nat)
    requires k in s.deliveries && JobsFound(s, q, now, max)
    ensures var s1 := ExpireExhausted(s, q, now, max);
            var s2 := Claim(s, q, picked, token, now, lease, max);
            && k in s1.deliveries && k in s2.deliveries
            && s1.deliveries[k] == (if InQueue(q, k) && Exhausted(s.deliveries[k], now, max)
                                    then Expired(s.deliveries[k])
                                    else s.deliveries[k])
            && s2.deliveries[k] == (if k in picked && Claimable(s1, q, k, now, max)
                                    then Taken(s1.deliveries[k], token, now + lease)
                                    else s1.deliveries[k])
  {
  }

  lemma CountedRow(cfg: Settings, w: World, k: DeliveryKey)
    requires Core(cfg, w) && k in w.store.deliveries
    ensures RowCounted(w.store.deliveries[k], cfg.max, w.nextClaim)
  {
  }

  lemma StaysPending(cfg: Settings, w: World, k: DeliveryKey)
    requires Core(cfg, w) && k in w.store.deliveries && Outstanding(w.store.deliveries[k].status)
    ensures w.store.deliveries[k].job in w.store.jobs && w.store.jobs[w.store.deliveries[k].job].status == JobPending
  {
  }

  /** Even if every worker dies after claiming, claims alone force any outstanding delivery to a terminal status, in at
      most as many steps as it has fuel. */
  lemma {:induction false} ForcedToEnd(cfg: Settings, w: World, k: DeliveryKey, now: Time, lease: Time)
    returns (acts: seq<Action>)
    requires cfg.max > 0 && Inv(cfg, w) && k in w.store.deliveries
    ensures PermittedRun(cfg, w, acts) && |acts| <= Fuel(w.store.deliveries[k], cfg.max)
    ensures forall a | a in acts :: a.ClaimBatch?
    ensures var s := Run(cfg, w, acts).store; k in s.deliveries && !Outstanding(s.deliveries[k].status)
    decreases Fuel(w.store.deliveries[k], cfg.max)
  {
    hide Inv, Step, Fuel;
    var d := w.store.deliveries[k];
    if !Outstanding(d.status) {
      acts := [];
    } else {
      var at := ReadyAt(d, Max(now, w.clock));
      var a := ClaimBatch(QueueOf(k), {k}, at, lease);
      NeverStuck(cfg, w, k, at, lease);
      StepKeepsInv(cfg, w, a);
      var rest := ForcedToEnd(cfg, Step(cfg, w, a), k, at, lease);
      acts := [a] + rest;
      assert acts[1..] == rest;
    }
  }
}
