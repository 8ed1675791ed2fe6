/** Durable push: jobs fan out to deliveries, which workers claim, finalize, expire, supersede and collect.
    Every function here is one PostgreSQL transaction on the whole store. */
module PushStore {
  import opened Common

  type UserId = int
  type TokenId = int
  type MessageId = int
  type OpKey = string
  /** A worker's fencing token; 0 is the empty token of an unclaimed row. */
  type ClaimToken = nat

  /** stablePushJobID and stableMessageRecallJobID; a delivery written without a job has the empty id. */
  datatype JobId = OpJob(op: OpKey) | RecallJob(message: MessageId) | NoJob

  datatype VoipCall = VoipCall(callId: string, caller: UserId, callee: UserId, expiresAt: Option<Time>, topic: string)

  datatype Kind = MessageKind(message: MessageId) | RecallKind(message: MessageId) | VoipKind(call: VoipCall)

  datatype JobStatus = JobPending | JobCompleted

  datatype Job = Job(op: OpKey, kind: Kind, status: JobStatus, completedAt: Time)

  /** The primary keys of the two delivery tables; a recall notification is filed under the negated message id. */
  datatype DeliveryKey = MessageRow(message: MessageId, token: TokenId) | VoipRow(callId: string, token: TokenId)

  datatype Status = Pending | Claimed | Retryable | Sent | Permanent | Failed

  datatype Delivery = Delivery(job: JobId, status: Status, attempt: nat, claim: ClaimToken,
                               leaseUntil: Time, nextRetryAt: Option<Time>, lastError: string)

  datatype PushType = APNs | VoIP

  datatype DeviceToken = DeviceToken(user: UserId, pushType: PushType, active: bool)

  datatype Recall = Recall(operator: UserId, at: Time)

  datatype Message = Message(sender: UserId, target: UserId, isGroup: bool, sentAt: Time, recall: Option<Recall>)

  /** `muted` holds (user, friend) for an undeleted friendship with notifications off; `results` is the VoIP result
      event of each job, keyed as its outbox event id is. */
  datatype Store = Store(
    jobs: map<JobId, Job>, deliveries: map<DeliveryKey, Delivery>, tokens: map<TokenId, DeviceToken>,
    messages: map<MessageId, Message>, muted: set<(UserId, UserId)>, results: map<JobId, bool>)

  const EMPTY := Store(map[], map[], map[], map[], {}, map[])

  const RECALL_WINDOW := 120_000_000

  predicate Outstanding(s: Status) {
    s in {Pending, Claimed, Retryable}
  }

  predicate Owes(d: Delivery, j: JobId) {
    d.job == j && Outstanding(d.status)
  }

  ghost predicate HasOutstanding(ds: map<DeliveryKey, Delivery>, j: JobId) {
    exists k :: k in ds && Owes(ds[k], j)
  }

  ghost predicate HasSent(ds: map<DeliveryKey, Delivery>, j: JobId) {
    exists k :: k in ds && ds[k].job == j && ds[k].status == Sent
  }

  function Done(job: Job, now: Time): Job {
    job.(status := JobCompleted, completedAt := now)
  }

  function Fresh(j: JobId): Delivery {
    Delivery(j, Pending, 0, 0, 0, None, "")
  }

  /** uniquePushTargets. */
  predicate Targeted(targets: set<UserId>, except: UserId, u: UserId) {
    u in targets && u > 0 && u != except
  }

  datatype Reply = Enqueued | Ignored | Invalid | Conflict

  predicate OpTaken(s: Store, op: OpKey) {
    exists j :: j in s.jobs && s.jobs[j].op == op
  }

  datatype MessageRequest = MessageRequest(message: MessageId, sender: UserId, conversation: UserId, isGroup: bool,
                                           targets: set<UserId>)

  /** The rows messageFanoutSQL inserts: eligible tokens without a row for this message yet. */
  function MessageRows(s: Store, r: MessageRequest): set<DeliveryKey> {
    set t | t in s.tokens
            && Targeted(r.targets, r.sender, s.tokens[t].user) && s.tokens[t].pushType == APNs && s.tokens[t].active
            && (r.isGroup || (s.tokens[t].user, r.sender) !in s.muted)
            && MessageRow(r.message, t) !in s.deliveries
      :: MessageRow(r.message, t)
  }

  predicate MessageRequestValid(s: Store, r: MessageRequest) {
    && r.message > 0 && r.sender > 0 && r.conversation > 0 && r.targets != {}
    && r.message in s.messages
    && s.messages[r.message].sender == r.sender && s.messages[r.message].isGroup == r.isGroup
    && (if r.isGroup then s.messages[r.message].target == r.conversation else r.conversation == r.sender)
  }

  function AddJob(s: Store, j: JobId, op: OpKey, kind: Kind, rows: set<DeliveryKey>, now: Time): Store {
    s.(jobs := s.jobs[j := Job(op, kind, if rows == {} then JobCompleted else JobPending, now)],
       deliveries := s.deliveries + map k | k in rows :: Fresh(j))
  }

  /** persistMessageJob. */
  function EnqueueMessage(s: Store, op: OpKey, r: MessageRequest, now: Time): (Store, Reply) {
    if !MessageRequestValid(s, r) then (s, Invalid)
    else if s.messages[r.message].recall.Some? then (s, Ignored)
    else if OpTaken(s, op) || OpJob(op) in s.jobs then (s, Conflict)
    else (AddJob(s, OpJob(op), op, MessageKind(r.message), MessageRows(s, r), now), Enqueued)
  }

  datatype RecallRequest = RecallRequest(message: MessageId, conversation: UserId, isGroup: bool, operator: UserId,
                                         recalledAt: Time, targets: set<UserId>)

  predicate RecallRequestValid(s: Store, r: RecallRequest) {
    && r.message > 0 && r.conversation > 0 && r.operator > 0 && r.targets != {}
    && r.message in s.messages
    && s.messages[r.message].recall == Some(Recall(r.operator, r.recalledAt))
    && s.messages[r.message].isGroup == r.isGroup
    && (if r.isGroup then s.messages[r.message].target else s.messages[r.message].sender) == r.conversation
  }

  predicate NoRecallTarget(r: RecallRequest) {
    forall u | u in r.targets :: !Targeted(r.targets, r.operator, u)
  }

  function RecallRows(s: Store, r: RecallRequest): set<DeliveryKey> {
    set t | t in s.tokens
            && Targeted(r.targets, r.operator, s.tokens[t].user) && s.tokens[t].pushType == APNs && s.tokens[t].active
      :: MessageRow(-r.message, t)
  }

  predicate OrdinaryRow(k: DeliveryKey, m: MessageId) {
    k.MessageRow? && k.message == m
  }

  function Superseded(d: Delivery): Delivery {
    if Outstanding(d.status)
    then d.(status := Permanent, claim := 0, leaseUntil := 0, nextRetryAt := None, lastError := "message_recalled")
    else d
  }

  function SupersedeRows(ds: map<DeliveryKey, Delivery>, m: MessageId): map<DeliveryKey, Delivery> {
    map k | k in ds :: if OrdinaryRow(k, m) then Superseded(ds[k]) else ds[k]
  }

  predicate JobOfMessage(s: Store, j: JobId, m: MessageId)
    requires j in s.jobs
  {
    s.jobs[j].kind.MessageKind? && exists k :: k in s.deliveries && OrdinaryRow(k, m) && s.deliveries[k].job == j
  }

  function Supersede(s: Store, m: MessageId, now: Time): Store {
    s.(jobs := map j | j in s.jobs :: if JobOfMessage(s, j, m) then Done(s.jobs[j], now) else s.jobs[j],
       deliveries := SupersedeRows(s.deliveries, m))
  }

  /** persistMessageRecallJob. */
  function EnqueueRecall(s: Store, op: OpKey, r: RecallRequest, now: Time): (Store, Reply) {
    if !RecallRequestValid(s, r) then (s, Invalid)
    else if NoRecallTarget(r) then (s, Ignored)
    else if RecallJob(r.message) in s.jobs then (s, Ignored)
    else if OpTaken(s, op) then (s, Conflict)
    else (AddJob(Supersede(s, r.message, now), RecallJob(r.message), op, RecallKind(r.message), RecallRows(s, r), now),
          Enqueued)
  }

  function VoipRows(s: Store, c: VoipCall): set<DeliveryKey> {
    set t | t in s.tokens && s.tokens[t].user == c.callee && s.tokens[t].pushType == VoIP && s.tokens[t].active
            && VoipRow(c.callId, t) !in s.deliveries
      :: VoipRow(c.callId, t)
  }

  predicate VoipRequestValid(c: VoipCall) {
    c.callId != "" && c.caller > 0 && c.callee > 0 && c.caller != c.callee && c.topic != ""
  }

  /** persistVoIPJob and completeVoIPWithoutDelivery; an expired call fans out to nothing. */
  function EnqueueVoip(s: Store, op: OpKey, c: VoipCall, now: Time): (Store, Reply) {
    var rows := if c.expiresAt.None? || c.expiresAt.value <= now then {} else VoipRows(s, c);
    if !VoipRequestValid(c) then (s, Invalid)
    else if OpTaken(s, op) || OpJob(op) in s.jobs || (rows == {} && OpJob(op) in s.results) then (s, Conflict)
    else
      var after := AddJob(s, OpJob(op), op, VoipKind(c), rows, now);
      (if rows == {} then after.(results := after.results[OpJob(op) := false]) else after, Enqueued)
  }

  // ---- claim ----

  datatype Queue = Messages | Calls

  predicate InQueue(q: Queue, k: DeliveryKey) {
    q.Messages? <==> k.MessageRow?
  }

  predicate Due(at: Option<Time>, now: Time) {
    at.None? || at.value <= now
  }

  /** The rows expireExhaustedDeliveries fails. */
  predicate Exhausted(d: Delivery, now: Time, max: nat) {
    && d.attempt >= max
    && ((d.status == Claimed && d.leaseUntil <= now) || (d.status == Retryable && Due(d.nextRetryAt, now)))
  }

  function Expired(d: Delivery): Delivery {
    d.(status := Failed, claim := 0, leaseUntil := 0, nextRetryAt := None, lastError := "delivery_attempts_exhausted")
  }

  function ExpireRows(ds: map<DeliveryKey, Delivery>, q: Queue, now: Time, max: nat): map<DeliveryKey, Delivery> {
    map k | k in ds :: if InQueue(q, k) && Exhausted(ds[k], now, max) then Expired(ds[k]) else ds[k]
  }

  function ExhaustedJobs(ds: map<DeliveryKey, Delivery>, q: Queue, now: Time, max: nat): set<JobId> {
    set k | k in ds && InQueue(q, k) && Exhausted(ds[k], now, max) && ds[k].job != NoJob :: ds[k].job
  }

  /** completeMessageJobIfTerminal and completeVoIPJobIfTerminal for one job of the store. */
  ghost function CompleteIfTerminal(s: Store, j: JobId, now: Time): Store
    requires j in s.jobs
  {
    if HasOutstanding(s.deliveries, j) || s.jobs[j].status == JobCompleted then s
    else s.(jobs := s.jobs[j := Done(s.jobs[j], now)],
            results := if s.jobs[j].kind.VoipKind? && j !in s.results
                       then s.results[j := HasSent(s.deliveries, j)] else s.results)
  }

  /** The jobs of a set that are pending and have nothing outstanding any more. */
  ghost predicate Finishing(s: Store, js: set<JobId>, j: JobId) {
    j in js && j in s.jobs && !HasOutstanding(s.deliveries, j) && s.jobs[j].status == JobPending
  }

  ghost function CompleteAll(s: Store, js: set<JobId>, now: Time): Store {
    s.(jobs := map j | j in s.jobs :: if Finishing(s, js, j) then Done(s.jobs[j], now) else s.jobs[j],
       results := s.results + map j | j in s.jobs && Finishing(s, js, j) && s.jobs[j].kind.VoipKind? && j !in s.results
                                :: HasSent(s.deliveries, j))
  }

  ghost function ExpireExhausted(s: Store, q: Queue, now: Time, max: nat): Store {
    CompleteAll(s.(deliveries := ExpireRows(s.deliveries, q, now, max)), ExhaustedJobs(s.deliveries, q, now, max), now)
  }

  /** The candidate condition of claimMessageDeliverySQL and claimVoIPDeliverySQL. */
  predicate Claimable(s: Store, q: Queue, k: DeliveryKey, now: Time, max: nat) {
    && k in s.deliveries && InQueue(q, k)
    && var d := s.deliveries[k];
       && d.job in s.jobs && s.jobs[d.job].status == JobPending && d.attempt < max
       && (d.status == Pending
           || (d.status == Retryable && Due(d.nextRetryAt, now))
           || (d.status == Claimed && d.leaseUntil <= now))
  }

  function Taken(d: Delivery, token: ClaimToken, leaseUntil: Time): Delivery {
    d.(status := Claimed, attempt := d.attempt + 1, claim := token, leaseUntil := leaseUntil)
  }

  function TakeRows(s: Store, q: Queue, picked: set<DeliveryKey>, token: ClaimToken, now: Time, leaseUntil: Time,
                    max: nat)
    : Store
  {
    s.(deliveries := map k | k in s.deliveries ::
         if k in picked && Claimable(s, q, k, now, max) then Taken(s.deliveries[k], token, leaseUntil)
         else s.deliveries[k])
  }

  /** Without a job to lock for an exhausted row the whole transaction is rolled back. */
  predicate JobsFound(s: Store, q: Queue, now: Time, max: nat) {
    ExhaustedJobs(s.deliveries, q, now, max) <= s.jobs.Keys
  }

  /** claimDeliveryBatch; `picked` is whatever the ordered, limited, lock-skipping scan returned. */
  ghost function Claim(s: Store, q: Queue, picked: set<DeliveryKey>, token: ClaimToken, now: Time, lease: Time,
                       max: nat)
    : Store
  {
    if JobsFound(s, q, now, max)
    then TakeRows(ExpireExhausted(s, q, now, max), q, picked, token, now, now + lease, max)
    else s
  }

  // ---- finalize ----

  datatype Verdict = Finalized | Fenced | Refused

  datatype Update = Update(job: JobId, key: DeliveryKey, attempt: nat, claim: ClaimToken, status: Status,
                           nextRetryAt: Option<Time>, lastError: string, deactivate: bool)

  predicate Owned(s: Store, u: Update) {
    && u.job in s.jobs && u.key in s.deliveries
    && s.deliveries[u.key].job == u.job && s.deliveries[u.key].status == Claimed
    && s.deliveries[u.key].claim == u.claim && s.deliveries[u.key].attempt == u.attempt
  }

  function Settled(d: Delivery, u: Update): Delivery {
    d.(status := u.status, claim := 0, leaseUntil := 0, nextRetryAt := u.nextRetryAt, lastError := u.lastError)
  }

  function SettleRow(s: Store, u: Update): Store
    requires u.key in s.deliveries
  {
    s.(deliveries := s.deliveries[u.key := Settled(s.deliveries[u.key], u)],
       tokens := if u.deactivate && u.key.token in s.tokens
                 then s.tokens[u.key.token := s.tokens[u.key.token].(active := false)] else s.tokens)
  }

  /** FinalizeMessageDelivery and FinalizeVoIPDelivery. */
  ghost function Finalize(s: Store, u: Update, now: Time): (Store, Verdict) {
    if u.job == NoJob || u.attempt == 0 || u.claim == 0 || u.key.token <= 0
       || (if u.key.MessageRow? then u.key.message == 0 else u.key.callId == "") then (s, Refused)
    else if !Owned(s, u) then (s, Fenced)
    else (CompleteIfTerminal(SettleRow(s, u), u.job, now), Finalized)
  }

  // ---- what a worker reports ----

  datatype SendOutcome = Accepted | TokenInvalid(why: string) | Rejected(why: string) | Transient(why: string)
                       | Unpreparable(why: string) | PreparationFailed(why: string)

  /** sendDurableDelivery and retryableDeliveryUpdate for a claim of row `key`; `retryAt` is now plus the retry
      delay. */
  function WorkerUpdate(job: JobId, key: DeliveryKey, attempt: nat, claim: ClaimToken, o: SendOutcome, max: nat,
                        retryAt: Time)
    : (u: Update)
    ensures u.job == job && u.key == key && u.attempt == attempt && u.claim == claim
    ensures u.status == Retryable <==> (o.PreparationFailed? || o.Transient?) && attempt < max
    ensures u.status == Sent <==> o.Accepted?
    ensures u.status == Permanent <==> o.TokenInvalid? || o.Rejected? || o.Unpreparable?
    ensures u.status == Failed <==> (o.PreparationFailed? || o.Transient?) && attempt >= max
    ensures u.nextRetryAt == (if u.status == Retryable then Some(retryAt) else None)
    ensures u.lastError == "" <==> o.Accepted? || o.why == ""
    ensures !o.Accepted? ==> u.lastError == o.why
    ensures u.deactivate <==> o.TokenInvalid?
    ensures u.status !in {Pending, Claimed}
  {
    match o
    case Accepted => Update(job, key, attempt, claim, Sent, None, "", false)
    case TokenInvalid(why) => Update(job, key, attempt, claim, Permanent, None, why, true)
    case Rejected(why) => Update(job, key, attempt, claim, Permanent, None, why, false)
    case Unpreparable(why) => Update(job, key, attempt, claim, Permanent, None, why, false)
    case _ =>
      if attempt >= max then Update(job, key, attempt, claim, Failed, None, o.why, false)
      else Update(job, key, attempt, claim, Retryable, Some(retryAt), o.why, false)
  }

  // ---- recall of a message, and garbage collection ----

  /** RecallMessageWithDB, successful branch only: the sender, once, inside the window. */
  function MarkRecalled(s: Store, operator: UserId, m: MessageId, now: Time): Store {
    if operator > 0 && m > 0 && m in s.messages && s.messages[m].sender == operator && s.messages[m].recall.None?
       && now - s.messages[m].sentAt <= RECALL_WINDOW
    then s.(messages := s.messages[m := s.messages[m].(recall := Some(Recall(operator, now)))])
    else s
  }

  predicate Collectable(s: Store, j: JobId, cutoff: Time) {
    j in s.jobs && s.jobs[j].status == JobCompleted && s.jobs[j].completedAt < cutoff
  }

  /** The first two statements of CleanupCompletedDeliveries; `picked` is the limited scan's answer. */
  function CollectRows(s: Store, picked: set<DeliveryKey>, cutoff: Time): Store {
    s.(deliveries := map k | k in s.deliveries && !(k in picked && Collectable(s, s.deliveries[k].job, cutoff)) ::
         s.deliveries[k])
  }

  predicate Referenced(ds: map<DeliveryKey, Delivery>, j: JobId) {
    exists k :: k in ds && ds[k].job == j
  }

  /** Its third statement: completed jobs that no delivery refers to. */
  function CollectJobs(s: Store, picked: set<JobId>, cutoff: Time): Store {
    s.(jobs := map j | j in s.jobs && !(j in picked && Collectable(s, j, cutoff) && !Referenced(s.deliveries, j)) ::
         s.jobs[j])
  }
}
