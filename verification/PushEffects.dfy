/** Who gets a delivery, and what each transaction of durable push does to the rows, in terms of the rows themselves. */
module PushEffects {
  import opened Common
  import opened PushStore

  // ---- fan-out ----

  /** A new delivery that nobody has claimed. */
  predicate NewRow(ds: map<DeliveryKey, Delivery>, k: DeliveryKey, j: JobId) {
    k in ds && ds[k] == Delivery(j, Pending, 0, 0, 0, None, "")
  }

  predicate ActiveToken(s: Store, t: TokenId, kind: PushType) {
    t in s.tokens && s.tokens[t].active && s.tokens[t].pushType == kind
  }

  /** The job stands beside its deliveries: pending if there is one, and completed at once otherwise. */
  predicate JobAdded(s: Store, after: Store, j: JobId, op: OpKey, kind: Kind, some: bool, now: Time) {
    && j !in s.jobs && after.jobs.Keys == s.jobs.Keys + {j}
    && after.jobs[j] == Job(op, kind, if some then JobPending else JobCompleted, now)
    && forall i | i in s.jobs :: after.jobs[i] == s.jobs[i]
  }

  /** A user is to hear of a message: not its sender, and not one who muted a sender who writes directly. */
  predicate Hears(s: Store, r: MessageRequest, u: UserId) {
    && u in r.targets && u > 0 && u != r.sender
    && (r.isGroup || (u, r.sender) !in s.muted)
  }

  lemma MessageReply(s: Store, op: OpKey, r: MessageRequest, now: Time)
    ensures var (after, reply) := EnqueueMessage(s, op, r, now);
            var named := r.message > 0 && r.sender > 0 && r.conversation > 0 && r.targets != {}
              && r.message in s.messages;
            var meant := named && s.messages[r.message].sender == r.sender && s.messages[r.message].isGroup == r.isGroup
                         && (r.isGroup ==> r.conversation == s.messages[r.message].target)
                         && (!r.isGroup ==> r.conversation == r.sender);
            var taken := OpJob(op) in s.jobs || exists j :: j in s.jobs && s.jobs[j].op == op;
            && (reply == Invalid <==> !meant)
            && (reply == Ignored <==> meant && s.messages[r.message].recall.Some?)
            && (reply == Conflict <==> meant && s.messages[r.message].recall.None? && taken)
            && (reply == Enqueued <==> meant && s.messages[r.message].recall.None? && !taken)
            && (reply != Enqueued ==> after == s)
  {
    hide AddJob;
  }

  /** The active APNs tokens of the users who are to hear of the message and have no delivery of it yet. */
  function MessageTokens(s: Store, r: MessageRequest): set<TokenId> {
    set t | t in s.tokens && ActiveToken(s, t, APNs) && Hears(s, r, s.tokens[t].user)
            && MessageRow(r.message, t) !in s.deliveries
  }

  predicate OrdinaryRowOf(k: DeliveryKey, m: MessageId, ts: set<TokenId>) {
    k.MessageRow? && k.message == m && k.token in ts
  }

  lemma MessageRowsAre(s: Store, r: MessageRequest)
    ensures forall k :: k in MessageRows(s, r) <==> OrdinaryRowOf(k, r.message, MessageTokens(s, r))
    ensures MessageRows(s, r) == {} <==> MessageTokens(s, r) == {}
  {
    var rows, ts := MessageRows(s, r), MessageTokens(s, r);
    if t :| t in ts {
      assert MessageRow(r.message, t) in rows;
    }
    if k :| k in rows {
      assert k.token in ts;
    }
  }

  /** A message job adds a delivery for exactly these tokens; every other row stays. */
  lemma MessageReaches(s: Store, op: OpKey, r: MessageRequest, now: Time)
    requires EnqueueMessage(s, op, r, now).1 == Enqueued
    ensures var after, j, reached := EnqueueMessage(s, op, r, now).0, OpJob(op), MessageTokens(s, r);
            && (forall t | t in reached :: NewRow(after.deliveries, MessageRow(r.message, t), j))
            && (forall k :: k in after.deliveries <==> k in s.deliveries || OrdinaryRowOf(k, r.message, reached))
            && (forall k | k in s.deliveries :: after.deliveries[k] == s.deliveries[k])
            && JobAdded(s, after, j, op, MessageKind(r.message), reached != {}, now)
            && after == s.(jobs := after.jobs, deliveries := after.deliveries)
  {
    MessageRowsAre(s, r);
    AddsRows(s, OpJob(op), op, MessageKind(r.message), MessageRows(s, r), now);
    forall k | k in s.deliveries ensures !OrdinaryRowOf(k, r.message, MessageTokens(s, r)) {
    }
    forall t | t in MessageTokens(s, r) ensures MessageRow(r.message, t) in MessageRows(s, r) {
      assert OrdinaryRowOf(MessageRow(r.message, t), r.message, MessageTokens(s, r));
    }
    hide MessageRows, MessageTokens, AddJob, OpTaken, MessageRequestValid;
  }

  lemma RecallReply(s: Store, op: OpKey, r: RecallRequest, now: Time)
    ensures var (after, reply) := EnqueueRecall(s, op, r, now);
            var named := r.message > 0 && r.conversation > 0 && r.operator > 0 && r.targets != {}
              && r.message in s.messages;
            var meant := named && s.messages[r.message].recall == Some(Recall(r.operator, r.recalledAt))
                         && s.messages[r.message].isGroup == r.isGroup
                         && (r.isGroup ==> r.conversation == s.messages[r.message].target)
                         && (!r.isGroup ==> r.conversation == s.messages[r.message].sender);
            var due := (exists u :: u in r.targets && u > 0 && u != r.operator) && RecallJob(r.message) !in s.jobs;
            var taken := exists j :: j in s.jobs && s.jobs[j].op == op;
            && (reply == Invalid <==> !meant)
            && (reply == Ignored <==> meant && !due)
            && (reply == Conflict <==> meant && due && taken)
            && (reply == Enqueued <==> meant && due && !taken)
            && (reply != Enqueued ==> after == s)
  {
    hide AddJob, Supersede;
  }

  /** The active APNs tokens of the targets other than the operator. */
  function RecallTokens(s: Store, r: RecallRequest): set<TokenId> {
    set t | t in s.tokens && ActiveToken(s, t, APNs) && s.tokens[t].user in r.targets && s.tokens[t].user > 0
            && s.tokens[t].user != r.operator
  }

  predicate RecallRow(k: DeliveryKey, m: MessageId, ts: set<TokenId>) {
    k.MessageRow? && k.message == -m && k.token in ts
  }

  lemma RecallRowsAre(s: Store, r: RecallRequest)
    ensures forall k :: k in RecallRows(s, r) <==> RecallRow(k, r.message, RecallTokens(s, r))
    ensures RecallRows(s, r) == {} <==> RecallTokens(s, r) == {}
  {
    var rows, ts := RecallRows(s, r), RecallTokens(s, r);
    if t :| t in ts {
      assert MessageRow(-r.message, t) in rows;
    }
    if k :| k in rows {
      assert k.token in ts;
    }
  }

  lemma AddsRows(s: Store, j: JobId, op: OpKey, kind: Kind, rows: set<DeliveryKey>, now: Time)
    ensures var after := AddJob(s, j, op, kind, rows, now);
            && after == s.(jobs := after.jobs, deliveries := after.deliveries)
            && (forall k :: k in after.deliveries <==> k in s.deliveries || k in rows)
            && (forall k | k in rows :: NewRow(after.deliveries, k, j))
            && (forall k | k in s.deliveries && k !in rows :: after.deliveries[k] == s.deliveries[k])
            && after.jobs == s.jobs[j := Job(op, kind, if rows == {} then JobCompleted else JobPending, now)]
  {
  }

  /** A recall job adds a delivery, filed under the negated message, for exactly these tokens, replacing one that is
      there, and supersedes the outstanding deliveries of the message. */
  lemma RecallReaches(s: Store, op: OpKey, r: RecallRequest, now: Time)
    requires EnqueueRecall(s, op, r, now).1 == Enqueued
    ensures var after, j, reached := EnqueueRecall(s, op, r, now).0, RecallJob(r.message), RecallTokens(s, r);
            && (forall t | t in reached :: NewRow(after.deliveries, MessageRow(-r.message, t), j))
            && (forall k :: k in after.deliveries <==> k in s.deliveries || RecallRow(k, r.message, reached))
            && (forall k | k in s.deliveries && !RecallRow(k, r.message, reached) ::
                  RowSuperseded(s.deliveries[k], after.deliveries[k], k.MessageRow? && k.message == r.message))
            && after == s.(jobs := after.jobs, deliveries := after.deliveries)
            && after.jobs.Keys == s.jobs.Keys + {j}
            && after.jobs[j] == Job(op, RecallKind(r.message), if reached == {} then JobCompleted else JobPending, now)
            && (forall i | i in s.jobs ::
                  after.jobs[i] == if OrdinaryJob(s, i, r.message)
                    then Job(s.jobs[i].op, s.jobs[i].kind, JobCompleted, now)
                    else s.jobs[i])
  {
    hide OpTaken, RecallRequestValid, NoRecallTarget, RecallRows, RecallTokens, Supersede, AddJob, NewRow, OrdinaryJob,
         RowSuperseded;
    RecallRowsAre(s, r);
    Supersedes(s, r.message, now);
    AddsRows(Supersede(s, r.message, now), RecallJob(r.message), op, RecallKind(r.message), RecallRows(s, r), now);
    assert RecallJob(r.message) !in s.jobs;
  }

  /** A row of a recalled message ends if it is outstanding. */
  predicate RowSuperseded(d: Delivery, after: Delivery, ofMessage: bool) {
    after == if ofMessage && d.status in {Pending, Claimed, Retryable}
             then Delivery(d.job, Permanent, d.attempt, 0, 0, None, "message_recalled") else d
  }

  /** A message job that owns a delivery of the message. */
  predicate OrdinaryJob(s: Store, j: JobId, m: MessageId) {
    && j in s.jobs && s.jobs[j].kind.MessageKind?
    && exists k :: k in s.deliveries && k.MessageRow? && k.message == m && s.deliveries[k].job == j
  }

  lemma Supersedes(s: Store, m: MessageId, now: Time)
    ensures var after := Supersede(s, m, now);
            && after == s.(jobs := after.jobs, deliveries := after.deliveries)
            && after.deliveries.Keys == s.deliveries.Keys && after.jobs.Keys == s.jobs.Keys
            && (forall k | k in s.deliveries ::
                  RowSuperseded(s.deliveries[k], after.deliveries[k], k.MessageRow? && k.message == m))
            && (forall i | i in s.jobs ::
                  after.jobs[i] == if OrdinaryJob(s, i, m) then Job(s.jobs[i].op, s.jobs[i].kind, JobCompleted, now)
                    else s.jobs[i])
  {
    forall i | i in s.jobs ensures JobOfMessage(s, i, m) <==> OrdinaryJob(s, i, m) {
    }
  }

  /** The active VoIP tokens of the callee without a delivery of the call, while the call has not expired. */
  function CallTokens(s: Store, c: VoipCall, now: Time): set<TokenId> {
    set t | t in s.tokens && ActiveToken(s, t, VoIP) && s.tokens[t].user == c.callee
            && VoipRow(c.callId, t) !in s.deliveries && c.expiresAt.Some? && now < c.expiresAt.value
  }

  predicate CallRow(k: DeliveryKey, c: VoipCall, ts: set<TokenId>) {
    k.VoipRow? && k.callId == c.callId && k.token in ts
  }

  lemma VoipRowsAre(s: Store, c: VoipCall, now: Time)
    ensures var rows := if c.expiresAt.None? || c.expiresAt.value <= now then {} else VoipRows(s, c);
            && (forall k :: k in rows <==> CallRow(k, c, CallTokens(s, c, now)))
            && (rows == {} <==> CallTokens(s, c, now) == {})
  {
    var rows, ts := if c.expiresAt.None? || c.expiresAt.value <= now then {} else VoipRows(s, c), CallTokens(s, c, now);
    if t :| t in ts {
      assert VoipRow(c.callId, t) in rows;
    }
    if k :| k in rows {
      assert k.token in ts;
    }
  }

  lemma CallReply(s: Store, op: OpKey, c: VoipCall, now: Time)
    ensures var (after, reply) := EnqueueVoip(s, op, c, now);
            var meant := c.callId != "" && c.caller > 0 && c.callee > 0 && c.caller != c.callee && c.topic != "";
            var taken := OpJob(op) in s.jobs || (exists i :: i in s.jobs && s.jobs[i].op == op)
                         || (CallTokens(s, c, now) == {} && OpJob(op) in s.results);
            && (reply == Invalid <==> !meant)
            && (reply == Conflict <==> meant && taken)
            && (reply == Enqueued <==> meant && !taken)
            && (reply != Enqueued ==> after == s)
  {
    VoipRowsAre(s, c, now);
    hide VoipRows, CallTokens, AddJob;
  }

  /** A call job adds a delivery for exactly these tokens; without any it is completed with a negative result. */
  lemma CallReaches(s: Store, op: OpKey, c: VoipCall, now: Time)
    requires EnqueueVoip(s, op, c, now).1 == Enqueued
    ensures var after, j, reached := EnqueueVoip(s, op, c, now).0, OpJob(op), CallTokens(s, c, now);
            && (forall t | t in reached :: NewRow(after.deliveries, VoipRow(c.callId, t), j))
            && (forall k :: k in after.deliveries <==> k in s.deliveries || CallRow(k, c, reached))
            && (forall k | k in s.deliveries :: after.deliveries[k] == s.deliveries[k])
            && JobAdded(s, after, j, op, VoipKind(c), reached != {}, now)
            && after.results == (if reached == {} then s.results[j := false] else s.results)
            && after == s.(jobs := after.jobs, deliveries := after.deliveries, results := after.results)
  {
    hide OpTaken, VoipRequestValid, CallTokens, AddJob, NewRow;
    VoipRowsAre(s, c, now);
    var rows := if c.expiresAt.None? || c.expiresAt.value <= now then {} else VoipRows(s, c);
    AddsRows(s, OpJob(op), op, VoipKind(c), rows, now);
    forall k | k in s.deliveries ensures k !in rows {
      OldRow(s, c, k, now);
    }
    forall t | t in CallTokens(s, c, now) ensures VoipRow(c.callId, t) in rows {
      assert CallRow(VoipRow(c.callId, t), c, CallTokens(s, c, now));
    }
    hide VoipRows;
  }

  lemma OldRow(s: Store, c: VoipCall, k: DeliveryKey, now: Time)
    requires k in s.deliveries
    ensures !CallRow(k, c, CallTokens(s, c, now))
  {
  }

  // ---- claiming, reporting, collecting ----

  /** A job none of whose deliveries is pending, claimed or retryable. */
  ghost predicate Idle(ds: map<DeliveryKey, Delivery>, j: JobId) {
    forall k | k in ds && ds[k].job == j :: ds[k].status.Sent? || ds[k].status.Permanent? || ds[k].status.Failed?
  }

  /** The jobs that a change of rows touched complete when they are idle; a call job then gets its result, which says
      whether one of its deliveries was sent. */
  ghost predicate JobsFollow(s: Store, after: Store, touched: set<JobId>, now: Time) {
    && after.jobs.Keys == s.jobs.Keys
    && (forall j | j in s.jobs ::
          after.jobs[j] == if j in touched && Idle(after.deliveries, j) && s.jobs[j].status == JobPending
                           then Job(s.jobs[j].op, s.jobs[j].kind, JobCompleted, now) else s.jobs[j])
    && (forall j :: j in after.results <==>
          j in s.results || (j in s.jobs && s.jobs[j].kind.VoipKind? && after.jobs[j] != s.jobs[j]))
    && (forall j | j in s.results :: after.results[j] == s.results[j])
    && (forall j | j in after.results && j !in s.results ::
          after.results[j] <==> exists k :: k in after.deliveries && after.deliveries[k].job == j
                                            && after.deliveries[k].status == Sent)
  }

  lemma IdleIff(ds: map<DeliveryKey, Delivery>, j: JobId)
    ensures Idle(ds, j) <==> !HasOutstanding(ds, j)
  {
    if HasOutstanding(ds, j) {
      var k :| k in ds && Owes(ds[k], j);
    } else {
      forall k | k in ds && ds[k].job == j ensures !Outstanding(ds[k].status) {
        assert !Owes(ds[k], j);
      }
    }
  }

  /** The jobs of the rows that a claim fails. */
  function FailedJobs(s: Store, after: Store): set<JobId> {
    set k | k in s.deliveries && k in after.deliveries && s.deliveries[k].status != Failed
            && after.deliveries[k].status == Failed && s.deliveries[k].job != NoJob :: s.deliveries[k].job
  }

  /** First a claim fails each row of the queue whose attempts are used up and whose lease or delay has run out. */
  lemma ExpireDoes(s: Store, q: Queue, now: Time, max: nat)
    ensures var after := ExpireExhausted(s, q, now, max);
            && after == s.(jobs := after.jobs, deliveries := after.deliveries, results := after.results)
            && after.deliveries.Keys == s.deliveries.Keys
            && forall k | k in s.deliveries ::
                 var d := s.deliveries[k];
                 after.deliveries[k]
                 == if OverIn(q, k, d, now) && d.attempt >= max
                    then Delivery(d.job, Failed, d.attempt, 0, 0, None, "delivery_attempts_exhausted") else d
  {
    hide HasOutstanding, HasSent;
  }

  /** Then it completes their jobs. */
  lemma ExpireCompletes(s: Store, q: Queue, now: Time, max: nat)
    ensures var after := ExpireExhausted(s, q, now, max); JobsFollow(s, after, FailedJobs(s, after), now)
  {
    hide FailedJobs, ExhaustedJobs, ExpireRows, JobsFollow;
    FailedAreExhausted(s, q, now, max);
    AllFollow(s, ExpireRows(s.deliveries, q, now, max), ExhaustedJobs(s.deliveries, q, now, max), now);
  }

  lemma AllFollow(s: Store, rows: map<DeliveryKey, Delivery>, touched: set<JobId>, now: Time)
    ensures JobsFollow(s, CompleteAll(s.(deliveries := rows), touched, now), touched, now)
  {
    hide HasOutstanding, HasSent, Idle;
    forall j ensures Idle(rows, j) <==> !HasOutstanding(rows, j) {
      IdleIff(rows, j);
    }
    SentIs(rows);
  }

  lemma SentIs(ds: map<DeliveryKey, Delivery>)
    ensures forall j :: HasSent(ds, j) <==> exists k :: k in ds && ds[k].job == j && ds[k].status == Sent
  {
  }

  /** The lease or delay of the row has run out. */
  predicate OverIn(q: Queue, k: DeliveryKey, d: Delivery, now: Time) {
    && q == (if k.MessageRow? then Messages else Calls)
    && ((d.status == Claimed && d.leaseUntil <= now)
        || (d.status == Retryable && (d.nextRetryAt == None || d.nextRetryAt.value <= now)))
  }

  lemma FailedAreExhausted(s: Store, q: Queue, now: Time, max: nat)
    ensures FailedJobs(s, ExpireExhausted(s, q, now, max)) == ExhaustedJobs(s.deliveries, q, now, max)
  {
    hide HasOutstanding, HasSent;
  }

  /** Then it takes each picked row of a pending job that is free and has attempts left. */
  lemma TakeDoes(s: Store, q: Queue, picked: set<DeliveryKey>, token: ClaimToken, now: Time, until: Time, max: nat)
    ensures var after := TakeRows(s, q, picked, token, now, until, max);
            && after == s.(deliveries := after.deliveries) && after.deliveries.Keys == s.deliveries.Keys
            && forall k | k in s.deliveries ::
                 var d := s.deliveries[k];
                 after.deliveries[k]
                 == if k in picked && d.attempt < max && d.job in s.jobs && s.jobs[d.job].status == JobPending
                       && (OverIn(q, k, d, now)
                           || (q == (if k.MessageRow? then Messages else Calls) && d.status == Pending))
                    then Delivery(d.job, Claimed, d.attempt + 1, token, until, d.nextRetryAt, d.lastError) else d
  {
  }

  lemma ClaimDoes(s: Store, q: Queue, picked: set<DeliveryKey>, token: ClaimToken, now: Time, lease: Time, max: nat)
    ensures var found := forall k | k in s.deliveries && OverIn(q, k, s.deliveries[k], now) ::
                           s.deliveries[k].attempt >= max ==>
                             s.deliveries[k].job == NoJob || s.deliveries[k].job in s.jobs;
            Claim(s, q, picked, token, now, lease, max)
            == if found then TakeRows(ExpireExhausted(s, q, now, max), q, picked, token, now, now + lease, max) else s
  {
    hide TakeRows, ExpireExhausted;
    var found := forall k | k in s.deliveries && OverIn(q, k, s.deliveries[k], now) ::
      s.deliveries[k].attempt >= max ==> s.deliveries[k].job == NoJob || s.deliveries[k].job in s.jobs;
    if !found {
      var k :| k in s.deliveries && OverIn(q, k, s.deliveries[k], now) && s.deliveries[k].attempt >= max
               && s.deliveries[k].job != NoJob && s.deliveries[k].job !in s.jobs;
      assert s.deliveries[k].job in ExhaustedJobs(s.deliveries, q, now, max);
    }
  }

  /** A report names a row and a claim of it. */
  predicate Named(u: Update) {
    && u.job != NoJob && u.attempt > 0 && u.claim > 0 && u.key.token > 0
    && (u.key.MessageRow? ==> u.key.message != 0) && (u.key.VoipRow? ==> u.key.callId != "")
  }

  /** The row is still claimed under the job, token and attempt of the report. */
  predicate Held(s: Store, u: Update) {
    && u.job in s.jobs && u.key in s.deliveries && s.deliveries[u.key].job == u.job
    && s.deliveries[u.key].status == Claimed && s.deliveries[u.key].claim == u.claim
    && s.deliveries[u.key].attempt == u.attempt
  }

  /** A report is recorded exactly under the claim it names. */
  lemma FinalizeReply(s: Store, u: Update, now: Time)
    ensures var (after, verdict) := Finalize(s, u, now);
            && (verdict == Refused <==> !Named(u)) && (verdict == Fenced <==> Named(u) && !Held(s, u))
            && (verdict == Finalized <==> Named(u) && Held(s, u))
            && (verdict != Finalized ==> after == s)
  {
    hide CompleteIfTerminal, SettleRow;
  }

  lemma FinalizeDoes(s: Store, u: Update, now: Time)
    requires Finalize(s, u, now).1 == Finalized
    ensures var after := Finalize(s, u, now).0;
            && u.key in s.deliveries
            && after.deliveries
               == s.deliveries[u.key := Delivery(u.job, u.status, u.attempt, 0, 0, u.nextRetryAt, u.lastError)]
            && JobsFollow(s, after, {u.job}, now)
            && after.tokens.Keys == s.tokens.Keys
            && (forall t | t in s.tokens ::
                  after.tokens[t] == if u.deactivate && t == u.key.token
                                     then DeviceToken(s.tokens[t].user, s.tokens[t].pushType, false)
                                     else s.tokens[t])
            && after.messages == s.messages && after.muted == s.muted
  {
    hide JobsFollow, HasOutstanding, HasSent;
    OneFollows(s, SettleRow(s, u), u.job, now);
  }

  lemma OneFollows(s: Store, settled: Store, j: JobId, now: Time)
    requires j in s.jobs && settled == s.(deliveries := settled.deliveries, tokens := settled.tokens)
    ensures JobsFollow(s, CompleteIfTerminal(settled, j, now), {j}, now)
  {
    IdleIff(settled.deliveries, j);
    hide HasOutstanding, Idle;
  }

  /** Collection removes picked rows of jobs completed before the cutoff, and picked jobs of that age without rows. */
  lemma CollectDoes(s: Store, rows: set<DeliveryKey>, js: set<JobId>, cutoff: Time)
    ensures var mid, after := CollectRows(s, rows, cutoff), CollectJobs(s, js, cutoff);
            && (forall k :: k in mid.deliveries <==>
                  k in s.deliveries && !(k in rows && s.deliveries[k].job in s.jobs
                                         && s.jobs[s.deliveries[k].job].status == JobCompleted
                                         && s.jobs[s.deliveries[k].job].completedAt < cutoff))
            && (forall k | k in mid.deliveries :: mid.deliveries[k] == s.deliveries[k])
            && mid == s.(deliveries := mid.deliveries)
            && (forall j :: j in after.jobs <==>
                  j in s.jobs && !(j in js && s.jobs[j].status == JobCompleted && s.jobs[j].completedAt < cutoff
                                   && forall k | k in s.deliveries :: s.deliveries[k].job != j))
            && (forall j | j in after.jobs :: after.jobs[j] == s.jobs[j])
            && after == s.(jobs := after.jobs)
  {
  }

  /** A message becomes recalled exactly by its sender, once, and at most two minutes after it was sent. */
  lemma RecallMarks(s: Store, operator: UserId, m: MessageId, now: Time)
    ensures var after := MarkRecalled(s, operator, m, now);
            if operator > 0 && m > 0 && (exists to, group, at :: m in s.messages && now <= at + 2 * 60 * 1_000_000
                                                             && s.messages[m] == Message(operator, to, group, at, None))
            then m in after.messages && after.messages[m] == s.messages[m].(recall := Some(Recall(operator, now)))
                 && after == s.(messages := s.messages[m := after.messages[m]])
            else after == s
  {
    if m in s.messages {
      var Message(from, to, group, at, recall) := s.messages[m];
      assert s.messages[m] == Message(from, to, group, at, recall);
    }
  }
}
