/** The push tables changed in place, statement by statement, each transaction proved to be the function of
    PushStore. */
module PushTables {
  import opened Common
  import opened PushStore

  class GormStore {
    var jobs: map<JobId, Job>
    var deliveries: map<DeliveryKey, Delivery>
    var tokens: map<TokenId, DeviceToken>
    var messages: map<MessageId, Message>
    var muted: set<(UserId, UserId)>
    var results: map<JobId, bool>

    ghost function Value(): Store
      reads this
    {
      Store(jobs, deliveries, tokens, messages, muted, results)
    }

    constructor ()
      ensures Value() == EMPTY
    {
      jobs, deliveries, tokens, messages, muted, results := map[], map[], map[], map[], {}, map[];
    }

    method CompleteJob(j: JobId, now: Time)
      requires j in jobs
      modifies this`jobs
      ensures jobs == old(jobs)[j := PushStore.Done(old(jobs)[j], now)]
    {
      jobs := jobs[j := jobs[j].(status := JobCompleted, completedAt := now)];
    }

    method InsertJob(j: JobId, op: OpKey, kind: Kind, rows: set<DeliveryKey>, now: Time)
      modifies this`jobs, this`deliveries
      ensures Value() == AddJob(old(Value()), j, op, kind, rows, now)
    {
      jobs := jobs[j := Job(op, kind, JobPending, now)];
      deliveries := deliveries + map k | k in rows :: Fresh(j);
      if rows == {} {
        CompleteJob(j, now);
      }
    }

    method PersistMessageJob(op: OpKey, r: MessageRequest, now: Time) returns (reply: Reply)
      modifies this
      ensures (Value(), reply) == EnqueueMessage(old(Value()), op, r, now)
    {
      var snapshot := Store(jobs, deliveries, tokens, messages, muted, results);
      if !MessageRequestValid(snapshot, r) {
        return Invalid;
      }
      if messages[r.message].recall.Some? {
        return Ignored;
      }
      if OpTaken(snapshot, op) || OpJob(op) in jobs {
        return Conflict;
      }
      InsertJob(OpJob(op), op, MessageKind(r.message), MessageRows(snapshot, r), now);
      return Enqueued;
    }

    method PersistMessageRecallJob(op: OpKey, r: RecallRequest, now: Time) returns (reply: Reply)
      modifies this
      ensures (Value(), reply) == EnqueueRecall(old(Value()), op, r, now)
    {
      var snapshot := Store(jobs, deliveries, tokens, messages, muted, results);
      if !RecallRequestValid(snapshot, r) {
        return Invalid;
      }
      if NoRecallTarget(r) {
        return Ignored;
      }
      if RecallJob(r.message) in jobs {
        return Ignored;
      }
      if OpTaken(snapshot, op) {
        return Conflict;
      }
      SupersedeMessage(r.message, now);
      InsertJob(RecallJob(r.message), op, RecallKind(r.message), RecallRows(snapshot, r), now);
      return Enqueued;
    }

    /** First the rows, then the jobs found through them. */
    method SupersedeMessage(m: MessageId, now: Time)
      modifies this`jobs, this`deliveries
      ensures Value() == Supersede(old(Value()), m, now)
    {
      deliveries := SupersedeRows(deliveries, m);
      ghost var was := jobs;
      var owners := set k | k in deliveries && OrdinaryRow(k, m) && deliveries[k].job in jobs
                            && jobs[deliveries[k].job].kind.MessageKind? :: deliveries[k].job;
      jobs := map j | j in jobs :: if j in owners then PushStore.Done(jobs[j], now) else jobs[j];
      forall j | j in was ensures j in owners <==> JobOfMessage(old(Value()), j, m) {
        if j in owners {
          var k :| k in deliveries && OrdinaryRow(k, m) && deliveries[k].job == j;
          assert k in old(deliveries) && old(deliveries)[k].job == j;
        }
        if k :| k in old(deliveries) && OrdinaryRow(k, m) && old(deliveries)[k].job == j && was[j].kind.MessageKind? {
          assert k in deliveries && deliveries[k].job == j;
        }
      }
    }

    method PersistVoIPJob(op: OpKey, c: VoipCall, now: Time) returns (reply: Reply)
      modifies this
      ensures (Value(), reply) == EnqueueVoip(old(Value()), op, c, now)
    {
      var snapshot := Store(jobs, deliveries, tokens, messages, muted, results);
      if !VoipRequestValid(c) {
        return Invalid;
      }
      if OpTaken(snapshot, op) || OpJob(op) in jobs {
        return Conflict;
      }
      var rows := {};
      if c.expiresAt.Some? && c.expiresAt.value > now {
        rows := VoipRows(snapshot, c);
      }
      if rows == {} && OpJob(op) in results {
        return Conflict;
      }
      InsertJob(OpJob(op), op, VoipKind(c), rows, now);
      if rows == {} {
        results := results[OpJob(op) := false];
      }
      return Enqueued;
    }

    /** completeMessageJobIfTerminalLocked and completeVoIPJobIfTerminalLocked: count, then write the result event and
        the status. */
    method CompleteJobIfTerminal(j: JobId, now: Time)
      requires j in jobs
      modifies this`jobs, this`results
      ensures Value() == CompleteIfTerminal(old(Value()), j, now)
    {
      var outstanding := set k | k in deliveries && Owes(deliveries[k], j);
      if k :| k in outstanding {
        assert Owes(deliveries[k], j);
        return;
      }
      assert !HasOutstanding(deliveries, j) by {
        forall k | k in deliveries ensures !Owes(deliveries[k], j) {
          assert k !in outstanding;
        }
      }
      if jobs[j].status == JobCompleted {
        return;
      }
      if jobs[j].kind.VoipKind? {
        var sent := set k | k in deliveries && deliveries[k].job == j && deliveries[k].status == Sent;
        assert sent != {} <==> HasSent(deliveries, j) by {
          if k :| k in deliveries && deliveries[k].job == j && deliveries[k].status == Sent {
            assert k in sent;
          }
          if k :| k in sent {
            assert HasSent(deliveries, j);
          }
        }
        if j !in results {
          results := results[j := sent != {}];
        }
      }
      CompleteJob(j, now);
    }

    /** The claim transaction: fail exhausted rows, complete the jobs that emptied one by one, then take rows; a job
        that is missing rolls everything back. */
    method ClaimDeliveryBatch(q: Queue, picked: set<DeliveryKey>, token: ClaimToken, now: Time, lease: Time, max: nat)
      returns (committed: bool)
      modifies this
      ensures Value() == Claim(old(Value()), q, picked, token, now, lease, max)
      ensures committed <==> JobsFound(old(Value()), q, now, max)
    {
      var before := Store(jobs, deliveries, tokens, messages, muted, results);
      var todo := ExhaustedJobs(deliveries, q, now, max);
      deliveries := ExpireRows(deliveries, q, now, max);
      ghost var expired := Value();
      ghost var done: set<JobId> := {};
      CompleteNone(expired, now);
      while todo != {}
        invariant todo + done == ExhaustedJobs(before.deliveries, q, now, max)
        invariant done <= before.jobs.Keys && jobs.Keys == before.jobs.Keys
        invariant Value() == CompleteAll(expired, done, now)
        decreases todo
      {
        var j :| j in todo;
        if j !in jobs {
          jobs, deliveries, results := before.jobs, before.deliveries, before.results;
          return false;
        }
        CompleteAllStep(expired, done, j, now);
        CompleteJobIfTerminal(j, now);
        done, todo := done + {j}, todo - {j};
      }
      assert done == ExhaustedJobs(before.deliveries, q, now, max);
      var snapshot := Store(jobs, deliveries, tokens, messages, muted, results);
      deliveries := TakeRows(snapshot, q, picked, token, now, now + lease, max).deliveries;
      return true;
    }

    method FinalizeDelivery(u: Update, now: Time) returns (verdict: Verdict)
      modifies this
      ensures (Value(), verdict) == Finalize(old(Value()), u, now)
    {
      if u.job == NoJob || u.attempt == 0 || u.claim == 0 || u.key.token <= 0 {
        return Refused;
      }
      if if u.key.MessageRow? then u.key.message == 0 else u.key.callId == "" {
        return Refused;
      }
      if u.job !in jobs {
        return Fenced;
      }
      var matched := u.key in deliveries && deliveries[u.key].job == u.job && deliveries[u.key].status == Claimed
                     && deliveries[u.key].claim == u.claim && deliveries[u.key].attempt == u.attempt;
      if !matched {
        return Fenced;
      }
      deliveries := deliveries[u.key := Settled(deliveries[u.key], u)];
      if u.deactivate && u.key.token in tokens {
        tokens := tokens[u.key.token := tokens[u.key.token].(active := false)];
      }
      CompleteJobIfTerminal(u.job, now);
      return Finalized;
    }

    /** CleanupCompletedDeliveries with the rows its three limited scans returned; jobs go last. */
    method CleanupCompletedDeliveries(messageRows: set<DeliveryKey>, callRows: set<DeliveryKey>, done: set<JobId>,
                                      cutoff: Time)
      requires (forall k | k in messageRows :: k.MessageRow?) && (forall k | k in callRows :: k.VoipRow?)
      modifies this
      ensures Value() == CollectJobs(CollectRows(old(Value()), messageRows + callRows, cutoff), done, cutoff)
    {
      var snapshot := Store(jobs, deliveries, tokens, messages, muted, results);
      deliveries := CollectRows(snapshot, messageRows, cutoff).deliveries;
      snapshot := Store(jobs, deliveries, tokens, messages, muted, results);
      deliveries := CollectRows(snapshot, callRows, cutoff).deliveries;
      assert deliveries == CollectRows(old(Value()), messageRows + callRows, cutoff).deliveries;
      snapshot := Store(jobs, deliveries, tokens, messages, muted, results);
      jobs := CollectJobs(snapshot, done, cutoff).jobs;
    }
  }

  lemma CompleteNone(s: Store, now: Time)
    ensures CompleteAll(s, {}, now) == s
  {
  }

  /** Completing one more job of a batch: the order of the loop does not matter. */
  lemma CompleteAllStep(s: Store, done: set<JobId>, j: JobId, now: Time)
    requires j in s.jobs
    ensures CompleteIfTerminal(CompleteAll(s, done, now), j, now) == CompleteAll(s, done + {j}, now)
  {
    hide HasOutstanding, HasSent;
    var mid := CompleteAll(s, done, now);
    var a, b := CompleteIfTerminal(mid, j, now), CompleteAll(s, done + {j}, now);
    if Finishing(s, done + {j}, j) && j !in done {
      CompleteAllGrows(s, done, j, now);
    } else {
      forall i | i in s.jobs ensures Finishing(s, done, i) <==> Finishing(s, done + {j}, i) {
      }
      assert a == mid;
      assert b.jobs == mid.jobs;
      assert b.results == mid.results;
    }
  }

  lemma CompleteAllGrows(s: Store, done: set<JobId>, j: JobId, now: Time)
    requires j in s.jobs && j !in done && Finishing(s, done + {j}, j)
    ensures CompleteIfTerminal(CompleteAll(s, done, now), j, now) == CompleteAll(s, done + {j}, now)
  {
    hide HasOutstanding, HasSent;
    JobsGrow(s, done, j, now);
    ResultsGrow(s, done, j, now);
    hide CompleteAll;
  }

  lemma JobsGrow(s: Store, done: set<JobId>, j: JobId, now: Time)
    requires j in s.jobs && j !in done && Finishing(s, done + {j}, j)
    ensures var mid, b := CompleteAll(s, done, now), CompleteAll(s, done + {j}, now);
            && b == s.(jobs := b.jobs, results := b.results) && mid == s.(jobs := mid.jobs, results := mid.results)
            && mid.jobs.Keys == s.jobs.Keys && mid.jobs[j] == s.jobs[j]
            && b.jobs == mid.jobs[j := PushStore.Done(s.jobs[j], now)]
  {
  }

  lemma ResultsGrow(s: Store, done: set<JobId>, j: JobId, now: Time)
    requires j in s.jobs && j !in done && Finishing(s, done + {j}, j)
    ensures var mid, b := CompleteAll(s, done, now), CompleteAll(s, done + {j}, now);
            && (j in mid.results <==> j in s.results)
            && b.results == if s.jobs[j].kind.VoipKind? && j !in s.results
                            then mid.results[j := HasSent(s.deliveries, j)] else mid.results
  {
    hide HasOutstanding, HasSent;
  }
}
