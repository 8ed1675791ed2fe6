/** What each call request does to the keys and what it answers, in terms of the keys themselves. */
module CallResponses {
  import opened Common
  import opened CallSessions

  /** A key with an expiry exists at a time. */
  predicate Exists<K, V>(m: map<K, Entry<V>>, k: K, now: Time) {
    k in m && now < m[k].expiresAt
  }

  /** The busy key of a user names a call. */
  predicate Names(st: Store, u: UserId, id: CallId, now: Time) {
    Exists(st.busy, u, now) && st.busy[u].value == id
  }

  predicate Ran(st: Store, op: OpKey, now: Time) {
    op in st.operations && now < st.operations[op]
  }

  /** The stored session is still the one the request read. */
  predicate StillThere(st: Store, s: Session, now: Time) {
    Exists(st.sessions, s.id, now) && st.sessions[s.id].value == s
  }

  /** A request reads a session exactly while its key has not expired. */
  lemma ReadsIff(st: Store, id: CallId, s: Session, now: Time)
    ensures GetSession(st, id, now) == Some(s) <==> Exists(st.sessions, id, now) && st.sessions[id].value == s
  {
  }

  /** Redis lifetimes are the whole milliseconds of a duration. */
  lemma LifetimeIsWholeMillis(d: Time)
    requires d >= 0
    ensures Px(d) <= d < Px(d) + MILLI && Px(d) % MILLI == 0
    ensures Millis(d) < 1 <==> d < MILLI
    ensures Millis(-d) == -Millis(d)
  {
  }

  /** The keys that every commit writes: the session with its lifetime, the operation, the events, and no deadline any
      more. */
  predicate Wrote(st: Store, after: Store, cfg: Config, now: Time, s: Session, lifetime: Time, op: OpKey,
                  events: seq<PendingEvent>) {
    && after.sessions == st.sessions[s.id := Entry(s, now + Px(lifetime))]
    && after.operations == st.operations[op := now + Px(cfg.operationTTL)]
    && after.deadlines == st.deadlines - {s.id}
    && after.stream == st.stream + events
  }

  /** The call went on: both parties stay busy as long as the session lives. */
  predicate WentOn(st: Store, after: Store, cfg: Config, now: Time, s: Session, op: OpKey, events: seq<PendingEvent>) {
    && Wrote(st, after, cfg, now, s, cfg.activeTTL, op, events)
    && after.busy == st.busy[s.caller := Entry(s.id, now + Px(cfg.activeTTL))][s.callee := Entry(s.id,
                                                            now + Px(cfg.activeTTL))]
  }

  /** The call ended: exactly the busy keys of its parties that name it are gone. */
  ghost predicate Over(st: Store, after: Store, cfg: Config, now: Time, s: Session, op: OpKey,
                       events: seq<PendingEvent>) {
    && Wrote(st, after, cfg, now, s, cfg.terminatedTTL, op, events)
    && (forall u :: u in after.busy <==> u in st.busy && !((u == s.caller || u == s.callee) && Names(st, u, s.id, now)))
    && (forall u | u in after.busy :: after.busy[u] == st.busy[u])
  }

  /** The reply to a decided change, where `free` says whether the busy keys allow it: a remembered operation is a
      replay, a session that changed or a busy key that went is a refusal, and only then the change is committed. */
  predicate RepliesBy(st: Store, s: Session, op: OpKey, now: Time, free: bool, lifetime: Time, reply: Reply) {
    && (reply == Replayed <==> Ran(st, op, now))
    && (reply == Refused <==> !Ran(st, op, now) && !(StillThere(st, s, now) && free))
    && (reply == Failed <==> !Ran(st, op, now) && StillThere(st, s, now) && free && lifetime < MILLI)
    && (reply == Committed <==> !Ran(st, op, now) && StillThere(st, s, now) && free && lifetime >= MILLI)
  }

  lemma Refuses(st: Store, cfg: Config, at: Time, now: Time, s: Session, updated: Session, op: OpKey,
                events: seq<PendingEvent>)
    requires updated.id == s.id && updated.phase != Ringing && 0 <= cfg.activeTTL && 0 <= cfg.terminatedTTL
    ensures var terminal := updated.phase == Ended;
            var (after, reply) := Transition(st, cfg, at, now, s, updated, terminal, op, events);
            && RepliesBy(st, s, op, now,
                         terminal || (Names(st, updated.caller, s.id, now) && Names(st, updated.callee, s.id, now)),
                         if terminal then cfg.terminatedTTL else cfg.activeTTL, reply)
            && (reply != Committed ==> after == st)
  {
    LifetimeIsWholeMillis(cfg.activeTTL);
    LifetimeIsWholeMillis(cfg.terminatedTTL);
  }

  lemma CommitsEnd(st: Store, cfg: Config, at: Time, now: Time, s: Session, updated: Session, op: OpKey,
                   events: seq<PendingEvent>)
    requires updated.id == s.id && updated.phase == Ended
    requires Transition(st, cfg, at, now, s, updated, true, op, events).1 == Committed
    ensures Over(st, Transition(st, cfg, at, now, s, updated, true, op, events).0, cfg, now, updated, op, events)
  {
  }

  lemma CommitsAccept(st: Store, cfg: Config, at: Time, now: Time, s: Session, updated: Session, op: OpKey,
                      events: seq<PendingEvent>)
    requires updated.id == s.id && updated.phase == Active
    requires Transition(st, cfg, at, now, s, updated, false, op, events).1 == Committed
    ensures WentOn(st, Transition(st, cfg, at, now, s, updated, false, op, events).0, cfg, now, updated, op, events)
  {
  }

  /** Accepting: only the callee may, while the call rings and before its deadline. With the caller online the call is
      active with the answer, and both busy keys must name it; with the caller offline it ends as disconnected. */
  lemma AcceptDoes(st: Store, cfg: Config, at: Time, now: Time, s: Session, user: UserId, when: Time, answer: string,
                   online: bool, op: OpKey, events: Session -> seq<PendingEvent>)
    requires 0 <= cfg.activeTTL && 0 <= cfg.terminatedTTL
    ensures var (after, outcome) := Answer(st, cfg, at, now, s, Accept(user, when, answer, online), op, events);
            var active := Session(s.id, s.caller, s.callee, s.offer, Active, Some(answer), Some(when), s.endReason,
                                  s.endMessage, s.endedAt, s.createdAt, s.ringDeadline);
            var ended := Session(s.id, s.caller, s.callee, s.offer, Ended, Some(answer), Some(when), Disconnected,
                                 "caller unavailable after accept", Some(when), s.createdAt, s.ringDeadline);
            && (outcome == Declined(Forbidden) <==> user != s.callee)
            && (outcome == Declined(InvalidState) <==>
                  user == s.callee && !(s.phase == Ringing && when < s.ringDeadline))
            && (outcome.Replied? <==> user == s.callee && s.phase == Ringing && when < s.ringDeadline)
            && (outcome.Replied? ==>
                  RepliesBy(st, s, op, now, !online || (Names(st, s.caller, s.id, now)
                                                        && Names(st, s.callee, s.id, now)),
                            if online then cfg.activeTTL else cfg.terminatedTTL, outcome.reply))
            && (outcome != Replied(Committed) ==> after == st)
            && (outcome == Replied(Committed) ==>
                  if online then WentOn(st, after, cfg, now, active, op, events(active))
                  else Over(st, after, cfg, now, ended, op, events(ended)))
  {
    if user == s.callee && s.phase == Ringing && when < s.ringDeadline {
      var updated := Decide(s, Accept(user, when, answer, online)).session;
      Refuses(st, cfg, at, now, s, updated, op, events(updated));
      var reply := Transition(st, cfg, at, now, s, updated, !online, op, events(updated)).1;
      if reply == Committed && online {
        CommitsAccept(st, cfg, at, now, s, updated, op, events(updated));
      } else if reply == Committed {
        CommitsEnd(st, cfg, at, now, s, updated, op, events(updated));
      }
    }
    hide Transition, Wrote, RepliesBy, Names, StillThere, Ran;
  }

  /** A request that ends the call, if it is allowed, does so with its reason and message, for any state of busy keys.
      */
  ghost predicate EndsIff(allowed: bool, st: Store, after: Store, outcome: Outcome, cfg: Config, now: Time, s: Session,
                    reason: EndReason, message: string, when: Time, op: OpKey, events: Session -> seq<PendingEvent>) {
    var ended := Session(s.id, s.caller, s.callee, s.offer, Ended, s.answer, s.acceptedAt, reason, message, Some(when),
                         s.createdAt, s.ringDeadline);
    && (outcome.Replied? <==> allowed)
    && (outcome.Replied? ==> RepliesBy(st, s, op, now, true, cfg.terminatedTTL, outcome.reply))
    && (outcome != Replied(Committed) ==> after == st)
    && (outcome == Replied(Committed) ==> Over(st, after, cfg, now, ended, op, events(ended)))
  }

  lemma Ends(st: Store, cfg: Config, at: Time, now: Time, s: Session, r: Request, reason: EndReason, message: string,
             when: Time, op: OpKey, events: Session -> seq<PendingEvent>)
    requires 0 <= cfg.activeTTL && 0 <= cfg.terminatedTTL
    requires match Decide(s, r)
             case Update(updated, terminal) =>
               && terminal && updated.phase == Ended
               && updated == s.(phase := Ended, endReason := reason, endMessage := message, endedAt := Some(when))
             case _ => true
    ensures var (after, outcome) := Answer(st, cfg, at, now, s, r, op, events);
            EndsIff(Decide(s, r).Update?, st, after, outcome, cfg, now, s, reason, message, when, op, events)
  {
    if Decide(s, r).Update? {
      var updated := Decide(s, r).session;
      Refuses(st, cfg, at, now, s, updated, op, events(updated));
      if Transition(st, cfg, at, now, s, updated, true, op, events(updated)).1 == Committed {
        CommitsEnd(st, cfg, at, now, s, updated, op, events(updated));
      }
    }
    hide Transition, Decide, Over, RepliesBy;
  }

  /** Rejecting: only the callee may, while the call rings, at any time. */
  lemma RejectDoes(st: Store, cfg: Config, at: Time, now: Time, s: Session, user: UserId, when: Time, message: string,
                   op: OpKey, events: Session -> seq<PendingEvent>)
    requires 0 <= cfg.activeTTL && 0 <= cfg.terminatedTTL
    ensures var (after, outcome) := Answer(st, cfg, at, now, s, Reject(user, when, message), op, events);
            && EndsIff(user == s.callee && s.phase == Ringing, st, after, outcome, cfg, now, s, Rejected, message,
                       when, op,
                       events)
            && (outcome == Declined(Forbidden) <==> user != s.callee)
            && (outcome == Declined(InvalidState) <==> user == s.callee && s.phase != Ringing)
  {
    Ends(st, cfg, at, now, s, Reject(user, when, message), Rejected, message, when, op, events);
    hide EndsIff, Transition;
  }

  /** Hanging up: either party may, until the call has ended; no reason, a rejection or a timeout counts as a hang-up.
      */
  lemma HangUpDoes(st: Store, cfg: Config, at: Time, now: Time, s: Session, user: UserId, when: Time, reason: EndReason,
                   op: OpKey, events: Session -> seq<PendingEvent>)
    requires 0 <= cfg.activeTTL && 0 <= cfg.terminatedTTL
    ensures var (after, outcome) := Answer(st, cfg, at, now, s, HangUp(user, when, reason), op, events);
            var given := match reason
                         case Hangup => Hangup
                         case Cancelled => Cancelled
                         case Disconnected => Disconnected
                         case _ => Hangup;
            && EndsIff((user == s.caller || user == s.callee)
                       && s.phase != Ended, st, after, outcome, cfg, now, s, given, "",
                       when, op, events)
            && (outcome == Declined(Forbidden) <==> user != s.caller && user != s.callee)
            && (outcome == Declined(InvalidState) <==> (user == s.caller || user == s.callee) && s.phase == Ended)
  {
    var given := if reason in {Unspecified, Rejected, Timeout} then Hangup else reason;
    Ends(st, cfg, at, now, s, HangUp(user, when, reason), given, "", when, op, events);
    hide EndsIff, Transition;
  }

  /** A failed push ends a call that still rings between the same parties, as cancelled, and is ignored otherwise. */
  lemma PushFailedDoes(st: Store, cfg: Config, at: Time, now: Time, s: Session, caller: UserId, callee: UserId,
                       when: Time,
                       why: string, op: OpKey, events: Session -> seq<PendingEvent>)
    requires 0 <= cfg.activeTTL && 0 <= cfg.terminatedTTL
    ensures var (after, outcome) := Answer(st, cfg, at, now, s, PushFailed(caller, callee, when, why), op, events);
            var meant := caller == s.caller && callee == s.callee && s.phase == Ringing;
            && EndsIff(meant, st, after, outcome, cfg, now, s, Cancelled, why, when, op, events)
            && (outcome == Declined(Ignored) <==> !meant)
  {
    Ends(st, cfg, at, now, s, PushFailed(caller, callee, when, why), Cancelled, why, when, op, events);
    hide EndsIff, Transition;
  }

  /** A timeout ends a call that still rings at its deadline. */
  lemma ExpireDoes(st: Store, cfg: Config, at: Time, now: Time, s: Session, when: Time, op: OpKey,
                   events: Session -> seq<PendingEvent>)
    requires 0 <= cfg.activeTTL && 0 <= cfg.terminatedTTL
    ensures var (after, outcome) := Answer(st, cfg, at, now, s, CallSessions.Expire(when), op, events);
            var due := s.phase == Ringing && s.ringDeadline <= when;
            && EndsIff(due, st, after, outcome, cfg, now, s, Timeout, "call timed out", when, op, events)
            && (outcome == Declined(Ignored) <==> !due)
  {
    Ends(st, cfg, at, now, s, CallSessions.Expire(when), Timeout, "call timed out", when, op, events);
    hide EndsIff, Transition;
  }

  /** What the sweep commits for a ringing call is that timeout. */
  lemma SweepTimesOut(st: Store, cfg: Config, s: Session, events: seq<PendingEvent>, now: Time)
    requires s.phase == Ringing && s.ringDeadline <= now
    ensures var (after, reply) := Expiry(st, cfg, s, events, now);
            Answer(st, cfg, now, now, s, CallSessions.Expire(now), TimeoutOp(s.id, s.ringDeadline), _ => events)
            == (after, Replied(reply))
  {
  }

  // ---- starting a call ----

  /** A call is started exactly when its operation has not run, neither party is busy, and its lifetime, which is what
      is left until the deadline or else the ring time, reaches a millisecond. Then session, busy keys, deadline in
      whole seconds, operation and events are written together. */
  lemma CreateDoes(st: Store, cfg: Config, at: Time, now: Time, s: Session, op: OpKey, events: seq<PendingEvent>)
    requires 0 <= cfg.ringTTL
    ensures var (after, reply) := Create(st, cfg, at, now, s, op, events);
            var lifetime := if at < s.ringDeadline then s.ringDeadline - at else cfg.ringTTL;
            var free := !Exists(st.busy, s.caller, now) && !Exists(st.busy, s.callee, now);
            && (reply == Replayed <==> Ran(st, op, now))
            && (reply == Refused <==> !Ran(st, op, now) && !free)
            && (reply == Failed <==> !Ran(st, op, now) && free && lifetime < MILLI)
            && (reply == Committed <==> !Ran(st, op, now) && free && lifetime >= MILLI)
            && (reply != Committed ==> after == st)
            && (reply == Committed ==>
                  && after.sessions == st.sessions[s.id := Entry(s, now + Px(lifetime + cfg.grace))]
                  && after.busy == st.busy[s.caller := Entry(s.id, now + Px(lifetime))][s.callee := Entry(s.id,
                                                            now + Px(lifetime))]
                  && after.operations == st.operations[op := now + Px(cfg.operationTTL)]
                  && after.stream == st.stream + events && after.deadlines.Keys == st.deadlines.Keys + {s.id}
                  && (forall id | id in st.deadlines && id != s.id :: after.deadlines[id] == st.deadlines[id])
                  && after.deadlines[s.id] * SECOND <= s.ringDeadline < (after.deadlines[s.id] + 1) * SECOND)
  {
    LifetimeIsWholeMillis(if at < s.ringDeadline then s.ringDeadline - at else cfg.ringTTL);
  }
}
