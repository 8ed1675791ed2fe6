/** Runs of the call service: racing requests, the sweeper and push failures over one store. */
module CallRuns {
  import opened Common
  import opened CallSessions

  datatype Batch = Batch(op: OpKey, events: seq<PendingEvent>)

  /** What a message on the call service's topic asks; the operation that starts a call names it. */
  datatype Purpose = Starts | Accepts(id: CallId) | Rejects(id: CallId) | HangsUp(id: CallId) | Fails(id: CallId)

  datatype Message = Message(purpose: Purpose, acceptedAt: Time)

  /** The store with what a run has done so far. `log` is what each operation asks and when Kafka first accepted it,
      `trail` lists the phases written for a call, `firstRun` the commit time of an operation, `batches` the event
      batches in commit order, `condemned` the ids a sweeper has decided to remove but has not removed yet. */
  datatype World = World(
    store: Store, clock: Time, log: map<OpKey, Message>, trail: map<CallId, seq<Phase>>, firstRun: map<OpKey, Time>,
    batches: seq<Batch>, condemned: set<CallId>)

  const START := World(EMPTY, 0, map[], map[], map[], [], {})

  /** One atomic step. A request reads the session at some moment and commits later; the commit carries the session it
      read (`expected`), so every interleaving of reads and commits is some sequence of these steps. */
  datatype Action =
    | Produce(op: OpKey, purpose: Purpose, now: Time)
    | Initiate(op: OpKey, at: Time, now: Time, session: Session, events: seq<PendingEvent>)
    | Commit(op: OpKey, now: Time, expected: Session, request: Request, events: seq<PendingEvent>)
    | SweepRead(id: CallId, seenAt: Time, now: Time)
    | SweepDrop(id: CallId, now: Time)

  /** callIDForContext: a call's id is a digest of the operation that created it, taken as injective. */
  function CallIdFor(op: OpKey): CallId
    requires op.KafkaOp?
  {
    op.key
  }

  function PurposeOf(id: CallId, r: Request): Purpose
    requires !r.Expire?
  {
    match r
    case Accept(_, _, _, _) => Accepts(id)
    case Reject(_, _, _) => Rejects(id)
    case HangUp(_, _, _) => HangsUp(id)
    case PushFailed(_, _, _, _) => Fails(id)
  }

  /** The ledger entry of an operation that ran has not expired. */
  predicate Remembered(cfg: Config, w: World, op: OpKey, now: Time) {
    op in w.firstRun ==> now < w.firstRun[op] + Px(cfg.operationTTL)
  }

  predicate Asked(w: World, op: OpKey, purpose: Purpose) {
    op.KafkaOp? && op in w.log && w.log[op].purpose == purpose
  }

  /** What the surroundings guarantee: time does not run backwards, an operation always asks the same, and initiate
      builds the session it stores. A request to start a call has no event id, hence a single place in Kafka, which
      delivers it inside the replay window; any other message may come at any time, as a copy that a relay published
      late. */
  predicate Permitted(cfg: Config, w: World, a: Action) {
    && w.clock <= a.now
    && match a
       case Produce(op, _, _) => op.KafkaOp? && op !in w.log
       case Initiate(op, at, now, s, _) =>
         && at <= now && Asked(w, op, Starts) && now <= w.log[op].acceptedAt + cfg.replayWindow
         && s.id == CallIdFor(op) && s.phase == Ringing && s.caller != s.callee
       case Commit(op, now, expected, request, _) =>
         && Decide(expected, request).Update?
         && if request.Expire? then op == TimeoutOp(expected.id, expected.ringDeadline)
            else Asked(w, op, PurposeOf(expected.id, request))
       case SweepRead(id, seenAt, now) => seenAt <= now
       case SweepDrop(_, _) => true
  }

  function Note(w: World, st: Store, now: Time, op: OpKey, id: CallId, phase: Phase, events: seq<PendingEvent>): World {
    w.(store := st, clock := now,
       trail := w.trail[id := (if id in w.trail then w.trail[id] else []) + [phase]],
       firstRun := w.firstRun[op := now],
       batches := w.batches + [Batch(op, events)])
  }

  /** The id was in the range query's answer, and the value read now is not a due ringing session. */
  predicate Condemns(w: World, id: CallId, seenAt: Time, now: Time) {
    && id in w.store.sessions
    && UnixSeconds(w.store.sessions[id].value.ringDeadline) <= UnixSeconds(seenAt)
    && var got := GetSession(w.store, id, now);
       got.None? || !(got.value.phase == Ringing && got.value.ringDeadline <= seenAt)
  }

  function Step(cfg: Config, w: World, a: Action): World {
    match a
    case Produce(op, purpose, now) => w.(clock := now, log := w.log[op := Message(purpose, now)])
    case Initiate(op, at, now, s, events) =>
      var (st, reply) := Create(w.store, cfg, at, now, s, op, events);
      if reply == Committed then Note(w, st, now, op, s.id, s.phase, events) else w.(clock := now)
    case Commit(op, now, expected, request, events) =>
      var d := Decide(expected, request);
      if !d.Update? then w.(clock := now)
      else
        var (st, reply) := Transition(w.store, cfg, now, now, expected, d.session, d.terminal, op, events);
        if reply == Committed then Note(w, st, now, op, d.session.id, d.session.phase, events) else w.(clock := now)
    case SweepRead(id, seenAt, now) =>
      if Condemns(w, id, seenAt, now) then w.(clock := now, condemned := w.condemned + {id}) else w.(clock := now)
    case SweepDrop(id, now) =>
      if id in w.condemned
      then w.(clock := now, condemned := w.condemned - {id}, store := w.store.(deadlines := w.store.deadlines - {id}))
      else w.(clock := now)
  }

  /** A step that creates or commits is what the service does to the store in it, and is noted exactly when it took
      effect. */
  lemma StepIsService(cfg: Config, w: World, a: Action)
    ensures var after := Step(cfg, w, a);
            && after.clock == a.now
            && match a
               case Initiate(op, at, now, s, events) =>
                 && var (st, reply) := Create(w.store, cfg, at, now, s, op, events);
                    after.store == st && (reply == Committed <==> after.batches == w.batches + [Batch(op, events)])
               case Commit(op, now, expected, request, events) =>
                 && var (st, outcome) := Answer(w.store, cfg, now, now, expected, request, op, _ => events);
                    after.store == st
                    && (outcome == Replied(Committed) <==> after.batches == w.batches + [Batch(op, events)])
               case SweepDrop(id, _) =>
                 after.store == if id in w.condemned then w.store.(deadlines := w.store.deadlines - {id}) else w.store
               case _ => after.store == w.store
  {
    hide Decide;
    assert forall b :: w.batches != w.batches + [b];
  }

  function Run(cfg: Config, w: World, acts: seq<Action>): World
    decreases |acts|
  {
    if acts == [] then w else Run(cfg, Step(cfg, w, acts[0]), acts[1..])
  }

  predicate PermittedRun(cfg: Config, w: World, acts: seq<Action>)
    decreases |acts|
  {
    acts != [] ==> Permitted(cfg, w, acts[0]) && PermittedRun(cfg, Step(cfg, w, acts[0]), acts[1..])
  }

  // ---- the invariant, one concern at a time ----

  /** Ringing; ringing, active; ringing, ended; or ringing, active, ended. */
  predicate GoodTrail(t: seq<Phase>) {
    && 1 <= |t| <= 3 && t[0] == Ringing
    && (|t| == 2 ==> t[1] != Ringing)
    && (|t| == 3 ==> t[1] == Active && t[2] == Ended)
  }

  predicate Filed(w: World) {
    && w.trail.Keys == w.store.sessions.Keys && w.condemned <= w.store.sessions.Keys
    && forall id | id in w.store.sessions ::
         && w.store.sessions[id].value.id == id
         && w.store.sessions[id].value.caller != w.store.sessions[id].value.callee
         && (w.store.sessions[id].value.phase == Ringing ==>
               w.store.sessions[id].value.ringDeadline <= w.store.sessions[id].expiresAt)
         && GoodTrail(w.trail[id])
         && w.trail[id][|w.trail[id]| - 1] == w.store.sessions[id].value.phase
         && KafkaOp(id) in w.firstRun
  }

  ghost predicate Ledgered(cfg: Config, w: World) {
    && w.store.operations.Keys == w.firstRun.Keys
    && (forall op | op in w.firstRun ::
          w.firstRun[op] <= w.clock && w.store.operations[op] == w.firstRun[op] + Px(cfg.operationTTL))
    && (forall id, d | TimeoutOp(id, d) in w.firstRun ::
          id in w.store.sessions && w.store.sessions[id].value.phase == Ended)
  }

  predicate Passed(p: Purpose, phase: Phase) {
    match p
    case Starts => true
    case HangsUp(_) => phase == Ended
    case _ => phase != Ringing
  }

  /** An operation that ran has moved its call past the phase it needs, so it cannot run on that call again. */
  predicate Spent(w: World) {
    && (forall op | op in w.log :: w.log[op].acceptedAt <= w.clock)
    && (forall op | op in w.firstRun && op.KafkaOp? :: op in w.log && w.log[op].acceptedAt <= w.firstRun[op])
    && (forall op | op in w.firstRun && op.KafkaOp? && op in w.log && w.log[op].purpose != Starts ::
          var id := w.log[op].purpose.id;
          id in w.store.sessions && Passed(w.log[op].purpose, w.store.sessions[id].value.phase))
  }

  /** A busy key that has not expired names a live call in progress with that user. */
  predicate BusyNamesCall(w: World) {
    forall u | u in w.store.busy && w.clock < w.store.busy[u].expiresAt ::
      var id := w.store.busy[u].value;
      && id in w.store.sessions
      && Involves(w.store.sessions[id].value, u)
      && w.store.sessions[id].value.phase != Ended
      && w.store.busy[u].expiresAt <= w.store.sessions[id].expiresAt
  }

  /** An active call that has not expired holds both busy keys for exactly as long as it lives itself. */
  predicate ActiveHoldsBusy(w: World) {
    forall id | id in w.store.sessions
                && w.store.sessions[id].value.phase == Active && w.clock < w.store.sessions[id].expiresAt ::
      && HeldBy(w.store, w.store.sessions[id].value.caller, id)
      && HeldBy(w.store, w.store.sessions[id].value.callee, id)
  }

  predicate HeldBy(st: Store, u: UserId, id: CallId)
    requires id in st.sessions
  {
    u in st.busy && st.busy[u] == Entry(id, st.sessions[id].expiresAt)
  }

  predicate Indexed(w: World) {
    forall id | id in w.store.sessions
                && w.store.sessions[id].value.phase == Ringing && w.clock < w.store.sessions[id].expiresAt
                && w.store.sessions[id].value.ringDeadline % SECOND == 0 ::
      id !in w.condemned && id in w.store.deadlines
      && w.store.deadlines[id] == UnixSeconds(w.store.sessions[id].value.ringDeadline)
  }

  function Flatten(batches: seq<Batch>): seq<PendingEvent> {
    if batches == [] then [] else Flatten(batches[..|batches| - 1]) + batches[|batches| - 1].events
  }

  ghost predicate Batched(w: World) {
    && w.store.stream == Flatten(w.batches)
    && (forall i | 0 <= i < |w.batches| :: w.batches[i].op in w.firstRun)
    && (forall i, j | 0 <= i < j < |w.batches| :: w.batches[i].op != w.batches[j].op)
  }

  ghost predicate Inv(cfg: Config, w: World) {
    Filed(w) && Ledgered(cfg, w) && Spent(w) && BusyNamesCall(w) && ActiveHoldsBusy(w) && Indexed(w) && Batched(w)
  }

  // ---- what a step does, as a relation between worlds ----

  predicate Waited(w: World, w2: World) {
    && w.clock <= w2.clock && w2.store == w.store && w2.trail == w.trail && w2.firstRun == w.firstRun
    && w2.batches == w.batches && w2.log == w.log
  }

  /** A commit of `op` that writes `s` as the session of its call. */
  predicate Wrote(cfg: Config, w: World, w2: World, op: OpKey, s: Session, until: Time, events: seq<PendingEvent>) {
    && w.clock <= w2.clock && op !in w.firstRun
    && w2.store.sessions == w.store.sessions[s.id := Entry(s, until)]
    && w2.store.operations == w.store.operations[op := w2.clock + Px(cfg.operationTTL)]
    && w2.store.stream == w.store.stream + events
    && w2.firstRun == w.firstRun[op := w2.clock]
    && w2.trail == w.trail[s.id := (if s.id in w.trail then w.trail[s.id] else []) + [s.phase]]
    && w2.batches == w.batches + [Batch(op, events)]
    && w2.condemned == w.condemned && w2.log == w.log
  }

  /** The first write of a call: a ringing session, both parties free before, both busy keys set. */
  predicate Created(cfg: Config, w: World, w2: World, op: OpKey, s: Session, busyUntil: Time) {
    && s.id !in w.store.sessions && op == KafkaOp(s.id) && Asked(w, op, Starts) && s.phase == Ringing
       && s.caller != s.callee
    && s.id in w2.store.sessions && s.ringDeadline <= w2.store.sessions[s.id].expiresAt
    && !Live(w.store.busy, s.caller, w2.clock) && !Live(w.store.busy, s.callee, w2.clock)
    && w2.store.busy == w.store.busy[s.caller := Entry(s.id, busyUntil)][s.callee := Entry(s.id, busyUntil)]
    && w2.store.deadlines == w.store.deadlines[s.id := UnixSeconds(s.ringDeadline)]
  }

  /** A later write of a call: it was live, and it moves on in phase. */
  predicate Advanced(w: World, w2: World, op: OpKey, s: Session) {
    && Live(w.store.sessions, s.id, w2.clock)
    && (if op.TimeoutOp? then op.id == s.id && s.phase == Ended
        else op in w.log && w.log[op].purpose != Starts && w.log[op].purpose.id == s.id
             && Passed(w.log[op].purpose, s.phase))
    && w2.store.deadlines == w.store.deadlines - {s.id}
    && var was := w.store.sessions[s.id].value;
       && was.id == s.id && was.caller == s.caller && was.callee == s.callee && was.ringDeadline == s.ringDeadline
       && ((was.phase == Ringing && s.phase != Ringing) || (was.phase == Active && s.phase == Ended))
  }

  predicate Answered(w: World, w2: World, s: Session, until: Time) {
    && s.phase == Active
    && w2.store.busy == w.store.busy[s.caller := Entry(s.id, until)][s.callee := Entry(s.id, until)]
    && Holds(w.store, s.caller, s.id, w2.clock) && Holds(w.store, s.callee, s.id, w2.clock)
  }

  predicate Closed(w: World, w2: World, s: Session) {
    && s.phase == Ended
    && (forall u | u in w2.store.busy ::
          && u in w.store.busy && w2.store.busy[u] == w.store.busy[u]
          && !(Involves(s, u) && Holds(w.store, u, s.id, w2.clock)))
    && (forall u | u in w.store.busy && w.store.busy[u].value != s.id :: u in w2.store.busy)
  }

  lemma InitiateEffect(cfg: Config, w: World, a: Action) returns (wrote: bool, busyUntil: Time, until: Time)
    requires ValidConfig(cfg) && Filed(w) && Ledgered(cfg, w) && Spent(w) && a.Initiate? && Permitted(cfg, w, a)
    ensures var w2 := Step(cfg, w, a);
            && w2.clock == a.now
            && if wrote then Wrote(cfg, w, w2, a.op, a.session, until, a.events)
                             && Created(cfg, w, w2, a.op, a.session, busyUntil) && a.now < busyUntil <= until
               else Waited(w, w2) && w2.condemned == w.condemned
  {
    var ttl := CreateTTL(cfg, a.at, a.session);
    wrote := Create(w.store, cfg, a.at, a.now, a.session, a.op, a.events).1 == Committed;
    busyUntil, until := a.now + Px(ttl), a.now + Px(ttl + cfg.grace);
  }

  /** What Decide changes and what it leaves alone. */
  lemma DecideShape(s: Session, r: Request)
    requires Decide(s, r).Update?
    ensures var d := Decide(s, r);
            && d.session.id == s.id && d.session.caller == s.caller && d.session.callee == s.callee
            && d.session.ringDeadline == s.ringDeadline
            && (d.terminal <==> d.session.phase == Ended)
            && ((s.phase == Ringing && d.session.phase != Ringing) || (s.phase == Active && d.session.phase == Ended))
            && (if r.Expire? then s.phase == Ringing && d.session.phase == Ended
                else var p := PurposeOf(s.id, r);
                     p != Starts && p.id == s.id && !Passed(p, s.phase) && Passed(p, d.session.phase))
  {
  }

  lemma ReleaseBoth(busy: map<UserId, Entry<CallId>>, a: UserId, b: UserId, id: CallId, now: Time)
    ensures var after := Release(Release(busy, a, id, now), b, id, now);
            && (forall u | u in after ::
                  && u in busy && after[u] == busy[u]
                  && !((u == a || u == b) && Live(busy, u, now) && busy[u].value == id))
            && (forall u | u in busy && busy[u].value != id :: u in after)
  {
  }

  lemma CommitEffect(cfg: Config, w: World, a: Action) returns (wrote: bool, until: Time)
    requires ValidConfig(cfg) && Filed(w) && Ledgered(cfg, w) && Spent(w) && a.Commit? && Permitted(cfg, w, a)
    ensures var w2 := Step(cfg, w, a);
            var s := Decide(a.expected, a.request).session;
            && w2.clock == a.now
            && if wrote then Wrote(cfg, w, w2, a.op, s, until, a.events) && Advanced(w, w2, a.op, s)
                             && (Answered(w, w2, s, until) || Closed(w, w2, s))
                             && w.store.sessions[s.id].value == a.expected
               else Waited(w, w2) && w2.condemned == w.condemned
  {
    var d := Decide(a.expected, a.request);
    DecideShape(a.expected, a.request);
    wrote, until := TransitionEffect(cfg, w, a.now, a.expected, d.session, d.terminal, a.op, a.events);
  }

  lemma TransitionEffect(cfg: Config, w: World, now: Time, expected: Session, s: Session, terminal: bool,
                         op: OpKey, events: seq<PendingEvent>) returns (wrote: bool, until: Time)
    requires ValidConfig(cfg) && Ledgered(cfg, w) && w.clock <= now
    requires s.id == expected.id && s.caller == expected.caller && s.callee == expected.callee
    requires s.ringDeadline == expected.ringDeadline && (terminal <==> s.phase == Ended)
    requires (expected.phase == Ringing && s.phase != Ringing) || (expected.phase == Active && s.phase == Ended)
    requires if op.TimeoutOp? then op.id == s.id && expected.phase == Ringing && s.phase == Ended
             else op in w.log && w.log[op].purpose != Starts && w.log[op].purpose.id == s.id
                  && Passed(w.log[op].purpose, s.phase)
                  && (op in w.firstRun ==> s.id in w.store.sessions && w.store.sessions[s.id].value != expected)
    ensures var (st, reply) := Transition(w.store, cfg, now, now, expected, s, terminal, op, events);
            && (wrote <==> reply == Committed)
            && (!wrote ==> st == w.store)
            && (wrote ==>
                  var w2 := Note(w, st, now, op, s.id, s.phase, events);
                  && Wrote(cfg, w, w2, op, s, until, events) && Advanced(w, w2, op, s)
                  && (Answered(w, w2, s, until) || Closed(w, w2, s))
                  && w.store.sessions[s.id].value == expected)
  {
    until := now + Px(TransitionTTL(cfg, now, s));
    wrote := Transition(w.store, cfg, now, now, expected, s, terminal, op, events).1 == Committed;
    ReleaseBoth(w.store.busy, s.caller, s.callee, s.id, now);
  }

  // ---- each relation keeps each part of the invariant ----

  lemma FiledCreated(cfg: Config, w: World, w2: World, op: OpKey, s: Session, until: Time, events: seq<PendingEvent>,
                     b: Time)
    requires Filed(w) && Wrote(cfg, w, w2, op, s, until, events) && Created(cfg, w, w2, op, s, b)
    ensures Filed(w2)
  {
  }

  lemma TrailGrows(t: seq<Phase>, next: Phase)
    requires GoodTrail(t)
    requires (t[|t| - 1] == Ringing && next != Ringing) || (t[|t| - 1] == Active && next == Ended)
    ensures GoodTrail(t + [next]) && (t + [next])[|t|] == next
  {
  }

  lemma FiledAdvanced(cfg: Config, w: World, w2: World, op: OpKey, s: Session, until: Time, events: seq<PendingEvent>)
    requires Filed(w) && Wrote(cfg, w, w2, op, s, until, events) && Advanced(w, w2, op, s)
    ensures Filed(w2)
  {
    hide Px, GoodTrail;
    TrailGrows(w.trail[s.id], s.phase);
  }

  lemma LedgeredKept(cfg: Config, w: World, w2: World, op: OpKey, s: Session, until: Time, events: seq<PendingEvent>,
                     b: Time)
    requires Ledgered(cfg, w) && Wrote(cfg, w, w2, op, s, until, events)
    requires Created(cfg, w, w2, op, s, b) || Advanced(w, w2, op, s)
    ensures Ledgered(cfg, w2)
  {
  }

  lemma SpentKept(cfg: Config, w: World, w2: World, op: OpKey, s: Session, until: Time, events: seq<PendingEvent>,
                  b: Time)
    requires Spent(w) && Wrote(cfg, w, w2, op, s, until, events)
    requires Created(cfg, w, w2, op, s, b) || Advanced(w, w2, op, s)
    ensures Spent(w2)
  {
  }

  lemma ProduceKept(cfg: Config, w: World, a: Action)
    requires Inv(cfg, w) && a.Produce? && Permitted(cfg, w, a)
    ensures Inv(cfg, Step(cfg, w, a))
  {
  }

  lemma BusyCreated(cfg: Config, w: World, w2: World, op: OpKey, s: Session, until: Time, events: seq<PendingEvent>,
                    b: Time)
    requires BusyNamesCall(w) && Wrote(cfg, w, w2, op, s, until, events)
    requires Created(cfg, w, w2, op, s, b) && b <= until
    ensures BusyNamesCall(w2)
  {
  }

  lemma BusyAdvanced(cfg: Config, w: World, w2: World, op: OpKey, s: Session, until: Time, events: seq<PendingEvent>)
    requires BusyNamesCall(w) && Wrote(cfg, w, w2, op, s, until, events) && Advanced(w, w2, op, s)
    requires Answered(w, w2, s, until) || Closed(w, w2, s)
    ensures BusyNamesCall(w2)
  {
  }

  lemma ActiveCreated(cfg: Config, w: World, w2: World, op: OpKey, s: Session, until: Time, events: seq<PendingEvent>,
                      b: Time)
    requires ActiveHoldsBusy(w) && Wrote(cfg, w, w2, op, s, until, events) && Created(cfg, w, w2, op, s, b)
    ensures ActiveHoldsBusy(w2)
  {
  }

  lemma ActiveAdvanced(cfg: Config, w: World, w2: World, op: OpKey, s: Session, until: Time, events: seq<PendingEvent>)
    requires ActiveHoldsBusy(w) && Wrote(cfg, w, w2, op, s, until, events) && Advanced(w, w2, op, s)
    requires Answered(w, w2, s, until) || Closed(w, w2, s)
    ensures ActiveHoldsBusy(w2)
  {
  }

  lemma IndexedKept(cfg: Config, w: World, w2: World, op: OpKey, s: Session, until: Time, events: seq<PendingEvent>,
                    b: Time)
    requires Filed(w) && Indexed(w) && Wrote(cfg, w, w2, op, s, until, events)
    requires Created(cfg, w, w2, op, s, b) || Advanced(w, w2, op, s)
    ensures Indexed(w2)
  {
  }

  lemma BatchedKept(cfg: Config, w: World, w2: World, op: OpKey, s: Session, until: Time, events: seq<PendingEvent>)
    requires Batched(w) && Wrote(cfg, w, w2, op, s, until, events)
    ensures Batched(w2)
  {
  }

  lemma WaitedKept(cfg: Config, w: World, w2: World)
    requires Inv(cfg, w) && Waited(w, w2) && w2.condemned == w.condemned
    ensures Inv(cfg, w2)
  {
  }

  /** A sweeper never condemns a live ringing call whose deadline is a whole second. */
  lemma IndexedSweep(cfg: Config, w: World, a: Action)
    requires Filed(w) && Indexed(w) && Permitted(cfg, w, a) && (a.SweepRead? || a.SweepDrop?)
    ensures Indexed(Step(cfg, w, a))
  {
  }

  lemma SweepKept(cfg: Config, w: World, w2: World)
    requires Inv(cfg, w) && Indexed(w2)
    requires w.clock <= w2.clock && w2.store == w.store.(deadlines := w2.store.deadlines)
    requires w2 == w.(clock := w2.clock, condemned := w2.condemned, store := w2.store)
    requires w2.condemned <= w.store.sessions.Keys
    ensures Inv(cfg, w2)
  {
  }

  lemma InitiateKept(cfg: Config, w: World, a: Action)
    requires ValidConfig(cfg) && Inv(cfg, w) && a.Initiate? && Permitted(cfg, w, a)
    ensures Inv(cfg, Step(cfg, w, a))
  {
    hide Step, Permitted, Wrote, Created, BusyNamesCall, ActiveHoldsBusy, Indexed, Batched;
    var wrote, b, until := InitiateEffect(cfg, w, a);
    if wrote {
      InvAfterWrite(cfg, w, Step(cfg, w, a), a.op, a.session, until, a.events, b);
    } else {
      WaitedKept(cfg, w, Step(cfg, w, a));
    }
  }

  lemma CommitKept(cfg: Config, w: World, a: Action)
    requires ValidConfig(cfg) && Inv(cfg, w) && a.Commit? && Permitted(cfg, w, a)
    ensures Inv(cfg, Step(cfg, w, a))
  {
    assert Decide(a.expected, a.request).Update?;
    hide Step, Permitted, Wrote, Advanced, Answered, Closed, BusyNamesCall, ActiveHoldsBusy, Indexed, Batched, Decide;
    var wrote, until := CommitEffect(cfg, w, a);
    if wrote {
      InvAfterWrite(cfg, w, Step(cfg, w, a), a.op, Decide(a.expected, a.request).session, until, a.events, until);
    } else {
      WaitedKept(cfg, w, Step(cfg, w, a));
    }
  }

  lemma StepKeepsInv(cfg: Config, w: World, a: Action)
    requires ValidConfig(cfg) && Inv(cfg, w) && Permitted(cfg, w, a)
    ensures Inv(cfg, Step(cfg, w, a))
  {
    match a {
      case Produce(_, _, _) => ProduceKept(cfg, w, a);
      case Initiate(_, _, _, _, _) => InitiateKept(cfg, w, a);
      case Commit(_, _, _, _, _) => CommitKept(cfg, w, a);
      case _ =>
        IndexedSweep(cfg, w, a);
        hide Filed, Ledgered, Spent, BusyNamesCall, ActiveHoldsBusy, Indexed, Batched;
        SweepKept(cfg, w, Step(cfg, w, a));
    }
  }

  lemma InvAfterWrite(cfg: Config, w: World, w2: World, op: OpKey, s: Session, until: Time, events: seq<PendingEvent>,
                      b: Time)
    requires Inv(cfg, w) && Wrote(cfg, w, w2, op, s, until, events)
    requires (Created(cfg, w, w2, op, s, b) && b <= until)
             || (Advanced(w, w2, op, s) && (Answered(w, w2, s, until) || Closed(w, w2, s)))
    ensures Inv(cfg, w2)
  {
    LedgeredKept(cfg, w, w2, op, s, until, events, b);
    SpentKept(cfg, w, w2, op, s, until, events, b);
    IndexedKept(cfg, w, w2, op, s, until, events, b);
    BatchedKept(cfg, w, w2, op, s, until, events);
    if Created(cfg, w, w2, op, s, b) && b <= until {
      FiledCreated(cfg, w, w2, op, s, until, events, b);
      BusyCreated(cfg, w, w2, op, s, until, events, b);
      ActiveCreated(cfg, w, w2, op, s, until, events, b);
    } else {
      FiledAdvanced(cfg, w, w2, op, s, until, events);
      BusyAdvanced(cfg, w, w2, op, s, until, events);
      ActiveAdvanced(cfg, w, w2, op, s, until, events);
    }
  }

  lemma {:induction false} RunKeepsInv(cfg: Config, w: World, acts: seq<Action>)
    requires ValidConfig(cfg) && Inv(cfg, w) && PermittedRun(cfg, w, acts)
    ensures Inv(cfg, Run(cfg, w, acts))
    decreases |acts|
  {
    if acts != [] {
      StepKeepsInv(cfg, w, acts[0]);
      RunKeepsInv(cfg, Step(cfg, w, acts[0]), acts[1..]);
    }
  }

  // ---- main results ----

  predicate InProgress(st: Store, id: CallId, now: Time) {
    Live(st.sessions, id, now) && st.sessions[id].value.phase != Ended
  }

  predicate LiveActive(st: Store, id: CallId, now: Time) {
    Live(st.sessions, id, now) && st.sessions[id].value.phase == Active
  }

  predicate ShareUser(a: Session, b: Session) {
    Involves(a, b.caller) || Involves(a, b.callee)
  }

  /** No user is in two live active calls. */
  predicate Exclusive(st: Store, now: Time) {
    forall a, b | a in st.sessions && b in st.sessions && LiveActive(st, a, now) && LiveActive(st, b, now)
                  && ShareUser(st.sessions[a].value, st.sessions[b].value) :: a == b
  }

  lemma ActiveCallsExclude(w: World)
    requires ActiveHoldsBusy(w)
    ensures Exclusive(w.store, w.clock)
  {
  }

  /** Safety of every run from the empty store. */
  lemma EveryRunIsSafe(cfg: Config, acts: seq<Action>)
    requires ValidConfig(cfg) && PermittedRun(cfg, START, acts)
    ensures var w := Run(cfg, START, acts);
            && Exclusive(w.store, w.clock)
            && BusyNamesCall(w)
            && (forall id | id in w.trail :: GoodTrail(w.trail[id]))
            && w.store.stream == Flatten(w.batches)
            && (forall i, j | 0 <= i < j < |w.batches| :: w.batches[i].op != w.batches[j].op)
  {
    assert Inv(cfg, START);
    RunKeepsInv(cfg, START, acts);
    ActiveCallsExclude(Run(cfg, START, acts));
  }

  /** A refused create points at a call in progress with one of the parties, and a create that names a party of a live
      active call is always refused. */
  lemma BusyRefusal(cfg: Config, w: World, at: Time, now: Time, s: Session, op: OpKey, events: seq<PendingEvent>)
    requires BusyNamesCall(w) && ActiveHoldsBusy(w) && w.clock <= now && !Done(w.store, op, now)
    ensures Create(w.store, cfg, at, now, s, op, events).1 == Refused ==>
              exists id :: InProgress(w.store, id, now)
                           && (Involves(w.store.sessions[id].value, s.caller)
                               || Involves(w.store.sessions[id].value, s.callee))
    ensures (exists id :: LiveActive(w.store, id, now) && ShareUser(w.store.sessions[id].value, s)) ==>
              Create(w.store, cfg, at, now, s, op, events).1 == Refused
  {
  }

  /** A delivery is answered as a replay, and changes nothing, exactly when its operation ran and is still
      remembered. */
  lemma ReplayedIff(cfg: Config, w: World, op: OpKey, at: Time, now: Time, s: Session, d: Session, terminal: bool,
                    events: seq<PendingEvent>)
    requires Ledgered(cfg, w)
    ensures Create(w.store, cfg, at, now, s, op, events).1 == Replayed
            <==> op in w.firstRun && Remembered(cfg, w, op, now)
    ensures Transition(w.store, cfg, at, now, s, d, terminal, op, events).1 == Replayed
            <==> op in w.firstRun && Remembered(cfg, w, op, now)
  {
  }

  /** Redelivery of a committed operation inside the replay window changes nothing. */
  lemma ReplayIsSilent(cfg: Config, w: World, op: OpKey, at: Time, now: Time, s: Session, d: Session, terminal: bool,
                       events: seq<PendingEvent>)
    requires ValidConfig(cfg) && Ledgered(cfg, w) && op in w.firstRun && now <= w.firstRun[op] + cfg.replayWindow
    ensures Create(w.store, cfg, at, now, s, op, events) == (w.store, Replayed)
    ensures Transition(w.store, cfg, at, now, s, d, terminal, op, events) == (w.store, Replayed)
  {
  }

  /** An operation runs once, however late its copies come: whatever delivers it again changes nothing but the clock. */
  lemma OperationsRunOnce(cfg: Config, w: World, a: Action)
    requires ValidConfig(cfg) && Inv(cfg, w) && Permitted(cfg, w, a) && (a.Initiate? || a.Commit?) && a.op in w.firstRun
    ensures Step(cfg, w, a) == w.(clock := a.now)
  {
    if a.Initiate? {
      var _, _, _ := InitiateEffect(cfg, w, a);
    } else {
      var _, _ := CommitEffect(cfg, w, a);
    }
  }

  lemma StepGrowsTrail(cfg: Config, w: World, a: Action, id: CallId)
    requires id in w.trail
    ensures id in Step(cfg, w, a).trail && w.trail[id] <= Step(cfg, w, a).trail[id]
  {
  }

  lemma {:induction false} RunGrowsTrail(cfg: Config, w: World, acts: seq<Action>, id: CallId)
    requires id in w.trail
    ensures id in Run(cfg, w, acts).trail && w.trail[id] <= Run(cfg, w, acts).trail[id]
    decreases |acts|
  {
    if acts != [] {
      StepGrowsTrail(cfg, w, acts[0], id);
      RunGrowsTrail(cfg, Step(cfg, w, acts[0]), acts[1..], id);
    }
  }

  lemma PhasesDiffer(t: seq<Phase>, n: nat)
    requires GoodTrail(t) && n + 1 < |t|
    ensures t[n] != t[|t| - 1]
  {
  }

  /** A commit whose reading is older than the call's present phase changes nothing. */
  lemma StaleReadingLoses(cfg: Config, w: World, c: Action, n: nat)
    requires ValidConfig(cfg) && Inv(cfg, w) && c.Commit? && Permitted(cfg, w, c)
    requires c.expected.id in w.trail && n + 1 < |w.trail[c.expected.id]|
    requires w.trail[c.expected.id][n] == c.expected.phase
    ensures Step(cfg, w, c) == w.(clock := c.now)
  {
    hide Step, Permitted, Wrote, Answered, Closed, BusyNamesCall, ActiveHoldsBusy, Indexed, Batched, Ledgered, Spent,
         GoodTrail, Decide;
    var wrote, _ := CommitEffect(cfg, w, c);
    PhasesDiffer(w.trail[c.expected.id], n);
  }

  /** Of all commits that start from the same reading of a call, whatever runs in between, only the first succeeds. */
  lemma OneWinner(cfg: Config, w: World, first: Action, between: seq<Action>, second: Action)
    requires ValidConfig(cfg) && Inv(cfg, w)
    requires first.Commit? && second.Commit? && first.expected == second.expected
    requires Permitted(cfg, w, first) && first.op !in w.firstRun && first.op in Step(cfg, w, first).firstRun
    requires PermittedRun(cfg, Step(cfg, w, first), between)
    requires Permitted(cfg, Run(cfg, Step(cfg, w, first), between), second)
    ensures var w2 := Run(cfg, Step(cfg, w, first), between);
            Step(cfg, w2, second) == w2.(clock := second.now)
  {
    var w1 := Step(cfg, w, first);
    StepKeepsInv(cfg, w, first);
    RunKeepsInv(cfg, w1, between);
    var n := WinnerMovesOn(cfg, w, first);
    RunGrowsTrail(cfg, w1, between, first.expected.id);
    StaleReadingLoses(cfg, Run(cfg, w1, between), second, n);
  }

  lemma WinnerMovesOn(cfg: Config, w: World, c: Action) returns (n: nat)
    requires ValidConfig(cfg) && Inv(cfg, w)
    requires c.Commit? && Permitted(cfg, w, c) && c.op !in w.firstRun && c.op in Step(cfg, w, c).firstRun
    ensures var w1 := Step(cfg, w, c);
            c.expected.id in w1.trail && n + 1 < |w1.trail[c.expected.id]|
              && w1.trail[c.expected.id][n] == c.expected.phase
  {
    var _, _ := CommitEffect(cfg, w, c);
    n := |w.trail[c.expected.id]| - 1;
  }

  // ---- the deadline index ----

  predicate StillRinging(w: World, id: CallId) {
    Live(w.store.sessions, id, w.clock) && w.store.sessions[id].value.phase == Ringing
  }

  ghost predicate KeepsIndexEntry(cfg: Config, w: World, id: CallId) {
    forall acts | PermittedRun(cfg, w, acts) && StillRinging(Run(cfg, w, acts), id) ::
      id in Run(cfg, w, acts).store.deadlines
  }

  lemma StepKeepsDeadline(cfg: Config, w: World, a: Action, id: CallId)
    requires ValidConfig(cfg) && Inv(cfg, w) && Permitted(cfg, w, a) && id in w.store.sessions
    ensures id in Step(cfg, w, a).store.sessions
    ensures Step(cfg, w, a).store.sessions[id].value.ringDeadline == w.store.sessions[id].value.ringDeadline
  {
    if a.Initiate? {
      var _, _, _ := InitiateEffect(cfg, w, a);
    } else if a.Commit? {
      var _, _ := CommitEffect(cfg, w, a);
    }
  }

  lemma {:induction false} RunKeepsDeadline(cfg: Config, w: World, acts: seq<Action>, id: CallId)
    requires ValidConfig(cfg) && Inv(cfg, w) && PermittedRun(cfg, w, acts) && id in w.store.sessions
    ensures id in Run(cfg, w, acts).store.sessions
    ensures Run(cfg, w, acts).store.sessions[id].value.ringDeadline == w.store.sessions[id].value.ringDeadline
    decreases |acts|
  {
    if acts != [] {
      StepKeepsDeadline(cfg, w, acts[0], id);
      StepKeepsInv(cfg, w, acts[0]);
      RunKeepsDeadline(cfg, Step(cfg, w, acts[0]), acts[1..], id);
    }
  }

  /** The sweep that drops a ringing call whose deadline has not come: it reads in the deadline's own second. */
  function EarlySweep(w: World, id: CallId): seq<Action>
    requires id in w.store.sessions
  {
    var t := Max(w.clock, UnixSeconds(w.store.sessions[id].value.ringDeadline) * SECOND);
    [SweepRead(id, t, t), SweepDrop(id, t)]
  }

  lemma EarlySweepDrops(cfg: Config, w: World, id: CallId)
    requires Inv(cfg, w) && StillRinging(w, id) && w.clock < w.store.sessions[id].value.ringDeadline
    requires w.store.sessions[id].value.ringDeadline % SECOND != 0
    ensures PermittedRun(cfg, w, EarlySweep(w, id))
    ensures var w2 := Run(cfg, w, EarlySweep(w, id));
            StillRinging(w2, id) && w2.clock < w2.store.sessions[id].value.ringDeadline && id !in w2.store.deadlines
  {
    var acts := EarlySweep(w, id);
    var d := w.store.sessions[id].value.ringDeadline;
    var t := acts[0].now;
    assert t < d && UnixSeconds(d) <= UnixSeconds(t);
    assert Condemns(w, id, t, t);
    var w1 := Step(cfg, w, acts[0]);
    assert acts[1..] == [acts[1]] && acts[1..][1..] == [];
    assert Run(cfg, w, acts) == Run(cfg, w1, acts[1..]) == Step(cfg, w1, acts[1]);
  }

  /** A ringing call stays in the deadline index in every run exactly when its deadline is a whole second. */
  lemma IndexedIffWholeSecond(cfg: Config, w: World, id: CallId)
    requires ValidConfig(cfg) && Inv(cfg, w) && StillRinging(w, id) && w.clock < w.store.sessions[id].value.ringDeadline
    ensures KeepsIndexEntry(cfg, w, id) <==> w.store.sessions[id].value.ringDeadline % SECOND == 0
  {
    if w.store.sessions[id].value.ringDeadline % SECOND == 0 {
      forall acts | PermittedRun(cfg, w, acts) && StillRinging(Run(cfg, w, acts), id)
        ensures id in Run(cfg, w, acts).store.deadlines
      {
        RunKeepsInv(cfg, w, acts);
        RunKeepsDeadline(cfg, w, acts, id);
      }
    } else {
      EarlySweepDrops(cfg, w, id);
    }
  }
}
