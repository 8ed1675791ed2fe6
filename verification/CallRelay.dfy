/** The call event relay: stream entries are published, recorded in a ledger, acknowledged and deleted. */
module CallRelay {
  import opened Common

  type StreamId = nat

  datatype Entry = Entry(eventId: string, operationKey: string, topic: string, payload: string)

  predicate Corrupt(e: Entry) {
    e.eventId == "" || e.topic == "" || e.payload == ""
  }

  /** `pending` are the delivered ids not acknowledged yet, `ledger` the expiries of the sent marks, `broker` what Kafka
      accepted. */
  datatype Redis = Redis(stream: map<StreamId, Entry>, pending: set<StreamId>, ledger: map<string, Time>)
  datatype State = State(redis: Redis, broker: seq<Entry>)

  /** Where the handling of one entry stops; a failed publish may still have reached the broker. */
  datatype Fault = NoFault | AckFails | LookupFails | PublishFails(accepted: bool) | SettleFails

  predicate Sent(r: Redis, eventId: string, now: Time) {
    eventId in r.ledger && now < r.ledger[eventId]
  }

  /** The last pipeline: mark, acknowledge and delete in one transaction. */
  function Settle(r: Redis, id: StreamId, e: Entry, expiresAt: Time): Redis {
    Redis(r.stream - {id}, r.pending - {id}, r.ledger[e.eventId := expiresAt])
  }

  function Handle(st: State, id: StreamId, e: Entry, now: Time, ttl: Time, fault: Fault): (State, bool) {
    if Corrupt(e) then
      if fault == AckFails then (st, false) else (st.(redis := st.redis.(pending := st.redis.pending - {id})), true)
    else if fault == LookupFails then (st, false)
    else if !Sent(st.redis, e.eventId, now) && fault.PublishFails? then
      (st.(broker := st.broker + if fault.accepted then [e] else []), false)
    else
      var st1 := if Sent(st.redis, e.eventId, now) then st else st.(broker := st.broker + [e]);
      if fault == SettleFails then (st1, false) else (st1.(redis := Settle(st1.redis, id, e, now + ttl)), true)
  }

  datatype Delivery = Delivery(id: StreamId, entry: Entry)

  /** A batch up to the first failure: the state, and how many entries were finished. */
  function HandleAll(st: State, batch: seq<Delivery>, now: Time, ttl: Time, faults: seq<Fault>): (State, nat)
    requires |faults| == |batch|
    decreases |batch|
  {
    if batch == [] then (st, 0)
    else
      var (st1, ok) := Handle(st, batch[0].id, batch[0].entry, now, ttl, faults[0]);
      if !ok then (st1, 0)
      else
        var (st2, n) := HandleAll(st1, batch[1..], now, ttl, faults[1..]);
        (st2, n + 1)
  }

  /** What happens to one entry. A corrupt one is only acknowledged. Another one goes to the broker unless a mark that
      has not expired says it is there; then it is marked, acknowledged and deleted together, and a fault on the way
      leaves all of that undone. */
  lemma HandleDoes(st: State, id: StreamId, e: Entry, now: Time, ttl: Time, fault: Fault)
    ensures var (after, finished) := Handle(st, id, e, now, ttl, fault);
            var corrupt := e.eventId == "" || e.topic == "" || e.payload == "";
            var marked := e.eventId in st.redis.ledger && now < st.redis.ledger[e.eventId];
            var reaches := !corrupt && !marked && fault != LookupFails && fault != PublishFails(false);
            && (finished <==> if corrupt then fault != AckFails
                              else fault != LookupFails && fault != SettleFails && (fault.PublishFails? ==> marked))
            && after.broker == st.broker + (if reaches then [e] else [])
            && after.redis == if !finished then st.redis
                              else if corrupt then Redis(st.redis.stream, st.redis.pending - {id}, st.redis.ledger)
                              else Redis(st.redis.stream - {id}, st.redis.pending - {id},
                                         st.redis.ledger[e.eventId := now + ttl])
  {
  }

  /** The entries before place k handled one after the other. */
  function Handled(st: State, batch: seq<Delivery>, now: Time, ttl: Time, faults: seq<Fault>, k: nat): State
    requires |faults| == |batch| && k <= |batch|
  {
    if k == 0 then st
    else
      Handle(Handled(st, batch, now, ttl, faults, k - 1), batch[k - 1].id, batch[k - 1].entry, now, ttl,
             faults[k - 1]).0
  }

  lemma {:induction false} HandledFrom(st: State, batch: seq<Delivery>, now: Time, ttl: Time, faults: seq<Fault>,
                                       k: nat)
    requires |faults| == |batch| && 0 < k <= |batch|
    ensures var first := Handle(st, batch[0].id, batch[0].entry, now, ttl, faults[0]).0;
            Handled(st, batch, now, ttl, faults, k) == Handled(first, batch[1..], now, ttl, faults[1..], k - 1)
  {
    hide Handle;
    if k > 1 {
      HandledFrom(st, batch, now, ttl, faults, k - 1);
    }
  }

  /** A batch is handled in order up to and including the first entry that is not finished. */
  lemma {:induction false} BatchStopsAtFailure(st: State, batch: seq<Delivery>, now: Time, ttl: Time,
                                               faults: seq<Fault>)
    requires |faults| == |batch|
    ensures var (after, n) := HandleAll(st, batch, now, ttl, faults);
            && n <= |batch| && after == Handled(st, batch, now, ttl, faults, if n < |batch| then n + 1 else n)
            && (forall k | 0 <= k < n ::
                  Handle(Handled(st, batch, now, ttl, faults, k), batch[k].id, batch[k].entry, now, ttl, faults[k]).1)
            && (n < |batch| ==>
                  !Handle(Handled(st, batch, now, ttl, faults, n), batch[n].id, batch[n].entry, now, ttl, faults[n]).1)
    decreases |batch|
  {
    hide Handle;
    if batch != [] {
      var (first, ok) := Handle(st, batch[0].id, batch[0].entry, now, ttl, faults[0]);
      if ok {
        BatchStopsAtFailure(first, batch[1..], now, ttl, faults[1..]);
        var (after, n) := HandleAll(st, batch, now, ttl, faults);
        forall k | 0 < k <= n
          ensures Handled(st, batch, now, ttl, faults, k) == Handled(first, batch[1..], now, ttl, faults[1..], k - 1)
          ensures k < |batch| ==> batch[1..][k - 1] == batch[k] && faults[1..][k - 1] == faults[k]
        {
          HandledFrom(st, batch, now, ttl, faults, k);
        }
        if n < |batch| {
          HandledFrom(st, batch, now, ttl, faults, n + 1);
        }
        forall k | 0 <= k < n
          ensures Handle(Handled(st, batch, now, ttl, faults, k), batch[k].id, batch[k].entry, now, ttl, faults[k]).1
        {
          if k > 0 {
            var d := batch[1..][k - 1];
            assert Handle(Handled(first, batch[1..], now, ttl, faults[1..], k - 1), d.id, d.entry, now, ttl,
                          faults[1..][k - 1]).1;
          }
        }
      }
    }
  }

  class EventRelay {
    var stream: map<StreamId, Entry>
    var pending: set<StreamId>
    var ledger: map<string, Time>
    var broker: seq<Entry>

    ghost function Value(): State
      reads this
    {
      State(Redis(stream, pending, ledger), broker)
    }

    constructor ()
      ensures Value() == State(Redis(map[], {}, map[]), [])
    {
      stream, pending, ledger, broker := map[], {}, map[], [];
    }

    /** process. */
    method Process(batch: seq<Delivery>, now: Time, ttl: Time, faults: seq<Fault>) returns (ok: bool)
      requires |faults| == |batch|
      modifies this
      ensures Value() == HandleAll(old(Value()), batch, now, ttl, faults).0
      ensures ok <==> HandleAll(old(Value()), batch, now, ttl, faults).1 == |batch|
    {
      ghost var whole := HandleAll(Value(), batch, now, ttl, faults);
      for i := 0 to |batch|
        invariant HandleAll(Value(), batch[i..], now, ttl, faults[i..]) == (whole.0, whole.1 - i)
        invariant i <= whole.1
      {
        assert batch[i..][1..] == batch[i + 1..] && faults[i..][1..] == faults[i + 1..];
        var id, e, fault := batch[i].id, batch[i].entry, faults[i];
        ghost var (next, handled) := Handle(Value(), id, e, now, ttl, fault);
        if Corrupt(e) {
          if fault == AckFails {
            return false;
          }
          pending := pending - {id};
          continue;
        }
        if fault == LookupFails {
          return false;
        }
        if !(e.eventId in ledger && now < ledger[e.eventId]) {
          if fault.PublishFails? {
            if fault.accepted {
              broker := broker + [e];
            }
            return false;
          }
          broker := broker + [e];
        }
        if fault == SettleFails {
          return false;
        }
        ledger := ledger[e.eventId := now + ttl];
        pending := pending - {id};
        stream := stream - {id};
      }
      assert batch[|batch|..] == [];
      return true;
    }
  }

  // ---- several relays, interrupted anywhere ----

  /** What a relay that looked an entry up still has to do. */
  datatype Stage = Looked(sent: bool) | Published
  datatype Work = Work(id: StreamId, stage: Stage)

  /** `log` is every entry ever appended to the stream. */
  datatype World = World(state: State, log: map<StreamId, Entry>, work: map<nat, Work>, clock: Time)

  const START := World(State(Redis(map[], {}, map[]), []), map[], map[], 0)

  datatype Action =
    | Append(id: StreamId, entry: Entry, now: Time)
    | Deliver(id: StreamId, now: Time)
    | LookUp(relay: nat, id: StreamId, now: Time)
    | Publish(relay: nat, accepted: bool, now: Time)
    | Finish(relay: nat, ttl: Time, now: Time)
    | Discard(id: StreamId, now: Time)
    | Crash(relay: nat, now: Time)

  /** Stream ids are new, and one event id names one event. */
  predicate Permitted(w: World, a: Action) {
    && w.clock <= a.now
    && (a.Append? ==> a.id !in w.log && forall i | i in w.log :: w.log[i].eventId != a.entry.eventId)
  }

  function Step(w: World, a: Action): World {
    var st, w1 := w.state, w.(clock := a.now);
    match a
    case Append(id, e, _) =>
      w1.(log := w.log[id := e], state := st.(redis := st.redis.(stream := st.redis.stream[id := e])))
    case Deliver(id, _) =>
      if id in st.redis.stream then w1.(state := st.(redis := st.redis.(pending := st.redis.pending + {id}))) else w1
    case LookUp(relay, id, now) =>
      if id in w.log && !Corrupt(w.log[id])
      then w1.(work := w.work[relay := Work(id, Looked(Sent(st.redis, w.log[id].eventId, now)))])
      else w1
    case Publish(relay, accepted, _) =>
      if relay in w.work && w.work[relay].stage == Looked(false) && w.work[relay].id in w.log then
        var e := w.log[w.work[relay].id];
        if accepted
        then w1.(state := st.(broker := st.broker + [e]),
                 work := w.work[relay := w.work[relay].(stage := Published)])
        else w1
      else w1
    case Finish(relay, ttl, now) =>
      if relay in w.work && w.work[relay].stage in {Looked(true), Published} && w.work[relay].id in w.log then
        var id := w.work[relay].id;
        w1.(state := st.(redis := Settle(st.redis, id, w.log[id], now + ttl)), work := w.work - {relay})
      else w1
    case Discard(id, _) =>
      if id in w.log && Corrupt(w.log[id])
      then w1.(state := st.(redis := st.redis.(pending := st.redis.pending - {id})))
      else w1
    case Crash(relay, _) => w1.(work := w.work - {relay})
  }

  function Run(w: World, acts: seq<Action>): World
    decreases |acts|
  {
    if acts == [] then w else Run(Step(w, acts[0]), acts[1..])
  }

  predicate PermittedRun(w: World, acts: seq<Action>)
    decreases |acts|
  {
    acts != [] ==> Permitted(w, acts[0]) && PermittedRun(Step(w, acts[0]), acts[1..])
  }

  predicate OneName(log: map<StreamId, Entry>) {
    forall i, j | i in log && j in log && log[i].eventId == log[j].eventId :: i == j
  }

  predicate OnBroker(w: World, id: StreamId) {
    id in w.log && w.log[id] in w.state.broker
  }

  predicate MarkTrue(w: World, name: string) {
    exists id | id in w.log :: w.log[id].eventId == name && OnBroker(w, id)
  }

  predicate Logged(w: World, e: Entry) {
    exists id | id in w.log :: w.log[id] == e
  }

  /** Entries only leave the stream, and marks are only set, once the broker has the event. */
  predicate Inv(w: World) {
    OneName(w.log) && StreamTrue(w) && WorkTrue(w) && BrokerTrue(w)
  }

  predicate StreamTrue(w: World) {
    && (forall id | id in w.state.redis.stream :: id in w.log && w.state.redis.stream[id] == w.log[id])
    && (forall id | id in w.log && id !in w.state.redis.stream :: OnBroker(w, id))
    && (forall name | name in w.state.redis.ledger :: MarkTrue(w, name))
  }

  predicate WorkTrue(w: World) {
    forall r | r in w.work :: w.work[r].id in w.log && (w.work[r].stage != Looked(false) ==> OnBroker(w, w.work[r].id))
  }

  predicate BrokerTrue(w: World) {
    forall e | e in w.state.broker :: Logged(w, e)
  }

  ghost predicate Grew(w: World, w2: World) {
    && (forall id | id in w.log :: id in w2.log && w2.log[id] == w.log[id])
    && (forall e | e in w.state.broker :: e in w2.state.broker)
  }

  lemma GrowingKeeps(w: World, w2: World)
    requires Grew(w, w2)
    ensures forall id | OnBroker(w, id) :: OnBroker(w2, id)
    ensures forall name | MarkTrue(w, name) :: MarkTrue(w2, name)
    ensures forall e | Logged(w, e) :: Logged(w2, e)
  {
  }

  lemma StepGrows(w: World, a: Action)
    requires Permitted(w, a)
    ensures Grew(w, Step(w, a))
  {
  }

  /** A live mark means that this very entry is with the broker. */
  lemma MarkedIsOnBroker(w: World, id: StreamId)
    requires Inv(w) && id in w.log && w.log[id].eventId in w.state.redis.ledger
    ensures OnBroker(w, id)
  {
  }

  lemma StepStream(w: World, a: Action)
    requires StreamTrue(w) && WorkTrue(w) && Permitted(w, a)
    ensures StreamTrue(Step(w, a))
  {
    hide MarkTrue;
    StepGrows(w, a);
    GrowingKeeps(w, Step(w, a));
    if a.Finish? && a.relay in w.work && w.work[a.relay].stage in {Looked(true), Published} {
      IsMarked(Step(w, a), w.work[a.relay].id);
    }
  }

  lemma PublishReaches(w: World, a: Action)
    requires a.Publish? && a.accepted && a.relay in w.work && w.work[a.relay].id in w.log
    requires w.work[a.relay].stage == Looked(false)
    ensures OnBroker(Step(w, a), w.work[a.relay].id)
  {
  }

  lemma StepWork(w: World, a: Action)
    requires Inv(w) && Permitted(w, a)
    ensures WorkTrue(Step(w, a))
  {
    hide MarkTrue, Logged, BrokerTrue, OnBroker, Corrupt;
    StepGrows(w, a);
    GrowingKeeps(w, Step(w, a));
    if a.Publish? && a.relay in w.work && w.work[a.relay].id in w.log && w.work[a.relay].stage == Looked(false)
      && a.accepted {
      PublishReaches(w, a);
    }
    if a.LookUp? && a.id in w.log && w.log[a.id].eventId in w.state.redis.ledger {
      MarkedIsOnBroker(w, a.id);
    }
  }

  lemma StepBroker(w: World, a: Action)
    requires BrokerTrue(w) && Permitted(w, a)
    ensures BrokerTrue(Step(w, a))
  {
    hide Logged;
    StepGrows(w, a);
    GrowingKeeps(w, Step(w, a));
    if a.Publish? && a.relay in w.work && w.work[a.relay].id in w.log {
      IsLogged(Step(w, a), w.work[a.relay].id);
    }
  }

  lemma StepKeepsInv(w: World, a: Action)
    requires Inv(w) && Permitted(w, a)
    ensures Inv(Step(w, a))
  {
    hide StreamTrue, WorkTrue, BrokerTrue;
    StepStream(w, a);
    StepWork(w, a);
    StepBroker(w, a);
  }

  lemma IsLogged(w: World, id: StreamId)
    requires id in w.log
    ensures Logged(w, w.log[id])
  {
  }

  lemma IsMarked(w: World, id: StreamId)
    requires OnBroker(w, id)
    ensures MarkTrue(w, w.log[id].eventId)
  {
  }

  lemma {:induction false} RunKeepsInv(w: World, acts: seq<Action>)
    requires Inv(w) && PermittedRun(w, acts)
    ensures Inv(Run(w, acts)) && Grew(w, Run(w, acts))
    decreases |acts|
  {
    hide Inv, Step, Permitted;
    if acts != [] {
      StepKeepsInv(w, acts[0]);
      StepGrows(w, acts[0]);
      RunKeepsInv(Step(w, acts[0]), acts[1..]);
    }
  }

  lemma {:induction false} LogStays(w: World, acts: seq<Action>, id: StreamId)
    requires PermittedRun(w, acts) && id in w.log
    ensures id in Run(w, acts).log && Run(w, acts).log[id] == w.log[id]
    decreases |acts|
  {
    hide Step, Permitted;
    if acts != [] {
      StepGrows(w, acts[0]);
      LogStays(Step(w, acts[0]), acts[1..], id);
    }
  }

  lemma {:induction false} AppendedIsLogged(w: World, acts: seq<Action>, k: nat)
    requires PermittedRun(w, acts) && k < |acts| && acts[k].Append?
    ensures acts[k].id in Run(w, acts).log && Run(w, acts).log[acts[k].id] == acts[k].entry
    decreases |acts|
  {
    hide Permitted;
    if k == 0 {
      LogStays(Step(w, acts[0]), acts[1..], acts[0].id);
    } else {
      AppendedIsLogged(Step(w, acts[0]), acts[1..], k - 1);
    }
  }

  /** In every run no appended event is lost: it is still in the stream or the broker has it; and the broker has nothing
      else. */
  lemma NoCallEventIsLost(acts: seq<Action>)
    requires PermittedRun(START, acts)
    ensures var w := Run(START, acts);
            && (forall k | 0 <= k < |acts| && acts[k].Append? ::
                  acts[k].id in w.log && w.log[acts[k].id] == acts[k].entry)
            && (forall id | id in w.log ::
                  (id in w.state.redis.stream && w.state.redis.stream[id] == w.log[id]) || w.log[id] in w.state.broker)
            && (forall e | e in w.state.broker :: Logged(w, e))
  {
    hide Step, Permitted;
    assert Inv(START);
    RunKeepsInv(START, acts);
    forall k | 0 <= k < |acts| && acts[k].Append?
      ensures acts[k].id in Run(START, acts).log && Run(START, acts).log[acts[k].id] == acts[k].entry
    {
      AppendedIsLogged(START, acts, k);
    }
  }

  function Copies(broker: seq<Entry>, e: Entry): nat {
    multiset(broker)[e]
  }

  /** No relay is between looking e up unsent and publishing it. */
  predicate Quiet(w: World, id: StreamId) {
    forall r | r in w.work && w.work[r].id == id :: w.work[r].stage != Looked(false)
  }

  lemma StepKeepsQuiet(w: World, a: Action, id: StreamId, until: Time)
    requires Inv(w) && Permitted(w, a) && id in w.log && a.now < until && Quiet(w, id)
    requires w.log[id].eventId in w.state.redis.ledger && until <= w.state.redis.ledger[w.log[id].eventId]
    requires a.Finish? ==> until <= a.now + a.ttl
    ensures var w2 := Step(w, a);
            && Quiet(w2, id) && id in w2.log && w2.log[id] == w.log[id]
            && w.log[id].eventId in w2.state.redis.ledger && until <= w2.state.redis.ledger[w.log[id].eventId]
            && Copies(w2.state.broker, w.log[id]) == Copies(w.state.broker, w.log[id])
  {
    hide MarkTrue, Logged;
    assert OneName(w.log);
    if a.Publish? && a.relay in w.work && w.work[a.relay].stage == Looked(false) {
      assert w.work[a.relay].id != id;
    }
  }

  /** Once the mark is set and no relay is about to publish, no further copy is published until the mark expires. */
  lemma {:induction false} MarkedIsNotPublishedAgain(w: World, acts: seq<Action>, id: StreamId, until: Time)
    requires Inv(w) && PermittedRun(w, acts) && id in w.log && Quiet(w, id)
    requires w.log[id].eventId in w.state.redis.ledger && until <= w.state.redis.ledger[w.log[id].eventId]
    requires forall i | 0 <= i < |acts| ::
               acts[i].now < until && (acts[i].Finish? ==> until <= acts[i].now + acts[i].ttl)
    ensures Copies(Run(w, acts).state.broker, w.log[id]) == Copies(w.state.broker, w.log[id])
    decreases |acts|
  {
    hide Inv, Step, Permitted, Quiet, Copies;
    if acts != [] {
      StepKeepsInv(w, acts[0]);
      StepKeepsQuiet(w, acts[0], id, until);
      MarkedIsNotPublishedAgain(Step(w, acts[0]), acts[1..], id, until);
    }
  }

  /** Handling an entry without a fault is what one relay's steps do, with no publish when the mark is live. */
  lemma HandleIsSteps(w: World, relay: nat, id: StreamId, now: Time, ttl: Time)
    requires id in w.log
    ensures Corrupt(w.log[id]) ==>
              Handle(w.state, id, w.log[id], now, ttl, NoFault) == (Step(w, Discard(id, now)).state, true)
    ensures !Corrupt(w.log[id]) ==>
            var looked := Step(w, LookUp(relay, id, now));
            var done := if Sent(w.state.redis, w.log[id].eventId, now) then looked
                        else Step(looked, Publish(relay, true, now));
            Handle(w.state, id, w.log[id], now, ttl, NoFault) == (Step(done, Finish(relay, ttl, now)).state, true)
  {
  }
}
