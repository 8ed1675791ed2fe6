/** Recalling a message: only its sender, once, within two minutes; others learn no more than they may read. */
module Recalls {
  import opened Common
  import opened KeysetSync

  datatype Recall = Recall(operator: UserId, at: Time)
  datatype Status = Ok | AlreadyRecalled | TooLate | Forbidden | NotFound

  /** Messages with their recalls; times are in nanoseconds. */
  datatype Messages = Messages(log: Log, store: Store, recalls: map<MessageId, Recall>)

  const WINDOW := 120_000_000_000

  predicate Exists(ms: Messages, id: MessageId) {
    id in ms.log && id in ms.store.present
  }

  function RecallMessage(ms: Messages, operator: UserId, id: MessageId, now: Time): (Messages, Status) {
    if operator <= 0 || id <= 0 || !Exists(ms, id) then (ms, NotFound)
    else if ms.log[id].from != operator
    then (ms, if CanUserRead(ms.log, ms.store, operator, id) then Forbidden else NotFound)
    else if id in ms.recalls then (ms, AlreadyRecalled)
    else if now - ms.log[id].timestamp > WINDOW then (ms, TooLate)
    else (ms.(recalls := ms.recalls[id := Recall(operator, now)]), Ok)
  }

  /** A recall happens exactly when the sender asks in time for the first time. Whoever may not read the message gets
      the same answer as for a message that does not exist. */
  lemma RecallRights(ms: Messages, operator: UserId, id: MessageId, now: Time)
    ensures var (after, status) := RecallMessage(ms, operator, id, now);
            && (after != ms <==> status == Ok)
            && (status == Ok <==>
                  && operator > 0 && id > 0 && Exists(ms, id) && ms.log[id].from == operator && id !in ms.recalls
                  && now <= ms.log[id].timestamp + 2 * 60 * 1_000_000_000)
            && (id > 0 ==> (status == NotFound <==> !Exists(ms, id) || !CanUserRead(ms.log, ms.store, operator, id)))
            && (id <= 0 ==> status == NotFound)
            && (status == Forbidden <==>
                  && id > 0 && Exists(ms, id) && ms.log[id].from != operator
                  && CanUserRead(ms.log, ms.store, operator, id))
            && (status == AlreadyRecalled <==>
                  operator > 0 && id > 0 && Exists(ms, id) && ms.log[id].from == operator && id in ms.recalls)
            && (status == Ok ==> after == ms.(recalls := ms.recalls[id := Recall(operator, now)]))
  {
  }

  datatype Request = Request(operator: UserId, id: MessageId, now: Time)

  function Run(ms: Messages, requests: seq<Request>): Messages
    decreases |requests|
  {
    if requests == [] then ms
    else Run(RecallMessage(ms, requests[0].operator, requests[0].id, requests[0].now).0, requests[1..])
  }

  /** A recall is final: later requests leave it as it is, and the sender is told so. */
  lemma {:induction false} RecallIsFinal(ms: Messages, requests: seq<Request>, id: MessageId, now: Time)
    requires id in ms.recalls && id > 0 && Exists(ms, id) && ms.log[id].from > 0
    ensures var after := Run(ms, requests);
            && id in after.recalls && after.recalls[id] == ms.recalls[id]
            && RecallMessage(after, ms.log[id].from, id, now) == (after, AlreadyRecalled)
    decreases |requests|
  {
    if requests != [] {
      var r := requests[0];
      RecallIsFinal(RecallMessage(ms, r.operator, r.id, r.now).0, requests[1..], id, now);
    }
  }

  class MessageTable {
    var log: Log
    var store: Store
    var recalls: map<MessageId, Recall>

    ghost function Value(): Messages
      reads this
    {
      Messages(log, store, recalls)
    }

    constructor (log: Log, store: Store)
      ensures Value() == Messages(log, store, map[])
    {
      this.log, this.store, recalls := log, store, map[];
    }

    /** RecallMessageWithDB, on the row it has locked. */
    method RecallMessageWithDB(operator: UserId, id: MessageId, now: Time) returns (status: Status)
      modifies this`recalls
      ensures (Value(), status) == RecallMessage(old(Value()), operator, id, now)
    {
      if operator <= 0 || id <= 0 || id !in log || id !in store.present {
        return NotFound;
      }
      if log[id].from != operator {
        if CanUserRead(log, store, operator, id) {
          return Forbidden;
        }
        return NotFound;
      }
      if id in recalls {
        return AlreadyRecalled;
      }
      if now - log[id].timestamp > WINDOW {
        return TooLate;
      }
      recalls := recalls[id := Recall(operator, now)];
      return Ok;
    }
  }
}
