/** Friendships and the requests that lead to them or into groups. */
module Relationships {
  import opened Common
  import Groups

  type UserId = Groups.UserId
  type GroupId = Groups.GroupId
  type RequestId = int

  datatype Kind = Friend | GroupJoin | GroupInvite
  datatype Status = Pending | Accepted | Rejected | Cancelled | Expired

  /** The idempotency key that only a pending request holds; the pair of a friend key is ordered. */
  datatype ActiveKey = FriendKey(low: UserId, high: UserId) | JoinKey(group: GroupId, user: UserId)
                     | InviteKey(group: GroupId, user: UserId)

  datatype Request = Request(kind: Kind, requester: UserId, target: UserId, group: GroupId, status: Status,
                             key: Option<ActiveKey>, expiresAt: Time, resolvedAt: Option<Time>, resolvedBy: UserId)

  /** One direction of a friendship. */
  datatype FriendRow = FriendRow(deleted: bool, updateTime: Time)

  datatype Store = Store(groups: Groups.Store, friends: map<(UserId, UserId), FriendRow>,
                         requests: map<RequestId, Request>, nextId: RequestId)

  const EMPTY := Store(Groups.EMPTY, map[], map[], 1)

  datatype Error = Forbidden | NotFound | TooLate | InvalidState | AlreadyRelated
  datatype Outcome = Created(id: RequestId) | Existing(id: RequestId) | Refused(error: Error)
  datatype Resolution = Resolved | Failed(error: Error)

  /** Seven days, in nanoseconds. */
  const TTL := 604_800_000_000_000

  /** friendshipActive: one direction only. */
  predicate Active(st: Store, u: UserId, v: UserId) {
    (u, v) in st.friends && !st.friends[(u, v)].deleted
  }

  function PairKey(u: UserId, v: UserId): ActiveKey {
    if u > v then FriendKey(v, u) else FriendKey(u, v)
  }

  function KeyOf(r: Request): ActiveKey {
    match r.kind
    case Friend => PairKey(r.requester, r.target)
    case GroupJoin => JoinKey(r.group, r.requester)
    case GroupInvite => InviteKey(r.group, r.target)
  }

  // ---- creating requests ----

  predicate Overdue(r: Request, now: Time) {
    r.status == Pending && r.expiresAt <= now
  }

  function Expire(r: Request, now: Time): Request {
    r.(status := Expired, key := None, resolvedAt := Some(now))
  }

  function ExpireKey(st: Store, key: ActiveKey, now: Time): Store {
    st.(requests := map id | id in st.requests ::
          if st.requests[id].key == Some(key) && Overdue(st.requests[id], now) then Expire(st.requests[id], now)
          else st.requests[id])
  }

  predicate HasKey(st: Store, id: RequestId, key: ActiveKey) {
    id in st.requests && st.requests[id].key == Some(key)
  }

  ghost function Holder(st: Store, key: ActiveKey): (id: Option<RequestId>)
    ensures id.None? <==> forall i :: !HasKey(st, i, key)
    ensures id.Some? ==> HasKey(st, id.value, key)
  {
    if i :| HasKey(st, i, key) then Some(i) else None
  }

  /** createPendingRequest: the key's pending request is reused unless it is overdue. */
  ghost function CreatePending(st: Store, kind: Kind, requester: UserId, target: UserId, group: GroupId, now: Time)
    : (Store, Outcome)
  {
    var candidate := Request(kind, requester, target, group, Pending, None, now + TTL, None, 0);
    var key := KeyOf(candidate);
    var st1 := ExpireKey(st, key, now);
    var holder := Holder(st1, key);
    if holder.Some? then (st1, Existing(holder.value))
    else
      (st1.(requests := st1.requests[st.nextId := candidate.(key := Some(key))], nextId := st.nextId + 1),
       Created(st.nextId))
  }

  /** CreateFriendRequestWithDB before its insert: the error it answers, if any. */
  function FriendCheck(st: Store, requester: UserId, target: UserId): Option<Error> {
    if requester <= 0 || target <= 0 || requester == target then Some(InvalidState)
    else if Active(st, requester, target) then Some(AlreadyRelated)
    else None
  }

  ghost function CreateJoin(st: Store, user: UserId, group: GroupId, now: Time): (Store, Outcome) {
    if (group, user) in st.groups.members then (st, Refused(AlreadyRelated))
    else if !Groups.LiveGroup(st.groups, group) then (st, Refused(NotFound))
    else CreatePending(st, GroupJoin, user, 0, group, now)
  }

  predicate Manages(st: Store, group: GroupId, user: UserId) {
    (group, user) in st.groups.members && Groups.CanManage(st.groups.members[(group, user)].role)
  }

  ghost function CreateInvite(st: Store, actor: UserId, group: GroupId, target: UserId, now: Time): (Store, Outcome) {
    if !Manages(st, group, actor) then (st, Refused(Forbidden))
    else if (group, target) in st.groups.members then (st, Refused(AlreadyRelated))
    else CreatePending(st, GroupInvite, actor, target, group, now)
  }

  // ---- resolving them ----

  predicate IsDecision(s: Status) {
    s == Accepted || s == Rejected || s == Cancelled
  }

  predicate CanResolve(st: Store, actor: UserId, r: Request, decision: Status) {
    if decision == Cancelled then actor == r.requester
    else if r.kind == GroupJoin then Manages(st, r.group, actor)
    else actor == r.target
  }

  function Close(st: Store, id: RequestId, status: Status, actor: UserId, now: Time): Store
    requires id in st.requests
  {
    st.(requests := st.requests[id :=
          st.requests[id].(status := status, key := None, resolvedAt := Some(now), resolvedBy := actor)])
  }

  function AddPair(st: Store, u: UserId, v: UserId, now: Time): Store {
    st.(friends := st.friends[(u, v) := FriendRow(false, now)][(v, u) := FriendRow(false, now)])
  }

  /** resolveRequest; a decision other than the three names an unknown one. */
  function Resolve(st: Store, actor: UserId, id: RequestId, kind: Kind, decision: Status, now: Time)
    : (Store, Resolution)
  {
    if id !in st.requests || st.requests[id].kind != kind then (st, Failed(NotFound))
    else
      var r := st.requests[id];
      if r.status != Pending then
        if r.status == decision && r.resolvedBy == actor && IsDecision(decision) then (st, Resolved)
        else if r.status == Expired then (st, Failed(TooLate))
        else (st, Failed(InvalidState))
      else if r.expiresAt <= now then (Close(st, id, Expired, actor, now), Failed(TooLate))
      else if !CanResolve(st, actor, r, decision) then (st, Failed(Forbidden))
      else if !IsDecision(decision) then (st, Failed(InvalidState))
      else if decision != Accepted then (Close(st, id, decision, actor, now), Resolved)
      else if kind == Friend then (Close(AddPair(st, r.requester, r.target, now), id, Accepted, actor, now), Resolved)
      else
        var user := if kind == GroupInvite then r.target else r.requester;
        var (groups, reply) := Groups.Join(st.groups, r.group, user, now);
        if reply != Groups.Done then (st, Failed(NotFound))
        else (Close(st.(groups := groups), id, Accepted, actor, now), Resolved)
  }

  // ---- bulk expiry and removal ----

  predicate Involves(r: Request, u: UserId) {
    r.requester == u || r.target == u
  }

  function ExpireForUser(st: Store, u: UserId, now: Time): Store {
    st.(requests := map id | id in st.requests ::
          if Overdue(st.requests[id], now) && Involves(st.requests[id], u) then Expire(st.requests[id], now)
          else st.requests[id])
  }

  function ExpireForGroup(st: Store, g: GroupId, now: Time): Store {
    st.(requests := map id | id in st.requests ::
          if Overdue(st.requests[id], now) && st.requests[id].group == g then Expire(st.requests[id], now)
          else st.requests[id])
  }

  function Unfriend(friends: map<(UserId, UserId), FriendRow>, u: UserId, v: UserId, now: Time)
    : map<(UserId, UserId), FriendRow>
  {
    if (u, v) in friends && !friends[(u, v)].deleted then friends[(u, v) := FriendRow(true, now)] else friends
  }

  function RemovePair(st: Store, u: UserId, v: UserId, now: Time): (Store, bool) {
    (st.(friends := Unfriend(Unfriend(st.friends, u, v, now), v, u, now)), Active(st, u, v) || Active(st, v, u))
  }

  predicate OneHolder(st: Store) {
    forall i, j | i in st.requests && j in st.requests
                  && st.requests[i].key.Some? && st.requests[i].key == st.requests[j].key ::
      i == j
  }

  lemma HolderIs(st: Store, key: ActiveKey, now: Time, id: RequestId)
    requires OneHolder(st) && HasKey(ExpireKey(st, key, now), id, key)
    ensures Holder(ExpireKey(st, key, now), key) == Some(id)
  {
  }

  // ---- the tables changed in place ----

  class RelationTables {
    var groups: Groups.GroupTables
    var friends: map<(UserId, UserId), FriendRow>
    var requests: map<RequestId, Request>
    var nextId: RequestId

    ghost function Value(): Store
      reads this, groups
    {
      Store(groups.Value(), friends, requests, nextId)
    }

    constructor ()
      ensures Value() == EMPTY && fresh(groups)
    {
      groups := new Groups.GroupTables();
      friends, requests, nextId := map[], map[], 1;
    }

    method RemoveDirectFriendPair(u: UserId, v: UserId, now: Time) returns (found: bool)
      modifies this`friends
      ensures (Value(), found) == RemovePair(old(Value()), u, v, now)
    {
      var pairs := [(u, v), (v, u)];
      var affected := 0;
      ghost var was := friends;
      for i := 0 to 2
        invariant friends == if i == 0 then was
                             else if i == 1 then Unfriend(was, u, v, now)
                             else Unfriend(Unfriend(was, u, v, now), v, u, now)
        invariant affected >= 0
        invariant affected > 0 <==> (i > 0 && (u, v) in was && !was[(u, v)].deleted)
                                    || (i > 1 && (v, u) in was && !was[(v, u)].deleted)
      {
        if pairs[i] in friends && !friends[pairs[i]].deleted {
          friends := friends[pairs[i] := FriendRow(true, now)];
          affected := affected + 1;
        }
      }
      found := affected > 0;
    }

    method AddDirectFriendPair(u: UserId, v: UserId, now: Time)
      modifies this`friends
      ensures Value() == AddPair(old(Value()), u, v, now)
    {
      var pairs := [(u, v), (v, u)];
      ghost var was := friends;
      for i := 0 to 2
        invariant friends == if i == 0 then was
                             else if i == 1 then was[(u, v) := FriendRow(false, now)]
                             else was[(u, v) := FriendRow(false, now)][(v, u) := FriendRow(false, now)]
      {
        if pairs[i] !in friends {
          friends := friends[pairs[i] := FriendRow(false, now)];
        } else {
          friends := friends[pairs[i] := friends[pairs[i]].(deleted := false, updateTime := now)];
        }
      }
    }

    method FindHolder(key: ActiveKey) returns (id: Option<RequestId>)
      ensures id.None? ==> forall i :: !HasKey(Value(), i, key)
      ensures id.Some? ==> HasKey(Value(), id.value, key)
    {
      var todo := requests.Keys;
      while todo != {}
        invariant todo <= requests.Keys && forall i | i in requests && i !in todo :: requests[i].key != Some(key)
        decreases |todo|
      {
        Inhabited(todo);
        var i :| i in todo;
        if requests[i].key == Some(key) {
          return Some(i);
        }
        todo := todo - {i};
      }
      return None;
    }

    /** createPendingRequest; the unique index keeps a key on one row. */
    method CreatePendingRequest(kind: Kind, requester: UserId, target: UserId, group: GroupId, now: Time)
      returns (outcome: Outcome)
      requires OneHolder(Value())
      modifies this`requests, this`nextId
      ensures (Value(), outcome) == CreatePending(old(Value()), kind, requester, target, group, now)
    {
      var candidate := Request(kind, requester, target, group, Pending, None, now + TTL, None, 0);
      var key := KeyOf(candidate);
      requests := map i | i in requests ::
        if requests[i].key == Some(key) && Overdue(requests[i], now) then Expire(requests[i], now) else requests[i];
      ghost var st1 := ExpireKey(old(Value()), key, now);
      assert requests == st1.requests;
      var holder := FindHolder(key);
      if holder.Some? {
        HolderIs(old(Value()), key, now, holder.value);
        return Existing(holder.value);
      }
      assert Holder(st1, key).None? by {
        assert Value() == st1 && forall i :: !HasKey(st1, i, key);
      }
      requests := requests[nextId := candidate.(key := Some(key))];
      nextId := nextId + 1;
      return Created(nextId - 1);
    }

    method CloseRequest(id: RequestId, status: Status, actor: UserId, now: Time)
      requires id in requests
      modifies this`requests
      ensures Value() == Close(old(Value()), id, status, actor, now)
    {
      requests := requests[id := requests[id].(status := status, key := None, resolvedAt := Some(now),
                                               resolvedBy := actor)];
    }

    method ResolveRequest(actor: UserId, id: RequestId, kind: Kind, decision: Status, now: Time)
      returns (result: Resolution)
      modifies this, groups
      ensures groups == old(groups)
      ensures (Value(), result) == Resolve(old(Value()), actor, id, kind, decision, now)
    {
      if id !in requests || requests[id].kind != kind {
        return Failed(NotFound);
      }
      var r := requests[id];
      if r.status != Pending {
        if r.status == decision && r.resolvedBy == actor && IsDecision(decision) {
          return Resolved;
        }
        return Failed(if r.status == Expired then TooLate else InvalidState);
      }
      if r.expiresAt <= now {
        CloseRequest(id, Expired, actor, now);
        return Failed(TooLate);
      }
      var allowed := if decision == Cancelled then actor == r.requester
                     else if kind == GroupJoin
                     then (r.group, actor) in groups.members && Groups.CanManage(groups.members[(r.group, actor)].role)
                     else actor == r.target;
      if !allowed {
        return Failed(Forbidden);
      }
      if !IsDecision(decision) {
        return Failed(InvalidState);
      }
      if decision == Accepted {
        if kind == Friend {
          AddDirectFriendPair(r.requester, r.target, now);
        } else {
          var reply := groups.AddGroupMember(r.group, if kind == GroupInvite then r.target else r.requester, now);
          if reply != Groups.Done {
            return Failed(NotFound);
          }
        }
      }
      CloseRequest(id, decision, actor, now);
      return Resolved;
    }
  }
}
