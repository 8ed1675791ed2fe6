/** What each operation on friendships and requests does, and who may do it, in terms of the rows themselves. */
module RelationEffects {
  import opened Common
  import opened Relationships
  import Groups

  // ---- deciding ----

  /** The actor owns or administrates the group. */
  predicate ManagerOf(st: Store, g: GroupId, actor: UserId) {
    (g, actor) in st.groups.members && st.groups.members[(g, actor)].role in {Groups.Owner, Groups.Admin}
  }

  predicate LiveGroup(st: Store, g: GroupId) {
    g in st.groups.groups && !st.groups.groups[g].deleted
  }

  /** A request of this kind that is pending and in time. */
  predicate Open(st: Store, id: RequestId, kind: Kind, now: Time) {
    && id in st.requests && st.requests[id].kind == kind && st.requests[id].status == Pending
    && now < st.requests[id].expiresAt
  }

  /** The request with its end recorded; everything else of it stays. */
  function Ended(r: Request, status: Status, actor: UserId, now: Time): Request {
    Request(r.kind, r.requester, r.target, r.group, status, None, r.expiresAt, Some(now), actor)
  }

  /** Cancelling an open request: its requester may, and nobody else. */
  lemma CancelDoes(st: Store, actor: UserId, id: RequestId, kind: Kind, now: Time)
    requires Open(st, id, kind, now)
    ensures var r, (after, result) := st.requests[id], Resolve(st, actor, id, kind, Cancelled, now);
            && (result == Resolved <==> actor == r.requester)
            && (result == Failed(Forbidden) <==> actor != r.requester)
            && after == if actor == r.requester then st.(requests := st.requests[id := Ended(r, Cancelled, actor,
                                                            now)]) else st
  {
  }

  /** Rejecting an open request: its target may, or for a request to join a manager of the group, and nobody else. */
  lemma RejectDoes(st: Store, actor: UserId, id: RequestId, kind: Kind, now: Time)
    requires Open(st, id, kind, now)
    ensures var r, (after, result) := st.requests[id], Resolve(st, actor, id, kind, Rejected, now);
            var may := if kind == GroupJoin then ManagerOf(st, r.group, actor) else actor == r.target;
            && (result == Resolved <==> may) && (result == Failed(Forbidden) <==> !may)
            && after == if may then st.(requests := st.requests[id := Ended(r, Rejected, actor, now)]) else st
  {
  }

  /** Accepting an open friend request: its target may, and nobody else; the two are friends both ways then, and no
      other friendship changes. */
  lemma AcceptFriendDoes(st: Store, actor: UserId, id: RequestId, now: Time)
    requires Open(st, id, Friend, now)
    ensures var r, (after, result) := st.requests[id], Resolve(st, actor, id, Friend, Accepted, now);
            && (result == Resolved <==> actor == r.target) && (result == Failed(Forbidden) <==> actor != r.target)
            && (actor != r.target ==> after == st)
            && (actor == r.target ==>
                  && after.requests == st.requests[id := Ended(r, Accepted, actor, now)]
                  && after == st.(requests := after.requests, friends := after.friends)
                  && after.friends.Keys == st.friends.Keys + {(r.requester, r.target), (r.target, r.requester)}
                  && forall p | p in after.friends ::
                       after.friends[p] == if p == (r.requester, r.target) || p == (r.target, r.requester)
                                           then FriendRow(false, now) else st.friends[p])
  {
  }

  /** Accepting somebody into a group: a manager may for a request to join, the target for an invitation, and nobody
      else; the group must be live, and the user is a member of it then. */
  lemma AcceptIntoGroupDoes(st: Store, actor: UserId, id: RequestId, kind: Kind, now: Time)
    requires Open(st, id, kind, now) && kind != Friend
    ensures var r, (after, result) := st.requests[id], Resolve(st, actor, id, kind, Accepted, now);
            var may := if kind == GroupJoin then ManagerOf(st, r.group, actor) else actor == r.target;
            var user := if kind == GroupJoin then r.requester else r.target;
            && (result == Resolved <==> may && LiveGroup(st, r.group))
            && (result == Failed(Forbidden) <==> !may)
            && (result == Failed(NotFound) <==> may && !LiveGroup(st, r.group))
            && (result != Resolved ==> after == st)
            && (result == Resolved ==>
                  && after.requests == st.requests[id := Ended(r, Accepted, actor, now)]
                  && after == st.(requests := after.requests, groups := after.groups)
                  && r.group in after.groups.groups
                  && after.groups.groups
                     == st.groups.groups[r.group := Groups.GroupRow(st.groups.groups[r.group].owner, false, now)]
                  && after.groups.members
                     == if (r.group, user) in st.groups.members then st.groups.members
                        else st.groups.members[(r.group, user) := Groups.MemberRow(Groups.Member, now, now)])
  {
  }

  /** Anything but an open request of the kind: an overdue one is closed as expired, a closed one answers its own
      decision to the actor who made it, and the rest fails; nothing else changes. */
  lemma NotOpenDoes(st: Store, actor: UserId, id: RequestId, kind: Kind, decision: Status, now: Time)
    requires !Open(st, id, kind, now)
    ensures var (after, result) := Resolve(st, actor, id, kind, decision, now);
            if id !in st.requests || st.requests[id].kind != kind then after == st && result == Failed(NotFound)
            else
              var r := st.requests[id];
              match r.status
              case Pending =>
                after == st.(requests := st.requests[id := Ended(r, Expired, actor, now)]) && result == Failed(TooLate)
              case Expired => after == st && result == Failed(TooLate)
              case _ =>
                after == st && result == if decision == r.status && actor == r.resolvedBy then Resolved
                                         else Failed(InvalidState)
  {
  }

  /** No refusal changes anything, except that a request found overdue is closed; an unknown decision is refused. */
  lemma RefusedIsSilent(st: Store, actor: UserId, id: RequestId, kind: Kind, decision: Status, now: Time)
    ensures var (after, result) := Resolve(st, actor, id, kind, decision, now);
            && (result.Failed? && result != Failed(TooLate) ==> after == st)
            && (decision !in {Accepted, Rejected, Cancelled} ==> result.Failed?)
            && (Open(st, id, kind, now) && decision !in {Accepted, Rejected, Cancelled} ==>
                  result in {Failed(Forbidden), Failed(InvalidState)})
  {
  }

  // ---- asking ----

  /** What the request is about: an unordered pair of users, or a user and a group. */
  predicate About(key: ActiveKey, kind: Kind, requester: UserId, target: UserId, group: GroupId) {
    match kind
    case Friend => key.FriendKey? && key.low <= key.high && {key.low, key.high} == {requester, target}
    case GroupJoin => key == JoinKey(group, requester)
    case GroupInvite => key == InviteKey(group, target)
  }

  /** Asking closes overdue requests about the same thing as expired. A request created is pending for seven days; it is
      created exactly if no other request about the same is left, and otherwise that one answers. */
  lemma AskDoes(st: Store, kind: Kind, requester: UserId, target: UserId, group: GroupId, now: Time, key: ActiveKey)
    requires About(key, kind, requester, target, group) && st.nextId !in st.requests
    ensures var (after, outcome) := CreatePending(st, kind, requester, target, group, now);
            && (forall i | i in st.requests ::
                  && i in after.requests
                  && var r := st.requests[i];
                     after.requests[i]
                     == if r.key == Some(key) && r.status == Pending && r.expiresAt <= now
                        then Request(r.kind, r.requester, r.target, r.group, Expired, None, r.expiresAt, Some(now),
                                     r.resolvedBy)
                        else r)
            && after.friends == st.friends && after.groups == st.groups
            && (outcome.Created? || outcome.Existing?)
            && (outcome.Existing? <==>
                  exists i :: i in after.requests && i in st.requests && after.requests[i].key == Some(key))
            && (outcome.Existing? ==>
                  && outcome.id in st.requests && after.requests[outcome.id].key == Some(key)
                  && after.requests.Keys == st.requests.Keys && after.nextId == st.nextId)
            && (outcome.Created? ==>
                  && outcome.id == st.nextId && after.nextId == st.nextId + 1
                  && after.requests.Keys == st.requests.Keys + {outcome.id}
                  && after.requests[outcome.id]
                     == Request(kind, requester, target, group, Pending, Some(key), now + 7 * 24 * 3600 * 1_000_000_000,
                                None, 0))
  {
    KeyIs(kind, requester, target, group, now, key);
    hide KeyOf, About;
    var st1 := ExpireKey(st, key, now);
    if i :| i in st.requests && st1.requests[i].key == Some(key) {
      assert HasKey(st1, i, key);
    }
  }

  lemma KeyIs(kind: Kind, requester: UserId, target: UserId, group: GroupId, now: Time, key: ActiveKey)
    requires About(key, kind, requester, target, group)
    ensures KeyOf(Request(kind, requester, target, group, Pending, None, now + TTL, None, 0)) == key
  {
    if kind == Friend {
      assert key.low in {requester, target} && key.high in {requester, target};
      assert requester in {key.low, key.high} && target in {key.low, key.high};
    }
  }

  predicate Friends(st: Store, u: UserId, v: UserId) {
    (u, v) in st.friends && st.friends[(u, v)].deleted == false
  }

  /** Asking for a friendship is refused exactly for oneself or no user, and for somebody who is a friend of the asking
      user already. */
  lemma FriendCheckIff(st: Store, requester: UserId, target: UserId)
    ensures var improper := requester <= 0 || target <= 0 || requester == target;
            FriendCheck(st, requester, target)
            == if improper then Some(InvalidState)
               else if Friends(st, requester, target) then Some(AlreadyRelated) else None
  {
  }

  /** Asking to join goes to live groups one is not in. */
  lemma AskJoinDoes(st: Store, user: UserId, group: GroupId, now: Time)
    ensures CreateJoin(st, user, group, now)
            == if (group, user) in st.groups.members then (st, Refused(AlreadyRelated))
               else if !LiveGroup(st, group) then (st, Refused(NotFound))
               else CreatePending(st, GroupJoin, user, 0, group, now)
  {
  }

  /** Managers invite who is not in the group. */
  lemma InviteDoes(st: Store, actor: UserId, group: GroupId, target: UserId, now: Time)
    ensures CreateInvite(st, actor, group, target, now)
            == if !ManagerOf(st, group, actor) then (st, Refused(Forbidden))
               else if (group, target) in st.groups.members then (st, Refused(AlreadyRelated))
               else CreatePending(st, GroupInvite, actor, target, group, now)
  {
  }

  // ---- sweeping and parting ----

  /** The sweeps close exactly the pending requests that are overdue, of one user in either part or of one group. */
  lemma SweepsDo(st: Store, u: UserId, g: GroupId, now: Time, id: RequestId)
    requires id in st.requests
    ensures var ofUser, ofGroup, r := ExpireForUser(st, u, now), ExpireForGroup(st, g, now), st.requests[id];
            var overdue := r.status == Pending && r.expiresAt <= now;
            var expired := Request(r.kind, r.requester, r.target, r.group, Expired, None, r.expiresAt, Some(now),
                                   r.resolvedBy);
            && ofUser == st.(requests := ofUser.requests) && ofGroup == st.(requests := ofGroup.requests)
            && ofUser.requests.Keys == st.requests.Keys && ofGroup.requests.Keys == st.requests.Keys
            && ofUser.requests[id] == (if overdue && (r.requester == u || r.target == u) then expired else r)
            && ofGroup.requests[id] == (if overdue && r.group == g then expired else r)
  {
  }

  /** Parting ends the friendship in both directions where there is one, and says whether there was. */
  lemma PartDoes(st: Store, u: UserId, v: UserId, now: Time)
    ensures var (after, found) := RemovePair(st, u, v, now);
            && (found <==> Friends(st, u, v) || Friends(st, v, u))
            && !Friends(after, u, v) && !Friends(after, v, u)
            && after == st.(friends := after.friends) && after.friends.Keys == st.friends.Keys
            && forall p | p in st.friends ::
                 after.friends[p] == if (p == (u, v) || p == (v, u)) && !st.friends[p].deleted then FriendRow(true, now)
                                     else st.friends[p]
  {
  }
}
