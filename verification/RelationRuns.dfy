/** Runs of friendship and request operations, whatever happens to the groups meanwhile. */
module RelationRuns {
  import opened Common
  import opened Relationships
  import Groups

  /** Asking for a friendship takes two statements, the check and the insert. Removing one takes two updates, of either
      direction; a first update that finds its row active locks it to the end, so only one that finds nothing leaves a
      gap before the second. */
  datatype Action =
    | CheckFriend(requester: UserId, target: UserId)
    | InsertFriend(gap: nat, now: Time)
    | AskJoin(user: UserId, group: GroupId, now: Time)
    | Invite(actor: UserId, group: GroupId, target: UserId, now: Time)
    | Decide(actor: UserId, id: RequestId, kind: Kind, decision: Status, now: Time)
    | SweepUser(user: UserId, now: Time)
    | SweepGroup(group: GroupId, now: Time)
    | PartFirst(user: UserId, friend: UserId, now: Time)
    | PartSecond(gap: nat, now: Time)
    | OnGroups(groups: Groups.Store)

  /** A gap between two statements: the first one found no friendship from `user` to `peer`. */
  datatype Gap = Asking(user: UserId, peer: UserId) | Parting(user: UserId, peer: UserId)

  /** The tables, and the gaps whose second statement has not come yet; one that never comes stays open for ever. */
  datatype World = World(store: Store, open: map<nat, Gap>, next: nat)

  const START := World(EMPTY, map[], 0)

  ghost function Change(st: Store, a: Action): Store {
    match a
    case AskJoin(user, group, now) => CreateJoin(st, user, group, now).0
    case Invite(actor, group, target, now) => CreateInvite(st, actor, group, target, now).0
    case Decide(actor, id, kind, decision, now) => Resolve(st, actor, id, kind, decision, now).0
    case SweepUser(u, now) => ExpireForUser(st, u, now)
    case SweepGroup(g, now) => ExpireForGroup(st, g, now)
    case PartFirst(u, v, now) => RemovePair(st, u, v, now).0
    case OnGroups(groups) => st.(groups := groups)
    case _ => st
  }

  /** The second statement of a gap. */
  ghost function SecondStatement(st: Store, g: Gap, now: Time): Store {
    match g
    case Asking(u, v) => CreatePending(st, Friend, u, v, 0, now).0
    case Parting(u, v) => st.(friends := Unfriend(st.friends, v, u, now))
  }

  /** An action is the second statement of an open gap. */
  predicate Ends(w: World, a: Action) {
    || (a.InsertFriend? && a.gap in w.open && w.open[a.gap].Asking?)
    || (a.PartSecond? && a.gap in w.open && w.open[a.gap].Parting?)
  }

  ghost function Step(w: World, a: Action): World {
    if Ends(w, a) then w.(store := SecondStatement(w.store, w.open[a.gap], a.now), open := w.open - {a.gap})
    else if a.CheckFriend? && FriendCheck(w.store, a.requester, a.target).None?
    then w.(open := w.open[w.next := Asking(a.requester, a.target)], next := w.next + 1)
    else if a.PartFirst? && !Active(w.store, a.user, a.friend)
    then w.(open := w.open[w.next := Parting(a.user, a.friend)], next := w.next + 1)
    else w.(store := Change(w.store, a))
  }

  ghost function Run(w: World, acts: seq<Action>): World
    decreases |acts|
  {
    if acts == [] then w else Run(Step(w, acts[0]), acts[1..])
  }

  // ---- the invariant ----

  predicate Proper(r: Request) {
    && (r.status == Pending <==> r.key.Some?)
    && (r.key.Some? ==> r.key.value == KeyOf(r))
    && (r.kind == Friend ==> r.requester != r.target)
  }

  /** A request is pending exactly when it holds its key, and no two requests hold one key. */
  predicate Keyed(st: Store) {
    OneHolder(st) && forall id | id in st.requests :: id < st.nextId && Proper(st.requests[id])
  }

  predicate Gaps(w: World) {
    forall n | n in w.open :: n < w.next && (w.open[n].Asking? ==> w.open[n].user != w.open[n].peer)
  }

  ghost predicate Inv(w: World) {
    Keyed(w.store) && Gaps(w)
  }

  /** Requests only change by closing: what is pending may stop being so, everything else stays. */
  predicate Closes(st: Store, st2: Store) {
    && st2.requests.Keys == st.requests.Keys && st2.nextId == st.nextId
    && forall id | id in st.requests ::
         st2.requests[id] == st.requests[id]
         || (st.requests[id].status == Pending && st2.requests[id].status != Pending && st2.requests[id].key == None
             && st2.requests[id].kind == st.requests[id].kind && st2.requests[id].requester == st.requests[id].requester
             && st2.requests[id].target == st.requests[id].target)
  }

  lemma ClosesKeeps(st: Store, st2: Store)
    requires Keyed(st) && Closes(st, st2)
    ensures Keyed(st2)
  {
  }

  lemma ExpireKeyCloses(st: Store, key: ActiveKey, now: Time)
    ensures Closes(st, ExpireKey(st, key, now)) && ExpireKey(st, key, now).friends == st.friends
    ensures ExpireKey(st, key, now).groups == st.groups
  {
  }

  lemma PendingKeeps(st: Store, kind: Kind, requester: UserId, target: UserId, group: GroupId, now: Time)
    requires Keyed(st) && (kind == Friend ==> requester != target)
    ensures var st2 := CreatePending(st, kind, requester, target, group, now).0;
            Keyed(st2) && st2.friends == st.friends && st2.groups == st.groups
  {
    hide KeyOf, ExpireKey, Closes, Keyed;
    var r := Request(kind, requester, target, group, Pending, None, now + TTL, None, 0);
    var st1 := ExpireKey(st, KeyOf(r), now);
    ExpireKeyCloses(st, KeyOf(r), now);
    ClosesKeeps(st, st1);
    if Holder(st1, KeyOf(r)).None? {
      KeySame(r, Some(KeyOf(r)));
      AddsRequest(st1, r.(key := Some(KeyOf(r))));
    }
  }

  lemma KeySame(r: Request, key: Option<ActiveKey>)
    ensures KeyOf(r.(key := key)) == KeyOf(r)
  {
  }

  lemma AddsRequest(st: Store, r: Request)
    requires Keyed(st) && r.status == Pending && r.key == Some(KeyOf(r))
    requires forall i :: !HasKey(st, i, KeyOf(r))
    requires r.kind == Friend ==> r.requester != r.target
    ensures Keyed(st.(requests := st.requests[st.nextId := r], nextId := st.nextId + 1))
  {
    hide KeyOf;
    var key := KeyOf(r);
    forall i | i in st.requests ensures st.requests[i].key != Some(key) {
      assert !HasKey(st, i, key);
    }
  }

  lemma SecondKeeps(st: Store, g: Gap, now: Time)
    requires Keyed(st) && (g.Asking? ==> g.user != g.peer)
    ensures Keyed(SecondStatement(st, g, now))
    ensures g.Asking? ==> SecondStatement(st, g, now).friends == st.friends
  {
    hide CreatePending, Keyed;
    if g.Asking? {
      PendingKeeps(st, Friend, g.user, g.peer, 0, now);
    } else {
      assert Closes(st, SecondStatement(st, g, now));
      ClosesKeeps(st, SecondStatement(st, g, now));
    }
  }

  lemma AskKeeps(st: Store, a: Action)
    requires Keyed(st) && (a.AskJoin? || a.Invite?)
    ensures Keyed(Change(st, a)) && Change(st, a).friends == st.friends
  {
    hide CreatePending, Keyed;
    if a.AskJoin? {
      PendingKeeps(st, GroupJoin, a.user, 0, a.group, a.now);
    } else {
      PendingKeeps(st, GroupInvite, a.actor, a.target, a.group, a.now);
    }
  }

  lemma ClosingKeeps(st: Store, a: Action)
    requires Keyed(st) && (a.SweepUser? || a.SweepGroup? || a.PartFirst?)
    ensures Keyed(Change(st, a))
  {
    hide Keyed;
    assert Closes(st, Change(st, a));
    ClosesKeeps(st, Change(st, a));
  }

  lemma OnGroupsKeeps(st: Store, a: Action)
    requires Keyed(st) && a.OnGroups?
    ensures Keyed(Change(st, a))
  {
    hide KeyOf;
  }

  /** Accepting a friend request makes its pair friends, both ways. */
  lemma AcceptFriendKeeps(st: Store, id: RequestId, actor: UserId, now: Time)
    requires Keyed(st) && id in st.requests && st.requests[id].kind == Friend && st.requests[id].status == Pending
    ensures var r := st.requests[id];
            var st2 := Close(AddPair(st, r.requester, r.target, now), id, Accepted, actor, now);
            Keyed(st2) && forall u, v :: Active(st2, u, v) <==> Active(st, u, v) || IsPair(r, u, v)
  {
    var r := st.requests[id];
    var st2 := Close(AddPair(st, r.requester, r.target, now), id, Accepted, actor, now);
    assert Closes(st, st2);
    ClosesKeeps(st, st2);
    forall u, v ensures Active(st2, u, v) <==> Active(st, u, v) || IsPair(r, u, v) {
    }
  }

  lemma CloseKeeps(st: Store, id: RequestId, status: Status, actor: UserId, now: Time)
    requires Keyed(st) && id in st.requests && st.requests[id].status == Pending && status != Pending
    ensures Keyed(Close(st, id, status, actor, now))
  {
    hide Keyed;
    var st2 := Close(st, id, status, actor, now);
    assert Closes(st, st2);
    ClosesKeeps(st, st2);
  }

  lemma DecideKeeps(st: Store, a: Action)
    requires Keyed(st) && a.Decide?
    ensures Keyed(Change(st, a))
  {
    hide Keyed, Close, AddPair, CanResolve;
    if a.id in st.requests && st.requests[a.id].status == Pending {
      var r := st.requests[a.id];
      CloseKeeps(st, a.id, Expired, a.actor, a.now);
      if IsDecision(a.decision) {
        CloseKeeps(st, a.id, a.decision, a.actor, a.now);
      }
      if r.kind == Friend {
        AcceptFriendKeeps(st, a.id, a.actor, a.now);
      } else {
        var user := if r.kind == GroupInvite then r.target else r.requester;
        var joins := OnGroups(Groups.Join(st.groups, r.group, user, a.now).0);
        OnGroupsKeeps(st, joins);
        CloseKeeps(Change(st, joins), a.id, Accepted, a.actor, a.now);
      }
    }
  }

  lemma StepKeepsInv(w: World, a: Action)
    requires Inv(w)
    ensures Inv(Step(w, a))
  {
    hide Keyed, Change, SecondStatement, Active;
    if Ends(w, a) {
      SecondKeeps(w.store, w.open[a.gap], a.now);
    } else {
      match a {
        case AskJoin(_, _, _) => AskKeeps(w.store, a);
        case Invite(_, _, _, _) => AskKeeps(w.store, a);
        case Decide(_, _, _, _, _) => DecideKeeps(w.store, a);
        case OnGroups(_) => OnGroupsKeeps(w.store, a);
        case CheckFriend(_, _) => NoChange(w.store, a);
        case InsertFriend(_, _) => NoChange(w.store, a);
        case PartSecond(_, _) => NoChange(w.store, a);
        case _ => ClosingKeeps(w.store, a);
      }
    }
  }

  lemma NoChange(st: Store, a: Action)
    requires a.CheckFriend? || a.InsertFriend? || a.PartSecond?
    ensures Change(st, a) == st
  {
  }

  lemma {:induction false} RunKeepsInv(w: World, acts: seq<Action>)
    requires Inv(w)
    ensures Inv(Run(w, acts))
    decreases |acts|
  {
    hide Inv, Step;
    if acts != [] {
      StepKeepsInv(w, acts[0]);
      RunKeepsInv(Step(w, acts[0]), acts[1..]);
    }
  }

  // ---- over every run ----

  predicate IsPair(r: Request, u: UserId, v: UserId) {
    (r.requester == u && r.target == v) || (r.requester == v && r.target == u)
  }

  /** Request j is a pending friend request between u and v, either way. */
  predicate PendingFor(st: Store, j: RequestId, u: UserId, v: UserId) {
    && j in st.requests && st.requests[j].kind == Friend && st.requests[j].status == Pending
    && IsPair(st.requests[j], u, v)
  }

  /** In every run an unordered pair has at most one pending friend request, and it holds the key of the pair. */
  lemma OneRequestPerPair(acts: seq<Action>, u: UserId, v: UserId, i: RequestId, j: RequestId)
    requires PendingFor(Run(START, acts).store, i, u, v)
    ensures var st := Run(START, acts).store;
            u != v && st.requests[i].key == Some(PairKey(u, v)) && (PendingFor(st, j, u, v) ==> i == j)
  {
    assert Inv(START);
    RunKeepsInv(START, acts);
    OnePending(Run(START, acts).store, u, v, i, j);
  }

  lemma OnePending(st: Store, u: UserId, v: UserId, i: RequestId, j: RequestId)
    requires Keyed(st) && PendingFor(st, i, u, v)
    ensures u != v && st.requests[i].key == Some(PairKey(u, v)) && (PendingFor(st, j, u, v) ==> i == j)
  {
    assert Proper(st.requests[i]);
  }

  lemma PendingLeaves(st: Store, kind: Kind, requester: UserId, target: UserId, group: GroupId, now: Time,
                      id: RequestId)
    requires Keyed(st) && id in st.requests && st.requests[id].status != Pending
    ensures var st2 := CreatePending(st, kind, requester, target, group, now).0;
            id in st2.requests && st2.requests[id] == st.requests[id]
  {
  }

  lemma StepKeepsResolved(w: World, a: Action, id: RequestId)
    requires Inv(w) && id in w.store.requests && w.store.requests[id].status != Pending
    ensures id in Step(w, a).store.requests && Step(w, a).store.requests[id] == w.store.requests[id]
  {
    hide CreatePending, Keyed, Groups.Join;
    if Ends(w, a) {
      PendingLeaves(w.store, Friend, w.open[a.gap].user, w.open[a.gap].peer, 0, a.now, id);
    } else if a.AskJoin? {
      PendingLeaves(w.store, GroupJoin, a.user, 0, a.group, a.now, id);
    } else if a.Invite? {
      PendingLeaves(w.store, GroupInvite, a.actor, a.target, a.group, a.now, id);
    }
  }

  /** A resolved request never changes again. */
  lemma {:induction false} ResolvedIsFinal(w: World, acts: seq<Action>, id: RequestId)
    requires Inv(w) && id in w.store.requests && w.store.requests[id].status != Pending
    ensures id in Run(w, acts).store.requests && Run(w, acts).store.requests[id] == w.store.requests[id]
    decreases |acts|
  {
    hide Inv, Step;
    if acts != [] {
      StepKeepsInv(w, acts[0]);
      StepKeepsResolved(w, acts[0], id);
      ResolvedIsFinal(Step(w, acts[0]), acts[1..], id);
    }
  }

  /** Once a decision succeeded, the same actor can repeat it after any run: it succeeds again and changes nothing; any
      other decision, or another actor, fails. */
  lemma SameDecisionIsSilent(w: World, first: Action, acts: seq<Action>, other: UserId, again: Status, now: Time)
    requires Inv(w) && first.Decide?
    requires Resolve(w.store, first.actor, first.id, first.kind, first.decision, first.now).1 == Resolved
    ensures var st2 := Run(Step(w, first), acts).store;
            var (after, result) := Resolve(st2, other, first.id, first.kind, again, now);
            after == st2 && (result == Resolved <==> other == first.actor && again == first.decision)
  {
    hide Inv, Run;
    StepKeepsInv(w, first);
    ResolvedRow(w.store, first.actor, first.id, first.kind, first.decision, first.now);
    ResolvedIsFinal(Step(w, first), acts, first.id);
  }

  lemma ResolvedRow(st: Store, actor: UserId, id: RequestId, kind: Kind, decision: Status, at: Time)
    requires Resolve(st, actor, id, kind, decision, at).1 == Resolved
    ensures var st2 := Resolve(st, actor, id, kind, decision, at).0;
            && id in st2.requests && st2.requests[id].kind == kind && IsDecision(decision)
            && st2.requests[id].status == decision && st2.requests[id].resolvedBy == actor
  {
  }

  /** An accepted request takes effect: the pair are friends both ways, or the user is in the group; it was still open,
      not overdue, and the actor was allowed to accept. */
  lemma AcceptTakesEffect(st: Store, actor: UserId, id: RequestId, kind: Kind, now: Time)
    requires id in st.requests && st.requests[id].status == Pending
    requires Resolve(st, actor, id, kind, Accepted, now).1 == Resolved
    ensures var st2 := Resolve(st, actor, id, kind, Accepted, now).0;
            var r := st.requests[id];
            && now < r.expiresAt
            && match kind
               case Friend =>
                 actor == r.target && Active(st2, r.requester, r.target) && Active(st2, r.target, r.requester)
               case GroupJoin => Manages(st, r.group, actor) && (r.group, r.requester) in st2.groups.members
               case GroupInvite => actor == r.target && (r.group, r.target) in st2.groups.members
  {
  }

  // ---- acceptances between two statements ----

  predicate Mutual(st: Store, u: UserId, v: UserId) {
    Active(st, u, v) <==> Active(st, v, u)
  }

  /** The friendship of a pair goes both ways, and there is no pending request between friends. */
  ghost predicate Orderly(st: Store, u: UserId, v: UserId) {
    Mutual(st, u, v) && !(Active(st, u, v) && exists i :: PendingFor(st, i, u, v))
  }

  /** The action accepts a friend request of the pair. */
  predicate Accepts(st: Store, a: Action, u: UserId, v: UserId) {
    && a.Decide? && PendingFor(st, a.id, u, v) && a.decision == Accepted
    && Resolve(st, a.actor, a.id, a.kind, Accepted, a.now).1 == Resolved
  }

  /** The action removes the friendship from u to v: a removal in one go, or the second update of one for v and u. */
  predicate Severs(w: World, a: Action, u: UserId, v: UserId) {
    || (a.PartFirst? && Active(w.store, a.user, a.friend)
        && ((a.user == u && a.friend == v) || (a.user == v && a.friend == u)))
    || (a.PartSecond? && a.gap in w.open && w.open[a.gap] == Parting(v, u))
  }

  /** Friendships begin with acceptances and end with removals. */
  lemma StepActive(w: World, a: Action, u: UserId, v: UserId)
    requires Inv(w)
    ensures Active(Step(w, a).store, u, v)
            <==> Accepts(w.store, a, u, v) || (Active(w.store, u, v) && !Severs(w, a, u, v))
  {
    hide Keyed, Change, SecondStatement, Resolve;
    if Ends(w, a) {
      SecondActive(w.store, w.open[a.gap], a.now, u, v);
    } else {
      match a {
        case AskJoin(_, _, _) => AskKeeps(w.store, a);
        case Invite(_, _, _, _) => AskKeeps(w.store, a);
        case Decide(_, _, _, _, _) => DecideActive(w.store, a, u, v);
        case CheckFriend(_, _) => NoChange(w.store, a);
        case InsertFriend(_, _) => NoChange(w.store, a);
        case PartSecond(_, _) => NoChange(w.store, a);
        case _ => OtherActive(w.store, a, u, v);
      }
    }
  }

  lemma SecondActive(st: Store, g: Gap, now: Time, u: UserId, v: UserId)
    requires Keyed(st) && (g.Asking? ==> g.user != g.peer)
    ensures Active(SecondStatement(st, g, now), u, v) <==> Active(st, u, v) && g != Parting(v, u)
  {
    hide Keyed, CreatePending;
    SecondKeeps(st, g, now);
  }

  lemma OtherActive(st: Store, a: Action, u: UserId, v: UserId)
    requires a.SweepUser? || a.SweepGroup? || a.PartFirst? || a.OnGroups?
    ensures Active(Change(st, a), u, v)
            <==> Active(st, u, v)
                 && !(a.PartFirst? && ((a.user == u && a.friend == v) || (a.user == v && a.friend == u)))
  {
  }

  lemma DecideActive(st: Store, a: Action, u: UserId, v: UserId)
    requires a.Decide?
    ensures Active(Change(st, a), u, v) <==> Accepts(st, a, u, v) || Active(st, u, v)
  {
    hide CanResolve, Groups.Join;
  }

  /** The gap of an action is about the pair, either way. */
  predicate Between(w: World, a: Action, u: UserId, v: UserId) {
    Ends(w, a) && ((w.open[a.gap].user == u && w.open[a.gap].peer == v)
                   || (w.open[a.gap].user == v && w.open[a.gap].peer == u))
  }

  /** An orderly pair becomes disorderly exactly when a second statement finds a friendship that its first did
      not see. */
  lemma StepOrderly(w: World, a: Action, u: UserId, v: UserId)
    requires Inv(w) && Orderly(w.store, u, v) && u != v
    ensures !Orderly(Step(w, a).store, u, v)
            <==> Between(w, a, u, v) && Active(w.store, w.open[a.gap].user, w.open[a.gap].peer)
  {
    hide Inv, Step, PendingFor;
    StepActive(w, a, u, v);
    StepActive(w, a, v, u);
    AcceptsEither(w.store, a, u, v);
    if Between(w, a, u, v) {
      EndsAlone(w, a);
      if w.open[a.gap].Asking? {
        InsertLeavesPending(w, a, u, v);
      }
    } else if i :| PendingFor(Step(w, a).store, i, u, v) {
      StepPending(w, a, u, v, i);
    }
  }

  lemma AcceptsEither(st: Store, a: Action, u: UserId, v: UserId)
    ensures Accepts(st, a, u, v) <==> Accepts(st, a, v, u)
  {
    hide Resolve;
  }

  lemma EndsAlone(w: World, a: Action)
    requires Ends(w, a)
    ensures forall u, v :: !Accepts(w.store, a, u, v)
    ensures w.open[a.gap].Asking? <==> a.InsertFriend?
  {
  }

  /** After the insert of an ask its pair has a pending request, new or old. */
  lemma InsertLeavesPending(w: World, a: Action, u: UserId, v: UserId)
    requires Inv(w) && Between(w, a, u, v) && w.open[a.gap].Asking?
    ensures exists i :: PendingFor(Step(w, a).store, i, u, v)
  {
    hide Keyed, SecondStatement, PendingFor;
    var g := w.open[a.gap];
    var i := AskedIsPending(w.store, g, a.now);
    PendingSwaps(Step(w, a).store, i, g.user, g.peer);
  }

  lemma PendingSwaps(st: Store, i: RequestId, u: UserId, v: UserId)
    ensures PendingFor(st, i, u, v) <==> PendingFor(st, i, v, u)
  {
  }

  lemma AskedIsPending(st: Store, g: Gap, now: Time) returns (i: RequestId)
    requires Keyed(st) && g.Asking? && g.user != g.peer
    ensures PendingFor(SecondStatement(st, g, now), i, g.user, g.peer)
  {
    SecondKeeps(st, g, now);
    var st2, key := SecondStatement(st, g, now), PairKey(g.user, g.peer);
    var r := Request(Friend, g.user, g.peer, 0, Pending, None, now + TTL, None, 0);
    var holder := Holder(ExpireKey(st, KeyOf(r), now), KeyOf(r));
    i := if holder.Some? then holder.value else st.nextId;
    assert Proper(st2.requests[i]) && KeyOf(st2.requests[i]) == key;
  }

  /** Somebody may ask to join a live group, or be invited to a group by a manager of it, without being in it. */
  predicate MayAsk(st: Store, a: Action) {
    match a
    case AskJoin(user, group, _) => (group, user) !in st.groups.members && Groups.LiveGroup(st.groups, group)
    case Invite(actor, group, target, _) => (group, target) !in st.groups.members && Manages(st, group, actor)
    case _ => false
  }

  /** Then a request for it is pending afterwards, and not overdue. */
  lemma AskedIsWaiting(w: World, a: Action) returns (i: RequestId)
    requires Inv(w) && MayAsk(w.store, a)
    ensures var st := Step(w, a).store;
            && i in st.requests && st.requests[i].status == Pending && a.now < st.requests[i].expiresAt
            && st.requests[i].key
               == Some(if a.AskJoin? then JoinKey(a.group, a.user) else InviteKey(a.group, a.target))
  {
    var (kind, user, target) := if a.AskJoin? then (GroupJoin, a.user, 0) else (GroupInvite, a.actor, a.target);
    var r := Request(kind, user, target, a.group, Pending, None, a.now + TTL, None, 0);
    var holder := Holder(ExpireKey(w.store, KeyOf(r), a.now), KeyOf(r));
    i := if holder.Some? then holder.value else w.store.nextId;
  }

  /** After a sweep nothing overdue is pending any more, of the user in either part or of the group. */
  lemma SweptIsInTime(w: World, u: UserId, g: GroupId, now: Time, id: RequestId)
    requires id in w.store.requests
    ensures var r := Step(w, SweepUser(u, now)).store.requests[id];
            r.status == Pending && (r.requester == u || r.target == u) ==> now < r.expiresAt
    ensures var r := Step(w, SweepGroup(g, now)).store.requests[id];
            r.status == Pending && r.group == g ==> now < r.expiresAt
  {
  }

  /** Without an insert for the pair, what is pending for it was so before, and no acceptance of the pair leaves any. */
  lemma StepPending(w: World, a: Action, u: UserId, v: UserId, i: RequestId)
    requires Inv(w) && PendingFor(Step(w, a).store, i, u, v)
    requires !(Between(w, a, u, v) && w.open[a.gap].Asking?)
    ensures PendingFor(w.store, i, u, v) && !Accepts(w.store, a, u, v)
  {
    hide Groups.Join, CanResolve, CreatePending, Keyed, Resolve, KeyOf;
    if Ends(w, a) {
      var g := w.open[a.gap];
      if g.Asking? {
        OnlyAdds(w.store, Friend, g.user, g.peer, 0, a.now, i);
      }
    } else {
      match a {
        case AskJoin(user, group, now) => OnlyAdds(w.store, GroupJoin, user, 0, group, now, i);
        case Invite(actor, group, target, now) => OnlyAdds(w.store, GroupInvite, actor, target, group, now, i);
        case Decide(_, _, _, _, _) => DecidePending(w.store, a, u, v, i);
        case _ =>
      }
    }
  }

  /** What is pending after a creation was so before, or is about what the creation asked. */
  lemma OnlyAdds(st: Store, kind: Kind, requester: UserId, target: UserId, group: GroupId, now: Time, i: RequestId)
    requires Keyed(st)
    ensures var st2 := CreatePending(st, kind, requester, target, group, now).0;
            i in st2.requests && st2.requests[i].status == Pending ==>
              (i in st.requests && st2.requests[i] == st.requests[i])
              || (st2.requests[i].kind == kind && st2.requests[i].requester == requester
                  && st2.requests[i].target == target)
  {
    hide KeyOf;
  }

  lemma DecidePending(st: Store, a: Action, u: UserId, v: UserId, i: RequestId)
    requires Keyed(st) && a.Decide? && PendingFor(Change(st, a), i, u, v)
    ensures PendingFor(st, i, u, v) && !Accepts(st, a, u, v)
  {
    hide Groups.Join, CanResolve;
    if Accepts(st, a, u, v) {
      OnePending(st, u, v, a.id, i);
    }
  }

  ghost function At(acts: seq<Action>, n: nat): World
    requires n <= |acts|
  {
    Run(START, acts[..n])
  }

  lemma {:induction false} RunThen(w: World, acts: seq<Action>, a: Action)
    ensures Run(w, acts + [a]) == Step(Run(w, acts), a)
    decreases |acts|
  {
    hide Step;
    if acts == [] {
      assert acts + [a] == [a] && [a][1..] == [];
    } else {
      assert (acts + [a])[1..] == acts[1..] + [a];
      RunThen(Step(w, acts[0]), acts[1..], a);
    }
  }

  lemma AtNext(acts: seq<Action>, n: nat)
    requires n < |acts|
    ensures Inv(At(acts, n)) && At(acts, n + 1) == Step(At(acts, n), acts[n])
  {
    hide Step;
    assert Inv(START);
    RunKeepsInv(START, acts[..n]);
    RunThen(START, acts[..n], acts[n]);
    assert acts[..n] + [acts[n]] == acts[..n + 1];
  }

  lemma AtStart(acts: seq<Action>, u: UserId, v: UserId)
    ensures At(acts, 0) == START && Inv(START) && Orderly(START.store, u, v) && Mutual(START.store, u, v)
  {
    assert acts[..0] == [];
  }

  /** Step x accepted a request of the pair while gap g was open, and the friendship from u to v lasted up to step n. */
  ghost predicate AcceptedIn(acts: seq<Action>, x: nat, n: nat, g: nat, u: UserId, v: UserId) {
    && x < n <= |acts| && g in At(acts, x).open && Accepts(At(acts, x).store, acts[x], u, v)
    && forall y | x < y < n :: !Severs(At(acts, y), acts[y], u, v)
  }

  /** Step j is the second statement of an ask or a removal, its first statement came before step x, and step x
      accepted a request of the pair, whose friendship lasted up to step j. */
  ghost predicate Race(acts: seq<Action>, x: nat, j: nat, u: UserId, v: UserId) {
    && x < j < |acts| && Ends(At(acts, j), acts[j])
    && At(acts, j).open[acts[j].gap].user == u && At(acts, j).open[acts[j].gap].peer == v
    && AcceptedIn(acts, x, j, acts[j].gap, u, v)
  }

  /** A friendship seen while a gap is open, which its first statement did not see, was accepted in between. */
  lemma {:induction false} ActiveSince(acts: seq<Action>, n: nat, g: nat, u: UserId, v: UserId) returns (x: nat)
    requires n <= |acts| && g in At(acts, n).open && Active(At(acts, n).store, u, v)
    requires At(acts, n).open[g].user == u && At(acts, n).open[g].peer == v
    ensures AcceptedIn(acts, x, n, g, u, v)
  {
    hide Accepts, Severs, Keyed, SecondStatement, Change;
    assert n > 0 by {
      AtStart(acts, u, v);
    }
    var w, a := At(acts, n - 1), acts[n - 1];
    AtNext(acts, n - 1);
    StepActive(w, a, u, v);
    assert g in w.open && w.open[g] == At(acts, n).open[g] by {
      GapUnseen(w, a, g, u, v);
    }
    if Accepts(w.store, a, u, v) {
      x := n - 1;
    } else {
      x := ActiveSince(acts, n - 1, g, u, v);
    }
  }

  lemma GapUnseen(w: World, a: Action, g: nat, u: UserId, v: UserId)
    requires Inv(w) && g in Step(w, a).open && Active(Step(w, a).store, u, v)
    requires Step(w, a).open[g].user == u && Step(w, a).open[g].peer == v
    ensures g in w.open && w.open[g] == Step(w, a).open[g]
  {
    hide Change, SecondStatement;
  }

  /** If nobody ended it after its acceptance, the friendship still stands. */
  lemma {:induction false} StaysActive(acts: seq<Action>, x: nat, n: nat, g: nat, u: UserId, v: UserId)
    requires AcceptedIn(acts, x, n, g, u, v)
    ensures Active(At(acts, n).store, u, v)
  {
    hide Accepts, Severs, Active, Inv, Step, At;
    AtNext(acts, n - 1);
    StepActive(At(acts, n - 1), acts[n - 1], u, v);
    if x < n - 1 {
      StaysActive(acts, x, n - 1, g, u, v);
    }
  }

  /** Friendship goes both ways and no request is pending between friends throughout a run exactly when no acceptance of
      the pair falls between the two statements of an ask or a removal for it. */
  lemma OrderlyIff(acts: seq<Action>, u: UserId, v: UserId)
    requires u != v
    ensures (forall n | 0 <= n <= |acts| :: Orderly(At(acts, n).store, u, v))
            <==> forall x: nat, j: nat :: !Race(acts, x, j, u, v) && !Race(acts, x, j, v, u)
  {
    hide At, Orderly, Race;
    if n: nat :| n <= |acts| && !Orderly(At(acts, n).store, u, v) {
      DisorderHasRace(acts, n, u, v);
    }
    if x: nat, j: nat :| Race(acts, x, j, u, v) || Race(acts, x, j, v, u) {
      RaceMakesDisorder(acts, x, j, u, v);
    }
  }

  lemma {:induction false} DisorderHasRace(acts: seq<Action>, n: nat, u: UserId, v: UserId)
    requires u != v && n <= |acts| && !Orderly(At(acts, n).store, u, v)
    ensures exists x: nat, j: nat :: Race(acts, x, j, u, v) || Race(acts, x, j, v, u)
  {
    hide Step, Inv, Accepts, Severs, Orderly, Active, At;
    assert n > 0 by {
      AtStart(acts, u, v);
    }
    var w, j := At(acts, n - 1), n - 1;
    AtNext(acts, j);
    if !Orderly(w.store, u, v) {
      DisorderHasRace(acts, j, u, v);
    } else {
      StepOrderly(w, acts[j], u, v);
      var gap := w.open[acts[j].gap];
      var x := ActiveSince(acts, j, acts[j].gap, gap.user, gap.peer);
      assert Race(acts, x, j, gap.user, gap.peer);
    }
  }

  lemma RaceMakesDisorder(acts: seq<Action>, x: nat, j: nat, u: UserId, v: UserId)
    requires u != v && (Race(acts, x, j, u, v) || Race(acts, x, j, v, u))
    ensures j < |acts| && (!Orderly(At(acts, j).store, u, v) || !Orderly(At(acts, j + 1).store, u, v))
  {
    hide At, Accepts, Severs, Orderly, Inv, Step, Active;
    AtNext(acts, j);
    var w := At(acts, j);
    var gap := w.open[acts[j].gap];
    StaysActive(acts, x, j, acts[j].gap, gap.user, gap.peer);
    if Orderly(w.store, u, v) {
      StepOrderly(w, acts[j], u, v);
    }
  }

  ghost predicate RemovalRace(acts: seq<Action>, x: nat, j: nat, u: UserId, v: UserId) {
    Race(acts, x, j, u, v) && acts[j].PartSecond?
  }

  lemma StepMutual(w: World, a: Action, u: UserId, v: UserId)
    requires Inv(w) && Mutual(w.store, u, v) && u != v
    ensures !Mutual(Step(w, a).store, u, v)
            <==> Between(w, a, u, v) && a.PartSecond? && Active(w.store, w.open[a.gap].user, w.open[a.gap].peer)
  {
    hide Inv, Step, Resolve;
    StepActive(w, a, u, v);
    StepActive(w, a, v, u);
  }

  /** Friendship goes both ways throughout a run exactly when no acceptance of the pair falls between the two updates
      of a removal, whatever asks do. */
  lemma MutualIff(acts: seq<Action>, u: UserId, v: UserId)
    requires u != v
    ensures (forall n | 0 <= n <= |acts| :: Mutual(At(acts, n).store, u, v))
            <==> forall x: nat, j: nat :: !RemovalRace(acts, x, j, u, v) && !RemovalRace(acts, x, j, v, u)
  {
    hide At, Mutual, RemovalRace;
    if n: nat :| n <= |acts| && !Mutual(At(acts, n).store, u, v) {
      OneWayHasRace(acts, n, u, v);
    }
    if x: nat, j: nat :| RemovalRace(acts, x, j, u, v) || RemovalRace(acts, x, j, v, u) {
      RaceMakesOneWay(acts, x, j, u, v);
    }
  }

  lemma {:induction false} OneWayHasRace(acts: seq<Action>, n: nat, u: UserId, v: UserId)
    requires u != v && n <= |acts| && !Mutual(At(acts, n).store, u, v)
    ensures exists x: nat, j: nat :: RemovalRace(acts, x, j, u, v) || RemovalRace(acts, x, j, v, u)
  {
    hide Step, Inv, Accepts, Severs, Mutual, Active, At;
    assert n > 0 by {
      AtStart(acts, u, v);
    }
    var w, j := At(acts, n - 1), n - 1;
    AtNext(acts, j);
    if !Mutual(w.store, u, v) {
      OneWayHasRace(acts, j, u, v);
    } else {
      StepMutual(w, acts[j], u, v);
      var gap := w.open[acts[j].gap];
      var x := ActiveSince(acts, j, acts[j].gap, gap.user, gap.peer);
      assert RemovalRace(acts, x, j, gap.user, gap.peer);
    }
  }

  lemma RaceMakesOneWay(acts: seq<Action>, x: nat, j: nat, u: UserId, v: UserId)
    requires u != v && (RemovalRace(acts, x, j, u, v) || RemovalRace(acts, x, j, v, u))
    ensures j < |acts| && (!Mutual(At(acts, j).store, u, v) || !Mutual(At(acts, j + 1).store, u, v))
  {
    hide At, Accepts, Severs, Mutual, Inv, Step, Active;
    AtNext(acts, j);
    var w := At(acts, j);
    var gap := w.open[acts[j].gap];
    StaysActive(acts, x, j, acts[j].gap, gap.user, gap.peer);
    if Mutual(w.store, u, v) {
      StepMutual(w, acts[j], u, v);
    }
  }

  /** Where no acceptance falls into a removal of the pair, the check in one direction refuses exactly the pairs that
      are friends in either. */
  lemma OneDirectionSuffices(acts: seq<Action>, u: UserId, v: UserId)
    requires u > 0 && v > 0 && u != v
    requires forall x: nat, j: nat :: !RemovalRace(acts, x, j, u, v) && !RemovalRace(acts, x, j, v, u)
    ensures var st := Run(START, acts).store;
            FriendCheck(st, u, v) == Some(AlreadyRelated) <==> Active(st, u, v) || Active(st, v, u)
  {
    hide Run, RemovalRace;
    MutualIff(acts, u, v);
    assert acts[..|acts|] == acts;
    assert Mutual(At(acts, |acts|).store, u, v);
  }

  /** Second statements that directly follow their first leave every pair orderly. */
  lemma ImmediateIsOrderly(acts: seq<Action>, n: nat, u: UserId, v: UserId)
    requires u != v && n <= |acts|
    requires forall j | 0 < j < |acts| && Ends(At(acts, j), acts[j]) :: acts[j].gap !in At(acts, j - 1).open
    ensures Orderly(At(acts, n).store, u, v)
  {
    hide At, Orderly;
    if !Orderly(At(acts, n).store, u, v) {
      DisorderHasRace(acts, n, u, v);
      var x: nat, j: nat :| Race(acts, x, j, u, v) || Race(acts, x, j, v, u);
      OpenStays(acts, x, j, acts[j].gap);
      assert false;
    }
  }

  /** A gap open at two moments was open in between. */
  lemma {:induction false} OpenStays(acts: seq<Action>, x: nat, j: nat, g: nat)
    requires x < j <= |acts| && g in At(acts, x).open && g in At(acts, j).open
    ensures g in At(acts, j - 1).open
  {
    hide At, Change, SecondStatement, Keyed;
    if x < j - 1 {
      GapOpened(acts, x, j - 1, g);
      AtNext(acts, j - 1);
    }
  }

  lemma {:induction false} GapOpened(acts: seq<Action>, x: nat, n: nat, g: nat)
    requires x <= n <= |acts| && g in At(acts, x).open
    ensures g < At(acts, n).next
  {
    hide At, Change, SecondStatement, Keyed;
    if x < n {
      GapOpened(acts, x, n - 1, g);
      AtNext(acts, n - 1);
    } else {
      assert Inv(At(acts, x)) by {
        if x < |acts| {
          AtNext(acts, x);
        } else {
          AtEnd(acts);
        }
      }
    }
  }

  lemma AtEnd(acts: seq<Action>)
    ensures Inv(At(acts, |acts|))
  {
    assert Inv(START);
    RunKeepsInv(START, acts[..|acts|]);
  }

  // ---- two runs that are not orderly ----

  const ASKED := Request(Friend, 1, 2, 0, Pending, Some(FriendKey(1, 2)), TTL, None, 0)
  const ASKED_ONCE := EMPTY.(requests := map[1 := ASKED], nextId := 2)
  const ACCEPT := Decide(2, 1, Friend, Accepted, 1)

  lemma FirstInsert()
    ensures SecondStatement(EMPTY, Asking(1, 2), 0) == ASKED_ONCE
  {
    var key := FriendKey(1, 2);
    assert ExpireKey(EMPTY, key, 0) == EMPTY;
    assert forall i :: !HasKey(EMPTY, i, key);
  }

  lemma AcceptJoins()
    ensures var st := Change(ASKED_ONCE, ACCEPT);
            Active(st, 1, 2) && Active(st, 2, 1)
  {
  }

  lemma AskedInGap(first: Action, gap: Gap) returns (acts: seq<Action>)
    requires (first == CheckFriend(2, 1) && gap == Asking(2, 1))
             || (first == PartFirst(2, 1, 0) && gap == Parting(2, 1))
    ensures Run(START, acts) == World(ASKED_ONCE, map[1 := gap], 2)
  {
    acts := [] + [CheckFriend(1, 2)] + [first] + [InsertFriend(0, 0)];
    RunThen(START, [], CheckFriend(1, 2));
    RunThen(START, [] + [CheckFriend(1, 2)], first);
    RunThen(START, [] + [CheckFriend(1, 2)] + [first], InsertFriend(0, 0));
    hide SecondStatement, Change;
    FirstInsert();
  }

  /** User 1 has asked user 2 while user 2 was about to do `first`, and user 2 accepts in its gap. */
  lemma AcceptedInGap(first: Action, gap: Gap) returns (acts: seq<Action>)
    requires (first == CheckFriend(2, 1) && gap == Asking(2, 1))
             || (first == PartFirst(2, 1, 0) && gap == Parting(2, 1))
    ensures Inv(Run(START, acts))
    ensures var w := Run(START, acts);
            w.open == map[1 := gap] && Active(w.store, 1, 2) && Active(w.store, 2, 1)
  {
    var asks := AskedInGap(first, gap);
    RunThen(START, asks, ACCEPT);
    acts := asks + [ACCEPT];
    assert Inv(START);
    RunKeepsInv(START, acts);
    hide Run, Change, Inv;
    AcceptJoins();
  }

  /** Two people ask each other at once: both checks pass, one request is accepted, and the other insert makes a pending
      request between friends. */
  lemma CheckThenInsertRace() returns (acts: seq<Action>)
    ensures Active(Run(START, acts).store, 2, 1) && exists i :: PendingFor(Run(START, acts).store, i, 2, 1)
  {
    acts := RaceRun(CheckFriend(2, 1), Asking(2, 1), InsertFriend(1, 1));
  }

  /** An acceptance between the two updates of a removal: only one of the two directions is removed again. */
  lemma HalfRemoved() returns (acts: seq<Action>)
    ensures Active(Run(START, acts).store, 2, 1) && !Active(Run(START, acts).store, 1, 2)
  {
    acts := RaceRun(PartFirst(2, 1, 0), Parting(2, 1), PartSecond(1, 1));
  }

  lemma RaceRun(first: Action, gap: Gap, second: Action) returns (acts: seq<Action>)
    requires (first == CheckFriend(2, 1) && gap == Asking(2, 1) && second == InsertFriend(1, 1))
             || (first == PartFirst(2, 1, 0) && gap == Parting(2, 1) && second == PartSecond(1, 1))
    ensures var st := Run(START, acts).store;
            && Active(st, 2, 1) && (Active(st, 1, 2) <==> gap.Asking?)
            && (gap.Asking? ==> exists i :: PendingFor(st, i, 2, 1))
  {
    hide Run, Inv, Active, PendingFor;
    var before := AcceptedInGap(first, gap);
    var w := Run(START, before);
    RunThen(START, before, second);
    StepActive(w, second, 2, 1);
    StepActive(w, second, 1, 2);
    if gap.Asking? {
      InsertLeavesPending(w, second, 2, 1);
    }
    acts := before + [second];
  }
}
