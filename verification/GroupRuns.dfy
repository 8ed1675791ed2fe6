/** Every sequence of group operations keeps one owner per live group. */
module GroupRuns {
  import opened Common
  import opened Groups

  /** Deleted groups have no members; the owner of a live group is a member in role owner, and nobody else is. */
  predicate Inv(st: Store) {
    && (forall k | k in st.members :: LiveGroup(st, k.0))
    && (forall g | g in st.groups && !st.groups[g].deleted ::
          (g, st.groups[g].owner) in st.members && st.members[(g, st.groups[g].owner)].role == Owner)
    && (forall k | k in st.members && st.members[k].role == Owner :: k.0 in st.groups && st.groups[k.0].owner == k.1)
  }

  datatype Action =
    | CreateGroup(owner: UserId, group: GroupId, now: Time)
    | JoinGroup(group: GroupId, user: UserId, now: Time)
    | LeaveGroup(group: GroupId, user: UserId, now: Time)
    | KickMember(actor: UserId, group: GroupId, user: UserId, now: Time)
    | ChangeMemberRole(actor: UserId, group: GroupId, user: UserId, role: Role, now: Time)
    | TransferOwner(actor: UserId, group: GroupId, user: UserId, now: Time)

  ghost function Step(st: Store, a: Action): (Store, Reply) {
    match a
    case CreateGroup(owner, g, now) => Create(st, owner, g, now)
    case JoinGroup(g, u, now) => Join(st, g, u, now)
    case LeaveGroup(g, u, now) => Leave(st, g, u, now)
    case KickMember(actor, g, u, now) => Kick(st, actor, g, u, now)
    case ChangeMemberRole(actor, g, u, role, now) => ChangeRole(st, actor, g, u, role, now)
    case TransferOwner(actor, g, u, now) => Transfer(st, actor, g, u, now)
  }

  ghost function Run(st: Store, acts: seq<Action>): Store
    decreases |acts|
  {
    if acts == [] then st else Run(Step(st, acts[0]).0, acts[1..])
  }

  lemma CreateKeeps(st: Store, a: Action)
    requires Inv(st) && a.CreateGroup?
    ensures Inv(Step(st, a).0)
  {
  }

  lemma JoinKeeps(st: Store, a: Action)
    requires Inv(st) && a.JoinGroup?
    ensures Inv(Step(st, a).0)
  {
  }

  /** With no candidate left, the leaving owner was the only member. */
  lemma LastMember(st: Store, g: GroupId, u: UserId)
    requires Candidates(st, g, u) == {}
    ensures forall k | k in st.members && k.0 == g :: k.1 == u
  {
    forall k | k in st.members && k.0 == g ensures k.1 == u {
      assert k.1 == u || k.1 in Candidates(st, g, u);
    }
  }

  lemma LeaveKeeps(st: Store, a: Action)
    requires Inv(st) && a.LeaveGroup?
    ensures Inv(Step(st, a).0)
  {
    hide LeastOf, Candidates;
    if LiveGroup(st, a.group) && (a.group, a.user) in st.members && st.groups[a.group].owner == a.user {
      if Candidates(st, a.group, a.user) == {} {
        LastMember(st, a.group, a.user);
      } else {
        SuccessorStays(st, a.group, a.user);
      }
    }
  }

  lemma SuccessorStays(st: Store, g: GroupId, leaving: UserId)
    requires Candidates(st, g, leaving) != {}
    ensures var s := Successor(st, g, leaving); (g, s) in st.members && s != leaving
  {
  }

  lemma KickKeeps(st: Store, a: Action)
    requires Inv(st) && a.KickMember?
    ensures Inv(Step(st, a).0)
  {
  }

  lemma ChangeRoleKeeps(st: Store, a: Action)
    requires Inv(st) && a.ChangeMemberRole?
    ensures Inv(Step(st, a).0)
  {
  }

  /** A live group has one owner row. */
  lemma OneOwner(st: Store, g: GroupId)
    requires Inv(st) && LiveGroup(st, g)
    ensures Owners(st, g) == {(g, st.groups[g].owner)}
  {
  }

  function Handed(st: Store, actor: UserId, g: GroupId, target: UserId, now: Time): Store
    requires g in st.groups
  {
    var st1 := st.(groups := st.groups[g := st.groups[g].(owner := target, updateTime := now)]);
    SetRole(SetRole(st1, g, target, Owner, now), g, actor, Admin, now)
  }

  lemma HandedKeeps(st: Store, actor: UserId, g: GroupId, target: UserId, now: Time)
    requires Inv(st) && LiveGroup(st, g) && st.groups[g].owner == actor && actor != target
    requires (g, actor) in st.members && (g, target) in st.members
    ensures Inv(Handed(st, actor, g, target, now))
  {
  }

  /** The transfer's final count never fails: it succeeds exactly when its guards hold, and then the target is owner and
      the actor admin. */
  lemma TransferSucceedsIff(st: Store, actor: UserId, g: GroupId, target: UserId, now: Time)
    requires Inv(st)
    ensures var (after, reply) := Transfer(st, actor, g, target, now);
            && (reply == Done <==>
                  && actor > 0 && g > 0 && target > 0 && actor != target
                  && LiveGroup(st, g) && st.groups[g].owner == actor && (g, target) in st.members)
            && (reply == Done ==> after == Handed(st, actor, g, target, now) && Inv(after))
            && (reply != Done ==> after == st)
  {
    hide Inv, Owners;
    if actor > 0 && g > 0 && target > 0 && actor != target && LiveGroup(st, g) && st.groups[g].owner == actor {
      OwnerIsMember(st, g);
      if (g, target) in st.members {
        HandedKeeps(st, actor, g, target, now);
        OneOwner(Handed(st, actor, g, target, now), g);
      }
    }
  }

  lemma OwnerIsMember(st: Store, g: GroupId)
    requires Inv(st) && LiveGroup(st, g)
    ensures (g, st.groups[g].owner) in st.members && st.members[(g, st.groups[g].owner)].role == Owner
  {
  }

  lemma StepKeepsInv(st: Store, a: Action)
    requires Inv(st)
    ensures Inv(Step(st, a).0)
  {
    hide Inv;
    match a {
      case CreateGroup(_, _, _) => CreateKeeps(st, a);
      case JoinGroup(_, _, _) => JoinKeeps(st, a);
      case LeaveGroup(_, _, _) => LeaveKeeps(st, a);
      case KickMember(_, _, _, _) => KickKeeps(st, a);
      case ChangeMemberRole(_, _, _, _, _) => ChangeRoleKeeps(st, a);
      case TransferOwner(actor, g, u, now) => TransferSucceedsIff(st, actor, g, u, now);
    }
  }

  lemma {:induction false} RunKeepsInv(st: Store, acts: seq<Action>)
    requires Inv(st)
    ensures Inv(Run(st, acts))
    decreases |acts|
  {
    hide Inv, Step;
    if acts != [] {
      StepKeepsInv(st, acts[0]);
      RunKeepsInv(Step(st, acts[0]).0, acts[1..]);
    }
  }

  /** After any operations, a live group has exactly one owner row, that of its owner_user_id, and a deleted one has no
      members. */
  lemma ExactlyOneOwner(acts: seq<Action>, g: GroupId)
    ensures var st := Run(EMPTY, acts);
            && (LiveGroup(st, g) ==> |Owners(st, g)| == 1 && Owners(st, g) == {(g, st.groups[g].owner)})
            && (!LiveGroup(st, g) ==> forall u :: (g, u) !in st.members)
  {
    RunKeepsInv(EMPTY, acts);
    var st := Run(EMPTY, acts);
    if LiveGroup(st, g) {
      OneOwner(st, g);
    }
  }

  /** When the owner leaves, the new owner is the first of the others: an admin if there is one, by update time, then by
      user id; with nobody left the group is deleted. */
  lemma SuccessionOrder(st: Store, g: GroupId, u: UserId, now: Time)
    requires Inv(st) && LiveGroup(st, g) && st.groups[g].owner == u
    ensures var (after, reply) := Leave(st, g, u, now);
            && reply == Done && (g, u) !in after.members
            && (LiveGroup(after, g) <==> exists v :: v != u && (g, v) in st.members)
            && (LiveGroup(after, g) ==>
                  var s := after.groups[g].owner;
                  s != u && (g, s) in st.members
                  && forall v | v != u && (g, v) in st.members :: Precedes(st, g, s, v))
  {
    if Candidates(st, g, u) == {} {
      LastMember(st, g, u);
      forall v | (g, v) in st.members ensures v == u {
        assert (g, v).0 == g;
      }
    } else {
      SuccessorStays(st, g, u);
      forall v | v != u && (g, v) in st.members ensures v in Candidates(st, g, u) {
        assert (g, v).1 == v;
      }
    }
  }

  /** No operation changes the joining time of somebody who stays a member. */
  lemma JoinedAtIsKept(st: Store, a: Action, g: GroupId, u: UserId)
    requires Inv(st) && (g, u) in st.members && (g, u) in Step(st, a).0.members
    ensures Step(st, a).0.members[(g, u)].joinedAt == st.members[(g, u)].joinedAt
  {
  }
}
