/** Groups and their members: create, revive, join, leave with succession, kick, role change and transfer. */
module Groups {
  import opened Common

  type UserId = int
  type GroupId = int

  datatype Role = Owner | Admin | Member
  datatype MemberRow = MemberRow(role: Role, joinedAt: Time, updateTime: Time)
  datatype GroupRow = GroupRow(owner: UserId, deleted: bool, updateTime: Time)

  datatype Store = Store(groups: map<GroupId, GroupRow>, members: map<(GroupId, UserId), MemberRow>)

  const EMPTY := Store(map[], map[])

  datatype Reply = Done | AlreadyExists | NotFound | Forbidden | InvalidState | Unchanged

  predicate LiveGroup(st: Store, g: GroupId) {
    g in st.groups && !st.groups[g].deleted
  }

  function Touch(st: Store, g: GroupId, now: Time): Store {
    if g in st.groups then st.(groups := st.groups[g := st.groups[g].(updateTime := now)]) else st
  }

  /** groupMemberRoleUpdates: a role change keeps joinedAt. */
  function SetRole(st: Store, g: GroupId, u: UserId, role: Role, now: Time): Store {
    if (g, u) in st.members
    then st.(members := st.members[(g, u) := st.members[(g, u)].(role := role, updateTime := now)])
    else st
  }

  /** CreateGroupWithOwner: a deleted group is revived under the new owner. */
  function Create(st: Store, owner: UserId, g: GroupId, now: Time): (Store, Reply) {
    if LiveGroup(st, g) then (st, AlreadyExists)
    else
      var st1 := st.(groups := st.groups[g := GroupRow(owner, false, now)]);
      (if (g, owner) in st.members then SetRole(st1, g, owner, Owner, now)
       else st1.(members := st.members[(g, owner) := MemberRow(Owner, now, now)]),
       Done)
  }

  /** addGroupMemberTx: joining again changes nothing but the group's update time. */
  function Join(st: Store, g: GroupId, u: UserId, now: Time): (Store, Reply) {
    if !LiveGroup(st, g) then (st, NotFound)
    else if (g, u) in st.members then (Touch(st, g, now), Done)
    else (Touch(st.(members := st.members[(g, u) := MemberRow(Member, now, now)]), g, now), Done)
  }

  // ---- succession ----

  function Rank(m: MemberRow): int {
    if m.role == Admin then 0 else 1
  }

  /** The order of the succession query: admins first, then the least update time, then the least user id. */
  predicate Precedes(st: Store, g: GroupId, u: UserId, v: UserId)
    requires (g, u) in st.members && (g, v) in st.members
  {
    var (a, b) := (st.members[(g, u)], st.members[(g, v)]);
    || Rank(a) < Rank(b)
    || (Rank(a) == Rank(b) && a.updateTime < b.updateTime)
    || (Rank(a) == Rank(b) && a.updateTime == b.updateTime && u <= v)
  }

  function Candidates(st: Store, g: GroupId, leaving: UserId): set<UserId> {
    set k | k in st.members && k.0 == g && k.1 != leaving :: k.1
  }

  predicate LeastOf(st: Store, g: GroupId, us: set<UserId>, u: UserId) {
    u in us && forall v | v in us :: (g, u) in st.members && (g, v) in st.members && Precedes(st, g, u, v)
  }

  lemma {:induction false} LeastExists(st: Store, g: GroupId, us: set<UserId>)
    requires us != {}
    requires forall u | u in us :: (g, u) in st.members
    ensures exists u :: LeastOf(st, g, us, u)
  {
    Inhabited(us);
    var u :| u in us;
    if us == {u} {
      assert LeastOf(st, g, us, u);
    } else {
      var rest := us - {u};
      LeastExists(st, g, rest);
      var v :| LeastOf(st, g, rest, v);
      assert LeastOf(st, g, us, if Precedes(st, g, u, v) then u else v);
    }
  }

  lemma LeastNext(st: Store, g: GroupId, seen: set<UserId>, best: Option<UserId>, u: UserId)
    requires (g, u) in st.members
    requires if best.None? then seen == {} else LeastOf(st, g, seen, best.value)
    ensures best.Some? ==> (g, best.value) in st.members
    ensures LeastOf(st, g, seen + {u}, if best.None? || Precedes(st, g, u, best.value) then u else best.value)
  {
  }

  lemma LeastUnique(st: Store, g: GroupId, us: set<UserId>, u: UserId, v: UserId)
    requires LeastOf(st, g, us, u) && LeastOf(st, g, us, v)
    ensures u == v
  {
  }

  ghost function Successor(st: Store, g: GroupId, leaving: UserId): (u: UserId)
    requires Candidates(st, g, leaving) != {}
    ensures LeastOf(st, g, Candidates(st, g, leaving), u)
  {
    LeastExists(st, g, Candidates(st, g, leaving));
    var u :| LeastOf(st, g, Candidates(st, g, leaving), u);
    u
  }

  lemma IsCandidate(st: Store, g: GroupId, leaving: UserId, u: UserId)
    requires u in Candidates(st, g, leaving)
    ensures (g, u) in st.members
  {
  }

  lemma LeastIsSuccessor(st: Store, g: GroupId, leaving: UserId, u: UserId)
    requires LeastOf(st, g, Candidates(st, g, leaving), u)
    ensures Candidates(st, g, leaving) != {} && u == Successor(st, g, leaving)
  {
  }

  /** RemoveUserFromGroup: an owner who leaves hands over to the successor, or the group is deleted. */
  ghost function Leave(st: Store, g: GroupId, u: UserId, now: Time): (Store, Reply) {
    if !LiveGroup(st, g) then (st, NotFound)
    else if (g, u) !in st.members then (st, Unchanged)
    else
      var st1 :=
        if st.groups[g].owner != u then Touch(st, g, now)
        else if Candidates(st, g, u) == {}
        then st.(groups := st.groups[g := st.groups[g].(deleted := true, updateTime := now)])
        else
          var s := Successor(st, g, u);
          SetRole(st.(groups := st.groups[g := st.groups[g].(owner := s, updateTime := now)]), g, s, Owner, now);
      (st1.(members := st1.members - {(g, u)}), Done)
  }

  // ---- what managers do ----

  predicate CanManage(role: Role) {
    role == Owner || role == Admin
  }

  predicate CanKick(actor: Role, target: Role) {
    CanManage(actor) && target != Owner && (actor == Owner || target == Member)
  }

  predicate CanChangeRole(actor: Role, target: Role, role: Role) {
    actor == Owner && target != Owner && (role == Admin || role == Member)
  }

  function Kick(st: Store, actor: UserId, g: GroupId, target: UserId, now: Time): (Store, Reply) {
    if (g, actor) !in st.members || !CanManage(st.members[(g, actor)].role) then (st, Forbidden)
    else if (g, target) !in st.members then (st, NotFound)
    else if !CanKick(st.members[(g, actor)].role, st.members[(g, target)].role) then (st, Forbidden)
    else (Touch(st.(members := st.members - {(g, target)}), g, now), Done)
  }

  function ChangeRole(st: Store, actor: UserId, g: GroupId, target: UserId, role: Role, now: Time): (Store, Reply) {
    if role == Owner then (st, InvalidState)
    else if (g, actor) !in st.members || !CanManage(st.members[(g, actor)].role) then (st, Forbidden)
    else if (g, target) !in st.members then (st, NotFound)
    else if !CanChangeRole(st.members[(g, actor)].role, st.members[(g, target)].role, role) then (st, Forbidden)
    else (Touch(SetRole(st, g, target, role, now), g, now), Done)
  }

  function Owners(st: Store, g: GroupId): set<(GroupId, UserId)> {
    set k | k in st.members && k.0 == g && st.members[k].role == Owner
  }

  /** TransferGroupOwner, with its final check that exactly the target is owner now. */
  function Transfer(st: Store, actor: UserId, g: GroupId, target: UserId, now: Time): (Store, Reply) {
    if actor <= 0 || g <= 0 || target <= 0 || actor == target then (st, InvalidState)
    else if !LiveGroup(st, g) then (st, NotFound)
    else if st.groups[g].owner != actor || (g, actor) !in st.members || st.members[(g, actor)].role != Owner
    then (st, InvalidState)
    else if (g, target) !in st.members then (st, NotFound)
    else
      var st1 := st.(groups := st.groups[g := st.groups[g].(owner := target, updateTime := now)]);
      var st2 := SetRole(SetRole(st1, g, target, Owner, now), g, actor, Admin, now);
      if |Owners(st2, g)| != 1 || st2.members[(g, target)].role != Owner then (st, InvalidState) else (st2, Done)
  }

  // ---- the tables changed in place ----

  class GroupTables {
    var groups: map<GroupId, GroupRow>
    var members: map<(GroupId, UserId), MemberRow>

    function Value(): Store
      reads this
    {
      Store(groups, members)
    }

    constructor ()
      ensures Value() == EMPTY
    {
      groups, members := map[], map[];
    }

    method TouchGroup(g: GroupId, now: Time)
      modifies this`groups
      ensures Value() == Touch(old(Value()), g, now)
    {
      if g in groups {
        groups := groups[g := groups[g].(updateTime := now)];
      }
    }

    method CreateGroupWithOwner(owner: UserId, g: GroupId, now: Time) returns (alreadyExists: bool)
      modifies this
      ensures Value() == Create(old(Value()), owner, g, now).0
      ensures alreadyExists == (Create(old(Value()), owner, g, now).1 == AlreadyExists)
    {
      if g in groups && !groups[g].deleted {
        return true;
      }
      groups := groups[g := GroupRow(owner, false, now)];
      if (g, owner) !in members {
        members := members[(g, owner) := MemberRow(Owner, now, now)];
      } else {
        members := members[(g, owner) := members[(g, owner)].(role := Owner, updateTime := now)];
      }
      return false;
    }

    method AddGroupMember(g: GroupId, u: UserId, now: Time) returns (reply: Reply)
      modifies this
      ensures (Value(), reply) == Join(old(Value()), g, u, now)
    {
      if g !in groups || groups[g].deleted {
        return NotFound;
      }
      if (g, u) !in members {
        members := members[(g, u) := MemberRow(Member, now, now)];
      }
      TouchGroup(g, now);
      return Done;
    }

    /** The succession query, as a scan that keeps the best candidate. */
    method FindSuccessor(g: GroupId, leaving: UserId) returns (s: Option<UserId>)
      ensures s.None? <==> Candidates(Value(), g, leaving) == {}
      ensures s.Some? ==> s.value == Successor(Value(), g, leaving)
    {
      hide LeastOf, Precedes, Candidates;
      var st := Value();
      s := None;
      var todo, seen := Candidates(st, g, leaving), {};
      while todo != {}
        invariant seen + todo == Candidates(st, g, leaving)
        invariant if s.None? then seen == {} else LeastOf(st, g, seen, s.value)
        decreases |todo|
      {
        Inhabited(todo);
        var u :| u in todo;
        IsCandidate(st, g, leaving, u);
        LeastNext(st, g, seen, s, u);
        if s.None? || Precedes(st, g, u, s.value) {
          s := Some(u);
        }
        todo, seen := todo - {u}, seen + {u};
      }
      if s.Some? {
        LeastIsSuccessor(st, g, leaving, s.value);
      }
    }

    method RemoveUserFromGroup(g: GroupId, u: UserId, now: Time) returns (reply: Reply)
      modifies this
      ensures (Value(), reply) == Leave(old(Value()), g, u, now)
    {
      if g !in groups || groups[g].deleted {
        return NotFound;
      }
      if (g, u) !in members {
        return Unchanged;
      }
      if groups[g].owner == u {
        var s := FindSuccessor(g, u);
        if s.None? {
          groups := groups[g := groups[g].(deleted := true, updateTime := now)];
        } else {
          groups := groups[g := groups[g].(owner := s.value, updateTime := now)];
          members := members[(g, s.value) := members[(g, s.value)].(role := Owner, updateTime := now)];
        }
      } else {
        TouchGroup(g, now);
      }
      members := members - {(g, u)};
      return Done;
    }

    method KickGroupMember(actor: UserId, g: GroupId, target: UserId, now: Time) returns (reply: Reply)
      modifies this
      ensures (Value(), reply) == Kick(old(Value()), actor, g, target, now)
    {
      if (g, actor) !in members || !CanManage(members[(g, actor)].role) {
        return Forbidden;
      }
      if (g, target) !in members {
        return NotFound;
      }
      if !CanKick(members[(g, actor)].role, members[(g, target)].role) {
        return Forbidden;
      }
      members := members - {(g, target)};
      TouchGroup(g, now);
      return Done;
    }

    method UpdateGroupMemberRole(actor: UserId, g: GroupId, target: UserId, role: Role, now: Time)
      returns (reply: Reply)
      modifies this
      ensures (Value(), reply) == ChangeRole(old(Value()), actor, g, target, role, now)
    {
      if role == Owner {
        return InvalidState;
      }
      if (g, actor) !in members || !CanManage(members[(g, actor)].role) {
        return Forbidden;
      }
      if (g, target) !in members {
        return NotFound;
      }
      if !CanChangeRole(members[(g, actor)].role, members[(g, target)].role, role) {
        return Forbidden;
      }
      members := members[(g, target) := members[(g, target)].(role := role, updateTime := now)];
      TouchGroup(g, now);
      return Done;
    }

    /** The transaction is rolled back when the final count is not one. */
    method TransferGroupOwner(actor: UserId, g: GroupId, target: UserId, now: Time) returns (reply: Reply)
      modifies this
      ensures (Value(), reply) == Transfer(old(Value()), actor, g, target, now)
    {
      if actor <= 0 || g <= 0 || target <= 0 || actor == target {
        return InvalidState;
      }
      if g !in groups || groups[g].deleted {
        return NotFound;
      }
      if groups[g].owner != actor || (g, actor) !in members || members[(g, actor)].role != Owner {
        return InvalidState;
      }
      if (g, target) !in members {
        return NotFound;
      }
      var savedGroups, savedMembers := groups, members;
      groups := groups[g := groups[g].(owner := target, updateTime := now)];
      members := members[(g, target) := members[(g, target)].(role := Owner, updateTime := now)];
      members := members[(g, actor) := members[(g, actor)].(role := Admin, updateTime := now)];
      var owners := set k | k in members && k.0 == g && members[k].role == Owner;
      if |owners| != 1 || members[(g, target)].role != Owner {
        groups, members := savedGroups, savedMembers;
        return InvalidState;
      }
      return Done;
    }
  }
}
