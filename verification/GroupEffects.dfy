/** What each group operation does to the rows, in terms of the rows and roles themselves. */
module GroupEffects {
  import opened Common
  import opened Groups

  predicate IsIn(st: Store, g: GroupId, u: UserId, role: Role) {
    (g, u) in st.members && st.members[(g, u)].role == role
  }

  predicate Exists(st: Store, g: GroupId) {
    g in st.groups && st.groups[g].deleted == false
  }

  /** The group row moves on in time and is otherwise as it was, and so are all other groups. */
  predicate Touched(st: Store, after: Store, g: GroupId, now: Time) {
    && after.groups.Keys == st.groups.Keys
    && forall h | h in st.groups ::
         after.groups[h] == if h == g then GroupRow(st.groups[g].owner, st.groups[g].deleted, now) else st.groups[h]
  }

  /** Only this user's membership may differ. */
  predicate OthersStay(st: Store, after: Store, g: GroupId, u: UserId) {
    && (forall k | k in st.members && k != (g, u) :: k in after.members && after.members[k] == st.members[k])
    && (forall k | k in after.members && k != (g, u) :: k in st.members)
  }

  /** Creating fails exactly for an existing group; otherwise the group is there, live, with its owner, who keeps the
      joining time of an old membership. */
  lemma CreateDoes(st: Store, owner: UserId, g: GroupId, now: Time)
    ensures var (after, reply) := Create(st, owner, g, now);
            && (reply == AlreadyExists <==> Exists(st, g)) && (reply == Done <==> !Exists(st, g))
            && (reply != Done ==> after == st)
            && (reply == Done ==>
                  && after.groups == st.groups[g := GroupRow(owner, false, now)]
                  && OthersStay(st, after, g, owner) && (g, owner) in after.members
                  && after.members[(g, owner)]
                     == MemberRow(Owner, if (g, owner) in st.members then st.members[(g, owner)].joinedAt
                                  else now, now))
  {
  }

  /** Joining a live group makes an ordinary member of who is not in it yet, and touches nobody else. */
  lemma JoinDoes(st: Store, g: GroupId, u: UserId, now: Time)
    ensures var (after, reply) := Join(st, g, u, now);
            && (reply == NotFound <==> !Exists(st, g)) && (reply == Done <==> Exists(st, g))
            && (reply != Done ==> after == st)
            && (reply == Done ==>
                  && Touched(st, after, g, now) && OthersStay(st, after, g, u) && (g, u) in after.members
                  && after.members[(g, u)]
                     == if (g, u) in st.members then st.members[(g, u)] else MemberRow(Member, now, now))
  {
  }

  /** u stands before v: an admin before others, then who was updated earlier, then the smaller id. */
  predicate Before(st: Store, g: GroupId, u: UserId, v: UserId) {
    && (g, u) in st.members && (g, v) in st.members
    && var a, b := st.members[(g, u)], st.members[(g, v)];
       if a.role == Admin && b.role != Admin then true
       else if a.role != Admin && b.role == Admin then false
       else a.updateTime < b.updateTime || (a.updateTime == b.updateTime && u < v)
  }

  lemma LeaveReply(st: Store, g: GroupId, u: UserId, now: Time)
    ensures var (after, reply) := Leave(st, g, u, now);
            && (reply == NotFound <==> !Exists(st, g))
            && (reply == Unchanged <==> Exists(st, g) && (g, u) !in st.members)
            && (reply == Done <==> Exists(st, g) && (g, u) in st.members)
            && (reply != Done ==> after == st)
  {
  }

  /** Who leaves is gone. Without being the owner, nothing else changes; an owner alone in the group deletes it; another
      owner hands over to the member who stands before all others, whose joining time stays. */
  lemma LeaveDoes(st: Store, g: GroupId, u: UserId, now: Time)
    requires Exists(st, g) && (g, u) in st.members
    ensures var after := Leave(st, g, u, now).0;
            && (g, u) !in after.members
            && if st.groups[g].owner != u then Touched(st, after, g, now) && OthersStay(st, after, g, u)
               else if forall v | (g, v) in st.members :: v == u
               then after.groups == st.groups[g := GroupRow(u, true, now)] && OthersStay(st, after, g, u)
               else
                 && g in after.groups
                 && var s := after.groups[g].owner;
                    && s != u && (g, s) in st.members && after.groups == st.groups[g := GroupRow(s, false, now)]
                    && (forall v | (g, v) in st.members && v != u && v != s :: Before(st, g, s, v))
                    && after.members
                       == (st.members - {(g, u)})[(g, s) := MemberRow(Owner, st.members[(g, s)].joinedAt, now)]
  {
    hide LeastOf, Precedes;
    if st.groups[g].owner == u {
      if Candidates(st, g, u) == {} {
        Alone(st, g, u);
      } else {
        var s := Successor(st, g, u);
        LeastIsBefore(st, g, u, s);
      }
    }
  }

  lemma Alone(st: Store, g: GroupId, u: UserId)
    requires Candidates(st, g, u) == {}
    ensures forall v | (g, v) in st.members :: v == u
  {
    forall v | (g, v) in st.members ensures v == u {
      assert v != u ==> v in Candidates(st, g, u);
    }
  }

  lemma LeastIsBefore(st: Store, g: GroupId, leaving: UserId, s: UserId)
    requires LeastOf(st, g, Candidates(st, g, leaving), s)
    ensures s != leaving && (g, s) in st.members
    ensures forall v | (g, v) in st.members && v != leaving && v != s :: Before(st, g, s, v)
  {
    forall v | (g, v) in st.members && v != leaving && v != s ensures Before(st, g, s, v) {
      assert v in Candidates(st, g, leaving);
    }
  }

  /** Owners kick everybody but owners, admins kick ordinary members, and nobody else kicks. */
  lemma KickDoes(st: Store, actor: UserId, g: GroupId, target: UserId, now: Time)
    ensures var (after, reply) := Kick(st, actor, g, target, now);
            var manager := IsIn(st, g, actor, Owner) || IsIn(st, g, actor, Admin);
            var may := (IsIn(st, g, actor, Owner) && (IsIn(st, g, target, Admin) || IsIn(st, g, target, Member)))
                       || (IsIn(st, g, actor, Admin) && IsIn(st, g, target, Member));
            && (reply == Done <==> may)
            && (reply == NotFound <==> manager && (g, target) !in st.members)
            && (reply == Forbidden <==> !may && !(manager && (g, target) !in st.members))
            && (reply != Done ==> after == st)
            && (reply == Done ==>
                  (g, target) !in after.members && OthersStay(st, after, g, target) && Touched(st, after, g, now))
  {
  }

  /** Only an owner changes roles, of members that are not owners, and not to owner. */
  lemma ChangeRoleDoes(st: Store, actor: UserId, g: GroupId, target: UserId, role: Role, now: Time)
    ensures var (after, reply) := ChangeRole(st, actor, g, target, role, now);
            var manager := IsIn(st, g, actor, Owner) || IsIn(st, g, actor, Admin);
            var may := role != Owner && IsIn(st, g, actor, Owner)
                       && (IsIn(st, g, target, Admin) || IsIn(st, g, target, Member));
            && (reply == Done <==> may)
            && (reply == InvalidState <==> role == Owner)
            && (reply == NotFound <==> role != Owner && manager && (g, target) !in st.members)
            && (reply == Forbidden <==> role != Owner && !may && !(manager && (g, target) !in st.members))
            && (reply != Done ==> after == st)
            && (reply == Done ==>
                  && (g, target) in after.members
                  && after.members[(g, target)] == MemberRow(role, st.members[(g, target)].joinedAt, now)
                  && OthersStay(st, after, g, target) && Touched(st, after, g, now))
  {
  }

  /** A transfer changes the owner in the group and in both rows, or nothing. */
  lemma TransferDoes(st: Store, actor: UserId, g: GroupId, target: UserId, now: Time)
    ensures var (after, reply) := Transfer(st, actor, g, target, now);
            && (reply != Done ==> after == st)
            && (reply == NotFound <==>
                  && actor > 0 && g > 0 && target > 0 && actor != target
                  && (!Exists(st, g)
                      || (st.groups[g].owner == actor && IsIn(st, g, actor, Owner) && (g, target) !in st.members)))
            && (reply == Done ==>
                  && actor > 0 && g > 0 && target > 0 && actor != target && Exists(st, g) && st.groups[g].owner == actor
                  && IsIn(st, g, actor, Owner) && (g, target) in st.members
                  && after.groups == st.groups[g := GroupRow(target, false, now)]
                  && after.members == st.members[(g, target) := MemberRow(Owner, st.members[(g, target)].joinedAt, now)]
                                      [(g, actor) := MemberRow(Admin, st.members[(g, actor)].joinedAt, now)])
  {
  }
}
