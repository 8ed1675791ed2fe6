/** Group operations with the gaps their transactions leave: leaving and transferring lock the rows they read, the other
    operations check first and write later, and anything may be committed in between. */
module GroupRaces {
  import opened Common
  import opened Groups
  import GroupRuns

  /** What an operation that passed its checks is about to write. */
  datatype Gap =
    | Creating(owner: UserId, group: GroupId, revives: bool)
    | Joining(group: GroupId, user: UserId)
    | Kicking(group: GroupId, user: UserId)
    | Changing(group: GroupId, user: UserId, role: Role)

  datatype Action = Check(op: GroupRuns.Action) | Write(gap: nat, now: Time) | Whole(op: GroupRuns.Action)

  datatype World = World(store: Store, open: map<nat, Gap>, next: nat)

  const START := World(EMPTY, map[], 0)

  predicate Locks(op: GroupRuns.Action) {
    op.LeaveGroup? || op.TransferOwner?
  }

  /** The checks of an operation without locks. */
  function Checked(st: Store, op: GroupRuns.Action): Option<Gap> {
    match op
    case CreateGroup(owner, g, _) => if LiveGroup(st, g) then None else Some(Creating(owner, g, g in st.groups))
    case JoinGroup(g, u, _) => if LiveGroup(st, g) then Some(Joining(g, u)) else None
    case KickMember(actor, g, u, _) =>
      if (g, actor) in st.members && (g, u) in st.members
         && CanKick(st.members[(g, actor)].role, st.members[(g, u)].role)
      then Some(Kicking(g, u))
      else None
    case ChangeMemberRole(actor, g, u, role, _) =>
      if (g, actor) in st.members && (g, u) in st.members
         && CanChangeRole(st.members[(g, actor)].role, st.members[(g, u)].role, role)
      then Some(Changing(g, u, role))
      else None
    case _ => None
  }

  /** Its writes; inserting a group that exists by now fails and is rolled back. */
  function Written(st: Store, gap: Gap, now: Time): Store {
    match gap
    case Creating(owner, g, revives) =>
      if !revives && g in st.groups then st
      else
        var st1 := st.(groups := st.groups[g := GroupRow(owner, false, now)]);
        if (g, owner) in st.members then SetRole(st1, g, owner, Owner, now)
        else st1.(members := st.members[(g, owner) := MemberRow(Owner, now, now)])
    case Joining(g, u) =>
      var st1 := if (g, u) in st.members then st
                 else st.(members := st.members[(g, u) := MemberRow(Member, now, now)]);
      Touch(st1, g, now)
    case Kicking(g, u) => Touch(st.(members := st.members - {(g, u)}), g, now)
    case Changing(g, u, role) => Touch(SetRole(st, g, u, role, now), g, now)
  }

  predicate Writes(w: World, a: Action) {
    a.Write? && a.gap in w.open
  }

  ghost function Step(w: World, a: Action): World {
    if Writes(w, a) then w.(store := Written(w.store, w.open[a.gap], a.now), open := w.open - {a.gap})
    else if a.Check? && Checked(w.store, a.op).Some?
    then w.(open := w.open[w.next := Checked(w.store, a.op).value], next := w.next + 1)
    else if a.Whole? && Locks(a.op) then w.(store := GroupRuns.Step(w.store, a.op).0)
    else w
  }

  ghost function Run(w: World, acts: seq<Action>): World
    decreases |acts|
  {
    if acts == [] then w else Run(Step(w, acts[0]), acts[1..])
  }

  /** Without a commit in its gap an operation is the whole transaction, and one whose checks fail changes nothing. */
  lemma WithoutGap(st: Store, op: GroupRuns.Action)
    requires !Locks(op)
    ensures GroupRuns.Step(st, op).0
            == match Checked(st, op) case Some(gap) => Written(st, gap, op.now) case None => st
  {
  }

  // ---- what a late write may do ----

  /** The guard of an operation, as far as it protects ownership, at the time of its write. */
  predicate Harmless(st: Store, gap: Gap) {
    match gap
    case Creating(owner, g, revives) => revives && LiveGroup(st, g) ==> st.groups[g].owner == owner
    case Joining(g, u) => LiveGroup(st, g)
    case Kicking(g, u) => LiveGroup(st, g) ==> st.groups[g].owner != u
    case Changing(g, u, _) => LiveGroup(st, g) ==> st.groups[g].owner != u
  }

  predicate GapKnown(st: Store, gap: Gap) {
    && (gap.Creating? && gap.revives ==> gap.group in st.groups)
    && (!gap.Creating? ==> gap.group in st.groups)
    && (gap.Changing? ==> gap.role != Owner)
  }

  predicate Gaps(w: World) {
    forall n | n in w.open :: n < w.next && GapKnown(w.store, w.open[n])
  }

  /** A write keeps the ownership invariant exactly when its guard still holds. */
  lemma WriteKeepsIff(st: Store, gap: Gap, now: Time)
    requires GroupRuns.Inv(st) && GapKnown(st, gap)
    ensures GroupRuns.Inv(Written(st, gap, now)) <==> Harmless(st, gap)
  {
    if Harmless(st, gap) {
      HarmlessKeeps(st, gap, now);
    } else {
      HarmfulBreaks(st, gap, now);
    }
  }

  lemma HarmlessKeeps(st: Store, gap: Gap, now: Time)
    requires GroupRuns.Inv(st) && GapKnown(st, gap) && Harmless(st, gap)
    ensures GroupRuns.Inv(Written(st, gap, now))
  {
    match gap {
      case Creating(_, _, _) => CreatingKeeps(st, gap, now);
      case Joining(_, _) => JoiningKeeps(st, gap, now);
      case Kicking(_, _) => KickingKeeps(st, gap, now);
      case Changing(_, _, _) => ChangingKeeps(st, gap, now);
    }
  }

  lemma CreatingKeeps(st: Store, gap: Gap, now: Time)
    requires gap.Creating? && GroupRuns.Inv(st) && GapKnown(st, gap) && Harmless(st, gap)
    ensures GroupRuns.Inv(Written(st, gap, now))
  {
  }

  lemma JoiningKeeps(st: Store, gap: Gap, now: Time)
    requires gap.Joining? && GroupRuns.Inv(st) && Harmless(st, gap)
    ensures GroupRuns.Inv(Written(st, gap, now))
  {
  }

  lemma KickingKeeps(st: Store, gap: Gap, now: Time)
    requires gap.Kicking? && GroupRuns.Inv(st) && Harmless(st, gap)
    ensures GroupRuns.Inv(Written(st, gap, now))
  {
  }

  lemma ChangingKeeps(st: Store, gap: Gap, now: Time)
    requires gap.Changing? && GroupRuns.Inv(st) && GapKnown(st, gap) && Harmless(st, gap)
    ensures GroupRuns.Inv(Written(st, gap, now))
  {
  }

  lemma HarmfulBreaks(st: Store, gap: Gap, now: Time)
    requires GroupRuns.Inv(st) && GapKnown(st, gap) && !Harmless(st, gap)
    ensures !GroupRuns.Inv(Written(st, gap, now))
  {
    var st2, g := Written(st, gap, now), gap.group;
    match gap {
      case Creating(owner, _, _) => assert (g, st.groups[g].owner) in st2.members;
      case Joining(_, u) => assert (g, u) in st2.members;
      case Kicking(_, u) => assert (g, u) !in st2.members && g in st2.groups && !st2.groups[g].deleted;
      case Changing(_, u, role) => assert st2.members[(g, u)].role == role;
    }
  }

  /** The checks establish the guard. */
  lemma ChecksGuard(st: Store, op: GroupRuns.Action)
    requires GroupRuns.Inv(st) && Checked(st, op).Some?
    ensures Harmless(st, Checked(st, op).value) && GapKnown(st, Checked(st, op).value)
  {
  }

  // ---- over every run ----

  ghost function At(acts: seq<Action>, n: nat): World
    requires n <= |acts|
  {
    Run(START, acts[..n])
  }

  lemma {:induction false} RunThen(w: World, acts: seq<Action>, a: Action)
    ensures Run(w, acts + [a]) == Step(Run(w, acts), a)
    decreases |acts|
  {
    hide Step;
    if acts == [] {
      assert acts + [a] == [a] && [a][1..] == [];
    } else {
      assert (acts + [a])[1..] == acts[1..] + [a];
      RunThen(Step(w, acts[0]), acts[1..], a);
    }
  }

  lemma AtNext(acts: seq<Action>, n: nat)
    requires n < |acts|
    ensures At(acts, n + 1) == Step(At(acts, n), acts[n])
  {
    hide Step;
    RunThen(START, acts[..n], acts[n]);
    assert acts[..n] + [acts[n]] == acts[..n + 1];
  }

  ghost predicate Sound(w: World) {
    GroupRuns.Inv(w.store) && Gaps(w)
  }

  /** Every step but a late write keeps ownership; a late write keeps it exactly when its guard still holds. */
  lemma StepKeepsIff(w: World, a: Action)
    requires Sound(w)
    ensures Gaps(Step(w, a))
    ensures GroupRuns.Inv(Step(w, a).store) <==> (Writes(w, a) ==> Harmless(w.store, w.open[a.gap]))
  {
    hide GroupRuns.Inv, Checked, Written, GroupRuns.Step, Harmless, GapKnown;
    if Writes(w, a) {
      WriteKeepsIff(w.store, w.open[a.gap], a.now);
      WrittenKnows(w.store, w.open[a.gap], a.now);
    } else if a.Check? && Checked(w.store, a.op).Some? {
      ChecksGuard(w.store, a.op);
    } else if a.Whole? && Locks(a.op) {
      GroupRuns.StepKeepsInv(w.store, a.op);
      WholeKnows(w.store, a.op);
    }
  }

  lemma WrittenKnows(st: Store, gap: Gap, now: Time)
    ensures forall other | GapKnown(st, other) :: GapKnown(Written(st, gap, now), other)
  {
  }

  lemma WholeKnows(st: Store, op: GroupRuns.Action)
    ensures forall gap | GapKnown(st, gap) :: GapKnown(GroupRuns.Step(st, op).0, gap)
  {
  }

  /** Ownership holds throughout a run exactly when the guard of every late write still holds at the write. */
  lemma OwnershipIff(acts: seq<Action>)
    ensures (forall n | 0 <= n <= |acts| :: GroupRuns.Inv(At(acts, n).store))
            <==> forall j | 0 <= j < |acts| && Writes(At(acts, j), acts[j]) ::
                   Harmless(At(acts, j).store, At(acts, j).open[acts[j].gap])
  {
    hide At, GroupRuns.Inv, Harmless, Gaps, Step;
    if forall n | 0 <= n <= |acts| :: GroupRuns.Inv(At(acts, n).store) {
      forall j | 0 <= j < |acts| && Writes(At(acts, j), acts[j])
        ensures Harmless(At(acts, j).store, At(acts, j).open[acts[j].gap])
      {
        SoundUpTo(acts, j);
        AtNext(acts, j);
        StepKeepsIff(At(acts, j), acts[j]);
      }
    }
    if forall j | 0 <= j < |acts| && Writes(At(acts, j), acts[j]) ::
         Harmless(At(acts, j).store, At(acts, j).open[acts[j].gap]) {
      forall n | 0 <= n <= |acts| ensures GroupRuns.Inv(At(acts, n).store) {
        SoundUpTo(acts, n);
      }
    }
  }

  lemma {:induction false} SoundUpTo(acts: seq<Action>, n: nat)
    requires n <= |acts|
    requires (forall j | 0 <= j <= n :: GroupRuns.Inv(At(acts, j).store))
             || forall j | 0 <= j < n && Writes(At(acts, j), acts[j]) ::
                  Harmless(At(acts, j).store, At(acts, j).open[acts[j].gap])
    ensures Sound(At(acts, n))
  {
    hide GroupRuns.Inv, Harmless, Step;
    if n == 0 {
      assert acts[..0] == [];
      StartSound();
    } else {
      SoundUpTo(acts, n - 1);
      AtNext(acts, n - 1);
      StepKeepsIff(At(acts, n - 1), acts[n - 1]);
    }
  }

  lemma StartSound()
    ensures Sound(START)
  {
  }

  // ---- what takes a guard away ----

  /** The owner of a live group. */
  function OwnerOf(st: Store, g: GroupId): Option<UserId> {
    if LiveGroup(st, g) then Some(st.groups[g].owner) else None
  }

  /** A transfer, a succession or a revival that makes u the owner of g. */
  ghost predicate Crowns(w: World, a: Action, g: GroupId, u: UserId) {
    || (Writes(w, a) && w.open[a.gap].Creating? && w.open[a.gap].group == g && w.open[a.gap].owner == u
        && (w.open[a.gap].revives || g !in w.store.groups))
    || (a.Whole? && a.op.TransferOwner? && a.op.group == g && a.op.user == u
        && GroupRuns.Step(w.store, a.op).1 == Done)
    || (a.Whole? && a.op.LeaveGroup? && a.op.group == g && OwnerOf(w.store, g) == Some(a.op.user)
        && Candidates(w.store, g, a.op.user) != {} && Successor(w.store, g, a.op.user) == u)
  }

  /** The last member, who owns the group, leaves, and the group is deleted. */
  predicate Dissolves(w: World, a: Action, g: GroupId) {
    && a.Whole? && a.op.LeaveGroup? && a.op.group == g && OwnerOf(w.store, g) == Some(a.op.user)
    && Candidates(w.store, g, a.op.user) == {}
  }

  ghost predicate Changes(w: World, a: Action, g: GroupId) {
    Dissolves(w, a, g) || exists u :: Crowns(w, a, g, u)
  }

  lemma StepOwner(w: World, a: Action, g: GroupId)
    requires GroupRuns.Inv(w.store)
    ensures Dissolves(w, a, g) ==> OwnerOf(Step(w, a).store, g) == None
    ensures forall u | Crowns(w, a, g, u) :: OwnerOf(Step(w, a).store, g) == Some(u)
    ensures !Changes(w, a, g) ==> OwnerOf(Step(w, a).store, g) == OwnerOf(w.store, g)
  {
    if Writes(w, a) {
      WriteOwner(w, a, g);
    } else if a.Whole? && Locks(a.op) {
      WholeOwner(w, a, g);
    } else {
      hide Checked, Candidates, GroupRuns.Inv;
    }
  }

  lemma WriteOwner(w: World, a: Action, g: GroupId)
    requires Writes(w, a)
    ensures forall u | Crowns(w, a, g, u) :: OwnerOf(Step(w, a).store, g) == Some(u)
    ensures !Changes(w, a, g) ==> OwnerOf(Step(w, a).store, g) == OwnerOf(w.store, g)
  {
    var gap := w.open[a.gap];
    if gap.Creating? && gap.group == g && (gap.revives || g !in w.store.groups) {
      assert Crowns(w, a, g, gap.owner);
    }
  }

  lemma WholeOwner(w: World, a: Action, g: GroupId)
    requires GroupRuns.Inv(w.store) && a.Whole? && Locks(a.op)
    ensures Dissolves(w, a, g) ==> OwnerOf(Step(w, a).store, g) == None
    ensures forall u | Crowns(w, a, g, u) :: OwnerOf(Step(w, a).store, g) == Some(u)
    ensures !Changes(w, a, g) ==> OwnerOf(Step(w, a).store, g) == OwnerOf(w.store, g)
  {
    if a.op.TransferOwner? {
      if GroupRuns.Step(w.store, a.op).1 == Done {
        assert Crowns(w, a, a.op.group, a.op.user);
      }
    } else if OwnerOf(w.store, a.op.group) == Some(a.op.user) && Candidates(w.store, a.op.group, a.op.user) != {} {
      assert Crowns(w, a, a.op.group, Successor(w.store, a.op.group, a.op.user));
    }
  }

  /** The action takes the guard of the gap away: it makes the member who is about to be kicked or demoted the owner,
      it deletes the group that is about to be joined, or it gives the group that is about to be revived to somebody
      else. */
  ghost predicate Spoils(w: World, a: Action, gap: Gap) {
    match gap
    case Creating(owner, g, revives) => revives && exists u :: u != owner && Crowns(w, a, g, u)
    case Joining(g, _) => Dissolves(w, a, g)
    case Kicking(g, u) => Crowns(w, a, g, u)
    case Changing(g, u, _) => Crowns(w, a, g, u)
  }

  lemma SpoilsGuard(w: World, a: Action, gap: Gap)
    requires GroupRuns.Inv(w.store)
    ensures Spoils(w, a, gap) ==> !Harmless(Step(w, a).store, gap)
    ensures Changes(w, a, gap.group) && !Harmless(Step(w, a).store, gap) ==> Spoils(w, a, gap)
    ensures !Changes(w, a, gap.group) ==> (Harmless(Step(w, a).store, gap) <==> Harmless(w.store, gap))
  {
    StepOwner(w, a, gap.group);
    hide Step, Crowns, Dissolves;
  }

  /** Step j is the late write of a gap, and the last change of the group's ownership before it, at step x inside the
      gap, took its guard away. */
  ghost predicate Race(acts: seq<Action>, x: nat, j: nat) {
    && x < j < |acts| && Writes(At(acts, j), acts[j])
       && SpoiledAt(acts, x, j, acts[j].gap, At(acts, j).open[acts[j].gap])
  }

  ghost predicate SpoiledAt(acts: seq<Action>, x: nat, n: nat, id: nat, gap: Gap) {
    && x < n <= |acts| && id in At(acts, x).open && At(acts, x).open[id] == gap && Spoils(At(acts, x), acts[x], gap)
    && forall y | x < y < n :: !Changes(At(acts, y), acts[y], gap.group)
  }

  /** While ownership held, a guard that is false at step n was taken away inside its gap. */
  lemma {:induction false} GuardLost(acts: seq<Action>, n: nat, id: nat) returns (x: nat)
    requires n <= |acts| && id in At(acts, n).open && !Harmless(At(acts, n).store, At(acts, n).open[id])
    requires forall i | 0 <= i <= n :: Sound(At(acts, i))
    ensures SpoiledAt(acts, x, n, id, At(acts, n).open[id])
  {
    hide Spoils, Changes, Harmless, Sound;
    assert n > 0 by {
      assert acts[..0] == [];
    }
    var w, a, gap := At(acts, n - 1), acts[n - 1], At(acts, n).open[id];
    AtNext(acts, n - 1);
    SoundInv(w);
    SpoilsGuard(w, a, gap);
    GapStays(w, a, id);
    if Changes(w, a, gap.group) {
      x := n - 1;
    } else {
      x := GuardLost(acts, n - 1, id);
    }
  }

  lemma SoundInv(w: World)
    requires Sound(w)
    ensures GroupRuns.Inv(w.store)
  {
  }

  /** A gap whose guard is false was open before. */
  lemma GapStays(w: World, a: Action, id: nat)
    requires Sound(w) && id in Step(w, a).open && !Harmless(Step(w, a).store, Step(w, a).open[id])
    ensures id in w.open && w.open[id] == Step(w, a).open[id]
  {
    hide GroupRuns.Inv, Written, GroupRuns.Step, Checked;
    if a.Check? && Checked(w.store, a.op).Some? {
      ChecksGuard(w.store, a.op);
    }
  }

  /** A guard once taken away stays away until the ownership changes again. */
  lemma {:induction false} GuardStaysLost(acts: seq<Action>, x: nat, n: nat, id: nat, gap: Gap)
    requires SpoiledAt(acts, x, n, id, gap) && forall i | 0 <= i <= n :: GroupRuns.Inv(At(acts, i).store)
    ensures !Harmless(At(acts, n).store, gap)
  {
    hide Spoils, Changes, Harmless, GroupRuns.Inv, Step, At;
    AtNext(acts, n - 1);
    SpoilsGuard(At(acts, n - 1), acts[n - 1], gap);
    if x < n - 1 {
      GuardStaysLost(acts, x, n - 1, id, gap);
    }
  }

  /** Ownership holds throughout a run exactly when no transfer, succession, deletion or revival of a group falls into
      the gap of an operation whose guard it takes away. */
  lemma OwnershipIffNoRace(acts: seq<Action>)
    ensures (forall n | 0 <= n <= |acts| :: GroupRuns.Inv(At(acts, n).store))
            <==> forall x: nat, j: nat :: !Race(acts, x, j)
  {
    hide At, GroupRuns.Inv, Harmless, Gaps, Step, Race;
    OwnershipIff(acts);
    if forall n | 0 <= n <= |acts| :: GroupRuns.Inv(At(acts, n).store) {
      forall x: nat, j: nat ensures !Race(acts, x, j) {
        if Race(acts, x, j) {
          RaceLosesGuard(acts, x, j);
          assert false;
        }
      }
    } else {
      var n: nat :| n <= |acts| && !GroupRuns.Inv(At(acts, n).store);
      LossHasRace(acts, n);
    }
  }

  lemma RaceLosesGuard(acts: seq<Action>, x: nat, j: nat)
    requires Race(acts, x, j) && forall n | 0 <= n <= |acts| :: GroupRuns.Inv(At(acts, n).store)
    ensures j < |acts| && Writes(At(acts, j), acts[j])
    ensures !Harmless(At(acts, j).store, At(acts, j).open[acts[j].gap])
  {
    GuardStaysLost(acts, x, j, acts[j].gap, At(acts, j).open[acts[j].gap]);
  }

  lemma {:induction false} LossHasRace(acts: seq<Action>, n: nat)
    requires n <= |acts| && !GroupRuns.Inv(At(acts, n).store)
    ensures exists x: nat, j: nat :: Race(acts, x, j)
  {
    hide At, GroupRuns.Inv, Harmless, Gaps, Step, Spoils, Changes;
    if j: nat :| j < n && !GroupRuns.Inv(At(acts, j).store) {
      LossHasRace(acts, j);
    } else {
      assert n > 0 by {
        StartAt(acts);
      }
      forall i | 0 <= i <= n - 1 ensures Sound(At(acts, i)) {
        SoundUpTo(acts, i);
      }
      AtNext(acts, n - 1);
      StepKeepsIff(At(acts, n - 1), acts[n - 1]);
      var x := GuardLost(acts, n - 1, acts[n - 1].gap);
      assert Race(acts, x, n - 1);
    }
  }

  lemma StartAt(acts: seq<Action>)
    ensures GroupRuns.Inv(At(acts, 0).store)
  {
    assert acts[..0] == [];
    StartSound();
  }

  /** As long as no guard was lost, a live group has exactly one owner row, that of its owner_user_id, and a deleted one
      has no members. */
  lemma ExactlyOneOwner(acts: seq<Action>, g: GroupId)
    requires forall j | 0 <= j < |acts| && Writes(At(acts, j), acts[j]) ::
               Harmless(At(acts, j).store, At(acts, j).open[acts[j].gap])
    ensures var st := At(acts, |acts|).store;
            && (LiveGroup(st, g) ==> Owners(st, g) == {(g, st.groups[g].owner)})
            && (!LiveGroup(st, g) ==> forall u :: (g, u) !in st.members)
  {
    hide At, Harmless;
    SoundUpTo(acts, |acts|);
    var st := At(acts, |acts|).store;
    if LiveGroup(st, g) {
      GroupRuns.OneOwner(st, g);
    }
  }

  // ---- two runs that lose ownership ----

  /** Group 1 of owner 1 with member 2. */
  const PAIR := Store(map[1 := GroupRow(1, false, 0)],
                      map[(1, 1) := MemberRow(Owner, 0, 0), (1, 2) := MemberRow(Member, 0, 0)])

  lemma PairForms() returns (acts: seq<Action>)
    ensures Run(START, acts) == World(PAIR, map[], 2)
  {
    var create, join := Check(GroupRuns.CreateGroup(1, 1, 0)), Check(GroupRuns.JoinGroup(1, 2, 0));
    RunThen(START, [], create);
    RunThen(START, [] + [create], Write(0, 0));
    RunThen(START, [] + [create] + [Write(0, 0)], join);
    RunThen(START, [] + [create] + [Write(0, 0)] + [join], Write(1, 0));
    acts := [] + [create] + [Write(0, 0)] + [join] + [Write(1, 0)];
  }

  /** A member who is handed the group between the check and the write of his kick leaves a live group without owner. */
  lemma KickedOwner() returns (acts: seq<Action>)
    ensures var st := Run(START, acts).store; LiveGroup(st, 1) && Owners(st, 1) == {}
  {
    var kick, transfer := Check(GroupRuns.KickMember(1, 1, 2, 0)), Whole(GroupRuns.TransferOwner(1, 1, 2, 0));
    var before := PairForms();
    RunThen(START, before, kick);
    RunThen(START, before + [kick], transfer);
    RunThen(START, before + [kick] + [transfer], Write(2, 0));
    hide Run;
    Handed();
    acts := before + [kick] + [transfer] + [Write(2, 0)];
  }

  lemma Handed()
    ensures GroupRuns.Step(PAIR, GroupRuns.TransferOwner(1, 1, 2, 0)).0
            == Store(map[1 := GroupRow(2, false, 0)],
                     map[(1, 1) := MemberRow(Admin, 0, 0), (1, 2) := MemberRow(Owner, 0, 0)])
  {
    assert GroupRuns.Inv(PAIR);
    GroupRuns.TransferSucceedsIff(PAIR, 1, 1, 2, 0);
  }

  /** Two people revive one deleted group at once: both end up in role owner. */
  lemma RevivedTwice() returns (acts: seq<Action>)
    ensures var st := Run(START, acts).store; LiveGroup(st, 1) && |Owners(st, 1)| == 2
  {
    var create, leave := Check(GroupRuns.CreateGroup(1, 1, 0)), Whole(GroupRuns.LeaveGroup(1, 1, 0));
    var other := Check(GroupRuns.CreateGroup(2, 1, 0));
    RunThen(START, [], create);
    RunThen(START, [] + [create], Write(0, 0));
    RunThen(START, [] + [create] + [Write(0, 0)], leave);
    var gone := [] + [create] + [Write(0, 0)] + [leave];
    assert Run(START, gone) == World(Store(map[1 := GroupRow(1, true, 0)], map[]), map[], 1);
    RunThen(START, gone, create);
    RunThen(START, gone + [create], other);
    RunThen(START, gone + [create] + [other], Write(1, 0));
    RunThen(START, gone + [create] + [other] + [Write(1, 0)], Write(2, 0));
    acts := gone + [create] + [other] + [Write(1, 0)] + [Write(2, 0)];
    assert Owners(Run(START, acts).store, 1) == {(1, 1), (1, 2)};
  }
}
