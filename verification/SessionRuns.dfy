/** Runs of session ownership: competing claims, refreshes by old owners, removals and lazy lookups in any order. */
module SessionRuns {
  import opened Common
  import opened SessionOwnership

  /** `owner` is the data of the last claim of each user. */
  datatype World = World(store: Store, clock: Time, owner: map<User, SessionData>)

  const START := World(EMPTY, 0, map[])

  datatype Action =
    | Claims(u: User, d: SessionData, now: Time, sessionTTL: Time, routeTTL: Time)
    | Refreshes(u: User, d: SessionData, now: Time, sessionTTL: Time, routeTTL: Time)
    | Removes(u: User, d: SessionData, now: Time)
    | LooksUp(u: User, now: Time)
    | LooksUpAll(ids: set<User>, now: Time)

  /** One clock; owner tokens are hexadecimal. */
  predicate Permitted(w: World, a: Action) {
    w.clock <= a.now && (a.Claims? || a.Refreshes? || a.Removes? ==> Free(a.d.token, '|'))
  }

  function Step(w: World, a: Action): World {
    match a
    case Claims(u, d, now, s, r) => World(Claim(w.store, u, d, now, s, r), now, w.owner[u := d])
    case Refreshes(u, d, now, s, r) => w.(store := Refresh(w.store, u, d, now, s, r).0, clock := now)
    case Removes(u, d, now) => w.(store := Remove(w.store, u, d, now).0, clock := now)
    case LooksUp(u, now) => w.(store := Lookup(w.store, u, now).0, clock := now)
    case LooksUpAll(ids, now) => w.(store := LookupAll(w.store, ids, now).0, clock := now)
  }

  function Run(w: World, acts: seq<Action>): World
    decreases |acts|
  {
    if acts == [] then w else Run(Step(w, acts[0]), acts[1..])
  }

  predicate PermittedRun(w: World, acts: seq<Action>)
    decreases |acts|
  {
    acts != [] ==> Permitted(w, acts[0]) && PermittedRun(Step(w, acts[0]), acts[1..])
  }

  // ---- the invariant ----

  /** A user is in a container's set exactly when the route map sends the user there. */
  ghost predicate Mirrored(st: Store) {
    forall c, u :: (c, u) in st.members <==> u in st.routes && st.routes[u] == c
  }

  /** What is live belongs to the last claim; a live lease has its route. */
  predicate Owned(w: World) {
    && (forall u | u in w.store.sessions && Live(w.store.sessions, u, w.clock) ::
          u in w.owner && w.store.sessions[u].value == Encode(w.owner[u]))
    && (forall u | u in w.store.leases && Live(w.store.leases, u, w.clock) ::
          u in w.owner && w.store.leases[u].value == LeaseText(w.owner[u])
          && u in w.store.routes && w.store.routes[u] == w.owner[u].container)
    && (forall u | u in w.owner :: Free(w.owner[u].token, '|'))
  }

  ghost predicate Inv(w: World) {
    Mirrored(w.store) && Owned(w)
  }

  lemma ClaimMirrors(w: World, a: Action)
    requires Mirrored(w.store) && a.Claims?
    ensures Mirrored(Step(w, a).store)
  {
  }

  lemma OthersMirror(w: World, a: Action)
    requires Mirrored(w.store) && !a.Claims?
    ensures Mirrored(Step(w, a).store)
  {
  }

  lemma ChangesOwn(w: World, a: Action)
    requires Owned(w) && Permitted(w, a) && (a.Claims? || a.Refreshes? || a.Removes?)
    ensures Owned(Step(w, a))
  {
  }

  lemma LookupsOwn(w: World, a: Action)
    requires Owned(w) && Permitted(w, a) && (a.LooksUp? || a.LooksUpAll?)
    ensures Owned(Step(w, a))
  {
  }

  lemma LeaseStarts(d: SessionData)
    ensures StartsWith(LeaseText(d), d.container + "|")
  {
  }

  lemma {:induction false} RunKeepsInv(w: World, acts: seq<Action>)
    requires Inv(w) && PermittedRun(w, acts)
    ensures Inv(Run(w, acts))
    decreases |acts|
  {
    hide Step, Permitted, Mirrored, Owned;
    if acts != [] {
      if acts[0].Claims? {
        ClaimMirrors(w, acts[0]);
      } else {
        OthersMirror(w, acts[0]);
      }
      if acts[0].LooksUp? || acts[0].LooksUpAll? {
        LookupsOwn(w, acts[0]);
      } else {
        ChangesOwn(w, acts[0]);
      }
      RunKeepsInv(Step(w, acts[0]), acts[1..]);
    }
  }

  // ---- over every run ----

  /** In every run the container sets mirror the route map, and a route is handed out exactly while its lease lives:
      the container of the last claim. */
  lemma RoutesFollowLeases(acts: seq<Action>, u: User, now: Time)
    requires PermittedRun(START, acts) && Run(START, acts).clock <= now
    ensures Mirrored(Run(START, acts).store)
    ensures var w := Run(START, acts);
            var route := Lookup(w.store, u, now).1;
            if Live(w.store.leases, u, now) then u in w.owner && route == Some(w.owner[u].container) else route == None
  {
    assert Inv(START);
    RunKeepsInv(START, acts);
    var w := Run(START, acts);
    if Live(w.store.leases, u, now) {
      LeaseStarts(w.owner[u]);
    }
  }

  /** d no longer owns anything of u, live or not. */
  predicate Superseded(st: Store, u: User, d: SessionData) {
    && (u in st.sessions ==> st.sessions[u].value != Encode(d))
    && (u in st.leases ==> st.leases[u].value != LeaseText(d))
  }

  lemma TextsDiffer(d: SessionData, e: SessionData)
    requires Free(d.token, '|') && Free(e.token, '|') && d.token != e.token
    ensures Encode(d) != Encode(e) && LeaseText(d) != LeaseText(e)
  {
    if Encode(d) == Encode(e) {
      LastPart(d.connection + "|" + d.container, d.token, e.connection + "|" + e.container, e.token, '|');
    }
    if LeaseText(d) == LeaseText(e) {
      LastPart(d.container, d.token, e.container, e.token, '|');
    }
  }

  lemma StepKeepsSuperseded(w: World, a: Action, u: User, d: SessionData)
    requires Superseded(w.store, u, d) && Permitted(w, a) && Free(d.token, '|')
    requires a.Claims? && a.u == u ==> a.d.token != d.token
    ensures Superseded(Step(w, a).store, u, d)
  {
    hide Encode, LeaseText, StartsWith, Free;
    if a.Claims? && a.u == u {
      TextsDiffer(d, a.d);
    }
  }

  lemma {:induction false} RunKeepsSuperseded(w: World, acts: seq<Action>, u: User, d: SessionData)
    requires Superseded(w.store, u, d) && PermittedRun(w, acts) && Free(d.token, '|')
    requires forall i | 0 <= i < |acts| :: acts[i].Claims? && acts[i].u == u ==> acts[i].d.token != d.token
    ensures Superseded(Run(w, acts).store, u, d)
    decreases |acts|
  {
    hide Step, Permitted, Superseded, Free;
    if acts != [] {
      StepKeepsSuperseded(w, acts[0], u, d);
      RunKeepsSuperseded(Step(w, acts[0]), acts[1..], u, d);
    }
  }

  /** Once another token claimed the session, the old owner can do nothing any more: in any later state its refresh
      fails and its remove leaves the whole store unchanged. */
  lemma SupersededIsPowerless(w: World, claim: Action, acts: seq<Action>, d: SessionData, now: Time, s: Time, r: Time)
    requires claim.Claims? && Permitted(w, claim) && PermittedRun(Step(w, claim), acts)
    requires Free(d.token, '|') && claim.d.token != d.token
    requires forall i | 0 <= i < |acts| :: acts[i].Claims? && acts[i].u == claim.u ==> acts[i].d.token != d.token
    ensures var st := Run(Step(w, claim), acts).store;
            Refresh(st, claim.u, d, now, s, r) == (st, false) && Remove(st, claim.u, d, now) == (st, false)
  {
    TextsDiffer(d, claim.d);
    RunKeepsSuperseded(Step(w, claim), acts, claim.u, d);
  }

  /** A refresh succeeds only for the token of the last claim, and for its data exactly while session and lease both
      live; it never moves a route. */
  lemma RefreshNeedsOwnership(acts: seq<Action>, u: User, d: SessionData, now: Time, s: Time, r: Time)
    requires PermittedRun(START, acts) && Run(START, acts).clock <= now && Free(d.token, '|')
    ensures var w := Run(START, acts);
            var (after, ok) := Refresh(w.store, u, d, now, s, r);
            && (ok ==> u in w.owner && w.owner[u].token == d.token)
            && (u in w.owner && w.owner[u] == d ==>
                  (ok <==> Live(w.store.sessions, u, now) && Live(w.store.leases, u, now)))
            && after.routes == w.store.routes && after.members == w.store.members
  {
    assert Inv(START);
    RunKeepsInv(START, acts);
    var w := Run(START, acts);
    if Refresh(w.store, u, d, now, s, r).1 && w.owner[u].token != d.token {
      TextsDiffer(d, w.owner[u]);
    }
  }
}
