/** What each session script does to the keys of a user, and how long an owner that keeps refreshing is found. */
module SessionEffects {
  import opened Common
  import opened SessionOwnership
  import opened SessionRuns

  function Text(d: SessionData): string {
    d.connection + "|" + d.container + "|" + d.token
  }

  function LeaseOf(d: SessionData): string {
    d.container + "|" + d.token
  }

  /** A key with this value exists at exactly the times before its expiry. */
  ghost predicate HoldsUntil(m: map<User, Cell>, u: User, value: string, until: Time) {
    u in m && m[u].value == value && forall t :: Live(m, u, t) <==> t < until
  }

  /** Nothing of anybody else changes. */
  ghost predicate OthersStay(st: Store, after: Store, u: User) {
    forall v | v != u ::
      && (v in after.sessions <==> v in st.sessions) && (v in st.sessions ==> after.sessions[v] == st.sessions[v])
      && (v in after.leases <==> v in st.leases) && (v in st.leases ==> after.leases[v] == st.leases[v])
      && (v in after.routes <==> v in st.routes) && (v in st.routes ==> after.routes[v] == st.routes[v])
      && forall c :: (c, v) in after.members <==> (c, v) in st.members
  }

  /** A claim takes session, route and lease whoever had them, and leaves the set of the previous container. */
  lemma ClaimDoes(st: Store, u: User, d: SessionData, now: Time, s: Time, r: Time)
    ensures var after := Claim(st, u, d, now, s, r);
            && HoldsUntil(after.sessions, u, Text(d), now + s) && HoldsUntil(after.leases, u, LeaseOf(d), now + r)
            && u in after.routes && after.routes[u] == d.container && (d.container, u) in after.members
            && (forall c | c != d.container ::
                  (c, u) in after.members <==> (c, u) in st.members && !(u in st.routes && st.routes[u] == c))
            && OthersStay(st, after, u)
  {
  }

  /** The caller owns session, route and lease at this time. */
  predicate Owns(st: Store, u: User, d: SessionData, now: Time) {
    && u in st.sessions && now < st.sessions[u].expiresAt && st.sessions[u].value == Text(d)
    && OwnsRoute(st, u, d, now)
  }

  predicate OwnsRoute(st: Store, u: User, d: SessionData, now: Time) {
    && u in st.leases && now < st.leases[u].expiresAt && st.leases[u].value == LeaseOf(d)
    && u in st.routes && st.routes[u] == d.container
  }

  /** A refresh succeeds exactly for an owner; then session and lease live exactly until the new times, and nothing else
      changes. A failed one changes nothing. */
  lemma RefreshDoes(st: Store, u: User, d: SessionData, now: Time, s: Time, r: Time)
    ensures var (after, ok) := Refresh(st, u, d, now, s, r);
            && (ok <==> Owns(st, u, d, now))
            && (!ok ==> after == st)
            && (ok ==>
                  && HoldsUntil(after.sessions, u, Text(d), now + s) && HoldsUntil(after.leases, u, LeaseOf(d), now + r)
                  && after.routes == st.routes && after.members == st.members && OthersStay(st, after, u))
  {
  }

  /** A removal takes the session exactly if the caller owns it, and route, lease and set entry exactly if it owns
      those, and reports whether it took anything. */
  lemma RemoveDoes(st: Store, u: User, d: SessionData, now: Time)
    ensures var (after, removed) := Remove(st, u, d, now);
            var session := u in st.sessions && now < st.sessions[u].expiresAt && st.sessions[u].value == Text(d);
            var route := OwnsRoute(st, u, d, now);
            && (removed <==> session || route)
            && after.sessions == (if session then st.sessions - {u} else st.sessions)
            && after.leases == (if route then st.leases - {u} else st.leases)
            && after.routes == (if route then st.routes - {u} else st.routes)
            && after.members == (if route then st.members - {(d.container, u)} else st.members)
  {
  }

  /** A look-up answers with the route exactly while a lease of its container lives, and otherwise removes the route and
      its set entry. */
  lemma LookupDoes(st: Store, u: User, now: Time)
    ensures var (after, route) := Lookup(st, u, now);
            var leased := u in st.routes && u in st.leases && now < st.leases[u].expiresAt
                          && exists owner :: st.leases[u].value == st.routes[u] + "|" + owner;
            && route == (if leased then Some(st.routes[u]) else None)
            && after == if leased || u !in st.routes then st
                        else Store(st.sessions, st.routes - {u}, st.members - {(st.routes[u], u)}, st.leases)
  {
    if u in st.routes && u in st.leases {
      PrefixIff(st.leases[u].value, st.routes[u] + "|");
    }
    hide StartsWith;
  }

  lemma PrefixIff(s: string, prefix: string)
    ensures StartsWith(s, prefix) <==> exists rest :: s == prefix + rest
  {
    if StartsWith(s, prefix) {
      assert s == prefix + s[|prefix|..];
    }
  }

  // ---- an owner that keeps refreshing ----

  datatype Until = Until(session: Time, lease: Time)

  /** A refresh of the owner that comes inside both lifetimes moves both. */
  function Next(until: Until, a: Action, u: User, d: SessionData): Until {
    if a.Refreshes? && a.u == u && a.d == d && a.now < until.session && a.now < until.lease
    then Until(a.now + a.sessionTTL, a.now + a.routeTTL) else until
  }

  /** How long session and lease live after a run. */
  function Extended(until: Until, acts: seq<Action>, u: User, d: SessionData): Until
    decreases |acts|
  {
    if acts == [] then until else Extended(Next(until, acts[0], u, d), acts[1..], u, d)
  }

  /** Nobody else claims the session, and its token is not used to remove it. */
  ghost predicate Undisturbed(acts: seq<Action>, u: User, d: SessionData) {
    forall i | 0 <= i < |acts| && !acts[i].LooksUp? && !acts[i].LooksUpAll? && acts[i].u == u ::
      !acts[i].Claims? && (acts[i].Removes? ==> acts[i].d.token != d.token)
  }

  /** The keys of u are the owner's; the route is there at least as long as the lease. */
  predicate Keeps(w: World, u: User, d: SessionData, until: Until) {
    && u in w.store.sessions && w.store.sessions[u] == Cell(Text(d), until.session)
    && u in w.store.leases && w.store.leases[u] == Cell(LeaseOf(d), until.lease)
    && (w.clock < until.lease ==> u in w.store.routes && w.store.routes[u] == d.container)
  }

  lemma SameTexts(d: SessionData, e: SessionData)
    requires Free(d.token, '|') && Free(e.token, '|') && Text(d) == Text(e) && LeaseOf(d) == LeaseOf(e)
    ensures d == e
  {
    LastPart(d.container, d.token, e.container, e.token, '|');
    assert Text(d) == d.connection + ("|" + LeaseOf(d)) && Text(e) == e.connection + ("|" + LeaseOf(e));
    assert |d.connection| == |e.connection|;
    assert d.connection == Text(d)[..|d.connection|] && e.connection == Text(e)[..|e.connection|];
  }

  lemma RefreshStepKeeps(w: World, a: Action, u: User, d: SessionData, until: Until)
    requires Keeps(w, u, d, until) && Permitted(w, a) && Free(d.token, '|') && a.Refreshes?
    ensures Keeps(Step(w, a), u, d, Next(until, a, u, d))
  {
    hide Free;
    if a.u == u && a.d != d && Text(a.d) == Text(d) && LeaseOf(a.d) == LeaseOf(d) {
      SameTexts(a.d, d);
    }
  }

  lemma RemoveStepKeeps(w: World, a: Action, u: User, d: SessionData, until: Until)
    requires Keeps(w, u, d, until) && Permitted(w, a) && Free(d.token, '|') && a.Removes?
    requires a.u == u ==> a.d.token != d.token
    ensures Keeps(Step(w, a), u, d, until)
  {
    hide Free;
    if a.u == u {
      TextsDiffer(d, a.d);
    }
  }

  lemma OtherStepKeeps(w: World, a: Action, u: User, d: SessionData, until: Until)
    requires Keeps(w, u, d, until) && Permitted(w, a) && !a.Refreshes? && !a.Removes?
    requires a.Claims? ==> a.u != u
    ensures Keeps(Step(w, a), u, d, until)
  {
    LeaseStarts(d);
    hide StartsWith;
  }

  lemma {:induction false} RunKeeps(w: World, acts: seq<Action>, u: User, d: SessionData, until: Until)
    requires Keeps(w, u, d, until) && PermittedRun(w, acts) && Free(d.token, '|') && Undisturbed(acts, u, d)
    ensures Keeps(Run(w, acts), u, d, Extended(until, acts, u, d))
    decreases |acts|
  {
    hide Step, Permitted, Free, Keeps;
    if acts != [] {
      var a := acts[0];
      if a.Refreshes? {
        RefreshStepKeeps(w, a, u, d, until);
      } else if a.Removes? {
        RemoveStepKeeps(w, a, u, d, until);
      } else {
        OtherStepKeeps(w, a, u, d, until);
      }
      RunKeeps(Step(w, a), acts[1..], u, d, Next(until, a, u, d));
    }
  }

  /** After a claim, in every run without another claim and without a removal under its token, the session lives exactly
      until the last refresh that came in time has it, and a look-up finds the container exactly while the lease does:
      whatever other owners, other users and look-ups do in between. */
  lemma FoundWhileRefreshed(w: World, claim: Action, acts: seq<Action>, now: Time)
    requires claim.Claims? && Permitted(w, claim) && PermittedRun(Step(w, claim), acts)
    requires Undisturbed(acts, claim.u, claim.d) && Run(Step(w, claim), acts).clock <= now
    ensures var st, u := Run(Step(w, claim), acts).store, claim.u;
            var first := Until(claim.now + claim.sessionTTL, claim.now + claim.routeTTL);
            var until := Extended(first, acts, u, claim.d);
            && u in st.sessions && st.sessions[u].value == Text(claim.d)
            && (Live(st.sessions, u, now) <==> now < until.session)
            && Lookup(st, u, now).1 == (if now < until.lease then Some(claim.d.container) else None)
  {
    var first := Until(claim.now + claim.sessionTTL, claim.now + claim.routeTTL);
    RunKeeps(Step(w, claim), acts, claim.u, claim.d, first);
    LeaseStarts(claim.d);
    hide StartsWith, Step, Free, Extended;
  }

  /** Refreshes that always come inside both lifetimes keep both alive up to now. */
  predicate InTime(until: Until, acts: seq<Action>, u: User, d: SessionData, now: Time)
    decreases |acts|
  {
    if acts == [] then now < until.session && now < until.lease
    else if acts[0].Refreshes? && acts[0].u == u && acts[0].d == d
    then acts[0].now < until.session && acts[0].now < until.lease
         && InTime(Until(acts[0].now + acts[0].sessionTTL, acts[0].now + acts[0].routeTTL), acts[1..], u, d, now)
    else InTime(until, acts[1..], u, d, now)
  }

  lemma {:induction false} InTimeExtends(until: Until, acts: seq<Action>, u: User, d: SessionData, now: Time)
    requires InTime(until, acts, u, d, now)
    ensures now < Extended(until, acts, u, d).session && now < Extended(until, acts, u, d).lease
    decreases |acts|
  {
    if acts != [] {
      var a := acts[0];
      var own := a.Refreshes? && a.u == u && a.d == d;
      InTimeExtends(if own then Until(a.now + a.sessionTTL, a.now + a.routeTTL) else until, acts[1..], u, d, now);
    }
  }

  /** So an owner that refreshes inside both lifetimes keeps its session, is found, and its next refresh succeeds. */
  lemma RefreshingKeepsOwnership(w: World, claim: Action, acts: seq<Action>, now: Time, s: Time, r: Time)
    requires claim.Claims? && Permitted(w, claim) && PermittedRun(Step(w, claim), acts)
    requires Undisturbed(acts, claim.u, claim.d) && Run(Step(w, claim), acts).clock <= now
    requires InTime(Until(claim.now + claim.sessionTTL, claim.now + claim.routeTTL), acts, claim.u, claim.d, now)
    ensures var st, u := Run(Step(w, claim), acts).store, claim.u;
            && Live(st.sessions, u, now) && st.sessions[u].value == Text(claim.d)
            && Lookup(st, u, now).1 == Some(claim.d.container)
            && Refresh(st, u, claim.d, now, s, r).1
  {
    var first := Until(claim.now + claim.sessionTTL, claim.now + claim.routeTTL);
    InTimeExtends(first, acts, claim.u, claim.d, now);
    FoundWhileRefreshed(w, claim, acts, now);
    RunKeeps(Step(w, claim), acts, claim.u, claim.d, first);
    hide Step, Free, Extended, InTime, Run;
  }

  /** The user has neither a live session nor a lease or route. */
  predicate Away(w: World, u: User) {
    !Live(w.store.sessions, u, w.clock) && u !in w.store.leases && u !in w.store.routes
  }

  lemma StepKeepsAway(w: World, a: Action, u: User)
    requires Away(w, u) && Permitted(w, a) && !(a.Claims? && a.u == u)
    ensures Away(Step(w, a), u)
  {
    hide Encode, LeaseText, StartsWith, Free;
  }

  /** An owner that removes its live session and route is gone: until somebody claims the session again, no run brings
      session or route back, and look-ups find nothing. */
  lemma {:induction false} RemovedStaysAway(w: World, acts: seq<Action>, u: User, now: Time)
    requires Away(w, u) && PermittedRun(w, acts) && Run(w, acts).clock <= now
    requires forall i | 0 <= i < |acts| :: !(acts[i].Claims? && acts[i].u == u)
    ensures Away(Run(w, acts), u) && Lookup(Run(w, acts).store, u, now).1 == None
    decreases |acts|
  {
    hide Step, Permitted, Lookup;
    if acts != [] {
      StepKeepsAway(w, acts[0], u);
      RemovedStaysAway(Step(w, acts[0]), acts[1..], u, now);
    } else {
      LookupDoes(w.store, u, now);
    }
  }

  lemma RemovalTakesAway(w: World, u: User, d: SessionData, now: Time)
    requires Owns(w.store, u, d, now)
    ensures Away(Step(w, Removes(u, d, now)), u)
  {
  }

  /** A look-up, alone or in a list, leaves a route only where a lease of its container lives. */
  lemma LookupLeavesLeased(w: World, u: User, ids: set<User>, now: Time)
    requires u in ids
    ensures var st := Step(w, LooksUp(u, now)).store; u in st.routes ==> ValidRoute(st, u, now)
    ensures var st := Step(w, LooksUpAll(ids, now)).store; u in st.routes ==> ValidRoute(st, u, now)
  {
    hide StartsWith;
  }
}
