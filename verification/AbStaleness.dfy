/** How old what the A/B cache answers with can be, and what each move of an evaluation does. */
module AbStaleness {
  import opened Common
  import opened AbCache

  const SECOND := 1_000_000_000

  /** evaluationCacheTTL on the duration ABTEST_CACHE_MAX_STALENESS parses to. */
  function ConfiguredTTL(parsed: Option<Time>): (ttl: Time)
    ensures 0 < ttl <= 5 * SECOND
    ensures parsed.Some? && 0 < parsed.value <= 5 * SECOND ==> ttl == parsed.value
  {
    if parsed.None? || parsed.value <= 0 || parsed.value > 5 * SECOND then 5 * SECOND else parsed.value
  }

  /** newService: snapshots live at most five seconds, overrides at most three and no longer than snapshots; what is
      asked for within these bounds is granted. */
  function NewLimits(asked: Time, parsed: Option<Time>): (lim: Limits)
    ensures 0 < lim.overrideTTL <= lim.cacheTTL <= 5 * SECOND && lim.overrideTTL <= 3 * SECOND
    ensures 0 < asked <= 5 * SECOND ==> lim.cacheTTL == asked
    ensures asked > 5 * SECOND ==> lim.cacheTTL == 5 * SECOND
    ensures asked <= 0 ==> lim.cacheTTL == ConfiguredTTL(parsed)
    ensures lim.overrideTTL < 3 * SECOND ==> lim.overrideTTL == lim.cacheTTL
  {
    var positive := if asked <= 0 then ConfiguredTTL(parsed) else asked;
    var ttl := if positive > 5 * SECOND then 5 * SECOND else positive;
    Limits(ttl, if 3 * SECOND > ttl then ttl else 3 * SECOND)
  }

  // ---- what each move does ----

  predicate Defined(w: World) {
    |w.history| > 0 && |w.bumpedAt| > 0
  }

  /** Nothing changes but the stage of one evaluation. */
  predicate MovesTo(w: World, after: World, id: nat, stage: Stage) {
    && id in w.evaluations
    && after == w.(evaluations := w.evaluations[id := Evaluation(w.evaluations[id].subject, w.evaluations[id].floor,
                                                            stage)])
  }

  /** The cached snapshot is taken exactly if it is of the generation the evaluation read and younger than the TTL. */
  lemma LoadSnapshotDoes(lim: Limits, w: World, id: nat, now: Time)
    requires Defined(w) && id in w.evaluations
    ensures var after := Step(lim, w, LoadSnapshot(id, now));
            match w.evaluations[id].stage
            case HasGeneration(g) =>
              if exists s :: w.snapshot == Some(s) && s.generation == g && now - s.loadedAt < lim.cacheTTL
              then MovesTo(w, after, id, Holds(w.snapshot.value))
              else MovesTo(w, after, id, Missed(g))
            case _ => after == w
  {
    assert w.evaluations[id := w.evaluations[id]] == w.evaluations;
  }

  /** The cached overrides of its key are taken exactly if they are younger than the TTL. */
  lemma LookUpDoes(lim: Limits, w: World, id: nat, now: Time)
    requires Defined(w) && id in w.evaluations
    ensures var after := Step(lim, w, LookUp(id, now));
            match w.evaluations[id].stage
            case Holds(s) =>
              var key := CacheKey(s.generation, w.evaluations[id].subject);
              if key in w.overrides && now - w.overrides[key].loadedAt < lim.overrideTTL
              then MovesTo(w, after, id, AbCache.Done(s, w.overrides[key]))
              else MovesTo(w, after, id, NeedsOverrides(s))
            case _ => after == w
  {
    assert w.evaluations[id := w.evaluations[id]] == w.evaluations;
    hide CacheKey;
  }

  /** Whoever waits for the overrides of a key is done with them, and the others stay where they are. */
  ghost predicate HandsOut(w: World, after: World, key: string, found: Found) {
    && after.evaluations.Keys == w.evaluations.Keys && after.overrideReloads == w.overrideReloads - {key}
    && forall i | i in w.evaluations ::
         var e := w.evaluations[i];
         after.evaluations[i]
         == if e.stage.AwaitsOverrides? && CacheKey(e.stage.snapshot.generation, e.subject) == key
            then Evaluation(e.subject, e.floor, AbCache.Done(e.stage.snapshot, found)) else e
  }

  /** A load of overrides is answered from the cache only if what it holds is younger than the TTL. */
  lemma FinishFromCacheDoes(lim: Limits, w: World, key: string, now: Time)
    requires Defined(w)
    ensures var after := Step(lim, w, FinishFromCache(key, now));
            if key in w.overrideReloads && key in w.overrides && now - w.overrides[key].loadedAt < lim.overrideTTL
            then HandsOut(w, after, key, w.overrides[key])
                 && after == w.(evaluations := after.evaluations, overrideReloads := after.overrideReloads)
            else after == w
  {
    hide CacheKey;
  }

  /** A load of overrides stores what it read with the time of storing and hands it out. */
  lemma FinishOverridesDoes(lim: Limits, w: World, key: string, readAt: nat, now: Time, evicted: set<string>)
    requires Defined(w) && Permitted(w, FinishOverrides(key, readAt, now, evicted))
    ensures var after := Step(lim, w, FinishOverrides(key, readAt, now, evicted));
            if key in w.overrideReloads then
              && readAt < |w.history| && key in after.overrides
              && var found := after.overrides[key];
                 && found.loadedAt == now && found.version == readAt && w.overrideReloads[key].began <= readAt
                 && found.subject == w.overrideReloads[key].subject
                 && (forall id :: id in found.value <==>
                       id in w.overrideReloads[key].snapshot.experiments
                       && (id, found.subject) in w.history[readAt].overrides)
                 && (forall id | id in found.value ::
                       found.value[id] == w.history[readAt].overrides[(id, found.subject)])
                 && after.overrides == (w.overrides - evicted)[key := found] && HandsOut(w, after, key, found)
                 && after == w.(evaluations := after.evaluations, overrideReloads := after.overrideReloads,
                                overrides := after.overrides)
            else after == w
  {
    hide CacheKey;
  }

  /** A load of a snapshot hands what it read to everyone waiting for it, and caches nothing itself. */
  lemma FinishReloadDoes(lim: Limits, w: World, g: nat, rowsAt: nat, groupsAt: nat, now: Time)
    requires Defined(w) && Permitted(w, FinishReload(g, rowsAt, groupsAt, now)) && g in w.reloads
    ensures var after := Step(lim, w, FinishReload(g, rowsAt, groupsAt, now));
            && w.reloads[g].began <= rowsAt <= groupsAt < |w.history|
            && after.evaluations.Keys == w.evaluations.Keys && after.reloads == w.reloads - {g}
            && after == w.(evaluations := after.evaluations, reloads := after.reloads)
            && forall i | i in w.evaluations ::
                 var e := w.evaluations[i];
                 if e.stage == AwaitsSnapshot(g) then
                   && after.evaluations[i].stage.Loaded?
                   && var s := after.evaluations[i].stage.snapshot;
                      && after.evaluations[i] == Evaluation(e.subject, e.floor, Loaded(g, s))
                      && s.generation == w.reloads[g].generation && s.loadedAt == now
                      && s.rowsAt == rowsAt && s.groupsAt == groupsAt && s.experiments == w.history[rowsAt].experiments
                      && (forall id :: id in s.groups <==> id in s.experiments && id in w.history[groupsAt].groups)
                      && (forall id | id in s.groups :: s.groups[id] == w.history[groupsAt].groups[id])
                 else after.evaluations[i] == e
  {
  }

  /** The generation is read, a load is shared, and a loaded snapshot is cached only if the generation is still the one
      it was loaded for; otherwise the evaluation starts over. */
  lemma SnapshotMovesDo(lim: Limits, w: World, id: nat)
    requires Defined(w) && id in w.evaluations
    ensures var e := w.evaluations[id];
            var g := |w.bumpedAt| - 1;
            && (e.stage.Looping? ==> MovesTo(w, Step(lim, w, LoadGeneration(id)), id, HasGeneration(g)))
            && (e.stage.Missed? ==>
                  var flight := Flight(e.stage.generation, |w.history| - 1);
                  var joined := if e.stage.generation in w.reloads then w
                    else w.(reloads := w.reloads[e.stage.generation := flight]);
                  MovesTo(joined, Step(lim, w, JoinReload(id)), id, AwaitsSnapshot(e.stage.generation)))
            && (e.stage.Loaded? ==>
                  MovesTo(w, Step(lim, w, Recheck(id)), id,
                          if e.stage.generation == g then Checked(e.stage.snapshot) else Looping))
            && (e.stage.Checked? ==>
                  MovesTo(w.(snapshot := Some(e.stage.snapshot)), Step(lim, w, StoreSnapshot(id)), id,
                          Holds(e.stage.snapshot)))
            && (e.stage.NeedsOverrides? ==>
                  var key := CacheKey(e.stage.snapshot.generation, e.subject);
                  var flight := OverrideFlight(e.stage.snapshot, e.subject, |w.history| - 1);
                  var joined := if key in w.overrideReloads then w
                    else w.(overrideReloads := w.overrideReloads[key := flight]);
                  MovesTo(joined, Step(lim, w, JoinOverrides(id)), id, AwaitsOverrides(e.stage.snapshot)))
  {
    hide CacheKey;
  }

  /** A load that fails takes exactly the evaluations waiting for it with it. */
  lemma FailuresDo(lim: Limits, w: World, g: nat, key: string)
    requires Defined(w)
    ensures var after := Step(lim, w, FailReload(g));
            && after == w.(reloads := w.reloads - {g}, evaluations := after.evaluations)
            && (forall i :: i in after.evaluations <==>
                  i in w.evaluations && w.evaluations[i].stage != AwaitsSnapshot(g))
            && (forall i | i in after.evaluations :: after.evaluations[i] == w.evaluations[i])
    ensures var after := Step(lim, w, FailOverrides(key));
            && after == w.(overrideReloads := w.overrideReloads - {key}, evaluations := after.evaluations)
            && (forall i :: i in after.evaluations <==> i in w.evaluations && !Waits(w, i, key))
            && (forall i | i in after.evaluations :: after.evaluations[i] == w.evaluations[i])
  {
    hide CacheKey;
  }

  /** A write is invalidated in three steps: a new generation from the current store version, no snapshot, no
      overrides. */
  lemma InvalidateDoes(lim: Limits, w: World, id: nat)
    requires Defined(w) && id in w.writes
    ensures var after, version := Step(lim, w, Invalidate(id)), w.writes[id].version;
            match w.writes[id].step
            case ToBump =>
              after == w.(bumpedAt := w.bumpedAt + [|w.history| - 1],
                          writes := w.writes[id := Write(version, ToDropSnapshot)])
            case ToDropSnapshot => after == w.(snapshot := None,
                                               writes := w.writes[id := Write(version, ToDropOverrides)])
            case ToDropOverrides =>
              after == w.(overrides := map[], writes := w.writes - {id},
                          returned := if w.returned < version then version else w.returned)
  {
  }

  // ---- where an answer comes from ----

  /** The evaluation has a snapshot in hand. */
  predicate Carries(w: World, i: nat, s: Snapshot) {
    && i in w.evaluations
    && match w.evaluations[i].stage
       case Loaded(_, x) => x == s
       case Checked(x) => x == s
       case Holds(x) => x == s
       case NeedsOverrides(x) => x == s
       case AwaitsOverrides(x) => x == s
       case Done(x, _) => x == s
       case _ => false
  }

  /** The step reads this snapshot from the store. */
  predicate Loads(w: World, a: Action, s: Snapshot) {
    && a.FinishReload? && a.generation in w.reloads && w.reloads[a.generation].began <= a.rowsAt <= a.groupsAt
    && s.generation == w.reloads[a.generation].generation && s.rowsAt == a.rowsAt && s.groupsAt == a.groupsAt
    && s.loadedAt == a.now
  }

  /** The step gives the evaluation this snapshot: the cached one while it is fresh, or one loaded while it waited. */
  predicate Takes(lim: Limits, w: World, a: Action, i: nat, s: Snapshot) {
    && i in w.evaluations
    && match a
       case LoadSnapshot(id, now) =>
         && id == i && w.evaluations[i].stage == HasGeneration(s.generation) && w.snapshot == Some(s)
         && now - s.loadedAt < lim.cacheTTL
       case FinishReload(g, _, _, _) => w.evaluations[i].stage == AwaitsSnapshot(g) && Loads(w, a, s)
       case _ => false
  }

  lemma CarriesFrom(lim: Limits, w: World, a: Action, i: nat, s: Snapshot)
    requires Defined(w) && Permitted(w, a) && Carries(Step(lim, w, a), i, s)
    ensures Carries(w, i, s) || Takes(lim, w, a, i, s)
  {
    hide CacheKey, Trim, OverridesFor, GroupsFor;
  }

  ghost predicate Known(w: World, s: Snapshot) {
    w.snapshot == Some(s) || exists i :: Carries(w, i, s)
  }

  lemma KnownFrom(lim: Limits, w: World, a: Action, s: Snapshot)
    requires Defined(w) && Permitted(w, a) && Known(Step(lim, w, a), s)
    ensures Known(w, s) || Loads(w, a, s)
  {
    hide CacheKey, Trim, OverridesFor, GroupsFor, Step;
    var after := Step(lim, w, a);
    if i :| Carries(after, i, s) {
      CarriesFrom(lim, w, a, i, s);
    } else {
      CachedFrom(lim, w, a, s);
    }
  }

  lemma CachedFrom(lim: Limits, w: World, a: Action, s: Snapshot)
    requires Defined(w) && Permitted(w, a) && Step(lim, w, a).snapshot == Some(s)
    ensures Known(w, s)
  {
    hide CacheKey, Trim, OverridesFor, GroupsFor, KeyFor, Awaits;
    if a.StoreSnapshot? && a.id in w.evaluations && w.evaluations[a.id].stage.Checked? {
      assert Carries(w, a.id, w.evaluations[a.id].stage.snapshot);
    }
  }

  lemma {:induction false} RunSplits(lim: Limits, w: World, acts: seq<Action>, k: nat)
    requires Inv(w) && PermittedRun(lim, w, acts) && k < |acts|
    ensures PermittedRun(lim, w, acts[..k]) && PermittedRun(lim, w, acts[..k + 1])
    ensures Inv(Run(lim, w, acts[..k])) && Permitted(Run(lim, w, acts[..k]), acts[k])
    ensures Run(lim, w, acts[..k + 1]) == Step(lim, Run(lim, w, acts[..k]), acts[k])
    decreases k
  {
    hide Step, Permitted, Stores, EvaluationTrue;
    if k == 0 {
      assert acts[..1] == [acts[0]] && acts[..0] == [] && [acts[0]][1..] == [];
    } else {
      StepKeepsInv(lim, w, acts[0]);
      RunSplits(lim, Step(lim, w, acts[0]), acts[1..], k - 1);
      assert acts[1..][..k - 1] == acts[..k][1..] && acts[1..][..k] == acts[..k + 1][1..];
    }
  }

  /** The world before step k of a run, where it is one of the run. */
  ghost predicate Before(lim: Limits, db: Database, acts: seq<Action>, k: nat, w: World) {
    k <= |acts| && PermittedRun(lim, Start(db), acts[..k]) && w == Run(lim, Start(db), acts[..k]) && Defined(w)
  }

  lemma Splits(lim: Limits, db: Database, acts: seq<Action>, k: nat) returns (w: World)
    requires PermittedRun(lim, Start(db), acts) && k < |acts|
    ensures Before(lim, db, acts, k, w) && Permitted(w, acts[k]) && Before(lim, db, acts, k + 1, Step(lim, w, acts[k]))
  {
    hide Run, PermittedRun, Step, Permitted, Stores, EvaluationTrue;
    StartInv(db);
    RunSplits(lim, Start(db), acts, k);
    w := Run(lim, Start(db), acts[..k]);
    StepKeepsInv(lim, w, acts[k]);
  }

  /** A snapshot somebody has was loaded by an earlier step. */
  lemma {:induction false} LoadedBefore(lim: Limits, db: Database, acts: seq<Action>, k: nat, w: World, s: Snapshot)
    returns (loaded: nat, at: World)
    requires PermittedRun(lim, Start(db), acts) && Before(lim, db, acts, k, w) && Known(w, s)
    ensures loaded < k && Before(lim, db, acts, loaded, at) && Loads(at, acts[loaded], s)
    decreases k
  {
    hide Step, Permitted, Loads, Known;
    if k == 0 {
      Nobody(db, s);
      assert false;
    } else {
      var prior := Splits(lim, db, acts, k - 1);
      KnownFrom(lim, prior, acts[k - 1], s);
      hide PermittedRun, Run;
      if Loads(prior, acts[k - 1], s) {
        loaded, at := k - 1, prior;
      } else {
        loaded, at := LoadedBefore(lim, db, acts, k - 1, prior, s);
      }
    }
  }

  lemma Nobody(db: Database, s: Snapshot)
    ensures !Known(Start(db), s) && forall i :: !Carries(Start(db), i, s)
  {
  }

  /** An evaluation that has a snapshot took it at some step, and has had it since. */
  lemma {:induction false} TakenBefore(lim: Limits, db: Database, acts: seq<Action>, k: nat, w: World, i: nat,
                                       s: Snapshot)
    returns (taken: nat, at: World)
    requires PermittedRun(lim, Start(db), acts) && Before(lim, db, acts, k, w) && Carries(w, i, s)
    ensures taken < k && Before(lim, db, acts, taken, at) && Takes(lim, at, acts[taken], i, s)
    ensures forall j, v | taken < j <= k && Before(lim, db, acts, j, v) :: Carries(v, i, s)
    decreases k
  {
    hide Step, Permitted, Takes, Carries;
    if k == 0 {
      Nobody(db, s);
      assert false;
    } else {
      var prior := Splits(lim, db, acts, k - 1);
      CarriesFrom(lim, prior, acts[k - 1], i, s);
      hide PermittedRun, Run;
      if Takes(lim, prior, acts[k - 1], i, s) {
        taken, at := k - 1, prior;
      } else {
        taken, at := TakenBefore(lim, db, acts, k - 1, prior, i, s);
      }
    }
  }

  /** The staleness bound. In every run, the snapshot of an evaluation was read by one of the loads of the run, from
      store versions that are not older than the beginning of that load. The evaluation took it while it waited for
      that very load, or later from the cache, and then less than the TTL after the load finished. */
  lemma SnapshotIsFresh(lim: Limits, db: Database, acts: seq<Action>, i: nat, s: Snapshot)
    returns (loaded: nat, taken: nat, source: World, at: World)
    requires PermittedRun(lim, Start(db), acts) && Carries(Run(lim, Start(db), acts), i, s)
    ensures loaded <= taken < |acts| && Before(lim, db, acts, loaded, source) && Before(lim, db, acts, taken, at)
    ensures acts[loaded].FinishReload? && acts[loaded].generation in source.reloads && i in at.evaluations
    ensures source.reloads[acts[loaded].generation].began <= s.rowsAt <= s.groupsAt && s.loadedAt == acts[loaded].now
    ensures if loaded == taken then at == source && at.evaluations[i].stage == AwaitsSnapshot(acts[loaded].generation)
            else acts[taken].LoadSnapshot? && acts[taken].id == i && at.snapshot == Some(s)
                 && at.evaluations[i].stage == HasGeneration(s.generation)
                 && acts[taken].now - acts[loaded].now < lim.cacheTTL
    ensures forall j, v | taken < j <= |acts| && Before(lim, db, acts, j, v) :: Carries(v, i, s)
  {
    hide Step, Permitted, Run, PermittedRun, Carries;
    assert acts[..|acts|] == acts;
    StartInv(db);
    RunKeepsInv(lim, Start(db), acts);
    taken, at := TakenBefore(lim, db, acts, |acts|, Run(lim, Start(db), acts), i, s);
    if acts[taken].FinishReload? {
      loaded, source := taken, at;
    } else {
      loaded, source := LoadedBefore(lim, db, acts, taken, at, s);
    }
  }

  // ---- the same for overrides ----

  predicate Uses(w: World, i: nat, f: Found) {
    i in w.evaluations && w.evaluations[i].stage.Done? && w.evaluations[i].stage.found == f
  }

  predicate Waits(w: World, i: nat, key: string) {
    && i in w.evaluations && w.evaluations[i].stage.AwaitsOverrides?
    && CacheKey(w.evaluations[i].stage.snapshot.generation, w.evaluations[i].subject) == key
  }

  predicate LoadsOverrides(w: World, a: Action, key: string, f: Found) {
    && a.FinishOverrides? && a.key == key && key in w.overrideReloads && w.overrideReloads[key].began <= a.readAt
    && f.version == a.readAt && f.loadedAt == a.now && f.subject == w.overrideReloads[key].subject
  }

  /** The step gives the evaluation these overrides, cached under the key and fresh, or loaded while it waited. */
  predicate TakesOverrides(lim: Limits, w: World, a: Action, i: nat, key: string, f: Found) {
    && i in w.evaluations
    && match a
       case LookUp(id, now) =>
         && id == i && w.evaluations[i].stage.Holds?
         && key == CacheKey(w.evaluations[i].stage.snapshot.generation, w.evaluations[i].subject)
         && key in w.overrides && w.overrides[key] == f && now - f.loadedAt < lim.overrideTTL
       case FinishFromCache(k, now) =>
         && k == key && Waits(w, i, key) && key in w.overrides && w.overrides[key] == f
         && now - f.loadedAt < lim.overrideTTL
       case FinishOverrides(_, _, _, _) => Waits(w, i, key) && LoadsOverrides(w, a, key, f)
       case _ => false
  }

  function OwnKey(w: World, i: nat): string
    requires i in w.evaluations && w.evaluations[i].stage.Done?
  {
    CacheKey(w.evaluations[i].stage.snapshot.generation, w.evaluations[i].subject)
  }

  lemma UsesFrom(lim: Limits, w: World, a: Action, i: nat, f: Found)
    requires Defined(w) && Permitted(w, a) && Uses(Step(lim, w, a), i, f)
    ensures (Uses(w, i, f) && OwnKey(w, i) == OwnKey(Step(lim, w, a), i))
            || TakesOverrides(lim, w, a, i, OwnKey(Step(lim, w, a), i), f)
  {
    hide CacheKey, Trim, OverridesFor, GroupsFor;
  }

  predicate Cached(w: World, key: string, f: Found) {
    key in w.overrides && w.overrides[key] == f
  }

  lemma OverridesFrom(lim: Limits, w: World, a: Action, key: string, f: Found)
    requires Defined(w) && Permitted(w, a) && Cached(Step(lim, w, a), key, f)
    ensures Cached(w, key, f) || LoadsOverrides(w, a, key, f)
  {
    hide CacheKey, Trim, OverridesFor, GroupsFor;
  }

  lemma {:induction false} OverridesLoadedBefore(lim: Limits, db: Database, acts: seq<Action>, k: nat, w: World,
                                                 key: string, f: Found)
    returns (loaded: nat, at: World)
    requires PermittedRun(lim, Start(db), acts) && Before(lim, db, acts, k, w) && Cached(w, key, f)
    ensures loaded < k && Before(lim, db, acts, loaded, at) && LoadsOverrides(at, acts[loaded], key, f)
    decreases k
  {
    hide Step, Permitted, LoadsOverrides;
    if k > 0 {
      var prior := Splits(lim, db, acts, k - 1);
      OverridesFrom(lim, prior, acts[k - 1], key, f);
      hide PermittedRun, Run;
      if LoadsOverrides(prior, acts[k - 1], key, f) {
        loaded, at := k - 1, prior;
      } else {
        loaded, at := OverridesLoadedBefore(lim, db, acts, k - 1, prior, key, f);
      }
    }
  }

  lemma {:induction false} OverridesTakenBefore(lim: Limits, db: Database, acts: seq<Action>, k: nat, w: World, i: nat,
                                                f: Found)
    returns (taken: nat, at: World)
    requires PermittedRun(lim, Start(db), acts) && Before(lim, db, acts, k, w) && Uses(w, i, f)
    ensures taken < k && Before(lim, db, acts, taken, at) && TakesOverrides(lim, at, acts[taken], i, OwnKey(w, i), f)
    decreases k
  {
    hide Step, Permitted, TakesOverrides;
    if k > 0 {
      var prior := Splits(lim, db, acts, k - 1);
      UsesFrom(lim, prior, acts[k - 1], i, f);
      hide PermittedRun, Run;
      if TakesOverrides(lim, prior, acts[k - 1], i, OwnKey(w, i), f) {
        taken, at := k - 1, prior;
      } else {
        taken, at := OverridesTakenBefore(lim, db, acts, k - 1, prior, i, f);
      }
    }
  }

  /** In every run, the overrides an evaluation answers with were read by one of the loads of their key, not before
      that load began. The evaluation took them while it waited for that load, or later from the cache, when it looked
      or when the load it waited for did, and then less than the TTL after they were stored. */
  lemma OverridesAreFresh(lim: Limits, db: Database, acts: seq<Action>, i: nat)
    returns (loaded: nat, taken: nat, source: World, at: World)
    requires PermittedRun(lim, Start(db), acts) && i in Run(lim, Start(db), acts).evaluations
    requires Run(lim, Start(db), acts).evaluations[i].stage.Done?
    ensures loaded <= taken < |acts| && Before(lim, db, acts, loaded, source) && Before(lim, db, acts, taken, at)
    ensures var f, key := Run(lim, Start(db), acts).evaluations[i].stage.found, OwnKey(Run(lim, Start(db), acts), i);
            && acts[loaded].FinishOverrides? && acts[loaded].key == key && key in source.overrideReloads
            && source.overrideReloads[key].began <= f.version && f.loadedAt == acts[loaded].now
            && i in at.evaluations
            && if loaded == taken then at == source && Waits(at, i, key)
               else
                 && key in at.overrides && at.overrides[key] == f
                 && ((acts[taken].LookUp? && acts[taken].id == i)
                     || (acts[taken].FinishFromCache? && acts[taken].key == key && Waits(at, i, key)))
                 && acts[taken].now - acts[loaded].now < lim.overrideTTL
  {
    hide Step, Permitted, Run, PermittedRun, CacheKey, Waits;
    assert acts[..|acts|] == acts;
    StartInv(db);
    RunKeepsInv(lim, Start(db), acts);
    var w := Run(lim, Start(db), acts);
    var f := w.evaluations[i].stage.found;
    taken, at := OverridesTakenBefore(lim, db, acts, |acts|, w, i, f);
    if acts[taken].FinishOverrides? {
      loaded, source := taken, at;
    } else {
      loaded, source := OverridesLoadedBefore(lim, db, acts, taken, at, OwnKey(w, i), f);
    }
  }
}
