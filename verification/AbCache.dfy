/** The A/B service's evaluation cache: a snapshot tagged with a generation, per-subject overrides keyed by it, and
    singleflight loads, while admin writes commit and then invalidate. */
module AbCache {
  import opened Common

  datatype Subject = Subject(kind: string, id: string)

  /** The store: experiments, the groups of each, and what an override says about a subject in an experiment. */
  datatype Database = Database(experiments: map<int, string>, groups: map<int, string>,
                               overrides: map<(int, Subject), string>)

  /** The second query of a snapshot: the groups of the experiments the first one found. */
  function GroupsFor(db: Database, ids: set<int>): map<int, string> {
    map id | id in ids && id in db.groups :: db.groups[id]
  }

  /** ListOverridesForSubject. */
  function OverridesFor(db: Database, s: Subject, ids: set<int>): map<int, string> {
    map id | id in ids && (id, s) in db.overrides :: db.overrides[(id, s)]
  }

  // ---- subjects ----

  function TrimLeft(s: string): string {
    if s != "" && IsSpace(s[0]) then TrimLeft(s[1..]) else s
  }

  function TrimRight(s: string): string {
    if s != "" && IsSpace(s[|s| - 1]) then TrimRight(s[..|s| - 1]) else s
  }

  function Trim(s: string): string {
    TrimRight(TrimLeft(s))
  }

  function Trimmed(s: Subject): Subject {
    Subject(Trim(s.kind), Trim(s.id))
  }

  predicate Tight(s: string) {
    s != "" && !IsSpace(s[0]) && !IsSpace(s[|s| - 1])
  }

  /** The subjects that an evaluation can have. */
  predicate Admitted(s: Subject) {
    Tight(s.kind) && Tight(s.id)
  }

  lemma {:induction false} TrimLeftEnds(s: string)
    ensures TrimLeft(s) != "" ==> !IsSpace(TrimLeft(s)[0])
  {
    if s != "" && IsSpace(s[0]) {
      TrimLeftEnds(s[1..]);
    }
  }

  lemma {:induction false} TrimRightEnds(s: string)
    ensures TrimRight(s) <= s && (TrimRight(s) != "" ==> !IsSpace(TrimRight(s)[|TrimRight(s)| - 1]))
  {
    if s != "" && IsSpace(s[|s| - 1]) {
      TrimRightEnds(s[..|s| - 1]);
    }
  }

  lemma TrimIsTight(s: string)
    ensures Trim(s) != "" ==> Tight(Trim(s))
    ensures Tight(s) ==> Trim(s) == s
  {
    TrimLeftEnds(s);
    TrimRightEnds(TrimLeft(s));
  }

  lemma {:induction false} TrimLeftCuts(s: string) returns (i: nat)
    ensures i <= |s| && TrimLeft(s) == s[i..] && forall k | 0 <= k < i :: IsSpace(s[k])
  {
    if s != "" && IsSpace(s[0]) {
      i := TrimLeftCuts(s[1..]);
      assert s[1..][i..] == s[i + 1..];
      assert forall k | 0 < k < i + 1 :: s[k] == s[1..][k - 1];
      i := i + 1;
    } else {
      i := 0;
    }
  }

  lemma {:induction false} TrimRightCuts(s: string) returns (j: nat)
    ensures j <= |s| && TrimRight(s) == s[..j] && forall k | j <= k < |s| :: IsSpace(s[k])
  {
    if s != "" && IsSpace(s[|s| - 1]) {
      j := TrimRightCuts(s[..|s| - 1]);
    } else {
      j := |s|;
    }
  }

  /** Trimming cuts off spaces at both ends and nothing else. */
  lemma TrimCuts(s: string) returns (i: nat, j: nat)
    ensures i <= j <= |s| && Trim(s) == s[i..j]
    ensures forall k | 0 <= k < |s| && (k < i || j <= k) :: IsSpace(s[k])
  {
    i := TrimLeftCuts(s);
    j := TrimRightCuts(s[i..]);
    assert s[i..][..j] == s[i..i + j];
    assert forall k | i + j <= k < |s| :: s[k] == s[i..][k - i];
    j := i + j;
  }

  // ---- cache keys ----

  function Digits(n: nat): string {
    if n < 10 then [('0' as int + n) as char] else Digits(n / 10) + [('0' as int + n % 10) as char]
  }

  /** The override cache key joins its parts with ':'. */
  function CacheKey(generation: nat, s: Subject): string {
    Digits(generation) + ":" + s.kind + ":" + s.id
  }

  predicate ColonFree(s: string) {
    ':' !in s
  }

  lemma {:induction false} DigitsAreDigits(n: nat)
    ensures |Digits(n)| > 0 && forall i | 0 <= i < |Digits(n)| :: '0' <= Digits(n)[i] <= '9'
  {
    if n >= 10 {
      DigitsAreDigits(n / 10);
    }
  }

  lemma {:induction false} DigitsInjective(m: nat, n: nat)
    requires Digits(m) == Digits(n)
    ensures m == n
  {
    var a, b := Digits(m), Digits(n);
    assert a[|a| - 1] == b[|b| - 1];
    assert a[..|a| - 1] == b[..|b| - 1];
    DigitsAreDigits(m / 10);
    DigitsAreDigits(n / 10);
    if m >= 10 && n >= 10 {
      assert a[..|a| - 1] == Digits(m / 10) && b[..|b| - 1] == Digits(n / 10);
      DigitsInjective(m / 10, n / 10);
    }
  }

  /** Joining with ':' can be undone at the first ':' . */
  lemma JoinSplits(a: string, b: string, c: string, d: string)
    requires a + ":" + b == c + ":" + d && ColonFree(a) && ColonFree(c)
    ensures a == c && b == d
  {
    var s := a + ":" + b;
    assert s[|a|] == ':' && s[|c|] == ':';
    assert forall i | 0 <= i < |a| :: s[i] == a[i];
    assert forall i | 0 <= i < |c| :: s[i] == c[i];
    assert |a| == |c|;
    assert a == s[..|a|] && b == s[|a| + 1..];
    assert c == s[..|c|] && d == s[|c| + 1..];
  }

  lemma KeyGeneration(g: nat, s: Subject, h: nat, t: Subject)
    requires CacheKey(g, s) == CacheKey(h, t)
    ensures g == h && s.kind + ":" + s.id == t.kind + ":" + t.id
  {
    DigitsAreDigits(g);
    DigitsAreDigits(h);
    var a, b := s.kind + ":" + s.id, t.kind + ":" + t.id;
    assert CacheKey(g, s) == Digits(g) + ":" + a && CacheKey(h, t) == Digits(h) + ":" + b;
    JoinSplits(Digits(g), a, Digits(h), b);
    DigitsInjective(g, h);
  }

  /** Among subjects whose type has no ':', keys identify subject and generation. */
  lemma KeysInjective(g: nat, s: Subject, h: nat, t: Subject)
    requires CacheKey(g, s) == CacheKey(h, t) && ColonFree(s.kind) && ColonFree(t.kind)
    ensures g == h && s == t
  {
    KeyGeneration(g, s, h, t);
    JoinSplits(s.kind, s.id, t.kind, t.id);
  }

  /** The subject that results from splitting the joined text at i. */
  function SplitAt(s: Subject, i: nat): Subject
    requires i < |s.kind + ":" + s.id|
  {
    var j := s.kind + ":" + s.id; Subject(j[..i], j[i + 1..])
  }

  /** Another ':' of the joined text also splits it into a type and an id that an evaluation can have. */
  predicate Resplits(s: Subject) {
    var j := s.kind + ":" + s.id;
    exists i :: 0 <= i < |j| && j[i] == ':' && i != |s.kind| && Admitted(SplitAt(s, i))
  }

  /** Among the subjects of evaluations, one has keys of its own exactly when its text splits in no other way. */
  lemma KeyUniqueIff(g: nat, s: Subject)
    ensures (forall t | Admitted(t) :: CacheKey(g, t) == CacheKey(g, s) ==> t == s) <==> !Resplits(s)
  {
    hide CacheKey, Admitted;
    var j := s.kind + ":" + s.id;
    if i: nat :| i < |j| && j[i] == ':' && i != |s.kind| && Admitted(SplitAt(s, i)) {
      var t := SplitAt(s, i);
      assert t.kind + ":" + t.id == j;
      SharedKey(g, s, t);
      assert |t.kind| != |s.kind|;
    } else {
      forall t | Admitted(t) && CacheKey(g, t) == CacheKey(g, s) ensures t == s {
        KeyGeneration(g, t, g, s);
        SplitsAtItsType(t, s);
      }
    }
  }

  lemma SplitsAtItsType(t: Subject, s: Subject)
    requires Admitted(t) && !Resplits(s) && t.kind + ":" + t.id == s.kind + ":" + s.id
    ensures t == s
  {
    var i, j := |t.kind|, s.kind + ":" + s.id;
    assert j == t.kind + ":" + t.id && j[i] == ':';
    assert SplitAt(s, i) == t;
    assert i == |s.kind|;
    assert SplitAt(s, |s.kind|) == s;
  }

  /** Without ':' in type and id there is only one split. */
  lemma ColonFreeSuffices(s: Subject)
    requires ColonFree(s.kind) && ColonFree(s.id)
    ensures !Resplits(s)
  {
    var j := s.kind + ":" + s.id;
    assert forall i | 0 <= i < |s.kind| :: j[i] == s.kind[i];
    assert forall i | |s.kind| < i < |j| :: j[i] == s.id[i - |s.kind| - 1];
  }

  predicate InnerColons(p: string) {
    p != "" && p[0] != ':' && p[|p| - 1] != ':' && forall i | 0 <= i < |p| :: !IsSpace(p[i])
  }

  /** For texts without spaces that neither begin nor end with ':', any ':' in type or id makes a second split. */
  lemma ColonsResplit(s: Subject)
    requires InnerColons(s.kind) && InnerColons(s.id)
    ensures Resplits(s) <==> !ColonFree(s.kind) || !ColonFree(s.id)
  {
    var j := s.kind + ":" + s.id;
    if ColonFree(s.kind) && ColonFree(s.id) {
      ColonFreeSuffices(s);
    } else {
      var i: nat :| 0 < i < |j| - 1 && j[i] == ':' && i != |s.kind| by {
        ColonInside(s);
      }
      var t := SplitAt(s, i);
      assert t.kind[0] == j[0] && t.kind[i - 1] == j[i - 1] && t.id[0] == j[i + 1] && t.id[|t.id| - 1] == j[|j| - 1];
      assert forall m | 0 <= m < |j| :: !IsSpace(j[m]) by {
        assert forall m | 0 <= m < |j| && m != |s.kind| ::
                 j[m] == if m < |s.kind| then s.kind[m] else s.id[m - |s.kind| - 1];
      }
      assert Admitted(t);
    }
  }

  lemma ColonInside(s: Subject)
    requires InnerColons(s.kind) && InnerColons(s.id) && (!ColonFree(s.kind) || !ColonFree(s.id))
    ensures var j := s.kind + ":" + s.id; exists i: nat :: 0 < i < |j| - 1 && j[i] == ':' && i != |s.kind|
  {
    var j := s.kind + ":" + s.id;
    if !ColonFree(s.kind) {
      var i :| 0 <= i < |s.kind| && s.kind[i] == ':';
      assert j[i] == ':' && 0 < i < |j| - 1;
    } else {
      var i :| 0 <= i < |s.id| && s.id[i] == ':';
      assert j[|s.kind| + 1 + i] == ':' && i < |s.id| - 1;
    }
  }

  lemma SharedKey(g: nat, s: Subject, t: Subject)
    requires s.kind + ":" + s.id == t.kind + ":" + t.id
    ensures CacheKey(g, s) == CacheKey(g, t)
  {
    assert CacheKey(g, s) == Digits(g) + ":" + (s.kind + ":" + s.id);
    assert CacheKey(g, t) == Digits(g) + ":" + (t.kind + ":" + t.id);
  }

  // ---- the concurrent service ----

  /** A snapshot comes from two queries, each at a store version of its own. */
  datatype Snapshot = Snapshot(generation: nat, experiments: map<int, string>, groups: map<int, string>, rowsAt: nat,
                               groupsAt: nat, loadedAt: Time)

  /** A cached or loaded override list, with the load it came from. */
  datatype Found = Found(value: map<int, string>, generation: nat, subject: Subject, version: nat, idsVersion: nat,
                         loadedAt: Time)

  /** A load in flight; `began` is the store version when its query started. */
  datatype Flight = Flight(generation: nat, began: nat)
  datatype OverrideFlight = OverrideFlight(snapshot: Snapshot, subject: Subject, began: nat)

  datatype Stage =
    | Looping
    | HasGeneration(generation: nat)
    | Missed(generation: nat)
    | AwaitsSnapshot(generation: nat)
    | Loaded(generation: nat, snapshot: Snapshot)
    | Checked(snapshot: Snapshot)
    | Holds(snapshot: Snapshot)
    | NeedsOverrides(snapshot: Snapshot)
    | AwaitsOverrides(snapshot: Snapshot)
    | Done(snapshot: Snapshot, found: Found)

  /** `floor` is the newest write that had returned when the evaluation started. */
  datatype Evaluation = Evaluation(subject: Subject, floor: nat, stage: Stage)

  /** An admin write after its commit: it still has to bump the generation, drop the snapshot and drop the overrides. */
  datatype Write = Write(version: nat, step: WriteStep)
  datatype WriteStep = ToBump | ToDropSnapshot | ToDropOverrides

  /** `history[v]` is the store after v writes, `bumpedAt[g]` the store version when the generation became g. */
  datatype World = World(
    history: seq<Database>, bumpedAt: seq<nat>, returned: nat, snapshot: Option<Snapshot>,
    overrides: map<string, Found>,
    reloads: map<nat, Flight>, overrideReloads: map<string, OverrideFlight>,
    writes: map<nat, Write>, evaluations: map<nat, Evaluation>)

  datatype Action =
    | CommitWrite(id: nat, next: Database)
    | Invalidate(id: nat)
    | Begin(id: nat, subject: Subject)
    | LoadGeneration(id: nat)
    | LoadSnapshot(id: nat, now: Time)
    | JoinReload(id: nat)
    | FinishReload(generation: nat, rowsAt: nat, groupsAt: nat, now: Time)
    | FailReload(generation: nat)
    | Recheck(id: nat)
    | StoreSnapshot(id: nat)
    | LookUp(id: nat, now: Time)
    | JoinOverrides(id: nat)
    | FinishOverrides(key: string, readAt: nat, now: Time, evicted: set<string>)
    | FinishFromCache(key: string, now: Time)
    | FailOverrides(key: string)

  datatype Limits = Limits(cacheTTL: Time, overrideTTL: Time)

  function Start(db: Database): World {
    World([db], [0], 0, None, map[], map[], map[], map[], map[])
  }

  function Generation(w: World): nat
    requires |w.bumpedAt| > 0
  {
    |w.bumpedAt| - 1
  }

  function Version(w: World): nat
    requires |w.history| > 0
  {
    |w.history| - 1
  }

  function KeyFor(snapshot: Snapshot, s: Subject): string {
    CacheKey(snapshot.generation, s)
  }

  predicate Fresh(w: World, key: string, now: Time, ttl: Time) {
    key in w.overrides && now - w.overrides[key].loadedAt < ttl
  }

  /** Everyone waiting for the reload of g receives the snapshot. */
  function DeliverSnapshot(evals: map<nat, Evaluation>, g: nat, s: Snapshot): map<nat, Evaluation> {
    map i | i in evals :: if evals[i].stage == AwaitsSnapshot(g) then evals[i].(stage := Loaded(g, s)) else evals[i]
  }

  predicate Awaits(e: Evaluation, key: string) {
    e.stage.AwaitsOverrides? && KeyFor(e.stage.snapshot, e.subject) == key
  }

  function DeliverOverrides(evals: map<nat, Evaluation>, key: string, f: Found): map<nat, Evaluation> {
    map i | i in evals :: if Awaits(evals[i], key) then evals[i].(stage := Done(evals[i].stage.snapshot, f))
      else evals[i]
  }

  predicate Permitted(w: World, a: Action) {
    match a
    case CommitWrite(id, _) => id !in w.writes
    case Begin(id, s) => id !in w.evaluations
    case FinishReload(g, rowsAt, groupsAt, _) =>
      g in w.reloads ==> w.reloads[g].began <= rowsAt <= groupsAt < |w.history|
    case FinishOverrides(key, readAt, _, _) =>
      key in w.overrideReloads ==> w.overrideReloads[key].began <= readAt < |w.history|
    case _ => true
  }

  function InvalidateStep(w: World, id: nat): World
    requires |w.history| > 0 && id in w.writes
  {
    var wr := w.writes[id];
    match wr.step
    case ToBump => w.(bumpedAt := w.bumpedAt + [Version(w)], writes := w.writes[id := wr.(step := ToDropSnapshot)])
    case ToDropSnapshot => w.(snapshot := None, writes := w.writes[id := wr.(step := ToDropOverrides)])
    case ToDropOverrides => w.(overrides := map[], writes := w.writes - {id}, returned := Max(w.returned, wr.version))
  }

  /** Evaluate: where one evaluation goes next. */
  function NextStage(lim: Limits, w: World, e: Evaluation, a: Action): Stage
    requires |w.bumpedAt| > 0
  {
    match a
    case LoadGeneration(_) => if e.stage.Looping? then HasGeneration(Generation(w)) else e.stage
    case LoadSnapshot(_, now) =>
      if !e.stage.HasGeneration? then e.stage
      else if w.snapshot.Some? && w.snapshot.value.generation == e.stage.generation
              && now - w.snapshot.value.loadedAt < lim.cacheTTL then Holds(w.snapshot.value)
      else Missed(e.stage.generation)
    case JoinReload(_) => if e.stage.Missed? then AwaitsSnapshot(e.stage.generation) else e.stage
    case Recheck(_) =>
      if !e.stage.Loaded? then e.stage
      else if e.stage.generation != Generation(w) then Looping
      else Checked(e.stage.snapshot)
    case StoreSnapshot(_) => if e.stage.Checked? then Holds(e.stage.snapshot) else e.stage
    case LookUp(_, now) =>
      if !e.stage.Holds? then e.stage
      else
        var key := KeyFor(e.stage.snapshot, e.subject);
        if Fresh(w, key, now, lim.overrideTTL) then Done(e.stage.snapshot, w.overrides[key])
        else NeedsOverrides(e.stage.snapshot)
    case JoinOverrides(_) => if e.stage.NeedsOverrides? then AwaitsOverrides(e.stage.snapshot) else e.stage
    case _ => e.stage
  }

  /** What it changes for others on the way: it starts a load nobody has started, or stores its snapshot. */
  function Register(w: World, e: Evaluation, a: Action): World
    requires |w.history| > 0
  {
    if a.JoinReload? && e.stage.Missed? && e.stage.generation !in w.reloads
    then w.(reloads := w.reloads[e.stage.generation := Flight(e.stage.generation, Version(w))])
    else if a.StoreSnapshot? && e.stage.Checked? then w.(snapshot := Some(e.stage.snapshot))
    else if a.JoinOverrides? && e.stage.NeedsOverrides? && KeyFor(e.stage.snapshot, e.subject) !in w.overrideReloads
    then w.(overrideReloads :=
              w.overrideReloads[KeyFor(e.stage.snapshot, e.subject) :=
                                  OverrideFlight(e.stage.snapshot, e.subject, Version(w))])
    else w
  }

  function MoveStep(lim: Limits, w: World, id: nat, a: Action): World
    requires |w.history| > 0 && |w.bumpedAt| > 0 && id in w.evaluations
  {
    var e := w.evaluations[id];
    Register(w, e, a).(evaluations := w.evaluations[id := e.(stage := NextStage(lim, w, e, a))])
  }

  function ReadSnapshot(w: World, g: nat, rowsAt: nat, groupsAt: nat, now: Time): Snapshot
    requires rowsAt < |w.history| && groupsAt < |w.history|
  {
    var rows := w.history[rowsAt].experiments;
    Snapshot(g, rows, GroupsFor(w.history[groupsAt], rows.Keys), rowsAt, groupsAt, now)
  }

  function ReadOverrides(w: World, fl: OverrideFlight, readAt: nat, now: Time): Found
    requires readAt < |w.history|
  {
    Found(OverridesFor(w.history[readAt], fl.subject, fl.snapshot.experiments.Keys),
          fl.snapshot.generation, fl.subject, readAt, fl.snapshot.rowsAt, now)
  }

  function Step(lim: Limits, w: World, a: Action): World
    requires |w.history| > 0 && |w.bumpedAt| > 0 && Permitted(w, a)
  {
    match a
    case CommitWrite(id, next) => w.(history := w.history + [next],
                                     writes := w.writes[id := Write(|w.history|, ToBump)])
    case Invalidate(id) => if id in w.writes then InvalidateStep(w, id) else w
    case Begin(id, s) =>
      if Trim(s.kind) == "" || Trim(s.id) == "" then w
      else w.(evaluations := w.evaluations[id := Evaluation(Trimmed(s), w.returned, Looping)])
    case FinishReload(g, rowsAt, groupsAt, now) =>
      if g in w.reloads then
        var s := ReadSnapshot(w, w.reloads[g].generation, rowsAt, groupsAt, now);
        w.(reloads := w.reloads - {g}, evaluations := DeliverSnapshot(w.evaluations, g, s))
      else w
    case FailReload(g) =>
      w.(reloads := w.reloads - {g},
         evaluations := map i | i in w.evaluations && w.evaluations[i].stage != AwaitsSnapshot(g) :: w.evaluations[i])
    case FinishOverrides(key, readAt, now, evicted) =>
      if key in w.overrideReloads then
        var f := ReadOverrides(w, w.overrideReloads[key], readAt, now);
        w.(overrideReloads := w.overrideReloads - {key}, overrides := (w.overrides - evicted)[key := f],
           evaluations := DeliverOverrides(w.evaluations, key, f))
      else w
    case FinishFromCache(key, now) =>
      if key in w.overrideReloads && Fresh(w, key, now, lim.overrideTTL)
      then w.(overrideReloads := w.overrideReloads - {key},
              evaluations := DeliverOverrides(w.evaluations, key, w.overrides[key]))
      else w
    case FailOverrides(key) =>
      w.(overrideReloads := w.overrideReloads - {key},
         evaluations := map i | i in w.evaluations && !Awaits(w.evaluations[i], key) :: w.evaluations[i])
    case _ => if a.id in w.evaluations then MoveStep(lim, w, a.id, a) else w
  }

  ghost function Run(lim: Limits, w: World, acts: seq<Action>): World
    requires |w.history| > 0 && |w.bumpedAt| > 0 && PermittedRun(lim, w, acts)
    decreases |acts|
  {
    if acts == [] then w else Run(lim, Step(lim, w, acts[0]), acts[1..])
  }

  ghost predicate PermittedRun(lim: Limits, w: World, acts: seq<Action>)
    requires |w.history| > 0 && |w.bumpedAt| > 0
    decreases |acts|
  {
    acts != [] ==> Permitted(w, acts[0]) && PermittedRun(lim, Step(lim, w, acts[0]), acts[1..])
  }

  // ---- the invariant ----

  ghost predicate Versions(w: World) {
    && |w.history| > 0 && |w.bumpedAt| > 0
    && (forall i, j | 0 <= i <= j < |w.bumpedAt| :: w.bumpedAt[i] <= w.bumpedAt[j])
    && w.bumpedAt[Generation(w)] <= Version(w)
    && w.returned <= w.bumpedAt[Generation(w)]
    && (forall id | id in w.writes :: w.writes[id].version <= Version(w))
    && (forall id | id in w.writes && w.writes[id].step != ToBump :: w.writes[id].version <= w.bumpedAt[Generation(w)])
  }

  /** Whatever is tagged with generation g was read after the generation became g. */
  predicate Recent(w: World, g: nat, version: nat) {
    g < |w.bumpedAt| && w.bumpedAt[g] <= version < |w.history|
  }

  predicate SnapshotTrue(w: World, s: Snapshot) {
    && Recent(w, s.generation, s.rowsAt) && Recent(w, s.generation, s.groupsAt) && s.rowsAt <= s.groupsAt
    && s.experiments == w.history[s.rowsAt].experiments
    && s.groups == GroupsFor(w.history[s.groupsAt], s.experiments.Keys)
  }

  predicate FoundTrue(w: World, f: Found) {
    && Recent(w, f.generation, f.version) && Recent(w, f.generation, f.idsVersion) && Admitted(f.subject)
    && f.value == OverridesFor(w.history[f.version], f.subject, w.history[f.idsVersion].experiments.Keys)
  }

  predicate Covers(w: World, g: nat, floor: nat) {
    g < |w.bumpedAt| && floor <= w.bumpedAt[g]
  }

  predicate EvaluationTrue(w: World, e: Evaluation) {
    && e.floor <= w.returned && Admitted(e.subject)
    && match e.stage
       case Looping => true
       case HasGeneration(g) => Covers(w, g, e.floor)
       case Missed(g) => Covers(w, g, e.floor)
       case AwaitsSnapshot(g) => Covers(w, g, e.floor)
       case Loaded(g, s) => Covers(w, g, e.floor) && s.generation == g && SnapshotTrue(w, s)
       case Done(s, f) =>
         && Covers(w, s.generation, e.floor) && SnapshotTrue(w, s) && FoundTrue(w, f)
         && CacheKey(f.generation, f.subject) == KeyFor(s, e.subject)
       case _ => Covers(w, e.stage.snapshot.generation, e.floor) && SnapshotTrue(w, e.stage.snapshot)
  }

  predicate FlightTrue(w: World, k: string, fl: OverrideFlight) {
    && SnapshotTrue(w, fl.snapshot) && Recent(w, fl.snapshot.generation, fl.began)
    && k == KeyFor(fl.snapshot, fl.subject) && Admitted(fl.subject)
  }

  predicate Stores(w: World) {
    && (w.snapshot.Some? ==> SnapshotTrue(w, w.snapshot.value))
    && (forall g | g in w.reloads :: w.reloads[g].generation == g && Recent(w, g, w.reloads[g].began))
    && (forall k | k in w.overrides ::
          FoundTrue(w, w.overrides[k]) && k == CacheKey(w.overrides[k].generation, w.overrides[k].subject))
    && (forall k | k in w.overrideReloads :: FlightTrue(w, k, w.overrideReloads[k]))
  }

  ghost predicate Inv(w: World) {
    && Versions(w) && Stores(w)
    && (forall i | i in w.evaluations :: EvaluationTrue(w, w.evaluations[i]))
  }

  // ---- steps keep it ----

  ghost predicate Grew(w: World, w2: World) {
    w.history <= w2.history && w.bumpedAt <= w2.bumpedAt && w.returned <= w2.returned
  }

  /** The writers' part of the state: what a reading step leaves alone. */
  predicate Quiet(w: World, w2: World) {
    w2.history == w.history && w2.bumpedAt == w.bumpedAt && w2.returned == w.returned && w2.writes == w.writes
  }

  predicate Reads(a: Action) {
    !a.CommitWrite? && !a.Invalidate?
  }

  lemma ReadsAreQuiet(lim: Limits, w: World, a: Action)
    requires |w.history| > 0 && |w.bumpedAt| > 0 && Permitted(w, a) && Reads(a)
    ensures Quiet(w, Step(lim, w, a))
  {
    hide DeliverSnapshot, DeliverOverrides, KeyFor, OverridesFor, Fresh, CacheKey;
  }

  lemma CommitGrows(lim: Limits, w: World, a: Action)
    requires Versions(w) && Permitted(w, a) && a.CommitWrite?
    ensures Versions(Step(lim, w, a)) && Grew(w, Step(lim, w, a))
  {
  }

  lemma InvalidateGrows(w: World, id: nat)
    requires Versions(w) && id in w.writes
    ensures Versions(InvalidateStep(w, id)) && Grew(w, InvalidateStep(w, id))
  {
  }

  lemma WritesGrow(lim: Limits, w: World, a: Action)
    requires Versions(w) && Permitted(w, a) && !Reads(a)
    ensures Versions(Step(lim, w, a)) && Grew(w, Step(lim, w, a))
  {
    hide Versions, InvalidateStep;
    InvVersions(w);
    if a.CommitWrite? {
      CommitGrows(lim, w, a);
    } else if a.id in w.writes {
      InvalidateGrows(w, a.id);
    }
  }

  lemma FoundGrows(w: World, w2: World, f: Found)
    requires Grew(w, w2) && FoundTrue(w, f)
    ensures FoundTrue(w2, f)
  {
  }

  lemma EvaluationGrows(w: World, w2: World, e: Evaluation)
    requires Grew(w, w2) && EvaluationTrue(w, e)
    ensures EvaluationTrue(w2, e)
  {
    hide KeyFor, CacheKey, OverridesFor;
  }

  /** Invalidation only forgets. */
  predicate Forgot(w: World, w2: World) {
    && w2.snapshot in {w.snapshot, None} && w2.overrides in {w.overrides, map[]}
    && w2.reloads == w.reloads && w2.overrideReloads == w.overrideReloads && w2.evaluations == w.evaluations
  }

  lemma WritesForget(lim: Limits, w: World, a: Action)
    requires |w.history| > 0 && |w.bumpedAt| > 0 && Permitted(w, a) && !Reads(a)
    ensures Forgot(w, Step(lim, w, a))
  {
  }

  lemma ForgotStores(w: World, w2: World)
    requires Grew(w, w2) && Stores(w) && Forgot(w, w2)
    ensures Stores(w2)
  {
    hide KeyFor, CacheKey, OverridesFor;
    forall k | k in w2.overrides ensures FoundTrue(w2, w2.overrides[k]) {
      FoundGrows(w, w2, w2.overrides[k]);
    }
  }

  lemma WritesKeep(lim: Limits, w: World, a: Action)
    requires Inv(w) && Permitted(w, a) && !Reads(a)
    ensures Inv(Step(lim, w, a))
  {
    hide Step, Versions, Stores, EvaluationTrue, Grew, Permitted, Reads;
    InvVersions(w);
    var w2 := Step(lim, w, a);
    WritesGrow(lim, w, a);
    WritesForget(lim, w, a);
    ForgotStores(w, w2);
    forall i | i in w2.evaluations ensures EvaluationTrue(w2, w2.evaluations[i]) {
      EvaluationGrows(w, w2, w2.evaluations[i]);
    }
  }

  lemma InvVersions(w: World)
    requires Versions(w)
    ensures |w.history| > 0 && |w.bumpedAt| > 0
  {
  }

  // ---- one evaluation moves ----

  predicate Moves(a: Action) {
    a.LoadGeneration? || a.LoadSnapshot? || a.JoinReload? || a.Recheck? || a.StoreSnapshot? || a.LookUp?
      || a.JoinOverrides?
  }

  lemma NextStageTrue(lim: Limits, w: World, e: Evaluation, a: Action)
    requires Versions(w) && Stores(w) && EvaluationTrue(w, e)
    ensures EvaluationTrue(w, e.(stage := NextStage(lim, w, e, a)))
  {
    hide OverridesFor, CacheKey;
  }

  lemma QuietTruths(w: World, w2: World)
    requires Quiet(w, w2)
    ensures Versions(w) ==> Versions(w2)
    ensures forall e :: EvaluationTrue(w, e) ==> EvaluationTrue(w2, e)
    ensures forall s :: SnapshotTrue(w, s) ==> SnapshotTrue(w2, s)
    ensures forall f :: FoundTrue(w, f) ==> FoundTrue(w2, f)
    ensures forall k, fl :: FlightTrue(w, k, fl) ==> FlightTrue(w2, k, fl)
    ensures forall g, v :: Recent(w, g, v) ==> Recent(w2, g, v)
  {
    hide OverridesFor, CacheKey, KeyFor;
  }

  predicate FoundUnder(w: World, k: string, f: Found) {
    FoundTrue(w, f) && k == CacheKey(f.generation, f.subject)
  }

  /** What may be added to the caches and the loads in flight. */
  predicate Adds(w: World, w2: World) {
    && (w2.snapshot == w.snapshot || (w2.snapshot.Some? && SnapshotTrue(w, w2.snapshot.value)))
    && (forall g | g in w2.reloads ::
          (g in w.reloads && w2.reloads[g] == w.reloads[g])
          || (w2.reloads[g].generation == g && Recent(w, g, w2.reloads[g].began)))
    && (forall k | k in w2.overrides ::
          (k in w.overrides && w2.overrides[k] == w.overrides[k]) || FoundUnder(w, k, w2.overrides[k]))
    && (forall k | k in w2.overrideReloads ::
          (k in w.overrideReloads && w2.overrideReloads[k] == w.overrideReloads[k])
          || FlightTrue(w, k, w2.overrideReloads[k]))
  }

  lemma AddsStores(w: World, w2: World)
    requires Stores(w) && Quiet(w, w2) && Adds(w, w2)
    ensures Stores(w2)
  {
    hide FlightTrue, SnapshotTrue, FoundTrue, Recent, Versions, EvaluationTrue;
    QuietTruths(w, w2);
  }

  lemma RegisterStores(w: World, e: Evaluation, a: Action)
    requires Versions(w) && Stores(w) && EvaluationTrue(w, e)
    ensures Adds(w, Register(w, e, a)) && Quiet(w, Register(w, e, a))
  {
    hide OverridesFor, CacheKey, Stores;
  }

  lemma MovesKeep(lim: Limits, w: World, a: Action)
    requires Inv(w) && Moves(a) && Permitted(w, a)
    ensures Inv(Step(lim, w, a))
  {
    hide Versions, Stores, EvaluationTrue, NextStage, Register, Adds;
    InvVersions(w);
    if a.id in w.evaluations {
      var e := w.evaluations[a.id];
      NextStageTrue(lim, w, e, a);
      RegisterStores(w, e, a);
      var w2 := MoveStep(lim, w, a.id, a);
      AddsMore(w, Register(w, e, a), w2);
      AddsStores(w, w2);
      QuietTruths(w, w2);
    }
  }

  lemma AddsMore(w: World, w1: World, w2: World)
    requires Adds(w, w1) && Quiet(w, w1) && w2 == w1.(evaluations := w2.evaluations)
    ensures Adds(w, w2) && Quiet(w, w2)
  {
    hide FlightTrue, SnapshotTrue, FoundTrue, Recent;
  }

  // ---- loads finish ----

  /** Every evaluation that stays in the table is where it was or at a stage that is true. */
  ghost predicate EvaluationsTrue(w: World, w2: World) {
    forall i | i in w2.evaluations :: EvaluationTrue(w, w2.evaluations[i])
  }

  lemma BeginEffect(lim: Limits, w: World, a: Action)
    requires Inv(w) && a.Begin? && Permitted(w, a)
    ensures Adds(w, Step(lim, w, a)) && EvaluationsTrue(w, Step(lim, w, a))
  {
    hide FlightTrue, SnapshotTrue, FoundTrue, Recent, Stores, Trim, Tight;
    TrimIsTight(a.subject.kind);
    TrimIsTight(a.subject.id);
  }

  lemma FinishReloadEffect(lim: Limits, w: World, a: Action)
    requires Inv(w) && a.FinishReload? && Permitted(w, a)
    ensures Adds(w, Step(lim, w, a)) && EvaluationsTrue(w, Step(lim, w, a))
  {
    hide FlightTrue, FoundTrue, KeyFor;
    if a.generation in w.reloads {
      var s := ReadSnapshot(w, w.reloads[a.generation].generation, a.rowsAt, a.groupsAt, a.now);
      assert SnapshotTrue(w, s);
    }
  }

  lemma FailReloadEffect(lim: Limits, w: World, a: Action)
    requires Inv(w) && a.FailReload? && Permitted(w, a)
    ensures Adds(w, Step(lim, w, a)) && EvaluationsTrue(w, Step(lim, w, a))
  {
    hide FlightTrue, SnapshotTrue, FoundTrue, Recent, Stores, EvaluationTrue;
    InvVersions(w);
  }

  /** Handing an override list to everyone who waits for its key. */
  lemma Delivered(w: World, w2: World, key: string, f: Found)
    requires forall i | i in w.evaluations :: EvaluationTrue(w, w.evaluations[i])
    requires FoundUnder(w, key, f) && w2.evaluations == DeliverOverrides(w.evaluations, key, f)
    ensures EvaluationsTrue(w, w2)
  {
    hide FlightTrue, SnapshotTrue, FoundTrue, KeyFor, CacheKey, Recent;
  }

  lemma LoadedOverrides(w: World, key: string, fl: OverrideFlight, readAt: nat, now: Time)
    requires FlightTrue(w, key, fl) && fl.began <= readAt < |w.history|
    ensures FoundUnder(w, key, ReadOverrides(w, fl, readAt, now))
  {
    hide OverridesFor, CacheKey, Admitted, GroupsFor;
  }

  lemma FinishOverridesEffect(lim: Limits, w: World, a: Action)
    requires Inv(w) && a.FinishOverrides? && Permitted(w, a)
    ensures Adds(w, Step(lim, w, a)) && EvaluationsTrue(w, Step(lim, w, a))
  {
    hide Versions, EvaluationTrue, DeliverOverrides, FlightTrue, SnapshotTrue, FoundTrue, FoundUnder, ReadOverrides,
         Recent, OverridesFor, CacheKey, Awaits;
    InvVersions(w);
    if a.key in w.overrideReloads {
      var fl := w.overrideReloads[a.key];
      assert FlightTrue(w, a.key, fl);
      hide Stores;
      LoadedOverrides(w, a.key, fl, a.readAt, a.now);
      Delivered(w, Step(lim, w, a), a.key, ReadOverrides(w, fl, a.readAt, a.now));
    }
  }

  lemma FinishFromCacheEffect(lim: Limits, w: World, a: Action)
    requires Inv(w) && a.FinishFromCache? && Permitted(w, a)
    ensures Adds(w, Step(lim, w, a)) && EvaluationsTrue(w, Step(lim, w, a))
  {
    hide OverridesFor, CacheKey, Versions, EvaluationTrue, DeliverOverrides, FoundTrue, FlightTrue;
    InvVersions(w);
    if a.key in w.overrideReloads && Fresh(w, a.key, a.now, lim.overrideTTL) {
      Delivered(w, Step(lim, w, a), a.key, w.overrides[a.key]);
    }
  }

  lemma FailOverridesEffect(lim: Limits, w: World, a: Action)
    requires Inv(w) && a.FailOverrides? && Permitted(w, a)
    ensures Adds(w, Step(lim, w, a)) && EvaluationsTrue(w, Step(lim, w, a))
  {
    hide FlightTrue, SnapshotTrue, FoundTrue, Recent, Stores, EvaluationTrue;
    InvVersions(w);
  }

  lemma LoadsKeep(lim: Limits, w: World, a: Action)
    requires Inv(w) && Permitted(w, a) && Reads(a) && !Moves(a)
    ensures Inv(Step(lim, w, a))
  {
    hide Step, Stores, Versions, Adds, EvaluationTrue, Permitted;
    InvVersions(w);
    match a {
      case Begin(_, _) => BeginEffect(lim, w, a);
      case FinishReload(_, _, _, _) => FinishReloadEffect(lim, w, a);
      case FailReload(_) => FailReloadEffect(lim, w, a);
      case FinishOverrides(_, _, _, _) => FinishOverridesEffect(lim, w, a);
      case FinishFromCache(_, _) => FinishFromCacheEffect(lim, w, a);
      case FailOverrides(_) => FailOverridesEffect(lim, w, a);
    }
    var w2 := Step(lim, w, a);
    ReadsAreQuiet(lim, w, a);
    AddsStores(w, w2);
    QuietTruths(w, w2);
  }

  lemma StepKeepsInv(lim: Limits, w: World, a: Action)
    requires Inv(w) && Permitted(w, a)
    ensures Inv(Step(lim, w, a))
  {
    hide Step, Inv, Permitted;
    if !Reads(a) {
      WritesKeep(lim, w, a);
    } else if Moves(a) {
      MovesKeep(lim, w, a);
    } else {
      LoadsKeep(lim, w, a);
    }
  }

  lemma {:induction false} RunKeepsInv(lim: Limits, w: World, acts: seq<Action>)
    requires Inv(w) && PermittedRun(lim, w, acts)
    ensures Inv(Run(lim, w, acts))
    decreases |acts|
  {
    hide Step, Permitted, Stores, EvaluationTrue;
    if acts != [] {
      StepKeepsInv(lim, w, acts[0]);
      RunKeepsInv(lim, Step(lim, w, acts[0]), acts[1..]);
    }
  }

  // ---- what every run guarantees ----

  /** The subject type of an evaluation has no ':'. */
  predicate Plain(a: Action) {
    a.Begin? ==> ColonFree(Trim(a.subject.kind))
  }

  predicate PlainEvaluation(e: Evaluation) {
    ColonFree(e.subject.kind) && (e.stage.Done? ==> ColonFree(e.stage.found.subject.kind))
  }

  predicate PlainWorld(w: World) {
    && (forall i | i in w.evaluations :: PlainEvaluation(w.evaluations[i]))
    && (forall k | k in w.overrides :: ColonFree(w.overrides[k].subject.kind))
    && (forall k | k in w.overrideReloads :: ColonFree(w.overrideReloads[k].subject.kind))
  }

  lemma MovesKeepPlain(lim: Limits, w: World, a: Action)
    requires |w.history| > 0 && |w.bumpedAt| > 0 && Moves(a) && PlainWorld(w) && a.id in w.evaluations
    ensures PlainWorld(MoveStep(lim, w, a.id, a))
  {
    hide KeyFor, CacheKey, ColonFree, OverridesFor;
  }

  lemma StepKeepsPlain(lim: Limits, w: World, a: Action)
    requires |w.history| > 0 && |w.bumpedAt| > 0 && Permitted(w, a) && Plain(a) && PlainWorld(w)
    ensures PlainWorld(Step(lim, w, a))
  {
    hide KeyFor, CacheKey, ColonFree, OverridesFor, MoveStep, Awaits, Trim;
    if Moves(a) && a.id in w.evaluations {
      MovesKeepPlain(lim, w, a);
    }
  }

  lemma {:induction false} RunKeepsPlain(lim: Limits, w: World, acts: seq<Action>)
    requires Inv(w) && PermittedRun(lim, w, acts) && PlainWorld(w)
    requires forall k | 0 <= k < |acts| :: Plain(acts[k])
    ensures PlainWorld(Run(lim, w, acts))
    decreases |acts|
  {
    hide Step, Permitted, Stores, EvaluationTrue, PlainWorld, Plain;
    if acts != [] {
      StepKeepsInv(lim, w, acts[0]);
      StepKeepsPlain(lim, w, acts[0]);
      RunKeepsPlain(lim, Step(lim, w, acts[0]), acts[1..]);
    }
  }

  /** An evaluation is done, with data read at the floor or later: its experiments, their groups, and the override list
      of the subject in `found`. */
  ghost predicate Answers(w: World, e: Evaluation, floor: nat) {
    && e.stage.Done?
    && var (s, f) := (e.stage.snapshot, e.stage.found);
       && floor <= s.rowsAt <= s.groupsAt < |w.history|
       && s.experiments == w.history[s.rowsAt].experiments
       && s.groups == GroupsFor(w.history[s.groupsAt], s.experiments.Keys)
       && floor <= f.version < |w.history| && floor <= f.idsVersion < |w.history|
       && f.value == OverridesFor(w.history[f.version], f.subject, w.history[f.idsVersion].experiments.Keys)
  }

  lemma {:induction false} RunThen(lim: Limits, w: World, acts: seq<Action>, a: Action)
    requires Inv(w) && PermittedRun(lim, w, acts) && Permitted(Run(lim, w, acts), a)
    ensures Inv(Run(lim, w, acts))
    ensures PermittedRun(lim, w, acts + [a]) && Run(lim, w, acts + [a]) == Step(lim, Run(lim, w, acts), a)
    decreases |acts|
  {
    hide Step, Permitted, Stores, EvaluationTrue;
    RunKeepsInv(lim, w, acts);
    if acts == [] {
      assert acts + [a] == [a] && [a][1..] == [];
    } else {
      assert (acts + [a])[1..] == acts[1..] + [a];
      StepKeepsInv(lim, w, acts[0]);
      RunThen(lim, Step(lim, w, acts[0]), acts[1..], a);
    }
  }

  lemma StartInv(db: Database)
    ensures Inv(Start(db))
  {
  }

  /** Read your writes: in every interleaving with admin writes, an evaluation answers from experiments, groups and
      overrides whose store reads began after every write that had returned when it started. The overrides are its own
      subject's when its text splits in no other way, and when no subject type of the run has a ':'. */
  lemma ReadYourWrites(lim: Limits, db: Database, acts: seq<Action>, i: nat)
    requires PermittedRun(lim, Start(db), acts)
    requires i in Run(lim, Start(db), acts).evaluations && Run(lim, Start(db), acts).evaluations[i].stage.Done?
    ensures var w := Run(lim, Start(db), acts);
            var e := w.evaluations[i];
            && Answers(w, e, e.floor)
            && (!Resplits(e.subject) ==> e.stage.found.subject == e.subject)
            && ((forall k | 0 <= k < |acts| :: Plain(acts[k])) ==> e.stage.found.subject == e.subject)
  {
    hide Run, PermittedRun, Step, Answers, Resplits, Plain, Stores, EvaluationTrue, PlainEvaluation;
    StartInv(db);
    RunKeepsInv(lim, Start(db), acts);
    var w := Run(lim, Start(db), acts);
    DoneIsRecent(w, i);
    if forall k | 0 <= k < |acts| :: Plain(acts[k]) {
      assert PlainWorld(Start(db));
      RunKeepsPlain(lim, Start(db), acts);
      assert PlainEvaluation(w.evaluations[i]);
    }
  }

  lemma DoneIsRecent(w: World, i: nat)
    requires Inv(w) && i in w.evaluations && w.evaluations[i].stage.Done?
    ensures var e := w.evaluations[i];
            && Answers(w, e, e.floor)
            && (!Resplits(e.subject) || PlainEvaluation(e) ==> e.stage.found.subject == e.subject)
  {
    hide OverridesFor, CacheKey, Stores, Versions, Resplits, GroupsFor, Admitted;
    var e := w.evaluations[i];
    var (s, f) := (e.stage.snapshot, e.stage.found);
    assert EvaluationTrue(w, e);
    KeyGeneration(f.generation, f.subject, s.generation, e.subject);
    KeyUniqueIff(s.generation, e.subject);
    if PlainEvaluation(e) {
      KeysInjective(f.generation, f.subject, s.generation, e.subject);
    }
  }

  /** The three steps of one invalidateLocal. */
  function Invalidated(w: World, id: nat): World
    requires |w.history| > 0 && id in w.writes && w.writes[id].step.ToBump?
  {
    InvalidateStep(InvalidateStep(InvalidateStep(w, id), id), id)
  }

  /** Evaluations that begin from now on, all but those under old ids, start at v or later. */
  predicate FloorsFrom(w: World, before: set<nat>, v: nat) {
    v <= w.returned && forall i | i in w.evaluations && i !in before :: v <= w.evaluations[i].floor
  }

  lemma StepKeepsFloors(lim: Limits, w: World, a: Action, before: set<nat>, v: nat)
    requires Inv(w) && Permitted(w, a) && FloorsFrom(w, before, v)
    ensures FloorsFrom(Step(lim, w, a), before, v)
  {
    hide NextStage, KeyFor, CacheKey, OverridesFor, Stores, EvaluationTrue, ReadSnapshot, ReadOverrides, Trim, Awaits;
  }

  lemma {:induction false} RunKeepsFloors(lim: Limits, w: World, acts: seq<Action>, before: set<nat>, v: nat)
    requires Inv(w) && PermittedRun(lim, w, acts) && FloorsFrom(w, before, v)
    ensures FloorsFrom(Run(lim, w, acts), before, v)
    decreases |acts|
  {
    hide Step, Permitted, Stores, EvaluationTrue, FloorsFrom;
    if acts != [] {
      StepKeepsInv(lim, w, acts[0]);
      StepKeepsFloors(lim, w, acts[0], before, v);
      RunKeepsFloors(lim, Step(lim, w, acts[0]), acts[1..], before, v);
    }
  }

  /** Once invalidateLocal has returned, in every later run an evaluation that began after it answers with data at
      least as new as the write. */
  lemma InvalidationReturns(lim: Limits, w: World, id: nat, acts: seq<Action>, i: nat)
    requires Inv(w) && id in w.writes && w.writes[id].step.ToBump? && i !in w.evaluations
    requires PermittedRun(lim, Invalidated(w, id), acts)
    ensures Inv(Invalidated(w, id))
    ensures var w2 := Run(lim, Invalidated(w, id), acts);
            (i in w2.evaluations && w2.evaluations[i].stage.Done?) ==>
              Answers(w2, w2.evaluations[i], w.writes[id].version)
  {
    hide Run, PermittedRun, Answers;
    InvalidatedReturns(lim, w, id);
    var w1, v := Invalidated(w, id), w.writes[id].version;
    hide Invalidated, Inv;
    RunKeepsFloors(lim, w1, acts, w.evaluations.Keys, v);
    RunKeepsInv(lim, w1, acts);
    var w2 := Run(lim, w1, acts);
    if i in w2.evaluations && w2.evaluations[i].stage.Done? {
      DoneIsRecent(w2, i);
      HigherFloor(w2, w2.evaluations[i], v);
    }
  }

  lemma HigherFloor(w: World, e: Evaluation, v: nat)
    requires Answers(w, e, e.floor) && v <= e.floor
    ensures Answers(w, e, v)
  {
    hide GroupsFor, OverridesFor;
  }

  lemma InvalidatedReturns(lim: Limits, w: World, id: nat)
    requires Inv(w) && id in w.writes && w.writes[id].step.ToBump?
    ensures var w2 := Invalidated(w, id); Inv(w2) && FloorsFrom(w2, w.evaluations.Keys, w.writes[id].version)
  {
    hide Stores, EvaluationTrue, Versions;
    InvVersions(w);
    StepKeepsInv(lim, w, Invalidate(id));
    var w1 := InvalidateStep(w, id);
    StepKeepsInv(lim, w1, Invalidate(id));
    var w2 := InvalidateStep(w1, id);
    StepKeepsInv(lim, w2, Invalidate(id));
  }

  lemma RunNothing(lim: Limits, db: Database)
    ensures Inv(Start(db)) && PermittedRun(lim, Start(db), []) && Run(lim, Start(db), []) == Start(db)
  {
  }

  /** Evaluation 1 finds no snapshot and starts a load. */
  lemma MissAndJoin(lim: Limits, db: Database, s: Subject) returns (acts: seq<Action>)
    requires Admitted(s)
    ensures PermittedRun(lim, Start(db), acts)
    ensures Run(lim, Start(db), acts)
            == Start(db).(evaluations := map[1 := Evaluation(s, 0, AwaitsSnapshot(0))],
                          reloads := map[0 := Flight(0, 0)])
  {
    hide Run, PermittedRun, Inv, Trim, IsSpace;
    TrimIsTight(s.kind);
    TrimIsTight(s.id);
    RunNothing(lim, db);
    var start := Start(db);
    RunThen(lim, start, [], Begin(1, s));
    RunThen(lim, start, [] + [Begin(1, s)], LoadGeneration(1));
    RunThen(lim, start, [] + [Begin(1, s)] + [LoadGeneration(1)], LoadSnapshot(1, 0));
    RunThen(lim, start, [] + [Begin(1, s)] + [LoadGeneration(1)] + [LoadSnapshot(1, 0)], JoinReload(1));
    acts := [] + [Begin(1, s)] + [LoadGeneration(1)] + [LoadSnapshot(1, 0)] + [JoinReload(1)];
  }

  /** A write commits between the two queries of the load. */
  lemma WriteBetween(lim: Limits, db: Database, next: Database, s: Subject) returns (acts: seq<Action>)
    requires Admitted(s)
    ensures PermittedRun(lim, Start(db), acts)
    ensures var w := Run(lim, Start(db), acts);
            && |w.history| > 0 && w.bumpedAt == [0] && 1 in w.evaluations
            && w.evaluations[1].stage
               == Loaded(0, Snapshot(0, db.experiments, GroupsFor(next, db.experiments.Keys), 0, 1, 0))
  {
    hide Run, PermittedRun, Inv, GroupsFor, Admitted;
    RunNothing(lim, db);
    var load := MissAndJoin(lim, db, s);
    RunThen(lim, Start(db), load, CommitWrite(1, next));
    RunThen(lim, Start(db), load + [CommitWrite(1, next)], FinishReload(0, 0, 1, 0));
    acts := load + [CommitWrite(1, next)] + [FinishReload(0, 0, 1, 0)];
  }

  /** A snapshot can mix two versions of the store, and is kept until the write invalidates it. */
  lemma MixedSnapshot(lim: Limits, db: Database, next: Database, s: Subject) returns (acts: seq<Action>)
    requires Admitted(s)
    ensures PermittedRun(lim, Start(db), acts)
    ensures Run(lim, Start(db), acts).snapshot
            == Some(Snapshot(0, db.experiments, GroupsFor(next, db.experiments.Keys), 0, 1, 0))
  {
    hide Run, PermittedRun, Inv, GroupsFor, Admitted;
    RunNothing(lim, db);
    var read := WriteBetween(lim, db, next, s);
    RunThen(lim, Start(db), read, Recheck(1));
    RunThen(lim, Start(db), read + [Recheck(1)], StoreSnapshot(1));
    acts := read + [Recheck(1)] + [StoreSnapshot(1)];
  }

  // ---- whose overrides ----

  /** Evaluation i answers with its own subject's overrides. */
  ghost predicate OwnOverrides(w: World, i: nat) {
    i in w.evaluations && w.evaluations[i].stage.Done? ==>
      var f := w.evaluations[i].stage.found;
      && f.version < |w.history| && f.idsVersion < |w.history|
      && f.value == OverridesFor(w.history[f.version], w.evaluations[i].subject,
                                 w.history[f.idsVersion].experiments.Keys)
  }

  /** In every run from every store, evaluations of s answer with the overrides of s. */
  ghost predicate AlwaysOwn(lim: Limits, s: Subject) {
    forall db, acts, i | PermittedRun(lim, Start(db), acts) && i in Run(lim, Start(db), acts).evaluations
                         && Run(lim, Start(db), acts).evaluations[i].subject == s ::
                            OwnOverrides(Run(lim, Start(db), acts), i)
  }

  /** Evaluations 1 and 2 of subjects t and s stand at the same stage. */
  function Pair(base: World, t: Subject, s: Subject, stage: Stage): World {
    base.(evaluations := map[1 := Evaluation(t, 0, stage), 2 := Evaluation(s, 0, stage)])
  }

  /** The same move of both takes them from w to w2. */
  predicate BothMove(lim: Limits, w: World, a: Action, b: Action, w2: World) {
    && |w.history| > 0 && |w.bumpedAt| > 0 && Moves(a) && Moves(b) && a.id == 1 && b.id == 2
    && 1 in w.evaluations && 2 in w.evaluations
    && MoveStep(lim, MoveStep(lim, w, 1, a), 2, b) == w2
  }

  lemma RunMoves(lim: Limits, db: Database, acts: seq<Action>, w: World, a: Action, b: Action, w2: World)
    returns (more: seq<Action>)
    requires PermittedRun(lim, Start(db), acts) && Run(lim, Start(db), acts) == w && BothMove(lim, w, a, b, w2)
    ensures PermittedRun(lim, Start(db), more) && Run(lim, Start(db), more) == w2
  {
    hide Inv, Run, PermittedRun, Register, NextStage;
    StartInv(db);
    RunThen(lim, Start(db), acts, a);
    RunThen(lim, Start(db), acts + [a], b);
    more := acts + [a] + [b];
  }

  lemma BothBegin(lim: Limits, db: Database, t: Subject, s: Subject) returns (acts: seq<Action>)
    requires Admitted(t) && Admitted(s)
    ensures PermittedRun(lim, Start(db), acts) && Run(lim, Start(db), acts) == Pair(Start(db), t, s, Looping)
  {
    hide Trim, Inv, IsSpace;
    TrimIsTight(t.kind);
    TrimIsTight(t.id);
    TrimIsTight(s.kind);
    TrimIsTight(s.id);
    StartInv(db);
    RunThen(lim, Start(db), [], Begin(1, t));
    RunThen(lim, Start(db), [] + [Begin(1, t)], Begin(2, s));
    acts := [] + [Begin(1, t)] + [Begin(2, s)];
  }

  lemma BothMiss(lim: Limits, db: Database, t: Subject, s: Subject)
    ensures var w := Start(db);
            && BothMove(lim, Pair(w, t, s, Looping), LoadGeneration(1), LoadGeneration(2),
                        Pair(w, t, s, HasGeneration(0)))
            && BothMove(lim, Pair(w, t, s, HasGeneration(0)), LoadSnapshot(1, 0), LoadSnapshot(2, 0),
                        Pair(w, t, s, Missed(0)))
  {
  }

  lemma BothJoin(lim: Limits, db: Database, t: Subject, s: Subject)
    ensures BothMove(lim, Pair(Start(db), t, s, Missed(0)), JoinReload(1), JoinReload(2),
                     Pair(Start(db).(reloads := map[0 := Flight(0, 0)]), t, s, AwaitsSnapshot(0)))
  {
  }

  lemma BothStore(lim: Limits, db: Database, t: Subject, s: Subject, snapshot: Snapshot)
    requires snapshot.generation == 0
    ensures BothMove(lim, Pair(Start(db), t, s, Loaded(0, snapshot)), Recheck(1), Recheck(2),
                     Pair(Start(db), t, s, Checked(snapshot)))
    ensures BothMove(lim, Pair(Start(db), t, s, Checked(snapshot)), StoreSnapshot(1), StoreSnapshot(2),
                     Pair(Start(db).(snapshot := Some(snapshot)), t, s, Holds(snapshot)))
  {
  }

  /** Both evaluations miss the snapshot and share its load. */
  lemma BothLoad(lim: Limits, db: Database, t: Subject, s: Subject, snapshot: Snapshot) returns (acts: seq<Action>)
    requires Admitted(t) && Admitted(s) && snapshot == ReadSnapshot(Start(db), 0, 0, 0, 0)
    ensures PermittedRun(lim, Start(db), acts)
    ensures Run(lim, Start(db), acts) == Pair(Start(db).(snapshot := Some(snapshot)), t, s, Holds(snapshot))
  {
    hide Inv, Run, PermittedRun, BothMove, Admitted;
    var w := Start(db);
    acts := BothBegin(lim, db, t, s);
    BothMiss(lim, db, t, s);
    acts := RunMoves(lim, db, acts, Pair(w, t, s, Looping), LoadGeneration(1), LoadGeneration(2),
                     Pair(w, t, s, HasGeneration(0)));
    acts := RunMoves(lim, db, acts, Pair(w, t, s, HasGeneration(0)), LoadSnapshot(1, 0), LoadSnapshot(2, 0),
                     Pair(w, t, s, Missed(0)));
    BothJoin(lim, db, t, s);
    acts := RunMoves(lim, db, acts, Pair(w, t, s, Missed(0)), JoinReload(1), JoinReload(2),
                     Pair(w.(reloads := map[0 := Flight(0, 0)]), t, s, AwaitsSnapshot(0)));
    StartInv(db);
    RunThen(lim, w, acts, FinishReload(0, 0, 0, 0));
    acts := acts + [FinishReload(0, 0, 0, 0)];
    assert Run(lim, w, acts) == Pair(w, t, s, Loaded(0, snapshot));
    BothStore(lim, db, t, s, snapshot);
    acts := RunMoves(lim, db, acts, Pair(w, t, s, Loaded(0, snapshot)), Recheck(1), Recheck(2),
                     Pair(w, t, s, Checked(snapshot)));
    acts := RunMoves(lim, db, acts, Pair(w, t, s, Checked(snapshot)), StoreSnapshot(1), StoreSnapshot(2),
                     Pair(w.(snapshot := Some(snapshot)), t, s, Holds(snapshot)));
  }

  lemma BothLookUp(lim: Limits, w: World, t: Subject, s: Subject, snapshot: Snapshot)
    requires |w.history| == 1 && |w.bumpedAt| == 1 && w.overrides == map[]
    ensures BothMove(lim, Pair(w, t, s, Holds(snapshot)), LookUp(1, 0), LookUp(2, 0),
                     Pair(w, t, s, NeedsOverrides(snapshot)))
  {
    hide KeyFor;
  }

  lemma BothAsk(lim: Limits, w: World, t: Subject, s: Subject, snapshot: Snapshot, key: string)
    requires |w.history| == 1 && |w.bumpedAt| == 1 && w.overrideReloads == map[]
    requires key == KeyFor(snapshot, t) == KeyFor(snapshot, s)
    ensures BothMove(lim, Pair(w, t, s, NeedsOverrides(snapshot)), JoinOverrides(1), JoinOverrides(2),
                     Pair(w.(overrideReloads := map[key := OverrideFlight(snapshot, t, 0)]), t, s,
                          AwaitsOverrides(snapshot)))
  {
    hide KeyFor;
  }

  /** Two evaluations with one key share the load of the first. */
  lemma TwoSubjects(lim: Limits, db: Database, t: Subject, s: Subject) returns (acts: seq<Action>)
    requires Admitted(t) && Admitted(s) && CacheKey(0, t) == CacheKey(0, s)
    ensures PermittedRun(lim, Start(db), acts)
    ensures var w := Run(lim, Start(db), acts);
            && w.history == [db] && 2 in w.evaluations && w.evaluations[2].subject == s && w.evaluations[2].stage.Done?
            && var f := w.evaluations[2].stage.found;
               f.version == 0 && f.idsVersion == 0 && f.value == OverridesFor(db, t, db.experiments.Keys)
  {
    hide Inv, Run, PermittedRun, CacheKey, OverridesFor, BothMove, Admitted, GroupsFor;
    var snapshot, key := ReadSnapshot(Start(db), 0, 0, 0, 0), CacheKey(0, t);
    acts := BothLoad(lim, db, t, s, snapshot);
    var w := Start(db).(snapshot := Some(snapshot));
    BothLookUp(lim, w, t, s, snapshot);
    BothAsk(lim, w, t, s, snapshot, key);
    acts := RunMoves(lim, db, acts, Pair(w, t, s, Holds(snapshot)), LookUp(1, 0), LookUp(2, 0),
                     Pair(w, t, s, NeedsOverrides(snapshot)));
    var w2 := Pair(w.(overrideReloads := map[key := OverrideFlight(snapshot, t, 0)]), t, s, AwaitsOverrides(snapshot));
    acts := RunMoves(lim, db, acts, Pair(w, t, s, NeedsOverrides(snapshot)), JoinOverrides(1), JoinOverrides(2), w2);
    StartInv(db);
    var finish := FinishOverrides(key, 0, 0, {});
    RunThen(lim, Start(db), acts, finish);
    acts := acts + [finish];
  }

  lemma NotOwn(db: Database, t: Subject, s: Subject, w: World)
    requires db == Database(map[1 := "e"], map[], map[(1, t) := "x"]) && t != s && w.history == [db]
             && 2 in w.evaluations
    requires w.evaluations[2].subject == s && w.evaluations[2].stage.Done?
    requires var f := w.evaluations[2].stage.found;
             f.version == 0 && f.idsVersion == 0 && f.value == OverridesFor(db, t, db.experiments.Keys)
    ensures !OwnOverrides(w, 2)
  {
    assert 1 in OverridesFor(db, t, db.experiments.Keys) && 1 !in OverridesFor(db, s, db.experiments.Keys);
  }

  /** A subject always gets its own overrides exactly when its text splits in no other way. */
  lemma OwnOverridesIff(lim: Limits, s: Subject)
    requires Admitted(s)
    ensures AlwaysOwn(lim, s) <==> !Resplits(s)
  {
    hide Run, PermittedRun, Resplits, Plain;
    if Resplits(s) {
      KeyUniqueIff(0, s);
      var t :| Admitted(t) && CacheKey(0, t) == CacheKey(0, s) && t != s;
      var db := Database(map[1 := "e"], map[], map[(1, t) := "x"]);
      var acts := TwoSubjects(lim, db, t, s);
      NotOwn(db, t, s, Run(lim, Start(db), acts));
    } else {
      forall db, acts, i | PermittedRun(lim, Start(db), acts) && i in Run(lim, Start(db), acts).evaluations
                           && Run(lim, Start(db), acts).evaluations[i].subject == s
        ensures OwnOverrides(Run(lim, Start(db), acts), i)
      {
        if Run(lim, Start(db), acts).evaluations[i].stage.Done? {
          ReadYourWrites(lim, db, acts, i);
        }
      }
    }
  }

  // ---- the cache changed in place ----

  const MAX_OVERRIDES := 10000

  predicate Expired(m: map<string, Found>, k: string, now: Time, ttl: Time)
    requires k in m
  {
    now - m[k].loadedAt >= ttl
  }

  predicate OldestOf(m: map<string, Found>, k: string, keys: set<string>) {
    k in keys && k in m && forall j | j in keys && j in m :: m[k].loadedAt <= m[j].loadedAt
  }

  function ExpiredKeys(m: map<string, Found>, now: Time, ttl: Time): set<string> {
    set k | k in m && Expired(m, k, now, ttl)
  }

  /** After a full cache was walked: it lost only expired entries and is just below the limit, or it lost every expired
      entry and the oldest of the others. */
  ghost predicate Evicted(before: map<string, Found>, after: map<string, Found>, expired: set<string>) {
    || (exists gone :: gone <= expired && after == before - gone && |after| == MAX_OVERRIDES - 1)
    || (exists k :: OldestOf(before, k, before.Keys - expired) && after == before - expired - {k})
  }

  lemma RemoveOne(m: map<string, Found>, k: string)
    requires k in m
    ensures |m - {k}| == |m| - 1
  {
    assert (m - {k}).Keys == m.Keys - {k};
  }

  /** The walk so far: the expired entries among the seen keys are gone, and `oldest` is the oldest of the others. */
  predicate Walked(before: map<string, Found>, now: map<string, Found>, seen: set<string>, expired: set<string>,
                   oldest: Option<string>) {
    && seen <= before.Keys && now == before - (expired * seen)
    && if oldest.None? then seen <= expired else OldestOf(before, oldest.value, seen - expired)
  }

  lemma WalkStarts(before: map<string, Found>, expired: set<string>, order: seq<string>)
    ensures Walked(before, before, {}, expired, None) && Elements(order[..0]) == {}
  {
    assert expired * {} == {};
    assert before - {} == before;
  }

  lemma Unseen(before: map<string, Found>, now: map<string, Found>, seen: set<string>, expired: set<string>,
               oldest: Option<string>, key: string)
    requires Walked(before, now, seen, expired, oldest) && key in before && key !in seen
    ensures key in now && now[key] == before[key]
    ensures oldest.Some? ==> oldest.value in now && now[oldest.value] == before[oldest.value]
  {
  }

  lemma WalkExpired(before: map<string, Found>, now: map<string, Found>, seen: set<string>, expired: set<string>,
                    oldest: Option<string>, key: string)
    requires Walked(before, now, seen, expired, oldest) && key in before && key !in seen && key in expired
    ensures Walked(before, now - {key}, seen + {key}, expired, oldest)
  {
    assert expired * (seen + {key}) == expired * seen + {key};
    assert before - (expired * seen) - {key} == before - (expired * seen + {key});
    assert seen + {key} - expired == seen - expired;
  }

  lemma WalkUnexpired(before: map<string, Found>, now: map<string, Found>, seen: set<string>, expired: set<string>,
                      oldest: Option<string>, key: string)
    requires Walked(before, now, seen, expired, oldest) && key in before && key !in seen && key !in expired
    ensures var older := oldest.None? || before[key].loadedAt < before[oldest.value].loadedAt;
            Walked(before, now, seen + {key}, expired, if older then Some(key) else oldest)
  {
    assert expired * (seen + {key}) == expired * seen;
    assert seen + {key} - expired == (seen - expired) + {key};
  }

  lemma EvictedEarly(before: map<string, Found>, after: map<string, Found>, seen: set<string>, expired: set<string>,
                     oldest: Option<string>)
    requires Walked(before, after, seen, expired, oldest) && |after| == MAX_OVERRIDES - 1
    ensures Evicted(before, after, expired)
  {
    var gone := expired * seen;
    assert gone <= expired && after == before - gone;
  }

  lemma NextSeen(order: seq<string>, i: nat)
    requires Distinct(order) && i < |order|
    ensures order[i] in Elements(order) && order[i] !in Elements(order[..i])
    ensures Elements(order[..i + 1]) == Elements(order[..i]) + {order[i]}
  {
    assert order[..i + 1] == order[..i] + [order[i]];
  }

  /** One more key of the walk. */
  lemma WalkStep(before: map<string, Found>, cur: map<string, Found>, order: seq<string>, i: nat, now: Time, ttl: Time,
                 oldest: Option<string>)
    requires Distinct(order) && before.Keys == Elements(order) && i < |order|
    requires Walked(before, cur, Elements(order[..i]), ExpiredKeys(before, now, ttl), oldest)
    ensures var key, expired := order[i], ExpiredKeys(before, now, ttl);
            && key in cur && (oldest.Some? ==> oldest.value in cur)
            && if Expired(cur, key, now, ttl)
               then Walked(before, cur - {key}, Elements(order[..i + 1]), expired, oldest) && |cur - {key}| == |cur| - 1
                    && (|cur| == MAX_OVERRIDES ==> Evicted(before, cur - {key}, expired))
               else var older := oldest.None? || cur[key].loadedAt < cur[oldest.value].loadedAt;
                    Walked(before, cur, Elements(order[..i + 1]), expired, if older then Some(key) else oldest)
  {
    hide Walked, Distinct, Elements, Evicted;
    var key, expired, seen := order[i], ExpiredKeys(before, now, ttl), Elements(order[..i]);
    NextSeen(order, i);
    Unseen(before, cur, seen, expired, oldest, key);
    if Expired(cur, key, now, ttl) {
      RemoveOne(cur, key);
      WalkExpired(before, cur, seen, expired, oldest, key);
      if |cur| == MAX_OVERRIDES {
        EvictedEarly(before, cur - {key}, seen + {key}, expired, oldest);
      }
    } else {
      WalkUnexpired(before, cur, seen, expired, oldest, key);
    }
  }

  lemma WalkEnds(before: map<string, Found>, cur: map<string, Found>, order: seq<string>, now: Time, ttl: Time,
                 oldest: Option<string>)
    requires before.Keys == Elements(order) && |cur| > 0
    requires Walked(before, cur, Elements(order[..|order|]), ExpiredKeys(before, now, ttl), oldest)
    ensures oldest.Some? && oldest.value in cur && |cur - {oldest.value}| == |cur| - 1
    ensures Evicted(before, cur - {oldest.value}, ExpiredKeys(before, now, ttl))
  {
    var expired := ExpiredKeys(before, now, ttl);
    assert order[..|order|] == order;
    assert expired * before.Keys == expired;
    if oldest.None? {
      NoneLeft(before, expired);
      assert false;
    }
    RemoveOne(cur, oldest.value);
    assert before - expired - {oldest.value} == cur - {oldest.value};
  }

  lemma NoneLeft(m: map<string, Found>, keys: set<string>)
    requires m.Keys <= keys
    ensures m - keys == map[]
  {
  }

  class Service {
    var generation: nat
    var snapshot: Option<Snapshot>
    var overrides: map<string, Found>
    const overrideTTL: Time

    constructor (ttl: Time)
      ensures generation == 0 && snapshot == None && overrides == map[] && overrideTTL == ttl
    {
      generation, snapshot, overrides, overrideTTL := 0, None, map[], ttl;
    }

    /** The service's fields are the ones of the world. */
    predicate Shows(w: World)
      reads this
    {
      |w.history| > 0 && |w.bumpedAt| > 0 && generation == Generation(w) && snapshot == w.snapshot
        && overrides == w.overrides
    }

    /** The last thing an admin write does; `w` is the world it does it in. */
    method InvalidateLocal(ghost w: World, ghost id: nat)
      requires Shows(w) && id in w.writes && w.writes[id].step.ToBump?
      modifies this
      ensures Shows(Invalidated(w, id))
      ensures generation == old(generation) + 1 && snapshot == None && overrides == map[]
    {
      generation := generation + 1;
      snapshot := None;
      overrides := map[];
    }

    /** `order` is the order in which the map happens to be walked. A full cache loses expired entries until it is below
        the limit; when it has none left to lose, it loses its oldest entry. */
    method EvictOverrideEntry(order: seq<string>, now: Time)
      requires Distinct(order) && overrides.Keys == Elements(order)
      modifies this`overrides
      ensures |old(overrides)| < MAX_OVERRIDES ==> overrides == old(overrides)
      ensures |old(overrides)| >= MAX_OVERRIDES ==>
                Evicted(old(overrides), overrides, ExpiredKeys(old(overrides), now, overrideTTL))
      ensures |old(overrides)| == MAX_OVERRIDES ==> |overrides| == MAX_OVERRIDES - 1
    {
      hide Evicted, Walked, Distinct, Elements, ExpiredKeys;
      if |overrides| < MAX_OVERRIDES {
        return;
      }
      var oldest: Option<string> := None;
      ghost var before := overrides;
      ghost var expired := ExpiredKeys(before, now, overrideTTL);
      WalkStarts(before, expired, order);
      var i := 0;
      while i < |order|
        invariant 0 <= i <= |order|
        invariant MAX_OVERRIDES <= |overrides| <= |before|
        invariant Walked(before, overrides, Elements(order[..i]), expired, oldest)
      {
        var key := order[i];
        WalkStep(before, overrides, order, i, now, overrideTTL, oldest);
        if now - overrides[key].loadedAt >= overrideTTL {
          overrides := overrides - {key};
          if |overrides| < MAX_OVERRIDES {
            return;
          }
        } else if oldest.None? || overrides[key].loadedAt < overrides[oldest.value].loadedAt {
          oldest := Some(key);
        }
        i := i + 1;
      }
      WalkEnds(before, overrides, order, now, overrideTTL, oldest);
      overrides := overrides - {oldest.value};
    }
  }
}
