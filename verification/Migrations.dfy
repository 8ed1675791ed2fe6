/** The schema migration ledger: legacy backfill, gap checks, and runs that may fail or crash at any migration. */
module Migrations {
  import opened Common

  type Version = int

  datatype Migration = Migration(version: Version, hasApply: bool)

  datatype Plan<T> = Rejected | Planned(value: T)

  /** A version 3 marker attests that versions 1 to 3 all succeeded. */
  const LEGACY := 3

  /** The versions 1 to k. */
  function UpTo(k: int): (s: set<Version>)
    ensures forall v :: v in s <==> 1 <= v <= k
    ensures |s| == Max(k, 0)
    decreases Max(k, 0)
  {
    if k <= 0 then {} else UpTo(k - 1) + {k}
  }

  // ---- sorting ----

  function InsertInt(x: int, s: seq<int>): seq<int> {
    if s == [] || x <= s[0] then [x] + s else [s[0]] + InsertInt(x, s[1..])
  }

  /** sort.Ints. */
  function SortInts(s: seq<int>): seq<int> {
    if s == [] then [] else InsertInt(s[0], SortInts(s[1..]))
  }

  lemma {:induction false} InsertElements(x: int, s: seq<int>)
    ensures Elements(InsertInt(x, s)) == Elements(s) + {x}
  {
    if s != [] && x > s[0] {
      InsertElements(x, s[1..]);
      assert s == [s[0]] + s[1..];
      PrependElement(s[0], s[1..]);
      PrependElement(s[0], InsertInt(x, s[1..]));
    } else {
      PrependElement(x, s);
    }
  }

  lemma PrependElement(x: int, s: seq<int>)
    ensures Elements([x] + s) == {x} + Elements(s)
  {
  }

  lemma {:induction false} SortElements(s: seq<int>)
    ensures Elements(SortInts(s)) == Elements(s)
  {
    if s != [] {
      SortElements(s[1..]);
      InsertElements(s[0], SortInts(s[1..]));
      assert s == [s[0]] + s[1..];
      PrependElement(s[0], s[1..]);
    }
  }

  function InsertMigration(m: Migration, s: seq<Migration>): seq<Migration> {
    if s == [] || m.version <= s[0].version then [m] + s else [s[0]] + InsertMigration(m, s[1..])
  }

  predicate Ascending(s: seq<Migration>) {
    forall i, j | 0 <= i < j < |s| :: s[i].version <= s[j].version
  }

  /** sort.Slice by version. */
  function SortPlan(plan: seq<Migration>): (r: seq<Migration>)
    ensures multiset(r) == multiset(plan) && |r| == |plan| && Ascending(r)
  {
    if plan == [] then [] else
      var rest := SortPlan(plan[1..]);
      InsertedPermutes(plan[0], rest);
      InsertedAscends(plan[0], rest);
      assert plan == [plan[0]] + plan[1..];
      InsertMigration(plan[0], rest)
  }

  lemma {:induction false} InsertedPermutes(m: Migration, s: seq<Migration>)
    ensures var r := InsertMigration(m, s); multiset(r) == multiset(s) + multiset{m} && |r| == |s| + 1
  {
    hide Ascending;
    if s != [] && m.version > s[0].version {
      InsertedPermutes(m, s[1..]);
      assert s == [s[0]] + s[1..];
    }
  }

  lemma {:induction false} InsertedAscends(m: Migration, s: seq<Migration>)
    requires Ascending(s)
    ensures Ascending(InsertMigration(m, s))
    ensures InsertMigration(m, s) != [] && InsertMigration(m, s)[0] in [m] + s[..Min(1, |s|)]
  {
    if s != [] && m.version > s[0].version {
      InsertedAscends(m, s[1..]);
      AscendsFrom(s[0], InsertMigration(m, s[1..]));
    }
  }

  lemma AscendsFrom(m: Migration, s: seq<Migration>)
    requires Ascending(s) && (s == [] || m.version <= s[0].version)
    ensures Ascending([m] + s)
  {
  }

  // ---- what a run does to the ledger ----

  ghost predicate IsMax(s: set<Version>, m: int) {
    m >= 0 && (m == 0 || m in s) && forall v | v in s :: v <= m
  }

  /** legacyMigrationBackfill: a ledger whose newest version is at most 3 is completed below it. */
  ghost predicate Legacy(ledger: set<Version>, m: int) {
    IsMax(ledger, m) && 0 < m <= LEGACY
  }

  ghost function Backfilled(ledger: set<Version>): set<Version> {
    if exists m :: Legacy(ledger, m) then
      var m :| Legacy(ledger, m);
      ledger + UpTo(m)
    else ledger
  }

  /** The plan is 1, 2, ..., n and every migration can be applied. */
  ghost predicate GoodPlan(plan: seq<Migration>) {
    forall i | 0 <= i < |plan| :: SortPlan(plan)[i].version == i + 1 && SortPlan(plan)[i].hasApply
  }

  predicate VersionsDiffer(s: seq<Migration>) {
    forall i, j | 0 <= i < j < |s| :: s[i].version != s[j].version
  }

  predicate Usable(s: seq<Migration>) {
    forall i | 0 <= i < |s| :: 1 <= s[i].version <= |s| && s[i].hasApply
  }

  /** A plan is good exactly when each version from 1 to its length occurs once and every migration can be applied, in
      whatever order the plan lists them. */
  lemma GoodPlanIff(plan: seq<Migration>)
    ensures GoodPlan(plan) <==> Usable(plan) && VersionsDiffer(plan)
  {
    var sorted := SortPlan(plan);
    if GoodPlan(plan) {
      UsableTransfers(sorted, plan);
      DifferTransfers(sorted, plan);
    }
    if Usable(plan) && VersionsDiffer(plan) {
      UsableTransfers(plan, sorted);
      DifferTransfers(plan, sorted);
      forall i | 0 <= i < |sorted| ensures sorted[i].version == i + 1 {
        AtLeast(sorted, 0, i);
        AtLeast(sorted, i, |sorted| - 1);
      }
    }
  }

  lemma UsableTransfers(s: seq<Migration>, t: seq<Migration>)
    requires multiset(s) == multiset(t) && |s| == |t| && Usable(s)
    ensures Usable(t)
  {
    forall i | 0 <= i < |t| ensures t[i] in s {
      assert t[i] in multiset(t) && t[i] in multiset(s);
    }
  }

  lemma DifferTransfers(s: seq<Migration>, t: seq<Migration>)
    requires multiset(s) == multiset(t) && VersionsDiffer(s)
    ensures VersionsDiffer(t)
  {
    forall i, j | 0 <= i < j < |t| ensures t[i].version != t[j].version {
      assert t[i] in multiset(t) && t[j] in multiset(t);
      assert t[i] in s && t[j] in s;
      if t[i] == t[j] {
        Twice(t, i, j);
        TwicePlaces(s, t[i]);
        assert false;
      }
    }
  }

  lemma Twice(s: seq<Migration>, i: nat, j: nat)
    requires i < j < |s| && s[i] == s[j]
    ensures multiset(s)[s[i]] >= 2
  {
    assert s == s[..j] + [s[j]] + s[j + 1..];
    assert s[..j][i] == s[i];
  }

  lemma TwicePlaces(s: seq<Migration>, m: Migration)
    requires multiset(s)[m] >= 2
    ensures exists i, j :: 0 <= i < j < |s| && s[i] == m && s[j] == m
  {
    var i :| 0 <= i < |s| && s[i] == m;
    assert s == s[..i] + [m] + s[i + 1..];
    if m in s[..i] {
      var j :| 0 <= j < i && s[..i][j] == m;
      assert s[j] == m;
    } else {
      assert m in s[i + 1..];
      var j :| 0 <= j < |s[i + 1..]| && s[i + 1..][j] == m;
      assert s[i + 1 + j] == m;
    }
  }

  lemma {:induction false} AtLeast(s: seq<Migration>, i: nat, j: nat)
    requires Ascending(s) && VersionsDiffer(s) && i <= j < |s|
    ensures s[j].version - s[i].version >= j - i
  {
    if i < j {
      AtLeast(s, i, j - 1);
    }
  }

  /** The checks of pendingMigrations on the applied versions. */
  ghost predicate GoodLedger(n: nat, applied: set<Version>) {
    (forall v | v in applied :: 0 < v <= n) && UpTo(|applied|) <= applied
  }

  method LegacyMigrationBackfill(applied: seq<Version>) returns (missing: seq<Version>, normalized: seq<Version>)
    ensures Elements(normalized) == Backfilled(Elements(applied))
    ensures Elements(missing) == Backfilled(Elements(applied)) - Elements(applied)
  {
    hide Elements, UpTo, Backfilled, SortInts, IsMax;
    var appliedSet: set<Version> := {};
    var maxVersion := 0;
    NoElements(applied);
    for i := 0 to |applied|
      invariant appliedSet == Elements(applied[..i]) && IsMax(appliedSet, maxVersion)
    {
      NextElement(applied, i);
      NextMax(appliedSet, maxVersion, applied[i]);
      appliedSet := appliedSet + {applied[i]};
      if applied[i] > maxVersion {
        maxVersion := applied[i];
      }
    }
    assert applied[..|applied|] == applied;
    MaxDecides(appliedSet, maxVersion);
    if maxVersion <= 0 || maxVersion > LEGACY {
      return [], applied;
    }
    missing := [];
    var version := 1;
    while version <= maxVersion
      invariant 1 <= version <= maxVersion + 1
      invariant Elements(missing) == UpTo(version - 1) - Elements(applied)
      invariant appliedSet == Elements(applied) + UpTo(version - 1)
    {
      BackfillNext(Elements(applied), missing, version);
      if version !in appliedSet {
        missing := missing + [version];
        appliedSet := appliedSet + {version};
      }
      version := version + 1;
    }
    BackfillDone(applied, missing, maxVersion);
    normalized := SortInts(applied + missing);
  }

  lemma BackfillNext(applied: set<Version>, missing: seq<Version>, version: Version)
    requires version > 0 && Elements(missing) == UpTo(version - 1) - applied
    ensures var done := applied + UpTo(version - 1);
            if version in done then Elements(missing) == UpTo(version) - applied && done == applied + UpTo(version)
            else Elements(missing + [version]) == UpTo(version) - applied && done + {version} == applied + UpTo(version)
  {
    AppendElement(missing, version);
    assert UpTo(version) == UpTo(version - 1) + {version};
  }

  lemma BackfillDone(applied: seq<Version>, missing: seq<Version>, m: int)
    requires Elements(missing) == UpTo(m) - Elements(applied)
    ensures Elements(SortInts(applied + missing)) == Elements(applied) + UpTo(m)
    ensures Elements(missing) == Elements(applied) + UpTo(m) - Elements(applied)
  {
    SortElements(applied + missing);
    assert Elements(applied + missing) == Elements(applied) + Elements(missing);
  }

  lemma NoElements(s: seq<int>)
    ensures Elements(s[..0]) == {} && IsMax({}, 0) && Elements<Version>([]) == {} && UpTo(0) == {}
  {
  }

  lemma NextMax(s: set<Version>, m: int, v: Version)
    requires IsMax(s, m)
    ensures IsMax(s + {v}, Max(v, m))
  {
  }

  lemma NextElement(s: seq<int>, i: nat)
    requires i < |s|
    ensures Elements(s[..i + 1]) == Elements(s[..i]) + {s[i]}
  {
  }

  lemma AppendElement(s: seq<int>, x: int)
    ensures Elements(s + [x]) == Elements(s) + {x}
  {
  }

  lemma MaxDecides(ledger: set<Version>, m: int)
    requires IsMax(ledger, m)
    ensures Backfilled(ledger) == if 0 < m <= LEGACY then ledger + UpTo(m) else ledger
  {
    if 0 < m <= LEGACY {
      assert Legacy(ledger, m);
    }
  }

  /** pendingMigrations. */
  method PendingMigrations(plan: seq<Migration>, applied: seq<Version>) returns (result: Plan<seq<Version>>)
    ensures result.Planned? <==> GoodPlan(plan) && GoodLedger(|plan|, Elements(applied))
    ensures result.Planned? ==> result.value == Interval(|Elements(applied)|, |plan|)
  {
    hide Elements, UpTo, Interval, SortPlan;
    var ordered := SortPlan(plan);
    for i := 0 to |ordered|
      invariant forall j | 0 <= j < i :: ordered[j].version == j + 1 && ordered[j].hasApply
    {
      if ordered[i].version != i + 1 || !ordered[i].hasApply {
        return Rejected;
      }
    }
    var appliedSet: set<Version> := {};
    NoElements(applied);
    for i := 0 to |applied|
      invariant appliedSet == Elements(applied[..i])
      invariant forall v | v in appliedSet :: 0 < v <= |ordered|
    {
      NextElement(applied, i);
      if applied[i] <= 0 || applied[i] > |ordered| {
        IsElement(applied, i);
        return Rejected;
      }
      appliedSet := appliedSet + {applied[i]};
    }
    assert applied[..|applied|] == applied;
    var version := 1;
    while version <= |appliedSet|
      invariant 1 <= version <= |appliedSet| + 1
      invariant UpTo(version - 1) <= appliedSet
    {
      if version !in appliedSet {
        assert version in UpTo(|appliedSet|);
        return Rejected;
      }
      version := version + 1;
    }
    NoGap(appliedSet);
    var pending: seq<Version> := [];
    PendingNext(|appliedSet|, 0);
    for i := 0 to |ordered|
      invariant pending == Interval(|appliedSet|, Max(i, |appliedSet|))
    {
      PendingNext(|appliedSet|, i);
      if ordered[i].version !in appliedSet {
        pending := pending + [ordered[i].version];
      }
    }
    Within(appliedSet, |ordered|);
    result := Planned(pending);
  }

  /** a + 1, a + 2, ..., b. */
  function Interval(a: int, b: int): seq<Version>
    decreases Max(b - a, 0)
  {
    if a >= b then [] else Interval(a, b - 1) + [b]
  }

  /** By counting: a set that contains 1 to its own size contains nothing else. */
  lemma NoGap(s: set<Version>)
    requires UpTo(|s|) <= s
    ensures s == UpTo(|s|)
  {
    SameSize(UpTo(|s|), s);
  }

  lemma SameSize(a: set<Version>, b: set<Version>)
    requires a <= b && |a| == |b|
    ensures a == b
  {
    assert b == a + (b - a) && |b - a| == 0;
  }

  lemma IsElement(s: seq<int>, i: nat)
    requires i < |s|
    ensures s[i] in Elements(s)
  {
  }

  lemma PendingNext(k: nat, i: nat)
    ensures Interval(k, k) == [] && (i >= k ==> Interval(k, i + 1) == Interval(k, i) + [i + 1])
  {
  }

  // ---- which ledgers are accepted ----

  /** After backfill an accepted ledger is exactly 1 to k for some k within the plan, and every such ledger is. */
  lemma AcceptedIffPrefix(n: nat, ledger: set<Version>)
    ensures GoodLedger(n, ledger) <==> |ledger| <= n && ledger == UpTo(|ledger|)
  {
    if GoodLedger(n, ledger) {
      NoGap(ledger);
      Within(ledger, n);
    }
  }

  lemma Within(s: set<Version>, n: nat)
    requires forall v | v in s :: 0 < v <= n
    ensures |s| <= n
  {
    Smaller(s, UpTo(n));
  }

  lemma Smaller(a: set<Version>, b: set<Version>)
    requires a <= b
    ensures |a| <= |b|
  {
    assert b == a + (b - a);
  }

  /** A ledger reaching beyond version 3 is accepted only without a gap; one that stays within the first three versions
      is always accepted. */
  lemma GapsAreRejected(n: nat, ledger: set<Version>, m: int)
    requires IsMax(ledger, m) && (forall v | v in ledger :: v > 0)
    ensures m > 3 ==> (GoodLedger(n, Backfilled(ledger)) <==> m <= n && ledger == UpTo(m))
    ensures m > 3 ==> Backfilled(ledger) == ledger
    ensures m <= 3 ==> (GoodLedger(n, Backfilled(ledger)) <==> m <= n) && Backfilled(ledger) == UpTo(m)
  {
    MaxDecides(ledger, m);
    if 0 < m <= LEGACY {
      assert ledger + UpTo(m) == UpTo(m);
    } else if m == 0 {
      assert ledger == UpTo(0);
    }
    AcceptedIffPrefix(n, Backfilled(ledger));
    if m > LEGACY && GoodLedger(n, ledger) {
      assert m in UpTo(|ledger|) && (|ledger| > 0 ==> |ledger| in ledger);
    }
  }

  // ---- runs that may stop anywhere ----

  /** `committed` lists the migrations applied, each in one transaction with its ledger row. */
  datatype Database = Database(ledger: set<Version>, committed: seq<Version>)

  /** A run whose first j pending migrations go through; the next one, if any, fails or the process dies. */
  ghost function RunPlan(plan: seq<Migration>, db: Database, j: nat): (Database, bool) {
    var ledger := Backfilled(db.ledger);
    if !GoodPlan(plan) || !GoodLedger(|plan|, ledger) then (db.(ledger := ledger), false)
    else
      var upto := Max(|ledger|, Min(|ledger| + j, |plan|));
      (Database(ledger + UpTo(upto), db.committed + Interval(|ledger|, upto)), |ledger| + j >= |plan|)
  }

  function Leading(succeeds: Version -> bool, versions: seq<Version>): nat {
    if versions == [] || !succeeds(versions[0]) then 0 else 1 + Leading(succeeds, versions[1..])
  }

  class Migrator {
    var ledger: set<Version>
    var committed: seq<Version>

    ghost function Value(): Database
      reads this
    {
      Database(ledger, committed)
    }

    constructor (rows: set<Version>)
      ensures Value() == Database(rows, [])
    {
      ledger, committed := rows, [];
    }

    /** normalizeLegacyMigrationLedger. */
    method NormalizeLedger(applied: seq<Version>) returns (normalized: seq<Version>)
      requires Elements(applied) == ledger
      modifies this`ledger
      ensures ledger == Backfilled(old(ledger)) == Elements(normalized)
    {
      hide Backfilled, Elements;
      var missing;
      missing, normalized := LegacyMigrationBackfill(applied);
      MissingElements(ledger, missing);
      NoElements(missing);
      for i := 0 to |missing|
        invariant ledger == old(ledger) + Elements(missing[..i])
      {
        NextElement(missing, i);
        ledger := ledger + {missing[i]};
      }
      assert missing[..|missing|] == missing;
    }

    /** One transaction per migration: the change and its ledger row. */
    method Commit(v: Version)
      modifies this
      ensures ledger == old(ledger) + {v} && committed == old(committed) + [v]
    {
      ledger, committed := ledger + {v}, committed + [v];
    }

    method ApplyPending(pending: seq<Version>, succeeds: Version -> bool, ghost k: nat, ghost n: nat) returns (ok: bool)
      requires k <= n && pending == Interval(k, n) && ledger == UpTo(k)
      modifies this
      ensures var j := Leading(succeeds, pending);
              j <= n - k && ledger == UpTo(k + j) && committed == old(committed) + Interval(k, k + j)
                && ok == (j == n - k)
    {
      hide Interval, UpTo, Leading;
      ghost var before := committed;
      IntervalFacts(k, n, 0);
      for i := 0 to |pending|
        invariant ledger == UpTo(k + i) && committed == before + Interval(k, k + i)
        invariant forall j | 0 <= j < i :: succeeds(pending[j])
      {
        CommitNext(before, pending, k, n, i);
        if !succeeds(pending[i]) {
          LeadingIs(succeeds, pending, i);
          return false;
        }
        Commit(pending[i]);
      }
      LeadingIs(succeeds, pending, |pending|);
      return true;
    }

    /** runMigrationPlan; `applied` is what the ledger query returned, `succeeds` says which migrations go through. */
    method RunMigrationPlan(plan: seq<Migration>, applied: seq<Version>, succeeds: Version -> bool) returns (ok: bool)
      requires Elements(applied) == ledger
      modifies this
      ensures var k := |Backfilled(old(ledger))|;
              (Value(), ok) == RunPlan(plan, old(Value()), Leading(succeeds, Interval(k, |plan|)))
    {
      hide GoodPlan, GoodLedger, Backfilled, Interval, UpTo, Elements, Leading;
      var normalized := NormalizeLedger(applied);
      var result := PendingMigrations(plan, normalized);
      if result.Rejected? {
        return false;
      }
      AcceptedIffPrefix(|plan|, ledger);
      ghost var k := |ledger|;
      ok := ApplyPending(result.value, succeeds, k, |plan|);
      PrefixUnion(k, k + Leading(succeeds, result.value));
    }
  }

  lemma MissingElements(ledger: set<Version>, missing: seq<Version>)
    requires Elements(missing) == Backfilled(ledger) - ledger
    ensures ledger + (set v | v in missing) == Backfilled(ledger)
  {
  }

  lemma {:induction false} IntervalFacts(k: nat, n: nat, i: nat)
    requires k <= n && i <= n - k
    ensures |Interval(k, n)| == n - k && Interval(k, k) == []
    ensures i < n - k ==> Interval(k, n)[i] == k + i + 1 && Interval(k, k + i + 1) == Interval(k, k + i) + [k + i + 1]
    ensures UpTo(k + i + 1) == UpTo(k + i) + {k + i + 1}
    decreases n
  {
    if k < n {
      IntervalFacts(k, n - 1, Min(i, n - 1 - k));
    }
  }

  /** The next commit of a run, in the ledger and in the list of commits. */
  lemma CommitNext(before: seq<Version>, pending: seq<Version>, k: nat, n: nat, i: nat)
    requires k <= n && i < n - k && pending == Interval(k, n) && |pending| == n - k
    ensures UpTo(k + i) + {pending[i]} == UpTo(k + (i + 1))
    ensures before + Interval(k, k + i) + [pending[i]] == before + Interval(k, k + (i + 1))
  {
    hide Interval, UpTo;
    IntervalFacts(k, n, i);
    assert k + (i + 1) == k + i + 1;
    assert before + Interval(k, k + i) + [pending[i]] == before + (Interval(k, k + i) + [pending[i]]);
  }

  lemma {:induction false} LeadingIs(succeeds: Version -> bool, s: seq<Version>, i: nat)
    requires i <= |s| && (forall j | 0 <= j < i :: succeeds(s[j])) && (i == |s| || !succeeds(s[i]))
    ensures Leading(succeeds, s) == i
  {
    if i > 0 {
      LeadingIs(succeeds, s[1..], i - 1);
    }
  }

  lemma PrefixUnion(k: nat, m: nat)
    requires k <= m
    ensures UpTo(k) + UpTo(m) == UpTo(m)
  {
  }

  ghost function Runs(plan: seq<Migration>, db: Database, stops: seq<nat>): Database
    decreases |stops|
  {
    if stops == [] then db else Runs(plan, RunPlan(plan, db, stops[0]).0, stops[1..])
  }

  lemma BackfillKeepsPrefix(m: nat)
    ensures Backfilled(UpTo(m)) == UpTo(m)
  {
  }

  /** One run from a prefix: it leaves a longer prefix and commits exactly the migrations in between, in order. */
  lemma RunExtends(plan: seq<Migration>, db: Database, k: nat, j: nat)
    requires GoodPlan(plan) && k <= |plan| && Backfilled(db.ledger) == UpTo(k)
    ensures var m := Min(k + j, |plan|);
            RunPlan(plan, db, j) == (Database(UpTo(m), db.committed + Interval(k, m)), m == |plan|)
  {
    hide GoodPlan, GoodLedger, Backfilled, Interval, UpTo;
    AcceptedIffPrefix(|plan|, UpTo(k));
    PrefixUnion(k, Min(k + j, |plan|));
  }

  /** A run that finds its plan or ledger bad commits nothing; only the backfill stays. */
  lemma BadRunCommitsNothing(plan: seq<Migration>, db: Database, j: nat)
    requires !GoodPlan(plan) || Backfilled(db.ledger) != UpTo(|Backfilled(db.ledger)|)
             || |plan| < |Backfilled(db.ledger)|
    ensures RunPlan(plan, db, j) == (Database(Backfilled(db.ledger), db.committed), false)
  {
    hide GoodPlan, Backfilled, UpTo;
    AcceptedIffPrefix(|plan|, Backfilled(db.ledger));
  }

  lemma {:induction false} IntervalJoins(a: int, b: int, c: int)
    requires a <= b <= c
    ensures Interval(a, b) + Interval(b, c) == Interval(a, c)
    decreases c - b
  {
    if b < c {
      IntervalJoins(a, b, c - 1);
      assert Interval(a, b) + (Interval(b, c - 1) + [c]) == (Interval(a, b) + Interval(b, c - 1)) + [c];
    }
  }

  function Total(stops: seq<nat>): nat {
    if stops == [] then 0 else stops[0] + Total(stops[1..])
  }

  /** However often runs fail or die, the ledger stays a prefix and each migration above the initial one is committed
      once, in order; enough progress completes the plan, and runs on a complete ledger commit nothing. */
  lemma {:induction false} RunsComplete(plan: seq<Migration>, db: Database, k: nat, stops: seq<nat>)
    requires GoodPlan(plan) && k <= |plan| && Backfilled(db.ledger) == UpTo(k)
    ensures var after, m := Runs(plan, db, stops), Min(k + Total(stops), |plan|);
            && (stops != [] ==> after.ledger == UpTo(m))
            && after.committed == db.committed + Interval(k, m)
    decreases |stops|
  {
    hide GoodPlan, Backfilled, UpTo, RunPlan, Interval;
    IntervalFacts(k, |plan|, 0);
    if stops != [] {
      var m := Min(k + stops[0], |plan|);
      var next := RunPlan(plan, db, stops[0]).0;
      RunExtends(plan, db, k, stops[0]);
      BackfillKeepsPrefix(m);
      RunsComplete(plan, next, m, stops[1..]);
      var last := Min(m + Total(stops[1..]), |plan|);
      assert last == Min(k + Total(stops), |plan|);
      CommittedJoins(db.committed, k, m, last);
    }
  }

  lemma CommittedJoins(before: seq<Version>, a: int, b: int, c: int)
    requires a <= b <= c
    ensures before + Interval(a, b) + Interval(b, c) == before + Interval(a, c)
  {
    IntervalJoins(a, b, c);
    assert before + Interval(a, b) + Interval(b, c) == before + (Interval(a, b) + Interval(b, c));
  }
}
