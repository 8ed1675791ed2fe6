/** Traffic bucketing: a subject's bucket picks the group whose share of the cumulative traffic contains it. */
module Traffic {
  import opened Common

  const BUCKETS := 10000

  /** A group of an experiment; `traffic` is its share in basis points, which the store keeps non-negative. */
  datatype Group = Group(id: int, key: string, traffic: nat)

  /** sort.SliceStable by id. */
  function Insert(g: Group, s: seq<Group>): seq<Group> {
    if s == [] then [g] else if s[0].id < g.id then [s[0]] + Insert(g, s[1..]) else [g] + s
  }

  function StableSort(s: seq<Group>): seq<Group> {
    if s == [] then [] else Insert(s[0], StableSort(s[1..]))
  }

  function Cumulative(s: seq<Group>, n: nat): nat
    requires n <= |s|
  {
    if n == 0 then 0 else Cumulative(s, n - 1) + s[n - 1].traffic
  }

  ghost predicate Sorted(s: seq<Group>) {
    forall i, j | 0 <= i < j < |s| :: s[i].id <= s[j].id
  }

  ghost predicate DistinctIds(s: seq<Group>) {
    forall i, j | 0 <= i < j < |s| :: s[i].id != s[j].id
  }

  /** The traffic of all groups with a smaller id, in whatever order the groups come. */
  function Below(s: seq<Group>, id: int): nat {
    if s == [] then 0 else (if s[0].id < id then s[0].traffic else 0) + Below(s[1..], id)
  }

  /** What a subject gets: the group whose interval of the cumulative traffic contains its bucket. */
  predicate Owns(groups: seq<Group>, g: Group, bucket: nat) {
    g in groups && Below(groups, g.id) <= bucket < Below(groups, g.id) + g.traffic
  }

  /** selectGroup: a force-group override names the group; otherwise the first group whose cumulative share exceeds the
      bucket is chosen. */
  method SelectGroup(groups: seq<Group>, forced: Option<string>, bucket: nat) returns (chosen: Option<Group>)
    ensures forced == None && DistinctIds(groups) && chosen.Some? ==> Owns(groups, chosen.value, bucket)
    ensures forced == None && DistinctIds(groups) && chosen.None? ==> forall g | g in groups :: !Owns(groups, g, bucket)
    ensures forced.Some? && chosen.Some? ==>
              chosen.value in groups && chosen.value.key == forced.value
              && forall g | g in groups && g.key == forced.value :: chosen.value.id <= g.id
    ensures forced.Some? && chosen.None? ==> forall g | g in groups :: g.key != forced.value
  {
    var sorted := StableSort(groups);
    SortSorts(groups);
    if forced.Some? {
      for i := 0 to |sorted|
        invariant forall j | 0 <= j < i :: sorted[j].key != forced.value
      {
        if sorted[i].key == forced.value {
          InSorted(groups);
          return Some(sorted[i]);
        }
      }
      InSorted(groups);
      return None;
    }
    var upper := 0;
    for i := 0 to |sorted|
      invariant upper == Cumulative(sorted, i) <= bucket
    {
      upper := upper + sorted[i].traffic;
      if bucket < upper {
        if DistinctIds(groups) {
          Position(groups, i);
        }
        return Some(sorted[i]);
      }
    }
    if DistinctIds(groups) {
      forall g | g in groups ensures !Owns(groups, g, bucket) {
        InSorted(groups);
        var i :| 0 <= i < |sorted| && sorted[i] == g;
        Position(groups, i);
        CumulativeGrows(sorted, i + 1, |sorted|);
      }
    }
    return None;
  }

  // ---- sorting ----

  lemma {:induction false} InsertKeeps(g: Group, s: seq<Group>)
    ensures multiset(Insert(g, s)) == multiset{g} + multiset(s)
    ensures forall h :: h in Insert(g, s) <==> h == g || h in s
  {
    if s != [] && s[0].id < g.id {
      InsertKeeps(g, s[1..]);
      assert s == [s[0]] + s[1..];
    }
  }

  lemma {:induction false} InsertSorts(g: Group, s: seq<Group>)
    requires Sorted(s)
    ensures Sorted(Insert(g, s))
  {
    if s != [] && s[0].id < g.id {
      InsertSorts(g, s[1..]);
      InsertKeeps(g, s[1..]);
      var rest := Insert(g, s[1..]);
      forall i | 0 <= i < |rest| ensures s[0].id <= rest[i].id {
        assert rest[i] in rest;
      }
    }
  }

  lemma {:induction false} InsertBelow(g: Group, s: seq<Group>, x: int)
    ensures Below(Insert(g, s), x) == (if g.id < x then g.traffic else 0) + Below(s, x)
  {
    if s != [] && s[0].id < g.id {
      InsertBelow(g, s[1..], x);
      assert ([s[0]] + Insert(g, s[1..]))[1..] == Insert(g, s[1..]);
    } else {
      assert ([g] + s)[1..] == s;
    }
  }

  lemma {:induction false} SortSorts(s: seq<Group>)
    ensures Sorted(StableSort(s)) && multiset(StableSort(s)) == multiset(s)
  {
    if s != [] {
      SortSorts(s[1..]);
      InsertSorts(s[0], StableSort(s[1..]));
      InsertKeeps(s[0], StableSort(s[1..]));
      assert s == [s[0]] + s[1..];
    }
  }

  lemma {:induction false} SortBelow(s: seq<Group>, x: int)
    ensures Below(StableSort(s), x) == Below(s, x)
  {
    if s != [] {
      SortBelow(s[1..], x);
      InsertBelow(s[0], StableSort(s[1..]), x);
    }
  }

  lemma InSorted(s: seq<Group>)
    ensures forall g :: g in StableSort(s) <==> g in s
  {
    SortSorts(s);
    forall g ensures g in StableSort(s) <==> g in s {
      assert g in StableSort(s) <==> g in multiset(StableSort(s));
      assert g in s <==> g in multiset(s);
    }
  }

  lemma {:induction false} InsertDistinct(g: Group, s: seq<Group>)
    requires DistinctIds(s) && forall h | h in s :: h.id != g.id
    ensures DistinctIds(Insert(g, s))
  {
    if s != [] && s[0].id < g.id {
      InsertDistinct(g, s[1..]);
      InsertKeeps(g, s[1..]);
      var rest := Insert(g, s[1..]);
      forall i | 0 <= i < |rest| ensures s[0].id != rest[i].id {
        assert rest[i] in rest;
      }
    }
  }

  lemma {:induction false} SortDistinct(s: seq<Group>)
    requires DistinctIds(s)
    ensures DistinctIds(StableSort(s))
  {
    if s != [] {
      SortDistinct(s[1..]);
      InSorted(s[1..]);
      forall h | h in s[1..] ensures h.id != s[0].id {
      }
      InsertDistinct(s[0], StableSort(s[1..]));
    }
  }

  // ---- cumulative shares ----

  lemma {:induction false} CumulativeGrows(s: seq<Group>, i: nat, j: nat)
    requires i <= j <= |s|
    ensures Cumulative(s, i) <= Cumulative(s, j)
  {
    if i < j {
      CumulativeGrows(s, i, j - 1);
    }
  }

  lemma {:induction false} CumulativeFront(s: seq<Group>, n: nat)
    requires 0 < n <= |s|
    ensures Cumulative(s, n) == s[0].traffic + Cumulative(s[1..], n - 1)
  {
    if n > 1 {
      CumulativeFront(s, n - 1);
    }
  }

  lemma {:induction false} BelowNothing(s: seq<Group>, x: int)
    requires forall g | g in s :: g.id >= x
    ensures Below(s, x) == 0
  {
    if s != [] {
      BelowNothing(s[1..], x);
    }
  }

  lemma {:induction false} BelowIsCumulative(s: seq<Group>, i: nat)
    requires Sorted(s) && DistinctIds(s) && i < |s|
    ensures Below(s, s[i].id) == Cumulative(s, i)
  {
    if i == 0 {
      BelowNothing(s, s[0].id);
    } else {
      BelowIsCumulative(s[1..], i - 1);
      CumulativeFront(s, i);
    }
  }

  /** The group in place i of the sorted list owns the interval of buckets the loop passes there. */
  lemma Position(groups: seq<Group>, i: nat)
    requires DistinctIds(groups) && i < |StableSort(groups)|
    ensures var s := StableSort(groups);
            s[i] in groups && Below(groups, s[i].id) == Cumulative(s, i)
            && Below(groups, s[i].id) + s[i].traffic == Cumulative(s, i + 1)
  {
    SortSorts(groups);
    SortDistinct(groups);
    InSorted(groups);
    BelowIsCumulative(StableSort(groups), i);
    SortBelow(groups, StableSort(groups)[i].id);
  }

  // ---- the partition of the buckets ----

  lemma {:induction false} BelowOfPair(s: seq<Group>, g: Group, h: Group)
    requires DistinctIds(s) && g in s && g.id < h.id
    ensures Below(s, g.id) + g.traffic <= Below(s, h.id)
  {
    BelowMonotone(s[1..], g.id, h.id);
    if s[0] != g {
      BelowOfPair(s[1..], g, h);
    }
  }

  lemma {:induction false} BelowMonotone(s: seq<Group>, x: int, y: int)
    requires x <= y
    ensures Below(s, x) <= Below(s, y)
  {
    if s != [] {
      BelowMonotone(s[1..], x, y);
    }
  }

  /** No bucket has two owners. */
  lemma OneOwner(groups: seq<Group>, g: Group, h: Group, bucket: nat)
    requires DistinctIds(groups) && Owns(groups, g, bucket) && Owns(groups, h, bucket)
    ensures g == h
  {
    if g.id < h.id {
      BelowOfPair(groups, g, h);
    } else if h.id < g.id {
      BelowOfPair(groups, h, g);
    }
  }

  function Interval(a: nat, b: nat): set<nat>
    decreases b
  {
    if a < b then Interval(a, b - 1) + {b - 1} else {}
  }

  lemma {:induction false} IntervalSize(a: nat, b: nat)
    requires a <= b
    ensures |Interval(a, b)| == b - a && forall x: nat :: x in Interval(a, b) <==> a <= x < b
    decreases b
  {
    if a < b {
      IntervalSize(a, b - 1);
    }
  }

  /** Each group gets exactly its share of the 10000 buckets, cut off where the shares before it have used them up. */
  lemma ShareOfBuckets(groups: seq<Group>, g: Group)
    requires DistinctIds(groups) && g in groups
    ensures var lo := Below(groups, g.id);
            |(set b: nat | b < 10_000 && Owns(groups, g, b))| == Min(10_000, lo + g.traffic) - Min(10_000, lo)
  {
    var lo := Below(groups, g.id);
    var from, to := Min(BUCKETS, lo), Min(BUCKETS, lo + g.traffic);
    IntervalSize(from, to);
    assert (set b: nat | b < BUCKETS && Owns(groups, g, b)) == Interval(from, to);
  }

  // ---- order independence and stability ----

  lemma {:induction false} BelowWithout(s: seq<Group>, i: nat, x: int)
    requires i < |s|
    ensures Below(s, x) == Below(s[..i] + s[i + 1..], x) + (if s[i].id < x then s[i].traffic else 0)
  {
    if i == 0 {
      assert s[..0] + s[1..] == s[1..];
    } else {
      BelowWithout(s[1..], i - 1, x);
      assert (s[..i] + s[i + 1..])[1..] == s[1..][..i - 1] + s[1..][i..];
    }
  }

  lemma RemoveAt(s: seq<Group>, i: nat)
    requires i < |s|
    ensures multiset(s) == multiset(s[..i] + s[i + 1..]) + multiset{s[i]}
  {
    assert s == s[..i] + [s[i]] + s[i + 1..];
  }

  lemma SameRest(s: seq<Group>, t: seq<Group>, i: nat)
    requires multiset(s) == multiset(t) && s != [] && i < |t| && t[i] == s[0]
    ensures multiset(s[1..]) == multiset(t[..i] + t[i + 1..])
  {
    RemoveAt(t, i);
    assert s == [s[0]] + s[1..];
    Cancel(multiset(s[1..]), multiset(t[..i] + t[i + 1..]), s[0]);
  }

  lemma Cancel(a: multiset<Group>, b: multiset<Group>, g: Group)
    requires a + multiset{g} == b + multiset{g}
    ensures a == b
  {
    assert a == (a + multiset{g}) - multiset{g};
    assert b == (b + multiset{g}) - multiset{g};
  }

  lemma {:induction false} BelowPermuted(s: seq<Group>, t: seq<Group>, x: int)
    requires multiset(s) == multiset(t)
    ensures Below(s, x) == Below(t, x)
  {
    if s == [] {
      assert multiset(t) == multiset{};
    } else {
      assert s[0] in multiset(t);
      var i :| 0 <= i < |t| && t[i] == s[0];
      var u := t[..i] + t[i + 1..];
      SameRest(s, t, i);
      BelowPermuted(s[1..], u, x);
      BelowWithout(t, i, x);
    }
  }

  /** Who owns a bucket does not depend on the order in which the groups are listed. */
  lemma OrderDoesNotMatter(groups: seq<Group>, reordered: seq<Group>, g: Group, bucket: nat)
    requires multiset(groups) == multiset(reordered)
    ensures Owns(groups, g, bucket) <==> Owns(reordered, g, bucket)
  {
    BelowPermuted(groups, reordered, g.id);
    assert g in groups <==> g in multiset(groups);
    assert g in reordered <==> g in multiset(reordered);
  }

  function UpTo(s: seq<Group>, id: int): seq<Group> {
    if s == [] then [] else (if s[0].id <= id then [s[0]] else []) + UpTo(s[1..], id)
  }

  lemma {:induction false} BelowUpTo(s: seq<Group>, id: int)
    ensures Below(s, id) == Below(UpTo(s, id), id)
    ensures forall g :: g in UpTo(s, id) <==> g in s && g.id <= id
  {
    if s != [] {
      BelowUpTo(s[1..], id);
      assert ([s[0]] + UpTo(s[1..], id))[1..] == UpTo(s[1..], id);
      assert [] + UpTo(s[1..], id) == UpTo(s[1..], id);
    }
  }

  /** Changing, adding or removing groups with larger ids never moves a subject out of a group it is in. */
  lemma LaterGroupsDoNotMatter(groups: seq<Group>, changed: seq<Group>, g: Group, bucket: nat)
    requires multiset(UpTo(groups, g.id)) == multiset(UpTo(changed, g.id))
    ensures Owns(groups, g, bucket) <==> Owns(changed, g, bucket)
  {
    BelowUpTo(groups, g.id);
    BelowUpTo(changed, g.id);
    BelowPermuted(UpTo(groups, g.id), UpTo(changed, g.id), g.id);
    assert g in UpTo(groups, g.id) <==> g in multiset(UpTo(groups, g.id));
    assert g in UpTo(changed, g.id) <==> g in multiset(UpTo(changed, g.id));
  }
}
