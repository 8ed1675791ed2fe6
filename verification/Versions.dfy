/** Targeting by version: component-wise comparison with missing components read as zero. */
module Versions {
  import opened Common

  /** A split version; a component that is not a number counts as 0. */
  type Version = seq<int>

  function Part(v: Version, i: nat): int {
    if i < |v| then v[i] else 0
  }

  /** The first differing component, if any, is i and is smaller in a. */
  ghost predicate BeforeAt(a: Version, b: Version, i: nat) {
    Part(a, i) < Part(b, i) && forall j: nat | j < i :: Part(a, j) == Part(b, j)
  }

  ghost predicate Before(a: Version, b: Version) {
    exists i: nat :: BeforeAt(a, b, i)
  }

  ghost predicate Same(a: Version, b: Version) {
    forall i: nat :: Part(a, i) == Part(b, i)
  }

  method CompareVersion(a: Version, b: Version) returns (r: int)
    ensures r == -1 <==> Before(a, b)
    ensures r == 1 <==> Before(b, a)
    ensures r == 0 <==> Same(a, b)
    ensures r in {-1, 0, 1}
  {
    var n := if |b| > |a| then |b| else |a|;
    for i := 0 to n
      invariant forall j: nat | j < i :: Part(a, j) == Part(b, j)
    {
      var av := if i < |a| then a[i] else 0;
      var bv := if i < |b| then b[i] else 0;
      if av < bv {
        Exclusive(a, b, i);
        return -1;
      }
      if av > bv {
        Exclusive(b, a, i);
        return 1;
      }
    }
    assert Same(a, b);
    return 0;
  }

  lemma Exclusive(a: Version, b: Version, i: nat)
    requires BeforeAt(a, b, i)
    ensures Before(a, b) && !Before(b, a) && !Same(a, b)
  {
  }

  /** Versions are totally preordered, and what is equal is interchangeable. */
  lemma VersionOrder(a: Version, b: Version, c: Version)
    ensures Before(a, b) && Before(b, c) ==> Before(a, c)
    ensures Before(a, b) && Same(b, c) ==> Before(a, c)
    ensures Same(a, b) && Before(b, c) ==> Before(a, c)
    ensures Same(a, b) && Same(b, c) ==> Same(a, c)
  {
    if Before(a, b) && Before(b, c) {
      var i: nat :| BeforeAt(a, b, i);
      var j: nat :| BeforeAt(b, c, j);
      assert BeforeAt(a, c, if i < j then i else j);
    }
    if Before(a, b) && Same(b, c) {
      var i: nat :| BeforeAt(a, b, i);
      assert BeforeAt(a, c, i);
    }
    if Same(a, b) && Before(b, c) {
      var j: nat :| BeforeAt(b, c, j);
      assert BeforeAt(a, c, j);
    }
  }

  /** The range accepts a version; an empty text, of a version or of a bound, is None. */
  ghost predicate InRange(v: Option<Version>, low: Option<Version>, high: Option<Version>) {
    && (v.None? ==> low.None? && high.None?)
    && (v.Some? && low.Some? ==> !Before(v.value, low.value))
    && (v.Some? && high.Some? ==> !Before(high.value, v.value))
  }

  method VersionRangeMatches(v: Option<Version>, low: Option<Version>, high: Option<Version>) returns (ok: bool)
    ensures ok <==> InRange(v, low, high)
  {
    if v.None? {
      return low.None? && high.None?;
    }
    if low.Some? {
      var c := CompareVersion(v.value, low.value);
      if c < 0 {
        return false;
      }
    }
    if high.Some? {
      var c := CompareVersion(v.value, high.value);
      if c > 0 {
        return false;
      }
    }
    return true;
  }

  /** What lies between two accepted versions is accepted; without an upper bound everything above an accepted version
      is, and without a lower bound everything below. */
  lemma RangeIsInterval(low: Option<Version>, high: Option<Version>, a: Version, b: Version, c: Version)
    requires !Before(b, a) && !Before(c, b)
    ensures InRange(Some(a), low, high) && (high.None? || InRange(Some(c), low, high)) ==> InRange(Some(b), low, high)
    ensures InRange(Some(c), low, high) && (low.None? || InRange(Some(a), low, high)) ==> InRange(Some(b), low, high)
  {
    Total(a, b);
    Total(b, c);
    if low.Some? && Before(b, low.value) {
      VersionOrder(a, b, low.value);
    }
    if high.Some? && Before(high.value, b) {
      VersionOrder(high.value, b, c);
    }
  }

  lemma {:induction false} Total(a: Version, b: Version)
    ensures Before(a, b) || Before(b, a) || Same(a, b)
  {
    if !Same(a, b) {
      var i: nat :| Part(a, i) != Part(b, i);
      FirstDifference(a, b, i, 0);
    }
  }

  lemma {:induction false} FirstDifference(a: Version, b: Version, i: nat, from: nat)
    requires from <= i && Part(a, i) != Part(b, i) && forall j: nat | j < from :: Part(a, j) == Part(b, j)
    ensures Before(a, b) || Before(b, a)
    decreases i - from
  {
    if Part(a, from) < Part(b, from) {
      assert BeforeAt(a, b, from);
    } else if Part(b, from) < Part(a, from) {
      assert BeforeAt(b, a, from);
    } else {
      FirstDifference(a, b, i, from + 1);
    }
  }

  /** A missing component counts as zero. */
  lemma MissingIsZero(v: Version, n: int)
    ensures Same(v, v + [n]) <==> n == 0
    ensures Before(v, v + [n]) <==> n > 0
    ensures Before(v + [n], v) <==> n < 0
  {
    var w := v + [n];
    assert Part(w, |v|) == n && Part(v, |v|) == 0;
    assert forall j: nat | j != |v| :: Part(v, j) == Part(w, j);
    if n > 0 {
      Exclusive(v, w, |v|);
    } else if n < 0 {
      Exclusive(w, v, |v|);
    }
  }

  /** Both bounds are included. */
  lemma RangeIff(v: Version, low: Version, high: Version)
    ensures InRange(Some(v), Some(low), None) <==> Before(low, v) || Same(low, v)
    ensures InRange(Some(v), None, Some(high)) <==> Before(v, high) || Same(v, high)
    ensures InRange(Some(v), Some(low), Some(high))
            <==> InRange(Some(v), Some(low), None) && InRange(Some(v), None, Some(high))
    ensures InRange(Some(v), None, None) && InRange(None, None, None)
    ensures !InRange(None, Some(low), None) && !InRange(None, None, Some(high)) && !InRange(None, Some(low), Some(high))
  {
    Total(v, low);
    Total(v, high);
    Opposed(low, v);
    Opposed(v, high);
  }

  lemma Opposed(a: Version, b: Version)
    ensures Before(a, b) ==> !Before(b, a)
    ensures Same(a, b) ==> !Before(b, a)
  {
    if i: nat :| BeforeAt(a, b, i) {
      Exclusive(a, b, i);
    }
  }
}
