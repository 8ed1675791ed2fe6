/** Ownership of WebSocket sessions: the claim, refresh and remove scripts, the two lazy route lookups, and the text
    form of a session. */
module SessionOwnership {
  import opened Common

  type User = string
  type Container = string

  datatype SessionData = SessionData(connection: string, container: Container, token: string)

  // ---- the text form ----

  function Encode(d: SessionData): string {
    d.connection + "|" + d.container + "|" + d.token
  }

  predicate Free(s: string, c: char) {
    c !in s
  }

  /** The first place of c in s, or |s|. */
  function IndexOf(s: string, c: char): (i: nat)
    ensures i <= |s| && Free(s[..i], c) && (i < |s| ==> s[i] == c)
  {
    if s == "" || s[0] == c then 0 else 1 + IndexOf(s[1..], c)
  }

  /** strings.Split by a character. */
  function Split(s: string, c: char): (parts: seq<string>)
    ensures |parts| > 0 && forall i | 0 <= i < |parts| :: Free(parts[i], c)
    decreases |s|
  {
    var i := IndexOf(s, c);
    if i == |s| then [s] else [s[..i]] + Split(s[i + 1..], c)
  }

  /** strings.Join. */
  function Join(parts: seq<string>, c: char): string {
    if parts == [] then "" else if |parts| == 1 then parts[0] else parts[0] + [c] + Join(parts[1..], c)
  }

  /** strings.LastIndex: the last place of c in s, if any. */
  function LastIndex(s: string, c: char): (r: Option<nat>)
    ensures r.None? ==> Free(s, c)
    ensures r.Some? ==> r.value < |s| && s[r.value] == c && Free(s[r.value + 1..], c)
  {
    if s == "" then None
    else if s[|s| - 1] == c then Some(|s| - 1)
    else
      var r := LastIndex(s[..|s| - 1], c);
      assert r.Some? ==> s[r.value + 1..] == s[..|s| - 1][r.value + 1..] + [s[|s| - 1]];
      r
  }

  function Parse(value: string): SessionData {
    var parts := Split(value, '|');
    var n := |parts|;
    if n >= 3 then SessionData(Join(parts[..n - 2], '|'), parts[n - 2], parts[n - 1])
    else
      var i := LastIndex(value, ':');
      if i.Some? then SessionData(value[..i.value], value[i.value + 1..], "") else SessionData(value, "", "")
  }

  lemma IndexOfFree(s: string, c: char, rest: string)
    requires Free(s, c)
    ensures IndexOf(s + [c] + rest, c) == |s|
  {
    var t := s + [c] + rest;
    var i := IndexOf(t, c);
    assert forall j | 0 <= j < |s| :: t[j] == s[j] && s[j] in s;
    assert forall j | 0 <= j < i :: t[j] == t[..i][j] && t[..i][j] in t[..i];
    assert t[|s|] == c;
  }

  lemma {:induction false} SplitOne(s: string, c: char)
    requires Free(s, c)
    ensures Split(s, c) == [s]
  {
  }

  lemma SplitFirst(a: string, c: char, b: string)
    requires Free(a, c)
    ensures Split(a + [c] + b, c) == [a] + Split(b, c)
  {
    hide Free;
    var s := a + [c] + b;
    IndexOfFree(a, c, b);
    assert s[..|a|] == a && s[|a| + 1..] == b;
  }

  lemma CutAtFirst(s: string, c: char) returns (a: string, b: string)
    requires !Free(s, c)
    ensures s == a + [c] + b && Free(a, c)
  {
    var i := IndexOf(s, c);
    assert i < |s| by {
      assert s[..|s|] == s;
    }
    a, b := s[..i], s[i + 1..];
  }

  lemma {:induction false} SplitConcat(a: string, c: char, b: string)
    ensures Split(a + [c] + b, c) == Split(a, c) + Split(b, c)
    decreases |a|
  {
    hide Free, Split, IndexOf;
    if Free(a, c) {
      SplitOne(a, c);
      SplitFirst(a, c, b);
    } else {
      var front, back := CutAtFirst(a, c);
      SplitConcat(back, c, b);
      SplitFirst(front, c, back);
      SplitFirst(front, c, back + [c] + b);
      assert a + [c] + b == front + [c] + (back + [c] + b);
      assert [front] + (Split(back, c) + Split(b, c)) == [front] + Split(back, c) + Split(b, c);
    }
  }

  lemma {:induction false} JoinSplit(s: string, c: char)
    ensures Join(Split(s, c), c) == s
    decreases |s|
  {
    hide Free, Split, IndexOf;
    if Free(s, c) {
      SplitOne(s, c);
    } else {
      var front, back := CutAtFirst(s, c);
      JoinSplit(back, c);
      SplitFirst(front, c, back);
      assert Split(s, c)[1..] == Split(back, c);
    }
  }

  lemma EncodeParts(d: SessionData)
    ensures Split(Encode(d), '|') == Split(d.connection, '|') + Split(d.container, '|') + Split(d.token, '|')
  {
    assert Encode(d) == d.connection + ['|'] + (d.container + ['|'] + d.token);
    SplitConcat(d.connection, '|', d.container + ['|'] + d.token);
    SplitConcat(d.container, '|', d.token);
  }

  /** A session survives its text form exactly when neither its container nor its token contains '|'. */
  lemma ParseEncodeIff(d: SessionData)
    ensures Parse(Encode(d)) == d <==> Free(d.container, '|') && Free(d.token, '|')
  {
    hide Encode, Free, LastIndex;
    EncodeParts(d);
    if Free(d.container, '|') && Free(d.token, '|') {
      SplitOne(d.container, '|');
      SplitOne(d.token, '|');
      var parts := Split(Encode(d), '|');
      assert parts[..|parts| - 2] == Split(d.connection, '|');
      JoinSplit(d.connection, '|');
    }
  }

  /** A record of the old form survives exactly when it has fewer than two '|' and no ':' in its container. */
  lemma LegacyParseIff(connection: string, container: Container)
    ensures Parse(connection + ":" + container) == SessionData(connection, container, "")
            <==> |Split(connection + ":" + container, '|')| < 3 && Free(container, ':')
  {
    hide Free, Split, Join;
    var s := connection + [':'] + container;
    var parts := Split(s, '|');
    if |parts| >= 3 {
      JoinSplit(s, '|');
      JoinLast(parts, '|');
    } else {
      LastColon(connection, container);
    }
  }

  lemma LastColon(connection: string, container: Container)
    ensures var s := connection + [':'] + container;
            var i := LastIndex(s, ':');
            i.Some? && (s[..i.value] == connection && s[i.value + 1..] == container <==> Free(container, ':'))
  {
    hide Free;
    var s := connection + [':'] + container;
    assert s[|connection|] == ':';
    HasLast(s, ':', |connection|);
    var i := LastIndex(s, ':').value;
    assert s == s[..i] + [':'] + s[i + 1..];
    if Free(container, ':') {
      LastPart(connection, container, s[..i], s[i + 1..], ':');
    }
  }

  lemma HasLast(s: string, c: char, i: nat)
    requires i < |s| && s[i] == c
    ensures LastIndex(s, c).Some?
  {
  }

  lemma {:induction false} JoinLast(parts: seq<string>, c: char)
    requires |parts| >= 3
    ensures |Join(parts, c)| == |Join(parts[..|parts| - 2], c)| + |parts[|parts| - 2]| + |parts[|parts| - 1]| + 2
  {
    var n := |parts|;
    var rest := parts[1..];
    assert |Join(parts, c)| == |parts[0]| + 1 + |Join(rest, c)|;
    if n == 3 {
      assert rest[1..] == [parts[2]] && parts[..1] == [parts[0]];
      assert Join(rest, c) == parts[1] + [c] + Join([parts[2]], c);
    } else {
      JoinLast(rest, c);
      assert rest[..n - 3] == parts[..n - 2][1..];
    }
  }

  lemma NotLater(a: string, s: string, i: nat, c: char)
    requires Free(s, c) && |a| < i < |a + [c] + s|
    ensures (a + [c] + s)[i] != c
  {
  }

  /** Joining can be undone at the last joining character. */
  lemma LastPart(a: string, s: string, b: string, t: string, c: char)
    requires a + [c] + s == b + [c] + t && Free(s, c) && Free(t, c)
    ensures a == b && s == t
  {
    hide Free;
    var j := a + [c] + s;
    assert j[|a|] == c && j[|b|] == c;
    if |a| < |b| {
      NotLater(a, s, |b|, c);
    } else if |b| < |a| {
      NotLater(b, t, |a|, c);
    }
    assert a == j[..|a|] && b == j[..|b|] && s == j[|a| + 1..] && t == j[|b| + 1..];
  }

  // ---- the scripts ----

  /** A string key with its expiry. */
  datatype Cell = Cell(value: string, expiresAt: Time)

  /** `members` holds the pairs (c, u) with u in the set container_connections:c. */
  datatype Store = Store(sessions: map<User, Cell>, routes: map<User, Container>, members: set<(Container, User)>,
                         leases: map<User, Cell>)

  const EMPTY := Store(map[], map[], {}, map[])

  predicate Live(m: map<User, Cell>, u: User, now: Time) {
    u in m && now < m[u].expiresAt
  }

  predicate Has(m: map<User, Cell>, u: User, value: string, now: Time) {
    Live(m, u, now) && m[u].value == value
  }

  function LeaseText(d: SessionData): string {
    d.container + "|" + d.token
  }

  function Claim(st: Store, u: User, d: SessionData, now: Time, sessionTTL: Time, routeTTL: Time): Store {
    var left := if u in st.routes && st.routes[u] != d.container then st.members - {(st.routes[u], u)} else st.members;
    Store(st.sessions[u := Cell(Encode(d), now + sessionTTL)], st.routes[u := d.container],
          left + {(d.container, u)}, st.leases[u := Cell(LeaseText(d), now + routeTTL)])
  }

  function Refresh(st: Store, u: User, d: SessionData, now: Time, sessionTTL: Time, routeTTL: Time): (Store, bool) {
    if Has(st.sessions, u, Encode(d), now) && u in st.routes && st.routes[u] == d.container
       && Has(st.leases, u, LeaseText(d), now)
    then (st.(sessions := st.sessions[u := Cell(st.sessions[u].value, now + sessionTTL)],
              leases := st.leases[u := Cell(st.leases[u].value, now + routeTTL)]), true)
    else (st, false)
  }

  function Remove(st: Store, u: User, d: SessionData, now: Time): (Store, bool) {
    var session := Has(st.sessions, u, Encode(d), now);
    var route := Has(st.leases, u, LeaseText(d), now) && u in st.routes && st.routes[u] == d.container;
    var st1 := if session then st.(sessions := st.sessions - {u}) else st;
    (if route
     then st1.(leases := st.leases - {u}, routes := st.routes - {u}, members := st.members - {(d.container, u)})
     else st1,
     session || route)
  }

  predicate StartsWith(s: string, prefix: string) {
    |prefix| <= |s| && s[..|prefix|] == prefix
  }

  predicate ValidRoute(st: Store, u: User, now: Time) {
    u in st.routes && Live(st.leases, u, now) && StartsWith(st.leases[u].value, st.routes[u] + "|")
  }

  function DropRoute(st: Store, u: User): Store
    requires u in st.routes
  {
    st.(routes := st.routes - {u}, members := st.members - {(st.routes[u], u)})
  }

  /** getValidRoute: a route whose lease is gone is removed on sight. */
  function Lookup(st: Store, u: User, now: Time): (Store, Option<Container>) {
    if u !in st.routes then (st, None)
    else if ValidRoute(st, u, now) then (st, Some(st.routes[u]))
    else (DropRoute(st, u), None)
  }

  predicate Stale(st: Store, u: User, now: Time) {
    u in st.routes && !ValidRoute(st, u, now)
  }

  /** getValidRoutes: the same for every listed user. */
  function LookupAll(st: Store, ids: set<User>, now: Time): (Store, map<User, Container>) {
    (st.(routes := map u | u in st.routes && !(u in ids && Stale(st, u, now)) :: st.routes[u],
         members := set p | p in st.members && !(p.1 in ids && Stale(st, p.1, now) && st.routes[p.1] == p.0)),
     map u | u in ids && ValidRoute(st, u, now) :: st.routes[u])
  }

  // ---- the scripts over Redis keys changed in place ----

  class RedisSessions {
    var sessions: map<User, Cell>
    var routes: map<User, Container>
    var members: set<(Container, User)>
    var leases: map<User, Cell>

    ghost function Value(): Store
      reads this
    {
      Store(sessions, routes, members, leases)
    }

    constructor ()
      ensures Value() == EMPTY
    {
      sessions, routes, members, leases := map[], map[], {}, map[];
    }

    method ClaimSessionAndRoute(u: User, d: SessionData, now: Time, sessionTTL: Time, routeTTL: Time)
      modifies this
      ensures Value() == Claim(old(Value()), u, d, now, sessionTTL, routeTTL)
    {
      if u in routes && routes[u] != d.container {
        members := members - {(routes[u], u)};
      }
      sessions := sessions[u := Cell(Encode(d), now + sessionTTL)];
      routes := routes[u := d.container];
      members := members + {(d.container, u)};
      leases := leases[u := Cell(d.container + "|" + d.token, now + routeTTL)];
    }

    method RefreshOwnedSessionAndRoute(u: User, d: SessionData, now: Time, sessionTTL: Time, routeTTL: Time)
      returns (updated: bool)
      modifies this
      ensures (Value(), updated) == Refresh(old(Value()), u, d, now, sessionTTL, routeTTL)
    {
      if !Has(sessions, u, Encode(d), now) || u !in routes || routes[u] != d.container
         || !Has(leases, u, d.container + "|" + d.token, now) {
        return false;
      }
      sessions := sessions[u := sessions[u].(expiresAt := now + sessionTTL)];
      leases := leases[u := leases[u].(expiresAt := now + routeTTL)];
      return true;
    }

    method RemoveOwnedSessionAndRoute(u: User, d: SessionData, now: Time) returns (removed: bool)
      modifies this
      ensures (Value(), removed) == Remove(old(Value()), u, d, now)
    {
      removed := false;
      if Has(sessions, u, Encode(d), now) {
        sessions := sessions - {u};
        removed := true;
      }
      if Has(leases, u, d.container + "|" + d.token, now) && u in routes && routes[u] == d.container {
        leases := leases - {u};
        routes := routes - {u};
        members := members - {(d.container, u)};
        removed := true;
      }
    }

    method GetValidRoute(u: User, now: Time) returns (route: Option<Container>)
      modifies this
      ensures (Value(), route) == Lookup(old(Value()), u, now)
    {
      if u !in routes {
        return None;
      }
      var mapped := routes[u];
      if u in leases && now < leases[u].expiresAt && StartsWith(leases[u].value, mapped + "|") {
        return Some(mapped);
      }
      routes := routes - {u};
      members := members - {(mapped, u)};
      return None;
    }

    method GetValidRoutes(ids: seq<User>, now: Time) returns (result: map<User, Container>)
      modifies this
      ensures (Value(), result) == LookupAll(old(Value()), Elements(ids), now)
    {
      result := map[];
      ghost var start := Value();
      LookupNobody(start, ids, now);
      for i := 0 to |ids|
        invariant (Value(), result) == LookupAll(start, Elements(ids[..i]), now)
      {
        hide LookupAll;
        LookupNext(start, ids, i, now);
        var u := ids[i];
        if u in routes {
          var mapped := routes[u];
          if u in leases && now < leases[u].expiresAt && StartsWith(leases[u].value, mapped + "|") {
            result := result[u := mapped];
          } else {
            routes := routes - {u};
            members := members - {(mapped, u)};
          }
        }
      }
      assert ids[..|ids|] == ids;
    }
  }

  lemma LookupNobody(st: Store, ids: seq<User>, now: Time)
    ensures LookupAll(st, Elements(ids[..0]), now) == (st, map[])
  {
    assert Elements(ids[..0]) == {};
    var (after, found) := LookupAll(st, {}, now);
    assert after.routes == st.routes && after.members == st.members && found == map[];
  }

  /** Looking up one more user after the others, whether or not it was listed before. */
  lemma LookupNext(st: Store, ids: seq<User>, i: nat, now: Time)
    requires i < |ids|
    ensures var (was, found) := LookupAll(st, Elements(ids[..i]), now);
            var (one, route) := Lookup(was, ids[i], now);
            LookupAll(st, Elements(ids[..i + 1]), now)
            == (one, if route.Some? then found[ids[i] := route.value] else found)
  {
    assert ids[..i + 1] == ids[..i] + [ids[i]];
    assert Elements(ids[..i + 1]) == Elements(ids[..i]) + {ids[i]};
    LookupMore(st, Elements(ids[..i]), ids[i], now);
  }

  lemma LookupMore(st: Store, ids: set<User>, u: User, now: Time)
    ensures var (was, found) := LookupAll(st, ids, now);
            var (one, route) := Lookup(was, u, now);
            LookupAll(st, ids + {u}, now) == (one, if route.Some? then found[u := route.value] else found)
  {
    hide StartsWith;
    var (was, found) := LookupAll(st, ids, now);
    var (one, route) := Lookup(was, u, now);
    var (more, result) := LookupAll(st, ids + {u}, now);
    assert more.routes == one.routes;
    assert more.members == one.members;
    assert result == if route.Some? then found[u := route.value] else found;
  }
}
