/** Keyset pagination of message sync: pages in (timestamp, message id) order, each starting after the last of the one
    before. */
module KeysetSync {
  import opened Common

  type UserId = int
  type MessageId = int

  /** `to` is a user, or a group for a group message. */
  datatype Message = Message(from: UserId, to: int, isGroup: bool, timestamp: Time)

  /** joinedAt is missing only in rows older than that column. */
  datatype Membership = Membership(joinedAt: Option<Time>, updateTime: Time)

  /** What is posted never changes; a store holds some of it. */
  type Log = map<MessageId, Message>
  datatype Store = Store(present: set<MessageId>, members: map<(int, UserId), Membership>)

  datatype Cursor = Cursor(timestamp: Time, id: MessageId)

  datatype Page = Page(ids: seq<MessageId>, hasMore: bool, next: Cursor)

  const DEFAULT_PAGE_SIZE := 100
  const MAX_PAGE_SIZE := 500

  function PageSize(requested: int): (size: nat)
    ensures 0 < size <= MAX_PAGE_SIZE
    ensures 0 < requested <= MAX_PAGE_SIZE ==> size == requested
    ensures (requested <= 0 ==> size == 100) && (requested > 500 ==> size == 500)
  {
    if requested <= 0 then DEFAULT_PAGE_SIZE else if requested > MAX_PAGE_SIZE then MAX_PAGE_SIZE else requested
  }

  function Since(m: Membership): Time {
    if m.joinedAt.Some? then m.joinedAt.value else m.updateTime
  }

  /** One of the two halves of the sync query: sent to the user, or to a group since the user joined it. */
  predicate Visible(log: Log, st: Store, u: UserId, id: MessageId) {
    && id in st.present && id in log
    && if log[id].isGroup then (log[id].to, u) in st.members && log[id].timestamp >= Since(st.members[(log[id].to, u)])
       else log[id].to == u
  }

  predicate CanUserRead(log: Log, st: Store, u: UserId, id: MessageId) {
    && u > 0 && id in log
    && if !log[id].isGroup then u == log[id].from || u == log[id].to
       else u == log[id].from
            || ((log[id].to, u) in st.members && Since(st.members[(log[id].to, u)]) <= log[id].timestamp)
  }

  function At(log: Log, id: MessageId): Cursor {
    Cursor(if id in log then log[id].timestamp else 0, id)
  }

  predicate Before(a: Cursor, b: Cursor) {
    a.timestamp < b.timestamp || (a.timestamp == b.timestamp && a.id < b.id)
  }

  /** The rows after the cursor. */
  function After(log: Log, st: Store, u: UserId, c: Cursor): set<MessageId> {
    set id | id in st.present && Visible(log, st, u, id) && Before(c, At(log, id))
  }

  // ---- ORDER BY timestamp, message_id ----

  predicate First(log: Log, ids: set<MessageId>, id: MessageId) {
    id in ids && forall j | j in ids && j != id :: Before(At(log, id), At(log, j))
  }

  lemma {:induction false} FirstExists(log: Log, ids: set<MessageId>)
    requires ids != {}
    ensures exists id :: First(log, ids, id)
  {
    Inhabited(ids);
    var id :| id in ids;
    if ids == {id} {
      assert First(log, ids, id);
    } else {
      FirstExists(log, ids - {id});
      var j :| First(log, ids - {id}, j);
      assert First(log, ids, if Before(At(log, id), At(log, j)) then id else j);
    }
  }

  ghost function Ordered(log: Log, ids: set<MessageId>): (s: seq<MessageId>)
    ensures |s| == |ids| && forall id :: id in s <==> id in ids
  {
    if ids == {} then []
    else
      FirstExists(log, ids);
      var id :| First(log, ids, id);
      [id] + Ordered(log, ids - {id})
  }

  ghost predicate Ascending(log: Log, s: seq<MessageId>) {
    forall i, j | 0 <= i < j < |s| :: Before(At(log, s[i]), At(log, s[j]))
  }

  lemma {:induction false} OrderedAscends(log: Log, ids: set<MessageId>)
    ensures Ascending(log, Ordered(log, ids))
  {
    if ids != {} {
      var s := Ordered(log, ids);
      OrderedAscends(log, ids - {s[0]});
      assert First(log, ids, s[0]);
      assert s[1..] == Ordered(log, ids - {s[0]});
      forall i, j | 0 <= i < j < |s| ensures Before(At(log, s[i]), At(log, s[j])) {
        if i == 0 {
          assert s[j] == s[1..][j - 1] && s[j] in s[1..];
        } else {
          assert s[i] == s[1..][i - 1] && s[j] == s[1..][j - 1];
        }
      }
    }
  }

  /** An ascending list is determined by its elements. */
  lemma {:induction false} AscendingUnique(log: Log, s: seq<MessageId>, t: seq<MessageId>)
    requires Ascending(log, s) && Ascending(log, t) && forall id :: id in s <==> id in t
    ensures s == t
  {
    if s == [] || t == [] {
      BothInhabited(s, t);
      BothInhabited(t, s);
    } else {
      assert s[0] in s && t[0] in t;
      var i :| 0 <= i < |t| && t[i] == s[0];
      var j :| 0 <= j < |s| && s[j] == t[0];
      assert i == 0 && j == 0;
      forall id ensures id in s[1..] <==> id in t[1..] {
        TailElements(log, s, id);
        TailElements(log, t, id);
      }
      AscendingUnique(log, s[1..], t[1..]);
      assert s == [s[0]] + s[1..] && t == [t[0]] + t[1..];
    }
  }

  lemma BothInhabited(s: seq<MessageId>, t: seq<MessageId>)
    requires forall id :: id in s <==> id in t
    ensures s != [] ==> t != []
  {
    if s != [] {
      var first := s[0];
      assert first in s && first in t;
    }
  }

  lemma TailElements(log: Log, s: seq<MessageId>, id: MessageId)
    requires Ascending(log, s) && s != []
    ensures id in s[1..] <==> id in s && id != s[0]
  {
  }

  // ---- pages ----

  /** buildSyncMessagesPage; an empty page carries the zero cursor. */
  method BuildPage(log: Log, rows: seq<MessageId>, size: nat) returns (page: Page)
    requires forall i | 0 <= i < |rows| :: rows[i] in log
    ensures page == PageOf(log, rows, size)
  {
    var hasMore := |rows| > size;
    var ids := rows;
    if hasMore {
      ids := ids[..size];
    }
    page := Page(ids, hasMore, Cursor(0, 0));
    if |ids| > 0 {
      var last := ids[|ids| - 1];
      page := page.(next := Cursor(log[last].timestamp, last));
    }
  }

  function PageOf(log: Log, rows: seq<MessageId>, size: nat): Page {
    var ids := if |rows| > size then rows[..size] else rows;
    Page(ids, |rows| > size, if ids == [] then Cursor(0, 0) else At(log, ids[|ids| - 1]))
  }

  /** GetSyncMessagesPage: the query returns one row more than the page holds. */
  ghost function Fetch(log: Log, st: Store, u: UserId, c: Cursor, requested: int): Page {
    var rows := Ordered(log, After(log, st, u, c));
    var size := PageSize(requested);
    PageOf(log, if |rows| > size + 1 then rows[..size + 1] else rows, size)
  }

  /** A page is a front part of what is after the cursor; it is cut short exactly when there is more. */
  lemma FetchIsPrefix(log: Log, st: Store, u: UserId, c: Cursor, requested: int)
    ensures var rows, size, page := Ordered(log, After(log, st, u, c)), PageSize(requested),
                                   Fetch(log, st, u, c, requested);
            && (page.hasMore <==> |rows| > size)
            && page.ids == (if page.hasMore then rows[..size] else rows)
            && (page.hasMore ==> page.next == At(log, rows[size - 1]))
            && (page.ids == [] ==> page.next == Cursor(0, 0))
            && (page.ids != [] ==> page.next == At(log, page.ids[|page.ids| - 1]))
  {
  }

  /** What is after the last row of a page is the rest of what was after the cursor. */
  lemma AfterRow(log: Log, st: Store, u: UserId, c: Cursor, n: nat)
    requires 0 < n <= |Ordered(log, After(log, st, u, c))|
    ensures var rows := Ordered(log, After(log, st, u, c));
            Ordered(log, After(log, st, u, At(log, rows[n - 1]))) == rows[n..]
  {
    var rows := Ordered(log, After(log, st, u, c));
    var last := At(log, rows[n - 1]);
    var rest := Ordered(log, After(log, st, u, last));
    OrderedAscends(log, After(log, st, u, c));
    OrderedAscends(log, After(log, st, u, last));
    assert rows[n - 1] in rows;
    forall id ensures id in rest <==> id in rows[n..] {
      RowsAfter(log, rows, n, id);
      assert id in rest <==> id in rows && Before(last, At(log, id));
    }
    assert Ascending(log, rows[n..]);
    AscendingUnique(log, rest, rows[n..]);
  }

  lemma RowsAfter(log: Log, rows: seq<MessageId>, n: nat, id: MessageId)
    requires Ascending(log, rows) && 0 < n <= |rows|
    ensures id in rows[n..] <==> id in rows && Before(At(log, rows[n - 1]), At(log, id))
  {
  }

  /** The client's loop over one store, feeding each cursor into the next fetch until there is no more. */
  ghost function SyncAll(log: Log, st: Store, u: UserId, c: Cursor, requested: int): seq<MessageId>
    decreases |After(log, st, u, c)|
  {
    var page := Fetch(log, st, u, c, requested);
    if !page.hasMore then page.ids
    else
      assert |After(log, st, u, page.next)| < |After(log, st, u, c)| by {
        FetchShrinks(log, st, u, c, requested);
      }
      page.ids + SyncAll(log, st, u, page.next, requested)
  }

  /** For any page size the pages are together exactly the visible messages after the cursor, each once, in order. */
  lemma {:induction false} SyncIsComplete(log: Log, st: Store, u: UserId, c: Cursor, requested: int)
    ensures SyncAll(log, st, u, c, requested) == Ordered(log, After(log, st, u, c))
    ensures Ascending(log, SyncAll(log, st, u, c, requested))
    decreases |After(log, st, u, c)|
  {
    hide Fetch, After, Ordered, Ascending;
    OrderedAscends(log, After(log, st, u, c));
    FetchIsPrefix(log, st, u, c, requested);
    var page := Fetch(log, st, u, c, requested);
    if page.hasMore {
      FetchShrinks(log, st, u, c, requested);
      SyncIsComplete(log, st, u, page.next, requested);
    }
  }

  lemma FetchShrinks(log: Log, st: Store, u: UserId, c: Cursor, requested: int)
    requires Fetch(log, st, u, c, requested).hasMore
    ensures var page, rows := Fetch(log, st, u, c, requested), Ordered(log, After(log, st, u, c));
            && |After(log, st, u, page.next)| < |After(log, st, u, c)|
            && rows == page.ids + Ordered(log, After(log, st, u, page.next))
  {
    hide Fetch, After, Ordered;
    var rows, size := Ordered(log, After(log, st, u, c)), PageSize(requested);
    FetchIsPrefix(log, st, u, c, requested);
    AfterRow(log, st, u, c, size);
    assert rows == rows[..size] + rows[size..];
  }

  /** Addressed to the user, or to a group at or after the time the user joined; in a row without a joining time its
      update time stands in. */
  predicate Reaches(st: Store, u: UserId, m: Message) {
    || (!m.isGroup && m.to == u)
    || (m.isGroup && (m.to, u) in st.members
        && match st.members[(m.to, u)].joinedAt
           case Some(joined) => joined <= m.timestamp
           case None => st.members[(m.to, u)].updateTime <= m.timestamp)
  }

  /** What a whole sync lists, message by message. */
  lemma SyncListsIff(log: Log, st: Store, u: UserId, c: Cursor, requested: int, id: MessageId)
    ensures id in SyncAll(log, st, u, c, requested) <==>
              && id in st.present && id in log && Reaches(st, u, log[id])
              && (c.timestamp < log[id].timestamp || (c.timestamp == log[id].timestamp && c.id < id))
  {
    SyncIsComplete(log, st, u, c, requested);
    RowsAreAfter(log, st, u, c);
    hide SyncAll, Ordered;
  }

  /** A message may be read by its sender and by whom it reaches. */
  lemma ReadableIff(log: Log, st: Store, u: UserId, id: MessageId)
    ensures CanUserRead(log, st, u, id) <==> u > 0 && id in log && (log[id].from == u || Reaches(st, u, log[id]))
  {
  }

  // ---- stores that change between fetches ----

  /** The pages of a sync whose k-th fetch meets the k-th store. */
  ghost function Pages(log: Log, stores: seq<Store>, u: UserId, c: Cursor, requested: int): seq<MessageId> {
    if stores == [] then []
    else
      var page := Fetch(log, stores[0], u, c, requested);
      if page.hasMore then page.ids + Pages(log, stores[1..], u, page.next, requested) else page.ids
  }

  ghost predicate Finished(log: Log, stores: seq<Store>, u: UserId, c: Cursor, requested: int) {
    && stores != []
    && var page := Fetch(log, stores[0], u, c, requested);
       page.hasMore ==> Finished(log, stores[1..], u, page.next, requested)
  }

  /** Cutting an ascending list splits it at the cursor of the last element kept. */
  lemma CutAscending(log: Log, rows: seq<MessageId>, n: nat)
    requires Ascending(log, rows) && 0 < n <= |rows|
    ensures Ascending(log, rows[..n])
    ensures forall id :: id in rows[..n] <==> id in rows && !Before(At(log, rows[n - 1]), At(log, id))
  {
  }

  lemma RowsAreAfter(log: Log, st: Store, u: UserId, c: Cursor)
    ensures var rows := Ordered(log, After(log, st, u, c));
            Ascending(log, rows) && forall id :: id in rows <==> Visible(log, st, u, id) && Before(c, At(log, id))
  {
    OrderedAscends(log, After(log, st, u, c));
  }

  lemma PageBounds(log: Log, st: Store, u: UserId, c: Cursor, requested: int)
    ensures var page := Fetch(log, st, u, c, requested);
            && Ascending(log, page.ids)
            && (forall id | id in page.ids :: Visible(log, st, u, id) && Before(c, At(log, id)))
            && (forall id | id in page.ids && page.hasMore :: !Before(page.next, At(log, id)))
            && (page.hasMore ==> Before(c, page.next))
            && (forall id | Visible(log, st, u, id) && Before(c, At(log, id)) ::
                  id in page.ids || (page.hasMore && Before(page.next, At(log, id))))
  {
    hide Fetch, After, Ordered, Ascending, Visible, Before, At;
    var rows, size := Ordered(log, After(log, st, u, c)), PageSize(requested);
    RowsAreAfter(log, st, u, c);
    FetchIsPrefix(log, st, u, c, requested);
    if |rows| > size {
      CutAscending(log, rows, size);
      assert rows[size - 1] in rows;
    }
  }

  /** While messages arrive and memberships change between fetches: a finished sync lists messages in strictly ascending
      order, and a message visible throughout is listed exactly when it lies after the cursor the sync starts from.
      Applied from the fetch that follows an insertion, an insert is delivered exactly when it lies above the cursor. */
  lemma {:induction false} SyncUnderInserts(log: Log, stores: seq<Store>, u: UserId, c: Cursor, requested: int,
                                            id: MessageId)
    requires Finished(log, stores, u, c, requested)
    requires forall k | 0 <= k < |stores| :: Visible(log, stores[k], u, id)
    ensures var all := Pages(log, stores, u, c, requested);
            && Ascending(log, all) && (forall j | j in all :: Before(c, At(log, j)))
            && (id in all <==> Before(c, At(log, id)))
  {
    PagesAscend(log, stores, u, c, requested);
    PageBounds(log, stores[0], u, c, requested);
    var page := Fetch(log, stores[0], u, c, requested);
    if page.hasMore {
      SyncUnderInserts(log, stores[1..], u, page.next, requested, id);
    }
  }

  lemma {:induction false} PagesAscend(log: Log, stores: seq<Store>, u: UserId, c: Cursor, requested: int)
    ensures var all := Pages(log, stores, u, c, requested);
            Ascending(log, all) && (forall j | j in all :: Before(c, At(log, j)))
  {
    if stores != [] {
      PageBounds(log, stores[0], u, c, requested);
      var page := Fetch(log, stores[0], u, c, requested);
      if page.hasMore {
        PagesAscend(log, stores[1..], u, page.next, requested);
        var rest := Pages(log, stores[1..], u, page.next, requested);
        forall i, j | 0 <= i < |page.ids| && 0 <= j < |rest| ensures Before(At(log, page.ids[i]), At(log, rest[j])) {
          assert page.ids[i] in page.ids && rest[j] in rest;
        }
      }
    }
  }

  // ---- what is synced may be read ----

  /** What a user with a valid id is sent, that user may also read; the converse adds only what the user sent. */
  lemma SyncedMayBeRead(log: Log, st: Store, u: UserId, id: MessageId)
    requires id in st.present && u > 0
    ensures CanUserRead(log, st, u, id) <==> Visible(log, st, u, id) || (id in log && log[id].from == u)
  {
  }

  /** Every message of every page could be read by the user when the page was fetched. */
  lemma PagesMayBeRead(log: Log, st: Store, u: UserId, c: Cursor, requested: int, id: MessageId)
    requires u > 0 && id in Fetch(log, st, u, c, requested).ids
    ensures CanUserRead(log, st, u, id)
  {
    PageBounds(log, st, u, c, requested);
    SyncedMayBeRead(log, st, u, id);
  }

  /** A role change writes the membership's update time only. */
  function RoleChanged(st: Store, group: int, u: UserId, now: Time): Store {
    if (group, u) in st.members
    then st.(members := st.members[(group, u) := st.members[(group, u)].(updateTime := now)])
    else st
  }

  /** Role changes never alter what a member with a joining time sees; for a row without one they hide exactly the group
      messages between the old and the new update time. */
  lemma RoleChangeKeepsVisible(log: Log, st: Store, group: int, u: UserId, now: Time, v: UserId, id: MessageId)
    requires (group, u) in st.members
    ensures st.members[(group, u)].joinedAt.Some? || v != u ==>
              (Visible(log, RoleChanged(st, group, u, now), v, id) <==> Visible(log, st, v, id))
    ensures st.members[(group, u)].joinedAt.None? && now >= st.members[(group, u)].updateTime ==>
              (Visible(log, RoleChanged(st, group, u, now), u, id) <==>
                 Visible(log, st, u, id) && !(log[id].isGroup && log[id].to == group && log[id].timestamp < now))
  {
  }
}
