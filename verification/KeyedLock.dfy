/** The reference-counted lock per key: entries are created on demand, deleted with their last reference and created
    again, while threads wait, hold, give up and leave. */
module KeyedLock {
  import opened Common

  type Key = string
  type Thread = int
  type EntryId = int

  /** `full` says that the one-slot semaphore is taken. */
  datatype Entry = Entry(full: bool, refs: int)

  /** A thread that has a reference: waiting in the select, holding the lock, or about to release its reference. */
  datatype Stage = Waiting | Holding | Leaving
  datatype Client = Client(key: Key, entry: EntryId, stage: Stage)

  /** `heap` keeps deleted entries too, so that an old entry and a new one for the same key stay apart. */
  datatype World = World(heap: map<EntryId, Entry>, entries: map<Key, EntryId>, clients: map<Thread, Client>,
                         nextId: EntryId)

  const START := World(map[], map[], map[], 0)

  datatype Action =
    | Enter(t: Thread, key: Key)
    | Take(t: Thread)
    | Cancel(t: Thread)
    | Drain(t: Thread)
    | Leave(t: Thread)

  predicate InStage(w: World, t: Thread, stage: Stage) {
    t in w.clients && w.clients[t].stage == stage
  }

  function Get(w: World, id: EntryId): Entry {
    if id in w.heap then w.heap[id] else Entry(false, 0)
  }

  function Change(w: World, id: EntryId, e: Entry): World {
    w.(heap := w.heap[id := e])
  }

  function Restage(w: World, t: Thread, stage: Stage): World
    requires t in w.clients
  {
    w.(clients := w.clients[t := w.clients[t].(stage := stage)])
  }

  /** One atomic step: the two sections under the mutex, and the three ways through the channel operations. A step whose
      guard does not hold, such as taking a full semaphore, does not happen. */
  function Step(w: World, a: Action): World {
    match a
    case Enter(t, key) =>
      if t in w.clients then w
      else if key in w.entries then
        var id := w.entries[key];
        Change(w, id, Get(w, id).(refs := Get(w, id).refs + 1)).(clients := w.clients[t := Client(key, id, Waiting)])
      else
        World(w.heap[w.nextId := Entry(false, 1)], w.entries[key := w.nextId],
              w.clients[t := Client(key, w.nextId, Waiting)], w.nextId + 1)
    case Take(t) =>
      if InStage(w, t, Waiting) && !Get(w, w.clients[t].entry).full
      then Restage(Change(w, w.clients[t].entry, Get(w, w.clients[t].entry).(full := true)), t, Holding)
      else w
    case Cancel(t) => if InStage(w, t, Waiting) then Restage(w, t, Leaving) else w
    case Drain(t) =>
      if InStage(w, t, Holding) && Get(w, w.clients[t].entry).full
      then Restage(Change(w, w.clients[t].entry, Get(w, w.clients[t].entry).(full := false)), t, Leaving)
      else w
    case Leave(t) =>
      if InStage(w, t, Leaving) then
        var id := w.clients[t].entry;
        var e := Get(w, id).(refs := Get(w, id).refs - 1);
        Change(w, id, e).(clients := w.clients - {t},
                          entries := if e.refs == 0 then w.entries - {w.clients[t].key} else w.entries)
      else w
  }

  function Run(w: World, acts: seq<Action>): World
    decreases |acts|
  {
    if acts == [] then w else Run(Step(w, acts[0]), acts[1..])
  }

  // ---- the invariant ----

  function Users(w: World, id: EntryId): set<Thread> {
    set t | t in w.clients && w.clients[t].entry == id
  }

  /** Every client's entry is the one its key maps to. */
  predicate Routed(w: World) {
    && (forall t | t in w.clients :: w.clients[t].key in w.entries && w.entries[w.clients[t].key] == w.clients[t].entry)
    && (forall k | k in w.entries :: w.entries[k] in w.heap)
    && (forall j, k | j in w.entries && k in w.entries && w.entries[j] == w.entries[k] :: j == k)
    && (forall id | id in w.heap :: id < w.nextId)
  }

  /** An entry's count is its number of clients, and mapped entries have some. */
  ghost predicate Counted(w: World) {
    && (forall id | id in w.heap :: w.heap[id].refs == |Users(w, id)|)
    && (forall k | k in w.entries :: Users(w, w.entries[k]) != {})
  }

  /** The semaphore is taken exactly while one client holds it. */
  ghost predicate Exclusive(w: World) {
    && (forall t | t in w.clients && InStage(w, t, Holding) ::
          w.clients[t].entry in w.heap && w.heap[w.clients[t].entry].full)
    && (forall t, u | InStage(w, t, Holding) && InStage(w, u, Holding) && w.clients[t].entry == w.clients[u].entry ::
          t == u)
    && (forall k | k in w.entries && w.entries[k] in w.heap && w.heap[w.entries[k]].full ::
          HasHolder(w, w.entries[k]))
  }

  ghost predicate HasHolder(w: World, id: EntryId) {
    exists t :: Holds(w, t, id)
  }

  predicate Holds(w: World, t: Thread, id: EntryId) {
    InStage(w, t, Holding) && w.clients[t].entry == id
  }

  ghost predicate Inv(w: World) {
    Routed(w) && Counted(w) && Exclusive(w)
  }

  /** A new client of `key`, through the mapped entry or a new one. */
  predicate Joined(w: World, w2: World, t: Thread, key: Key, id: EntryId) {
    && t !in w.clients && w2.clients == w.clients[t := Client(key, id, Waiting)]
    && w2.entries == w.entries[key := id]
    && w2.heap == w.heap[id := Entry(Get(w, id).full, Get(w, id).refs + 1)]
    && (if key in w.entries then id == w.entries[key] else id == w.nextId && id !in w.heap)
    && w.nextId <= w2.nextId && id < w2.nextId
  }

  predicate Left(w: World, w2: World, t: Thread, id: EntryId) {
    && InStage(w, t, Leaving) && w.clients[t].entry == id && id in w.heap
    && w2.clients == w.clients - {t} && w2.nextId == w.nextId
    && w2.heap == w.heap[id := Entry(w.heap[id].full, w.heap[id].refs - 1)]
    && w2.entries == if w.heap[id].refs == 1 then w.entries - {w.clients[t].key} else w.entries
  }

  /** A client changes stage, and takes or frees the semaphore as it starts or stops holding. */
  predicate Passed(w: World, w2: World, t: Thread, id: EntryId, stage: Stage) {
    && t in w.clients && w.clients[t].entry == id && id in w.heap
    && w2.clients == w.clients[t := w.clients[t].(stage := stage)]
    && w2.entries == w.entries && w2.nextId == w.nextId
    && id in w2.heap && w2.heap == w.heap[id := Entry(w2.heap[id].full, w.heap[id].refs)]
    && match w.clients[t].stage
       case Waiting => if stage == Holding then !w.heap[id].full && w2.heap[id].full
                       else stage == Leaving && w2.heap[id].full == w.heap[id].full
       case Holding => stage == Leaving && !w2.heap[id].full
       case Leaving => false
  }

  lemma StepEffect(w: World, a: Action)
    requires Routed(w)
    ensures var w2 := Step(w, a);
            || w2 == w
            || (a.Enter? && Joined(w, w2, a.t, a.key, if a.key in w.entries then w.entries[a.key] else w.nextId))
            || (a.t in w.clients && a.Leave? && Left(w, w2, a.t, w.clients[a.t].entry))
            || (a.t in w.clients && !a.Enter? && !a.Leave?
                && Passed(w, w2, a.t, w.clients[a.t].entry, if a.Take? then Holding else Leaving))
  {
  }

  lemma JoinedRouted(w: World, w2: World, t: Thread, key: Key, id: EntryId)
    requires Inv(w) && Joined(w, w2, t, key, id)
    ensures Routed(w2)
  {
  }

  lemma JoinedCounted(w: World, w2: World, t: Thread, key: Key, id: EntryId)
    requires Inv(w) && Joined(w, w2, t, key, id)
    ensures Counted(w2)
  {
    hide Exclusive;
    assert Users(w2, id) == Users(w, id) + {t};
    forall i | i != id ensures Users(w2, i) == Users(w, i) {
    }
    if key !in w.entries {
      forall u | u in w.clients ensures w.clients[u].entry != id {
        assert w.entries[w.clients[u].key] in w.heap;
      }
      assert Users(w, id) == {};
    }
  }

  lemma JoinedExclusive(w: World, w2: World, t: Thread, key: Key, id: EntryId)
    requires Inv(w) && Joined(w, w2, t, key, id)
    ensures Exclusive(w2)
  {
    hide Counted;
    SameHolders(w, w2);
  }

  lemma LeftRouted(w: World, w2: World, t: Thread, id: EntryId)
    requires Inv(w) && Left(w, w2, t, id)
    ensures Routed(w2)
  {
    hide Exclusive;
    if w.heap[id].refs == 1 {
      LeavingLast(w, t);
    }
  }

  lemma LeftCounted(w: World, w2: World, t: Thread, id: EntryId)
    requires Inv(w) && Left(w, w2, t, id)
    ensures Counted(w2)
  {
    hide Exclusive;
    assert Users(w2, id) == Users(w, id) - {t};
    forall i | i != id ensures Users(w2, i) == Users(w, i) {
    }
  }

  lemma LeftExclusive(w: World, w2: World, t: Thread, id: EntryId)
    requires Inv(w) && Left(w, w2, t, id)
    ensures Exclusive(w2)
  {
    hide Counted;
    SameHolders(w, w2);
  }

  lemma PassedRouted(w: World, w2: World, t: Thread, id: EntryId, stage: Stage)
    requires Inv(w) && Passed(w, w2, t, id, stage)
    ensures Routed(w2)
  {
  }

  lemma PassedCounted(w: World, w2: World, t: Thread, id: EntryId, stage: Stage)
    requires Inv(w) && Passed(w, w2, t, id, stage)
    ensures Counted(w2)
  {
    hide Exclusive;
    forall i ensures Users(w2, i) == Users(w, i) {
    }
  }

  lemma PassedExclusive(w: World, w2: World, t: Thread, id: EntryId, stage: Stage)
    requires Inv(w) && Passed(w, w2, t, id, stage)
    ensures Exclusive(w2)
  {
    hide Counted;
    forall k | k in w2.entries && w2.heap[w2.entries[k]].full ensures HasHolder(w2, w2.entries[k]) {
      var i := w.entries[k];
      if i == id && stage == Holding {
        assert Holds(w2, t, i);
      } else {
        assert HasHolder(w, i);
        var u :| Holds(w, u, i);
        assert Holds(w2, u, i);
      }
    }
  }

  lemma SameHolders(w: World, w2: World)
    requires forall t | InStage(w, t, Holding) :: t in w2.clients && w2.clients[t] == w.clients[t]
    ensures forall id | HasHolder(w, id) :: HasHolder(w2, id)
  {
    forall id | HasHolder(w, id) ensures HasHolder(w2, id) {
      var t :| Holds(w, t, id);
      assert Holds(w2, t, id);
    }
  }

  /** When the count drops to zero nobody else uses the entry. */
  lemma LeavingLast(w: World, t: Thread)
    requires Inv(w) && InStage(w, t, Leaving) && w.heap[w.clients[t].entry].refs == 1
    ensures forall u | u in w.clients && w.clients[u].entry == w.clients[t].entry :: u == t
  {
    hide Exclusive;
    var users := Users(w, w.clients[t].entry);
    assert t in users && |users - {t}| == 0;
    forall u | u in w.clients && w.clients[u].entry == w.clients[t].entry ensures u == t {
      assert u in users && users - {t} == {};
    }
  }

  lemma StepKeepsInv(w: World, a: Action)
    requires Inv(w)
    ensures Inv(Step(w, a))
  {
    hide Step, Routed, Counted, Exclusive, Joined, Left, Passed;
    var w2 := Step(w, a);
    StepEffect(w, a);
    if w2 != w {
      if a.Enter? {
        var id := if a.key in w.entries then w.entries[a.key] else w.nextId;
        JoinedRouted(w, w2, a.t, a.key, id);
        JoinedCounted(w, w2, a.t, a.key, id);
        JoinedExclusive(w, w2, a.t, a.key, id);
      } else if a.Leave? {
        LeftRouted(w, w2, a.t, w.clients[a.t].entry);
        LeftCounted(w, w2, a.t, w.clients[a.t].entry);
        LeftExclusive(w, w2, a.t, w.clients[a.t].entry);
      } else {
        var stage := if a.Take? then Holding else Leaving;
        PassedRouted(w, w2, a.t, w.clients[a.t].entry, stage);
        PassedCounted(w, w2, a.t, w.clients[a.t].entry, stage);
        PassedExclusive(w, w2, a.t, w.clients[a.t].entry, stage);
      }
    }
  }

  // ---- over all interleavings ----

  lemma {:induction false} RunKeepsInv(w: World, acts: seq<Action>)
    requires Inv(w)
    ensures Inv(Run(w, acts))
    decreases |acts|
  {
    hide Inv, Step;
    if acts != [] {
      StepKeepsInv(w, acts[0]);
      RunKeepsInv(Step(w, acts[0]), acts[1..]);
    }
  }

  /** At most one thread holds a key, however often its entry was deleted and created again. */
  lemma MutualExclusion(acts: seq<Action>, t: Thread, u: Thread)
    requires InStage(Run(START, acts), t, Holding) && InStage(Run(START, acts), u, Holding)
    requires Run(START, acts).clients[t].key == Run(START, acts).clients[u].key
    ensures t == u
  {
    assert Inv(START);
    RunKeepsInv(START, acts);
  }

  function Staged(w: World, k: Key, stage: Stage): set<Thread> {
    set t | t in w.clients && w.clients[t].key == k && InStage(w, t, stage)
  }

  /** The map holds exactly the keys somebody refers to, and the count of an entry is its holders (at most one), its
      waiters and those on their way out. */
  lemma CountsReferences(acts: seq<Action>, k: Key)
    ensures var w := Run(START, acts);
            && (k in w.entries <==> exists t :: t in w.clients && w.clients[t].key == k)
            && (k in w.entries ==>
                  w.entries[k] in w.heap
                  && w.heap[w.entries[k]].refs
                     == |Staged(w, k, Holding)| + |Staged(w, k, Waiting)| + |Staged(w, k, Leaving)|
                  && |Staged(w, k, Holding)| == if w.heap[w.entries[k]].full then 1 else 0)
  {
    assert Inv(START);
    RunKeepsInv(START, acts);
    var w := Run(START, acts);
    if k in w.entries {
      if forall t | t in w.clients :: w.clients[t].key != k {
        NoUsers(w, k);
        assert false;
      }
      KeyCounts(w, k);
      HolderCount(w, k);
    }
  }

  lemma NoUsers(w: World, k: Key)
    requires Routed(w) && k in w.entries && forall t | t in w.clients :: w.clients[t].key != k
    ensures Users(w, w.entries[k]) == {}
  {
    SameKey(w, k);
    forall t ensures t !in Users(w, w.entries[k]) {
      assert t in w.clients ==> w.clients[t].key != k;
    }
  }

  lemma SameKey(w: World, k: Key)
    requires Routed(w) && k in w.entries
    ensures forall t | t in w.clients :: w.clients[t].entry == w.entries[k] <==> w.clients[t].key == k
  {
  }

  lemma KeyCounts(w: World, k: Key)
    requires Inv(w) && k in w.entries
    ensures w.entries[k] in w.heap
    ensures w.heap[w.entries[k]].refs == |Staged(w, k, Holding)| + |Staged(w, k, Waiting)| + |Staged(w, k, Leaving)|
  {
    var h, a, l := Staged(w, k, Holding), Staged(w, k, Waiting), Staged(w, k, Leaving);
    SameKey(w, k);
    forall t ensures t in Users(w, w.entries[k]) <==> t in h + a + l {
    }
    assert Users(w, w.entries[k]) == h + a + l;
    assert |h + a| == |h| + |a| && |h + a + l| == |h + a| + |l|;
  }

  lemma HolderCount(w: World, k: Key)
    requires Inv(w) && k in w.entries && w.entries[k] in w.heap
    ensures |Staged(w, k, Holding)| == if w.heap[w.entries[k]].full then 1 else 0
  {
    var id := w.entries[k];
    SameKey(w, k);
    assert forall t :: Holds(w, t, id) <==> t in Staged(w, k, Holding);
    if w.heap[id].full {
      assert HasHolder(w, id);
      var t :| Holds(w, t, id);
      assert Staged(w, k, Holding) == {t};
    } else {
      assert forall t :: !Holds(w, t, id);
      assert Staged(w, k, Holding) == {};
    }
  }

  /** A waiter can take the lock exactly when nobody holds its key: no release is lost to a deleted entry. */
  lemma FreeIffUnheld(acts: seq<Action>, t: Thread)
    requires InStage(Run(START, acts), t, Waiting)
    ensures var w := Run(START, acts);
            w.clients[t].entry in w.heap
            && (InStage(Step(w, Take(t)), t, Holding) <==> Staged(w, w.clients[t].key, Holding) == {})
  {
    assert Inv(START);
    RunKeepsInv(START, acts);
    var w := Run(START, acts);
    HolderCount(w, w.clients[t].key);
    if Staged(w, w.clients[t].key, Holding) != {} {
      assert |Staged(w, w.clients[t].key, Holding)| > 0;
    }
  }

  // ---- the locker changed in place ----

  /** Entering finds or creates the entry of the key and counts one more reference to it. */
  lemma EnterCounts(w: World, t: Thread, key: Key)
    requires Inv(w) && t !in w.clients
    ensures var w2, id := Step(w, Enter(t, key)), if key in w.entries then w.entries[key] else w.nextId;
            && w2.heap == w.heap[id := Get(w, id)][id := Entry(Get(w, id).full, Get(w, id).refs + 1)]
            && w2.entries == w.entries[key := id] && w2.clients == w.clients[t := Client(key, id, Waiting)]
            && (key !in w.entries ==> id !in w.heap)
  {
    hide Counted, Exclusive;
    var id := if key in w.entries then w.entries[key] else w.nextId;
    var e, e2 := Get(w, id), Entry(Get(w, id).full, Get(w, id).refs + 1);
    assert w.heap[id := e][id := e2] == w.heap[id := e2];
    assert key in w.entries ==> w.entries[key := id] == w.entries;
  }

  lemma LeaveLeaves(w: World, t: Thread)
    requires Inv(w) && InStage(w, t, Leaving)
    ensures Inv(Step(w, Leave(t))) && Left(w, Step(w, Leave(t)), t, w.clients[t].entry)
    ensures w.clients[t].key in w.entries && w.entries[w.clients[t].key] == w.clients[t].entry
    ensures forall j, k | j in w.entries && k in w.entries && w.entries[j] == w.entries[k] :: j == k
    ensures forall k | k in w.entries :: w.entries[k] in w.heap
  {
    StepKeepsInv(w, Leave(t));
    hide Counted, Exclusive;
  }

  predicate CanMove(w: World, t: Thread, a: Action) {
    || (InStage(w, t, Waiting) && (a == Cancel(t) || (a == Take(t) && !Get(w, w.clients[t].entry).full)))
    || (InStage(w, t, Holding) && a == Drain(t))
  }

  lemma TakeWaits(w: World, t: Thread)
    requires InStage(w, t, Waiting) && Get(w, w.clients[t].entry).full
    ensures Step(w, Take(t)) == w
  {
  }

  /** What a move of a waiting or holding thread does to the semaphore. */
  lemma MovePasses(w: World, t: Thread, a: Action)
    requires Inv(w) && CanMove(w, t, a)
    ensures Inv(Step(w, a)) && Passed(w, Step(w, a), t, w.clients[t].entry, if a.Take? then Holding else Leaving)
  {
    StepKeepsInv(w, a);
    hide Counted, Exclusive;
  }

  class LockEntry {
    var full: bool
    var refs: int

    constructor ()
      ensures !full && refs == 0
    {
      full, refs := false, 0;
    }
  }

  class KeyedLocker {
    var entries: map<Key, LockEntry>
    ghost var model: World
    ghost var cells: map<EntryId, LockEntry>

    /** The objects hold what the model's entries say, and the map holds the objects that the model's map names. */
    ghost predicate Shows(heap: map<EntryId, Entry>, ids: map<Key, EntryId>)
      reads this`cells, this`entries, cells.Values
    {
      && cells.Keys == heap.Keys && entries.Keys == ids.Keys
      && (forall id | id in cells :: cells[id].full == heap[id].full && cells[id].refs == heap[id].refs)
      && (forall i, j | i in cells && j in cells && cells[i] == cells[j] :: i == j)
      && (forall k | k in entries :: ids[k] in cells && entries[k] == cells[ids[k]])
    }

    ghost predicate Valid()
      reads this, cells.Values
    {
      Inv(model) && Shows(model.heap, model.entries)
    }

    /** Thread t refers to the entry of its key, at the given stage. */
    ghost predicate At(t: Thread, key: Key, entry: LockEntry, stage: Stage)
      reads this
    {
      InStage(model, t, stage) && model.clients[t].key == key && model.clients[t].entry in cells
      && cells[model.clients[t].entry] == entry
    }

    constructor ()
      ensures Valid() && model == START && entries == map[]
    {
      entries, model, cells := map[], START, map[];
    }

    method FindOrCreate(key: Key, ghost id: EntryId) returns (entry: LockEntry)
      requires Valid() && id == if key in model.entries then model.entries[key] else model.nextId
      requires key !in model.entries ==> id !in model.heap
      modifies this`entries, this`cells
      ensures Shows(model.heap[id := Get(model, id)], model.entries[key := id])
      ensures cells == old(cells)[id := entry] && entries == old(entries)[key := entry]
      ensures forall i | i in old(cells) :: i in cells && cells[i] == old(cells)[i]
      ensures forall i | i in cells && i !in old(cells) :: cells[i] == entry && fresh(entry)
      ensures if key in old(entries) then entry == old(entries)[key] else fresh(entry) && entry.refs == 0 && !entry.full
    {
      hide Inv;
      if key in entries {
        entry := entries[key];
      } else {
        entry := new LockEntry();
        entries := entries[key := entry];
        cells := cells[id := entry];
      }
    }

    method CountReference(entry: LockEntry, ghost heap: map<EntryId, Entry>, ghost ids: map<Key, EntryId>,
                          ghost id: EntryId)
      requires Shows(heap, ids) && id in cells && cells[id] == entry
      modifies entry
      ensures Shows(heap[id := Entry(heap[id].full, heap[id].refs + 1)], ids)
      ensures entry.refs == old(entry.refs) + 1 && entry.full == old(entry.full)
    {
      entry.refs := entry.refs + 1;
    }

    /** The first section under the mutex: find or create the entry and count the reference. */
    method Reference(key: Key, ghost t: Thread) returns (entry: LockEntry)
      requires Valid() && t !in model.clients
      modifies this, cells.Values
      ensures Valid() && model == Step(old(model), Enter(t, key)) && At(t, key, entry, Waiting)
      ensures forall id | id in old(cells) :: id in cells && cells[id] == old(cells)[id]
      ensures forall id | id in cells && id !in old(cells) :: cells[id] == entry && fresh(entry)
      ensures entries == old(entries)[key := entry]
      ensures key in old(entries) ==>
                entry == old(entries)[key] && entry.refs == old(entries[key].refs) + 1
                && entry.full == old(entries[key].full)
      ensures key !in old(entries) ==> fresh(entry) && entry.refs == 1 && !entry.full
    {
      hide Inv, Step, Shows;
      EnterCounts(model, t, key);
      StepKeepsInv(model, Enter(t, key));
      ghost var id := if key in model.entries then model.entries[key] else model.nextId;
      entry := FindOrCreate(key, id);
      CountReference(entry, model.heap[id := Get(model, id)], model.entries[key := id], id);
      model := Step(model, Enter(t, key));
    }

    /** releaseReference: the entry goes away with its last reference. */
    method ReleaseReference(key: Key, entry: LockEntry, ghost t: Thread)
      requires Valid() && At(t, key, entry, Leaving)
      modifies this`entries, this`model, entry
      ensures Valid() && model == Step(old(model), Leave(t))
      ensures entry.refs == old(entry.refs) - 1 && entry.full == old(entry.full)
      ensures entries == if old(entry.refs) == 1 then old(entries) - {key} else old(entries)
    {
      hide Inv, Step;
      LeaveLeaves(model, t);
      entry.refs := entry.refs - 1;
      if entry.refs == 0 {
        entries := entries - {key};
      }
      model := Step(model, Leave(t));
    }

    method SetFull(entry: LockEntry, full: bool, ghost heap: map<EntryId, Entry>, ghost ids: map<Key, EntryId>,
                   ghost id: EntryId)
      requires Shows(heap, ids) && id in cells && cells[id] == entry
      modifies entry
      ensures Shows(heap[id := Entry(full, heap[id].refs)], ids)
      ensures entry.full == full && entry.refs == old(entry.refs)
    {
      entry.full := full;
    }

    /** The select: with the context done it may give up, otherwise it sends to the semaphore once there is room. */
    method Select(key: Key, entry: LockEntry, givesUp: bool, ghost t: Thread) returns (stage: Stage)
      requires Valid() && At(t, key, entry, Waiting)
      modifies this`entries, this`model, entry
      ensures Valid()
      ensures model == if givesUp then Step(Step(old(model), Cancel(t)), Leave(t)) else Step(old(model), Take(t))
      ensures stage == if givesUp then Leaving else if old(entry.full) then Waiting else Holding
      ensures !givesUp ==> At(t, key, entry, stage)
      ensures entry.full == (old(entry.full) || stage == Holding)
      ensures entry.refs == old(entry.refs) - (if stage == Leaving then 1 else 0)
      ensures entries == if stage == Leaving && old(entry.refs) == 1 then old(entries) - {key} else old(entries)
    {
      hide Inv, Step;
      if givesUp {
        MovePasses(model, t, Cancel(t));
        model := Step(model, Cancel(t));
        ReleaseReference(key, entry, t);
        return Leaving;
      }
      if entry.full {
        TakeWaits(model, t);
        return Waiting;
      }
      MovePasses(model, t, Take(t));
      SetFull(entry, true, model.heap, model.entries, model.clients[t].entry);
      model := Step(model, Take(t));
      return Holding;
    }

    /** The unlock function: drain the semaphore, then give the reference back. */
    method Unlock(key: Key, entry: LockEntry, ghost t: Thread)
      requires Valid() && At(t, key, entry, Holding)
      modifies this`entries, this`model, entry
      ensures Valid() && model == Step(Step(old(model), Drain(t)), Leave(t))
      ensures !entry.full && entry.refs == old(entry.refs) - 1
      ensures entries == if old(entry.refs) == 1 then old(entries) - {key} else old(entries)
    {
      assert entry.full;
      MovePasses(model, t, Drain(t));
      hide Inv, Step;
      SetFull(entry, false, model.heap, model.entries, model.clients[t].entry);
      model := Step(model, Drain(t));
      ReleaseReference(key, entry, t);
    }
  }
}
