/** Silo's transaction engine as a step relation: optimistic read-write transactions
    (silo/txn_impl.h), version chains (silo/tuple.h), epoch snapshots and version garbage
    collection (silo/txn_proto2_impl.h, .cc), all driven by the ticker of silo/ticker.h.

    One access to one tuple or to the tree (a search, a stable read, a validation check, a write_record_at,
    an unlock, a removal from the tree) is one step; module Seqlock shows why a stable read and a validation
    check are atomic. */
module Engine {
  import Tid
  import Ticker
  import Rcu

  type Ptr = nat
  type Name = string
  type Value = string    // "" is an absent (deleted) record

  /** A key of the tree and how often it had been inserted before: history only, the source knows the name. */
  datatype Key = Key(name: Name, gen: nat)

  datatype Option<+T> = None | Some(value: T)

  /** A dbtuple. The last three fields are history variables: no step's guard looks at them. */
  datatype Tuple = Tuple(
    key: Key,
    owner: Option<nat>,    // transaction holding the lock, always with write intent
    latest: bool,
    modifying: bool,
    version: nat,
    value: Value,
    alloc: nat,            // room for a record
    next: Option<Ptr>,
    freed: bool,
    pos: nat,              // which write of the key's history this tuple holds
    draft: bool,           // holds an inserted value that its own transaction overwrites
    sup: Option<nat>)      // epoch of the write that put a newer version in front of it

  datatype ReadRec = ReadRec(ptr: Ptr, tid: nat, value: Value)

  datatype Result = Result(key: Key, value: Value)

  datatype Phase =
    | Running
    | Locking(done: nat)       // so many tuples of the lock order are locked
    | Validating(done: nat)    // so many reads are validated
    | Writing | Unlocking | Committed
    | Aborting | Aborted

  datatype Txn = Txn(
    core: nat,
    tick: nat,                 // tick of the guard it runs under
    start: nat,                // last_tick_inclusive when it began
    snapshot: bool,
    snapTid: nat,              // last_consistent_tid, for a snapshot transaction
    phase: Phase,
    cursor: Option<Ptr>,       // the tuple a search returned
    readSet: seq<ReadRec>,
    inserts: set<Ptr>,
    puts: map<Ptr, Value>,     // the last value put to each tuple
    order: seq<Ptr>,           // tuples to lock, by address
    marks: set<Ptr>,           // write entries marked as locked that no unlock loop has visited
    unlinked: set<Ptr>,        // inserts the abort loop has taken out of the tree
    written: set<Ptr>,         // puts already applied
    results: seq<Result>,      // what a snapshot transaction has read
    tid: nat,
    epoch: nat,
    // history variables
    held: set<Ptr>,            // tuples it holds the lock of
    serial: bool,              // it has an entry in the log
    pos: nat,                  // which
    applied: map<Key, nat>)    // its writes that are in the histories, and where

  /** One transaction at the moment all its write locks are held. */
  datatype Entry = Entry(txn: nat, tid: nat, epoch: nat, writes: map<Key, Value>)

  /** One applied write of a key. */
  datatype Ver = Ver(pos: nat, tid: nat, epoch: nat, value: Value)

  /** A delete_entry: a superseded version to free, or a deletion marker to take out of the tree. */
  datatype Item = Item(ptr: Ptr, tick: nat, marker: bool)

  /** Where a core's cleaner stands with a deletion marker: its lock is taken, its key is out of the tree. */
  datatype Sweep = Resting | Locked(ptr: Ptr) | Removed(ptr: Ptr)

  datatype State = State(
    m: nat,                    // ReadOnlyEpochMultiplier
    rm: nat,                   // the multiplier of read-copy-update
    tk: Ticker.State,
    tuples: map<Ptr, Tuple>,
    tree: map<Name, Ptr>,      // the B-tree
    txns: map<nat, Txn>,
    lastTid: seq<nat>,         // per core
    queue: seq<seq<Item>>,     // per core, versions and markers waiting for the cleaner
    gc: seq<nat>,              // per core, the exclusive read-only tick its cleaner may free below
    clean: seq<Sweep>,         // per core, the marker its cleaner is at
    rcu: seq<seq<Item>>,       // per core, tuples waiting for a grace period
    // history variables
    index: map<Key, Ptr>,      // the latest tuple of each key
    born: set<Key>,            // every key ever inserted
    shut: set<Key>,            // those whose tuple has left the tree
    gone: map<Ptr, nat>,       // tuples handed to read-copy-update, and the tick of the guard it was done under
    log: seq<Entry>,
    hist: map<Key, seq<Ver>>)

  function H(s: State, k: Key): seq<Ver> {
    if k in s.hist then s.hist[k] else []
  }

  predicate Live(t: Txn) { t.phase != Committed && t.phase != Aborted }

  /** The transaction has passed validation: its writes will all be applied. */
  predicate Decided(t: Txn) { t.phase == Writing || t.phase == Unlocking || t.phase == Committed }

  function Ro(s: State, epoch: nat): nat
    requires s.m >= 1
  {
    Tid.ToReadOnlyTick(epoch, s.m)
  }

  /** A snapshot transaction sees exactly the epochs whose read-only tick is below this. */
  function Limit(s: State, t: Txn): nat
    requires s.m >= 1
  {
    Ro(s, t.start + 1)
  }

  function Elems<T>(q: seq<T>): set<T> { set e | e in q }

  predicate Ascending(q: seq<Ptr>) {
    forall i, j :: 0 <= i < j < |q| ==> q[i] < q[j]
  }

  /** What a transaction whose write tuples are all locked and latest writes, by key. */
  function Writes(s: State, t: Txn): map<Key, Value> {
    map k | k in s.index && (s.index[k] in t.puts || s.index[k] in t.inserts)
      :: if s.index[k] in t.puts then t.puts[s.index[k]]
         else if s.index[k] in s.tuples then s.tuples[s.index[k]].value else ""
  }

  /** The identifiers gen_commit_tid maximises over. */
  function SeenTids(s: State, t: Txn): set<nat> {
    (set r | r in t.readSet :: r.tid)
    + (set p | p in t.puts && p !in t.inserts && p in s.tuples :: s.tuples[p].version)
  }

  function WithTxn(s: State, x: nat, t: Txn): State { s.(txns := s.txns[x := t]) }

  function WithTuple(s: State, p: Ptr, u: Tuple): State { s.(tuples := s.tuples[p := u]) }

  // ----- initial state

  ghost predicate Init(s: State) {
    && s.m >= 1 && s.rm >= 1 && Ticker.Init(s.tk) && |s.tk.cores| <= Tid.CORES
    && s.tuples == map[] && s.tree == map[] && s.txns == map[]
    && s.index == map[] && s.born == {} && s.shut == {} && s.gone == map[] && s.log == [] && s.hist == map[]
    && s.lastTid == seq(|s.tk.cores|, _ => 0)
    && s.queue == seq(|s.tk.cores|, _ => [])
    && s.gc == seq(|s.tk.cores|, _ => 0)
    && s.clean == seq(|s.tk.cores|, _ => Resting)
    && s.rcu == seq(|s.tk.cores|, _ => [])
  }

  // ----- execution phase

  /** The thread of core c runs no transaction. */
  ghost predicate Between(s: State, c: nat) {
    forall y :: y in s.txns && Live(s.txns[y]) ==> s.txns[y].core != c
  }

  ghost predicate Begin(s: State, s': State, x: nat, c: nat, snapshot: bool) {
    && x !in s.txns && Ticker.Open(s.tk, c) && s.m >= 1 && Between(s, c) && c < |s.clean| && s.clean[c] == Resting
    && s' == WithTxn(s, x, Txn(c, s.tk.cores[c].tick, s.tk.last, snapshot, Tid.ComputeReadOnlyTid(s.tk.last + 1, s.m),
                               Running, None, [], {}, map[], [], {}, {}, {}, [],
                               0, 0, {}, false, 0, map[]))
  }

  predicate IsRunning(s: State, x: nat) { x in s.txns && s.txns[x].phase == Running }

  /** A search of the tree that finds a tuple. */
  ghost predicate Lookup(s: State, s': State, x: nat, n: Name) {
    && IsRunning(s, x) && n in s.tree
    && s' == WithTxn(s, x, s.txns[x].(cursor := Some(s.tree[n])))
  }

  /** record_at by a read-write transaction. A tentative insert reads as absent at MIN_TID. */
  ghost predicate Read(s: State, s': State, x: nat) {
    && IsRunning(s, x) && !s.txns[x].snapshot && s.txns[x].cursor.Some? && s.txns[x].cursor.value in s.tuples
    && var p := s.txns[x].cursor.value;
       var u := s.tuples[p];
       && (u.version == Tid.MAX_TID || (u.owner == None && !u.modifying))
       && var r := if u.version == Tid.MAX_TID then ReadRec(p, Tid.MIN_TID, "") else ReadRec(p, u.version, u.value);
          s' == WithTxn(s, x, s.txns[x].(cursor := None, readSet := s.txns[x].readSet + [r]))
  }

  ghost predicate Put(s: State, s': State, x: nat, v: Value) {
    && IsRunning(s, x) && !s.txns[x].snapshot && s.txns[x].cursor.Some? && s.txns[x].cursor.value in s.tuples
    && s' == WithTxn(s, x, s.txns[x].(cursor := None, puts := s.txns[x].puts[s.txns[x].cursor.value := v]))
  }

  /** The name's next key. */
  predicate Next(s: State, k: Key) {
    && (forall b :: b in s.born && b.name == k.name ==> b.gen < k.gen)
    && (k.gen > 0 ==> Key(k.name, k.gen - 1) in s.born)
  }

  /** try_insert_new_tuple: a fresh tuple, locked, at MAX_TID, goes into the tree if the key is not there. */
  ghost predicate Insert(s: State, s': State, x: nat, k: Key, v: Value, p: Ptr, room: nat) {
    && IsRunning(s, x) && !s.txns[x].snapshot && k.name !in s.tree && Next(s, k) && p !in s.tuples && |v| <= room
    && s' == WithTuple(WithTxn(s, x, s.txns[x].(inserts := s.txns[x].inserts + {p}, held := s.txns[x].held + {p})),
                       p, Tuple(k, Some(x), true, false, Tid.MAX_TID, v, room, None, false, 0, false, None))
             .(tree := s.tree[k.name := p], index := s.index[k := p], born := s.born + {k})
  }

  // ----- snapshot reads

  ghost predicate SnapMiss(s: State, s': State, x: nat, k: Key) {
    && IsRunning(s, x) && s.txns[x].snapshot && k.name !in s.tree && Next(s, k)
    && s' == WithTxn(s, x, s.txns[x].(results := s.txns[x].results + [Result(k, "")]))
  }

  /** One tuple of record_at or record_at_chain: stop, or move on to the next older version. */
  ghost predicate SnapRead(s: State, s': State, x: nat) {
    && IsRunning(s, x) && s.txns[x].snapshot && s.txns[x].cursor.Some? && s.txns[x].cursor.value in s.tuples
    && var t := s.txns[x];
       var u := s.tuples[t.cursor.value];
       && (u.version == Tid.MAX_TID || !u.modifying)
       && s' == WithTxn(s, x,
            if u.version == Tid.MAX_TID then
              t.(cursor := None, results := t.results + [Result(u.key, "")])
            else if u.version <= t.snapTid then
              t.(cursor := None, results := t.results + [Result(u.key, u.value)])
            else if u.next == None then
              t.(cursor := None, results := t.results + [Result(u.key, "")])
            else t.(cursor := u.next))
  }

  ghost predicate SnapDone(s: State, s': State, x: nat) {
    && IsRunning(s, x) && s.txns[x].snapshot
    && s' == WithTxn(s, x, s.txns[x].(cursor := None, phase := Committed))
  }

  // ----- commit

  ghost predicate StartCommit(s: State, s': State, x: nat, order: seq<Ptr>) {
    && IsRunning(s, x) && !s.txns[x].snapshot
    && Ascending(order) && Elems(order) == s.txns[x].puts.Keys - s.txns[x].inserts
    && s' == WithTxn(s, x, s.txns[x].(cursor := None, phase := Locking(0), order := order, marks := s.txns[x].inserts))
  }

  predicate AtLock(s: State, x: nat) {
    && x in s.txns && s.txns[x].phase.Locking? && s.txns[x].phase.done < |s.txns[x].order|
    && s.txns[x].order[s.txns[x].phase.done] in s.tuples
  }

  function LockTarget(s: State, x: nat): Ptr
    requires AtLock(s, x)
  {
    s.txns[x].order[s.txns[x].phase.done]
  }

  /** The next tuple is another transaction's tentative insert: abort rather than wait. */
  ghost predicate LockReject(s: State, s': State, x: nat) {
    && AtLock(s, x) && s.tuples[LockTarget(s, x)].version == Tid.MAX_TID
    && s' == WithTxn(s, x, s.txns[x].(phase := Aborting))
  }

  /** A cleaner holds the tuple's lock, without write intent. */
  predicate Swept(s: State, p: Ptr) {
    exists c :: 0 <= c < |s.clean| && s.clean[c] != Resting && s.clean[c].ptr == p
  }

  /** Take the next lock and mark it; abort if the tuple is no longer the latest. */
  ghost predicate LockTake(s: State, s': State, x: nat) {
    && AtLock(s, x)
    && var t, p := s.txns[x], LockTarget(s, x);
       var u := s.tuples[p];
       && u.version != Tid.MAX_TID && u.owner == None && !Swept(s, p)
       && s' == WithTuple(WithTxn(s, x, t.(held := t.held + {p}, marks := t.marks + {p},
                                          phase := if u.latest then Locking(t.phase.done + 1) else Aborting)),
                          p, u.(owner := Some(x)))
  }

  predicate AllLocked(s: State, x: nat) {
    x in s.txns && s.txns[x].phase.Locking? && s.txns[x].phase.done == |s.txns[x].order|
  }

  predicate HasWrites(t: Txn) { t.puts != map[] || t.inserts != {} }

  /** gen_commit_tid, with the epoch load as its one shared access: the serialization point. */
  ghost predicate Serialize(s: State, s': State, x: nat, tid: nat) {
    && AllLocked(s, x) && s.txns[x].core < |s.lastTid|
    && var t := s.txns[x];
       && (if HasWrites(t)
           then s.tk.current < 0x7FFF_FFFF
                && Tid.Chosen(tid, t.core, s.tk.current, s.lastTid[t.core], SeenTids(s, t))
           else tid == 0)
       && s' == WithTxn(s, x, t.(phase := Validating(0), tid := tid, epoch := s.tk.current, serial := true,
            pos := |s.log|))
                .(log := s.log + [Entry(x, tid, s.tk.current, Writes(s, t))],
                  lastTid := if HasWrites(t) then s.lastTid[t.core := tid] else s.lastTid)
  }

  /** Validation of one read: is_latest_version for a tuple of the write set, stable_is_latest_version otherwise. */
  predicate Passes(s: State, t: Txn, r: ReadRec) {
    && r.ptr in s.tuples
    && s.tuples[r.ptr].latest && s.tuples[r.ptr].version <= r.tid
    && (r.ptr in t.puts || r.ptr in t.inserts || s.tuples[r.ptr].owner == None)
  }

  ghost predicate Validate(s: State, s': State, x: nat) {
    && x in s.txns && s.txns[x].phase.Validating? && s.txns[x].phase.done < |s.txns[x].readSet|
    && Passes(s, s.txns[x], s.txns[x].readSet[s.txns[x].phase.done])
    && s' == WithTxn(s, x, s.txns[x].(phase := Validating(s.txns[x].phase.done + 1)))
  }

  ghost predicate Decide(s: State, s': State, x: nat) {
    && x in s.txns && s.txns[x].phase.Validating? && s.txns[x].phase.done == |s.txns[x].readSet|
    && s' == WithTxn(s, x, s.txns[x].(phase := Writing))
  }

  /** A user abort, which goes over the inserts of the write set, or a failed validation check. */
  ghost predicate GiveUp(s: State, s': State, x: nat) {
    && x in s.txns && (s.txns[x].phase == Running || s.txns[x].phase.Validating?)
    && s' == WithTxn(s, x, s.txns[x].(cursor := None, phase := Aborting,
                                      marks := if s.txns[x].phase == Running then s.txns[x].inserts
                                        else s.txns[x].marks))
  }

  // ----- applying the writes

  function Append(s: State, k: Key, t: Txn, v: Value): map<Key, seq<Ver>> {
    s.hist[k := H(s, k) + [Ver(t.pos, t.tid, t.epoch, v)]]
  }

  /** An inserted tuple gets its commit identifier. */
  ghost predicate WriteInsert(s: State, s': State, x: nat, p: Ptr) {
    && x in s.txns && s.txns[x].phase == Writing && p in s.txns[x].inserts && p in s.tuples
    && s.tuples[p].version == Tid.MAX_TID
    && var t, u := s.txns[x], s.tuples[p];
       s' == WithTuple(WithTxn(s, x, t.(applied := t.applied[u.key := |H(s, u.key)|])),
                       p, u.(version := t.tid, pos := |H(s, u.key)|, draft := p in t.puts))
             .(hist := Append(s, u.key, t, if p in t.puts then t.puts[p] else u.value))
  }

  predicate AtPut(s: State, x: nat, p: Ptr) {
    && x in s.txns && s.txns[x].phase == Writing && p in s.txns[x].puts && p !in s.txns[x].written && p in s.tuples
    && s.tuples[p].version != Tid.MAX_TID && s.txns[x].core < |s.queue| && s.m >= 1
  }

  /** The four ways write_record_at can go (silo/tuple.h:875-956). */
  datatype WriteKind = InPlace | Replace | SpillInPlace | SpillReplace

  function KindOf(u: Tuple, tid: nat, v: Value, m: nat): WriteKind
    requires m >= 1
  {
    if Tid.CanOverwrite(u.version, tid, m) && |u.value| > 0 then
      (if |v| <= u.alloc then InPlace else Replace)
    else if |v| <= u.alloc && |u.value| > 0 then SpillInPlace else SpillReplace
  }

  /** The transaction after applying its put to p. A put over its own insert is in the history already. */
  function AfterPut(s: State, t: Txn, p: Ptr): Txn
    requires p in s.tuples
  {
    var k := s.tuples[p].key;
    t.(written := t.written + {p},
       applied := if p in t.inserts then t.applied else t.applied[k := |H(s, k)|])
  }

  function HistAfterPut(s: State, t: Txn, p: Ptr): map<Key, seq<Ver>>
    requires p in s.tuples && p in t.puts
  {
    if p in t.inserts then s.hist else Append(s, s.tuples[p].key, t, t.puts[p])
  }

  function PosAfterPut(s: State, t: Txn, p: Ptr): nat
    requires p in s.tuples
  {
    if p in t.inserts then s.tuples[p].pos else |H(s, s.tuples[p].key)|
  }

  /** on_dbtuple_spill: queue a superseded version, unless it is a deletion marker, which is on a queue already. */
  function Spill(s: State, c: nat, q: Ptr, u: Tuple, epoch: nat): seq<seq<Item>>
    requires c < |s.queue| && s.m >= 1
  {
    if u.value == "" then s.queue else s.queue[c := s.queue[c] + [Item(q, Ro(s, epoch), false)]]
  }

  /** on_logical_delete: queue the new head when the write deletes the record. */
  function Mark(s: State, queue: seq<seq<Item>>, c: nat, head: Ptr, v: Value, epoch: nat): seq<seq<Item>>
    requires c < |queue| && s.m >= 1
  {
    if v == "" then queue[c := queue[c] + [Item(head, Ro(s, epoch), true)]] else queue
  }

  ghost predicate PutInPlace(s: State, s': State, x: nat, p: Ptr) {
    && AtPut(s, x, p)
    && var t, u := s.txns[x], s.tuples[p];
       && KindOf(u, t.tid, t.puts[p], s.m) == InPlace
       && s' == WithTuple(WithTxn(s, x, AfterPut(s, t, p)),
                          p, u.(value := t.puts[p], version := t.tid, modifying := true,
                                pos := PosAfterPut(s, t, p), draft := false))
                .(hist := HistAfterPut(s, t, p), queue := Mark(s, s.queue, t.core, p, t.puts[p], t.epoch))
  }

  /** The old version moves to a fresh tuple q behind p. */
  ghost predicate PutSpill(s: State, s': State, x: nat, p: Ptr, q: Ptr) {
    && AtPut(s, x, p) && q !in s.tuples
    && var t, u := s.txns[x], s.tuples[p];
       && KindOf(u, t.tid, t.puts[p], s.m) == SpillInPlace
       && s' == WithTuple(WithTuple(WithTxn(s, x, AfterPut(s, t, p)),
                                    q, u.(owner := None, latest := false, modifying := false, alloc := |u.value|,
                                          sup := Some(t.epoch))),
                          p, u.(value := t.puts[p], version := t.tid, modifying := true, next := Some(q),
                                pos := PosAfterPut(s, t, p), draft := false))
                .(hist := HistAfterPut(s, t, p),
                  queue := Mark(s, Spill(s, t.core, q, u, t.epoch), t.core, p, t.puts[p], t.epoch))
  }

  /** A fresh tuple q takes p's place in the tree, with p behind it. */
  ghost predicate PutReplace(s: State, s': State, x: nat, p: Ptr, q: Ptr, room: nat) {
    && AtPut(s, x, p) && q !in s.tuples
    && var t, u := s.txns[x], s.tuples[p];
       && (KindOf(u, t.tid, t.puts[p], s.m) == Replace || KindOf(u, t.tid, t.puts[p], s.m) == SpillReplace)
       && |t.puts[p]| <= room
       && s' == WithTuple(WithTuple(WithTxn(s, x, AfterPut(s, t, p)),
                                    p, u.(latest := false, sup := Some(t.epoch))),
                          q, Tuple(u.key, None, true, false, t.tid, t.puts[p], room, Some(p), false,
                                   PosAfterPut(s, t, p), false, None))
                .(tree := s.tree[u.key.name := q], index := s.index[u.key := q], hist := HistAfterPut(s, t, p),
                  queue := Mark(s, Spill(s, t.core, p, u, t.epoch), t.core, q, t.puts[p], t.epoch))
  }

  ghost predicate EndWriting(s: State, s': State, x: nat) {
    && x in s.txns && s.txns[x].phase == Writing
    && s.txns[x].written == s.txns[x].puts.Keys
    && (forall p :: p in s.txns[x].inserts ==> p in s.tuples && s.tuples[p].version != Tid.MAX_TID)
    && s' == WithTxn(s, x, s.txns[x].(phase := Unlocking))
  }

  /** The unlock loop of a commit, or of an abort once an insert is out of the tree, at one marked entry. */
  ghost predicate Unlock(s: State, s': State, x: nat, p: Ptr) {
    && x in s.txns && p in s.txns[x].marks && p in s.tuples
    && (s.txns[x].phase == Unlocking
        || (s.txns[x].phase == Aborting && (p in s.txns[x].inserts ==> p in s.txns[x].unlinked)))
    && s' == WithTuple(WithTxn(s, x, s.txns[x].(held := s.txns[x].held - {p}, marks := s.txns[x].marks - {p})),
                       p, s.tuples[p].(owner := None, modifying := false))
  }

  /** The loop is through. */
  ghost predicate Finish(s: State, s': State, x: nat) {
    && x in s.txns && (s.txns[x].phase == Unlocking || s.txns[x].phase == Aborting) && s.txns[x].marks == {}
    && s' == WithTxn(s, x, s.txns[x].(phase := if s.txns[x].phase == Unlocking then Committed else Aborted))
  }

  /** Hands p to read-copy-update under core c's guard. */
  function Release(s: State, c: nat, p: Ptr): State
    requires c < |s.rcu| && c < |s.tk.cores|
  {
    s.(rcu := s.rcu[c := s.rcu[c] + [Item(p, s.tk.cores[c].tick + 1, false)]], gone := s.gone[p := s.tk.cores[c].tick])
  }

  /** cleanup_inserted_tuple_marker: the abort loop takes a failed insert out of the tree. */
  ghost predicate Unlink(s: State, s': State, x: nat, p: Ptr) {
    && x in s.txns && s.txns[x].phase == Aborting && p in s.txns[x].marks
    && p in s.txns[x].inserts && p !in s.txns[x].unlinked
    && p in s.tuples && s.txns[x].core < |s.rcu| && s.txns[x].core < |s.tk.cores|
    && var k := s.tuples[p].key;
       s' == Release(WithTuple(WithTxn(s, x, s.txns[x].(unlinked := s.txns[x].unlinked + {p})),
                               p, s.tuples[p].(latest := false)), s.txns[x].core, p)
             .(tree := s.tree - {k.name}, index := s.index - {k}, shut := s.shut + {k})
  }

  // ----- ticks and garbage collection

  /** Any step of the ticker, except that a core keeps its guard open for a live transaction and for its cleaner
      from the removal of a key on. */
  ghost predicate Tick(s: State, s': State, a: Ticker.Action, tk: Ticker.State) {
    && Ticker.Step(s.tk, tk, a)
    && (forall x :: x in s.txns && Live(s.txns[x]) && Ticker.Open(s.tk, s.txns[x].core) ==>
          Ticker.Open(tk, s.txns[x].core))
    && (forall c :: 0 <= c < |s.clean| && s.clean[c].Removed? && Ticker.Open(s.tk, c) ==> Ticker.Open(tk, c))
    && s' == s.(tk := tk)
  }

  /** on_post_rcu_region_completion loads the tick: last_tick_ex - 1 is last. */
  ghost predicate GcLoad(s: State, s': State, c: nat) {
    && c < |s.gc| && c < |s.tk.cores| && s.tk.cores[c].pc == Ticker.Outside && s.m >= 1
    && s' == s.(gc := s.gc[c := Ro(s, s.tk.last)])
  }

  /** The next queued entry is due. */
  predicate Due(s: State, c: nat) {
    && c < |s.gc| && c < |s.queue| && c < |s.clean| && s.clean[c] == Resting
    && s.queue[c] != [] && s.queue[c][0].tick < s.gc[c] && s.queue[c][0].ptr in s.tuples
  }

  /** clean_up_to_including frees a superseded version. */
  ghost predicate GcFree(s: State, s': State, c: nat) {
    && Due(s, c) && Between(s, c) && !s.queue[c][0].marker
    && var p := s.queue[c][0].ptr;
       s' == WithTuple(s, p, s.tuples[p].(freed := true)).(queue := s.queue[c := s.queue[c][1..]])
  }

  /** It locks a deletion marker, without write intent, and finds it replaced: queue it as a superseded version. */
  ghost predicate CleanRequeue(s: State, s': State, c: nat) {
    && Due(s, c) && Between(s, c) && s.queue[c][0].marker && s.m >= 1
    && var p := s.queue[c][0].ptr;
       && s.tuples[p].owner == None && !Swept(s, p) && !s.tuples[p].latest
       && s' == s.(queue := s.queue[c := s.queue[c][1..] + [Item(p, Ro(s, s.tk.current), false)]])
  }

  /** It locks a deletion marker, without write intent, and finds it still the latest version. */
  ghost predicate CleanLock(s: State, s': State, c: nat) {
    && Due(s, c) && Between(s, c) && s.queue[c][0].marker
    && var p := s.queue[c][0].ptr;
       && s.tuples[p].owner == None && !Swept(s, p) && s.tuples[p].latest
       && s' == s.(queue := s.queue[c := s.queue[c][1..]], clean := s.clean[c := Locked(p)])
  }

  /** The marker's key leaves the tree. */
  ghost predicate CleanRemove(s: State, s': State, c: nat) {
    && c < |s.clean| && s.clean[c].Locked? && Ticker.Open(s.tk, c) && s.clean[c].ptr in s.tuples
    && var p := s.clean[c].ptr;
       s' == s.(tree := s.tree - {s.tuples[p].key.name}, shut := s.shut + {s.tuples[p].key},
         clean := s.clean[c := Removed(p)])
  }

  /** The marker is no longer the latest, is handed to read-copy-update and unlocked. */
  ghost predicate CleanClear(s: State, s': State, c: nat) {
    && c < |s.clean| && s.clean[c].Removed? && Ticker.Open(s.tk, c) && s.clean[c].ptr in s.tuples && c < |s.rcu|
    && var p := s.clean[c].ptr;
       s' == Release(WithTuple(s, p, s.tuples[p].(latest := false)), c, p)
             .(index := s.index - {s.tuples[p].key}, clean := s.clean[c := Resting])
  }

  /** The free routine of a tuple whose grace period is over. */
  ghost predicate RcuRun(s: State, s': State, c: nat) {
    && c < |s.rcu| && s.rcu[c] != [] && s.rm >= 1 && s.rcu[c][0].ptr in s.tuples
    && Rcu.ToRcuTicks(s.rcu[c][0].tick, s.rm) < Rcu.ToRcuTicks(s.tk.last + 1, s.rm)
    && var p := s.rcu[c][0].ptr;
       s' == WithTuple(s, p, s.tuples[p].(freed := true)).(rcu := s.rcu[c := s.rcu[c][1..]])
  }

  datatype Action =
    | ABegin(x: nat, c: nat, snapshot: bool) | ALookup(x: nat, n: Name) | ARead(x: nat) | APut(x: nat, v: Value)
    | AInsert(x: nat, k: Key, v: Value, p: Ptr, room: nat)
    | ASnapMiss(x: nat, k: Key) | ASnapRead(x: nat) | ASnapDone(x: nat)
    | AStartCommit(x: nat, order: seq<Ptr>) | ALockReject(x: nat) | ALockTake(x: nat)
    | ASerialize(x: nat, tid: nat) | AValidate(x: nat) | ADecide(x: nat) | AGiveUp(x: nat)
    | AWriteInsert(x: nat, p: Ptr) | APutInPlace(x: nat, p: Ptr) | APutSpill(x: nat, p: Ptr, q: Ptr)
    | APutReplace(x: nat, p: Ptr, q: Ptr, room: nat) | AEndWriting(x: nat)
    | AUnlock(x: nat, p: Ptr) | AFinish(x: nat) | AUnlink(x: nat, p: Ptr)
    | ATick(a: Ticker.Action, tk: Ticker.State) | AGcLoad(c: nat) | AGcFree(c: nat)
    | ACleanRequeue(c: nat) | ACleanLock(c: nat) | ACleanRemove(c: nat) | ACleanClear(c: nat) | ARcuRun(c: nat)

  /** A transaction runs its body. */
  ghost predicate BodyStep(s: State, s': State, a: Action) {
    match a
    case ABegin(x, c, snapshot) => Begin(s, s', x, c, snapshot)
    case ALookup(x, n) => Lookup(s, s', x, n)
    case ARead(x) => Read(s, s', x)
    case APut(x, v) => Put(s, s', x, v)
    case AInsert(x, k, v, p, room) => Insert(s, s', x, k, v, p, room)
    case _ => false
  }

  /** A snapshot transaction reads. */
  ghost predicate SnapStep(s: State, s': State, a: Action) {
    match a
    case ASnapMiss(x, k) => SnapMiss(s, s', x, k)
    case ASnapRead(x) => SnapRead(s, s', x)
    case ASnapDone(x) => SnapDone(s, s', x)
    case _ => false
  }

  /** A transaction gathers its locks, or gives up. */
  ghost predicate LockStep(s: State, s': State, a: Action) {
    match a
    case AStartCommit(x, order) => StartCommit(s, s', x, order)
    case ALockReject(x) => LockReject(s, s', x)
    case ALockTake(x) => LockTake(s, s', x)
    case AGiveUp(x) => GiveUp(s, s', x)
    case _ => false
  }

  /** A transaction takes its id and validates. */
  ghost predicate CheckStep(s: State, s': State, a: Action) {
    match a
    case ASerialize(x, tid) => Serialize(s, s', x, tid)
    case AValidate(x) => Validate(s, s', x)
    case ADecide(x) => Decide(s, s', x)
    case _ => false
  }

  /** A decided transaction writes one tuple. */
  ghost predicate WriteStep(s: State, s': State, a: Action) {
    match a
    case AWriteInsert(x, p) => WriteInsert(s, s', x, p)
    case APutInPlace(x, p) => PutInPlace(s, s', x, p)
    case APutSpill(x, p, q) => PutSpill(s, s', x, p, q)
    case APutReplace(x, p, q, room) => PutReplace(s, s', x, p, q, room)
    case _ => false
  }

  /** A transaction lets go of what it holds. */
  ghost predicate FreeStep(s: State, s': State, a: Action) {
    match a
    case AEndWriting(x) => EndWriting(s, s', x)
    case AUnlock(x, p) => Unlock(s, s', x, p)
    case AFinish(x) => Finish(s, s', x)
    case AUnlink(x, p) => Unlink(s, s', x, p)
    case _ => false
  }

  /** The tick advances, or a core reclaims a superseded version. */
  ghost predicate ClockStep(s: State, s': State, a: Action) {
    match a
    case ATick(b, tk) => Tick(s, s', b, tk)
    case AGcLoad(c) => GcLoad(s, s', c)
    case AGcFree(c) => GcFree(s, s', c)
    case _ => false
  }

  /** A core takes a deletion marker out of the tree, or a free routine runs. */
  ghost predicate CleanStep(s: State, s': State, a: Action) {
    match a
    case ACleanRequeue(c) => CleanRequeue(s, s', c)
    case ACleanLock(c) => CleanLock(s, s', c)
    case ACleanRemove(c) => CleanRemove(s, s', c)
    case ACleanClear(c) => CleanClear(s, s', c)
    case ARcuRun(c) => RcuRun(s, s', c)
    case _ => false
  }

  ghost predicate Step(s: State, s': State, a: Action) {
    || BodyStep(s, s', a)
    || SnapStep(s, s', a)
    || LockStep(s, s', a)
    || CheckStep(s, s', a)
    || WriteStep(s, s', a)
    || FreeStep(s, s', a)
    || ClockStep(s, s', a)
    || CleanStep(s, s', a)
  }
}
