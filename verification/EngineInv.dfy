/** The inductive invariant of the engine, one predicate per concern. */
module EngineInv {
  import opened Engine
  import Tid
  import Ticker

  // ----- ticks

  ghost predicate Base(s: State) {
    && s.m >= 1 && s.rm >= 1 && Ticker.Inv(s.tk) && |s.tk.cores| <= Tid.CORES
    && |s.lastTid| == |s.tk.cores| && |s.queue| == |s.tk.cores| && |s.gc| == |s.tk.cores|
    && |s.clean| == |s.tk.cores| && |s.rcu| == |s.tk.cores|
    && forall c :: 0 <= c < |s.gc| ==> s.gc[c] <= Ro(s, s.tk.last)
  }

  ghost predicate TimeOf(s: State, x: nat)
    requires x in s.txns
  {
    var t := s.txns[x];
    && t.start <= s.tk.last
    && (Live(t) ==> Ticker.Open(s.tk, t.core) && t.tick == s.tk.cores[t.core].tick && t.tick <= t.start + 2)
    && (t.serial ==> t.tick <= t.epoch <= s.tk.current)
  }

  /** Each transaction runs under one open guard of its core, alone there. */
  ghost predicate Times(s: State) {
    && (forall x :: x in s.txns ==> TimeOf(s, x))
    && (forall x, y :: x in s.txns && y in s.txns && x != y && Live(s.txns[x]) && Live(s.txns[y])
          ==> s.txns[x].core != s.txns[y].core)
  }

  // ----- tree, locks and phases

  /** Every key has at most one latest tuple, and the index knows it. */
  ghost predicate Indexed(s: State) {
    && (forall k :: k in s.index ==>
          s.index[k] in s.tuples && s.tuples[s.index[k]].key == k && s.tuples[s.index[k]].latest)
    && (forall p :: p in s.tuples && s.tuples[p].latest ==> s.tuples[p].key in s.index && s.index[s.tuples[p].key] == p)
  }

  /** Lock bits and transactions agree on who holds what. */
  ghost predicate Locks(s: State) {
    && (forall p :: p in s.tuples && s.tuples[p].owner.Some?
          ==> s.tuples[p].owner.value in s.txns && p in s.txns[s.tuples[p].owner.value].held)
    && (forall x, p :: x in s.txns && p in s.txns[x].held ==> p in s.tuples && s.tuples[p].owner == Some(x))
    && (forall p :: p in s.tuples && s.tuples[p].owner == None ==> !s.tuples[p].modifying)
  }

  /** What a transaction holds in each phase. */
  ghost predicate PhaseOf(t: Txn) {
    && (t.snapshot ==>
          && t.readSet == [] && t.inserts == {} && t.puts == map[] && t.held == {} && !t.serial
          && (t.phase == Running || t.phase == Committed || t.phase == Aborting || t.phase == Aborted))
    && (t.results != [] ==> t.snapshot)
    && (t.cursor.Some? ==> t.phase == Running)
    && (t.phase == Running || t.phase.Locking? ==> !t.serial)
    && (t.phase.Validating? || t.phase == Writing || t.phase == Unlocking ==> t.serial)
    && (t.phase == Committed && !t.snapshot ==> t.serial)
    && (t.phase == Running ==> t.held == t.inserts && t.written == {})
    && (t.phase.Locking? ==>
          && t.phase.done <= |t.order| && t.written == {}
          && t.held == t.inserts + Elems(t.order[..t.phase.done]))
    && (t.phase.Locking? || t.phase.Validating? || t.phase == Writing || t.phase == Unlocking ==>
          Ascending(t.order) && Elems(t.order) == t.puts.Keys - t.inserts)
    && (t.phase.Validating? || t.phase == Writing ==> t.held == t.inserts + t.puts.Keys)
    && (t.phase.Validating? ==> t.written == {} && t.phase.done <= |t.readSet|)
    && (t.phase == Committed || t.phase == Aborted ==> t.held == {})
    && (t.phase == Unlocking || t.phase == Committed ==> t.written == t.puts.Keys)
    && t.written <= t.puts.Keys
    && (t.phase == Aborting ==> t.held <= t.inserts + Elems(t.order) && t.written == {})
    && (t.phase != Running && !t.snapshot ==> t.marks == t.held)
    && (t.snapshot ==> t.marks == {})
    && t.unlinked <= t.inserts && (t.phase != Aborting && t.phase != Aborted ==> t.unlinked == {})
  }

  ghost predicate Phases(s: State) {
    forall x :: x in s.txns ==> PhaseOf(s.txns[x])
  }

  /** Every pointer a transaction holds is a tuple's. */
  ghost predicate PtrsOf(s: State, t: Txn) {
    && t.inserts <= s.tuples.Keys && t.puts.Keys <= s.tuples.Keys
    && (forall i :: 0 <= i < |t.readSet| ==> t.readSet[i].ptr in s.tuples)
    && (t.cursor.Some? ==> t.cursor.value in s.tuples)
  }

  ghost predicate Pointers(s: State) {
    forall x :: x in s.txns ==> PtrsOf(s, s.txns[x])
  }

  // ----- tentative inserts

  ghost predicate InsertOf(s: State, x: nat, p: Ptr)
    requires x in s.txns
  {
    var t := s.txns[x];
    && (t.phase == Running || t.phase.Locking? || t.phase.Validating? ==>
          p in s.tuples && s.tuples[p].latest && s.tuples[p].version == Tid.MAX_TID)
    && (t.phase == Writing ==>
          && p in s.tuples
          && (s.tuples[p].version == Tid.MAX_TID ==> s.tuples[p].latest)
          && (s.tuples[p].version != Tid.MAX_TID && p !in t.written ==>
                s.tuples[p].latest && s.tuples[p].version == t.tid && (p in t.puts ==> s.tuples[p].draft)))
    && (t.phase == Unlocking || t.phase == Committed ==> p in s.tuples && s.tuples[p].version != Tid.MAX_TID)
    && (t.phase == Aborted ==> p in s.tuples && !s.tuples[p].latest)
    && (t.phase == Aborting ==>
          && p in s.tuples && s.tuples[p].version == Tid.MAX_TID
          && (p !in t.held ==> p in t.unlinked) && (p in t.unlinked <==> !s.tuples[p].latest))
  }

  ghost predicate Inserts(s: State) {
    forall x, p :: x in s.txns && p in s.txns[x].inserts ==> InsertOf(s, x, p)
  }

  /** A tuple at MAX_TID that is still in the tree belongs to the transaction that inserted it. */
  ghost predicate Owned(s: State) {
    forall p :: p in s.tuples && s.tuples[p].latest && s.tuples[p].version == Tid.MAX_TID ==>
      s.tuples[p].owner.Some? && s.tuples[p].owner.value in s.txns && p in s.txns[s.tuples[p].owner.value].inserts
  }

  ghost predicate Tentative(s: State) { Inserts(s) && Owned(s) }

  // ----- log and histories

  ghost predicate Logged(s: State) {
    && (forall j :: 0 <= j < |s.log| ==>
          && s.log[j].txn in s.txns && s.txns[s.log[j].txn].serial && s.txns[s.log[j].txn].pos == j)
    && (forall x :: x in s.txns && s.txns[x].serial ==>
          && s.txns[x].pos < |s.log|
          && s.log[s.txns[x].pos].txn == x
          && s.log[s.txns[x].pos].tid == s.txns[x].tid
          && s.log[s.txns[x].pos].epoch == s.txns[x].epoch)
    && (forall i, j :: 0 <= i < j < |s.log| ==> s.log[i].epoch <= s.log[j].epoch)
    && (forall j :: 0 <= j < |s.log| ==> s.log[j].epoch <= s.tk.current)
    && (forall j :: 0 <= j < |s.log| && s.log[j].writes != map[] ==>
          s.log[j].epoch == Tid.EpochId(s.log[j].tid) && Tid.MIN_TID < s.log[j].tid < Tid.MAX_TID)
  }

  /** One element of a history is a decided log entry's write. */
  ghost predicate VerOf(s: State, k: Key, v: Ver) {
    && v.pos < |s.log|
    && s.log[v.pos].tid == v.tid && s.log[v.pos].epoch == v.epoch
    && k in s.log[v.pos].writes && s.log[v.pos].writes[k] == v.value
    && s.log[v.pos].txn in s.txns
    && Decided(s.txns[s.log[v.pos].txn]) && k in s.txns[s.log[v.pos].txn].applied
  }

  predicate Rising(h: seq<Ver>) {
    forall i, j :: 0 <= i < j < |h| ==> h[i].pos < h[j].pos && h[i].tid < h[j].tid
  }

  ghost predicate Histories(s: State) {
    forall k :: k in s.hist ==> Rising(s.hist[k]) && forall i :: 0 <= i < |s.hist[k]| ==> VerOf(s, k, s.hist[k][i])
  }

  /** Which element of its key's history a committed tuple holds. */
  ghost predicate HoldsOf(s: State, p: Ptr)
    requires p in s.tuples
  {
    var u := s.tuples[p];
    if u.version == Tid.MAX_TID then
      (u.latest ==> H(s, u.key) == []) && u.next == None && u.sup == None && !u.draft
    else
      && u.version > Tid.MIN_TID
      && u.pos < |H(s, u.key)|
      && H(s, u.key)[u.pos].tid == u.version
      && (!u.draft ==> u.value == H(s, u.key)[u.pos].value)
      && (u.latest ==> u.pos == |H(s, u.key)| - 1)
      && (u.latest && u.draft ==>
            && u.owner.Some? && u.owner.value in s.txns && s.txns[u.owner.value].phase == Writing
            && p in s.txns[u.owner.value].puts && p !in s.txns[u.owner.value].written
            && u.version == s.txns[u.owner.value].tid
            && H(s, u.key)[u.pos].epoch == s.txns[u.owner.value].epoch)
  }

  /** The key ends in a deletion that every running transaction's snapshot includes. */
  ghost predicate Dead(s: State, k: Key)
    requires s.m >= 1
  {
    var h := H(s, k);
    h != [] && h[|h| - 1].value == "" && Ro(s, h[|h| - 1].epoch) < Ro(s, s.tk.last)
  }

  /** Nothing of the key is left to see. */
  ghost predicate Closed(s: State, k: Key)
    requires s.m >= 1
  {
    H(s, k) == [] || Dead(s, k)
  }

  ghost predicate Holdings(s: State) {
    && s.m >= 1
    && (forall p :: p in s.tuples ==> HoldsOf(s, p))
    && (forall k :: k !in s.index ==> Closed(s, k))
  }

  // ----- the tree and the cleaners

  /** A name leads to the latest tuple of a key that has not left the tree. */
  ghost predicate Rooted(s: State) {
    && (forall n :: n in s.tree ==>
          && s.tree[n] in s.tuples && s.tuples[s.tree[n]].key.name == n && s.tuples[s.tree[n]].latest
          && s.tuples[s.tree[n]].key !in s.shut)
    && (forall p :: p in s.tuples ==> s.tuples[p].key in s.born)
  }

  /** Nothing is left to see of a key that has left the tree, and a later key means it has. */
  ghost predicate Fallen(s: State)
    requires s.m >= 1
  {
    && (forall k :: k in s.shut ==> k in s.born && Closed(s, k))
    && (forall k, k0 :: k in s.born && k0 in s.born && k0.name == k.name && k0.gen < k.gen ==> k0 in s.shut)
  }

  ghost predicate Grown(s: State) {
    s.m >= 1 && Rooted(s) && Fallen(s) && forall k :: k in s.born ==> Planted(s, k)
  }

  /** A key that has not left the tree is there, and its name has had every generation before. */
  ghost predicate Planted(s: State, k: Key) {
    && (k in s.shut || (k.name in s.tree && s.tree[k.name] in s.tuples && s.tuples[s.tree[k.name]].key == k))
    && (k.gen > 0 ==> Key(k.name, k.gen - 1) in s.born)
  }

  /** The transactions that write a later key of a name come after all that wrote an earlier one. */
  ghost predicate Ages(s: State) {
    && (forall k :: H(s, k) != [] ==> k in s.born)
    && (forall j, k :: 0 <= j < |s.log| && k in s.log[j].writes ==> k in s.born)
    && (forall j, k, k' :: 0 <= j < |s.log| && k in s.log[j].writes && k' in s.log[j].writes && k.name == k'.name ==>
          k == k')
    && (forall j, k, k0: Key :: 0 <= j < |s.log| && k in s.log[j].writes && k0.name == k.name && k0.gen < k.gen ==>
          EndsBefore(s, k0, j))
  }

  ghost predicate EndsBefore(s: State, k: Key, j: nat) {
    forall i :: 0 <= i < |H(s, k)| ==> H(s, k)[i].pos < j
  }

  /** A cleaner's deletion marker: locked by it, still the latest, and in the tree until it is removed. */
  ghost predicate SweptOf(s: State, c: nat)
    requires s.m >= 1 && c < |s.clean| && s.clean[c] != Resting
  {
    var p := s.clean[c].ptr;
    && p in s.tuples && p !in s.gone
    && var u := s.tuples[p];
       && u.owner == None && u.latest && u.version != Tid.MAX_TID && u.value == "" && !u.draft
       && u.pos < |H(s, u.key)| && Ro(s, H(s, u.key)[u.pos].epoch) < Ro(s, s.tk.last)
       && (s.clean[c].Locked? ==> u.key.name in s.tree && s.tree[u.key.name] == p && u.key !in s.shut)
       && (s.clean[c].Removed? ==> u.key in s.shut && Ticker.Open(s.tk, c))
  }

  ghost predicate Sweeps(s: State) {
    && s.m >= 1
    && (forall c :: 0 <= c < |s.clean| && s.clean[c] != Resting ==> SweptOf(s, c))
    && (forall c, d :: 0 <= c < d < |s.clean| && s.clean[c] != Resting && s.clean[d] != Resting ==>
          s.clean[c].ptr != s.clean[d].ptr)
    && (forall k :: k in s.shut && k in s.index ==> Swept(s, s.index[k]))
  }

  // ----- version chains

  ghost predicate SameGroup(s: State, d: nat, e: nat)
    requires s.m >= 1
  {
    Ro(s, d) == Ro(s, e)
  }

  /** Between a version and the next older one kept, every missing version shares its read-only tick. */
  ghost predicate LinkOf(s: State, p: Ptr)
    requires p in s.tuples && s.m >= 1
  {
    var u := s.tuples[p];
    var h := H(s, u.key);
    u.version != Tid.MAX_TID && u.pos < |h| ==>
      match u.next
      case None => forall j :: 0 <= j < u.pos ==> SameGroup(s, h[j].epoch, h[u.pos].epoch)
      case Some(q) =>
        && q in s.tuples && s.tuples[q].key == u.key && !s.tuples[q].latest
        && s.tuples[q].version != Tid.MAX_TID && s.tuples[q].pos <= u.pos
        && s.tuples[q].sup.Some? && SameGroup(s, s.tuples[q].sup.value, h[u.pos].epoch)
        && (s.tuples[q].draft ==> SameGroup(s, h[s.tuples[q].pos].epoch, h[u.pos].epoch))
        && (forall j :: s.tuples[q].pos < j < u.pos ==> SameGroup(s, h[j].epoch, h[u.pos].epoch))
  }

  ghost predicate Chains(s: State) {
    s.m >= 1 && forall p :: p in s.tuples ==> LinkOf(s, p)
  }

  // ----- what transactions still have to write

  ghost predicate PendingOf(s: State, x: nat, k: Key)
    requires x in s.txns
  {
    var t := s.txns[x];
    && k in s.index && s.index[k] in s.tuples
    && var p := s.index[k];
       && p in t.held && p !in t.written && (p in t.puts || p in t.inserts)
       && (p in t.inserts <==> s.tuples[p].version == Tid.MAX_TID)
       && t.pos < |s.log| && k in s.log[t.pos].writes
       && s.log[t.pos].writes[k] == (if p in t.puts then t.puts[p] else s.tuples[p].value)
       && (s.tuples[p].version != Tid.MAX_TID ==> s.tuples[p].version < t.tid)
       && (forall j :: 0 <= j < |H(s, k)| ==> H(s, k)[j].pos < t.pos)
  }

  /** A write tuple's key is in the log entry, and among the applied keys exactly when the write went through. */
  ghost predicate AheadOf(s: State, x: nat, p: Ptr)
    requires x in s.txns && s.txns[x].pos < |s.log|
  {
    var t := s.txns[x];
    var w := s.log[t.pos].writes;
    && (p in t.puts && p !in t.inserts && p !in t.written ==>
          p in s.tuples && s.tuples[p].latest && s.tuples[p].key in w && s.tuples[p].key !in t.applied)
    && (p in t.inserts && p in s.tuples && s.tuples[p].version == Tid.MAX_TID ==>
          s.tuples[p].key in w && s.tuples[p].key !in t.applied)
    && (p in t.puts && p in t.inserts && p !in t.written && p in s.tuples && s.tuples[p].version != Tid.MAX_TID ==>
          s.tuples[p].key in t.applied && s.tuples[p].key in w && w[s.tuples[p].key] == t.puts[p])
  }

  ghost predicate WorkOf(s: State, x: nat)
    requires x in s.txns
  {
    var t := s.txns[x];
    && (t.serial ==> t.pos < |s.log|)
    && (!t.serial || !Decided(t) ==> t.applied == map[])
    && (t.phase.Locking? ==>
          forall p :: p in t.held && p !in t.inserts ==>
            p in s.tuples && s.tuples[p].latest && s.tuples[p].version != Tid.MAX_TID)
    && (t.serial && (t.phase.Validating? || t.phase == Writing) ==>
          && (forall k :: k in s.log[t.pos].writes && k !in t.applied ==> PendingOf(s, x, k))
          && (forall p :: p in t.puts || p in t.inserts ==> AheadOf(s, x, p)))
    && (t.serial && (t.phase == Unlocking || t.phase == Committed) ==> t.applied.Keys == s.log[t.pos].writes.Keys)
    && (t.serial ==> forall k :: k in t.applied ==>
          k in s.log[t.pos].writes && t.applied[k] < |H(s, k)| && H(s, k)[t.applied[k]].pos == t.pos)
  }

  ghost predicate Work(s: State) {
    forall x :: x in s.txns ==> WorkOf(s, x)
  }

  // ----- reads and their validation

  ghost predicate ReadOf(s: State, t: Txn, r: ReadRec) {
    && r.ptr in s.tuples
    && var u := s.tuples[r.ptr];
       && (if u.version == Tid.MAX_TID then r.tid == Tid.MIN_TID else r.tid <= u.version)
       && (u.latest && r.tid == u.version ==> !u.draft && r.value == u.value)
       && (t.serial ==> forall j :: 0 <= j < |H(s, u.key)| && H(s, u.key)[j].tid <= r.tid ==>
             H(s, u.key)[j].pos < t.pos)
  }

  ghost predicate Reads(s: State) {
    forall x, i :: x in s.txns && 0 <= i < |s.txns[x].readSet| ==> ReadOf(s, s.txns[x], s.txns[x].readSet[i])
  }

  /** The log entry at j does not write k, or is off the table, or its write is in k's history. */
  ghost predicate Resolved(s: State, k: Key, j: nat)
    requires j < |s.log|
  {
    k in s.log[j].writes && s.log[j].txn in s.txns ==>
      || s.txns[s.log[j].txn].phase == Aborting || s.txns[s.log[j].txn].phase == Aborted
      || k in s.txns[s.log[j].txn].applied
  }

  ghost predicate Settled(s: State, k: Key, n: nat) {
    forall j :: 0 <= j < n && j < |s.log| ==> Resolved(s, k, j)
  }

  /** The last write of a history made by a transaction before log position n. */
  function LastIn(h: seq<Ver>, n: nat): Option<Ver> {
    if h == [] then None
    else if h[|h| - 1].pos < n then Some(h[|h| - 1])
    else LastIn(h[..|h| - 1], n)
  }

  ghost predicate ValidOf(s: State, t: Txn, r: ReadRec) {
    && r.ptr in s.tuples
    && var k := s.tuples[r.ptr].key;
       && Settled(s, k, t.pos)
       && LastIn(H(s, k), t.pos).Some?
       && LastIn(H(s, k), t.pos).value.tid == r.tid
       && LastIn(H(s, k), t.pos).value.value == r.value
  }

  /** How many reads of a transaction are validated. */
  function Checked(t: Txn): nat {
    if t.phase.Validating? then t.phase.done else if t.serial && Decided(t) then |t.readSet| else 0
  }

  ghost predicate Validated(s: State) {
    forall x, i :: x in s.txns && 0 <= i < |s.txns[x].readSet| && i < Checked(s.txns[x]) ==>
      ValidOf(s, s.txns[x], s.txns[x].readSet[i])
  }

  // ----- snapshots

  /** The value a history leaves below a read-only tick. */
  function Below(h: seq<Ver>, m: nat, limit: nat): Value
    requires m >= 1
  {
    if h == [] then ""
    else if Tid.ToReadOnlyTick(h[|h| - 1].epoch, m) < limit then h[|h| - 1].value
    else Below(h[..|h| - 1], m, limit)
  }

  /** Earlier keys of the name end in deletions below the limit, later ones begin at or above it. */
  ghost predicate Alone(s: State, k: Key, limit: nat)
    requires s.m >= 1
  {
    && (forall k0: Key :: k0.name == k.name && k0.gen < k.gen ==> k0 in s.shut && EndsBelow(s, k0, limit))
    && (forall k1: Key :: k1.name == k.name && k1.gen > k.gen ==> BeginsAbove(s, k1, limit))
  }

  ghost predicate EndsBelow(s: State, k: Key, limit: nat)
    requires s.m >= 1
  {
    var h := H(s, k);
    h == [] || (h[|h| - 1].value == "" && Ro(s, h[|h| - 1].epoch) < limit)
  }

  ghost predicate BeginsAbove(s: State, k: Key, limit: nat)
    requires s.m >= 1
  {
    forall j :: 0 <= j < |H(s, k)| ==> Ro(s, H(s, k)[j].epoch) >= limit
  }

  /** What p does not hold of its key is at or above the limit. */
  ghost predicate AboveRest(s: State, p: Ptr, limit: nat)
    requires s.m >= 1 && p in s.tuples
  {
    var u := s.tuples[p];
    var h := H(s, u.key);
    if u.version == Tid.MAX_TID then BeginsAbove(s, u.key, limit)
    else
      && (forall j :: u.pos < j < |h| ==> Ro(s, h[j].epoch) >= limit)
      && (u.draft && u.pos < |h| ==> Ro(s, h[u.pos].epoch) >= limit)
  }

  ghost predicate CursorOf(s: State, t: Txn)
    requires s.m >= 1 && t.cursor.Some?
  {
    && t.cursor.value in s.tuples
    && Alone(s, s.tuples[t.cursor.value].key, Limit(s, t)) && AboveRest(s, t.cursor.value, Limit(s, t))
  }

  /** A snapshot transaction's identifier is the one for the tick it began at. */
  ghost predicate Cuts(s: State) {
    s.m >= 1 && forall x :: x in s.txns ==> s.txns[x].snapTid == Tid.ComputeReadOnlyTid(s.txns[x].start + 1, s.m)
  }

  ghost predicate ResultOf(s: State, t: Txn, r: Result)
    requires s.m >= 1
  {
    r.value == Below(H(s, r.key), s.m, Limit(s, t)) && Alone(s, r.key, Limit(s, t))
  }

  ghost predicate Snapshots(s: State) {
    && s.m >= 1
    && (forall x :: x in s.txns && s.txns[x].snapshot && s.txns[x].cursor.Some? ==> CursorOf(s, s.txns[x]))
    && (forall x, i :: x in s.txns && 0 <= i < |s.txns[x].results| ==> ResultOf(s, s.txns[x], s.txns[x].results[i]))
  }

  // ----- garbage collection

  ghost predicate Shielded(s: State, t: Txn, p: Ptr)
    requires s.m >= 1
  {
    && p in s.tuples && (s.tuples[p].sup.Some? ==> Ro(s, s.tuples[p].sup.value) >= Limit(s, t))
    && (p in s.gone ==> t.tick <= s.gone[p] + 1)
  }

  /** The tuples a live transaction may still dereference. */
  function Ptrs(t: Txn): set<Ptr> {
    t.puts.Keys + t.inserts + (set r | r in t.readSet :: r.ptr) + (if t.cursor.Some? then {t.cursor.value} else {})
  }

  ghost predicate Shields(s: State) {
    && s.m >= 1
    && (forall x, p :: x in s.txns && Live(s.txns[x]) && p in Ptrs(s.txns[x]) ==> Shielded(s, s.txns[x], p))
  }

  /** A queued version is superseded, and due when its successor is; a queued marker is due when it is itself. */
  ghost predicate ItemOf(s: State, it: Item)
    requires s.m >= 1
  {
    && it.ptr in s.tuples && it.ptr !in s.gone
    && var u := s.tuples[it.ptr];
       if it.marker then
         && u.version != Tid.MAX_TID && u.value == "" && !u.draft
         && u.pos < |H(s, u.key)| && it.tick == Ro(s, H(s, u.key)[u.pos].epoch)
       else !u.latest && u.sup.Some? && Ro(s, u.sup.value) <= it.tick
  }

  /** Whatever could still reach p through its chain, or from before it was handed over, is past. */
  ghost predicate Past(s: State, sup: Option<nat>, p: Ptr)
    requires s.m >= 1
  {
    if sup.Some? then Ro(s, sup.value) < Ro(s, s.tk.last) else p in s.gone && s.gone[p] < s.tk.last
  }

  ghost predicate GarbageOf(s: State, p: Ptr)
    requires s.m >= 1 && p in s.tuples
  {
    var u := s.tuples[p];
    && (u.latest ==> u.sup == None && p !in s.gone)
    && (!u.latest ==> u.sup.Some? || p in s.gone)
    && (p in s.gone ==> u.sup == None)
    && (u.sup.Some? ==> u.sup.value <= s.tk.current)
    && (u.freed ==> !u.latest && Past(s, u.sup, p))
  }

  ghost predicate Garbage(s: State) {
    && s.m >= 1 && s.gone.Keys <= s.tuples.Keys
    && (forall p :: p in s.tuples ==> GarbageOf(s, p))
    && (forall c, i :: 0 <= c < |s.queue| && 0 <= i < |s.queue[c]| ==> ItemOf(s, s.queue[c][i]))
    && (forall c, i :: 0 <= c < |s.rcu| && 0 <= i < |s.rcu[c]| ==>
          && s.rcu[c][i].ptr in s.tuples && s.rcu[c][i].ptr in s.gone
          && s.rcu[c][i].tick == s.gone[s.rcu[c][i].ptr] + 1)
  }

  /** Nothing is queued twice, or while a cleaner is at it, or once it is freed. */
  ghost predicate Queues(s: State) {
    && (forall c, i :: 0 <= c < |s.queue| && 0 <= i < |s.queue[c]| ==> QueuedOf(s, s.queue[c][i].ptr, c, i))
    && (forall c, i :: 0 <= c < |s.rcu| && 0 <= i < |s.rcu[c]| ==> HandedOf(s, s.rcu[c][i].ptr, c, i))
    && (forall c :: 0 <= c < |s.clean| && s.clean[c] != Resting ==> Unfreed(s, s.clean[c].ptr))
  }

  ghost predicate Unfreed(s: State, p: Ptr) { p in s.tuples && !s.tuples[p].freed }

  ghost predicate QueuedOf(s: State, p: Ptr, c: nat, i: nat) {
    && Unfreed(s, p) && !Swept(s, p)
    && (forall d, j :: 0 <= d < |s.queue| && 0 <= j < |s.queue[d]| && s.queue[d][j].ptr == p ==> d == c && j == i)
  }

  ghost predicate HandedOf(s: State, p: Ptr, c: nat, i: nat) {
    && Unfreed(s, p)
    && (forall d, j :: 0 <= d < |s.rcu| && 0 <= j < |s.rcu[d]| && s.rcu[d][j].ptr == p ==> d == c && j == i)
  }

  // ----- commit identifiers

  ghost predicate TidsGrow(s: State) {
    && (forall j :: 0 <= j < |s.log| && s.log[j].writes != map[] ==>
          && s.log[j].txn in s.txns
          && s.txns[s.log[j].txn].core < |s.lastTid|
          && Tid.CoreId(s.log[j].tid) == s.txns[s.log[j].txn].core
          && s.log[j].tid <= s.lastTid[s.txns[s.log[j].txn].core])
    && (forall i, j ::
          0 <= i < j < |s.log| && s.log[i].writes != map[] && s.log[j].writes != map[] ==>
            Tid.CoreId(s.log[i].tid) == Tid.CoreId(s.log[j].tid) ==> s.log[i].tid < s.log[j].tid)
    && (forall c :: 0 <= c < |s.lastTid| ==> Tid.EpochId(s.lastTid[c]) <= s.tk.current)
  }

  ghost predicate Inv(s: State) {
    && Base(s) && Times(s) && Indexed(s) && Locks(s) && Phases(s) && Pointers(s) && Tentative(s)
    && Logged(s) && Histories(s) && Holdings(s) && Chains(s) && Work(s)
    && Reads(s) && Validated(s) && Cuts(s) && Snapshots(s) && Shields(s) && Garbage(s) && TidsGrow(s)
    && Grown(s) && Ages(s) && Sweeps(s) && Queues(s)
  }

  datatype Part =
    | PartBase | PartTimes | PartIndexed | PartLocks | PartPhases | PartPointers | PartTentative | PartLogged
    | PartHistories | PartHoldings | PartChains | PartWork | PartReads | PartValidated | PartCuts | PartSnapshots
    | PartShields | PartGarbage | PartTidsGrow | PartGrown | PartAges | PartSweeps | PartQueues

  ghost predicate Holds(s: State, part: Part) {
    match part
    case PartBase => Base(s)
    case PartTimes => Times(s)
    case PartIndexed => Indexed(s)
    case PartLocks => Locks(s)
    case PartPhases => Phases(s)
    case PartPointers => Pointers(s)
    case PartTentative => Tentative(s)
    case PartLogged => Logged(s)
    case PartHistories => Histories(s)
    case PartHoldings => Holdings(s)
    case PartChains => Chains(s)
    case PartWork => Work(s)
    case PartReads => Reads(s)
    case PartValidated => Validated(s)
    case PartCuts => Cuts(s)
    case PartSnapshots => Snapshots(s)
    case PartShields => Shields(s)
    case PartGarbage => Garbage(s)
    case PartTidsGrow => TidsGrow(s)
    case PartGrown => Grown(s)
    case PartAges => Ages(s)
    case PartSweeps => Sweeps(s)
    case PartQueues => Queues(s)
  }

  /** The invariant, part by part: a proof opens only the parts it names. */
  ghost predicate Sound(s: State) {
    forall part :: Holds(s, part)
  }

  lemma TheBase(s: State) requires Sound(s) ensures Base(s) { assert Holds(s, PartBase); }

  lemma TheTimes(s: State) requires Sound(s) ensures Times(s) { assert Holds(s, PartTimes); }

  lemma TheIndexed(s: State) requires Sound(s) ensures Indexed(s) { assert Holds(s, PartIndexed); }

  lemma TheLocks(s: State) requires Sound(s) ensures Locks(s) { assert Holds(s, PartLocks); }

  lemma ThePhases(s: State) requires Sound(s) ensures Phases(s) { assert Holds(s, PartPhases); }

  lemma ThePointers(s: State) requires Sound(s) ensures Pointers(s) { assert Holds(s, PartPointers); }

  lemma TheTentative(s: State) requires Sound(s) ensures Tentative(s) { assert Holds(s, PartTentative); }

  lemma TheLogged(s: State) requires Sound(s) ensures Logged(s) { assert Holds(s, PartLogged); }

  lemma TheHistories(s: State) requires Sound(s) ensures Histories(s) { assert Holds(s, PartHistories); }

  lemma TheHoldings(s: State) requires Sound(s) ensures Holdings(s) { assert Holds(s, PartHoldings); }

  lemma TheChains(s: State) requires Sound(s) ensures Chains(s) { assert Holds(s, PartChains); }

  lemma TheWork(s: State) requires Sound(s) ensures Work(s) { assert Holds(s, PartWork); }

  lemma TheReads(s: State) requires Sound(s) ensures Reads(s) { assert Holds(s, PartReads); }

  lemma TheValidated(s: State) requires Sound(s) ensures Validated(s) { assert Holds(s, PartValidated); }

  lemma TheCuts(s: State) requires Sound(s) ensures Cuts(s) { assert Holds(s, PartCuts); }

  lemma TheSnapshots(s: State) requires Sound(s) ensures Snapshots(s) { assert Holds(s, PartSnapshots); }

  lemma TheShields(s: State) requires Sound(s) ensures Shields(s) { assert Holds(s, PartShields); }

  lemma TheGarbage(s: State) requires Sound(s) ensures Garbage(s) { assert Holds(s, PartGarbage); }

  lemma TheTidsGrow(s: State) requires Sound(s) ensures TidsGrow(s) { assert Holds(s, PartTidsGrow); }

  lemma TheGrown(s: State) requires Sound(s) ensures Grown(s) { assert Holds(s, PartGrown); }

  lemma TheAges(s: State) requires Sound(s) ensures Ages(s) { assert Holds(s, PartAges); }

  lemma TheSweeps(s: State) requires Sound(s) ensures Sweeps(s) { assert Holds(s, PartSweeps); }

  lemma TheQueues(s: State) requires Sound(s) ensures Queues(s) { assert Holds(s, PartQueues); }

  lemma Open(s: State)
    requires Sound(s)
    ensures Inv(s)
  {
    TheBase(s);
    TheTimes(s);
    TheIndexed(s);
    TheLocks(s);
    ThePhases(s);
    ThePointers(s);
    TheTentative(s);
    TheLogged(s);
    TheHistories(s);
    TheHoldings(s);
    TheChains(s);
    TheWork(s);
    TheReads(s);
    TheValidated(s);
    TheCuts(s);
    TheSnapshots(s);
    TheShields(s);
    TheGarbage(s);
    TheTidsGrow(s);
    TheGrown(s);
    TheAges(s);
    TheSweeps(s);
    TheQueues(s);
  }

  lemma Close(s: State)
    requires Inv(s)
    ensures Sound(s)
  {
    forall part ensures Holds(s, part) {
      match part
      case PartBase =>
      case PartTimes =>
      case PartIndexed =>
      case PartLocks =>
      case PartPhases =>
      case PartPointers =>
      case PartTentative =>
      case PartLogged =>
      case PartHistories =>
      case PartHoldings =>
      case PartChains =>
      case PartWork =>
      case PartReads =>
      case PartValidated =>
      case PartCuts =>
      case PartSnapshots =>
      case PartShields =>
      case PartGarbage =>
      case PartTidsGrow =>
      case PartGrown =>
      case PartAges =>
      case PartSweeps =>
      case PartQueues =>
    }
  }
}
