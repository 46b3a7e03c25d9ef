/** The light steps that read: what they read, and what validation proves about it. */
module EngineReads {
  import opened Engine
  import opened EngineInv
  import opened EngineLight
  import Tid
  import Ticker

  /** A live serialized transaction's epoch is beyond every running snapshot's boundary. */
  lemma LiveEpochAbove(s: State, x: nat, y: nat)
    requires Base(s) && x in s.txns && y in s.txns && TimeOf(s, x) && TimeOf(s, y)
    requires Live(s.txns[x]) && s.txns[x].serial
    ensures s.tk.last < s.txns[x].epoch
    ensures Ro(s, s.txns[x].epoch) >= Limit(s, s.txns[y])
  {
    Ticker.OpenGuardBounds(s.tk, s.txns[x].core);
    Tid.ReadOnlyTickMonotone(s.txns[y].start + 1, s.txns[x].epoch, s.m);
  }

  // ----- searching

  lemma LookupIsGood(s: State, s': State, x: nat, n: Name)
    requires Grown(s) && Pointers(s) && Lookup(s, s', x, n)
    ensures PtrsOf(s, s'.txns[x])
    ensures Ptrs(s'.txns[x]) <= Ptrs(s.txns[x]) + {s.tree[n]}
  {
    assert PtrsOf(s, s.txns[x]);
  }

  lemma LookupShielded(s: State, t: Txn, n: Name)
    requires Grown(s) && Garbage(s) && n in s.tree
    ensures Shielded(s, t, s.tree[n])
  {
    assert GarbageOf(s, s.tree[n]);
  }

  /** All keys of a name before one that has been in the tree have been there too. */
  lemma {:induction false} AllBorn(s: State, k: Key, g: nat)
    requires Grown(s) && k in s.born && g <= k.gen
    ensures Key(k.name, g) in s.born
    decreases k.gen
  {
    assert Planted(s, k);
    if g < k.gen {
      AllBorn(s, Key(k.name, k.gen - 1), g);
    }
  }

  /** A running snapshot's limit is above whatever was dead when last was what it is. */
  lemma LimitAboveLast(s: State, x: nat)
    requires Base(s) && x in s.txns && TimeOf(s, x) && Live(s.txns[x])
    ensures Ro(s, s.tk.last) <= Limit(s, s.txns[x])
  {
    Ticker.OpenGuardBounds(s.tk, s.txns[x].core);
    Tid.ReadOnlyTickMonotone(s.tk.last, s.txns[x].start + 1, s.m);
  }

  lemma ShutEndsBelow(s: State, x: nat, k: Key)
    requires Base(s) && x in s.txns && TimeOf(s, x) && Live(s.txns[x]) && Closed(s, k)
    ensures EndsBelow(s, k, Limit(s, s.txns[x]))
  {
    LimitAboveLast(s, x);
  }

  /** A name's newest key stands alone for every running transaction. */
  lemma NewestAlone(s: State, x: nat, k: Key)
    requires Base(s) && Grown(s) && Ages(s) && x in s.txns && TimeOf(s, x) && Live(s.txns[x])
    requires k.gen > 0 ==> Key(k.name, k.gen - 1) in s.born
    requires forall k0 :: k0 in s.born && k0.name == k.name && k0.gen < k.gen ==> k0 in s.shut
    requires forall k1 :: k1 in s.born && k1.name == k.name ==> k1.gen <= k.gen
    ensures Alone(s, k, Limit(s, s.txns[x]))
  {
    forall k0: Key | k0.name == k.name && k0.gen < k.gen ensures k0 in s.shut && EndsBelow(s, k0, Limit(s, s.txns[x])) {
      AllBorn(s, Key(k.name, k.gen - 1), k0.gen);
      assert k0 == Key(k.name, k0.gen);
      ShutEndsBelow(s, x, k0);
    }
    forall k1: Key | k1.name == k.name && k1.gen > k.gen ensures BeginsAbove(s, k1, Limit(s, s.txns[x])) {
      assert H(s, k1) == [];
    }
  }

  lemma InTreeAlone(s: State, x: nat, n: Name)
    requires Base(s) && Grown(s) && Ages(s) && x in s.txns && TimeOf(s, x) && Live(s.txns[x]) && n in s.tree
    ensures Alone(s, s.tuples[s.tree[n]].key, Limit(s, s.txns[x]))
  {
    var k := s.tuples[s.tree[n]].key;
    assert Planted(s, k);
    NewestAlone(s, x, k);
  }

  lemma CursorPointers(s: State, s': State, x: nat)
    requires Light(s, s', x) && Pointers(s) && Shields(s) && PtrsOf(s, s'.txns[x])
    requires s'.txns[x].readSet == s.txns[x].readSet && s'.txns[x].puts == s.txns[x].puts
    requires s'.txns[x].cursor.Some? ==> Shielded(s, s.txns[x], s'.txns[x].cursor.value)
    ensures Pointers(s') && Shields(s')
  {
    var t, t' := s.txns[x], s'.txns[x];
    KeepsPointers(s, s', x);
    forall p | p in Ptrs(t') ensures Shielded(s, t', p) {
      if p in Ptrs(t) { assert Shielded(s, t, p); }
    }
    KeepsShields(s, s', x);
  }

  lemma LookupCursor(s: State, s': State, x: nat, n: Name)
    requires Base(s) && Times(s) && Indexed(s) && Holdings(s) && Phases(s) && Locks(s) && Grown(s) && Ages(s)
    requires Lookup(s, s', x, n)
    ensures CursorOf(s, s'.txns[x])
  {
    var p := s.tree[n];
    assert TimeOf(s, x);
    InTreeAlone(s, x, n);
    assert HoldsOf(s, p);
    LookupHolds(s, x, p);
  }

  /** A draft in the tree is of an epoch beyond every snapshot. */
  lemma DraftAbove(s: State, x: nat, p: Ptr)
    requires Base(s) && Times(s) && Phases(s) && x in s.txns && p in s.tuples && HoldsOf(s, p)
    requires s.tuples[p].latest && s.tuples[p].version != Tid.MAX_TID && s.tuples[p].draft
    ensures Ro(s, H(s, s.tuples[p].key)[s.tuples[p].pos].epoch) >= Limit(s, s.txns[x])
  {
    var y := s.tuples[p].owner.value;
    assert PhaseOf(s.txns[y]) && TimeOf(s, y) && TimeOf(s, x);
    LiveEpochAbove(s, y, x);
  }

  lemma LookupHolds(s: State, x: nat, p: Ptr)
    requires Base(s) && Times(s) && Phases(s) && x in s.txns && p in s.tuples && HoldsOf(s, p)
    requires s.tuples[p].latest && Alone(s, s.tuples[p].key, Limit(s, s.txns[x]))
    ensures forall t :: t == s.txns[x].(cursor := Some(p)) ==> CursorOf(s, t)
  {
    var u := s.tuples[p];
    if u.version != Tid.MAX_TID && u.draft { DraftAbove(s, x, p); }
    assert Limit(s, s.txns[x].(cursor := Some(p))) == Limit(s, s.txns[x]);
  }

  // ----- reading for a read-write transaction

  lemma ReadIsGood(s: State, s': State, x: nat)
    requires Phases(s) && Holdings(s) && Pointers(s) && Reads(s) && Read(s, s', x)
    ensures forall i :: 0 <= i < |s'.txns[x].readSet| ==> ReadOf(s, s'.txns[x], s'.txns[x].readSet[i])
    ensures PtrsOf(s, s'.txns[x]) && Ptrs(s'.txns[x]) <= Ptrs(s.txns[x])
  {
    var t, t' := s.txns[x], s'.txns[x];
    assert PtrsOf(s, t) && PhaseOf(t) && HoldsOf(s, t.cursor.value);
    forall i | 0 <= i < |t'.readSet| ensures ReadOf(s, t', t'.readSet[i]) {
      if i < |t.readSet| {
        assert t'.readSet[i] == t.readSet[i];
        assert ReadOf(s, t, t.readSet[i]);
      }
    }
  }

  lemma PutIsGood(s: State, s': State, x: nat, v: Value)
    requires Pointers(s) && Reads(s) && Put(s, s', x, v)
    ensures forall i :: 0 <= i < |s'.txns[x].readSet| ==> ReadOf(s, s'.txns[x], s'.txns[x].readSet[i])
    ensures PtrsOf(s, s'.txns[x]) && Ptrs(s'.txns[x]) <= Ptrs(s.txns[x])
  {
    var t, t' := s.txns[x], s'.txns[x];
    assert PtrsOf(s, t);
    forall i | 0 <= i < |t'.readSet| ensures ReadOf(s, t', t'.readSet[i]) {
      assert ReadOf(s, t, t.readSet[i]);
    }
  }

  // ----- snapshot reads

  lemma {:induction false} BelowAt(h: seq<Ver>, m: nat, limit: nat, i: nat)
    requires m >= 1 && i < |h| && Tid.ToReadOnlyTick(h[i].epoch, m) < limit
    requires forall j :: i < j < |h| ==> Tid.ToReadOnlyTick(h[j].epoch, m) >= limit
    ensures Below(h, m, limit) == h[i].value
    decreases |h|
  {
    if i < |h| - 1 {
      assert Tid.ToReadOnlyTick(h[|h| - 1].epoch, m) >= limit;
      BelowAt(h[..|h| - 1], m, limit, i);
    }
  }

  lemma {:induction false} BelowNone(h: seq<Ver>, m: nat, limit: nat)
    requires m >= 1 && forall j :: 0 <= j < |h| ==> Tid.ToReadOnlyTick(h[j].epoch, m) >= limit
    ensures Below(h, m, limit) == ""
  {
    if h != [] {
      BelowNone(h[..|h| - 1], m, limit);
    }
  }

  /** A version's identifier is at or below the snapshot's exactly when its read-only tick is below the limit. */
  lemma VersionVsLimit(s: State, t: Txn, k: Key, v: Ver)
    requires s.m >= 1 && Logged(s) && VerOf(s, k, v) && t.snapTid == Tid.ComputeReadOnlyTid(t.start + 1, s.m)
    ensures v.tid <= t.snapTid <==> Ro(s, v.epoch) < Limit(s, t)
  {
    Tid.SnapshotAdmits(v.tid, t.start + 1, s.m);
    Tid.BelowBoundary(v.epoch, t.start + 1, s.m);
  }

  /** Moving from a version beyond the boundary to the next older one loses nothing below the boundary. */
  lemma NextIsGood(s: State, t: Txn, p: Ptr)
    requires s.m >= 1 && p in s.tuples && LinkOf(s, p) && Garbage(s)
    requires t.cursor == Some(p) && CursorOf(s, t)
    requires s.tuples[p].version != Tid.MAX_TID && s.tuples[p].pos < |H(s, s.tuples[p].key)|
    requires Ro(s, H(s, s.tuples[p].key)[s.tuples[p].pos].epoch) >= Limit(s, t)
    ensures s.tuples[p].next == None ==> Below(H(s, s.tuples[p].key), s.m, Limit(s, t)) == ""
    ensures s.tuples[p].next.Some? ==>
      && s.tuples[p].next.value in s.tuples
      && CursorOf(s, t.(cursor := s.tuples[p].next))
      && Shielded(s, t, s.tuples[p].next.value)
  {
    var u := s.tuples[p];
    if u.next == None {
      BelowNone(H(s, u.key), s.m, Limit(s, t));
    } else {
      assert GarbageOf(s, u.next.value);
    }
  }

  /** What a snapshot reader knows about the tuple it is at. */
  lemma AtCursor(s: State, x: nat)
    requires Base(s) && Logged(s) && Histories(s) && Holdings(s) && Chains(s) && Cuts(s) && Snapshots(s)
    requires x in s.txns && s.txns[x].snapshot && s.txns[x].cursor.Some?
    ensures var t := s.txns[x]; var p := t.cursor.value;
      && CursorOf(s, t) && LinkOf(s, p) && HoldsOf(s, p)
      && var u := s.tuples[p];
         u.version != Tid.MAX_TID ==>
           (u.version <= t.snapTid <==> Ro(s, H(s, u.key)[u.pos].epoch) < Limit(s, t))
  {
    var t := s.txns[x];
    var p := t.cursor.value;
    assert CursorOf(s, t) && LinkOf(s, p) && HoldsOf(s, p);
    var u := s.tuples[p];
    if u.version != Tid.MAX_TID {
      assert VerOf(s, u.key, H(s, u.key)[u.pos]);
      VersionVsLimit(s, t, u.key, H(s, u.key)[u.pos]);
    }
  }

  lemma SnapReadCursor(s: State, s': State, x: nat)
    requires Base(s) && Logged(s) && Histories(s) && Holdings(s) && Chains(s) && Cuts(s) && Snapshots(s) && Pointers(s)
    requires Garbage(s)
    requires SnapRead(s, s', x)
    ensures PtrsOf(s, s'.txns[x])
    ensures s'.txns[x].cursor.Some? ==> CursorOf(s, s'.txns[x]) && Shielded(s, s.txns[x], s'.txns[x].cursor.value)
  {
    AtCursor(s, x);
    CursorMoves(s, s', x);
  }

  lemma CursorMoves(s: State, s': State, x: nat)
    requires s.m >= 1 && SnapRead(s, s', x) && PtrsOf(s, s.txns[x]) && Garbage(s)
    requires var t := s.txns[x]; var p := t.cursor.value;
      && CursorOf(s, t) && LinkOf(s, p) && HoldsOf(s, p)
      && var u := s.tuples[p];
         u.version != Tid.MAX_TID ==>
           (u.version <= t.snapTid <==> Ro(s, H(s, u.key)[u.pos].epoch) < Limit(s, t))
    ensures PtrsOf(s, s'.txns[x])
    ensures s'.txns[x].cursor.Some? ==> CursorOf(s, s'.txns[x]) && Shielded(s, s.txns[x], s'.txns[x].cursor.value)
  {
    if s'.txns[x].cursor.Some? {
      NextIsGood(s, s.txns[x], s.txns[x].cursor.value);
    }
  }

  /** A snapshot read that stops returns what the key's history leaves below the boundary. */
  lemma ResultIsGood(s: State, s': State, x: nat)
    requires s.m >= 1 && SnapRead(s, s', x) && Garbage(s)
    requires var t := s.txns[x]; var p := t.cursor.value;
      && CursorOf(s, t) && LinkOf(s, p) && HoldsOf(s, p)
      && var u := s.tuples[p];
         u.version != Tid.MAX_TID ==>
           (u.version <= t.snapTid <==> Ro(s, H(s, u.key)[u.pos].epoch) < Limit(s, t))
    ensures s'.txns[x].results == s.txns[x].results
      || (s'.txns[x].results == s.txns[x].results + [Result(s.tuples[s.txns[x].cursor.value].key,
            Below(H(s, s.tuples[s.txns[x].cursor.value].key), s.m, Limit(s, s.txns[x])))])
  {
    var t := s.txns[x];
    var p := t.cursor.value;
    var u := s.tuples[p];
    if u.version == Tid.MAX_TID {
      BelowNone(H(s, u.key), s.m, Limit(s, t));
    } else if u.version <= t.snapTid {
      BelowAt(H(s, u.key), s.m, Limit(s, t), u.pos);
    } else if u.next == None {
      NextIsGood(s, t, p);
    }
  }

  lemma ExtendResults(s: State, t: Txn, t': Txn, r: Result)
    requires s.m >= 1 && t'.start == t.start && ResultOf(s, t, r)
    requires forall i :: 0 <= i < |t.results| ==> ResultOf(s, t, t.results[i])
    requires t'.results == t.results || t'.results == t.results + [r]
    ensures forall i :: 0 <= i < |t'.results| ==> ResultOf(s, t', t'.results[i])
  {
    forall i | 0 <= i < |t'.results| ensures ResultOf(s, t', t'.results[i]) {
      if i < |t.results| { assert ResultOf(s, t, t.results[i]) && t'.results[i] == t.results[i]; }
    }
  }

  lemma SnapReadResults(s: State, s': State, x: nat)
    requires Base(s) && Logged(s) && Histories(s) && Holdings(s) && Chains(s) && Cuts(s) && Snapshots(s) && Garbage(s)
    requires SnapRead(s, s', x)
    ensures forall i :: 0 <= i < |s'.txns[x].results| ==> ResultOf(s, s'.txns[x], s'.txns[x].results[i])
  {
    AtCursor(s, x);
    ResultIsGood(s, s', x);
    var k := s.tuples[s.txns[x].cursor.value].key;
    ExtendResults(s, s.txns[x], s'.txns[x], Result(k, Below(H(s, k), s.m, Limit(s, s.txns[x]))));
  }

  lemma SnapMissResults(s: State, s': State, x: nat, k: Key)
    requires Base(s) && Times(s) && Grown(s) && Ages(s) && Snapshots(s) && SnapMiss(s, s', x, k)
    ensures forall i :: 0 <= i < |s'.txns[x].results| ==> ResultOf(s, s'.txns[x], s'.txns[x].results[i])
  {
    assert TimeOf(s, x);
    assert H(s, k) == [];
    forall k0 | k0 in s.born && k0.name == k.name ensures k0 in s.shut { assert Planted(s, k0); }
    NewestAlone(s, x, k);
    ExtendResults(s, s.txns[x], s'.txns[x], Result(k, ""));
  }

  lemma MissSnapshots(s: State, s': State, x: nat)
    requires Light(s, s', x) && Snapshots(s) && s'.txns[x].cursor == s.txns[x].cursor
    requires forall i :: 0 <= i < |s'.txns[x].results| ==> ResultOf(s, s'.txns[x], s'.txns[x].results[i])
    ensures Snapshots(s')
  {
    if s.txns[x].snapshot && s.txns[x].cursor.Some? { assert CursorOf(s, s.txns[x]); }
    KeepsSnapshots(s, s', x);
  }

  // ----- validation

  /** A tuple that passes validation hides no unresolved write of another logged transaction. */
  lemma NothingHidden(s: State, y: nat, p: Ptr)
    requires y in s.txns && PhaseOf(s.txns[y]) && s.txns[y].serial && WorkOf(s, y)
    requires p in s.tuples && s.tuples[p].key in s.index && s.index[s.tuples[p].key] == p
    requires p !in s.txns[y].held
    requires s.tuples[p].key in s.log[s.txns[y].pos].writes
    requires s.txns[y].phase != Aborting && s.txns[y].phase != Aborted
    ensures s.tuples[p].key in s.txns[y].applied
  {
    var k := s.tuples[p].key;
    if s.txns[y].phase.Validating? || s.txns[y].phase == Writing {
      if k !in s.txns[y].applied {
        assert false;
      }
    }
  }

  lemma SettlesAt(s: State, x: nat, p: Ptr, j: nat)
    requires j < |s.log| && x in s.txns && s.log[j].txn in s.txns && s.log[j].txn != x
    requires s.txns[s.log[j].txn].serial && s.txns[s.log[j].txn].pos == j
    requires PhaseOf(s.txns[s.log[j].txn]) && WorkOf(s, s.log[j].txn)
    requires p in s.tuples && s.tuples[p].key in s.index && s.index[s.tuples[p].key] == p
    requires p !in s.txns[s.log[j].txn].held
    ensures Resolved(s, s.tuples[p].key, j)
  {
    var y, k := s.log[j].txn, s.tuples[p].key;
    if s.txns[y].phase != Aborting && s.txns[y].phase != Aborted && k in s.log[j].writes {
      NothingHidden(s, y, p);
    }
  }

  lemma NotHeldByOthers(s: State, x: nat, y: nat, p: Ptr)
    requires Locks(s) && x in s.txns && y in s.txns && y != x && PhaseOf(s.txns[x]) && s.txns[x].phase.Validating?
    requires p in s.tuples && (p in s.txns[x].puts || p in s.txns[x].inserts || s.tuples[p].owner == None)
    ensures p !in s.txns[y].held
  {
  }

  lemma ValidationSettles(s: State, x: nat, p: Ptr)
    requires Indexed(s) && Locks(s) && Phases(s) && Logged(s) && Work(s)
    requires x in s.txns && s.txns[x].phase.Validating? && p in s.tuples && s.tuples[p].latest
    requires p in s.txns[x].puts || p in s.txns[x].inserts || s.tuples[p].owner == None
    ensures Settled(s, s.tuples[p].key, s.txns[x].pos)
  {
    forall j | 0 <= j < s.txns[x].pos && j < |s.log| ensures Resolved(s, s.tuples[p].key, j) {
      var y := s.log[j].txn;
      NotHeldByOthers(s, x, y, p);
      SettlesAt(s, x, p, j);
    }
  }

  lemma {:induction false} LastInLast(h: seq<Ver>, n: nat)
    requires h != [] && h[|h| - 1].pos < n
    ensures LastIn(h, n) == Some(h[|h| - 1])
  {
  }

  /** A tuple that passes validation still holds exactly the version that was read. */
  lemma PassedIsLast(s: State, t: Txn, r: ReadRec)
    requires Passes(s, t, r) && ReadOf(s, t, r) && HoldsOf(s, r.ptr) && t.serial
    requires Settled(s, s.tuples[r.ptr].key, t.pos)
    ensures ValidOf(s, t, r)
  {
    var h := H(s, s.tuples[r.ptr].key);
    assert s.tuples[r.ptr].version == r.tid == h[|h| - 1].tid;
    LastInLast(h, t.pos);
  }

  lemma ValidateIsGood(s: State, s': State, x: nat)
    requires Indexed(s) && Locks(s) && Phases(s) && Logged(s) && Work(s) && Holdings(s) && Reads(s) && Validated(s)
    requires Validate(s, s', x)
    ensures forall i :: 0 <= i < |s'.txns[x].readSet| && i < Checked(s'.txns[x]) ==>
      ValidOf(s, s'.txns[x], s'.txns[x].readSet[i])
  {
    var r := s.txns[x].readSet[s.txns[x].phase.done];
    ValidationSettles(s, x, r.ptr);
    assert PhaseOf(s.txns[x]) && ReadOf(s, s.txns[x], r) && HoldsOf(s, r.ptr);
    PassedIsLast(s, s.txns[x], r);
    ExtendValidated(s, s', x);
  }

  lemma ExtendValidated(s: State, s': State, x: nat)
    requires Validated(s) && Validate(s, s', x) && ValidOf(s, s.txns[x], s.txns[x].readSet[s.txns[x].phase.done])
    ensures forall i :: 0 <= i < |s'.txns[x].readSet| && i < Checked(s'.txns[x]) ==>
      ValidOf(s, s'.txns[x], s'.txns[x].readSet[i])
  {
    var t, t' := s.txns[x], s'.txns[x];
    forall i | 0 <= i < |t'.readSet| && i < Checked(t') ensures ValidOf(s, t', t'.readSet[i]) {
      assert ValidOf(s, t, t.readSet[i]);
    }
  }
}
