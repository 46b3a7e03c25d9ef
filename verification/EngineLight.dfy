/** Steps that change one transaction and nothing else keep the invariant. */
module EngineLight {
  import opened Engine
  import opened EngineInv
  import opened EngineFrame
  import Tid

  /** The fields no light step touches. */
  predicate Kept(t: Txn, t': Txn) {
    && t'.core == t.core && t'.tick == t.tick && t'.start == t.start && t'.snapshot == t.snapshot
    && t'.snapTid == t.snapTid
    && t'.inserts == t.inserts && t'.held == t.held && t'.written == t.written && t'.unlinked == t.unlinked
    && t'.tid == t.tid && t'.epoch == t.epoch
    && t'.serial == t.serial && t'.pos == t.pos && t'.applied == t.applied
  }

  /** The phase changes of light steps. */
  predicate Moves(t: Txn, t': Txn) {
    && Live(t)
    && (t.phase == Running ==>
          t'.phase == Running || t'.phase == Locking(0) || t'.phase == Committed || t'.phase == Aborting)
    && (t.phase.Locking? ==> t'.phase == Aborting)
    && (t.phase.Validating? ==> t'.phase.Validating? || t'.phase == Writing || t'.phase == Aborting)
    && (t.phase == Writing ==> t'.phase == Unlocking)
    && (t.phase == Unlocking ==> t'.phase == Committed)
    && (t.phase == Aborting ==> t'.phase == Aborted)
    && (t.phase == Running && t'.phase == Committed ==> t.snapshot)
    && (t'.phase != Running ==> t'.puts == t.puts)
  }

  ghost predicate Light(s: State, s': State, x: nat) {
    && x in s.txns && x in s'.txns && s' == WithTxn(s, x, s'.txns[x])
    && Kept(s.txns[x], s'.txns[x]) && Moves(s.txns[x], s'.txns[x])
    && PhaseOf(s.txns[x]) && PhaseOf(s'.txns[x])
  }

  /** The extra guard of EndWriting. */
  ghost predicate DoneWriting(s: State, x: nat)
    requires x in s.txns
  {
    && s.txns[x].written == s.txns[x].puts.Keys
    && forall p :: p in s.txns[x].inserts ==> p in s.tuples && s.tuples[p].version != Tid.MAX_TID
  }

  /** A light step that changes the phase, drops the cursor, and adds no read, pointer or result. */
  ghost predicate Quiet(s: State, s': State, x: nat) {
    && Light(s, s', x) && (s'.txns[x].phase == Unlocking ==> DoneWriting(s, x))
    && s'.txns[x].readSet == s.txns[x].readSet && s'.txns[x].puts == s.txns[x].puts
    && s'.txns[x].results == s.txns[x].results
    && (s'.txns[x].cursor == None || s'.txns[x].cursor == s.txns[x].cursor)
    && Checked(s'.txns[x]) <= Checked(s.txns[x])
  }

  // ----- each light step is light

  lemma LookupIsLight(s: State, s': State, x: nat, n: Name)
    requires Phases(s) && Lookup(s, s', x, n)
    ensures Light(s, s', x)
  {
  }

  lemma ReadIsLight(s: State, s': State, x: nat)
    requires Phases(s) && Read(s, s', x)
    ensures Light(s, s', x)
  {
  }

  lemma PutIsLight(s: State, s': State, x: nat, v: Value)
    requires Phases(s) && Put(s, s', x, v)
    ensures Light(s, s', x)
  {
  }

  lemma SnapMissIsLight(s: State, s': State, x: nat, k: Key)
    requires Phases(s) && SnapMiss(s, s', x, k)
    ensures Light(s, s', x)
  {
  }

  lemma SnapReadIsLight(s: State, s': State, x: nat)
    requires Phases(s) && SnapRead(s, s', x)
    ensures Light(s, s', x)
  {
  }

  lemma SnapDoneIsQuiet(s: State, s': State, x: nat)
    requires Phases(s) && SnapDone(s, s', x)
    ensures Quiet(s, s', x)
  {
  }

  lemma StartCommitIsQuiet(s: State, s': State, x: nat, order: seq<Ptr>)
    requires Phases(s) && StartCommit(s, s', x, order)
    ensures Quiet(s, s', x)
  {
    assert order[..0] == [];
  }

  lemma LockRejectIsQuiet(s: State, s': State, x: nat)
    requires Phases(s) && LockReject(s, s', x)
    ensures Quiet(s, s', x)
  {
    var t := s.txns[x];
    assert t.order == t.order[..t.phase.done] + t.order[t.phase.done..];
  }

  lemma ValidateIsLight(s: State, s': State, x: nat)
    requires Phases(s) && Validate(s, s', x)
    ensures Light(s, s', x)
  {
  }

  lemma DecideIsQuiet(s: State, s': State, x: nat)
    requires Phases(s) && Decide(s, s', x)
    ensures Quiet(s, s', x)
  {
  }

  lemma GiveUpIsQuiet(s: State, s': State, x: nat)
    requires Phases(s) && GiveUp(s, s', x)
    ensures Quiet(s, s', x)
  {
  }

  lemma EndWritingIsQuiet(s: State, s': State, x: nat)
    requires Phases(s) && EndWriting(s, s', x)
    ensures Quiet(s, s', x)
  {
  }

  lemma FinishIsQuiet(s: State, s': State, x: nat)
    requires Phases(s) && Finish(s, s', x)
    ensures Quiet(s, s', x)
  {
  }

  // ----- what every light step keeps

  lemma KeepsShared(s: State, s': State, x: nat)
    requires Light(s, s', x)
    requires Base(s) && Indexed(s) && Locks(s) && Phases(s)
    ensures Base(s') && Indexed(s') && Locks(s') && Phases(s')
  {
  }

  lemma KeepsChains(s: State, s': State, x: nat)
    requires Light(s, s', x) && Chains(s)
    ensures Chains(s')
  {
    forall p | p in s'.tuples ensures LinkOf(s', p) { assert LinkOf(s, p); }
  }

  lemma KeepsGarbage(s: State, s': State, x: nat)
    requires Light(s, s', x) && Garbage(s)
    ensures Garbage(s')
  {
    forall k ensures H(s', k) == H(s, k) {}
    forall p | p in s'.tuples ensures GarbageOf(s', p) { assert GarbageOf(s, p); }
    forall c, i | 0 <= c < |s'.queue| && 0 <= i < |s'.queue[c]| ensures ItemOf(s', s'.queue[c][i]) {
      assert ItemOf(s, s.queue[c][i]);
    }
  }

  lemma KeepsQueues(s: State, s': State, x: nat)
    requires Light(s, s', x) && Queues(s)
    ensures Queues(s')
  {
    forall c, i | 0 <= c < |s'.queue| && 0 <= i < |s'.queue[c]| ensures QueuedOf(s', s'.queue[c][i].ptr, c, i) {
      assert QueuedOf(s, s.queue[c][i].ptr, c, i);
    }
    forall c, i | 0 <= c < |s'.rcu| && 0 <= i < |s'.rcu[c]| ensures HandedOf(s', s'.rcu[c][i].ptr, c, i) {
      assert HandedOf(s, s.rcu[c][i].ptr, c, i);
    }
  }

  lemma KeepsGrown(s: State, s': State, x: nat)
    requires Light(s, s', x) && Grown(s) && Ages(s) && Sweeps(s)
    ensures Grown(s') && Ages(s') && Sweeps(s')
  {
    forall k ensures H(s', k) == H(s, k) {}
    forall k | k in s'.born ensures Planted(s', k) { assert Planted(s, k); }
    forall k | k in s'.shut ensures Closed(s', k) { assert Closed(s, k); }
    forall j, k, k0: Key | 0 <= j < |s'.log| && k in s'.log[j].writes && k0.name == k.name && k0.gen < k.gen
      ensures EndsBefore(s', k0, j)
    {
      assert EndsBefore(s, k0, j);
    }
    forall c | 0 <= c < |s'.clean| && s'.clean[c] != Resting ensures SweptOf(s', c) { assert SweptOf(s, c); }
    forall k | k in s'.shut && k in s'.index ensures Swept(s', s'.index[k]) { assert Swept(s, s.index[k]); }
  }

  lemma KeepsCuts(s: State, s': State, x: nat)
    requires Light(s, s', x) && Cuts(s)
    ensures Cuts(s')
  {
  }

  lemma KeepsTimes(s: State, s': State, x: nat)
    requires Light(s, s', x) && Times(s)
    ensures Times(s')
  {
    forall y | y in s'.txns ensures TimeOf(s', y) { assert TimeOf(s, y); }
  }

  lemma KeepsLogged(s: State, s': State, x: nat)
    requires Light(s, s', x) && Logged(s)
    ensures Logged(s')
  {
  }

  lemma KeepsTids(s: State, s': State, x: nat)
    requires Light(s, s', x) && TidsGrow(s)
    ensures TidsGrow(s')
  {
  }

  lemma KeepsHistories(s: State, s': State, x: nat)
    requires Light(s, s', x) && Histories(s)
    ensures Histories(s')
  {
    forall k, i | k in s'.hist && 0 <= i < |s'.hist[k]| ensures VerOf(s', k, s'.hist[k][i]) {
      assert VerOf(s, k, s.hist[k][i]);
    }
  }

  lemma KeepsHoldings(s: State, s': State, x: nat)
    requires Light(s, s', x) && Holdings(s)
    ensures Holdings(s')
  {
    forall p | p in s'.tuples ensures HoldsOf(s', p) { assert HoldsOf(s, p); }
    forall k | k !in s'.index ensures Closed(s', k) { assert Closed(s, k) && H(s', k) == H(s, k); }
  }

  lemma KeepsTentative(s: State, s': State, x: nat)
    requires Light(s, s', x) && Tentative(s)
    requires s'.txns[x].phase == Unlocking ==> DoneWriting(s, x)
    ensures Tentative(s')
  {
    forall y, p | y in s'.txns && p in s'.txns[y].inserts ensures InsertOf(s', y, p) { assert InsertOf(s, y, p); }
  }

  lemma KeepsWork(s: State, s': State, x: nat)
    requires Light(s, s', x) && Work(s) && Phases(s) && Locks(s)
    requires s'.txns[x].phase == Unlocking ==> DoneWriting(s, x)
    ensures Work(s')
  {
    forall y | y in s'.txns ensures WorkOf(s', y) {
      assert WorkOf(s, y) && PhaseOf(s.txns[y]);
      if y != x {
        OtherWork(s, s', x, y);
        UntouchedWork(s, s', y);
      } else {
        OwnWork(s, s', x);
      }
    }
  }

  lemma OtherWork(s: State, s': State, x: nat, y: nat)
    requires Light(s, s', x) && y in s.txns && y != x && Locks(s)
    ensures Untouched(s, s', y)
  {
    forall k ensures H(s', k) == H(s, k) {}
  }

  lemma OwnWork(s: State, s': State, x: nat)
    requires Light(s, s', x) && WorkOf(s, x)
    requires s'.txns[x].phase == Unlocking ==> DoneWriting(s, x)
    ensures WorkOf(s', x)
  {
    var t, t' := s.txns[x], s'.txns[x];
    if t'.serial && (t'.phase.Validating? || t'.phase == Writing) {
      forall k | k in s.log[t.pos].writes && k !in t.applied ensures PendingOf(s', x, k) {
        assert PendingOf(s, x, k);
        OwnPending(s, s', x, k);
      }
      forall p | p in t.puts || p in t.inserts ensures AheadOf(s', x, p) { assert AheadOf(s, x, p); }
    }
    if t'.phase == Unlocking {
      AllApplied(s, x);
    }
  }

  lemma OwnPending(s: State, s': State, x: nat, k: Key)
    requires x in s.txns && x in s'.txns && s' == WithTxn(s, x, s'.txns[x]) && Kept(s.txns[x], s'.txns[x])
    requires s'.txns[x].puts == s.txns[x].puts && PendingOf(s, x, k)
    ensures PendingOf(s', x, k)
  {
    assert H(s', k) == H(s, k);
  }

  lemma AllApplied(s: State, x: nat)
    requires x in s.txns && s.txns[x].phase == Writing && s.txns[x].serial && WorkOf(s, x) && DoneWriting(s, x)
    ensures s.txns[x].applied.Keys == s.log[s.txns[x].pos].writes.Keys
  {
    var t := s.txns[x];
    forall k | k in s.log[t.pos].writes ensures k in t.applied {
      if k !in t.applied { assert false; }
    }
  }

  lemma KeepsSettled(s: State, s': State, x: nat, k: Key, n: nat)
    requires Light(s, s', x) && Settled(s, k, n)
    ensures Settled(s', k, n)
  {
    forall j | 0 <= j < n && j < |s'.log| ensures Resolved(s', k, j) { assert Resolved(s, k, j); }
  }

  // ----- invariants that need the new read, pointer or result to be good

  lemma KeepsReads(s: State, s': State, x: nat)
    requires Light(s, s', x) && Reads(s)
    requires forall i :: 0 <= i < |s'.txns[x].readSet| ==> ReadOf(s, s'.txns[x], s'.txns[x].readSet[i])
    ensures Reads(s')
  {
    forall y, i | y in s'.txns && 0 <= i < |s'.txns[y].readSet| ensures ReadOf(s', s'.txns[y], s'.txns[y].readSet[i]) {
      if y != x { assert ReadOf(s, s.txns[y], s.txns[y].readSet[i]); }
      assert H(s', s.tuples[s'.txns[y].readSet[i].ptr].key) == H(s, s.tuples[s'.txns[y].readSet[i].ptr].key);
    }
  }

  lemma KeepsValidated(s: State, s': State, x: nat)
    requires Light(s, s', x) && Validated(s)
    requires forall i :: 0 <= i < |s'.txns[x].readSet| && i < Checked(s'.txns[x]) ==>
      ValidOf(s, s'.txns[x], s'.txns[x].readSet[i])
    ensures Validated(s')
  {
    forall y, i | y in s'.txns && 0 <= i < |s'.txns[y].readSet| && i < Checked(s'.txns[y])
      ensures ValidOf(s', s'.txns[y], s'.txns[y].readSet[i])
    {
      var r := s'.txns[y].readSet[i];
      if y != x { assert ValidOf(s, s.txns[y], s.txns[y].readSet[i]); }
      KeepsSettled(s, s', x, s.tuples[r.ptr].key, s'.txns[y].pos);
    }
  }

  lemma KeepsPointers(s: State, s': State, x: nat)
    requires Light(s, s', x) && Pointers(s) && PtrsOf(s, s'.txns[x])
    ensures Pointers(s')
  {
    forall y | y in s'.txns ensures PtrsOf(s', s'.txns[y]) {
      if y != x { assert PtrsOf(s, s.txns[y]); }
    }
  }

  lemma KeepsShields(s: State, s': State, x: nat)
    requires Light(s, s', x) && Shields(s)
    requires forall p :: p in Ptrs(s'.txns[x]) ==> Shielded(s, s'.txns[x], p)
    ensures Shields(s')
  {
    forall y, p | y in s'.txns && Live(s'.txns[y]) && p in Ptrs(s'.txns[y]) ensures Shielded(s', s'.txns[y], p) {
      if y != x { assert Shielded(s, s.txns[y], p); }
    }
  }

  lemma KeepsSnapshots(s: State, s': State, x: nat)
    requires Light(s, s', x) && Snapshots(s)
    requires s'.txns[x].snapshot && s'.txns[x].cursor.Some? ==> CursorOf(s, s'.txns[x])
    requires forall i :: 0 <= i < |s'.txns[x].results| ==> ResultOf(s, s'.txns[x], s'.txns[x].results[i])
    ensures Snapshots(s')
  {
    forall y | y in s'.txns && s'.txns[y].snapshot && s'.txns[y].cursor.Some? ensures CursorOf(s', s'.txns[y]) {
      assert CursorOf(s, s'.txns[y]);
      AloneFrame(s, s', s.tuples[s'.txns[y].cursor.value].key, Limit(s, s'.txns[y]));
    }
    forall y, i | y in s'.txns && 0 <= i < |s'.txns[y].results|
      ensures ResultOf(s', s'.txns[y], s'.txns[y].results[i])
    {
      assert ResultOf(s, s'.txns[y], s'.txns[y].results[i]);
      AloneFrame(s, s', s'.txns[y].results[i].key, Limit(s, s'.txns[y]));
    }
  }

  // ----- steps that add nothing of the kind

  lemma QuietReads(s: State, s': State, x: nat)
    requires Light(s, s', x) && Reads(s) && s'.txns[x].readSet == s.txns[x].readSet
    ensures Reads(s')
  {
    forall i | 0 <= i < |s'.txns[x].readSet| ensures ReadOf(s, s'.txns[x], s'.txns[x].readSet[i]) {
      assert ReadOf(s, s.txns[x], s.txns[x].readSet[i]);
    }
    KeepsReads(s, s', x);
  }

  lemma QuietValidated(s: State, s': State, x: nat)
    requires Light(s, s', x) && Validated(s) && Checked(s'.txns[x]) <= Checked(s.txns[x])
    requires s'.txns[x].readSet == s.txns[x].readSet || Checked(s'.txns[x]) == 0
    ensures Validated(s')
  {
    forall i | 0 <= i < |s'.txns[x].readSet| && i < Checked(s'.txns[x])
      ensures ValidOf(s, s'.txns[x], s'.txns[x].readSet[i])
    {
      assert ValidOf(s, s.txns[x], s.txns[x].readSet[i]);
    }
    KeepsValidated(s, s', x);
  }

  lemma QuietPointers(s: State, s': State, x: nat)
    requires Light(s, s', x) && Pointers(s) && PtrsOf(s, s'.txns[x])
    requires Shields(s) && Ptrs(s'.txns[x]) <= Ptrs(s.txns[x])
    ensures Pointers(s') && Shields(s')
  {
    KeepsPointers(s, s', x);
    forall p | p in Ptrs(s'.txns[x]) ensures Shielded(s, s'.txns[x], p) { assert Shielded(s, s.txns[x], p); }
    KeepsShields(s, s', x);
  }

  lemma SamePointers(s: State, s': State, x: nat)
    requires Light(s, s', x) && Pointers(s) && Shields(s)
    requires s'.txns[x].readSet == s.txns[x].readSet && s'.txns[x].puts == s.txns[x].puts
    requires s'.txns[x].cursor == None || s'.txns[x].cursor == s.txns[x].cursor
    ensures Pointers(s') && Shields(s')
  {
    assert PtrsOf(s, s.txns[x]);
    QuietPointers(s, s', x);
  }

  lemma QuietSnapshots(s: State, s': State, x: nat)
    requires Light(s, s', x) && Snapshots(s) && s'.txns[x].results == s.txns[x].results
    requires s'.txns[x].snapshot && s'.txns[x].cursor.Some? ==>
      s'.txns[x].cursor == s.txns[x].cursor || CursorOf(s, s'.txns[x])
    ensures Snapshots(s')
  {
    forall i | 0 <= i < |s'.txns[x].results| ensures ResultOf(s, s'.txns[x], s'.txns[x].results[i]) {
      assert ResultOf(s, s.txns[x], s.txns[x].results[i]);
    }
    if s'.txns[x].snapshot && s'.txns[x].cursor.Some? && s'.txns[x].cursor == s.txns[x].cursor {
      assert CursorOf(s, s.txns[x]);
    }
    KeepsSnapshots(s, s', x);
  }
}
