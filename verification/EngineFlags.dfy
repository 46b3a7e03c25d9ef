/** Steps that only set or clear header flags of one tuple: taking and releasing a lock, unlinking a
    failed insert, freeing a version. */
module EngineFlags {
  import opened Engine
  import opened EngineInv
  import opened EngineFrame
  import opened EngineRely
  import Tid
  import Ticker

  /** The latest flag can only be cleared. */
  predicate FlagTuple(u: Tuple, u': Tuple) {
    && u' == u.(owner := u'.owner, modifying := u'.modifying, latest := u'.latest, freed := u'.freed)
    && (u'.latest ==> u.latest)
  }

  predicate FlagTxn(t: Txn, t': Txn) {
    && t' == t.(held := t'.held, marks := t'.marks, unlinked := t'.unlinked, phase := t'.phase)
    && (t'.phase == t.phase || (t.phase.Locking? && (t'.phase.Locking? || t'.phase == Aborting)))
  }

  ghost predicate FlagStep(s: State, s': State, p: Ptr) {
    && p in s.tuples && p in s'.tuples && s'.tuples == s.tuples[p := s'.tuples[p]]
    && FlagTuple(s.tuples[p], s'.tuples[p])
    && s'.m == s.m && s'.rm == s.rm && s'.tk == s.tk && s'.log == s.log && s'.hist == s.hist
    && s'.lastTid == s.lastTid && s'.gc == s.gc && s.shut <= s'.shut
    && |s'.queue| == |s.queue| && |s'.clean| == |s.clean| && |s'.rcu| == |s.rcu|
    && (forall q :: q in s'.gone ==> GoneRely(s, s', q))
    && s'.txns.Keys == s.txns.Keys
    && forall x :: x in s.txns ==> FlagTxn(s.txns[x], s'.txns[x])
  }

  lemma FlagRely(s: State, s': State, p: Ptr)
    requires FlagStep(s, s', p) && s.m >= 1
    requires forall q :: q in s.tuples ==> HoldsOf(s, q)
    ensures Rely(s, s')
  {
    forall k ensures H(s', k) == H(s, k) {}
    forall k ensures HistRely(s, s', k) {}
    forall x | x in s.txns ensures TxnRely(s.txns[x], s'.txns[x]) { assert FlagTxn(s.txns[x], s'.txns[x]); }
    forall q | q in s.tuples ensures TupleRely(s, s.tuples[q], s'.tuples[q]) { assert HoldsOf(s, q); }
    forall q | q in s.tuples ensures DraftRely(s, s', q) { assert HoldsOf(s, q); }
  }

  lemma FlagPtrs(s: State, s': State, p: Ptr)
    requires FlagStep(s, s', p)
    ensures NoNewPtrs(s, s')
    ensures forall x :: x in s.txns ==>
      s'.txns[x].puts == s.txns[x].puts && s'.txns[x].inserts <= s.txns[x].inserts + s'.tuples.Keys
  {
    forall x, q | x in s.txns && x in s'.txns && q in Ptrs(s'.txns[x]) ensures q in Ptrs(s.txns[x]) {
      assert FlagTxn(s.txns[x], s'.txns[x]);
    }
    forall x | x in s.txns
      ensures s'.txns[x].puts == s.txns[x].puts && s'.txns[x].inserts <= s.txns[x].inserts + s'.tuples.Keys
    {
      assert FlagTxn(s.txns[x], s'.txns[x]);
    }
  }

  lemma FlagHistories(s: State, s': State, p: Ptr)
    requires FlagStep(s, s', p) && Histories(s)
    ensures Histories(s')
  {
    forall k, i | k in s'.hist && 0 <= i < |s'.hist[k]| ensures VerOf(s', k, s'.hist[k][i]) {
      assert VerOf(s, k, s.hist[k][i]);
      assert FlagTxn(s.txns[s.log[s.hist[k][i].pos].txn], s'.txns[s.log[s.hist[k][i].pos].txn]);
    }
  }

  lemma FlagChains(s: State, s': State, p: Ptr)
    requires FlagStep(s, s', p) && Chains(s)
    ensures Chains(s')
  {
    forall q | q in s'.tuples ensures LinkOf(s', q) {
      assert LinkOf(s, q);
      assert H(s', s.tuples[q].key) == H(s, s.tuples[q].key);
    }
  }

  /** The index and the clocks stay, and no tuple changes what it holds. */
  lemma FlagHoldings(s: State, s': State, p: Ptr)
    requires FlagStep(s, s', p) && Holdings(s) && s'.index == s.index
    requires s'.tuples[p].owner == s.tuples[p].owner || s.tuples[p].owner == None
             || (s.tuples[p].owner.value in s.txns && s.txns[s.tuples[p].owner.value].phase != Writing)
    requires forall x :: x in s.txns && s.txns[x].phase == Writing ==> s'.txns[x] == s.txns[x]
    ensures Holdings(s')
  {
    forall k ensures H(s', k) == H(s, k) {}
    forall q | q in s'.tuples ensures HoldsOf(s', q) { assert HoldsOf(s, q); }
    forall k | k !in s'.index ensures Closed(s', k) {
      assert Closed(s, k);
      ClosedFrame(s, s', k);
    }
  }

  // ----- taking a lock

  lemma LockTakeIsFlag(s: State, s': State, x: nat)
    requires LockTake(s, s', x)
    ensures FlagStep(s, s', LockTarget(s, x)) && s'.index == s.index
  {
  }

  lemma LockTakePhases(s: State, s': State, x: nat)
    requires LockTake(s, s', x) && Phases(s)
    ensures Phases(s')
  {
    var t := s.txns[x];
    var i := t.phase.done;
    assert PhaseOf(t);
    assert t.order[..i + 1] == t.order[..i] + [t.order[i]];
    assert Elems(t.order[..i + 1]) == Elems(t.order[..i]) + {t.order[i]};
    assert t.order == t.order[..i] + t.order[i..];
    assert PhaseOf(s'.txns[x]);
  }

  lemma LockTakeLocks(s: State, s': State, x: nat)
    requires LockTake(s, s', x) && Locks(s) && Indexed(s)
    ensures Locks(s') && Indexed(s')
  {
  }

  lemma LockTakeTentative(s: State, s': State, x: nat)
    requires LockTake(s, s', x) && Tentative(s) && PhaseOf(s.txns[x])
    ensures Tentative(s')
  {
    forall y, p | y in s'.txns && p in s'.txns[y].inserts ensures InsertOf(s', y, p) { assert InsertOf(s, y, p); }
  }

  lemma LockTakeHoldings(s: State, s': State, x: nat)
    requires LockTake(s, s', x) && Holdings(s)
    ensures Holdings(s')
  {
    LockTakeIsFlag(s, s', x);
    FlagHoldings(s, s', LockTarget(s, x));
  }

  lemma LockTakeOwn(s: State, s': State, x: nat)
    requires LockTake(s, s', x) && WorkOf(s, x) && PhaseOf(s.txns[x])
    ensures WorkOf(s', x)
  {
  }

  lemma LockTakeWork(s: State, s': State, x: nat)
    requires LockTake(s, s', x) && Work(s) && Phases(s) && Locks(s)
    ensures Work(s')
  {
    forall y | y in s'.txns ensures WorkOf(s', y) {
      assert WorkOf(s, y) && PhaseOf(s.txns[y]);
      if y != x {
        UntouchedBeside(s, s', LockTarget(s, x), y);
        UntouchedWork(s, s', y);
      } else {
        LockTakeOwn(s, s', x);
      }
    }
  }

  // ----- releasing a lock

  lemma UnlockIsFlag(s: State, s': State, x: nat, p: Ptr)
    requires Unlock(s, s', x, p)
    ensures FlagStep(s, s', p) && s'.index == s.index
  {
  }

  /** The marks of an ending transaction are its locks. */
  lemma MarkIsHeld(s: State, x: nat, p: Ptr)
    requires x in s.txns && PhaseOf(s.txns[x]) && Locks(s) && p in s.txns[x].marks && s.txns[x].phase != Running
    ensures p in s.txns[x].held && p in s.tuples && s.tuples[p].owner == Some(x)
  {
  }

  lemma UnlockPhases(s: State, s': State, x: nat, p: Ptr)
    requires Unlock(s, s', x, p) && Phases(s)
    ensures Phases(s')
  {
    assert PhaseOf(s.txns[x]);
    assert PhaseOf(s'.txns[x]);
  }

  lemma UnlockLocks(s: State, s': State, x: nat, p: Ptr)
    requires Unlock(s, s', x, p) && Locks(s) && PhaseOf(s.txns[x])
    ensures Locks(s')
  {
    MarkIsHeld(s, x, p);
    forall y, q | y in s'.txns && q in s'.txns[y].held ensures q in s'.tuples && s'.tuples[q].owner == Some(y) {
      assert q in s.txns[y].held;
    }
  }

  lemma UnlockIndexed(s: State, s': State, x: nat, p: Ptr)
    requires Unlock(s, s', x, p) && Indexed(s)
    ensures Indexed(s')
  {
  }

  lemma UnlockInserts(s: State, s': State, x: nat, p: Ptr)
    requires Unlock(s, s', x, p) && Inserts(s)
    ensures Inserts(s')
  {
    forall y, q | y in s'.txns && q in s'.txns[y].inserts ensures InsertOf(s', y, q) { assert InsertOf(s, y, q); }
  }

  /** Nothing the unlock loop visits is a tentative insert that is still in the tree. */
  lemma UnlockOwned(s: State, s': State, x: nat, p: Ptr)
    requires Unlock(s, s', x, p) && Owned(s) && s.tuples[p].owner == Some(x)
    requires p in s.txns[x].inserts ==> InsertOf(s, x, p)
    ensures Owned(s')
  {
  }

  lemma UnlockTentative(s: State, s': State, x: nat, p: Ptr)
    requires Unlock(s, s', x, p) && Tentative(s) && Locks(s) && PhaseOf(s.txns[x])
    ensures Tentative(s')
  {
    UnlockInserts(s, s', x, p);
    MarkIsHeld(s, x, p);
    if p in s.txns[x].inserts { assert InsertOf(s, x, p); }
    UnlockOwned(s, s', x, p);
  }

  lemma UnlockHoldings(s: State, s': State, x: nat, p: Ptr)
    requires Unlock(s, s', x, p) && Holdings(s) && Locks(s) && PhaseOf(s.txns[x])
    ensures Holdings(s')
  {
    MarkIsHeld(s, x, p);
    UnlockIsFlag(s, s', x, p);
    FlagHoldings(s, s', p);
  }

  lemma UnlockOwn(s: State, s': State, x: nat, p: Ptr)
    requires Unlock(s, s', x, p) && WorkOf(s, x)
    ensures WorkOf(s', x)
  {
  }

  lemma UnlockWork(s: State, s': State, x: nat, p: Ptr)
    requires Unlock(s, s', x, p) && Work(s) && Phases(s) && Locks(s)
    ensures Work(s')
  {
    assert PhaseOf(s.txns[x]);
    MarkIsHeld(s, x, p);
    forall y | y in s'.txns ensures WorkOf(s', y) {
      assert WorkOf(s, y) && PhaseOf(s.txns[y]);
      if y != x {
        UntouchedBeside(s, s', p, y);
        UntouchedWork(s, s', y);
      } else {
        UnlockOwn(s, s', x, p);
      }
    }
  }

  // ----- clearing the latest flag

  /** p is the latest tuple of its key no more, and its key has none. */
  ghost predicate Drops(s: State, s': State, p: Ptr) {
    && p in s.tuples && s.tuples[p].latest && s'.tuples == s.tuples[p := s.tuples[p].(latest := false)]
    && s'.index == s.index - {s.tuples[p].key}
    && s'.m == s.m && s'.tk == s.tk && s'.log == s.log && s'.hist == s.hist && s'.txns.Keys == s.txns.Keys
    && forall x :: x in s.txns ==> s'.txns[x] == s.txns[x].(unlinked := s'.txns[x].unlinked)
  }

  lemma DropIndexed(s: State, s': State, p: Ptr)
    requires Drops(s, s', p) && Indexed(s)
    ensures Indexed(s')
  {
  }

  lemma DropLocks(s: State, s': State, p: Ptr)
    requires Drops(s, s', p) && Locks(s)
    ensures Locks(s')
  {
    forall x | x in s.txns ensures s'.txns[x].held == s.txns[x].held {}
    forall q | q in s.tuples ensures s'.tuples[q].owner == s.tuples[q].owner
      && s'.tuples[q].modifying == s.tuples[q].modifying {}
  }

  lemma DropHoldings(s: State, s': State, p: Ptr)
    requires Drops(s, s', p) && Holdings(s) && Closed(s, s.tuples[p].key)
    ensures Holdings(s')
  {
    forall k ensures H(s', k) == H(s, k) {}
    forall x | x in s.txns
      ensures s'.txns[x].phase == s.txns[x].phase && s'.txns[x].puts == s.txns[x].puts
      ensures s'.txns[x].written == s.txns[x].written
      ensures s'.txns[x].tid == s.txns[x].tid && s'.txns[x].epoch == s.txns[x].epoch
    {
    }
    forall q | q in s'.tuples ensures HoldsOf(s', q) { assert HoldsOf(s, q); }
    forall k | k !in s'.index ensures Closed(s', k) { ClosedFrame(s, s', k); }
  }

  lemma DropUntouched(s: State, s': State, p: Ptr, y: nat)
    requires Drops(s, s', p) && y in s.txns && s'.txns[y] == s.txns[y] && Locks(s) && Indexed(s) && p !in s.txns[y].held
    ensures Untouched(s, s', y)
  {
    forall k ensures H(s', k) == H(s, k) {}
    forall q | q in s.txns[y].held ensures q in s.tuples && q in s'.tuples && SameRecord(s.tuples[q], s'.tuples[q]) {}
  }

  /** Past or before its own writing, a transaction's work does not depend on the tuples. */
  predicate AtWork(t: Txn) { t.phase.Validating? || t.phase == Writing || t.phase.Locking? }

  lemma DropIdle(s: State, s': State, p: Ptr, y: nat)
    requires Drops(s, s', p) && y in s.txns && WorkOf(s, y) && !AtWork(s.txns[y])
    ensures WorkOf(s', y)
  {
    forall k ensures H(s', k) == H(s, k) {}
    assert s'.txns[y] == s.txns[y].(unlinked := s'.txns[y].unlinked);
  }

  lemma DropWork(s: State, s': State, p: Ptr)
    requires Drops(s, s', p) && Work(s) && Phases(s) && Locks(s) && Indexed(s)
    requires forall y :: y in s.txns && AtWork(s.txns[y]) ==> s'.txns[y] == s.txns[y] && p !in s.txns[y].held
    ensures Work(s')
  {
    forall y | y in s'.txns ensures WorkOf(s', y) {
      assert WorkOf(s, y) && PhaseOf(s.txns[y]);
      if AtWork(s.txns[y]) {
        DropUntouched(s, s', p, y);
        UntouchedWork(s, s', y);
      } else {
        DropIdle(s, s', p, y);
      }
    }
  }

  /** The transaction holding a latest tuple at MAX_TID has it among its inserts; nothing else is at stake. */
  lemma DropOwned(s: State, s': State, p: Ptr)
    requires Drops(s, s', p) && Owned(s)
    ensures Owned(s')
  {
    forall q | q in s'.tuples && s'.tuples[q].latest && s'.tuples[q].version == Tid.MAX_TID
      ensures s'.tuples[q].owner.Some? && s'.tuples[q].owner.value in s'.txns
      ensures q in s'.txns[s'.tuples[q].owner.value].inserts
    {
      var y := s.tuples[q].owner.value;
      assert s'.txns[y] == s.txns[y].(unlinked := s'.txns[y].unlinked);
    }
  }

  // ----- unlinking a failed insert

  /** The failed insert is locked, at MAX_TID, and still the latest tuple of its key. */
  lemma UnlinkReady(s: State, s': State, x: nat, p: Ptr)
    requires Unlink(s, s', x, p) && PhaseOf(s.txns[x]) && Locks(s) && InsertOf(s, x, p)
    ensures p in s.txns[x].held && s.tuples[p].owner == Some(x) && s.tuples[p].latest
    ensures s.tuples[p].version == Tid.MAX_TID
  {
    MarkIsHeld(s, x, p);
  }

  lemma UnlinkIsDrop(s: State, s': State, x: nat, p: Ptr)
    requires Unlink(s, s', x, p) && Base(s) && TimeOf(s, x) && s.tuples[p].latest
    ensures FlagStep(s, s', p) && Drops(s, s', p)
  {
    Ticker.OpenGuardBounds(s.tk, s.txns[x].core);
  }

  lemma UnlinkPhases(s: State, s': State, x: nat, p: Ptr)
    requires Unlink(s, s', x, p) && Phases(s)
    ensures Phases(s')
  {
    assert PhaseOf(s.txns[x]);
    assert PhaseOf(s'.txns[x]);
  }

  /** No other transaction has inserted a tuple that is locked, latest and at MAX_TID. */
  lemma OneInserter(s: State, x: nat, p: Ptr, y: nat)
    requires x in s.txns && y in s.txns && y != x && p in s.txns[x].held && Locks(s) && PhaseOf(s.txns[y])
    requires p in s.tuples && s.tuples[p].latest && s.tuples[p].version == Tid.MAX_TID
    requires p in s.txns[y].inserts ==> InsertOf(s, y, p)
    ensures p !in s.txns[y].inserts
  {
    assert p !in s.txns[y].held;
  }

  /** One round of the abort loop over x's inserts. */
  ghost predicate UnlinksOnly(s: State, s': State, x: nat, p: Ptr) {
    && Drops(s, s', p) && x in s.txns && s.txns[x].phase == Aborting && p in s.txns[x].inserts
    && s'.txns == s.txns[x := s.txns[x].(unlinked := s.txns[x].unlinked + {p})]
    && s.tuples[p].owner == Some(x)
  }

  lemma UnlinkInserts(s: State, s': State, x: nat, p: Ptr)
    requires UnlinksOnly(s, s', x, p) && Inserts(s) && p in s.txns[x].held && s.tuples[p].version == Tid.MAX_TID
    requires forall y :: y in s.txns && y != x ==> p !in s.txns[y].inserts
    ensures Inserts(s')
  {
    forall y, q | y in s'.txns && q in s'.txns[y].inserts ensures InsertOf(s', y, q) {
      assert InsertOf(s, y, q);
    }
  }

  lemma UnlinkAside(s: State, s': State, x: nat, p: Ptr)
    requires UnlinksOnly(s, s', x, p) && Locks(s)
    ensures forall y :: y in s.txns && AtWork(s.txns[y]) ==> s'.txns[y] == s.txns[y] && p !in s.txns[y].held
  {
  }

  // ----- freeing a tuple

  /** One tuple is freed; the tree and the transactions stay. */
  ghost predicate Frees(s: State, s': State, p: Ptr) {
    && p in s.tuples && s'.tuples == s.tuples[p := s.tuples[p].(freed := true)] && s'.index == s.index
    && s'.txns == s.txns
    && s'.log == s.log && s'.hist == s.hist
  }

  lemma FreeLocks(s: State, s': State, p: Ptr)
    requires Frees(s, s', p) && Locks(s) && Indexed(s)
    ensures Locks(s') && Indexed(s')
  {
    forall q | q in s.tuples ensures s'.tuples[q].owner == s.tuples[q].owner
      && s'.tuples[q].modifying == s.tuples[q].modifying {}
  }

  lemma FreeTentative(s: State, s': State, p: Ptr)
    requires Frees(s, s', p) && Tentative(s)
    ensures Tentative(s')
  {
    forall y, q | y in s'.txns && q in s'.txns[y].inserts ensures InsertOf(s', y, q) { assert InsertOf(s, y, q); }
  }

  lemma FreeUntouched(s: State, s': State, p: Ptr, y: nat)
    requires Frees(s, s', p) && y in s.txns && Locks(s)
    ensures Untouched(s, s', y)
  {
    forall k ensures H(s', k) == H(s, k) {}
    forall q | q in s.tuples ensures q in s'.tuples && SameRecord(s.tuples[q], s'.tuples[q]) {}
  }

  lemma FreeWork(s: State, s': State, p: Ptr)
    requires Frees(s, s', p) && Work(s) && Phases(s) && Locks(s)
    ensures Work(s')
  {
    forall y | y in s'.txns ensures WorkOf(s', y) {
      assert WorkOf(s, y) && PhaseOf(s.txns[y]);
      FreeUntouched(s, s', p, y);
      UntouchedWork(s, s', y);
    }
  }

  lemma FreeGrown(s: State, s': State, p: Ptr)
    requires Frees(s, s', p) && s'.m == s.m && s'.tk == s.tk && s'.tree == s.tree && s'.born == s.born
    requires s'.shut == s.shut
    requires Grown(s)
    ensures Grown(s')
  {
    forall k ensures H(s', k) == H(s, k) {}
    forall k | k in s'.born ensures Planted(s', k) { assert Planted(s, k); }
    forall k | k in s'.shut ensures k in s'.born && Closed(s', k) { assert Closed(s, k); }
  }

  lemma FreeSweeps(s: State, s': State, p: Ptr)
    requires Frees(s, s', p) && s'.m == s.m && s'.tk == s.tk && s'.tree == s.tree && s'.shut == s.shut
    requires s'.clean == s.clean && s'.gone == s.gone && Sweeps(s)
    ensures Sweeps(s')
  {
    forall c | 0 <= c < |s'.clean| && s'.clean[c] != Resting ensures SweptOf(s', c) {
      assert SweptOf(s, c);
      assert H(s', s.tuples[s.clean[c].ptr].key) == H(s, s.tuples[s.clean[c].ptr].key);
    }
    forall k | k in s'.shut && k in s'.index ensures Swept(s', s'.index[k]) { assert Swept(s, s.index[k]); }
  }

  lemma GcFreeIsFree(s: State, s': State, c: nat)
    requires GcFree(s, s', c)
    ensures FlagStep(s, s', s.queue[c][0].ptr) && Frees(s, s', s.queue[c][0].ptr)
  {
  }

  lemma RcuRunIsFree(s: State, s': State, c: nat)
    requires RcuRun(s, s', c)
    ensures FlagStep(s, s', s.rcu[c][0].ptr) && Frees(s, s', s.rcu[c][0].ptr)
  {
  }
}
