/** Applying writes keeps the invariant: what the steps have in common, and committing an insert. */
module EngineWrite {
  import opened Engine
  import opened EngineInv
  import opened EngineFrame
  import opened EngineRely
  import opened EngineApply
  import Q = EngineQueue
  import T = EngineTree
  import Tid

  /** The transaction side of every write step. */
  ghost predicate WriteFrame(s: State, s': State, x: nat) {
    && x in s.txns && x in s'.txns && s'.txns == s.txns[x := s'.txns[x]]
    && s'.txns[x] == s.txns[x].(written := s'.txns[x].written, applied := s'.txns[x].applied)
    && s.txns[x].applied.Keys <= s'.txns[x].applied.Keys && s.txns[x].written <= s'.txns[x].written
    && s.txns[x].phase == Writing
    && s'.m == s.m && s'.tk == s.tk && s'.log == s.log && s'.lastTid == s.lastTid && s'.gc == s.gc
    && |s'.queue| == |s.queue| && s.tuples.Keys <= s'.tuples.Keys && s'.rm == s.rm && s'.clean == s.clean
    && s'.rcu == s.rcu && s'.born == s.born && s'.shut == s.shut && s'.gone == s.gone
  }

  lemma FrameTxns(s: State, s': State, x: nat)
    requires WriteFrame(s, s', x)
    ensures forall y :: y in s.txns ==> TxnRely(s.txns[y], s'.txns[y])
    ensures forall y :: y in s.txns ==>
      y in s'.txns && (Decided(s.txns[y]) ==> Decided(s'.txns[y])) && s.txns[y].applied.Keys <= s'.txns[y].applied.Keys
  {
  }

  lemma FramePtrs(s: State, s': State, x: nat)
    requires WriteFrame(s, s', x)
    ensures NoNewPtrs(s, s')
    ensures forall y :: y in s.txns ==>
      s'.txns[y].puts == s.txns[y].puts && s'.txns[y].inserts <= s.txns[y].inserts + s'.tuples.Keys
  {
    forall y, p | y in s.txns && y in s'.txns && p in Ptrs(s'.txns[y]) ensures p in Ptrs(s.txns[y]) {
      assert s'.txns[y].puts == s.txns[y].puts && s'.txns[y].inserts == s.txns[y].inserts
          && s'.txns[y].readSet == s.txns[y].readSet && s'.txns[y].cursor == s.txns[y].cursor;
    }
  }

  /** Tuples other than the written one and the fresh one are as before. */
  ghost predicate OnlyAt(s: State, s': State, p: Ptr, q: Ptr) {
    forall r :: r in s.tuples && r != p && r != q ==> r in s'.tuples && s'.tuples[r] == s.tuples[r]
  }

  lemma WriteRely(s: State, s': State, x: nat, p: Ptr, q: Ptr)
    requires WriteFrame(s, s', x) && s.m >= 1 && OnlyAt(s, s', p, q) && q !in s.tuples && p in s.tuples
    requires forall r :: r in s.tuples ==> HoldsOf(s, r)
    requires TupleRely(s, s.tuples[p], s'.tuples[p]) && DraftRely(s, s', p)
    requires forall k :: HistRely(s, s', k)
    requires forall k :: k in s.shut ==> H(s', k) == H(s, k)
    ensures Rely(s, s')
  {
    FrameTxns(s, s', x);
    forall r | r in s.tuples ensures TupleRely(s, s.tuples[r], s'.tuples[r]) { assert HoldsOf(s, r); }
    forall r | r in s.tuples ensures DraftRely(s, s', r) { assert HoldsOf(s, r); }
  }

  /** Histories only grow. */
  ghost predicate Grows(s: State, s': State, k: Key) {
    |H(s, k)| <= |H(s', k)| && H(s', k)[..|H(s, k)|] == H(s, k)
  }

  /** A tuple no write touches still holds what it held, as long as its key's history only grows and it
      is not the latest of a written key. */
  lemma HoldsFrame(s: State, s': State, x: nat, r: Ptr)
    requires WriteFrame(s, s', x) && r in s.tuples && r in s'.tuples && s'.tuples[r] == s.tuples[r]
    requires HoldsOf(s, r) && Grows(s, s', s.tuples[r].key)
    requires s.tuples[r].latest ==> H(s', s.tuples[r].key) == H(s, s.tuples[r].key)
    requires s.tuples[r].latest && s.tuples[r].draft ==> r !in s'.txns[x].written || s.tuples[r].owner != Some(x)
    ensures HoldsOf(s', r)
  {
    var u := s.tuples[r];
    if u.version != Tid.MAX_TID {
      assert H(s', u.key)[u.pos] == H(s', u.key)[..|H(s, u.key)|][u.pos];
    }
  }

  lemma LinkFrame(s: State, s': State, r: Ptr)
    requires s.m >= 1 && s'.m == s.m && r in s.tuples && r in s'.tuples && s'.tuples[r] == s.tuples[r]
    requires LinkOf(s, r) && HoldsOf(s, r) && Grows(s, s', s.tuples[r].key)
    requires s.tuples[r].next.Some? && s.tuples[r].next.value in s.tuples ==>
      && s.tuples[r].next.value in s'.tuples
      && (s.tuples[s.tuples[r].next.value].latest
            || s'.tuples[s.tuples[r].next.value] == s.tuples[s.tuples[r].next.value])
    requires s.tuples[r].next.Some? && s.tuples[r].next.value in s.tuples ==>
      s.tuples[s.tuples[r].next.value].version == Tid.MAX_TID
        || s.tuples[s.tuples[r].next.value].pos < |H(s, s.tuples[r].key)|
    ensures LinkOf(s', r)
  {
    var u := s.tuples[r];
    var h, h' := H(s, u.key), H(s', u.key);
    if u.version != Tid.MAX_TID {
      assert forall j :: 0 <= j < |h| ==> h'[j] == h'[..|h|][j] == h[j];
    }
  }

  lemma WriteUntouched(s: State, s': State, x: nat, p: Ptr, q: Ptr, y: nat)
    requires WriteFrame(s, s', x) && OnlyAt(s, s', p, q) && q !in s.tuples && y in s.txns && y != x
    requires Locks(s) && p in s.tuples && s.tuples[p].owner == Some(x)
    requires s.tuples[p].key in s.index && s.index[s.tuples[p].key] == p
    requires forall k :: k in s.index && k != s.tuples[p].key ==>
      k in s'.index && s'.index[k] == s.index[k] && H(s', k) == H(s, k)
    requires forall k :: Grows(s, s', k)
    ensures Untouched(s, s', y)
  {
    forall r | r in s.txns[y].held ensures r in s.tuples && r in s'.tuples && SameRecord(s.tuples[r], s'.tuples[r]) {
      assert r != p && r != q;
    }
    forall k | k in s.txns[y].applied ensures |H(s, k)| <= |H(s', k)| && H(s', k)[..|H(s, k)|] == H(s, k) {
      assert Grows(s, s', k);
    }
  }

  lemma WriteOthers(s: State, s': State, x: nat, p: Ptr, q: Ptr)
    requires WriteFrame(s, s', x) && OnlyAt(s, s', p, q) && q !in s.tuples
    requires Locks(s) && Phases(s) && Work(s) && p in s.tuples && s.tuples[p].owner == Some(x)
    requires s.tuples[p].key in s.index && s.index[s.tuples[p].key] == p
    requires forall k :: k in s.index && k != s.tuples[p].key ==>
      k in s'.index && s'.index[k] == s.index[k] && H(s', k) == H(s, k)
    requires forall k :: Grows(s, s', k)
    requires WorkOf(s', x)
    ensures Work(s')
  {
    forall y | y in s'.txns ensures WorkOf(s', y) {
      if y != x {
        assert WorkOf(s, y) && PhaseOf(s.txns[y]);
        WriteUntouched(s, s', x, p, q, y);
        UntouchedWork(s, s', y);
      }
    }
  }

  lemma WritePhases(s: State, s': State, x: nat)
    requires WriteFrame(s, s', x) && Phases(s) && s'.txns[x].written <= s.txns[x].puts.Keys
    ensures Phases(s')
  {
    assert PhaseOf(s.txns[x]);
    assert PhaseOf(s'.txns[x]);
  }

  // ----- committing an insert

  lemma InsertFrame(s: State, s': State, x: nat, p: Ptr)
    requires WriteInsert(s, s', x, p) && InsertReady(s, x, p)
    ensures WriteFrame(s, s', x) && Extends(s, s', x, s.tuples[p].key)
    ensures forall q :: q !in s.tuples ==> OnlyAt(s, s', p, q)
    ensures s'.index == s.index && s'.tree == s.tree && s'.queue == s.queue
    ensures s'.txns[x].written == s.txns[x].written
    ensures p in s'.tuples && s'.tuples == s.tuples[p := s'.tuples[p]]
    ensures s'.tuples[p] == s.tuples[p].(version := s.txns[x].tid, pos := 0, draft := p in s.txns[x].puts)
  {
  }

  lemma WriteInsertRely(s: State, s': State, x: nat, p: Ptr, q: Ptr)
    requires WriteInsert(s, s', x, p) && InsertReady(s, x, p) && s.m >= 1 && q !in s.tuples
    requires s.tuples[p].key !in s.shut
    requires forall r :: r in s.tuples ==> HoldsOf(s, r)
    requires s.log[s.txns[x].pos].txn == x && s.txns[x].epoch > s.tk.last && Tid.MIN_TID < s.txns[x].tid < Tid.MAX_TID
    ensures Rely(s, s')
  {
    InsertFrame(s, s', x, p);
    ExtendsRely(s, s', x, s.tuples[p].key);
    ExtendsH(s, s', x, s.tuples[p].key);
    WriteRely(s, s', x, p, q);
  }

  lemma WriteInsertLocks(s: State, s': State, x: nat, p: Ptr)
    requires WriteFrame(s, s', x) && p in s.tuples && p in s'.tuples && s'.tuples == s.tuples[p := s'.tuples[p]]
    requires s'.index == s.index
    requires s'.tuples[p].owner == s.tuples[p].owner && s'.tuples[p].key == s.tuples[p].key
    requires s'.tuples[p].latest == s.tuples[p].latest
    requires s'.tuples[p].modifying == s.tuples[p].modifying || s.tuples[p].owner.Some?
    requires Locks(s) && Indexed(s)
    ensures Locks(s') && Indexed(s')
  {
  }

  lemma WriteInsertTentative(s: State, s': State, x: nat, p: Ptr)
    requires WriteInsert(s, s', x, p) && InsertReady(s, x, p) && Tentative(s) && Locks(s) && Phases(s)
    requires s.txns[x].tid < Tid.MAX_TID
    ensures Tentative(s')
  {
    forall y, q | y in s'.txns && q in s'.txns[y].inserts ensures InsertOf(s', y, q) {
      assert InsertOf(s, y, q) && PhaseOf(s.txns[y]);
      WriteInsertInserts(s, s', x, p, y, q);
    }
  }

  lemma WriteInsertInserts(s: State, s': State, x: nat, p: Ptr, y: nat, q: Ptr)
    requires WriteInsert(s, s', x, p) && InsertReady(s, x, p) && Locks(s) && s.txns[x].tid < Tid.MAX_TID
    requires y in s.txns && q in s.txns[y].inserts && InsertOf(s, y, q) && PhaseOf(s.txns[y])
    ensures InsertOf(s', y, q)
  {
  }

  lemma WriteInsertHistories(s: State, s': State, x: nat, p: Ptr)
    requires WriteInsert(s, s', x, p) && InsertReady(s, x, p) && Histories(s) && Logged(s)
    ensures Histories(s')
  {
    InsertFrame(s, s', x, p);
    FrameTxns(s, s', x);
    ExtendsHistories(s, s', x, s.tuples[p].key);
  }

  lemma WriteInsertHoldings(s: State, s': State, x: nat, p: Ptr)
    requires WriteInsert(s, s', x, p) && InsertReady(s, x, p) && Holdings(s) && Indexed(s)
    requires Tid.MIN_TID < s.txns[x].tid < Tid.MAX_TID
    ensures Holdings(s')
  {
    InsertFrame(s, s', x, p);
    var k := s.tuples[p].key;
    ExtendsH(s, s', x, k);
    forall r | r in s'.tuples ensures HoldsOf(s', r) {
      if r != p {
        assert HoldsOf(s, r);
        HoldsFrame(s, s', x, r);
      }
    }
    forall j | j !in s'.index ensures Closed(s', j) { ClosedFrame(s, s', j); }
  }

  lemma WriteInsertChains(s: State, s': State, x: nat, p: Ptr)
    requires WriteInsert(s, s', x, p) && InsertReady(s, x, p) && Holdings(s) && Chains(s)
    ensures Chains(s')
  {
    InsertFrame(s, s', x, p);
    var k := s.tuples[p].key;
    ExtendsH(s, s', x, k);
    assert HoldsOf(s, p);
    forall r | r in s'.tuples ensures LinkOf(s', r) {
      if r != p {
        assert HoldsOf(s, r) && LinkOf(s, r);
        if s.tuples[r].next.Some? && s.tuples[r].next.value in s.tuples { assert HoldsOf(s, s.tuples[r].next.value); }
        LinkFrame(s, s', r);
      }
    }
  }

  lemma WriteInsertRewrites(s: State, s': State, x: nat, p: Ptr, q: Ptr)
    requires WriteInsert(s, s', x, p) && InsertReady(s, x, p) && q !in s.tuples
    requires var k := s.tuples[p].key; k !in s.shut && k.name in s.tree && s.tree[k.name] == p
    ensures T.Rewrites(s, s', x, p, q)
  {
    InsertFrame(s, s', x, p);
    var k := s.tuples[p].key;
    ExtendsH(s, s', x, k);
    assert s'.tree == s.tree[k.name := p] && s'.index == s.index[k := p];
  }

  lemma WriteInsertGarbage(s: State, s': State, x: nat, p: Ptr, q: Ptr)
    requires WriteInsert(s, s', x, p) && InsertReady(s, x, p) && T.Rewrites(s, s', x, p, q) && Garbage(s) && Queues(s)
    ensures Garbage(s') && Queues(s')
  {
    Q.LatestAbsent(s, p);
    assert GarbageOf(s, p);
    Q.RewriteGarbage(s, s', x, p, q);
    Q.RewriteQueues(s, s', x, p, q);
  }

  /** What is pending on another key stays pending. */
  lemma PendingFrame(s: State, s': State, x: nat, p: Ptr, k: Key)
    requires WriteFrame(s, s', x) && PendingOf(s, x, k) && s.index[k] != p
    requires s'.tuples[s.index[k]] == s.tuples[s.index[k]]
    requires k in s'.index && s'.index[k] == s.index[k] && H(s', k) == H(s, k)
    requires s'.txns[x].written <= s.txns[x].written + {p}
    ensures PendingOf(s', x, k)
  {
  }

  /** Facts about applied writes survive when histories grow. */
  lemma AppliedFrame(s: State, s': State, x: nat, k: Key)
    requires WriteFrame(s, s', x) && WorkOf(s, x) && s.txns[x].serial && k in s.txns[x].applied && Grows(s, s', k)
    ensures k in s.log[s.txns[x].pos].writes
    ensures s.txns[x].applied[k] < |H(s', k)| && H(s', k)[s.txns[x].applied[k]].pos == s.txns[x].pos
  {
    var j := s.txns[x].applied[k];
    assert H(s', k)[..|H(s, k)|][j] == H(s', k)[j];
  }

  /** The three parts of what is left to do, put together. */
  lemma OwnWork(s: State, s': State, x: nat)
    requires WriteFrame(s, s', x) && s.txns[x].serial && s.txns[x].pos < |s.log|
    requires forall k :: k in s.log[s.txns[x].pos].writes && k !in s'.txns[x].applied ==> PendingOf(s', x, k)
    requires forall p :: p in s'.txns[x].puts || p in s'.txns[x].inserts ==> AheadOf(s', x, p)
    requires forall k :: k in s'.txns[x].applied ==> AppliedOf(s', x, k)
    ensures WorkOf(s', x)
  {
    forall k | k in s'.txns[x].applied
      ensures k in s'.log[s'.txns[x].pos].writes && s'.txns[x].applied[k] < |H(s', k)|
           && H(s', k)[s'.txns[x].applied[k]].pos == s'.txns[x].pos
    {
      assert AppliedOf(s', x, k);
    }
  }

  ghost predicate AppliedOf(s: State, x: nat, k: Key)
    requires x in s.txns && s.txns[x].pos < |s.log| && k in s.txns[x].applied
  {
    var t := s.txns[x];
    k in s.log[t.pos].writes && t.applied[k] < |H(s, k)| && H(s, k)[t.applied[k]].pos == t.pos
  }

  /** When x applies its write of k through p, its other keys stay pending and its applied keys applied. */
  lemma OtherKeys(s: State, s': State, x: nat, p: Ptr)
    requires WriteFrame(s, s', x) && WorkOf(s, x) && s.txns[x].serial && p in s.tuples
    requires Extends(s, s', x, s.tuples[p].key)
    requires s.tuples[p].key in s.index && s.index[s.tuples[p].key] == p
    requires s'.txns[x].written <= s.txns[x].written + {p}
    requires forall r :: r in s.tuples && r != p ==> r in s'.tuples && s'.tuples[r] == s.tuples[r]
    requires forall k :: k in s.index && k != s.tuples[p].key ==> k in s'.index && s'.index[k] == s.index[k]
    requires forall k :: k in s.index ==> s.index[k] in s.tuples && s.tuples[s.index[k]].key == k
    ensures forall k :: k in s.log[s.txns[x].pos].writes && k !in s'.txns[x].applied ==> PendingOf(s', x, k)
    ensures forall k :: k in s'.txns[x].applied ==> AppliedOf(s', x, k)
  {
    var t, t', k := s.txns[x], s'.txns[x], s.tuples[p].key;
    ExtendsH(s, s', x, k);
    forall j | j in s.log[t.pos].writes && j !in t'.applied ensures PendingOf(s', x, j) {
      assert PendingOf(s, x, j);
      PendingFrame(s, s', x, p, j);
    }
    forall j | j in t'.applied ensures AppliedOf(s', x, j) {
      if j != k { AppliedFrame(s, s', x, j); }
    }
  }

  /** Another write tuple of x is not affected: its key differs, both being latest. */
  lemma AheadFrame(s: State, s': State, x: nat, p: Ptr, r: Ptr)
    requires WriteFrame(s, s', x) && s.txns[x].pos < |s.log| && r != p && AheadOf(s, x, r) && p in s.tuples
    requires s.tuples[p].latest
    requires r in s.tuples && r in s'.tuples && s'.tuples[r] == s.tuples[r]
    requires s'.txns[x].written <= s.txns[x].written + {p}
    requires s'.txns[x].applied.Keys <= s.txns[x].applied.Keys + {s.tuples[p].key}
    requires s.tuples[r].latest ==> s.tuples[r].key != s.tuples[p].key
    requires s.tuples[r].version == Tid.MAX_TID && r in s.txns[x].inserts ==> s.tuples[r].latest
    ensures AheadOf(s', x, r)
  {
  }

  lemma WriteInsertOwn(s: State, s': State, x: nat, p: Ptr)
    requires WriteInsert(s, s', x, p) && InsertReady(s, x, p) && WorkOf(s, x) && Indexed(s) && PtrsOf(s, s.txns[x])
    requires forall q :: q in s.txns[x].inserts ==> InsertOf(s, x, q)
    requires s.txns[x].tid < Tid.MAX_TID
    ensures WorkOf(s', x)
  {
    InsertFrame(s, s', x, p);
    OtherKeys(s, s', x, p);
    var t := s.txns[x];
    forall r | r in t.puts || r in t.inserts ensures AheadOf(s', x, r) {
      assert AheadOf(s, x, r);
      if r != p {
        if r in t.inserts { assert InsertOf(s, x, r); }
        AheadFrame(s, s', x, p, r);
      }
    }
    OwnWork(s, s', x);
  }
}
