/** The cleaner of a core takes deletion markers out of the tree: silo/txn_proto2_impl.cc, clean_up_to_including. */
module EngineClean {
  import opened Engine
  import opened EngineInv
  import opened EngineFrame
  import F = EngineFlags
  import I = EngineInsert
  import Q = EngineQueue
  import T = EngineTree
  import Tid
  import Ticker

  // ----- what no step of a cleaner but the last touches

  /** The records, the locks, the transactions and the log stay. */
  ghost predicate Aside(s: State, s': State) {
    && s'.m == s.m && s'.tk == s.tk && s'.tuples == s.tuples && s'.index == s.index && s'.txns == s.txns
    && s'.log == s.log && s'.hist == s.hist && s'.born == s.born && s'.gone == s.gone && s'.rcu == s.rcu
  }

  lemma AsideLocks(s: State, s': State)
    requires Aside(s, s') && Indexed(s) && Locks(s) && Phases(s)
    ensures Indexed(s') && Locks(s') && Phases(s')
  {
  }

  lemma AsideTentative(s: State, s': State)
    requires Aside(s, s') && Tentative(s)
    ensures Tentative(s')
  {
    forall y, q | y in s'.txns && q in s'.txns[y].inserts ensures InsertOf(s', y, q) { assert InsertOf(s, y, q); }
  }

  lemma AsideHoldings(s: State, s': State)
    requires Aside(s, s') && Holdings(s)
    ensures Holdings(s')
  {
    forall k ensures H(s', k) == H(s, k) {}
    forall q | q in s'.tuples ensures HoldsOf(s', q) { assert HoldsOf(s, q); }
    forall k | k !in s'.index ensures Closed(s', k) { ClosedFrame(s, s', k); }
  }

  lemma AsideWork(s: State, s': State)
    requires Aside(s, s') && Work(s) && Phases(s) && Locks(s)
    ensures Work(s')
  {
    forall y | y in s'.txns ensures WorkOf(s', y) {
      assert WorkOf(s, y) && PhaseOf(s.txns[y]);
      I.SameUntouched(s, s', y);
      UntouchedWork(s, s', y);
    }
  }

  lemma AsideGarbage(s: State, s': State)
    requires Aside(s, s') && s'.queue == s.queue && Garbage(s)
    ensures Garbage(s')
  {
    forall k ensures H(s', k) == H(s, k) {}
    forall p | p in s'.tuples ensures GarbageOf(s', p) { assert GarbageOf(s, p); }
    forall c, i | 0 <= c < |s'.queue| && 0 <= i < |s'.queue[c]| ensures ItemOf(s', s'.queue[c][i]) {
      assert ItemOf(s, s.queue[c][i]);
    }
  }

  // ----- queueing a replaced marker again

  lemma RequeueAside(s: State, s': State, c: nat)
    requires CleanRequeue(s, s', c)
    ensures Aside(s, s') && F.FlagStep(s, s', s.queue[c][0].ptr) && T.Still(s, s')
  {
  }

  /** Whatever replaced the marker did so by now. */
  lemma RequeuedItem(s: State, p: Ptr, it: Item)
    requires Garbage(s) && p in s.tuples && !s.tuples[p].latest && p !in s.gone
    requires it == Item(p, Ro(s, s.tk.current), false)
    ensures ItemOf(s, it)
  {
    assert GarbageOf(s, p);
    Tid.ReadOnlyTickMonotone(s.tuples[p].sup.value, s.tk.current, s.m);
  }

  lemma RequeueGarbage(s: State, s': State, c: nat)
    requires CleanRequeue(s, s', c) && Garbage(s) && Queues(s)
    ensures Garbage(s') && Queues(s')
  {
    var p := s.queue[c][0].ptr;
    var r := Q.Popped(s, c);
    Q.PopGarbage(s, c);
    Q.PopQueues(s, c);
    Q.PopAbsent(s, c);
    var it := Item(p, Ro(s, s.tk.current), false);
    RequeuedItem(r, p, it);
    Q.PushGarbage(r, c, it);
    Q.PushQueues(r, c, it);
    assert s' == Q.Pushed(r, c, it);
  }

  // ----- locking a marker

  lemma LockAside(s: State, s': State, c: nat)
    requires CleanLock(s, s', c)
    ensures Aside(s, s') && F.FlagStep(s, s', s.queue[c][0].ptr)
  {
  }

  /** The marker is in the tree, since its key would otherwise be another cleaner's. */
  lemma MarkerInTree(s: State, p: Ptr)
    requires Indexed(s) && Grown(s) && Sweeps(s) && p in s.tuples && s.tuples[p].latest && !Swept(s, p)
    ensures var k := s.tuples[p].key; k !in s.shut && k.name in s.tree && s.tree[k.name] == p
  {
    assert Planted(s, s.tuples[p].key);
  }

  lemma LockGrown(s: State, s': State, c: nat)
    requires CleanLock(s, s', c) && Grown(s)
    ensures Grown(s')
  {
    forall k ensures H(s', k) == H(s, k) {}
    forall k | k in s'.born ensures Planted(s', k) { assert Planted(s, k); }
    forall k | k in s'.shut ensures k in s'.born && Closed(s', k) { assert Closed(s, k); }
  }

  lemma LockSwept(s: State, s': State, c: nat)
    requires CleanLock(s, s', c) && Indexed(s) && Grown(s) && Sweeps(s) && Garbage(s) && Base(s)
    ensures SweptOf(s', c)
  {
    var p := s.queue[c][0].ptr;
    MarkerInTree(s, p);
    assert ItemOf(s, s.queue[c][0]);
    assert H(s', s.tuples[p].key) == H(s, s.tuples[p].key);
  }

  lemma SameSweep(s: State, s': State, d: nat)
    requires Aside(s, s') && s'.tree == s.tree && s'.shut == s.shut && s.m >= 1
    requires d < |s.clean| && d < |s'.clean| && s'.clean[d] == s.clean[d] != Resting && SweptOf(s, d)
    ensures SweptOf(s', d)
  {
    assert H(s', s.tuples[s.clean[d].ptr].key) == H(s, s.tuples[s.clean[d].ptr].key);
  }

  lemma LockSweeps(s: State, s': State, c: nat)
    requires CleanLock(s, s', c) && Sweeps(s) && SweptOf(s', c)
    ensures Sweeps(s')
  {
    LockAside(s, s', c);
    forall d | 0 <= d < |s'.clean| && s'.clean[d] != Resting ensures SweptOf(s', d) {
      if d != c {
        assert SweptOf(s, d);
        SameSweep(s, s', d);
      }
    }
    forall d, e | 0 <= d < e < |s'.clean| && s'.clean[d] != Resting && s'.clean[e] != Resting
      ensures s'.clean[d].ptr != s'.clean[e].ptr
    {
      if d == c {
        assert s.clean[e] == s'.clean[e];
      } else if e == c {
        assert s.clean[d] == s'.clean[d];
      }
    }
    forall k | k in s'.shut && k in s'.index ensures Swept(s', s'.index[k]) {
      var d :| 0 <= d < |s.clean| && s.clean[d] != Resting && s.clean[d].ptr == s.index[k];
      assert s'.clean[d] == s.clean[d];
    }
  }

  lemma LockGarbage(s: State, s': State, c: nat)
    requires CleanLock(s, s', c) && Garbage(s) && Queues(s)
    ensures Garbage(s') && Queues(s')
  {
    var p := s.queue[c][0].ptr;
    var r := Q.Popped(s, c);
    Q.PopGarbage(s, c);
    Q.PopQueues(s, c);
    Q.PopAbsent(s, c);
    AsideGarbage(r, s');
    LockQueues(r, s', c, p);
  }

  lemma LockQueues(r: State, s': State, c: nat, p: Ptr)
    requires Queues(r) && Q.Absent(r, p) && Unfreed(r, p) && c < |r.clean| && s' == r.(clean := r.clean[c := Locked(p)])
    ensures Queues(s')
  {
    forall q | Swept(s', q) && q != p ensures Swept(r, q) {
      var d :| 0 <= d < |s'.clean| && s'.clean[d] != Resting && s'.clean[d].ptr == q;
      assert r.clean[d] == s'.clean[d];
    }
    forall d, i | 0 <= d < |s'.queue| && 0 <= i < |s'.queue[d]| ensures QueuedOf(s', s'.queue[d][i].ptr, d, i) {
      assert QueuedOf(r, r.queue[d][i].ptr, d, i);
    }
    forall d, i | 0 <= d < |s'.rcu| && 0 <= i < |s'.rcu[d]| ensures HandedOf(s', s'.rcu[d][i].ptr, d, i) {
      assert HandedOf(r, r.rcu[d][i].ptr, d, i);
    }
  }

  // ----- taking the key out of the tree

  /** Nothing is left to see of a marker's key. */
  lemma SweptClosed(s: State, c: nat)
    requires Holdings(s) && c < |s.clean| && s.clean[c] != Resting && SweptOf(s, c)
    ensures Closed(s, s.tuples[s.clean[c].ptr].key)
  {
    assert HoldsOf(s, s.clean[c].ptr);
  }

  lemma RemoveAside(s: State, s': State, c: nat)
    requires CleanRemove(s, s', c)
    ensures Aside(s, s') && F.FlagStep(s, s', s.clean[c].ptr) && s'.queue == s.queue
  {
  }

  lemma RemoveGrown(s: State, s': State, c: nat)
    requires CleanRemove(s, s', c) && Grown(s) && Holdings(s) && SweptOf(s, c)
    ensures Grown(s')
  {
    SweptClosed(s, c);
    var p := s.clean[c].ptr;
    T.LeavesGrown(s, s', p, s.tuples[p].key);
  }

  lemma RemoveSweep(s: State, s': State, c: nat, d: nat)
    requires CleanRemove(s, s', c) && s.m >= 1 && d < |s.clean| && s.clean[d] != Resting && SweptOf(s, d)
    requires SweptOf(s, c)
    requires d != c ==> s.clean[d].ptr != s.clean[c].ptr
    ensures SweptOf(s', d)
  {
    var q := s.clean[d].ptr;
    assert H(s', s.tuples[q].key) == H(s, s.tuples[q].key);
  }

  lemma RemoveSweeps(s: State, s': State, c: nat)
    requires CleanRemove(s, s', c) && Sweeps(s) && Indexed(s)
    ensures Sweeps(s')
  {
    assert SweptOf(s, c);
    forall d | 0 <= d < |s'.clean| ensures s'.clean[d] == Resting <==> s.clean[d] == Resting {}
    forall d | 0 <= d < |s'.clean| && s'.clean[d] != Resting
      ensures SweptOf(s', d) && s'.clean[d].ptr == s.clean[d].ptr
    {
      assert SweptOf(s, d);
      RemoveSweep(s, s', c, d);
    }
    forall k | k in s'.shut && k in s'.index ensures Swept(s', s'.index[k]) {
      if k in s.shut {
        var d :| 0 <= d < |s.clean| && s.clean[d] != Resting && s.clean[d].ptr == s.index[k];
        assert s'.clean[d].ptr == s.index[k];
      } else {
        assert s'.clean[c].ptr == s.index[k];
      }
    }
  }

  lemma RemoveQueues(s: State, s': State, c: nat)
    requires CleanRemove(s, s', c) && Queues(s)
    ensures Queues(s')
  {
    forall d | 0 <= d < |s'.clean| ensures s'.clean[d] == Resting <==> s.clean[d] == Resting {}
    forall d | 0 <= d < |s'.clean| && s'.clean[d] != Resting ensures s'.clean[d].ptr == s.clean[d].ptr {}
    forall q | Swept(s', q) ensures Swept(s, q) {
      var d :| 0 <= d < |s'.clean| && s'.clean[d] != Resting && s'.clean[d].ptr == q;
      assert s.clean[d].ptr == q;
    }
    forall d, i | 0 <= d < |s'.queue| && 0 <= i < |s'.queue[d]| ensures QueuedOf(s', s'.queue[d][i].ptr, d, i) {
      assert QueuedOf(s, s.queue[d][i].ptr, d, i);
    }
    forall d, i | 0 <= d < |s'.rcu| && 0 <= i < |s'.rcu[d]| ensures HandedOf(s', s'.rcu[d][i].ptr, d, i) {
      assert HandedOf(s, s.rcu[d][i].ptr, d, i);
    }
    forall d | 0 <= d < |s'.clean| && s'.clean[d] != Resting ensures Unfreed(s', s'.clean[d].ptr) {
      assert Unfreed(s, s.clean[d].ptr);
    }
  }

  // ----- clearing the latest flag

  lemma ClearIsDrop(s: State, s': State, c: nat)
    requires CleanClear(s, s', c) && Base(s) && SweptOf(s, c)
    ensures F.FlagStep(s, s', s.clean[c].ptr) && F.Drops(s, s', s.clean[c].ptr) && s'.txns == s.txns
    ensures Q.Hands(s, s', c, s.clean[c].ptr)
  {
    Ticker.OpenGuardBounds(s.tk, c);
  }

  lemma ClearTentative(s: State, s': State, p: Ptr)
    requires F.Drops(s, s', p) && s'.txns == s.txns && Tentative(s) && Locks(s) && Phases(s)
    requires s.tuples[p].owner == None && s.tuples[p].version != Tid.MAX_TID
    ensures Tentative(s')
  {
    F.DropOwned(s, s', p);
    forall y, q | y in s'.txns && q in s'.txns[y].inserts ensures InsertOf(s', y, q) {
      assert InsertOf(s, y, q) && PhaseOf(s.txns[y]);
      if q == p { assert p !in s.txns[y].held; }
    }
  }

  lemma ClearAside(s: State, p: Ptr)
    requires Locks(s) && p in s.tuples && s.tuples[p].owner == None
    ensures forall y :: y in s.txns ==> p !in s.txns[y].held
  {
  }

  lemma ClearGrown(s: State, s': State, c: nat)
    requires CleanClear(s, s', c) && Grown(s) && SweptOf(s, c)
    ensures Grown(s')
  {
    var p := s.clean[c].ptr;
    forall k ensures H(s', k) == H(s, k) {}
    forall n | n in s'.tree ensures s.tree[n] != p {}
    forall k | k in s'.born ensures Planted(s', k) { assert Planted(s, k); }
    forall k | k in s'.shut ensures k in s'.born && Closed(s', k) { assert Closed(s, k); }
  }

  lemma ClearSweeps(s: State, s': State, c: nat)
    requires CleanClear(s, s', c) && Sweeps(s) && Indexed(s)
    ensures Sweeps(s')
  {
    var p := s.clean[c].ptr;
    assert SweptOf(s, c);
    forall d | 0 <= d < |s'.clean| && s'.clean[d] != Resting ensures SweptOf(s', d) {
      assert SweptOf(s, d) && s.clean[d].ptr != p;
      assert H(s', s.tuples[s.clean[d].ptr].key) == H(s, s.tuples[s.clean[d].ptr].key);
    }
    forall k | k in s'.shut && k in s'.index ensures Swept(s', s'.index[k]) {
      var d :| 0 <= d < |s.clean| && s.clean[d] != Resting && s.clean[d].ptr == s.index[k];
      assert s'.clean[d] == s.clean[d];
    }
  }

  lemma ClearAbsent(s: State, c: nat)
    requires Queues(s) && c < |s.clean| && s.clean[c] != Resting
    ensures Q.Absent(s, s.clean[c].ptr)
  {
    forall d, i | 0 <= d < |s.queue| && 0 <= i < |s.queue[d]| ensures s.queue[d][i].ptr != s.clean[c].ptr {
      assert QueuedOf(s, s.queue[d][i].ptr, d, i);
    }
  }
}
