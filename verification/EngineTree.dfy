/** The tree and the cleaners: which key of a name is in the tree, and what the markers being taken out of it are. */
module EngineTree {
  import opened Engine
  import opened EngineInv
  import opened EngineFrame
  import Tid
  import Ticker

  // ----- steps that leave the tree and the cleaners alone

  predicate SameButLock(u: Tuple, u': Tuple) {
    u' == u.(owner := u'.owner, modifying := u'.modifying)
  }

  /** Only locks and clocks move, and no lock a cleaner has. */
  ghost predicate Still(s: State, s': State) {
    && s'.m == s.m && s'.tree == s.tree && s'.index == s.index && s'.born == s.born && s'.shut == s.shut
    && s'.clean == s.clean && s'.gone == s.gone && s'.hist == s.hist && s.tk.last <= s'.tk.last
    && s'.tuples.Keys == s.tuples.Keys
    && (forall p :: p in s.tuples ==> SameButLock(s.tuples[p], s'.tuples[p]))
    && (forall p :: p in s.tuples && Swept(s, p) ==> s'.tuples[p] == s.tuples[p])
    && (forall c :: 0 <= c < |s.clean| && s.clean[c].Removed? && Ticker.Open(s.tk, c) ==> Ticker.Open(s'.tk, c))
  }

  lemma StillGrown(s: State, s': State)
    requires Still(s, s') && Grown(s)
    ensures Grown(s')
  {
    forall k ensures H(s', k) == H(s, k) {}
    forall n | n in s'.tree ensures s'.tree[n] in s'.tuples && s'.tuples[s'.tree[n]].latest
                                    && s'.tuples[s'.tree[n]].key == s.tuples[s.tree[n]].key {
      assert SameButLock(s.tuples[s.tree[n]], s'.tuples[s.tree[n]]);
    }
    forall p | p in s'.tuples ensures s'.tuples[p].key in s'.born { assert SameButLock(s.tuples[p], s'.tuples[p]); }
    forall k | k in s'.born ensures Planted(s', k) { assert Planted(s, k); }
    forall k | k in s'.shut ensures k in s'.born && Closed(s', k) { ClosedFrame(s, s', k); }
  }

  lemma StillSweep(s: State, s': State, c: nat)
    requires Still(s, s') && s.m >= 1 && c < |s.clean| && s.clean[c] != Resting && SweptOf(s, c)
    ensures SweptOf(s', c)
  {
    var p := s.clean[c].ptr;
    assert Swept(s, p);
    assert H(s', s.tuples[p].key) == H(s, s.tuples[p].key);
    Tid.ReadOnlyTickMonotone(s.tk.last, s'.tk.last, s.m);
  }

  lemma StillSweeps(s: State, s': State)
    requires Still(s, s') && Sweeps(s)
    ensures Sweeps(s')
  {
    forall c | 0 <= c < |s'.clean| && s'.clean[c] != Resting ensures SweptOf(s', c) {
      assert SweptOf(s, c);
      StillSweep(s, s', c);
    }
    forall k | k in s'.shut && k in s'.index ensures Swept(s', s'.index[k]) { assert Swept(s, s.index[k]); }
  }

  lemma SameAges(s: State, s': State)
    requires s'.log == s.log && s'.hist == s.hist && s.born <= s'.born && Ages(s)
    ensures Ages(s')
  {
    forall k ensures H(s', k) == H(s, k) {}
    forall j, k, k0: Key | 0 <= j < |s'.log| && k in s'.log[j].writes && k0.name == k.name && k0.gen < k.gen
      ensures EndsBefore(s', k0, j)
    {
      assert EndsBefore(s, k0, j);
    }
  }

  // ----- a tuple that is latest and locked by a transaction is in the tree

  lemma OwnedInTree(s: State, p: Ptr)
    requires Indexed(s) && Grown(s) && Sweeps(s)
    requires p in s.tuples && s.tuples[p].latest && s.tuples[p].owner.Some?
    ensures var k := s.tuples[p].key; k !in s.shut && k.name in s.tree && s.tree[k.name] == p
  {
    var k := s.tuples[p].key;
    assert Planted(s, k);
  }

  // ----- entering the log

  /** Both of two keys in the tree with one name are the same. */
  lemma TreeKeysDiffer(s: State, p: Ptr, q: Ptr)
    requires Indexed(s) && Grown(s) && Sweeps(s) && p in s.tuples && q in s.tuples
    requires s.tuples[p].latest && s.tuples[p].owner.Some? && s.tuples[q].latest && s.tuples[q].owner.Some?
    requires s.tuples[p].key.name == s.tuples[q].key.name
    ensures s.tuples[p].key == s.tuples[q].key
  {
    OwnedInTree(s, p);
    OwnedInTree(s, q);
  }

  lemma LogAges(s: State, s': State, e: Entry)
    requires s'.log == s.log + [e] && s'.hist == s.hist && s'.born == s.born && Ages(s) && Histories(s)
    requires forall k :: k in e.writes ==> k in s.born
    requires forall k, k' :: k in e.writes && k' in e.writes && k.name == k'.name ==> k == k'
    ensures Ages(s')
  {
    forall k ensures H(s', k) == H(s, k) {}
    forall j, k, k0: Key | 0 <= j < |s'.log| && k in s'.log[j].writes && k0.name == k.name && k0.gen < k.gen
      ensures EndsBefore(s', k0, j)
    {
      if j < |s.log| {
        assert k in s.log[j].writes;
        assert EndsBefore(s, k0, j);
      } else {
        forall i | 0 <= i < |H(s', k0)| ensures H(s', k0)[i].pos < j { assert VerOf(s, k0, H(s, k0)[i]); }
      }
    }
  }

  /** The keys of a log entry are of tuples the transaction has locked. */
  lemma WritesAreHeld(s: State, x: nat, k: Key)
    requires Indexed(s) && Locks(s) && x in s.txns && k in Writes(s, s.txns[x])
    requires s.txns[x].puts.Keys + s.txns[x].inserts <= s.txns[x].held
    ensures k in s.index && s.index[k] in s.tuples && s.tuples[s.index[k]].key == k && s.tuples[s.index[k]].latest
    ensures s.tuples[s.index[k]].owner.Some?
  {
    assert s.index[k] in s.txns[x].held;
  }

  lemma SerializeAges(s: State, s': State, x: nat, e: Entry)
    requires s'.log == s.log + [e] && s'.hist == s.hist && s'.born == s.born && Ages(s) && Histories(s)
    requires Indexed(s) && Grown(s) && Sweeps(s) && Locks(s) && x in s.txns
    requires s.txns[x].puts.Keys + s.txns[x].inserts <= s.txns[x].held && e.writes == Writes(s, s.txns[x])
    ensures Ages(s')
  {
    forall k | k in e.writes ensures k in s.born { WritesAreHeld(s, x, k); }
    forall k, k' | k in e.writes && k' in e.writes && k.name == k'.name ensures k == k' {
      WritesAreHeld(s, x, k);
      WritesAreHeld(s, x, k');
      TreeKeysDiffer(s, s.index[k], s.index[k']);
    }
    LogAges(s, s', e);
  }

  // ----- inserting a tuple

  lemma InsertRooted(s: State, s': State, x: nat, k: Key, v: Value, p: Ptr, room: nat)
    requires Insert(s, s', x, k, v, p, room) && Rooted(s) && k !in s.shut
    ensures Rooted(s')
  {
  }

  lemma InsertFallen(s: State, s': State, x: nat, k: Key, v: Value, p: Ptr, room: nat)
    requires Insert(s, s', x, k, v, p, room) && s.m >= 1 && Fallen(s)
    requires forall j :: j in s.born && j.name == k.name ==> j in s.shut
    ensures Fallen(s')
  {
    forall j ensures H(s', j) == H(s, j) {}
    forall j | j in s'.shut ensures j in s'.born && Closed(s', j) { assert Closed(s, j); }
  }

  lemma InsertPlanted(s: State, s': State, x: nat, k: Key, v: Value, p: Ptr, room: nat, j: Key)
    requires Insert(s, s', x, k, v, p, room) && (j == k || Planted(s, j)) && Rooted(s)
    ensures Planted(s', j)
  {
  }

  lemma InsertGrown(s: State, s': State, x: nat, k: Key, v: Value, p: Ptr, room: nat)
    requires Insert(s, s', x, k, v, p, room) && Grown(s)
    ensures Grown(s') && k !in s.born && k !in s.shut
  {
    assert k !in s.born;
    forall j | j in s.born && j.name == k.name ensures j in s.shut { assert Planted(s, j); }
    InsertRooted(s, s', x, k, v, p, room);
    InsertFallen(s, s', x, k, v, p, room);
    forall j | j in s'.born ensures Planted(s', j) {
      if j != k { assert Planted(s, j); }
      InsertPlanted(s, s', x, k, v, p, room, j);
    }
  }

  lemma InsertSweeps(s: State, s': State, x: nat, k: Key, v: Value, p: Ptr, room: nat)
    requires Insert(s, s', x, k, v, p, room) && Sweeps(s) && k !in s.shut
    ensures Sweeps(s')
  {
    forall c | 0 <= c < |s'.clean| && s'.clean[c] != Resting ensures SweptOf(s', c) {
      assert SweptOf(s, c);
      var q := s.clean[c].ptr;
      assert H(s', s.tuples[q].key) == H(s, s.tuples[q].key);
    }
    forall j | j in s'.shut && j in s'.index ensures Swept(s', s'.index[j]) { assert Swept(s, s.index[j]); }
  }

  // ----- unlinking a failed insert

  /** p's key leaves the tree. */
  ghost predicate Leaves(s: State, s': State, p: Ptr, k: Key) {
    && p in s.tuples && k == s.tuples[p].key && k.name in s.tree && s.tree[k.name] == p
    && s'.tree == s.tree - {k.name} && s'.shut == s.shut + {k}
    && s'.m == s.m && s'.tk == s.tk && s'.born == s.born && s'.hist == s.hist && s'.tuples.Keys == s.tuples.Keys
    && (forall q :: q in s.tuples && q != p ==> s'.tuples[q] == s.tuples[q])
    && s'.tuples[p] == s.tuples[p].(latest := s'.tuples[p].latest)
  }

  lemma LeavesFallen(s: State, s': State, p: Ptr, k: Key)
    requires Leaves(s, s', p, k) && s.m >= 1 && Fallen(s) && Closed(s, k) && k in s.born
    ensures Fallen(s')
  {
    forall j | j in s'.shut ensures j in s'.born && Closed(s', j) {
      assert Closed(s, j);
      assert H(s', j) == H(s, j);
    }
  }

  lemma LeavesRooted(s: State, s': State, p: Ptr, k: Key)
    requires Leaves(s, s', p, k) && Rooted(s)
    ensures Rooted(s')
  {
    forall n | n in s'.tree
      ensures s'.tree[n] in s'.tuples && s'.tuples[s'.tree[n]] == s.tuples[s.tree[n]] && s.tuples[s.tree[n]].key != k
    {
      assert s.tuples[s.tree[n]].key.name == n;
    }
    forall q | q in s'.tuples ensures s'.tuples[q].key in s'.born { assert s'.tuples[q].key == s.tuples[q].key; }
  }

  lemma LeavesPlanted(s: State, s': State, p: Ptr, k: Key, j: Key)
    requires Leaves(s, s', p, k) && Planted(s, j)
    ensures Planted(s', j)
  {
  }

  lemma LeavesGrown(s: State, s': State, p: Ptr, k: Key)
    requires Leaves(s, s', p, k) && Grown(s) && Closed(s, k)
    ensures Grown(s')
  {
    LeavesFallen(s, s', p, k);
    LeavesRooted(s, s', p, k);
    forall j | j in s'.born ensures Planted(s', j) {
      assert Planted(s, j);
      LeavesPlanted(s, s', p, k, j);
    }
  }

  lemma UnlinkSweeps(s: State, s': State, x: nat, p: Ptr)
    requires Unlink(s, s', x, p) && Sweeps(s) && s.tuples[p].owner.Some?
    requires s.tuples[p].key.name in s.tree && s.tree[s.tuples[p].key.name] == p
    ensures Sweeps(s')
  {
    forall c | 0 <= c < |s'.clean| && s'.clean[c] != Resting ensures SweptOf(s', c) {
      assert SweptOf(s, c);
      var q := s.clean[c].ptr;
      assert H(s', s.tuples[q].key) == H(s, s.tuples[q].key);
    }
    forall j | j in s'.shut && j in s'.index ensures Swept(s', s'.index[j]) { assert Swept(s, s.index[j]); }
  }

  // ----- applying a write

  /** A write of x to the tuple p of the tree: the tuple stays there or gives its place to the fresh tuple q, and the
      key's history stays or gains x's write. */
  ghost predicate Rewrites(s: State, s': State, x: nat, p: Ptr, q: Ptr) {
    && s'.m == s.m && s'.tk == s.tk && s'.log == s.log && s'.born == s.born && s'.shut == s.shut
    && s'.clean == s.clean && s'.gone == s.gone && x in s.txns && s.txns[x].pos < |s.log|
    && p in s.tuples && q !in s.tuples && s.tuples[p].owner.Some? && s.tuples[p].latest
    && (forall r :: r in s.tuples && r != p ==> r in s'.tuples && s'.tuples[r] == s.tuples[r])
    && p in s'.tuples && s'.tuples.Keys <= s.tuples.Keys + {q}
    && var k := s.tuples[p].key;
       && k !in s.shut && k.name in s.tree && s.tree[k.name] == p && k in s.log[s.txns[x].pos].writes
       && s'.tuples[p].key == k && (q in s'.tuples ==> s'.tuples[q].key == k)
       && (exists h :: (h == p || h == q) && h in s'.tuples && s'.tuples[h].latest
             && s'.tree == s.tree[k.name := h] && s'.index == s.index[k := h])
       && (forall j :: j != k ==> H(s', j) == H(s, j))
       && (H(s', k) == H(s, k) || (exists v: Ver :: v.pos == s.txns[x].pos && H(s', k) == H(s, k) + [v]))
  }

  lemma RewriteRooted(s: State, s': State, x: nat, p: Ptr, q: Ptr)
    requires Rewrites(s, s', x, p, q) && Rooted(s)
    ensures Rooted(s')
  {
    forall r | r in s'.tuples ensures s'.tuples[r].key in s'.born { assert s.tuples[p].key in s.born; }
  }

  lemma RewriteFallen(s: State, s': State, x: nat, p: Ptr, q: Ptr)
    requires Rewrites(s, s', x, p, q) && s.m >= 1 && Fallen(s)
    ensures Fallen(s')
  {
    forall j | j in s'.shut ensures j in s'.born && Closed(s', j) {
      assert Closed(s, j) && j != s.tuples[p].key;
      ClosedFrame(s, s', j);
    }
  }

  lemma RewriteGrown(s: State, s': State, x: nat, p: Ptr, q: Ptr)
    requires Rewrites(s, s', x, p, q) && Grown(s)
    ensures Grown(s')
  {
    RewriteRooted(s, s', x, p, q);
    RewriteFallen(s, s', x, p, q);
    forall j | j in s'.born ensures Planted(s', j) { assert Planted(s, j); }
  }

  lemma RewriteSweeps(s: State, s': State, x: nat, p: Ptr, q: Ptr)
    requires Rewrites(s, s', x, p, q) && Sweeps(s)
    ensures Sweeps(s')
  {
    forall c | 0 <= c < |s'.clean| && s'.clean[c] != Resting ensures SweptOf(s', c) {
      assert SweptOf(s, c);
      assert s.clean[c].ptr != p;
    }
    forall j | j in s'.shut && j in s'.index ensures Swept(s', s'.index[j]) { assert Swept(s, s.index[j]); }
  }

  /** A key that is still in the tree has no later one, so its history may grow. */
  lemma GrowAges(s: State, s': State, k: Key)
    requires Ages(s) && s.m >= 1 && Fallen(s) && s'.log == s.log && s'.born == s.born && k in s.born && k !in s.shut
    requires forall j :: j != k ==> H(s', j) == H(s, j)
    ensures Ages(s')
  {
    forall j, k', k0: Key | 0 <= j < |s'.log| && k' in s'.log[j].writes && k0.name == k'.name && k0.gen < k'.gen
      ensures EndsBefore(s', k0, j)
    {
      assert EndsBefore(s, k0, j);
      assert k' in s.born;
      assert k0 != k;
    }
  }

  lemma RewriteAges(s: State, s': State, x: nat, p: Ptr, q: Ptr)
    requires Rewrites(s, s', x, p, q) && Ages(s) && Grown(s)
    ensures Ages(s')
  {
    GrowAges(s, s', s.tuples[p].key);
  }
}
