/** The three ways a put is applied: in place, in place with a spill, and by replacement. */
module EnginePut {
  import opened Engine
  import opened EngineInv
  import opened EngineFrame
  import opened EngineRely
  import opened EngineApply
  import opened EngineWrite
  import Q = EngineQueue
  import T = EngineTree
  import Tid

  /** The part common to all puts: the history gains the write, unless p is x's draft and it is there already. */
  ghost predicate PutDone(s: State, s': State, x: nat, p: Ptr) {
    && PutReady(s, x, p) && WriteFrame(s, s', x) && s'.txns[x].written == s.txns[x].written + {p}
    && (if p in s.txns[x].inserts then s'.hist == s.hist && s'.txns[x].applied == s.txns[x].applied
        else Extends(s, s', x, s.tuples[p].key))
  }

  function Head(h: seq<Ver>): Ver
    requires h != []
  {
    h[|h| - 1]
  }

  lemma PutHead(s: State, s': State, x: nat, p: Ptr)
    requires PutDone(s, s', x, p)
    ensures var k, t := s.tuples[p].key, s.txns[x];
      && H(s', k) != [] && Head(H(s', k)).tid == t.tid && Head(H(s', k)).epoch == t.epoch
      && Head(H(s', k)).value == t.puts[p]
      && Grows(s, s', k) && |H(s', k)| == (if p in t.inserts then |H(s, k)| else |H(s, k)| + 1)
    ensures forall j :: j != s.tuples[p].key ==> H(s', j) == H(s, j)
    ensures forall j :: Grows(s, s', j)
  {
    if p !in s.txns[x].inserts { ExtendsH(s, s', x, s.tuples[p].key); }
  }

  lemma PutHist(s: State, s': State, x: nat, p: Ptr)
    requires PutDone(s, s', x, p) && Histories(s)
    requires s.log[s.txns[x].pos].txn == x && s.txns[x].epoch > s.tk.last && s.txns[x].tid > Tid.MIN_TID
    ensures forall k :: HistRely(s, s', k)
  {
    var k := s.tuples[p].key;
    if p in s.txns[x].inserts {
      forall j ensures HistRely(s, s', j) { assert H(s', j) == H(s, j); }
    } else {
      LastTidBelow(s, k, s.txns[x].tid);
      ExtendsRely(s, s', x, k);
    }
  }

  lemma PutHistories(s: State, s': State, x: nat, p: Ptr)
    requires PutDone(s, s', x, p) && Histories(s) && Logged(s)
    ensures Histories(s')
  {
    FrameTxns(s, s', x);
    var k := s.tuples[p].key;
    if p in s.txns[x].inserts {
      FrameHistories(s, s');
    } else {
      LastTidBelow(s, k, s.txns[x].tid);
      ExtendsHistories(s, s', x, k);
    }
  }

  /** The shape of the tuples after each kind of put. */
  ghost predicate InPlaceShape(s: State, s': State, x: nat, p: Ptr) {
    && PutDone(s, s', x, p) && s'.index == s.index && s'.tree == s.tree
    && s'.tuples == s.tuples[p := s.tuples[p].(value := s.txns[x].puts[p], version := s.txns[x].tid, modifying := true,
                                              pos := |H(s', s.tuples[p].key)| - 1, draft := false)]
  }

  ghost predicate SpillShape(s: State, s': State, x: nat, p: Ptr, q: Ptr) {
    && PutDone(s, s', x, p) && s'.index == s.index && s'.tree == s.tree && q !in s.tuples && p !in s.txns[x].inserts
    && var u := s.tuples[p];
       s'.tuples == s.tuples[q := u.(owner := None, latest := false, modifying := false, alloc := |u.value|,
         sup := Some(s.txns[x].epoch))]
                            [p := u.(value := s.txns[x].puts[p], version := s.txns[x].tid, modifying := true,
                              next := Some(q),
                                     pos := |H(s', s.tuples[p].key)| - 1, draft := false)]
  }

  ghost predicate ReplaceShape(s: State, s': State, x: nat, p: Ptr, q: Ptr, room: nat) {
    && PutDone(s, s', x, p) && q !in s.tuples
    && s'.index == s.index[s.tuples[p].key := q] && s'.tree == s.tree[s.tuples[p].key.name := q]
    && var u := s.tuples[p];
       s'.tuples == s.tuples[p := u.(latest := false, sup := Some(s.txns[x].epoch))]
                            [q := Tuple(u.key, None, true, false, s.txns[x].tid, s.txns[x].puts[p], room, Some(p),
                              false,
                                        |H(s', s.tuples[p].key)| - 1, false, None)]
  }

  lemma PutIsDone(s: State, s': State, x: nat, p: Ptr)
    requires PutReady(s, x, p) && s'.m == s.m && s'.tk == s.tk && s'.log == s.log && s'.lastTid == s.lastTid
    requires s'.gc == s.gc
    requires s'.txns == s.txns[x := AfterPut(s, s.txns[x], p)] && s'.hist == HistAfterPut(s, s.txns[x], p)
    requires |s'.queue| == |s.queue| && s.tuples.Keys <= s'.tuples.Keys && s'.rm == s.rm && s'.clean == s.clean
    requires s'.rcu == s.rcu && s'.born == s.born && s'.shut == s.shut && s'.gone == s.gone
    ensures PutDone(s, s', x, p) && PosAfterPut(s, s.txns[x], p) == |H(s', s.tuples[p].key)| - 1
  {
    if p !in s.txns[x].inserts { ExtendsH(s, s', x, s.tuples[p].key); }
  }

  lemma InPlaceIsShape(s: State, s': State, x: nat, p: Ptr)
    requires PutInPlace(s, s', x, p) && PutReady(s, x, p)
    ensures InPlaceShape(s, s', x, p) && Tid.CanOverwrite(s.tuples[p].version, s.txns[x].tid, s.m)
    ensures s.tuples[p].value != ""
  {
    PutIsDone(s, s', x, p);
  }

  lemma SpillIsShape(s: State, s': State, x: nat, p: Ptr, q: Ptr)
    requires PutSpill(s, s', x, p, q) && PutReady(s, x, p)
    ensures SpillShape(s, s', x, p, q) && s.tuples[p].value != ""
  {
    if p in s.txns[x].inserts { DraftKind(s, x, p); }
    PutIsDone(s, s', x, p);
  }

  lemma ReplaceIsShape(s: State, s': State, x: nat, p: Ptr, q: Ptr, room: nat)
    requires PutReplace(s, s', x, p, q, room) && PutReady(s, x, p)
    ensures ReplaceShape(s, s', x, p, q, room)
  {
    PutIsDone(s, s', x, p);
  }

  // ----- rely

  lemma InPlaceRely(s: State, s': State, x: nat, p: Ptr, q: Ptr)
    requires InPlaceShape(s, s', x, p) && s.m >= 1 && q !in s.tuples
    requires forall r :: r in s.tuples ==> HoldsOf(s, r)
    requires s.txns[x].tid > Tid.MIN_TID && s.txns[x].tid < Tid.MAX_TID
    requires s.tuples[p].key !in s.shut
    requires forall k :: HistRely(s, s', k)
    ensures Rely(s, s')
  {
    PutHead(s, s', x, p);
    WriteRely(s, s', x, p, q);
  }

  lemma SpillRely(s: State, s': State, x: nat, p: Ptr, q: Ptr)
    requires SpillShape(s, s', x, p, q) && s.m >= 1
    requires forall r :: r in s.tuples ==> HoldsOf(s, r)
    requires s.txns[x].tid > Tid.MIN_TID && s.txns[x].tid < Tid.MAX_TID
    requires s.tuples[p].key !in s.shut
    requires forall k :: HistRely(s, s', k)
    ensures Rely(s, s')
  {
    PutHead(s, s', x, p);
    WriteRely(s, s', x, p, q);
  }

  lemma ReplaceRely(s: State, s': State, x: nat, p: Ptr, q: Ptr, room: nat)
    requires ReplaceShape(s, s', x, p, q, room) && s.m >= 1
    requires forall r :: r in s.tuples ==> HoldsOf(s, r)
    requires s.txns[x].epoch > s.tk.last
    requires s.tuples[p].key !in s.shut
    requires forall k :: HistRely(s, s', k)
    ensures Rely(s, s')
  {
    PutHead(s, s', x, p);
    WriteRely(s, s', x, p, q);
  }

  // ----- tree and locks

  /** Who holds what is as before, and a tuple that is new is not locked. */
  lemma LocksFrame(s: State, s': State)
    requires Locks(s)
    requires forall y :: y in s'.txns <==> y in s.txns
    requires forall y :: y in s.txns ==> s'.txns[y].held == s.txns[y].held
    requires forall r :: r in s.tuples ==>
      && r in s'.tuples && s'.tuples[r].owner == s.tuples[r].owner
      && (s'.tuples[r].modifying == s.tuples[r].modifying || s.tuples[r].owner.Some?)
    requires forall r :: r in s'.tuples && r !in s.tuples ==> s'.tuples[r].owner == None && !s'.tuples[r].modifying
    ensures Locks(s')
  {
  }

  lemma SpillLocks(s: State, s': State, x: nat, p: Ptr, q: Ptr)
    requires SpillShape(s, s', x, p, q) && Locks(s)
    ensures Locks(s')
  {
    LocksFrame(s, s');
  }

  lemma SpillIndexed(s: State, s': State, x: nat, p: Ptr, q: Ptr)
    requires SpillShape(s, s', x, p, q) && Indexed(s)
    ensures Indexed(s')
  {
  }

  lemma ReplaceLocks(s: State, s': State, x: nat, p: Ptr, q: Ptr, room: nat)
    requires ReplaceShape(s, s', x, p, q, room) && Locks(s)
    ensures Locks(s')
  {
    LocksFrame(s, s');
  }

  lemma ReplaceIndexed(s: State, s': State, x: nat, p: Ptr, q: Ptr, room: nat)
    requires ReplaceShape(s, s', x, p, q, room) && Indexed(s)
    ensures Indexed(s')
  {
  }

  // ----- tentative inserts

  /** Any tuple p that x writes is no pending insert of anyone else. */
  lemma TentativeFrame(s: State, s': State, x: nat, p: Ptr, y: nat, r: Ptr)
    requires y in s.txns && y in s'.txns && r in s.txns[y].inserts && InsertOf(s, y, r) && PhaseOf(s.txns[y])
    requires s'.txns[y] == s.txns[y].(written := s'.txns[y].written, applied := s'.txns[y].applied)
    requires s'.txns[y].written == s.txns[y].written || (y == x && s'.txns[y].written == s.txns[y].written + {p})
    requires r in s'.tuples
    requires r != p ==> s'.tuples[r] == s.tuples[r]
    requires r == p ==>
      && s.tuples[p].version != Tid.MAX_TID && s'.tuples[p].version != Tid.MAX_TID && s.tuples[p].latest
      && (if y == x then p in s'.txns[y].written && s.txns[x].phase == Writing else p !in s.txns[y].held)
    ensures InsertOf(s', y, r)
  {
  }

  lemma PutInserts(s: State, s': State, x: nat, p: Ptr, q: Ptr)
    requires PutDone(s, s', x, p) && OnlyAt(s, s', p, q) && q !in s.tuples && Inserts(s) && Locks(s) && Phases(s)
    requires Pointers(s)
    requires s'.tuples[p].version != Tid.MAX_TID
    ensures Inserts(s')
  {
    forall y, r | y in s'.txns && r in s'.txns[y].inserts ensures InsertOf(s', y, r) {
      assert InsertOf(s, y, r) && PhaseOf(s.txns[y]) && PtrsOf(s, s.txns[y]);
      PutInsert(s, s', x, p, q, y, r);
    }
  }

  lemma PutInsert(s: State, s': State, x: nat, p: Ptr, q: Ptr, y: nat, r: Ptr)
    requires PutDone(s, s', x, p) && OnlyAt(s, s', p, q) && q !in s.tuples && Locks(s)
    requires s'.tuples[p].version != Tid.MAX_TID
    requires y in s.txns && r in s.txns[y].inserts && r in s.tuples && InsertOf(s, y, r) && PhaseOf(s.txns[y])
    ensures InsertOf(s', y, r)
  {
    TentativeFrame(s, s', x, p, y, r);
  }

  lemma PutOwned(s: State, s': State, x: nat, p: Ptr, q: Ptr)
    requires PutDone(s, s', x, p) && OnlyAt(s, s', p, q) && q !in s.tuples && Owned(s)
    requires s'.tuples[p].version != Tid.MAX_TID && (q in s'.tuples ==> s'.tuples[q].version != Tid.MAX_TID)
    requires s'.tuples.Keys <= s.tuples.Keys + {q}
    ensures Owned(s')
  {
  }

  // ----- holdings

  lemma PutHoldsFrame(s: State, s': State, x: nat, p: Ptr, r: Ptr)
    requires PutDone(s, s', x, p) && Indexed(s) && r in s.tuples && r != p && r in s'.tuples
    requires s'.tuples[r] == s.tuples[r] && HoldsOf(s, r)
    ensures HoldsOf(s', r)
  {
    PutHead(s, s', x, p);
    HoldsFrame(s, s', x, r);
  }

  lemma InPlaceHoldings(s: State, s': State, x: nat, p: Ptr)
    requires InPlaceShape(s, s', x, p) && Holdings(s) && Indexed(s) && Tid.MIN_TID < s.txns[x].tid < Tid.MAX_TID
    ensures Holdings(s')
  {
    PutHead(s, s', x, p);
    forall r | r in s'.tuples ensures HoldsOf(s', r) {
      if r != p {
        assert HoldsOf(s, r);
        PutHoldsFrame(s, s', x, p, r);
      }
    }
    forall j | j !in s'.index ensures Closed(s', j) { ClosedFrame(s, s', j); }
  }

  lemma SpillHoldings(s: State, s': State, x: nat, p: Ptr, q: Ptr)
    requires SpillShape(s, s', x, p, q) && Holdings(s) && Indexed(s) && Tid.MIN_TID < s.txns[x].tid < Tid.MAX_TID
    ensures Holdings(s')
  {
    PutHead(s, s', x, p);
    var k := s.tuples[p].key;
    assert H(s', k)[..|H(s, k)|][s.tuples[p].pos] == H(s', k)[s.tuples[p].pos];
    forall r | r in s'.tuples ensures HoldsOf(s', r) {
      if r != p && r != q {
        assert HoldsOf(s, r);
        PutHoldsFrame(s, s', x, p, r);
      }
    }
    forall j | j !in s'.index ensures Closed(s', j) { ClosedFrame(s, s', j); }
  }

  lemma ReplaceHoldings(s: State, s': State, x: nat, p: Ptr, q: Ptr, room: nat)
    requires ReplaceShape(s, s', x, p, q, room) && Holdings(s) && Indexed(s)
    requires Tid.MIN_TID < s.txns[x].tid < Tid.MAX_TID
    ensures Holdings(s')
  {
    PutHead(s, s', x, p);
    var k := s.tuples[p].key;
    assert H(s', k)[..|H(s, k)|][s.tuples[p].pos] == H(s', k)[s.tuples[p].pos];
    forall r | r in s'.tuples ensures HoldsOf(s', r) {
      if r != p && r != q {
        assert HoldsOf(s, r);
        PutHoldsFrame(s, s', x, p, r);
      }
    }
    forall j | j !in s'.index ensures Closed(s', j) { ClosedFrame(s, s', j); }
  }

  // ----- chains

  lemma PutLinkFrame(s: State, s': State, x: nat, p: Ptr, q: Ptr, r: Ptr)
    requires PutDone(s, s', x, p) && s.m >= 1 && OnlyAt(s, s', p, q) && q !in s.tuples && r in s.tuples && r != p
    requires Holdings(s) && LinkOf(s, r)
    ensures LinkOf(s', r)
  {
    PutHead(s, s', x, p);
    assert HoldsOf(s, r);
    if s.tuples[r].next.Some? && s.tuples[r].next.value in s.tuples { assert HoldsOf(s, s.tuples[r].next.value); }
    LinkFrame(s, s', r);
  }

  /** The older version behind p is one of its key's history. */
  ghost predicate NextInHistory(s: State, p: Ptr)
    requires p in s.tuples
  {
    var u := s.tuples[p];
    u.next.Some? && u.next.value in s.tuples && s.tuples[u.next.value].version != Tid.MAX_TID ==>
      s.tuples[u.next.value].pos < |H(s, u.key)|
  }

  /** The written tuple's link when it is overwritten in place. */
  lemma InPlaceLink(s: State, s': State, x: nat, p: Ptr)
    requires InPlaceShape(s, s', x, p) && s.m >= 1 && LinkOf(s, p)
    requires NextInHistory(s, p)
    requires SameGroup(s, H(s, s.tuples[p].key)[s.tuples[p].pos].epoch, s.txns[x].epoch)
    ensures LinkOf(s', p)
  {
    PutHead(s, s', x, p);
    var k := s.tuples[p].key;
    var h, h' := H(s, k), H(s', k);
    assert forall j :: 0 <= j < |h| ==> h'[j] == h'[..|h|][j] == h[j];
  }

  lemma InPlaceChains(s: State, s': State, x: nat, p: Ptr, q: Ptr)
    requires InPlaceShape(s, s', x, p) && Holdings(s) && Chains(s) && q !in s.tuples
    requires SameGroup(s, H(s, s.tuples[p].key)[s.tuples[p].pos].epoch, s.txns[x].epoch)
    ensures Chains(s')
  {
    assert OnlyAt(s, s', p, q);
    forall r | r in s'.tuples ensures LinkOf(s', r) {
      assert LinkOf(s, r);
      if r != p {
        PutLinkFrame(s, s', x, p, q, r);
      } else {
        if s.tuples[p].next.Some? && s.tuples[p].next.value in s.tuples { assert HoldsOf(s, s.tuples[p].next.value); }
        InPlaceLink(s, s', x, p);
      }
    }
  }

  lemma SpillLinks(s: State, s': State, x: nat, p: Ptr, q: Ptr)
    requires SpillShape(s, s', x, p, q) && s.m >= 1 && LinkOf(s, p)
    requires NextInHistory(s, p)
    ensures LinkOf(s', p) && LinkOf(s', q)
  {
    PutHead(s, s', x, p);
    var k := s.tuples[p].key;
    var h, h' := H(s, k), H(s', k);
    assert forall j :: 0 <= j < |h| ==> h'[j] == h'[..|h|][j] == h[j];
  }

  lemma SpillChains(s: State, s': State, x: nat, p: Ptr, q: Ptr)
    requires SpillShape(s, s', x, p, q) && Holdings(s) && Chains(s)
    ensures Chains(s')
  {
    assert OnlyAt(s, s', p, q);
    assert LinkOf(s, p);
    if s.tuples[p].next.Some? && s.tuples[p].next.value in s.tuples { assert HoldsOf(s, s.tuples[p].next.value); }
    SpillLinks(s, s', x, p, q);
    forall r | r in s'.tuples ensures LinkOf(s', r) {
      if r != p && r != q {
        assert LinkOf(s, r);
        PutLinkFrame(s, s', x, p, q, r);
      }
    }
  }

  lemma ReplaceLinks(s: State, s': State, x: nat, p: Ptr, q: Ptr, room: nat)
    requires ReplaceShape(s, s', x, p, q, room) && s.m >= 1 && LinkOf(s, p)
    requires NextInHistory(s, p)
    ensures LinkOf(s', p) && LinkOf(s', q)
  {
    PutHead(s, s', x, p);
    var k := s.tuples[p].key;
    var h, h' := H(s, k), H(s', k);
    assert forall j :: 0 <= j < |h| ==> h'[j] == h'[..|h|][j] == h[j];
  }

  lemma ReplaceChains(s: State, s': State, x: nat, p: Ptr, q: Ptr, room: nat)
    requires ReplaceShape(s, s', x, p, q, room) && Holdings(s) && Chains(s)
    ensures Chains(s')
  {
    assert OnlyAt(s, s', p, q);
    assert LinkOf(s, p);
    if s.tuples[p].next.Some? && s.tuples[p].next.value in s.tuples { assert HoldsOf(s, s.tuples[p].next.value); }
    ReplaceLinks(s, s', x, p, q, room);
    forall r | r in s'.tuples ensures LinkOf(s', r) {
      if r != p && r != q {
        assert LinkOf(s, r);
        PutLinkFrame(s, s', x, p, q, r);
      }
    }
  }

  // ----- work

  lemma PutOwn(s: State, s': State, x: nat, p: Ptr)
    requires PutDone(s, s', x, p) && WorkOf(s, x) && Indexed(s) && PtrsOf(s, s.txns[x])
    requires forall r :: r in s.txns[x].inserts ==> InsertOf(s, x, r)
    requires forall r :: r in s.tuples && r != p ==> r in s'.tuples && s'.tuples[r] == s.tuples[r]
    requires forall k :: k in s.index && k != s.tuples[p].key ==> k in s'.index && s'.index[k] == s.index[k]
    requires p in s'.tuples && s'.tuples[p].version != Tid.MAX_TID
    ensures WorkOf(s', x)
  {
    var t := s.txns[x];
    if p in t.inserts { DraftKeys(s, s', x, p); } else { OtherKeys(s, s', x, p); }
    forall r | r in t.puts || r in t.inserts ensures AheadOf(s', x, r) {
      assert AheadOf(s, x, r);
      if r != p {
        if r in t.inserts { assert InsertOf(s, x, r); }
        AheadFrame(s, s', x, p, r);
      }
    }
    OwnWork(s, s', x);
  }

  lemma DraftKeys(s: State, s': State, x: nat, p: Ptr)
    requires PutDone(s, s', x, p) && WorkOf(s, x) && Indexed(s) && p in s.txns[x].inserts
    requires forall r :: r in s.tuples && r != p ==> r in s'.tuples && s'.tuples[r] == s.tuples[r]
    requires forall k :: k in s.index && k != s.tuples[p].key ==> k in s'.index && s'.index[k] == s.index[k]
    ensures forall k :: k in s.log[s.txns[x].pos].writes && k !in s'.txns[x].applied ==> PendingOf(s', x, k)
    ensures forall k :: k in s'.txns[x].applied ==> AppliedOf(s', x, k)
  {
    PutHead(s, s', x, p);
    var t, t' := s.txns[x], s'.txns[x];
    forall j | j in s.log[t.pos].writes && j !in t'.applied ensures PendingOf(s', x, j) {
      assert PendingOf(s, x, j);
      PendingFrame(s, s', x, p, j);
    }
    forall j | j in t'.applied ensures AppliedOf(s', x, j) { AppliedFrame(s, s', x, j); }
  }

  lemma PutWork(s: State, s': State, x: nat, p: Ptr, q: Ptr)
    requires PutDone(s, s', x, p) && OnlyAt(s, s', p, q) && q !in s.tuples && Work(s) && Locks(s) && Phases(s)
    requires WorkOf(s', x)
    requires forall k :: k in s.index && k != s.tuples[p].key ==> k in s'.index && s'.index[k] == s.index[k]
    ensures Work(s')
  {
    PutHead(s, s', x, p);
    WriteOthers(s, s', x, p, q);
  }

  // ----- the tree and the queues

  /** The tuple is the one its name leads to. */
  ghost predicate AtHome(s: State, p: Ptr) {
    && p in s.tuples && var k := s.tuples[p].key; k !in s.shut && k.name in s.tree && s.tree[k.name] == p
  }

  lemma PutGrowth(s: State, s': State, x: nat, p: Ptr)
    requires PutDone(s, s', x, p)
    ensures var k := s.tuples[p].key;
      H(s', k) == H(s, k) || (exists v: Ver :: v.pos == s.txns[x].pos && H(s', k) == H(s, k) + [v])
    ensures forall j :: j != s.tuples[p].key ==> H(s', j) == H(s, j)
  {
    if p !in s.txns[x].inserts { ExtendsH(s, s', x, s.tuples[p].key); }
  }

  lemma InPlaceRewrites(s: State, s': State, x: nat, p: Ptr, q: Ptr)
    requires InPlaceShape(s, s', x, p) && AtHome(s, p) && q !in s.tuples
    ensures T.Rewrites(s, s', x, p, q)
  {
    PutGrowth(s, s', x, p);
    var k := s.tuples[p].key;
    assert s'.tree == s.tree[k.name := p] && s'.index == s.index[k := p];
  }

  lemma SpillRewrites(s: State, s': State, x: nat, p: Ptr, q: Ptr)
    requires SpillShape(s, s', x, p, q) && AtHome(s, p)
    ensures T.Rewrites(s, s', x, p, q)
  {
    PutGrowth(s, s', x, p);
    var k := s.tuples[p].key;
    assert s'.tree == s.tree[k.name := p] && s'.index == s.index[k := p];
  }

  lemma ReplaceRewrites(s: State, s': State, x: nat, p: Ptr, q: Ptr, room: nat)
    requires ReplaceShape(s, s', x, p, q, room) && AtHome(s, p)
    ensures T.Rewrites(s, s', x, p, q)
  {
    PutGrowth(s, s', x, p);
  }

  /** The write as it is before anything goes on the queues. */
  lemma BeforeQueueing(s: State, s': State, r: State, x: nat, p: Ptr, q: Ptr)
    requires T.Rewrites(s, s', x, p, q) && r == s'.(queue := s.queue)
    ensures T.Rewrites(s, r, x, p, q)
  {
    forall k ensures H(r, k) == H(s', k) {}
  }

  /** The head of the key after the write, if it is a deletion marker, is a good queue entry. */
  lemma HeadItem(s: State, s': State, r: State, x: nat, p: Ptr, head: Ptr)
    requires PutDone(s, s', x, p) && s.m >= 1 && r == s'.(queue := s.queue) && head in r.tuples && head !in r.gone
    requires r.tuples[head].key == s.tuples[p].key && r.tuples[head].pos == |H(s', s.tuples[p].key)| - 1
    requires r.tuples[head].version == s.txns[x].tid != Tid.MAX_TID && !r.tuples[head].draft
    requires r.tuples[head].value == s.txns[x].puts[p] == ""
    ensures ItemOf(r, Item(head, Ro(r, s.txns[x].epoch), true))
  {
    PutHead(s, s', x, p);
    assert H(r, s.tuples[p].key) == H(s', s.tuples[p].key);
  }

  lemma InPlaceGarbage(s: State, s': State, x: nat, p: Ptr, q: Ptr)
    requires InPlaceShape(s, s', x, p) && T.Rewrites(s, s', x, p, q) && s.tuples[p].value != ""
    requires s.txns[x].tid != Tid.MAX_TID
    requires Garbage(s) && Queues(s) && Sweeps(s) && s.txns[x].core < |s.queue|
    requires s'.queue == Mark(s, s.queue, s.txns[x].core, p, s.txns[x].puts[p], s.txns[x].epoch)
    ensures Garbage(s') && Queues(s')
  {
    var r := s'.(queue := s.queue);
    BeforeQueueing(s, s', r, x, p, q);
    Q.LatestAbsent(s, p);
    Q.LatestNotHanded(s, p);
    Q.NotSwept(s, p);
    assert GarbageOf(s, p);
    Q.RewriteGarbage(s, r, x, p, q);
    Q.RewriteQueues(s, r, x, p, q);
    if s.txns[x].puts[p] == "" { HeadItem(s, s', r, x, p, p); }
    Q.MarkKeeps(r, s.txns[x].core, p, s.txns[x].puts[p], s.txns[x].epoch);
    assert s' == r.(queue := Mark(r, r.queue, s.txns[x].core, p, s.txns[x].puts[p], s.txns[x].epoch));
  }

  lemma SpillGarbage(s: State, s': State, x: nat, p: Ptr, q: Ptr)
    requires SpillShape(s, s', x, p, q) && T.Rewrites(s, s', x, p, q) && s.tuples[p].value != ""
    requires s.txns[x].tid != Tid.MAX_TID
    requires Garbage(s) && Queues(s) && Sweeps(s) && s.txns[x].core < |s.queue| && s.txns[x].epoch <= s.tk.current
    requires s'.queue == Mark(s, Spill(s, s.txns[x].core, q, s.tuples[p], s.txns[x].epoch), s.txns[x].core, p,
      s.txns[x].puts[p], s.txns[x].epoch)
    ensures Garbage(s') && Queues(s')
  {
    var r, t := s'.(queue := s.queue), s.txns[x];
    BeforeQueueing(s, s', r, x, p, q);
    Q.LatestAbsent(s, p);
    Q.FreshAbsent(s, q);
    Q.LatestNotHanded(s, p);
    Q.NotSwept(s, p);
    Q.NotSwept(s, q);
    assert GarbageOf(s, p);
    Q.RewriteGarbage(s, r, x, p, q);
    Q.RewriteQueues(s, r, x, p, q);
    if t.puts[p] == "" { HeadItem(s, s', r, x, p, p); }
    Q.SpillKeeps(r, t.core, q, s.tuples[p], p, t.puts[p], t.epoch);
    assert s' == r.(queue := Mark(r, Spill(r, t.core, q, s.tuples[p], t.epoch), t.core, p, t.puts[p], t.epoch));
  }

  /** Where the replaced tuple and the new one are before anything goes on the queues. */
  lemma ReplaceReady(s: State, x: nat, p: Ptr, q: Ptr)
    requires PutReady(s, x, p) && q !in s.tuples && Garbage(s) && Sweeps(s)
    ensures (s.tuples[p].value != "" ==> Q.Absent(s, p)) && Q.Absent(s, q) && p !in s.gone && Unfreed(s, p)
    ensures !Swept(s, p) && !Swept(s, q) && GarbageOf(s, p)
  {
    if s.tuples[p].value != "" { Q.LatestAbsent(s, p); }
    Q.FreshAbsent(s, q);
    Q.LatestNotHanded(s, p);
    Q.NotSwept(s, p);
    Q.NotSwept(s, q);
    assert GarbageOf(s, p);
  }

  lemma ReplaceGarbage(s: State, s': State, x: nat, p: Ptr, q: Ptr, room: nat)
    requires ReplaceShape(s, s', x, p, q, room) && T.Rewrites(s, s', x, p, q) && s.txns[x].tid != Tid.MAX_TID
    requires Garbage(s) && Queues(s) && Sweeps(s) && s.txns[x].core < |s.queue| && s.txns[x].epoch <= s.tk.current
    requires s'.queue == Mark(s, Spill(s, s.txns[x].core, p, s.tuples[p], s.txns[x].epoch), s.txns[x].core, q,
      s.txns[x].puts[p], s.txns[x].epoch)
    ensures Garbage(s') && Queues(s')
  {
    var r, t := s'.(queue := s.queue), s.txns[x];
    ReplaceReady(s, x, p, q);
    ReplaceBefore(s, s', r, x, p, q, room);
    if t.puts[p] == "" { HeadItem(s, s', r, x, p, q); }
    Q.SpillKeeps(r, t.core, p, s.tuples[p], q, t.puts[p], t.epoch);
    assert s' == r.(queue := Mark(r, Spill(r, t.core, p, s.tuples[p], t.epoch), t.core, q, t.puts[p], t.epoch));
  }

  lemma ReplaceBefore(s: State, s': State, r: State, x: nat, p: Ptr, q: Ptr, room: nat)
    requires ReplaceShape(s, s', x, p, q, room) && T.Rewrites(s, s', x, p, q) && r == s'.(queue := s.queue)
    requires Garbage(s) && Queues(s) && s.txns[x].epoch <= s.tk.current && GarbageOf(s, p)
    ensures Garbage(r) && Queues(r)
  {
    BeforeQueueing(s, s', r, x, p, q);
    Q.RewriteGarbage(s, r, x, p, q);
    Q.RewriteQueues(s, r, x, p, q);
  }
}
