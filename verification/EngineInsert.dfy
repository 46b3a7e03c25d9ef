/** Steps that add a tuple or a transaction or move the clocks, and leave all histories alone. */
module EngineInsert {
  import opened Engine
  import opened EngineInv
  import opened EngineFrame
  import opened EngineRely
  import Tid
  import Ticker

  // ----- inserting a tuple

  /** The name's next key has never been used. */
  lemma NewKey(s: State, k: Key)
    requires Indexed(s) && Grown(s) && Ages(s) && Next(s, k)
    ensures k !in s.index && k !in s.born && H(s, k) == []
  {
  }

  lemma InsertRely(s: State, s': State, x: nat, k: Key, v: Value, p: Ptr, room: nat)
    requires Insert(s, s', x, k, v, p, room) && s.m >= 1
    requires forall q :: q in s.tuples ==> HoldsOf(s, q)
    ensures Rely(s, s')
  {
    forall j ensures H(s', j) == H(s, j) {}
    forall j ensures HistRely(s, s', j) {}
    forall q | q in s.tuples ensures TupleRely(s, s.tuples[q], s'.tuples[q]) { assert HoldsOf(s, q); }
    forall q | q in s.tuples ensures DraftRely(s, s', q) { assert HoldsOf(s, q); }
  }

  lemma InsertPtrs(s: State, s': State, x: nat, k: Key, v: Value, p: Ptr, room: nat)
    requires Insert(s, s', x, k, v, p, room) && s.gone.Keys <= s.tuples.Keys
    ensures NoNewPtrs(s, s')
    ensures forall y :: y in s.txns ==>
      s'.txns[y].puts == s.txns[y].puts && s'.txns[y].inserts <= s.txns[y].inserts + s'.tuples.Keys
  {
  }

  lemma InsertPhases(s: State, s': State, x: nat, k: Key, v: Value, p: Ptr, room: nat)
    requires Insert(s, s', x, k, v, p, room) && Phases(s)
    ensures Phases(s')
  {
    assert PhaseOf(s.txns[x]);
    assert PhaseOf(s'.txns[x]);
  }

  lemma InsertLocks(s: State, s': State, x: nat, k: Key, v: Value, p: Ptr, room: nat)
    requires Insert(s, s', x, k, v, p, room) && Locks(s)
    ensures Locks(s')
  {
    forall y, q | y in s'.txns && q in s'.txns[y].held ensures q in s'.tuples && s'.tuples[q].owner == Some(y) {
      assert q == p || q in s.txns[y].held;
    }
  }

  lemma InsertIndexed(s: State, s': State, x: nat, k: Key, v: Value, p: Ptr, room: nat)
    requires Insert(s, s', x, k, v, p, room) && Indexed(s) && k !in s.index
    ensures Indexed(s')
  {
  }

  lemma InsertTentative(s: State, s': State, x: nat, k: Key, v: Value, p: Ptr, room: nat)
    requires Insert(s, s', x, k, v, p, room) && Tentative(s) && Pointers(s)
    ensures Tentative(s')
  {
    forall y, q | y in s'.txns && q in s'.txns[y].inserts ensures InsertOf(s', y, q) {
      assert PtrsOf(s, s.txns[y]);
      if q != p { assert InsertOf(s, y, q); }
    }
  }

  lemma InsertHoldings(s: State, s': State, x: nat, k: Key, v: Value, p: Ptr, room: nat)
    requires Insert(s, s', x, k, v, p, room) && Holdings(s) && H(s, k) == []
    ensures Holdings(s')
  {
    forall q | q in s'.tuples ensures HoldsOf(s', q) {
      if q != p {
        assert HoldsOf(s, q);
        assert H(s', s.tuples[q].key) == H(s, s.tuples[q].key);
      }
    }
    forall j | j !in s'.index ensures Closed(s', j) {
      assert H(s', j) == H(s, j);
      ClosedFrame(s, s', j);
    }
  }

  lemma InsertChains(s: State, s': State, x: nat, k: Key, v: Value, p: Ptr, room: nat)
    requires Insert(s, s', x, k, v, p, room) && Chains(s)
    ensures Chains(s')
  {
    forall q | q in s'.tuples ensures LinkOf(s', q) {
      if q != p {
        assert LinkOf(s, q);
        assert H(s', s.tuples[q].key) == H(s, s.tuples[q].key);
      }
    }
  }

  lemma InsertHistories(s: State, s': State, x: nat, k: Key, v: Value, p: Ptr, room: nat)
    requires Insert(s, s', x, k, v, p, room) && Histories(s)
    ensures Histories(s')
  {
    FrameHistories(s, s');
  }

  lemma InsertBeside(s: State, s': State, x: nat, k: Key, v: Value, p: Ptr, room: nat, y: nat)
    requires Insert(s, s', x, k, v, p, room) && y in s.txns && y != x && Locks(s) && k !in s.index
    ensures Untouched(s, s', y)
  {
    assert p !in s.txns[y].held;
    UntouchedBeside(s, s', p, y);
  }

  lemma InsertWork(s: State, s': State, x: nat, k: Key, v: Value, p: Ptr, room: nat)
    requires Insert(s, s', x, k, v, p, room) && Work(s) && Phases(s) && Locks(s) && Pointers(s) && k !in s.index
    ensures Work(s')
  {
    forall y | y in s'.txns ensures WorkOf(s', y) {
      assert WorkOf(s, y) && PhaseOf(s.txns[y]);
      if y != x {
        InsertBeside(s, s', x, k, v, p, room, y);
        UntouchedWork(s, s', y);
      }
    }
  }

  // ----- beginning a transaction

  lemma BeginTimes(s: State, s': State, x: nat, c: nat, snapshot: bool)
    requires Begin(s, s', x, c, snapshot) && Base(s) && Times(s) && Cuts(s)
    ensures Base(s') && Times(s') && Cuts(s')
  {
    Ticker.OpenGuardBounds(s.tk, c);
    forall y | y in s'.txns ensures TimeOf(s', y) {
      if y != x { assert TimeOf(s, y); }
    }
  }

  lemma BeginLocks(s: State, s': State, x: nat, c: nat, snapshot: bool)
    requires Begin(s, s', x, c, snapshot) && Locks(s)
    ensures Locks(s')
  {
  }

  lemma BeginPhases(s: State, s': State, x: nat, c: nat, snapshot: bool)
    requires Begin(s, s', x, c, snapshot) && Indexed(s) && Phases(s)
    ensures Indexed(s') && Phases(s')
  {
    assert PhaseOf(s'.txns[x]);
  }

  lemma BeginTentative(s: State, s': State, x: nat, c: nat, snapshot: bool)
    requires Begin(s, s', x, c, snapshot) && Tentative(s) && Pointers(s)
    ensures Tentative(s') && Pointers(s')
  {
    forall y, q | y in s'.txns && q in s'.txns[y].inserts ensures InsertOf(s', y, q) { assert InsertOf(s, y, q); }
    forall y | y in s'.txns ensures PtrsOf(s', s'.txns[y]) {
      if y != x { assert PtrsOf(s, s.txns[y]); }
    }
  }

  lemma BeginLogged(s: State, s': State, x: nat, c: nat, snapshot: bool)
    requires Begin(s, s', x, c, snapshot) && Logged(s) && Histories(s)
    ensures Logged(s') && Histories(s')
  {
    FrameHistories(s, s');
  }

  lemma BeginTids(s: State, s': State, x: nat, c: nat, snapshot: bool)
    requires Begin(s, s', x, c, snapshot) && TidsGrow(s)
    ensures TidsGrow(s')
  {
  }

  lemma BeginHoldings(s: State, s': State, x: nat, c: nat, snapshot: bool)
    requires Begin(s, s', x, c, snapshot) && Holdings(s) && Chains(s)
    ensures Holdings(s') && Chains(s')
  {
    forall j ensures H(s', j) == H(s, j) {}
    forall q | q in s'.tuples ensures HoldsOf(s', q) { assert HoldsOf(s, q); }
    forall q | q in s'.tuples ensures LinkOf(s', q) { assert LinkOf(s, q); }
    forall j | j !in s'.index ensures Closed(s', j) { ClosedFrame(s, s', j); }
  }

  /** The tuples, the tree, the log and the histories stay. */
  lemma SameUntouched(s: State, s': State, y: nat)
    requires s'.tuples == s.tuples && s'.index == s.index && s'.log == s.log && s'.hist == s.hist && Locks(s)
    requires y in s.txns && y in s'.txns && s'.txns[y] == s.txns[y]
    ensures Untouched(s, s', y)
  {
    forall j ensures H(s', j) == H(s, j) {}
  }

  lemma BeginWork(s: State, s': State, x: nat, c: nat, snapshot: bool)
    requires Begin(s, s', x, c, snapshot) && Work(s) && Phases(s) && Locks(s)
    ensures Work(s')
  {
    forall y | y in s'.txns ensures WorkOf(s', y) {
      if y != x {
        assert WorkOf(s, y) && PhaseOf(s.txns[y]);
        SameUntouched(s, s', y);
        UntouchedWork(s, s', y);
      }
    }
  }

  lemma BeginReads(s: State, s': State, x: nat, c: nat, snapshot: bool)
    requires Begin(s, s', x, c, snapshot) && Reads(s)
    ensures Reads(s')
  {
    forall y, i | y in s'.txns && 0 <= i < |s'.txns[y].readSet| ensures ReadOf(s', s'.txns[y], s'.txns[y].readSet[i]) {
      assert ReadOf(s, s.txns[y], s.txns[y].readSet[i]);
      assert H(s', s.tuples[s.txns[y].readSet[i].ptr].key) == H(s, s.tuples[s.txns[y].readSet[i].ptr].key);
    }
  }

  lemma BeginValidated(s: State, s': State, x: nat, c: nat, snapshot: bool)
    requires Begin(s, s', x, c, snapshot) && Validated(s) && Logged(s)
    ensures Validated(s')
  {
    forall y, i | y in s'.txns && 0 <= i < |s'.txns[y].readSet| && i < Checked(s'.txns[y])
      ensures ValidOf(s', s'.txns[y], s'.txns[y].readSet[i])
    {
      var r := s.txns[y].readSet[i];
      assert ValidOf(s, s.txns[y], r);
      var k := s.tuples[r.ptr].key;
      forall j | 0 <= j < s.txns[y].pos && j < |s'.log| ensures Resolved(s', k, j) { assert Resolved(s, k, j); }
      assert H(s', k) == H(s, k);
    }
  }

  /** What a snapshot has read and is at depends on the tuples, the histories and on what is out of the tree. */
  lemma SameCursor(s: State, s': State, t: Txn)
    requires s.m >= 1 && s'.m == s.m && s'.hist == s.hist && s'.tuples == s.tuples && s'.shut == s.shut
    requires t.cursor.Some? && CursorOf(s, t)
    ensures CursorOf(s', t)
  {
    forall k ensures H(s', k) == H(s, k) {}
    AloneFrame(s, s', s.tuples[t.cursor.value].key, Limit(s, t));
  }

  lemma SameResult(s: State, s': State, t: Txn, r: Result)
    requires s.m >= 1 && s'.m == s.m && s'.hist == s.hist && s'.shut == s.shut && ResultOf(s, t, r)
    ensures ResultOf(s', t, r)
  {
    AloneFrame(s, s', r.key, Limit(s, t));
  }

  lemma BeginSnapshots(s: State, s': State, x: nat, c: nat, snapshot: bool)
    requires Begin(s, s', x, c, snapshot) && Snapshots(s)
    ensures Snapshots(s')
  {
    forall y | y in s'.txns && s'.txns[y].snapshot && s'.txns[y].cursor.Some? ensures CursorOf(s', s'.txns[y]) {
      SameCursor(s, s', s.txns[y]);
    }
    forall y, i | y in s'.txns && 0 <= i < |s'.txns[y].results|
      ensures ResultOf(s', s'.txns[y], s'.txns[y].results[i])
    {
      SameResult(s, s', s.txns[y], s.txns[y].results[i]);
    }
  }

  lemma BeginShields(s: State, s': State, x: nat, c: nat, snapshot: bool)
    requires Begin(s, s', x, c, snapshot) && Shields(s)
    ensures Shields(s')
  {
    forall y, p | y in s'.txns && Live(s'.txns[y]) && p in Ptrs(s'.txns[y]) ensures Shielded(s', s'.txns[y], p) {
      assert Shielded(s, s.txns[y], p);
    }
  }

  // ----- clocks

  lemma TickBase(s: State, s': State, a: Ticker.Action, tk: Ticker.State)
    requires Tick(s, s', a, tk) && Base(s)
    ensures Base(s') && s.tk.current <= s'.tk.current && s.tk.last <= s'.tk.last
  {
    Ticker.StepKeepsInv(s.tk, tk, a);
    Ticker.StepEffects(s.tk, tk, a);
    Tid.ReadOnlyTickMonotone(s.tk.last, tk.last, s.m);
  }

  lemma TickTimes(s: State, s': State, a: Ticker.Action, tk: Ticker.State)
    requires Tick(s, s', a, tk) && Base(s) && Times(s)
    ensures Times(s')
  {
    Ticker.StepEffects(s.tk, tk, a);
    forall x | x in s'.txns ensures TimeOf(s', x) { assert TimeOf(s, x); }
  }

  lemma TickLogged(s: State, s': State, a: Ticker.Action, tk: Ticker.State)
    requires Tick(s, s', a, tk) && s.tk.current <= s'.tk.current && Logged(s) && TidsGrow(s)
    ensures Logged(s') && TidsGrow(s')
  {
  }

  /** The invariants that do not look at the clocks, the free queues' bounds or the last identifiers. */
  lemma ClockFrame(s: State, s': State)
    requires s' == s.(tk := s'.tk, gc := s'.gc)
    requires Indexed(s) && Phases(s) && Cuts(s) && Pointers(s) && Tentative(s)
    ensures Indexed(s') && Phases(s') && Cuts(s') && Pointers(s') && Tentative(s')
  {
    forall y, q | y in s'.txns && q in s'.txns[y].inserts ensures InsertOf(s', y, q) { assert InsertOf(s, y, q); }
    forall y | y in s'.txns ensures PtrsOf(s', s'.txns[y]) { assert PtrsOf(s, s.txns[y]); }
  }

  lemma ClockLocks(s: State, s': State)
    requires s' == s.(tk := s'.tk, gc := s'.gc) && Locks(s)
    ensures Locks(s')
  {
  }

  lemma ClockHoldings(s: State, s': State)
    requires s' == s.(tk := s'.tk, gc := s'.gc) && s.tk.last <= s'.tk.last && Holdings(s) && Chains(s) && Histories(s)
    ensures Holdings(s') && Chains(s') && Histories(s')
  {
    forall j ensures H(s', j) == H(s, j) {}
    forall q | q in s'.tuples ensures HoldsOf(s', q) { assert HoldsOf(s, q); }
    forall q | q in s'.tuples ensures LinkOf(s', q) { assert LinkOf(s, q); }
    forall j | j !in s'.index ensures Closed(s', j) { ClosedFrame(s, s', j); }
    FrameHistories(s, s');
  }

  lemma ClockWork(s: State, s': State)
    requires s' == s.(tk := s'.tk, gc := s'.gc) && Work(s) && Phases(s) && Locks(s)
    ensures Work(s')
  {
    forall y | y in s'.txns ensures WorkOf(s', y) {
      assert WorkOf(s, y) && PhaseOf(s.txns[y]);
      SameUntouched(s, s', y);
      UntouchedWork(s, s', y);
    }
  }

  lemma ClockReads(s: State, s': State)
    requires s' == s.(tk := s'.tk, gc := s'.gc) && Reads(s) && Snapshots(s) && Shields(s)
    ensures Reads(s') && Snapshots(s') && Shields(s')
  {
    forall j ensures H(s', j) == H(s, j) {}
    forall y, i | y in s'.txns && 0 <= i < |s'.txns[y].readSet| ensures ReadOf(s', s'.txns[y], s'.txns[y].readSet[i]) {
      assert ReadOf(s, s.txns[y], s.txns[y].readSet[i]);
    }
    forall y | y in s'.txns && s'.txns[y].snapshot && s'.txns[y].cursor.Some? ensures CursorOf(s', s'.txns[y]) {
      SameCursor(s, s', s.txns[y]);
    }
    forall y, i | y in s'.txns && 0 <= i < |s'.txns[y].results|
      ensures ResultOf(s', s'.txns[y], s'.txns[y].results[i])
    {
      SameResult(s, s', s.txns[y], s.txns[y].results[i]);
    }
    forall y, p | y in s'.txns && Live(s'.txns[y]) && p in Ptrs(s'.txns[y]) ensures Shielded(s', s'.txns[y], p) {
      assert Shielded(s, s.txns[y], p);
    }
  }

  lemma ClockValidated(s: State, s': State)
    requires s' == s.(tk := s'.tk, gc := s'.gc) && Validated(s)
    ensures Validated(s')
  {
    forall y, i | y in s'.txns && 0 <= i < |s'.txns[y].readSet| && i < Checked(s'.txns[y])
      ensures ValidOf(s', s'.txns[y], s'.txns[y].readSet[i])
    {
      var r := s.txns[y].readSet[i];
      assert ValidOf(s, s.txns[y], r);
      var k := s.tuples[r.ptr].key;
      forall j | 0 <= j < s.txns[y].pos && j < |s'.log| ensures Resolved(s', k, j) { assert Resolved(s, k, j); }
      assert H(s', k) == H(s, k);
    }
  }

  lemma GcLoadBase(s: State, s': State, c: nat)
    requires GcLoad(s, s', c) && Base(s)
    ensures Base(s')
  {
  }

  lemma GcLoadOther(s: State, s': State, c: nat)
    requires GcLoad(s, s', c) && Times(s) && Logged(s) && TidsGrow(s)
    ensures Times(s') && Logged(s') && TidsGrow(s')
  {
    forall x | x in s'.txns ensures TimeOf(s', x) { assert TimeOf(s, x); }
  }
}
