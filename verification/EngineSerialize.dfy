/** The serialization point: choosing a commit identifier and entering the log. */
module EngineSerialize {
  import opened Engine
  import opened EngineInv
  import opened EngineRely
  import opened EngineFrame
  import opened EngineInsert
  import Tid
  import Ticker

  // ----- the chosen identifier

  lemma VersionEpoch(s: State, p: Ptr)
    requires Logged(s) && Histories(s) && p in s.tuples && HoldsOf(s, p) && s.tuples[p].version != Tid.MAX_TID
    ensures Tid.EpochId(s.tuples[p].version) <= s.tk.current
  {
    var u := s.tuples[p];
    assert VerOf(s, u.key, H(s, u.key)[u.pos]);
  }

  /** Nothing the transaction saw is from a later epoch than the current one. */
  lemma SeenBounded(s: State, x: nat)
    requires Logged(s) && Histories(s) && Holdings(s) && Reads(s) && Pointers(s) && Work(s) && Phases(s)
    requires AllLocked(s, x)
    ensures forall n :: n in SeenTids(s, s.txns[x]) ==> Tid.EpochId(n) <= s.tk.current
  {
    var t := s.txns[x];
    assert PhaseOf(t) && WorkOf(s, x);
    LockedAll(t);
    forall n | n in SeenTids(s, t) ensures Tid.EpochId(n) <= s.tk.current {
      if r :| r in t.readSet && r.tid == n {
        var i :| 0 <= i < |t.readSet| && t.readSet[i] == r;
        assert ReadOf(s, t, t.readSet[i]) && HoldsOf(s, r.ptr);
        if s.tuples[r.ptr].version != Tid.MAX_TID {
          VersionEpoch(s, r.ptr);
          Tid.EpochMonotone(r.tid, s.tuples[r.ptr].version);
        }
      } else {
        var p :| p in t.puts && p !in t.inserts && p in s.tuples && s.tuples[p].version == n;
        assert p in t.held;
        assert HoldsOf(s, p);
        VersionEpoch(s, p);
      }
    }
  }

  lemma LockedAll(t: Txn)
    requires PhaseOf(t) && t.phase.Locking? && t.phase.done == |t.order|
    ensures t.held == t.inserts + t.puts.Keys
  {
    assert t.order[..t.phase.done] == t.order;
  }

  lemma TidIsGood(s: State, s': State, x: nat, tid: nat)
    requires Base(s) && TidsGrow(s) && Logged(s) && Histories(s) && Holdings(s) && Reads(s) && Pointers(s) && Work(s)
    requires Phases(s)
    requires Serialize(s, s', x, tid) && HasWrites(s.txns[x])
    ensures Tid.CoreId(tid) == s.txns[x].core && Tid.EpochId(tid) == s.tk.current
    ensures s.lastTid[s.txns[x].core] < tid && Tid.MIN_TID < tid < Tid.MAX_TID
    ensures forall n :: n in SeenTids(s, s.txns[x]) ==> n < tid
  {
    SeenBounded(s, x);
    var t := s.txns[x];
    Tid.ChosenExceeds(tid, t.core, s.tk.current, s.lastTid[t.core], SeenTids(s, t));
  }

  /** What serializing does, without how the identifier and the writes come about. */
  ghost predicate Enters(s: State, s': State, x: nat, e: Entry) {
    && x in s.txns && s.txns[x].phase.Locking? && s.txns[x].phase.done == |s.txns[x].order|
    && s.txns[x].core < |s.lastTid| && |s'.lastTid| == |s.lastTid|
    && e.txn == x && e.epoch == s.tk.current
    && s'.txns == s.txns[x := s.txns[x].(phase := Validating(0), tid := e.tid, epoch := e.epoch, serial := true,
         pos := |s.log|)]
    && s'.m == s.m && s'.tk == s.tk && s'.tuples == s.tuples && s'.index == s.index && s'.hist == s.hist
    && s'.rm == s.rm
    && s'.queue == s.queue && s'.gc == s.gc && s'.log == s.log + [e] && s'.clean == s.clean && s'.rcu == s.rcu
    && s'.tree == s.tree && s'.born == s.born && s'.shut == s.shut && s'.gone == s.gone
    && (if e.writes == map[] then s'.lastTid == s.lastTid else s'.lastTid == s.lastTid[s.txns[x].core := e.tid])
  }

  lemma SerializeEnters(s: State, s': State, x: nat, tid: nat)
    requires Serialize(s, s', x, tid) && Indexed(s) && Tentative(s) && PhaseOf(s.txns[x]) && WorkOf(s, x)
    ensures Enters(s, s', x, Entry(x, tid, s.tk.current, Writes(s, s.txns[x])))
    ensures HasWrites(s.txns[x]) <==> Writes(s, s.txns[x]) != map[]
  {
    var t := s.txns[x];
    WriteTuples(s, x);
    if t.puts != map[] {
      var p :| p in t.puts;
      assert s.tuples[p].key in Writes(s, t);
    } else if t.inserts != {} {
      var p :| p in t.inserts;
      assert s.tuples[p].key in Writes(s, t);
    } else {
      NoWritesNoEntry(s, t);
    }
  }

  // ----- clocks, phases, log

  lemma SerializeTime(s: State, s': State, x: nat, e: Entry, y: nat)
    requires Enters(s, s', x, e) && Ticker.Inv(s.tk) && y in s.txns && TimeOf(s, y)
    ensures TimeOf(s', y)
  {
    if y == x { Ticker.OpenGuardBounds(s.tk, s.txns[x].core); }
  }

  lemma SerializeTimes(s: State, s': State, x: nat, e: Entry)
    requires Enters(s, s', x, e) && Ticker.Inv(s.tk) && Times(s)
    ensures Times(s')
  {
    forall y | y in s'.txns ensures TimeOf(s', y) {
      assert TimeOf(s, y);
      SerializeTime(s, s', x, e, y);
    }
  }

  lemma SerializeBase(s: State, s': State, x: nat, e: Entry)
    requires Enters(s, s', x, e) && Base(s) && Cuts(s)
    ensures Base(s') && Cuts(s')
  {
  }

  lemma SerializePhases(s: State, s': State, x: nat, e: Entry)
    requires Enters(s, s', x, e) && Phases(s)
    ensures Phases(s')
  {
    assert PhaseOf(s.txns[x]);
    LockedAll(s.txns[x]);
    assert PhaseOf(s'.txns[x]);
  }

  lemma SerializeLocks(s: State, s': State, x: nat, e: Entry)
    requires Enters(s, s', x, e) && Indexed(s) && Locks(s)
    ensures Indexed(s') && Locks(s')
  {
  }

  lemma SerializeTentative(s: State, s': State, x: nat, e: Entry)
    requires Enters(s, s', x, e) && Tentative(s) && Pointers(s)
    ensures Tentative(s') && Pointers(s')
  {
    forall y, q | y in s'.txns && q in s'.txns[y].inserts ensures InsertOf(s', y, q) { assert InsertOf(s, y, q); }
    forall y | y in s'.txns ensures PtrsOf(s', s'.txns[y]) { assert PtrsOf(s, s.txns[y]); }
  }

  lemma NoWritesNoEntry(s: State, t: Txn)
    requires !HasWrites(t)
    ensures Writes(s, t) == map[]
  {
  }

  lemma SerializeLogged(s: State, s': State, x: nat, e: Entry)
    requires Enters(s, s', x, e) && Logged(s) && PhaseOf(s.txns[x])
    requires e.writes != map[] ==> Tid.EpochId(e.tid) == s.tk.current && Tid.MIN_TID < e.tid < Tid.MAX_TID
    ensures Logged(s')
  {
  }

  lemma SerializeTids(s: State, s': State, x: nat, e: Entry)
    requires Enters(s, s', x, e) && TidsGrow(s) && Logged(s)
    requires e.writes != map[] ==>
      && Tid.CoreId(e.tid) == s.txns[x].core && Tid.EpochId(e.tid) == s.tk.current && s.lastTid[s.txns[x].core] < e.tid
    ensures TidsGrow(s')
  {
    forall i, j | 0 <= i < j < |s'.log| && s'.log[i].writes != map[] && s'.log[j].writes != map[]
      && Tid.CoreId(s'.log[i].tid) == Tid.CoreId(s'.log[j].tid)
      ensures s'.log[i].tid < s'.log[j].tid
    {
      if j == |s.log| { assert s.log[i].tid <= s.lastTid[s.txns[s.log[i].txn].core]; }
    }
  }

  lemma SerializeHistories(s: State, s': State, x: nat, e: Entry)
    requires Enters(s, s', x, e) && Histories(s)
    ensures Histories(s')
  {
    FrameHistories(s, s');
  }

  lemma SerializeHoldings(s: State, s': State, x: nat, e: Entry)
    requires Enters(s, s', x, e) && Holdings(s) && Chains(s)
    ensures Holdings(s') && Chains(s')
  {
    forall j ensures H(s', j) == H(s, j) {}
    forall q | q in s'.tuples ensures HoldsOf(s', q) { assert HoldsOf(s, q); }
    forall q | q in s'.tuples ensures LinkOf(s', q) { assert LinkOf(s, q); }
    forall j | j !in s'.index ensures Closed(s', j) { ClosedFrame(s, s', j); }
  }

  // ----- the work ahead

  /** Every write tuple is the latest of its key, so its write is in the log entry. */
  lemma WriteTuples(s: State, x: nat)
    requires Indexed(s) && Tentative(s) && AllLocked(s, x) && PhaseOf(s.txns[x]) && WorkOf(s, x)
    ensures forall p :: p in s.txns[x].inserts ==>
      p in s.tuples && s.tuples[p].latest && s.tuples[p].version == Tid.MAX_TID
    ensures forall p :: p in s.txns[x].puts && p !in s.txns[x].inserts ==>
      p in s.tuples && s.tuples[p].latest && s.tuples[p].version != Tid.MAX_TID
    ensures forall p :: p in s.txns[x].inserts || p in s.txns[x].puts ==> s.tuples[p].key in Writes(s, s.txns[x])
  {
    var t := s.txns[x];
    LockedAll(t);
    forall p | p in t.inserts ensures p in s.tuples && s.tuples[p].latest && s.tuples[p].version == Tid.MAX_TID {
      assert InsertOf(s, x, p);
    }
  }

  lemma HistoryInLog(s: State, k: Key)
    requires Histories(s)
    ensures forall j :: 0 <= j < |H(s, k)| ==> H(s, k)[j].pos < |s.log|
  {
    forall j | 0 <= j < |H(s, k)| ensures H(s, k)[j].pos < |s.log| { assert VerOf(s, k, H(s, k)[j]); }
  }

  lemma SerializePending(s: State, s': State, x: nat, e: Entry, k: Key)
    requires Enters(s, s', x, e) && e.writes == Writes(s, s.txns[x]) && k in e.writes
    requires s.txns[x].held == s.txns[x].inserts + s.txns[x].puts.Keys && s.txns[x].written == {}
    requires s.index[k] in s.tuples
    requires (s.index[k] in s.txns[x].inserts <==> s.tuples[s.index[k]].version == Tid.MAX_TID)
    requires s.tuples[s.index[k]].version != Tid.MAX_TID ==> s.tuples[s.index[k]].version < e.tid
    requires forall j :: 0 <= j < |H(s, k)| ==> H(s, k)[j].pos < |s.log|
    ensures PendingOf(s', x, k)
  {
    assert H(s', k) == H(s, k);
  }

  /** A put tuple's version is among the identifiers the chosen one exceeds. */
  lemma PutSeen(s: State, t: Txn, p: Ptr)
    requires p in t.puts && p !in t.inserts && p in s.tuples
    ensures s.tuples[p].version in SeenTids(s, t)
  {
  }

  lemma SerializeOwn(s: State, s': State, x: nat, e: Entry)
    requires Enters(s, s', x, e) && e.writes == Writes(s, s.txns[x])
    requires Indexed(s) && Tentative(s) && PhaseOf(s.txns[x]) && WorkOf(s, x) && Histories(s)
    requires e.writes != map[] ==> forall n :: n in SeenTids(s, s.txns[x]) ==> n < e.tid
    ensures WorkOf(s', x)
  {
    var t, t' := s.txns[x], s'.txns[x];
    WriteTuples(s, x);
    LockedAll(t);
    forall k | k in e.writes ensures PendingOf(s', x, k) {
      HistoryInLog(s, k);
      if s.index[k] !in t.inserts { PutSeen(s, t, s.index[k]); }
      SerializePending(s, s', x, e, k);
    }
    forall p | p in t'.puts || p in t'.inserts ensures AheadOf(s', x, p) {}
  }

  lemma SerializeOthers(s: State, s': State, x: nat, e: Entry, y: nat)
    requires Enters(s, s', x, e) && y in s.txns && y != x && WorkOf(s, y)
    ensures WorkOf(s', y)
  {
    var t := s.txns[y];
    forall k ensures H(s', k) == H(s, k) {}
    if t.serial { assert s'.log[t.pos] == s.log[t.pos]; }
    if t.serial && (t.phase.Validating? || t.phase == Writing) {
      forall k | k in s.log[t.pos].writes && k !in t.applied ensures PendingOf(s', y, k) { assert PendingOf(s, y, k); }
      forall p | p in t.puts || p in t.inserts ensures AheadOf(s', y, p) { assert AheadOf(s, y, p); }
    }
  }

  lemma SerializeWork(s: State, s': State, x: nat, e: Entry)
    requires Enters(s, s', x, e) && Work(s) && WorkOf(s', x)
    ensures Work(s')
  {
    forall y | y in s'.txns ensures WorkOf(s', y) {
      assert WorkOf(s, y);
      if y != x { SerializeOthers(s, s', x, e, y); }
    }
  }

  // ----- reads

  lemma SerializeRead(s: State, s': State, x: nat, e: Entry, t: Txn, t': Txn, r: ReadRec)
    requires Enters(s, s', x, e) && ReadOf(s, t, r)
    requires t' == t || (t'.serial && t'.pos == |s.log|)
    requires forall i :: 0 <= i < |H(s, s.tuples[r.ptr].key)| ==> H(s, s.tuples[r.ptr].key)[i].pos < |s.log|
    ensures ReadOf(s', t', r)
  {
    assert H(s', s.tuples[r.ptr].key) == H(s, s.tuples[r.ptr].key);
  }

  lemma SerializeReads(s: State, s': State, x: nat, e: Entry)
    requires Enters(s, s', x, e) && Reads(s) && Histories(s)
    ensures Reads(s')
  {
    forall y, i | y in s'.txns && 0 <= i < |s'.txns[y].readSet| ensures ReadOf(s', s'.txns[y], s'.txns[y].readSet[i]) {
      var r := s.txns[y].readSet[i];
      assert ReadOf(s, s.txns[y], r);
      var k := s.tuples[r.ptr].key;
      HistoryInLog(s, k);
      SerializeRead(s, s', x, e, s.txns[y], s'.txns[y], r);
    }
  }

  lemma SerializeValid(s: State, s': State, x: nat, e: Entry, t: Txn, r: ReadRec)
    requires Enters(s, s', x, e) && ValidOf(s, t, r) && t.pos <= |s.log| && s.txns[x].phase != Aborting
    requires s.txns[x].phase != Aborted
    ensures ValidOf(s', t, r)
  {
    var k := s.tuples[r.ptr].key;
    forall j | 0 <= j < t.pos && j < |s'.log| ensures Resolved(s', k, j) {
      assert Resolved(s, k, j);
      assert s'.log[j] == s.log[j];
    }
    assert H(s', k) == H(s, k);
  }

  lemma SerializeValidated(s: State, s': State, x: nat, e: Entry)
    requires Enters(s, s', x, e) && Validated(s) && Logged(s) && Phases(s)
    ensures Validated(s')
  {
    forall y, i | y in s'.txns && 0 <= i < |s'.txns[y].readSet| && i < Checked(s'.txns[y])
      ensures ValidOf(s', s'.txns[y], s'.txns[y].readSet[i])
    {
      assert y != x;
      assert PhaseOf(s.txns[y]);
      assert ValidOf(s, s.txns[y], s.txns[y].readSet[i]);
      SerializeValid(s, s', x, e, s.txns[y], s.txns[y].readSet[i]);
    }
  }

  lemma SerializeSnapshots(s: State, s': State, x: nat, e: Entry)
    requires Enters(s, s', x, e) && Snapshots(s)
    ensures Snapshots(s')
  {
    forall y | y in s'.txns && s'.txns[y].snapshot && s'.txns[y].cursor.Some? ensures CursorOf(s', s'.txns[y]) {
      assert CursorOf(s, s.txns[y]);
      SameCursor(s, s', s.txns[y]);
    }
    forall y, i | y in s'.txns && 0 <= i < |s'.txns[y].results|
      ensures ResultOf(s', s'.txns[y], s'.txns[y].results[i])
    {
      assert ResultOf(s, s.txns[y], s.txns[y].results[i]);
      SameResult(s, s', s.txns[y], s.txns[y].results[i]);
    }
  }

  lemma SerializeShields(s: State, s': State, x: nat, e: Entry)
    requires Enters(s, s', x, e) && Shields(s)
    ensures Shields(s')
  {
    forall y, p | y in s'.txns && Live(s'.txns[y]) && p in Ptrs(s'.txns[y]) ensures Shielded(s', s'.txns[y], p) {
      assert Shielded(s, s.txns[y], p);
    }
  }
}
