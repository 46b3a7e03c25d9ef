/** What every step that touches tuples guarantees to all transactions, and why that is enough for
    their reads, validated reads, snapshots and pointers. */
module EngineRely {
  import opened Engine
  import opened EngineInv
  import Tid
  import Ticker

  predicate TxnRely(t: Txn, t': Txn) {
    && t'.core == t.core && t'.tick == t.tick && t'.tid == t.tid && t'.epoch == t.epoch
    && t'.start == t.start && t'.snapshot == t.snapshot && t'.snapTid == t.snapTid
    && t'.readSet == t.readSet && t'.cursor == t.cursor && t'.results == t.results
    && t'.serial == t.serial && t'.pos == t.pos
    && (Live(t') ==> Live(t)) && Checked(t') == Checked(t)
    && (t.phase == Aborting || t.phase == Aborted ==> t'.phase == Aborting || t'.phase == Aborted)
    && t.applied.Keys <= t'.applied.Keys
  }

  /** A tuple keeps its key, only moves forward in version, and changes value only with its version,
      except that a draft may be completed. */
  ghost predicate TupleRely(s: State, u: Tuple, u': Tuple)
    requires s.m >= 1
  {
    && u'.key == u.key
    && (u'.latest ==> u.latest)
    && (u'.version == Tid.MAX_TID ==> u.version == Tid.MAX_TID)
    && (u.version != Tid.MAX_TID ==> u.version <= u'.version && u.pos <= u'.pos)
    && (u'.version != Tid.MAX_TID ==> u'.version > Tid.MIN_TID)
    && (u'.latest && u'.version == u.version && !u.draft ==> u'.value == u.value && !u'.draft)
    && (u'.sup == u.sup || (u'.sup.Some? && u'.sup.value > s.tk.last))
  }

  /** A draft is of a write whose epoch is still running, or it was one already. */
  ghost predicate DraftRely(s: State, s': State, p: Ptr)
    requires p in s.tuples && p in s'.tuples
  {
    var u, u' := s.tuples[p], s'.tuples[p];
    u'.draft ==>
      || (u.draft && u'.pos == u.pos && u.version != Tid.MAX_TID)
      || (u'.pos < |H(s', u'.key)| && H(s', u'.key)[u'.pos].epoch > s.tk.last)
  }

  /** A history stays, or gains one write that is newer than all before it and was unresolved. */
  ghost predicate HistRely(s: State, s': State, k: Key) {
    var h, h' := H(s, k), H(s', k);
    h' == h ||
      (&& |h'| == |h| + 1 && h'[..|h|] == h
       && var v := h'[|h|];
          && v.tid > Tid.MIN_TID && (forall j :: 0 <= j < |h| ==> h[j].tid < v.tid)
          && v.epoch > s.tk.last && v.pos < |s.log| && !Resolved(s, k, v.pos))
  }

  /** A tuple is handed to read-copy-update under an open guard. */
  ghost predicate GoneRely(s: State, s': State, p: Ptr)
    requires p in s'.gone
  {
    (p in s.gone && s'.gone[p] == s.gone[p]) || s.tk.current <= s'.gone[p] + 1
  }

  ghost predicate Rely(s: State, s': State) {
    && s.m >= 1 && s'.m == s.m && s'.rm == s.rm && s'.tk == s.tk && s'.log == s.log
    && s'.lastTid == s.lastTid && s'.gc == s.gc
    && |s'.queue| == |s.queue| && |s'.clean| == |s.clean| && |s'.rcu| == |s.rcu|
    && s.shut <= s'.shut && (forall k :: k in s.shut ==> H(s', k) == H(s, k))
    && (forall p :: p in s'.gone ==> GoneRely(s, s', p))
    && s'.txns.Keys == s.txns.Keys && s.tuples.Keys <= s'.tuples.Keys
    && (forall x :: x in s.txns ==> TxnRely(s.txns[x], s'.txns[x]))
    && (forall p :: p in s.tuples ==> TupleRely(s, s.tuples[p], s'.tuples[p]))
    && (forall p :: p in s.tuples ==> DraftRely(s, s', p))
    && (forall k :: HistRely(s, s', k))
  }

  lemma RelyBase(s: State, s': State)
    requires Rely(s, s') && Base(s)
    ensures Base(s')
  {
  }

  lemma RelyTimes(s: State, s': State)
    requires Rely(s, s') && Times(s)
    ensures Times(s')
  {
    forall x | x in s'.txns ensures TimeOf(s', x) { assert TxnRely(s.txns[x], s'.txns[x]) && TimeOf(s, x); }
    forall x, y | x in s'.txns && y in s'.txns && x != y && Live(s'.txns[x]) && Live(s'.txns[y])
      ensures s'.txns[x].core != s'.txns[y].core
    {
      assert TxnRely(s.txns[x], s'.txns[x]) && TxnRely(s.txns[y], s'.txns[y]);
    }
  }

  lemma RelyLogged(s: State, s': State)
    requires s'.tk == s.tk && s'.log == s.log && s'.txns.Keys == s.txns.Keys && Logged(s)
    requires forall x :: x in s.txns ==> TxnRely(s.txns[x], s'.txns[x])
    ensures Logged(s')
  {
    forall x | x in s'.txns
      ensures s'.txns[x].serial == s.txns[x].serial && s'.txns[x].pos == s.txns[x].pos
      ensures s'.txns[x].tid == s.txns[x].tid && s'.txns[x].epoch == s.txns[x].epoch
    {
      assert TxnRely(s.txns[x], s'.txns[x]);
    }
  }

  lemma RelyTids(s: State, s': State)
    requires Rely(s, s') && TidsGrow(s)
    ensures TidsGrow(s')
  {
    forall x | x in s'.txns ensures TxnRely(s.txns[x], s'.txns[x]) {}
  }

  lemma RelyCuts(s: State, s': State)
    requires Rely(s, s') && Cuts(s)
    ensures Cuts(s')
  {
    forall x | x in s'.txns ensures s'.txns[x].snapTid == Tid.ComputeReadOnlyTid(s'.txns[x].start + 1, s'.m) {
      assert TxnRely(s.txns[x], s'.txns[x]);
    }
  }

  // ----- reads

  lemma RelyRead(s: State, s': State, t: Txn, t': Txn, r: ReadRec)
    requires s.m >= 1 && TxnRely(t, t') && ReadOf(s, t, r) && HoldsOf(s, r.ptr)
    requires r.ptr in s'.tuples && TupleRely(s, s.tuples[r.ptr], s'.tuples[r.ptr])
    requires HistRely(s, s', s.tuples[r.ptr].key) && Rising(H(s, s.tuples[r.ptr].key))
    ensures ReadOf(s', t', r)
  {
    var u, u' := s.tuples[r.ptr], s'.tuples[r.ptr];
    var h, h' := H(s, u.key), H(s', u.key);
    if |h'| == |h| + 1 {
      assert h'[|h|].tid > r.tid;
      assert forall j :: 0 <= j < |h| ==> h'[j] == h'[..|h|][j] == h[j];
    }
  }

  lemma RelyReads(s: State, s': State)
    requires Rely(s, s') && Reads(s) && Holdings(s) && Histories(s)
    ensures Reads(s')
  {
    forall x, i | x in s'.txns && 0 <= i < |s'.txns[x].readSet| ensures ReadOf(s', s'.txns[x], s'.txns[x].readSet[i]) {
      assert TxnRely(s.txns[x], s'.txns[x]);
      var r := s.txns[x].readSet[i];
      assert ReadOf(s, s.txns[x], r);
      var k := s.tuples[r.ptr].key;
      assert HoldsOf(s, r.ptr) && TupleRely(s, s.tuples[r.ptr], s'.tuples[r.ptr]) && HistRely(s, s', k);
      assert Rising(H(s, k));
      RelyRead(s, s', s.txns[x], s'.txns[x], r);
    }
  }

  // ----- validated reads

  lemma RelyResolved(s: State, s': State, k: Key, j: nat)
    requires s'.log == s.log && j < |s.log| && Resolved(s, k, j)
    requires s'.txns.Keys == s.txns.Keys
    requires s.log[j].txn in s.txns ==> TxnRely(s.txns[s.log[j].txn], s'.txns[s.log[j].txn])
    ensures Resolved(s', k, j)
  {
  }

  lemma RelyValid(s: State, s': State, t: Txn, t': Txn, r: ReadRec)
    requires Rely(s, s') && TxnRely(t, t') && ValidOf(s, t, r)
    ensures ValidOf(s', t', r)
  {
    assert TupleRely(s, s.tuples[r.ptr], s'.tuples[r.ptr]);
    var k := s.tuples[r.ptr].key;
    assert HistRely(s, s', k);
    forall j | 0 <= j < t.pos && j < |s'.log| ensures Resolved(s', k, j) {
      assert Resolved(s, k, j);
      if s.log[j].txn in s.txns { assert TxnRely(s.txns[s.log[j].txn], s'.txns[s.log[j].txn]); }
      RelyResolved(s, s', k, j);
    }
    var h, h' := H(s, k), H(s', k);
    if |h'| == |h| + 1 {
      var v := h'[|h|];
      assert v.pos >= t.pos;
      assert h'[..|h'| - 1] == h;
    }
  }

  lemma RelyValidated(s: State, s': State)
    requires Rely(s, s') && Validated(s)
    ensures Validated(s')
  {
    forall x, i | x in s'.txns && 0 <= i < |s'.txns[x].readSet| && i < Checked(s'.txns[x])
      ensures ValidOf(s', s'.txns[x], s'.txns[x].readSet[i])
    {
      assert TxnRely(s.txns[x], s'.txns[x]);
      assert ValidOf(s, s.txns[x], s.txns[x].readSet[i]);
      RelyValid(s, s', s.txns[x], s'.txns[x], s.txns[x].readSet[i]);
    }
  }

  // ----- snapshots

  /** An epoch still running is beyond every snapshot. */
  lemma RunningEpochBeyond(s: State, t: Txn, e: nat)
    requires s.m >= 1 && t.start <= s.tk.last && e > s.tk.last
    ensures Ro(s, e) >= Limit(s, t)
  {
    Tid.ReadOnlyTickMonotone(t.start + 1, e, s.m);
  }

  lemma RelyEnds(s: State, s': State, k: Key, limit: nat)
    requires s.m >= 1 && s'.m == s.m && H(s', k) == H(s, k) && EndsBelow(s, k, limit)
    ensures EndsBelow(s', k, limit)
  {
  }

  lemma RelyBegins(s: State, s': State, t: Txn, k: Key)
    requires s.m >= 1 && s'.m == s.m && t.start <= s.tk.last && HistRely(s, s', k) && BeginsAbove(s, k, Limit(s, t))
    ensures BeginsAbove(s', k, Limit(s, t))
  {
    var h, h' := H(s, k), H(s', k);
    if |h'| == |h| + 1 {
      RunningEpochBeyond(s, t, h'[|h|].epoch);
      assert forall j :: 0 <= j < |h| ==> h'[j] == h'[..|h|][j] == h[j];
    }
  }

  lemma RelyAlone(s: State, s': State, t: Txn, k: Key)
    requires Rely(s, s') && t.start <= s.tk.last && Alone(s, k, Limit(s, t))
    ensures Alone(s', k, Limit(s, t))
  {
    forall k0: Key | k0.name == k.name && k0.gen < k.gen ensures k0 in s'.shut && EndsBelow(s', k0, Limit(s, t)) {
      assert k0 in s.shut && EndsBelow(s, k0, Limit(s, t));
      RelyEnds(s, s', k0, Limit(s, t));
    }
    forall k1: Key | k1.name == k.name && k1.gen > k.gen ensures BeginsAbove(s', k1, Limit(s, t)) {
      assert BeginsAbove(s, k1, Limit(s, t)) && HistRely(s, s', k1);
      RelyBegins(s, s', t, k1);
    }
  }

  lemma RelyRest(s: State, s': State, t: Txn, p: Ptr)
    requires s.m >= 1 && s'.m == s.m && t.start <= s.tk.last && p in s.tuples && p in s'.tuples
    requires AboveRest(s, p, Limit(s, t)) && TupleRely(s, s.tuples[p], s'.tuples[p]) && DraftRely(s, s', p)
    requires HistRely(s, s', s.tuples[p].key)
    ensures AboveRest(s', p, Limit(s, t))
  {
    var u, u' := s.tuples[p], s'.tuples[p];
    var h, h' := H(s, u.key), H(s', u.key);
    if |h'| == |h| + 1 {
      RunningEpochBeyond(s, t, h'[|h|].epoch);
      assert forall j :: 0 <= j < |h| ==> h'[j] == h'[..|h|][j] == h[j];
    }
    if u'.draft && u'.pos < |h'| && h'[u'.pos].epoch > s.tk.last {
      RunningEpochBeyond(s, t, h'[u'.pos].epoch);
    }
  }

  lemma RelyResult(s: State, s': State, t: Txn, t': Txn, r: Result)
    requires s.m >= 1 && s'.m == s.m && t'.start == t.start && t.start <= s.tk.last
    requires HistRely(s, s', r.key) && ResultOf(s, t, r) && Alone(s', r.key, Limit(s, t))
    ensures ResultOf(s', t', r)
  {
    var h, h' := H(s, r.key), H(s', r.key);
    if |h'| == |h| + 1 {
      RunningEpochBeyond(s, t, h'[|h|].epoch);
      assert h'[..|h'| - 1] == h;
    }
  }

  lemma RelySnapshots(s: State, s': State)
    requires Rely(s, s') && Snapshots(s)
    requires forall x :: x in s.txns ==> TimeOf(s, x)
    ensures Snapshots(s')
  {
    forall x | x in s'.txns && s'.txns[x].snapshot && s'.txns[x].cursor.Some? ensures CursorOf(s', s'.txns[x]) {
      assert TxnRely(s.txns[x], s'.txns[x]) && TimeOf(s, x) && CursorOf(s, s.txns[x]);
      var p := s.txns[x].cursor.value;
      assert TupleRely(s, s.tuples[p], s'.tuples[p]) && DraftRely(s, s', p) && HistRely(s, s', s.tuples[p].key);
      RelyAlone(s, s', s.txns[x], s.tuples[p].key);
      RelyRest(s, s', s.txns[x], p);
      assert Limit(s', s'.txns[x]) == Limit(s, s.txns[x]);
    }
    forall x, i | x in s'.txns && 0 <= i < |s'.txns[x].results|
      ensures ResultOf(s', s'.txns[x], s'.txns[x].results[i])
    {
      assert TxnRely(s.txns[x], s'.txns[x]) && TimeOf(s, x) && ResultOf(s, s.txns[x], s.txns[x].results[i]);
      assert HistRely(s, s', s.txns[x].results[i].key);
      RelyAlone(s, s', s.txns[x], s.txns[x].results[i].key);
      RelyResult(s, s', s.txns[x], s'.txns[x], s.txns[x].results[i]);
    }
  }

  // ----- pointers

  /** Transactions gain no pointers, except to fresh tuples nothing supersedes yet. */
  ghost predicate NoNewPtrs(s: State, s': State) {
    forall x, p :: x in s.txns && x in s'.txns && p in Ptrs(s'.txns[x]) ==>
      p in Ptrs(s.txns[x]) || (p in s'.tuples && s'.tuples[p].sup == None && p !in s'.gone)
  }

  lemma RelyShield(s: State, s': State, t: Txn, t': Txn, p: Ptr)
    requires s.m >= 1 && s'.m == s.m && t'.start == t.start && t.start <= s.tk.last
    requires t'.tick == t.tick <= s.tk.current
    requires Shielded(s, t, p) && p in s'.tuples && TupleRely(s, s.tuples[p], s'.tuples[p])
    requires p in s'.gone ==> GoneRely(s, s', p)
    ensures Shielded(s', t', p)
  {
    if s'.tuples[p].sup.Some? && s'.tuples[p].sup.value > s.tk.last {
      RunningEpochBeyond(s, t, s'.tuples[p].sup.value);
    }
  }

  lemma RelyShields(s: State, s': State)
    requires Rely(s, s') && NoNewPtrs(s, s') && Shields(s) && Base(s)
    requires forall x :: x in s.txns ==> TimeOf(s, x)
    ensures Shields(s')
  {
    forall x, p | x in s'.txns && Live(s'.txns[x]) && p in Ptrs(s'.txns[x]) ensures Shielded(s', s'.txns[x], p) {
      assert TxnRely(s.txns[x], s'.txns[x]) && TimeOf(s, x);
      if p in Ptrs(s.txns[x]) {
        assert Shielded(s, s.txns[x], p) && TupleRely(s, s.tuples[p], s'.tuples[p]);
        Ticker.OpenGuardBounds(s.tk, s.txns[x].core);
        RelyShield(s, s', s.txns[x], s'.txns[x], p);
      }
    }
  }

  lemma RelyPointers(s: State, s': State)
    requires Rely(s, s') && Pointers(s)
    requires forall x :: x in s.txns ==>
      s'.txns[x].puts == s.txns[x].puts && s'.txns[x].inserts <= s.txns[x].inserts + s'.tuples.Keys
    ensures Pointers(s')
  {
    forall x | x in s'.txns ensures PtrsOf(s', s'.txns[x]) {
      assert TxnRely(s.txns[x], s'.txns[x]) && PtrsOf(s, s.txns[x]);
    }
  }
}
