/** Facts about applying one write, shared by the four ways a write can go. */
module EngineApply {
  import opened Engine
  import opened EngineInv
  import opened EngineFrame
  import opened EngineRely
  import Tid

  // ----- what holds when a write is about to be applied

  /** p is x's tentative insert of k and nothing of k has been committed. */
  ghost predicate InsertReady(s: State, x: nat, p: Ptr) {
    && x in s.txns && p in s.tuples && s.txns[x].phase == Writing && s.txns[x].serial && s.txns[x].pos < |s.log|
    && p in s.txns[x].inserts && p in s.txns[x].held && p !in s.txns[x].written
    && var t, u := s.txns[x], s.tuples[p];
       && u.version == Tid.MAX_TID && u.latest && u.owner == Some(x) && u.key in s.index && s.index[u.key] == p
       && H(s, u.key) == [] && u.key !in t.applied
       && u.key in s.log[t.pos].writes && s.log[t.pos].writes[u.key] == (if p in t.puts then t.puts[p] else u.value)
  }

  lemma InsertIsReady(s: State, x: nat, p: Ptr)
    requires x in s.txns && s.txns[x].phase == Writing && p in s.txns[x].inserts && p in s.tuples
    requires s.tuples[p].version == Tid.MAX_TID
    requires Indexed(s) && Locks(s) && PhaseOf(s.txns[x]) && InsertOf(s, x, p) && HoldsOf(s, p) && WorkOf(s, x)
    ensures InsertReady(s, x, p)
  {
    assert AheadOf(s, x, p);
    assert PendingOf(s, x, s.tuples[p].key);
  }

  /** p is locked by x, latest, and holds the last committed version of its key, or x's own draft of it. */
  ghost predicate PutReady(s: State, x: nat, p: Ptr) {
    && x in s.txns && p in s.tuples && s.txns[x].phase == Writing && s.txns[x].serial && s.txns[x].pos < |s.log|
    && p in s.txns[x].puts && p in s.txns[x].held && p !in s.txns[x].written
    && var t, u := s.txns[x], s.tuples[p];
       && u.version != Tid.MAX_TID && u.version > Tid.MIN_TID && u.latest && u.owner == Some(x) && u.key in s.index
       && s.index[u.key] == p
       && u.pos == |H(s, u.key)| - 1 && H(s, u.key)[u.pos].tid == u.version
       && u.key in s.log[t.pos].writes && s.log[t.pos].writes[u.key] == t.puts[p]
       && (if p in t.inserts then
             u.draft && u.version == t.tid && u.key in t.applied
             && H(s, u.key)[u.pos].value == t.puts[p] && H(s, u.key)[u.pos].epoch == t.epoch
           else
             && !u.draft && u.version < t.tid && u.key !in t.applied && u.value == H(s, u.key)[u.pos].value
             && forall j :: 0 <= j < |H(s, u.key)| ==> H(s, u.key)[j].pos < t.pos)
  }

  lemma PutIsReady(s: State, x: nat, p: Ptr)
    requires AtPut(s, x, p) && p !in s.txns[x].inserts
    requires Indexed(s) && Locks(s) && PhaseOf(s.txns[x]) && HoldsOf(s, p) && WorkOf(s, x)
    ensures PutReady(s, x, p)
  {
    assert AheadOf(s, x, p);
    assert PendingOf(s, x, s.tuples[p].key);
  }

  lemma DraftIsReady(s: State, x: nat, p: Ptr)
    requires AtPut(s, x, p) && p in s.txns[x].inserts
    requires Indexed(s) && Locks(s) && PhaseOf(s.txns[x]) && HoldsOf(s, p) && InsertOf(s, x, p) && WorkOf(s, x)
    requires Logged(s) && Histories(s)
    ensures PutReady(s, x, p)
  {
    var t, u := s.txns[x], s.tuples[p];
    assert AheadOf(s, x, p);
    var h := H(s, u.key);
    var j := t.applied[u.key];
    assert VerOf(s, u.key, h[j]);
    assert h[j].tid == t.tid == h[u.pos].tid;
    assert Rising(h);
    assert j == u.pos;
  }

  // ----- the history of the written key

  ghost predicate Extends(s: State, s': State, x: nat, k: Key) {
    && x in s.txns && x in s'.txns && s.txns[x].pos < |s.log| && k in s.log[s.txns[x].pos].writes
    && s'.hist == s.hist[k := H(s, k)
         + [Ver(s.txns[x].pos, s.txns[x].tid, s.txns[x].epoch, s.log[s.txns[x].pos].writes[k])]]
    && s'.txns[x].applied == s.txns[x].applied[k := |H(s, k)|]
  }

  lemma ExtendsH(s: State, s': State, x: nat, k: Key)
    requires Extends(s, s', x, k)
    ensures H(s', k) == H(s, k) + [Ver(s.txns[x].pos, s.txns[x].tid, s.txns[x].epoch, s.log[s.txns[x].pos].writes[k])]
    ensures H(s', k)[..|H(s, k)|] == H(s, k)
    ensures forall j :: j != k ==> H(s', j) == H(s, j)
  {
  }

  /** Applying a write extends the history as the rely asks. */
  lemma ExtendsRely(s: State, s': State, x: nat, k: Key)
    requires Extends(s, s', x, k) && k !in s.txns[x].applied && s.txns[x].phase == Writing
    requires s.log[s.txns[x].pos].txn == x && s.txns[x].epoch > s.tk.last && s.txns[x].tid > Tid.MIN_TID
    requires forall j :: 0 <= j < |H(s, k)| ==> H(s, k)[j].tid < s.txns[x].tid
    ensures forall j :: HistRely(s, s', j)
  {
    ExtendsH(s, s', x, k);
    forall j ensures HistRely(s, s', j) {
      if j == k { assert !Resolved(s, k, s.txns[x].pos); }
    }
  }

  lemma ExtendsHistories(s: State, s': State, x: nat, k: Key)
    requires Extends(s, s', x, k) && Histories(s) && s'.log == s.log
    requires s.txns[x].serial && s.log[s.txns[x].pos].txn == x && Decided(s'.txns[x])
    requires s.log[s.txns[x].pos].tid == s.txns[x].tid && s.log[s.txns[x].pos].epoch == s.txns[x].epoch
    requires forall y :: y in s.txns ==>
      y in s'.txns && (Decided(s.txns[y]) ==> Decided(s'.txns[y])) && s.txns[y].applied.Keys <= s'.txns[y].applied.Keys
    requires forall j :: 0 <= j < |H(s, k)| ==> H(s, k)[j].tid < s.txns[x].tid && H(s, k)[j].pos < s.txns[x].pos
    ensures Histories(s')
  {
    ExtendsH(s, s', x, k);
    forall j | j in s'.hist
      ensures Rising(s'.hist[j]) && forall i :: 0 <= i < |s'.hist[j]| ==> VerOf(s', j, s'.hist[j][i])
    {
      forall i | 0 <= i < |s'.hist[j]| ensures VerOf(s', j, s'.hist[j][i]) {
        if i < |H(s, j)| { assert VerOf(s, j, H(s, j)[i]); }
      }
      ExtendsRising(s, s', x, k, j);
    }
  }

  lemma ExtendsRising(s: State, s': State, x: nat, k: Key, j: Key)
    requires Extends(s, s', x, k) && j in s'.hist && Rising(H(s, j))
    requires forall i :: 0 <= i < |H(s, k)| ==> H(s, k)[i].tid < s.txns[x].tid && H(s, k)[i].pos < s.txns[x].pos
    ensures Rising(s'.hist[j])
  {
    if j == k { ExtendsH(s, s', x, k); }
  }

  lemma LastTidBelow(s: State, k: Key, n: nat)
    requires Histories(s) && H(s, k) != [] && H(s, k)[|H(s, k)| - 1].tid < n
    ensures forall j :: 0 <= j < |H(s, k)| ==> H(s, k)[j].tid < n
  {
    assert Rising(H(s, k));
  }

  /** An overwrite in place stays within one read-only tick. */
  lemma OverwriteGroup(s: State, x: nat, p: Ptr)
    requires s.m >= 1 && PutReady(s, x, p) && Logged(s)
    requires VerOf(s, s.tuples[p].key, H(s, s.tuples[p].key)[s.tuples[p].pos])
    requires Tid.CanOverwrite(s.tuples[p].version, s.txns[x].tid, s.m)
    ensures SameGroup(s, H(s, s.tuples[p].key)[s.tuples[p].pos].epoch, s.txns[x].epoch)
  {
    var v := H(s, s.tuples[p].key)[s.tuples[p].pos];
    assert v.epoch == Tid.EpochId(v.tid);
    assert s.txns[x].epoch == Tid.EpochId(s.txns[x].tid);
  }

  /** A draft always counts as overwritable, so it is never spilled in place. */
  lemma DraftKind(s: State, x: nat, p: Ptr)
    requires s.m >= 1 && PutReady(s, x, p) && p in s.txns[x].inserts
    ensures KindOf(s.tuples[p], s.txns[x].tid, s.txns[x].puts[p], s.m) != SpillInPlace
  {
  }
}
