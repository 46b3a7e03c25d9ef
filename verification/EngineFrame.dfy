/** Frame facts shared by the step proofs. */
module EngineFrame {
  import opened Engine
  import opened EngineInv
  import Tid

  predicate SameRecord(u: Tuple, u': Tuple) {
    u'.key == u.key && u'.version == u.version && u'.latest == u.latest && u'.value == u.value
  }

  /** Nothing y holds changes, in the tuples, in the tree or in the histories. */
  ghost predicate Untouched(s: State, s': State, y: nat) {
    && y in s.txns && y in s'.txns && s'.txns[y] == s.txns[y]
    && s'.log == s.log
    && (forall p :: p in s.txns[y].held ==>
          p in s.tuples && p in s'.tuples && SameRecord(s.tuples[p], s'.tuples[p]))
    && (forall k :: k in s.index && s.index[k] in s.txns[y].held ==>
          k in s'.index && s'.index[k] == s.index[k] && H(s', k) == H(s, k))
    && (forall k :: k in s.txns[y].applied ==> |H(s, k)| <= |H(s', k)| && H(s', k)[..|H(s, k)|] == H(s, k))
  }

  /** One tuple changes, or is added, that y does not hold; no history does. */
  lemma UntouchedBeside(s: State, s': State, p: Ptr, y: nat)
    requires Locks(s) && y in s.txns && y in s'.txns && s'.txns[y] == s.txns[y] && p !in s.txns[y].held
    requires p in s'.tuples && s'.tuples == s.tuples[p := s'.tuples[p]] && s'.log == s.log && s'.hist == s.hist
    requires forall k :: k in s.index && s.index[k] != p ==> k in s'.index && s'.index[k] == s.index[k]
    ensures Untouched(s, s', y)
  {
    forall k ensures H(s', k) == H(s, k) {}
  }

  lemma UntouchedWork(s: State, s': State, y: nat)
    requires Untouched(s, s', y) && WorkOf(s, y) && PhaseOf(s.txns[y])
    ensures WorkOf(s', y)
  {
    var t := s.txns[y];
    if t.serial && (t.phase.Validating? || t.phase == Writing) {
      forall k | k in s.log[t.pos].writes && k !in t.applied ensures PendingOf(s', y, k) { assert PendingOf(s, y, k); }
      forall p | p in t.puts || p in t.inserts ensures AheadOf(s', y, p) { assert AheadOf(s, y, p); }
    }
    if t.serial {
      forall k | k in t.applied ensures t.applied[k] < |H(s', k)| && H(s', k)[t.applied[k]].pos == t.pos {
        assert H(s', k)[..|H(s, k)|][t.applied[k]] == H(s', k)[t.applied[k]];
      }
    }
  }

  /** Histories depend only on the log and on which transactions are decided and what they applied. */
  lemma FrameHistories(s: State, s': State)
    requires Histories(s) && s'.hist == s.hist && s.log <= s'.log
    requires forall x :: x in s.txns ==>
      x in s'.txns && (Decided(s.txns[x]) ==> Decided(s'.txns[x])) && s.txns[x].applied.Keys <= s'.txns[x].applied.Keys
    ensures Histories(s')
  {
    forall k, i | k in s'.hist && 0 <= i < |s'.hist[k]| ensures VerOf(s', k, s'.hist[k][i]) {
      assert VerOf(s, k, s.hist[k][i]);
    }
  }

  /** What stands around a key depends on the histories and on what is out of the tree, which only grows. */
  lemma AloneFrame(s: State, s': State, k: Key, limit: nat)
    requires s.m >= 1 && s'.m == s.m && s'.hist == s.hist && s.shut <= s'.shut && Alone(s, k, limit)
    ensures Alone(s', k, limit)
  {
    forall j ensures H(s', j) == H(s, j) {}
    forall k0: Key | k0.name == k.name && k0.gen < k.gen ensures k0 in s'.shut && EndsBelow(s', k0, limit) {
      assert k0 in s.shut && EndsBelow(s, k0, limit);
    }
    forall k1: Key | k1.name == k.name && k1.gen > k.gen ensures BeginsAbove(s', k1, limit) {
      assert BeginsAbove(s, k1, limit);
    }
  }

  /** A key stays closed as long as nothing is written to it. */
  lemma ClosedFrame(s: State, s': State, k: Key)
    requires s.m >= 1 && s'.m == s.m && H(s', k) == H(s, k) && s.tk.last <= s'.tk.last && Closed(s, k)
    ensures Closed(s', k)
  {
    if Dead(s, k) {
      var h := H(s, k);
      Tid.ReadOnlyTickMonotone(s.tk.last, s'.tk.last, s.m);
    }
  }
}
