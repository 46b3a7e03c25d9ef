/** What the engine guarantees in every state of every run. */
module EngineTheorems {
  import opened Engine
  import opened EngineInv
  import opened EngineRuns
  import F = EngineFlags
  import R = EngineReads
  import S = EngineSerialize
  import T = EngineTree
  import Tid
  import Ticker

  // ----- serializability

  /** A committed (or committing) read-write transaction read, for every record it read, what the decided transactions
      before it in the log leave there, the last of which gave the record the identifier it saw: if and only if none
      of them inserted the name anew behind a deletion marker it read. If one did, it read the deletion. */
  lemma Serializable(r: seq<State>, n: nat, x: nat, i: nat)
    requires Run(r) && n < |r| && x in r[n].txns
    requires var t := r[n].txns[x]; !t.snapshot && Decided(t) && i < |t.readSet|
    ensures var s, t := r[n], r[n].txns[x];
            && t.pos < |s.log| && s.log[t.pos].txn == x && t.readSet[i].ptr in s.tuples
            && var k := s.tuples[t.readSet[i].ptr].key;
               var w := LastWriter(s, t.pos, k.name);
               && w.Some?
               && (s.log[w.value].tid == t.readSet[i].tid <==> !Reinserted(s, t.pos, k))
               && (!Reinserted(s, t.pos, k) ==> Replay(s, t.pos, k.name) == Some(t.readSet[i].value))
               && (Reinserted(s, t.pos, k) ==> t.readSet[i].value == "")
  {
    RunSound(r, n);
    ReadIsSerial(r[n], x, i);
  }

  /** A decided transaction's reads were checked. */
  lemma DecidedIsChecked(s: State, x: nat, i: nat)
    requires Sound(s) && x in s.txns && !s.txns[x].snapshot && Decided(s.txns[x]) && i < |s.txns[x].readSet|
    ensures var t := s.txns[x];
            && t.serial && t.pos < |s.log| && s.log[t.pos].txn == x && s.log[t.pos].epoch == t.epoch
            && ValidOf(s, t, t.readSet[i])
  {
    ThePhases(s);
    TheLogged(s);
    TheValidated(s);
    assert PhaseOf(s.txns[x]);
  }

  lemma ReadIsSerial(s: State, x: nat, i: nat)
    requires Sound(s) && x in s.txns && !s.txns[x].snapshot && Decided(s.txns[x]) && i < |s.txns[x].readSet|
    ensures var t := s.txns[x];
            && t.pos < |s.log| && s.log[t.pos].txn == x && t.readSet[i].ptr in s.tuples
            && var k := s.tuples[t.readSet[i].ptr].key;
               var w := LastWriter(s, t.pos, k.name);
               && w.Some?
               && (s.log[w.value].tid == t.readSet[i].tid <==> !Reinserted(s, t.pos, k))
               && (!Reinserted(s, t.pos, k) ==> Replay(s, t.pos, k.name) == Some(t.readSet[i].value))
               && (Reinserted(s, t.pos, k) ==> t.readSet[i].value == "")
  {
    var t := s.txns[x];
    DecidedIsChecked(s, x, i);
    var k := s.tuples[t.readSet[i].ptr].key;
    var at := LastInIsIn(H(s, k), t.pos);
    VersionIsLogged(s, k, at);
    if Reinserted(s, t.pos, k) {
      NameReinserted(s, t.pos, k);
      TidsDiffer(s, H(s, k)[at].pos, LastWriter(s, t.pos, k.name).value);
    } else {
      NameLast(s, t.pos, k);
    }
  }

  lemma TidsDiffer(s: State, i: nat, j: nat)
    requires Sound(s) && i < j < |s.log| && s.log[i].writes != map[] && s.log[j].writes != map[]
    ensures s.log[i].tid != s.log[j].tid
  {
    TheTidsGrow(s);
  }

  /** A check made while the tree leads to the tuple read, or while no cleaner has just removed its key, is safe: the
      name has not been inserted anew, and whatever is decided later, the read is what the replay leaves there. */
  lemma CheckedInTree(r: seq<State>, m: nat, n: nat, x: nat)
    requires Run(r) && m < n < |r| && Validate(r[m], r[m + 1], x)
    requires forall c :: 0 <= c < |r[m].clean| ==>
      r[m].clean[c] != Removed(r[m].txns[x].readSet[r[m].txns[x].phase.done].ptr)
    requires x in r[n].txns && !r[n].txns[x].snapshot && Decided(r[n].txns[x])
    ensures var i := r[m].txns[x].phase.done;
            var s, t := r[n], r[n].txns[x];
            && i < |t.readSet| && t.readSet[i] == r[m].txns[x].readSet[i]
            && t.pos < |s.log| && t.readSet[i].ptr in s.tuples
            && Replay(s, t.pos, s.tuples[t.readSet[i].ptr].key.name) == Some(t.readSet[i].value)
  {
    var i := r[m].txns[x].phase.done;
    var p := r[m].txns[x].readSet[i].ptr;
    RunSound(r, m);
    RunSound(r, n);
    ThePhases(r[m]);
    TheLogged(r[m]);
    assert PhaseOf(r[m].txns[x]);
    AdvanceFar(r, m, n, x, p);
    CheckedIsNewest(r[m], p);
    NeverAnew(r[m], r[n], r[n].txns[x].pos, r[m].tuples[p].key);
    ReadIsSerial(r[n], x, i);
  }

  /** The log entries before a position are fixed, and so are the keys they write. */
  lemma NeverAnew(s: State, s': State, n: nat, k: Key)
    requires Sound(s) && n <= |s.log| <= |s'.log| && s'.log[..|s.log|] == s.log
    requires forall k' :: k' in s.born && k'.name == k.name ==> k'.gen <= k.gen
    ensures !Reinserted(s', n, k)
  {
    forall j, k' | 0 <= j < n && k' in s'.log[j].writes && k'.name == k.name ensures k'.gen <= k.gen {
      assert s'.log[..|s.log|][j] == s'.log[j];
      WrittenIsBorn(s, j, k');
    }
  }

  /** No later key of the name has been inserted while the tuple that passes the check is in the tree. */
  lemma CheckedIsNewest(s: State, p: Ptr)
    requires Sound(s) && p in s.tuples && s.tuples[p].latest
    requires forall c :: 0 <= c < |s.clean| ==> s.clean[c] != Removed(p)
    ensures s.tuples[p].key.name in s.tree && s.tree[s.tuples[p].key.name] == p
    ensures forall k :: k in s.born && k.name == s.tuples[p].key.name ==> k.gen <= s.tuples[p].key.gen
  {
    TheIndexed(s);
    TheSweeps(s);
    TheGrown(s);
    var k := s.tuples[p].key;
    assert Planted(s, k);
  }

  /** What a transaction in the log has read and where it stands there never change. */
  lemma {:induction false} AdvanceFar(r: seq<State>, i: nat, j: nat, x: nat, p: Ptr)
    requires Run(r) && i <= j < |r| && x in r[i].txns && r[i].txns[x].serial && p in r[i].tuples
    ensures |r[i].log| <= |r[j].log| && r[j].log[..|r[i].log|] == r[i].log
    ensures x in r[j].txns && r[j].txns[x].serial && r[j].txns[x].pos == r[i].txns[x].pos
    ensures r[j].txns[x].readSet == r[i].txns[x].readSet && p in r[j].tuples && r[j].tuples[p].key == r[i].tuples[p].key
  {
    if i < j {
      AdvanceFar(r, i, j - 1, x, p);
      LinkAdvances(r, j - 1);
      assert TxnKept(r[j - 1].txns[x], r[j].txns[x]);
      assert r[j].log[..|r[i].log|] == r[j].log[..|r[j - 1].log|][..|r[i].log|];
    }
  }

  /** Whatever overwrites a validated read comes later in the serial order: another write of the same key does, and,
      unless the name was inserted anew before, so does every write of a later key of the name. */
  lemma OverwritersComeLater(r: seq<State>, n: nat, x: nat, i: nat, k': Key, j: nat)
    requires Run(r) && n < |r| && x in r[n].txns
    requires var t := r[n].txns[x]; !t.snapshot && Decided(t) && i < |t.readSet| && t.readSet[i].ptr in r[n].tuples
    requires var s, rec := r[n], r[n].txns[x].readSet[i];
             var k := s.tuples[rec.ptr].key;
             k'.name == k.name && j < |H(s, k')| && ((k' == k && H(s, k')[j].tid > rec.tid) || k'.gen > k.gen)
    ensures var s, t := r[n], r[n].txns[x];
            var k, v := s.tuples[t.readSet[i].ptr].key, H(s, k')[j];
            && t.pos <= |s.log|
            && (k' == k || !Reinserted(s, t.pos, k) ==> t.pos <= v.pos && t.epoch <= v.epoch)
  {
    RunSound(r, n);
    var s, t := r[n], r[n].txns[x];
    DecidedIsChecked(s, x, i);
    var k := s.tuples[t.readSet[i].ptr].key;
    VersionIsLogged(s, k', j);
    if H(s, k')[j].pos < t.pos && k' == k {
      TheHistories(s);
      LastInIsLast(H(s, k), t.pos, j);
      assert false;
    }
    TheLogged(s);
  }

  /** An unlocked record in the tree holds what all decided transactions, run serially, leave under its name. */
  lemma TreeHoldsReplay(r: seq<State>, n: nat, name: Name)
    requires Run(r) && n < |r| && name in r[n].tree
    ensures r[n].tree[name] in r[n].tuples
    ensures var u := r[n].tuples[r[n].tree[name]];
            u.owner == None ==> u.version != Tid.MAX_TID && Replay(r[n], |r[n].log|, name) == Some(u.value)
  {
    RunSound(r, n);
    var s := r[n];
    TheGrown(s);
    var p := s.tree[name];
    if s.tuples[p].owner == None {
      var k := s.tuples[p].key;
      TheIndexed(s);
      UnlockedIsSettled(s, k, p);
      UnlockedIsLast(s, k, p);
      NewestStays(s, name);
      NameLast(s, |s.log|, k);
    }
  }

  /** The key that is in the tree is its name's last. */
  lemma NewestStays(s: State, name: Name)
    requires Sound(s) && name in s.tree && s.tree[name] in s.tuples
    ensures !Reinserted(s, |s.log|, s.tuples[s.tree[name]].key)
  {
    TheGrown(s);
    TheAges(s);
  }

  /** A name that is not in the tree was never written, or was last deleted. */
  lemma MissingIsAbsent(r: seq<State>, n: nat, name: Name)
    requires Run(r) && n < |r| && name !in r[n].tree
    ensures OrAbsent(Replay(r[n], |r[n].log|, name)) == ""
  {
    RunSound(r, n);
    var s := r[n];
    forall j, k | 0 <= j < |s.log| && DecidedAt(s, j) && k in s.log[j].writes && k.name == name
      ensures k in s.shut && forall i :: 0 <= i < |H(s, k)| ==> H(s, k)[i].pos < |s.log|
    {
      WrittenIsBorn(s, j, k);
      TheGrown(s);
      assert Planted(s, k);
      forall i | 0 <= i < |H(s, k)| ensures H(s, k)[i].pos < |s.log| { VersionIsLogged(s, k, i); }
    }
    LastIsDeleted(s, |s.log|, name);
  }

  lemma UnlockedIsSettled(s: State, k: Key, p: Ptr)
    requires Sound(s) && k in s.index && s.index[k] == p && p in s.tuples && s.tuples[p].owner == None
    ensures Settled(s, k, |s.log|)
  {
    TheLogged(s);
    TheWork(s);
    TheLocks(s);
    ThePhases(s);
    forall j | 0 <= j < |s.log| ensures Resolved(s, k, j) {
      var x := s.log[j].txn;
      assert WorkOf(s, x) && PhaseOf(s.txns[x]) && p !in s.txns[x].held;
      if k in s.log[j].writes && (Decided(s.txns[x]) || s.txns[x].phase.Validating?) {
        UnheldIsApplied(s, k, x);
      }
    }
  }

  lemma UnlockedIsLast(s: State, k: Key, p: Ptr)
    requires Sound(s) && k in s.index && s.index[k] == p && p in s.tuples && s.tuples[p].owner == None
    ensures s.tuples[p].version != Tid.MAX_TID
    ensures LastIn(H(s, k), |s.log|).Some? && LastIn(H(s, k), |s.log|).value.value == s.tuples[p].value
  {
    TheIndexed(s);
    TheTentative(s);
    TheHoldings(s);
    assert HoldsOf(s, p);
    var h := H(s, k);
    VersionIsLogged(s, k, |h| - 1);
    LastInAt(h, |s.log|, |h| - 1);
  }

  /** A committed transaction's writes are all in place; an aborted one leaves nothing behind. */
  lemma AllOrNothing(r: seq<State>, n: nat, x: nat, k: Key)
    requires Run(r) && n < |r| && x in r[n].txns && r[n].txns[x].serial
    ensures var s, t := r[n], r[n].txns[x];
            && t.pos < |s.log|
            && (t.phase == Committed && k in s.log[t.pos].writes ==>
                  exists i :: 0 <= i < |H(s, k)| && H(s, k)[i] == Ver(t.pos, t.tid, t.epoch, s.log[t.pos].writes[k]))
            && (t.phase == Aborted ==> forall i :: 0 <= i < |H(s, k)| ==> H(s, k)[i].pos != t.pos)
  {
    RunSound(r, n);
    var s, t := r[n], r[n].txns[x];
    TheWork(s);
    TheLogged(s);
    TheHistories(s);
    assert WorkOf(s, x);
    if t.phase == Committed && k in s.log[t.pos].writes {
      assert VerOf(s, k, H(s, k)[t.applied[k]]);
    }
    if t.phase == Aborted {
      forall i | 0 <= i < |H(s, k)| ensures H(s, k)[i].pos != t.pos {
        assert VerOf(s, k, H(s, k)[i]);
      }
    }
  }

  // ----- commit identifiers

  /** No two writing transactions ever get the same identifier, and it carries the epoch of the commit. */
  lemma IdentifiersAreUnique(r: seq<State>, n: nat, i: nat, j: nat)
    requires Run(r) && n < |r| && i < j < |r[n].log|
    requires r[n].log[i].writes != map[] && r[n].log[j].writes != map[]
    ensures r[n].log[i].tid != r[n].log[j].tid
    ensures Tid.EpochId(r[n].log[i].tid) == r[n].log[i].epoch <= r[n].log[j].epoch == Tid.EpochId(r[n].log[j].tid)
  {
    RunSound(r, n);
    TheTidsGrow(r[n]);
    TheLogged(r[n]);
  }

  /** A new identifier exceeds all the transaction read and all it is about to overwrite. */
  lemma IdentifierExceeds(r: seq<State>, n: nat, x: nat, tid: nat)
    requires Run(r) && n + 1 < |r| && Serialize(r[n], r[n + 1], x, tid) && HasWrites(r[n].txns[x])
    ensures var s, t := r[n], r[n].txns[x];
            && Tid.CoreId(tid) == t.core && Tid.EpochId(tid) == s.tk.current
            && Tid.MIN_TID < tid < Tid.MAX_TID && s.lastTid[t.core] < tid
            && (forall i :: 0 <= i < |t.readSet| ==> t.readSet[i].tid < tid)
            && (forall p :: p in t.puts && p !in t.inserts && p in s.tuples ==> s.tuples[p].version < tid)
  {
    RunSound(r, n);
    var s, t := r[n], r[n].txns[x];
    Open(s);
    S.TidIsGood(s, r[n + 1], x, tid);
    forall i | 0 <= i < |t.readSet| ensures t.readSet[i].tid < tid {
      assert t.readSet[i] in t.readSet;
      assert t.readSet[i].tid in SeenTids(s, t);
    }
    forall p | p in t.puts && p !in t.inserts && p in s.tuples ensures s.tuples[p].version < tid {
      assert s.tuples[p].version in SeenTids(s, t);
    }
  }

  // ----- deadlock and lock balance

  datatype Agent = Transaction(x: nat) | Cleaner(c: nat)

  /** The lock x has to take next, or the tuple its stable read spins on. */
  ghost predicate Wants(s: State, x: nat, p: Ptr) {
    && p in s.tuples && s.tuples[p].version != Tid.MAX_TID
    && ((AtLock(s, x) && LockTarget(s, x) == p) || (IsRunning(s, x) && s.txns[x].cursor == Some(p)))
  }

  /** A cleaner at rest whose next entry is a marker has to lock it. */
  predicate ToClean(s: State, c: nat, p: Ptr) {
    Due(s, c) && s.queue[c][0].marker && s.queue[c][0].ptr == p
  }

  /** The first can make no step until the second lets go of p. A cleaner's lock is without write intent, so a stable
      read does not wait for it. */
  ghost predicate WaitsFor(s: State, a: Agent, b: Agent, p: Ptr) {
    && (match a
        case Transaction(x) => Wants(s, x, p) && (b.Cleaner? ==> AtLock(s, x))
        case Cleaner(c) => ToClean(s, c, p))
    && (match b
        case Transaction(y) => p in s.tuples && s.tuples[p].owner == Some(y)
        case Cleaner(d) => d < |s.clean| && s.clean[d] != Resting && s.clean[d].ptr == p)
  }

  ghost predicate Waits(s: State, a: Agent, b: Agent) {
    exists p :: WaitsFor(s, a, b, p)
  }

  ghost predicate WaitChain(s: State, c: seq<Agent>) {
    |c| >= 2 && forall i :: 0 <= i < |c| - 1 ==> Waits(s, c[i], c[i + 1])
  }

  /** Whoever is waited for and waits is a transaction taking locks, and wants a higher address than it is waited for.
      */
  lemma WaitersAscend(s: State, a: Agent, b: Agent, c: Agent)
    requires Sound(s) && Waits(s, a, b) && Waits(s, b, c)
    ensures b.Transaction? && AtLock(s, b.x)
    ensures a.Transaction? && AtLock(s, a.x) ==> LockTarget(s, a.x) < LockTarget(s, b.x)
  {
    var p :| WaitsFor(s, a, b, p);
    var q :| WaitsFor(s, b, c, q);
    assert b.Transaction?;
    if a.Cleaner? {
      TheGarbage(s);
      assert ItemOf(s, s.queue[a.c][0]);
    }
    OwnerTakesLocks(s, p, b.x, q);
    if a.Transaction? && AtLock(s, a.x) { ThePhases(s); }
  }

  /** A transaction that holds a committed tuple and wants another is taking locks, and the tuple is among those
      taken. */
  lemma OwnerTakesLocks(s: State, p: Ptr, y: nat, q: Ptr)
    requires Sound(s) && p in s.tuples && s.tuples[p].version != Tid.MAX_TID && s.tuples[p].owner == Some(y)
    requires Wants(s, y, q)
    ensures AtLock(s, y) && q == LockTarget(s, y) && p < q
  {
    TheLocks(s);
    ThePhases(s);
    TheTentative(s);
    var t := s.txns[y];
    assert p in t.held && PhaseOf(t);
    var d := t.phase.done;
    assert p in t.order[..d];
  }

  lemma {:induction false} ChainAscends(s: State, c: seq<Agent>, i: nat, j: nat)
    requires Sound(s) && WaitChain(s, c) && 0 < i <= j < |c| - 1
    ensures c[i].Transaction? && c[j].Transaction? && AtLock(s, c[i].x) && AtLock(s, c[j].x)
    ensures i < j ==> LockTarget(s, c[i].x) < LockTarget(s, c[j].x)
  {
    WaitersAscend(s, c[j - 1], c[j], c[j + 1]);
    if i < j {
      ChainAscends(s, c, i, j - 1);
    }
  }

  /** No cycle of transactions and cleaners waiting for one another is ever reached. */
  lemma NoDeadlock(r: seq<State>, n: nat, c: seq<Agent>)
    requires Run(r) && n < |r| && WaitChain(r[n], c)
    ensures c[0] != c[|c| - 1]
  {
    RunSound(r, n);
    var s := r[n];
    if c[0] == c[|c| - 1] {
      var d := c + c[1..] + c[1..];
      forall i | 0 <= i < |d| - 1 ensures Waits(s, d[i], d[i + 1]) {
        var l := |c| - 1;
        var at := if i < l then i else if i < 2 * l then i - l else i - 2 * l;
        assert d[i] == c[at] && d[i + 1] == c[at + 1];
      }
      ChainAscends(s, d, 1, |c|);
      assert false;
    }
  }

  /** A finished transaction holds no lock, and one that aborted has left nothing in the tree. */
  lemma LocksAreReturned(r: seq<State>, n: nat, x: nat, p: Ptr)
    requires Run(r) && n < |r| && x in r[n].txns && !Live(r[n].txns[x]) && p in r[n].tuples
    ensures r[n].tuples[p].owner != Some(x)
    ensures r[n].txns[x].phase == Aborted && p in r[n].txns[x].inserts ==>
      p !in r[n].tree.Values && p !in r[n].index.Values
  {
    RunSound(r, n);
    var s := r[n];
    TheLocks(s);
    ThePhases(s);
    TheTentative(s);
    TheIndexed(s);
    TheGrown(s);
    assert PhaseOf(s.txns[x]);
    if p in s.txns[x].inserts {
      assert InsertOf(s, x, p);
    }
  }

  /** The unlock loops, which go by the marks of the write entries, release only locks their transaction holds, and
      the abort loop takes only its own inserts, which are still in the tree, out of it. */
  lemma OnlyOwnLocks(r: seq<State>, n: nat, x: nat, p: Ptr)
    requires Run(r) && n + 1 < |r| && (Unlock(r[n], r[n + 1], x, p) || Unlink(r[n], r[n + 1], x, p))
    ensures r[n].tuples[p].owner == Some(x) && p in r[n].txns[x].held
    ensures Unlock(r[n], r[n + 1], x, p) ==> p !in r[n + 1].txns[x].held && p !in r[n + 1].txns[x].marks
    ensures Unlink(r[n], r[n + 1], x, p) ==>
      p in r[n].txns[x].inserts && r[n].tuples[p].key.name in r[n].tree && r[n].tree[r[n].tuples[p].key.name] == p
  {
    RunSound(r, n);
    var s := r[n];
    ThePhases(s);
    TheLocks(s);
    assert PhaseOf(s.txns[x]);
    F.MarkIsHeld(s, x, p);
    if Unlink(s, r[n + 1], x, p) {
      TheTentative(s);
      assert InsertOf(s, x, p);
      TheIndexed(s);
      TheGrown(s);
      TheSweeps(s);
      T.OwnedInTree(s, p);
    }
  }

  // ----- garbage collection

  /** No tuple that can still be reached, through the tree, as the latest of its key, or through the sets and the
      cursor of a running transaction, is ever freed, be it by a cleaner or by read-copy-update. */
  lemma NothingReachableIsFreed(r: seq<State>, n: nat, x: nat, p: Ptr)
    requires Run(r) && n < |r|
    requires p in r[n].tree.Values || p in r[n].index.Values
      || (x in r[n].txns && Live(r[n].txns[x]) && p in Ptrs(r[n].txns[x]))
    ensures p in r[n].tuples && !r[n].tuples[p].freed
  {
    RunSound(r, n);
    var s := r[n];
    if p in s.tree.Values || p in s.index.Values {
      TheIndexed(s);
      TheGrown(s);
      TheGarbage(s);
      assert GarbageOf(s, p);
    } else {
      HeldIsNotFreed(s, x, p);
    }
  }

  lemma HeldIsNotFreed(s: State, x: nat, p: Ptr)
    requires Sound(s) && x in s.txns && Live(s.txns[x]) && p in Ptrs(s.txns[x])
    ensures p in s.tuples && !s.tuples[p].freed
  {
    TheGarbage(s);
    TheShields(s);
    TheTimes(s);
    TheBase(s);
    assert TimeOf(s, x) && Shielded(s, s.txns[x], p) && GarbageOf(s, p);
    Ticker.OpenGuardBounds(s.tk, s.txns[x].core);
    Tid.ReadOnlyTickMonotone(s.tk.last, s.txns[x].start + 1, s.m);
  }

  /** No tuple is freed twice. */
  lemma FreedOnce(r: seq<State>, n: nat, c: nat)
    requires Run(r) && n + 1 < |r| && (GcFree(r[n], r[n + 1], c) || RcuRun(r[n], r[n + 1], c))
    ensures GcFree(r[n], r[n + 1], c) ==> !r[n].tuples[r[n].queue[c][0].ptr].freed
    ensures RcuRun(r[n], r[n + 1], c) ==> !r[n].tuples[r[n].rcu[c][0].ptr].freed
  {
    RunSound(r, n);
    var s := r[n];
    TheQueues(s);
    if GcFree(s, r[n + 1], c) { assert QueuedOf(s, s.queue[c][0].ptr, c, 0); }
    if RcuRun(s, r[n + 1], c) { assert HandedOf(s, s.rcu[c][0].ptr, c, 0); }
  }

  // ----- snapshots

  /** How many log entries have an epoch below b. */
  function Cut(log: seq<Entry>, b: nat): (n: nat)
    ensures n <= |log|
  {
    if log == [] then 0
    else if log[|log| - 1].epoch < b then |log|
    else Cut(log[..|log| - 1], b)
  }

  /** The entries with an epoch below b are a prefix of the log. */
  lemma {:induction false} CutIsPrefix(log: seq<Entry>, b: nat, j: nat)
    requires forall i, j :: 0 <= i < j < |log| ==> log[i].epoch <= log[j].epoch
    requires j < |log|
    ensures log[j].epoch < b <==> j < Cut(log, b)
    decreases |log|
  {
    if log[|log| - 1].epoch >= b && j < |log| - 1 {
      CutIsPrefix(log[..|log| - 1], b, j);
    }
  }

  /** The first epoch a snapshot transaction does not see. */
  function BoundaryOf(s: State, x: nat): nat
    requires s.m >= 1 && x in s.txns
  {
    Tid.Boundary(s.txns[x].start + 1, s.m)
  }

  lemma {:induction false} BelowIsLastIn(h: seq<Ver>, m: nat, limit: nat, n: nat)
    requires m >= 1 && forall i :: 0 <= i < |h| ==> (Tid.ToReadOnlyTick(h[i].epoch, m) < limit <==> h[i].pos < n)
    ensures Below(h, m, limit) == (if LastIn(h, n).Some? then LastIn(h, n).value.value else "")
    decreases |h|
  {
    if h != [] && h[|h| - 1].pos >= n {
      BelowIsLastIn(h[..|h| - 1], m, limit, n);
    }
  }

  /** Below a running or finished snapshot's boundary, every logged transaction is already over. */
  lemma BelowBoundaryIsOver(s: State, x: nat, j: nat)
    requires Sound(s) && s.m >= 1 && x in s.txns && j < |s.log| && s.log[j].epoch < BoundaryOf(s, x)
    ensures s.log[j].txn in s.txns && !Live(s.txns[s.log[j].txn])
  {
    TheBase(s);
    TheLogged(s);
    TheTimes(s);
    var y := s.log[j].txn;
    assert TimeOf(s, x) && TimeOf(s, y);
    Tid.BelowBoundary(s.log[j].epoch, s.txns[x].start + 1, s.m);
    if Live(s.txns[y]) {
      R.LiveEpochAbove(s, y, x);
    }
  }

  lemma CutIsSettled(s: State, x: nat, k: Key)
    requires Sound(s) && s.m >= 1 && x in s.txns
    ensures Settled(s, k, Cut(s.log, BoundaryOf(s, x)))
  {
    TheLogged(s);
    TheWork(s);
    forall j | 0 <= j < Cut(s.log, BoundaryOf(s, x)) ensures Resolved(s, k, j) {
      CutIsPrefix(s.log, BoundaryOf(s, x), j);
      BelowBoundaryIsOver(s, x, j);
      assert WorkOf(s, s.log[j].txn);
    }
  }

  /** A version is below a snapshot's limit if and only if its writer is in the cut. */
  lemma InCut(s: State, x: nat, k: Key, i: nat)
    requires Sound(s) && s.m >= 1 && x in s.txns && i < |H(s, k)|
    ensures Ro(s, H(s, k)[i].epoch) < Limit(s, s.txns[x]) <==> H(s, k)[i].pos < Cut(s.log, BoundaryOf(s, x))
  {
    VersionIsLogged(s, k, i);
    TheLogged(s);
    CutIsPrefix(s.log, BoundaryOf(s, x), H(s, k)[i].pos);
    Tid.BelowBoundary(H(s, k)[i].epoch, s.txns[x].start + 1, s.m);
  }

  /** A decided transaction in the cut has all its writes in the histories, below the limit. */
  lemma CutWrite(s: State, x: nat, k: Key, j: nat) returns (i: nat)
    requires Sound(s) && s.m >= 1 && x in s.txns && j < Cut(s.log, BoundaryOf(s, x)) && DecidedAt(s, j)
    requires k in s.log[j].writes
    ensures i < |H(s, k)| && H(s, k)[i].pos == j && Ro(s, H(s, k)[i].epoch) < Limit(s, s.txns[x])
  {
    CutIsSettled(s, x, k);
    assert Resolved(s, k, j);
    i := SettledWrite(s, j, k);
    InCut(s, x, k, i);
  }

  /** A key alone at a snapshot's limit has no later key in the cut. */
  lemma AloneIsNewest(s: State, x: nat, k: Key)
    requires Sound(s) && s.m >= 1 && x in s.txns && Alone(s, k, Limit(s, s.txns[x]))
    ensures !Reinserted(s, Cut(s.log, BoundaryOf(s, x)), k)
  {
    var n := Cut(s.log, BoundaryOf(s, x));
    if Reinserted(s, n, k) {
      var j, k' :| 0 <= j < n && DecidedAt(s, j) && k' in s.log[j].writes && k'.name == k.name && k'.gen > k.gen;
      var i := CutWrite(s, x, k', j);
      assert false;
    }
  }

  /** If nothing of the key itself is in the cut, what is there of its name ends in a deletion. */
  lemma AloneIsAbsent(s: State, x: nat, k: Key)
    requires Sound(s) && s.m >= 1 && x in s.txns && Alone(s, k, Limit(s, s.txns[x]))
    requires LastIn(H(s, k), Cut(s.log, BoundaryOf(s, x))) == None
    ensures OrAbsent(Replay(s, Cut(s.log, BoundaryOf(s, x)), k.name)) == ""
  {
    var n := Cut(s.log, BoundaryOf(s, x));
    AloneIsNewest(s, x, k);
    forall j, k0 | 0 <= j < n && DecidedAt(s, j) && k0 in s.log[j].writes && k0.name == k.name
      ensures k0 in s.shut && forall i :: 0 <= i < |H(s, k0)| ==> H(s, k0)[i].pos < n
    {
      var at := CutWrite(s, x, k0, j);
      if k0 == k {
        TheHistories(s);
        LastInIsLast(H(s, k), n, at);
      }
      assert k0.gen < k.gen;
      AllInCut(s, x, k0);
    }
    LastIsDeleted(s, n, k.name);
  }

  /** The whole history of a key that ended below the limit is in the cut. */
  lemma AllInCut(s: State, x: nat, k: Key)
    requires Sound(s) && s.m >= 1 && x in s.txns && EndsBelow(s, k, Limit(s, s.txns[x]))
    ensures forall i :: 0 <= i < |H(s, k)| ==> H(s, k)[i].pos < Cut(s.log, BoundaryOf(s, x))
  {
    if H(s, k) != [] {
      InCut(s, x, k, |H(s, k)| - 1);
      TheHistories(s);
      assert Rising(H(s, k));
    }
  }

  /** What a history leaves below a snapshot's limit is what the cut leaves of the name. */
  lemma BelowIsReplay(s: State, x: nat, k: Key)
    requires Sound(s) && s.m >= 1 && x in s.txns && Alone(s, k, Limit(s, s.txns[x]))
    ensures Below(H(s, k), s.m, Limit(s, s.txns[x])) == OrAbsent(Replay(s, Cut(s.log, BoundaryOf(s, x)), k.name))
  {
    var n := Cut(s.log, BoundaryOf(s, x));
    var h := H(s, k);
    forall i | 0 <= i < |h| ensures Tid.ToReadOnlyTick(h[i].epoch, s.m) < Limit(s, s.txns[x]) <==> h[i].pos < n {
      InCut(s, x, k, i);
    }
    BelowIsLastIn(h, s.m, Limit(s, s.txns[x]), n);
    if LastIn(h, n).Some? {
      CutIsSettled(s, x, k);
      AloneIsNewest(s, x, k);
      NameLast(s, n, k);
    } else {
      AloneIsAbsent(s, x, k);
    }
  }

  lemma {:induction false} ReplayFrame(s: State, s': State, n: nat, name: Name)
    requires n <= |s.log| <= |s'.log|
    requires forall j :: 0 <= j < n ==> s'.log[j] == s.log[j] && (DecidedAt(s, j) <==> DecidedAt(s', j))
    ensures LastWriter(s, n, name) == LastWriter(s', n, name) && Replay(s, n, name) == Replay(s', n, name)
  {
    if n > 0 {
      ReplayFrame(s, s', n - 1, name);
    }
  }

  /** The cut is where the epochs pass the boundary. */
  lemma {:induction false} CutAt(log: seq<Entry>, b: nat, n: nat)
    requires n <= |log|
    requires forall j :: 0 <= j < n ==> log[j].epoch < b
    requires forall j :: n <= j < |log| ==> log[j].epoch >= b
    ensures Cut(log, b) == n
    decreases |log|
  {
    if n < |log| {
      CutAt(log[..|log| - 1], b, n);
    }
  }

  lemma SameSide(s: State, s': State, x: nat, j: nat)
    requires Sound(s) && Advance(s, s') && s.m >= 1 && x in s.txns && j < |s'.log|
    ensures s'.log[j].epoch < BoundaryOf(s, x) <==> j < Cut(s.log, BoundaryOf(s, x))
  {
    if j < |s.log| {
      TheLogged(s);
      CutIsPrefix(s.log, BoundaryOf(s, x), j);
      assert s'.log[..|s.log|][j] == s'.log[j];
    } else {
      TheBase(s);
      TheTimes(s);
      NewEntryAbove(s, s', x);
    }
  }

  lemma SameCut(s: State, s': State, x: nat)
    requires Sound(s) && Advance(s, s') && s.m >= 1 && x in s.txns
    ensures Cut(s'.log, BoundaryOf(s, x)) == Cut(s.log, BoundaryOf(s, x))
  {
    var b := BoundaryOf(s, x);
    var n := Cut(s.log, b);
    forall j | 0 <= j < |s'.log| ensures s'.log[j].epoch < b <==> j < n {
      SameSide(s, s', x, j);
    }
    CutAt(s'.log, b, n);
  }

  lemma FateIsFixed(s: State, s': State, x: nat, j: nat)
    requires Sound(s) && Advance(s, s') && s.m >= 1 && x in s.txns && j < Cut(s.log, BoundaryOf(s, x))
    ensures s'.log[j] == s.log[j] && (DecidedAt(s, j) <==> DecidedAt(s', j))
  {
    TheLogged(s);
    CutIsPrefix(s.log, BoundaryOf(s, x), j);
    BelowBoundaryIsOver(s, x, j);
    var y := s.log[j].txn;
    assert TxnKept(s.txns[y], s'.txns[y]);
    assert s'.log[..|s.log|][j] == s'.log[j];
  }

  /** What is below x's boundary is the same in both states. */
  ghost predicate Frozen(s: State, s': State, x: nat, name: Name) {
    && s.m >= 1 && s'.m == s.m && x in s.txns && x in s'.txns && BoundaryOf(s', x) == BoundaryOf(s, x)
    && var n := Cut(s.log, BoundaryOf(s, x));
       && Cut(s'.log, BoundaryOf(s, x)) == n && s'.log[..n] == s.log[..n]
       && Replay(s', n, name) == Replay(s, n, name)
  }

  /** One step neither adds a transaction below a snapshot's boundary nor changes the fate of one there. */
  lemma StepFreezes(s: State, s': State, x: nat, name: Name)
    requires Sound(s) && Advance(s, s') && s.m >= 1 && x in s.txns
    ensures Frozen(s, s', x, name)
  {
    SameCut(s, s', x);
    var b := BoundaryOf(s, x);
    var n := Cut(s.log, b);
    forall j | 0 <= j < n ensures s'.log[j] == s.log[j] && (DecidedAt(s, j) <==> DecidedAt(s', j)) {
      FateIsFixed(s, s', x, j);
    }
    ReplayFrame(s, s', n, name);
  }

  lemma NewEntryAbove(s: State, s': State, x: nat)
    requires Base(s) && Times(s) && Advance(s, s') && x in s.txns && |s'.log| == |s.log| + 1
    ensures s'.log[|s.log|].epoch >= BoundaryOf(s, x)
  {
    var y := s'.log[|s.log|].txn;
    assert TimeOf(s, x) && TimeOf(s, y);
    Ticker.OpenGuardBounds(s.tk, s.txns[y].core);
    Tid.ReadOnlyTickMonotone(s.txns[x].start + 1, s.tk.current, s.m);
    Tid.BelowBoundary(s.tk.current, s.txns[x].start + 1, s.m);
  }

  lemma LinkAdvances(r: seq<State>, i: nat)
    requires Run(r) && i + 1 < |r|
    ensures Sound(r[i]) && Advance(r[i], r[i + 1])
  {
    RunSound(r, i);
    assert Linked(r, i);
    var a :| Step(r[i], r[i + 1], a);
    StepAdvances(r[i], r[i + 1], a);
  }

  lemma FrozenNow(s: State, x: nat, name: Name)
    requires Sound(s) && x in s.txns
    ensures Frozen(s, s, x, name)
  {
    TheBase(s);
  }

  lemma FrozenThen(s: State, s': State, s'': State, x: nat, name: Name)
    requires Frozen(s, s', x, name) && Frozen(s', s'', x, name)
    ensures Frozen(s, s'', x, name)
  {
  }

  /** From the moment a transaction begins, the committed work below its boundary never changes. */
  lemma {:induction false} SnapshotIsFrozen(r: seq<State>, i: nat, j: nat, x: nat, name: Name)
    requires Run(r) && i <= j < |r| && x in r[i].txns
    ensures Frozen(r[i], r[j], x, name)
  {
    if i == j {
      RunSound(r, i);
      FrozenNow(r[i], x, name);
    } else {
      SnapshotIsFrozen(r, i, j - 1, x, name);
      LinkAdvances(r, j - 1);
      StepFreezes(r[j - 1], r[j], x, name);
      FrozenThen(r[i], r[j - 1], r[j], x, name);
    }
  }

  /** Everything a snapshot transaction ever reads is the state left by exactly the committed transactions
      of epochs below its boundary: a prefix of the serial order, complete when the snapshot began. */
  lemma SnapshotConsistent(r: seq<State>, i: nat, j: nat, x: nat, e: nat)
    requires Run(r) && i <= j < |r| && x in r[i].txns
    requires x in r[j].txns && e < |r[j].txns[x].results|
    ensures r[i].m >= 1
    ensures var res := r[j].txns[x].results[e];
            res.value == OrAbsent(Replay(r[i], Cut(r[i].log, BoundaryOf(r[i], x)), res.key.name))
  {
    var res := r[j].txns[x].results[e];
    SnapshotIsFrozen(r, i, j, x, res.key.name);
    RunSound(r, j);
    TheSnapshots(r[j]);
    assert ResultOf(r[j], r[j].txns[x], res);
    BelowIsReplay(r[j], x, res.key);
  }

  /** Every transaction below the boundary has committed with all its writes in place, or has aborted. */
  lemma SnapshotIsComplete(r: seq<State>, i: nat, x: nat, j: nat)
    requires Run(r) && i < |r| && x in r[i].txns && j < |r[i].log|
    ensures r[i].m >= 1
    ensures j < Cut(r[i].log, BoundaryOf(r[i], x)) <==> r[i].log[j].epoch < BoundaryOf(r[i], x)
    ensures r[i].log[j].epoch < BoundaryOf(r[i], x) ==>
      && r[i].log[j].txn in r[i].txns
      && var t := r[i].txns[r[i].log[j].txn];
         t.phase == Aborted || (t.phase == Committed && t.applied.Keys == r[i].log[j].writes.Keys)
  {
    RunSound(r, i);
    var s := r[i];
    TheBase(s);
    TheLogged(s);
    TheWork(s);
    CutIsPrefix(s.log, BoundaryOf(s, x), j);
    if s.log[j].epoch < BoundaryOf(s, x) {
      BelowBoundaryIsOver(s, x, j);
      assert WorkOf(s, s.log[j].txn);
    }
  }
}
