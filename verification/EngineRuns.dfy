/** Runs of the engine, and the serial replay its transactions are compared with. */
module EngineRuns {
  import opened Engine
  import opened EngineInv
  import M = EngineMain

  ghost predicate Run(r: seq<State>) {
    && |r| > 0 && Init(r[0])
    && forall i :: 0 <= i < |r| - 1 ==> Linked(r, i)
  }

  ghost predicate Linked(r: seq<State>, i: nat)
    requires i + 1 < |r|
  {
    exists a {:trigger Step(r[i], r[i + 1], a)} :: Step(r[i], r[i + 1], a)
  }

  /** The invariant holds in every state of every run. */
  lemma {:induction false} RunSound(r: seq<State>, n: nat)
    requires Run(r) && n < |r|
    ensures Sound(r[n])
  {
    if n == 0 {
      M.InitInv(r[0]);
      Close(r[0]);
    } else {
      RunSound(r, n - 1);
      assert Linked(r, n - 1);
      var a :| Step(r[n - 1], r[n], a);
      M.StepKeepsSound(r[n - 1], r[n], a);
    }
  }

  // ----- serial replay

  /** The transaction at log position j is past validation. */
  ghost predicate DecidedAt(s: State, j: nat)
    requires j < |s.log|
  {
    s.log[j].txn in s.txns && Decided(s.txns[s.log[j].txn])
  }

  ghost predicate WritesName(e: Entry, name: Name) {
    exists k :: k in e.writes && k.name == name
  }

  /** The last decided transaction among the first n of the log that writes the name. */
  ghost function LastWriter(s: State, n: nat, name: Name): (j: Option<nat>)
    requires n <= |s.log|
    ensures j.Some? ==> j.value < n && DecidedAt(s, j.value) && WritesName(s.log[j.value], name)
  {
    if n == 0 then None
    else if DecidedAt(s, n - 1) && WritesName(s.log[n - 1], name) then Some(n - 1)
    else LastWriter(s, n - 1, name)
  }

  /** What an entry writes to the name. */
  ghost function NameValue(e: Entry, name: Name): Value
    requires WritesName(e, name)
  {
    var k :| k in e.writes && k.name == name;
    e.writes[k]
  }

  /** What the name holds after the decided transactions among the first n of the log have run, one after another. */
  ghost function Replay(s: State, n: nat, name: Name): Option<Value>
    requires n <= |s.log|
  {
    var j := LastWriter(s, n, name);
    if j == None then None else Some(NameValue(s.log[j.value], name))
  }

  function OrAbsent(v: Option<Value>): Value {
    if v.Some? then v.value else ""
  }

  /** The name has been inserted anew, after k, by a decided transaction among the first n. */
  ghost predicate Reinserted(s: State, n: nat, k: Key)
    requires n <= |s.log|
  {
    exists j, k' :: 0 <= j < n && DecidedAt(s, j) && k' in s.log[j].writes && k'.name == k.name && k'.gen > k.gen
  }

  lemma {:induction false} LastInAt(h: seq<Ver>, n: nat, i: nat)
    requires i < |h| && h[i].pos < n
    requires forall j :: i < j < |h| ==> h[j].pos >= n
    ensures LastIn(h, n) == Some(h[i])
    decreases |h|
  {
    if i < |h| - 1 {
      LastInAt(h[..|h| - 1], n, i);
    }
  }

  lemma {:induction false} LastInIsLast(h: seq<Ver>, n: nat, j: nat)
    requires Rising(h) && j < |h| && h[j].pos < n
    ensures LastIn(h, n).Some? && h[j].tid <= LastIn(h, n).value.tid && h[j].pos <= LastIn(h, n).value.pos
    decreases |h|
  {
    if h[|h| - 1].pos >= n {
      LastInIsLast(h[..|h| - 1], n, j);
    }
  }

  lemma {:induction false} LastInIsIn(h: seq<Ver>, n: nat) returns (i: nat)
    requires LastIn(h, n).Some?
    ensures i < |h| && h[i] == LastIn(h, n).value && h[i].pos < n
    decreases |h|
  {
    if h[|h| - 1].pos < n {
      i := |h| - 1;
    } else {
      i := LastInIsIn(h[..|h| - 1], n);
    }
  }

  lemma {:induction false} LastWriterIs(s: State, n: nat, name: Name, j: nat)
    requires j < n <= |s.log| && DecidedAt(s, j) && WritesName(s.log[j], name)
    requires forall i :: j < i < n ==> !(DecidedAt(s, i) && WritesName(s.log[i], name))
    ensures LastWriter(s, n, name) == Some(j)
  {
    if j < n - 1 {
      LastWriterIs(s, n - 1, name, j);
    }
  }

  lemma {:induction false} LastWriterAtLeast(s: State, n: nat, name: Name, j: nat)
    requires j < n <= |s.log| && DecidedAt(s, j) && WritesName(s.log[j], name)
    ensures LastWriter(s, n, name).Some? && j <= LastWriter(s, n, name).value
  {
    if LastWriter(s, n, name) != Some(n - 1) {
      LastWriterAtLeast(s, n - 1, name, j);
    }
  }

  lemma {:induction false} NoWriter(s: State, n: nat, name: Name)
    requires n <= |s.log|
    requires forall i :: 0 <= i < n ==> !(DecidedAt(s, i) && WritesName(s.log[i], name))
    ensures LastWriter(s, n, name) == None
  {
    if n > 0 {
      NoWriter(s, n - 1, name);
    }
  }

  /** A transaction writes a name through one key. */
  lemma OneKeyAName(s: State, j: nat, k: Key)
    requires Sound(s) && j < |s.log| && k in s.log[j].writes
    ensures WritesName(s.log[j], k.name) && NameValue(s.log[j], k.name) == s.log[j].writes[k]
  {
    TheAges(s);
  }

  /** A version is a decided log entry's. */
  lemma VersionIsLogged(s: State, k: Key, i: nat)
    requires Sound(s) && i < |H(s, k)|
    ensures var v := H(s, k)[i];
            && v.pos < |s.log| && DecidedAt(s, v.pos) && k in s.log[v.pos].writes && s.log[v.pos].writes[k] == v.value
            && s.log[v.pos].tid == v.tid && s.log[v.pos].epoch == v.epoch
  {
    TheHistories(s);
    assert VerOf(s, k, H(s, k)[i]);
  }

  /** A decided write that is settled is in the history, at its log position. */
  lemma SettledWrite(s: State, n: nat, k: Key) returns (i: nat)
    requires Sound(s) && n < |s.log| && DecidedAt(s, n) && k in s.log[n].writes && Resolved(s, k, n)
    ensures i < |H(s, k)| && H(s, k)[i].pos == n
  {
    TheWork(s);
    TheLogged(s);
    var x := s.log[n].txn;
    assert WorkOf(s, x);
    i := s.txns[x].applied[k];
  }

  /** Whoever still has to write a key holds the lock of its tuple. */
  lemma UnheldIsApplied(s: State, k: Key, x: nat)
    requires x in s.txns && s.txns[x].serial && WorkOf(s, x) && (k in s.index ==> s.index[k] !in s.txns[x].held)
    requires k in s.log[s.txns[x].pos].writes && (Decided(s.txns[x]) || s.txns[x].phase.Validating?)
    ensures k in s.txns[x].applied
  {
  }

  lemma ShutIsFree(s: State, k: Key)
    requires Sweeps(s) && k in s.shut && k in s.index
    ensures s.index[k] in s.tuples && s.tuples[s.index[k]].owner == None
  {
    var c :| 0 <= c < |s.clean| && s.clean[c] != Resting && s.clean[c].ptr == s.index[k];
    assert SweptOf(s, c);
  }

  /** Every write to a key that has left the tree is settled. */
  lemma ShutIsSettled(s: State, k: Key, j: nat)
    requires Sound(s) && k in s.shut && j < |s.log|
    ensures Resolved(s, k, j)
  {
    TheLogged(s);
    var x := s.log[j].txn;
    if k in s.log[j].writes && (Decided(s.txns[x]) || s.txns[x].phase.Validating?) {
      if k in s.index { NoShutHeld(s, k, x); }
      TheWork(s);
      assert WorkOf(s, x);
      UnheldIsApplied(s, k, x);
    }
    ThePhases(s);
    assert PhaseOf(s.txns[x]);
  }

  lemma NoShutHeld(s: State, k: Key, x: nat)
    requires Sound(s) && k in s.shut && k in s.index && x in s.txns
    ensures s.index[k] !in s.txns[x].held
  {
    TheLocks(s);
    TheSweeps(s);
    ShutIsFree(s, k);
  }

  /** A key that has a later one has left the tree, and its history ended before that one's began. */
  lemma EarlierIsShut(s: State, j: nat, k: Key, k0: Key)
    requires Sound(s) && j < |s.log| && k in s.log[j].writes && k0 in s.born && k0.name == k.name && k0.gen < k.gen
    ensures k0 in s.shut && EndsBefore(s, k0, j)
  {
    TheAges(s);
    TheGrown(s);
  }

  lemma WrittenIsBorn(s: State, j: nat, k: Key)
    requires Sound(s) && j < |s.log| && k in s.log[j].writes
    ensures k in s.born
  {
    TheAges(s);
  }

  /** Unless the name was inserted anew, its last writer is the key's. */
  lemma NameLast(s: State, n: nat, k: Key)
    requires Sound(s) && n <= |s.log| && Settled(s, k, n) && LastIn(H(s, k), n).Some? && !Reinserted(s, n, k)
    ensures LastWriter(s, n, k.name) == Some(LastIn(H(s, k), n).value.pos)
    ensures Replay(s, n, k.name) == Some(LastIn(H(s, k), n).value.value)
  {
    var v := LastIn(H(s, k), n).value;
    var i := LastInIsIn(H(s, k), n);
    VersionIsLogged(s, k, i);
    OneKeyAName(s, v.pos, k);
    forall j | v.pos < j < n ensures !(DecidedAt(s, j) && WritesName(s.log[j], k.name)) {
      if DecidedAt(s, j) && WritesName(s.log[j], k.name) {
        var k' :| k' in s.log[j].writes && k'.name == k.name;
        NoLaterWriter(s, n, k, v.pos, j, k');
      }
    }
    LastWriterIs(s, n, k.name, v.pos);
  }

  lemma NoLaterWriter(s: State, n: nat, k: Key, at: nat, j: nat, k': Key)
    requires Sound(s) && n <= |s.log| && Settled(s, k, n) && LastIn(H(s, k), n).Some? && !Reinserted(s, n, k)
    requires LastIn(H(s, k), n).value.pos == at && at < j < n && k in s.log[at].writes
    requires k' in s.log[j].writes && k'.name == k.name
    ensures !DecidedAt(s, j)
  {
    if DecidedAt(s, j) {
      if k' == k {
        assert Resolved(s, k, j);
        var i := SettledWrite(s, j, k);
        TheHistories(s);
        LastInIsLast(H(s, k), n, i);
      } else if k'.gen < k.gen {
        WrittenIsBorn(s, j, k');
        EarlierIsShut(s, at, k, k');
        ShutIsSettled(s, k', j);
        var i := SettledWrite(s, j, k');
      }
      assert false;
    }
  }

  /** If the name was inserted anew, the key's last write is an earlier deletion. */
  lemma NameReinserted(s: State, n: nat, k: Key)
    requires Sound(s) && n <= |s.log| && LastIn(H(s, k), n).Some? && Reinserted(s, n, k)
    ensures LastWriter(s, n, k.name).Some? && LastIn(H(s, k), n).value.pos < LastWriter(s, n, k.name).value
    ensures LastIn(H(s, k), n).value.value == ""
  {
    var j, k' :| 0 <= j < n && DecidedAt(s, j) && k' in s.log[j].writes && k'.name == k.name && k'.gen > k.gen;
    var i := LastInIsIn(H(s, k), n);
    VersionIsLogged(s, k, i);
    WrittenIsBorn(s, H(s, k)[i].pos, k);
    EarlierIsShut(s, j, k', k);
    LastWriterAtLeast(s, n, k.name, j);
    ShutIsClosed(s, k);
    LastInAt(H(s, k), n, |H(s, k)| - 1);
  }

  /** If every key of the name that was written has left the tree, what the last of them left is a deletion. */
  lemma LastIsDeleted(s: State, n: nat, name: Name)
    requires Sound(s) && n <= |s.log|
    requires forall j, k :: 0 <= j < n && DecidedAt(s, j) && k in s.log[j].writes && k.name == name ==>
      k in s.shut && forall i :: 0 <= i < |H(s, k)| ==> H(s, k)[i].pos < n
    ensures OrAbsent(Replay(s, n, name)) == ""
  {
    var w := LastWriter(s, n, name);
    if w.Some? {
      var k :| k in s.log[w.value].writes && k.name == name;
      ShutIsSettled(s, k, w.value);
      var i := SettledWrite(s, w.value, k);
      OneKeyAName(s, w.value, k);
      var l := |H(s, k)| - 1;
      VersionIsLogged(s, k, l);
      OneKeyAName(s, H(s, k)[l].pos, k);
      LastWriterAtLeast(s, n, name, H(s, k)[l].pos);
      TheHistories(s);
      assert Rising(H(s, k));
      ShutIsClosed(s, k);
    }
  }

  lemma ShutIsClosed(s: State, k: Key)
    requires Sound(s) && k in s.shut && H(s, k) != []
    ensures H(s, k)[|H(s, k)| - 1].value == ""
  {
    TheGrown(s);
    assert Closed(s, k);
  }

  // ----- what one step leaves alone

  /** A transaction keeps who it is and what it read once it is in the log; a finished one never changes. */
  predicate TxnKept(t: Txn, t': Txn) {
    && t'.start == t.start && t'.snapshot == t.snapshot && t.results <= t'.results
    && (t.serial ==> t'.serial && t'.pos == t.pos && t'.readSet == t.readSet)
    && (!Live(t) ==> t' == t)
  }

  ghost predicate KeysKept(s: State, s': State) {
    forall p :: p in s.tuples ==> p in s'.tuples && s'.tuples[p].key == s.tuples[p].key
  }

  /** The log only grows, at the current epoch, and transactions and tuples stay. */
  ghost predicate Advance(s: State, s': State) {
    && s'.m == s.m && |s.log| <= |s'.log| <= |s.log| + 1 && s'.log[..|s.log|] == s.log
    && (|s'.log| == |s.log| + 1 ==>
          && s'.log[|s.log|].epoch == s.tk.current
          && s'.log[|s.log|].txn in s.txns && Live(s.txns[s'.log[|s.log|].txn]))
    && (forall x :: x in s.txns ==> x in s'.txns && TxnKept(s.txns[x], s'.txns[x]))
    && KeysKept(s, s')
  }

  /** One transaction moves. */
  lemma OneMoves(s: State, s': State, x: nat, t: Txn)
    requires s'.m == s.m && s'.log == s.log && s'.txns == s.txns[x := t] && KeysKept(s, s')
    requires x in s.txns ==> TxnKept(s.txns[x], t)
    ensures Advance(s, s')
  {
  }

  lemma BeginAdvances(s: State, s': State, x: nat, c: nat, snapshot: bool)
    requires Begin(s, s', x, c, snapshot)
    ensures Advance(s, s')
  {
    OneMoves(s, s', x, s'.txns[x]);
  }

  lemma PutAdvances(s: State, s': State, x: nat, v: Value)
    requires Put(s, s', x, v)
    ensures Advance(s, s')
  {
    OneMoves(s, s', x, s'.txns[x]);
  }

  /** A transaction enters the log once it holds all its locks, not before. */
  lemma NotYetSerial(s: State, x: nat)
    requires Sound(s)
    ensures IsRunning(s, x) || AllLocked(s, x) ==> !s.txns[x].serial
  {
    ThePhases(s);
    if x in s.txns { assert PhaseOf(s.txns[x]); }
  }

  lemma ReadAdvances(s: State, s': State, x: nat)
    requires Read(s, s', x) && !s.txns[x].serial
    ensures Advance(s, s')
  {
    OneMoves(s, s', x, s'.txns[x]);
  }

  lemma InsertAdvances(s: State, s': State, x: nat, k: Key, v: Value, p: Ptr, room: nat)
    requires Insert(s, s', x, k, v, p, room)
    ensures Advance(s, s')
  {
    OneMoves(s, s', x, s'.txns[x]);
  }

  lemma BodyAdvances(s: State, s': State, a: Action)
    requires BodyStep(s, s', a) && (IsRunning(s, a.x) ==> !s.txns[a.x].serial)
    ensures Advance(s, s')
  {
    match a
    case ABegin(x, c, snapshot) => BeginAdvances(s, s', x, c, snapshot);
    case ALookup(x, n) => OneMoves(s, s', x, s'.txns[x]);
    case ARead(x) => ReadAdvances(s, s', x);
    case APut(x, v) => PutAdvances(s, s', x, v);
    case AInsert(x, k, v, p, room) => InsertAdvances(s, s', x, k, v, p, room);
  }

  lemma SnapAdvances(s: State, s': State, a: Action)
    requires SnapStep(s, s', a)
    ensures Advance(s, s')
  {
    if a.ASnapRead? {
      SnapReadAdvances(s, s', a.x);
    } else {
      OneMoves(s, s', a.x, s'.txns[a.x]);
    }
  }

  lemma SnapReadAdvances(s: State, s': State, x: nat)
    requires SnapRead(s, s', x)
    ensures Advance(s, s')
  {
    OneMoves(s, s', x, s'.txns[x]);
  }

  lemma LockAdvances(s: State, s': State, a: Action)
    requires LockStep(s, s', a)
    ensures Advance(s, s')
  {
    OneMoves(s, s', a.x, s'.txns[a.x]);
  }

  lemma SerializeAdvances(s: State, s': State, x: nat, tid: nat)
    requires Serialize(s, s', x, tid) && !s.txns[x].serial
    ensures Advance(s, s')
  {
    assert TxnKept(s.txns[x], s'.txns[x]);
  }

  lemma CheckAdvances(s: State, s': State, a: Action)
    requires CheckStep(s, s', a) && (AllLocked(s, a.x) ==> !s.txns[a.x].serial)
    ensures Advance(s, s')
  {
    match a
    case ASerialize(x, tid) => SerializeAdvances(s, s', x, tid);
    case AValidate(x) => ValidateAdvances(s, s', x);
    case ADecide(x) => OneMoves(s, s', x, s'.txns[x]);
  }

  lemma ValidateAdvances(s: State, s': State, x: nat)
    requires Validate(s, s', x)
    ensures Advance(s, s')
  {
    OneMoves(s, s', x, s'.txns[x]);
  }

  lemma InPlaceAdvances(s: State, s': State, x: nat, p: Ptr)
    requires PutInPlace(s, s', x, p)
    ensures Advance(s, s')
  {
    OneMoves(s, s', x, s'.txns[x]);
  }

  lemma SpillAdvances(s: State, s': State, x: nat, p: Ptr, q: Ptr)
    requires PutSpill(s, s', x, p, q)
    ensures Advance(s, s')
  {
    OneMoves(s, s', x, s'.txns[x]);
  }

  lemma ReplaceAdvances(s: State, s': State, x: nat, p: Ptr, q: Ptr, room: nat)
    requires PutReplace(s, s', x, p, q, room)
    ensures Advance(s, s')
  {
    OneMoves(s, s', x, s'.txns[x]);
  }

  lemma WriteAdvances(s: State, s': State, a: Action)
    requires WriteStep(s, s', a)
    ensures Advance(s, s')
  {
    match a
    case AWriteInsert(x, p) => OneMoves(s, s', x, s'.txns[x]);
    case APutInPlace(x, p) => InPlaceAdvances(s, s', x, p);
    case APutSpill(x, p, q) => SpillAdvances(s, s', x, p, q);
    case APutReplace(x, p, q, room) => ReplaceAdvances(s, s', x, p, q, room);
  }

  lemma FreeAdvances(s: State, s': State, a: Action)
    requires FreeStep(s, s', a)
    ensures Advance(s, s')
  {
    match a
    case AEndWriting(x) => OneMoves(s, s', x, s'.txns[x]);
    case AUnlock(x, p) => OneMoves(s, s', x, s'.txns[x]);
    case AFinish(x) => OneMoves(s, s', x, s'.txns[x]);
    case AUnlink(x, p) => OneMoves(s, s', x, s'.txns[x]);
  }

  /** No transaction moves. */
  lemma NoneMoves(s: State, s': State)
    requires s'.m == s.m && s'.log == s.log && s'.txns == s.txns && KeysKept(s, s')
    ensures Advance(s, s')
  {
  }

  lemma ClockAdvances(s: State, s': State, a: Action)
    requires ClockStep(s, s', a)
    ensures Advance(s, s')
  {
    NoneMoves(s, s');
  }

  lemma CleanAdvances(s: State, s': State, a: Action)
    requires CleanStep(s, s', a)
    ensures Advance(s, s')
  {
    NoneMoves(s, s');
  }

  lemma StepAdvances(s: State, s': State, a: Action)
    requires Sound(s) && Step(s, s', a)
    ensures Advance(s, s')
  {
    if BodyStep(s, s', a) {
      NotYetSerial(s, a.x);
      BodyAdvances(s, s', a);
    } else if CheckStep(s, s', a) {
      NotYetSerial(s, a.x);
      CheckAdvances(s, s', a);
    } else {
      OtherAdvances(s, s', a);
    }
  }

  lemma OtherAdvances(s: State, s': State, a: Action)
    requires Step(s, s', a) && !BodyStep(s, s', a) && !CheckStep(s, s', a)
    ensures Advance(s, s')
  {
    if SnapStep(s, s', a) {
      SnapAdvances(s, s', a);
    } else if LockStep(s, s', a) {
      LockAdvances(s, s', a);
    } else if WriteStep(s, s', a) {
      WriteAdvances(s, s', a);
    } else if FreeStep(s, s', a) {
      FreeAdvances(s, s', a);
    } else if ClockStep(s, s', a) {
      ClockAdvances(s, s', a);
    } else {
      CleanAdvances(s, s', a);
    }
  }
}
