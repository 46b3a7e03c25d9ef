/** The reclamation queues: what is on them, once, and why freeing it is safe. */
module EngineQueue {
  import opened Engine
  import opened EngineInv
  import T = EngineTree
  import Tid
  import Rcu

  // ----- steps that leave the queues alone

  lemma StillGarbage(s: State, s': State)
    requires T.Still(s, s') && s'.queue == s.queue && s'.rcu == s.rcu && s.tk.current <= s'.tk.current && Garbage(s)
    ensures Garbage(s')
  {
    Tid.ReadOnlyTickMonotone(s.tk.last, s'.tk.last, s.m);
    forall k ensures H(s', k) == H(s, k) {}
    forall p | p in s'.tuples ensures GarbageOf(s', p) {
      assert T.SameButLock(s.tuples[p], s'.tuples[p]) && GarbageOf(s, p);
    }
    forall c, i | 0 <= c < |s'.queue| && 0 <= i < |s'.queue[c]| ensures ItemOf(s', s'.queue[c][i]) {
      assert ItemOf(s, s.queue[c][i]);
      assert T.SameButLock(s.tuples[s.queue[c][i].ptr], s'.tuples[s.queue[c][i].ptr]);
    }
  }

  /** Nothing queued is freed, and the queues and the cleaners stay. */
  ghost predicate KeptQueues(s: State, s': State) {
    && s'.queue == s.queue && s'.rcu == s.rcu && s'.clean == s.clean
    && forall p :: Unfreed(s, p) ==> Unfreed(s', p)
  }

  lemma KeepQueues(s: State, s': State)
    requires KeptQueues(s, s') && Queues(s)
    ensures Queues(s')
  {
    forall c, i | 0 <= c < |s'.queue| && 0 <= i < |s'.queue[c]| ensures QueuedOf(s', s'.queue[c][i].ptr, c, i) {
      assert QueuedOf(s, s.queue[c][i].ptr, c, i);
    }
    forall c, i | 0 <= c < |s'.rcu| && 0 <= i < |s'.rcu[c]| ensures HandedOf(s', s'.rcu[c][i].ptr, c, i) {
      assert HandedOf(s, s.rcu[c][i].ptr, c, i);
    }
  }

  lemma StillQueues(s: State, s': State)
    requires T.Still(s, s') && s'.queue == s.queue && s'.rcu == s.rcu && Queues(s)
    ensures Queues(s')
  {
    forall p | Unfreed(s, p) ensures Unfreed(s', p) { assert T.SameButLock(s.tuples[p], s'.tuples[p]); }
    KeepQueues(s, s');
  }

  // ----- a queue gains or loses an item

  ghost predicate Absent(s: State, p: Ptr) {
    forall c, i :: 0 <= c < |s.queue| && 0 <= i < |s.queue[c]| ==> s.queue[c][i].ptr != p
  }

  function Pushed(s: State, c: nat, it: Item): State
    requires c < |s.queue|
  {
    s.(queue := s.queue[c := s.queue[c] + [it]])
  }

  lemma PushGarbage(s: State, c: nat, it: Item)
    requires c < |s.queue| && Garbage(s) && ItemOf(s, it)
    ensures Garbage(Pushed(s, c, it))
  {
    var s' := Pushed(s, c, it);
    forall p | p in s'.tuples ensures GarbageOf(s', p) { assert GarbageOf(s, p); }
    forall d, i | 0 <= d < |s'.queue| && 0 <= i < |s'.queue[d]| ensures ItemOf(s', s'.queue[d][i]) {
      if d == c && i == |s.queue[c]| {
        assert s'.queue[d][i] == it;
      } else {
        assert s'.queue[d][i] == s.queue[d][i] && ItemOf(s, s.queue[d][i]);
      }
    }
  }

  lemma PushQueues(s: State, c: nat, it: Item)
    requires c < |s.queue| && Queues(s) && Absent(s, it.ptr) && Unfreed(s, it.ptr) && !Swept(s, it.ptr)
    ensures Queues(Pushed(s, c, it))
  {
    var s' := Pushed(s, c, it);
    forall d, i | 0 <= d < |s'.queue| && 0 <= i < |s'.queue[d]| ensures QueuedOf(s', s'.queue[d][i].ptr, d, i) {
      if !(d == c && i == |s.queue[c]|) {
        assert s'.queue[d][i] == s.queue[d][i] && QueuedOf(s, s.queue[d][i].ptr, d, i);
      }
    }
    forall d, i | 0 <= d < |s'.rcu| && 0 <= i < |s'.rcu[d]| ensures HandedOf(s', s'.rcu[d][i].ptr, d, i) {
      assert HandedOf(s, s.rcu[d][i].ptr, d, i);
    }
  }

  lemma PushAbsent(s: State, c: nat, it: Item, p: Ptr)
    requires c < |s.queue| && Absent(s, p) && it.ptr != p
    ensures Absent(Pushed(s, c, it), p)
  {
  }

  function Popped(s: State, c: nat): State
    requires c < |s.queue| && s.queue[c] != []
  {
    s.(queue := s.queue[c := s.queue[c][1..]])
  }

  lemma PopGarbage(s: State, c: nat)
    requires c < |s.queue| && s.queue[c] != [] && Garbage(s)
    ensures Garbage(Popped(s, c)) && ItemOf(s, s.queue[c][0])
  {
    var s' := Popped(s, c);
    forall p | p in s'.tuples ensures GarbageOf(s', p) { assert GarbageOf(s, p); }
    forall d, i | 0 <= d < |s'.queue| && 0 <= i < |s'.queue[d]| ensures ItemOf(s', s'.queue[d][i]) {
      var j := if d == c then i + 1 else i;
      assert s'.queue[d][i] == s.queue[d][j] && ItemOf(s, s.queue[d][j]);
    }
  }

  lemma PopAbsent(s: State, c: nat)
    requires c < |s.queue| && s.queue[c] != [] && Queues(s)
    ensures Absent(Popped(s, c), s.queue[c][0].ptr)
    ensures Unfreed(s, s.queue[c][0].ptr) && !Swept(s, s.queue[c][0].ptr)
  {
    var s', p := Popped(s, c), s.queue[c][0].ptr;
    assert QueuedOf(s, p, c, 0);
    forall d, i | 0 <= d < |s'.queue| && 0 <= i < |s'.queue[d]| ensures s'.queue[d][i].ptr != p {
      var j := if d == c then i + 1 else i;
      assert s'.queue[d][i] == s.queue[d][j];
    }
  }

  lemma PopQueues(s: State, c: nat)
    requires c < |s.queue| && s.queue[c] != [] && Queues(s)
    ensures Queues(Popped(s, c))
  {
    var s' := Popped(s, c);
    forall d, i | 0 <= d < |s'.queue| && 0 <= i < |s'.queue[d]| ensures QueuedOf(s', s'.queue[d][i].ptr, d, i) {
      var j := if d == c then i + 1 else i;
      assert s'.queue[d][i] == s.queue[d][j] && QueuedOf(s, s.queue[d][j].ptr, d, j);
      PopUnique(s, c, d, i, j);
    }
    forall d, i | 0 <= d < |s'.rcu| && 0 <= i < |s'.rcu[d]| ensures HandedOf(s', s'.rcu[d][i].ptr, d, i) {
      assert HandedOf(s, s.rcu[d][i].ptr, d, i);
    }
  }

  lemma PopUnique(s: State, c: nat, d: nat, i: nat, j: nat)
    requires c < |s.queue| && s.queue[c] != [] && d < |s.queue|
    requires j < |s.queue[d]| && j == (if d == c then i + 1 else i) && QueuedOf(s, s.queue[d][j].ptr, d, j)
    ensures QueuedOf(Popped(s, c), s.queue[d][j].ptr, d, i)
  {
    var s' := Popped(s, c);
    forall e, n | 0 <= e < |s'.queue| && 0 <= n < |s'.queue[e]| && s'.queue[e][n].ptr == s.queue[d][j].ptr
      ensures e == d && n == i
    {
      var o := if e == c then n + 1 else n;
      assert s'.queue[e][n] == s.queue[e][o];
    }
  }

  // ----- freeing

  function Freed(s: State, p: Ptr): State
    requires p in s.tuples
  {
    WithTuple(s, p, s.tuples[p].(freed := true))
  }

  lemma FreedGarbage(s: State, p: Ptr)
    requires p in s.tuples && Garbage(s) && !s.tuples[p].latest
    requires if s.tuples[p].sup.Some? then Ro(s, s.tuples[p].sup.value) < Ro(s, s.tk.last)
             else p in s.gone && s.gone[p] < s.tk.last
    ensures Garbage(Freed(s, p))
  {
    var s' := Freed(s, p);
    forall q | q in s'.tuples ensures GarbageOf(s', q) { assert GarbageOf(s, q); }
    forall k ensures H(s', k) == H(s, k) {}
    forall c, i | 0 <= c < |s'.queue| && 0 <= i < |s'.queue[c]| ensures ItemOf(s', s'.queue[c][i]) {
      assert ItemOf(s, s.queue[c][i]);
    }
  }

  lemma FreedQueues(s: State, p: Ptr)
    requires p in s.tuples && Queues(s) && Absent(s, p) && !Swept(s, p)
    requires forall c, i :: 0 <= c < |s.rcu| && 0 <= i < |s.rcu[c]| ==> s.rcu[c][i].ptr != p
    ensures Queues(Freed(s, p))
  {
    var s' := Freed(s, p);
    forall c, i | 0 <= c < |s'.queue| && 0 <= i < |s'.queue[c]| ensures QueuedOf(s', s'.queue[c][i].ptr, c, i) {
      assert QueuedOf(s, s.queue[c][i].ptr, c, i);
    }
    forall c, i | 0 <= c < |s'.rcu| && 0 <= i < |s'.rcu[c]| ensures HandedOf(s', s'.rcu[c][i].ptr, c, i) {
      assert HandedOf(s, s.rcu[c][i].ptr, c, i);
    }
    forall c | 0 <= c < |s'.clean| && s'.clean[c] != Resting ensures Unfreed(s', s'.clean[c].ptr) {
      assert Unfreed(s, s.clean[c].ptr) && s.clean[c].ptr != p;
    }
  }

  lemma GcFreeGarbage(s: State, s': State, c: nat)
    requires GcFree(s, s', c) && Garbage(s) && Queues(s) && Base(s)
    ensures Garbage(s') && Queues(s')
  {
    var p := s.queue[c][0].ptr;
    var r := Popped(s, c);
    PopGarbage(s, c);
    PopQueues(s, c);
    PopAbsent(s, c);
    FreedGarbage(r, p);
    FreedQueues(r, p);
  }

  // ----- handing a tuple to read-copy-update

  /** p stops being the latest tuple of its key and goes to read-copy-update. */
  ghost predicate Hands(s: State, s': State, c: nat, p: Ptr) {
    && c < |s.rcu| && c < |s.tk.cores| && p in s.tuples && s.tuples[p].latest
    && s'.tuples == s.tuples[p := s.tuples[p].(latest := false)] && s'.m == s.m && s'.tk == s.tk && s'.hist == s.hist
    && s'.queue == s.queue && s'.rcu == s.rcu[c := s.rcu[c] + [Item(p, s.tk.cores[c].tick + 1, false)]]
    && s'.gone == s.gone[p := s.tk.cores[c].tick]
  }

  lemma HandGarbage(s: State, s': State, c: nat, p: Ptr)
    requires Hands(s, s', c, p) && Garbage(s) && Absent(s, p)
    ensures Garbage(s')
  {
    assert GarbageOf(s, p);
    forall k ensures H(s', k) == H(s, k) {}
    forall q | q in s'.tuples ensures GarbageOf(s', q) { assert GarbageOf(s, q); }
    forall d, i | 0 <= d < |s'.queue| && 0 <= i < |s'.queue[d]| ensures ItemOf(s', s'.queue[d][i]) {
      assert ItemOf(s, s.queue[d][i]);
    }
    forall d, i | 0 <= d < |s'.rcu| && 0 <= i < |s'.rcu[d]|
      ensures s'.rcu[d][i].ptr in s'.tuples && s'.rcu[d][i].ptr in s'.gone
      ensures s'.rcu[d][i].tick == s'.gone[s'.rcu[d][i].ptr] + 1
    {
      if !(d == c && i == |s.rcu[c]|) { assert s'.rcu[d][i] == s.rcu[d][i] && s.rcu[d][i].ptr != p; }
    }
  }

  /** Nothing latest is with read-copy-update or freed. */
  lemma LatestNotHanded(s: State, p: Ptr)
    requires Garbage(s) && p in s.tuples && s.tuples[p].latest
    ensures Unfreed(s, p) && p !in s.gone
    ensures forall c, i :: 0 <= c < |s.rcu| && 0 <= i < |s.rcu[c]| ==> s.rcu[c][i].ptr != p
  {
    assert GarbageOf(s, p);
  }

  lemma HandQueues(s: State, s': State, c: nat, p: Ptr)
    requires Hands(s, s', c, p) && Queues(s) && Garbage(s)
    requires s'.clean == s.clean || (c < |s.clean| && s'.clean == s.clean[c := Resting])
    ensures Queues(s')
  {
    LatestNotHanded(s, p);
    forall q | Unfreed(s, q) ensures Unfreed(s', q) {}
    forall q | Swept(s', q) ensures Swept(s, q) {
      var d :| 0 <= d < |s'.clean| && s'.clean[d] != Resting && s'.clean[d].ptr == q;
      assert s.clean[d] != Resting && s.clean[d].ptr == q;
    }
    forall d, i | 0 <= d < |s'.queue| && 0 <= i < |s'.queue[d]| ensures QueuedOf(s', s'.queue[d][i].ptr, d, i) {
      assert QueuedOf(s, s.queue[d][i].ptr, d, i);
    }
    forall d, i | 0 <= d < |s'.rcu| && 0 <= i < |s'.rcu[d]| ensures HandedOf(s', s'.rcu[d][i].ptr, d, i) {
      if !(d == c && i == |s.rcu[c]|) {
        assert s'.rcu[d][i] == s.rcu[d][i] && HandedOf(s, s.rcu[d][i].ptr, d, i);
      }
    }
  }

  lemma RcuRunGarbage(s: State, s': State, c: nat)
    requires RcuRun(s, s', c) && Garbage(s)
    ensures Garbage(s')
  {
    var p := s.rcu[c][0].ptr;
    var r := s.(rcu := s.rcu[c := s.rcu[c][1..]]);
    forall q | q in r.tuples ensures GarbageOf(r, q) { assert GarbageOf(s, q); }
    forall d, i | 0 <= d < |r.queue| && 0 <= i < |r.queue[d]| ensures ItemOf(r, r.queue[d][i]) {
      assert ItemOf(s, s.queue[d][i]);
    }
    forall d, i | 0 <= d < |r.rcu| && 0 <= i < |r.rcu[d]|
      ensures r.rcu[d][i].ptr in r.tuples && r.rcu[d][i].ptr in r.gone
      ensures r.rcu[d][i].tick == r.gone[r.rcu[d][i].ptr] + 1
    {
      var j := if d == c then i + 1 else i;
      assert r.rcu[d][i] == s.rcu[d][j];
    }
    assert GarbageOf(s, p);
    if s.gone[p] >= s.tk.last { Rcu.ToRcuTicksMonotone(s.tk.last + 1, s.gone[p] + 1, s.rm); }
    FreedGarbage(r, p);
  }

  lemma RcuRunQueues(s: State, s': State, c: nat)
    requires RcuRun(s, s', c) && Garbage(s) && Queues(s) && Sweeps(s)
    ensures Queues(s')
  {
    var p := s.rcu[c][0].ptr;
    assert HandedOf(s, p, c, 0) && p in s.gone;
    forall d, i | 0 <= d < |s'.queue| && 0 <= i < |s'.queue[d]| ensures QueuedOf(s', s'.queue[d][i].ptr, d, i) {
      assert QueuedOf(s, s.queue[d][i].ptr, d, i) && ItemOf(s, s.queue[d][i]);
    }
    forall d, i | 0 <= d < |s'.rcu| && 0 <= i < |s'.rcu[d]| ensures HandedOf(s', s'.rcu[d][i].ptr, d, i) {
      var j := if d == c then i + 1 else i;
      assert s'.rcu[d][i] == s.rcu[d][j] && HandedOf(s, s.rcu[d][j].ptr, d, j);
      RcuRunUnique(s, s', c, d, i, j);
    }
    forall d | 0 <= d < |s'.clean| && s'.clean[d] != Resting ensures Unfreed(s', s'.clean[d].ptr) {
      assert Unfreed(s, s.clean[d].ptr) && SweptOf(s, d);
    }
  }

  lemma RcuRunUnique(s: State, s': State, c: nat, d: nat, i: nat, j: nat)
    requires RcuRun(s, s', c) && d < |s.rcu| && j < |s.rcu[d]| && j == (if d == c then i + 1 else i)
    requires HandedOf(s, s.rcu[d][j].ptr, d, j) && HandedOf(s, s.rcu[c][0].ptr, c, 0)
    ensures HandedOf(s', s.rcu[d][j].ptr, d, i)
  {
    forall e, n | 0 <= e < |s'.rcu| && 0 <= n < |s'.rcu[e]| && s'.rcu[e][n].ptr == s.rcu[d][j].ptr
      ensures e == d && n == i
    {
      var o := if e == c then n + 1 else n;
      assert s'.rcu[e][n] == s.rcu[e][o];
    }
  }

  // ----- inserting

  lemma InsertGarbage(s: State, s': State, x: nat, k: Key, v: Value, p: Ptr, room: nat)
    requires Insert(s, s', x, k, v, p, room) && Garbage(s) && Queues(s)
    ensures Garbage(s') && Queues(s')
  {
    forall j ensures H(s', j) == H(s, j) {}
    forall q | q in s'.tuples ensures GarbageOf(s', q) { if q != p { assert GarbageOf(s, q); } }
    forall c, i | 0 <= c < |s'.queue| && 0 <= i < |s'.queue[c]| ensures ItemOf(s', s'.queue[c][i]) {
      assert ItemOf(s, s.queue[c][i]);
    }
    KeepQueues(s, s');
  }

  // ----- applying a write

  /** A record in the tree is on no queue. */
  lemma LatestAbsent(s: State, p: Ptr)
    requires Garbage(s) && p in s.tuples && s.tuples[p].latest
    requires s.tuples[p].value != "" || s.tuples[p].version == Tid.MAX_TID
    ensures Absent(s, p)
  {
    forall c, i | 0 <= c < |s.queue| && 0 <= i < |s.queue[c]| ensures s.queue[c][i].ptr != p {
      assert ItemOf(s, s.queue[c][i]);
    }
  }

  predicate SameHolding(u: Tuple, u': Tuple) {
    u'.version == u.version && u'.value == u.value && u'.draft == u.draft && u'.pos == u.pos
  }

  lemma RewriteItem(s: State, r: State, x: nat, p: Ptr, q: Ptr, it: Item)
    requires T.Rewrites(s, r, x, p, q) && s.m >= 1 && ItemOf(s, it)
    requires it.ptr == p ==> SameHolding(s.tuples[p], r.tuples[p])
    ensures ItemOf(r, it)
  {
    var k := s.tuples[p].key;
    if H(r, k) != H(s, k) {
      assert forall j :: 0 <= j < |H(s, k)| ==> H(r, k)[j] == H(s, k)[j];
    }
  }

  lemma RewriteGarbage(s: State, r: State, x: nat, p: Ptr, q: Ptr)
    requires T.Rewrites(s, r, x, p, q) && r.queue == s.queue && r.rcu == s.rcu && Garbage(s)
    requires GarbageOf(r, p) && (q in r.tuples ==> GarbageOf(r, q))
    requires Absent(s, p) || SameHolding(s.tuples[p], r.tuples[p])
    ensures Garbage(r)
  {
    forall o | o in r.tuples ensures GarbageOf(r, o) {
      if o != p && o != q { assert GarbageOf(s, o); }
    }
    forall c, i | 0 <= c < |r.queue| && 0 <= i < |r.queue[c]| ensures ItemOf(r, r.queue[c][i]) {
      assert ItemOf(s, s.queue[c][i]);
      RewriteItem(s, r, x, p, q, s.queue[c][i]);
    }
  }

  lemma RewriteQueues(s: State, r: State, x: nat, p: Ptr, q: Ptr)
    requires T.Rewrites(s, r, x, p, q) && r.queue == s.queue && r.rcu == s.rcu && Queues(s)
    requires r.tuples[p].freed == s.tuples[p].freed
    ensures Queues(r)
  {
    KeepQueues(s, r);
  }

  /** Nothing a transaction has locked, and nothing new, is a cleaner's. */
  lemma NotSwept(s: State, p: Ptr)
    requires Sweeps(s) && (p !in s.tuples || s.tuples[p].owner.Some?)
    ensures !Swept(s, p)
  {
    forall c | 0 <= c < |s.clean| && s.clean[c] != Resting ensures s.clean[c].ptr != p { assert SweptOf(s, c); }
  }

  /** The head goes on the queue if it is a deletion marker now. */
  lemma MarkKeeps(r: State, c: nat, head: Ptr, v: Value, e: nat)
    requires c < |r.queue| && Garbage(r) && Queues(r)
    requires v == "" ==> ItemOf(r, Item(head, Ro(r, e), true)) && Absent(r, head) && Unfreed(r, head) && !Swept(r, head)
    ensures forall s' :: s' == r.(queue := Mark(r, r.queue, c, head, v, e)) ==> Garbage(s') && Queues(s')
  {
    if v == "" {
      PushGarbage(r, c, Item(head, Ro(r, e), true));
      PushQueues(r, c, Item(head, Ro(r, e), true));
    }
  }

  /** The superseded version goes on the queue unless it is a deletion marker, then the head does if it is one. */
  lemma SpillKeeps(r: State, c: nat, q: Ptr, u: Tuple, head: Ptr, v: Value, e: nat)
    requires c < |r.queue| && Garbage(r) && Queues(r) && head != q
    requires u.value != "" ==> ItemOf(r, Item(q, Ro(r, e), false)) && Absent(r, q) && Unfreed(r, q) && !Swept(r, q)
    requires v == "" ==> ItemOf(r, Item(head, Ro(r, e), true)) && Absent(r, head) && Unfreed(r, head) && !Swept(r, head)
    ensures forall s' :: s' == r.(queue := Mark(r, Spill(r, c, q, u, e), c, head, v, e)) ==> Garbage(s') && Queues(s')
  {
    if u.value == "" {
      MarkKeeps(r, c, head, v, e);
    } else {
      var it := Item(q, Ro(r, e), false);
      PushGarbage(r, c, it);
      PushQueues(r, c, it);
      if v == "" { PushAbsent(r, c, it, head); }
      MarkKeeps(Pushed(r, c, it), c, head, v, e);
    }
  }

  lemma FreshAbsent(s: State, q: Ptr)
    requires Garbage(s) && q !in s.tuples
    ensures Absent(s, q)
  {
    forall c, i | 0 <= c < |s.queue| && 0 <= i < |s.queue[c]| ensures s.queue[c][i].ptr != q {
      assert ItemOf(s, s.queue[c][i]);
    }
  }
}
