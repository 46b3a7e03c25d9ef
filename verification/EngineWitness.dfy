/** A run in which a reader of a deletion marker commits behind a transaction that has inserted the key anew: the
    cleaner takes the key out of the tree before it clears the marker's latest flag, and its lock carries no write
    intent (silo/txn_proto2_impl.cc:617, 675-677), so the check of silo/tuple.h:777-795 lets the reader pass. */
module EngineWitness {
  import opened Engine
  import opened EngineRuns
  import Tid
  import Ticker

  const K: Key := Key("k", 0)
  const K1: Key := Key("k", 1)
  const Y: Key := Key("y", 0)

  // ----- extending a run

  function Last(r: seq<State>): State
    requires |r| > 0
  {
    r[|r| - 1]
  }

  lemma Go(r: seq<State>, s: State, a: Action) returns (r': seq<State>)
    requires Run(r) && Step(Last(r), s, a)
    ensures Run(r') && Last(r') == s
  {
    r' := r + [s];
    forall i | 0 <= i < |r'| - 1 ensures Linked(r', i) {
      if i < |r| - 1 {
        assert Linked(r, i);
        assert r'[i] == r[i] && r'[i + 1] == r[i + 1];
      } else {
        assert Step(r'[i], r'[i + 1], a);
      }
    }
  }

  lemma GoTick(r: seq<State>, a: Ticker.Action, tk: Ticker.State) returns (r': seq<State>)
    requires Run(r) && Ticker.Step(Last(r).tk, tk, a)
    requires forall c: nat :: Ticker.Open(Last(r).tk, c) ==> Ticker.Open(tk, c)
    ensures Run(r') && Last(r') == Last(r).(tk := tk)
  {
    var s := Last(r);
    var s' := s.(tk := tk);
    assert Tick(s, s', a, tk);
    assert ClockStep(s, s', ATick(a, tk));
    r' := Go(r, s', ATick(a, tk));
  }

  // ----- guards and ticks

  function Shut(t: nat): Ticker.Core { Ticker.Core(t, 0, Ticker.Nobody, Ticker.Outside) }

  function Opened(t: nat): Ticker.Core { Ticker.Core(t, 1, Ticker.Guard, Ticker.Inside) }

  /** Core c opens a guard. */
  lemma OpenGuard(r: seq<State>, c: nat) returns (r': seq<State>)
    requires Run(r) && c < |Last(r).tk.cores| && Last(r).tk.cores[c] == Shut(Last(r).tk.current)
    ensures Run(r') && Last(r') == Last(r).(tk := Ticker.With(Last(r).tk, c, Opened(Last(r).tk.current)))
  {
    var k := Last(r).tk;
    var t := k.current;
    var k1 := Ticker.With(k, c, Shut(t).(depth := 1, pc := Ticker.Entering));
    var k2 := Ticker.With(k, c, Shut(t).(depth := 1, holder := Ticker.Guard, pc := Ticker.Locked));
    var k3 := Ticker.With(k, c, Shut(t).(depth := 1, holder := Ticker.Guard, pc := Ticker.Loaded(t)));
    var r1 := GoTick(r, Ticker.Enter(c), k1);
    assert k2 == Ticker.With(k1, c, Shut(t).(depth := 1, holder := Ticker.Guard, pc := Ticker.Locked));
    var r2 := GoTick(r1, Ticker.Acquire(c), k2);
    assert k3 == Ticker.With(k2, c, Shut(t).(depth := 1, holder := Ticker.Guard, pc := Ticker.Loaded(t)));
    var r3 := GoTick(r2, Ticker.LoadTick(c), k3);
    var k4 := Ticker.With(k, c, Opened(t));
    assert k4 == Ticker.With(k3, c, Opened(t));
    r' := GoTick(r3, Ticker.StoreTick(c), k4);
  }

  /** Core c closes its guard; no transaction is running there. */
  lemma CloseGuard(r: seq<State>, c: nat, t: nat) returns (r': seq<State>)
    requires Run(r) && c < |Last(r).tk.cores| && Last(r).tk.cores[c] == Opened(t) && Between(Last(r), c)
    requires forall d :: 0 <= d < |Last(r).clean| ==> Last(r).clean[d] == Resting
    ensures Run(r') && Last(r') == Last(r).(tk := Ticker.With(Last(r).tk, c, Shut(t)))
  {
    var s := Last(r);
    var k := s.tk;
    var k1 := Ticker.With(k, c, Opened(t).(depth := 0, pc := Ticker.Leaving));
    var s1 := s.(tk := k1);
    assert Tick(s, s1, Ticker.Drop(c), k1);
    assert ClockStep(s, s1, ATick(Ticker.Drop(c), k1));
    var r1 := Go(r, s1, ATick(Ticker.Drop(c), k1));
    assert Ticker.With(k, c, Shut(t)) == Ticker.With(k1, c, Shut(t));
    r' := GoTick(r1, Ticker.Release(c), Ticker.With(k, c, Shut(t)));
  }

  /** The ticker thread takes a closed core's lock. */
  lemma TakeCore(r: seq<State>, c: nat, t: nat) returns (r': seq<State>)
    requires Run(r) && c < |Last(r).tk.cores| && Last(r).tk.cores[c] == Shut(t)
    requires Last(r).tk.current == t + 1 && Last(r).tk.pc == Ticker.Scanning(c)
    ensures Run(r')
    ensures Last(r') == Last(r).(tk :=
      Ticker.With(Last(r).tk, c, Shut(t).(holder := Ticker.TickerThread)).(pc := Ticker.Holding(c)))
  {
    var k := Last(r).tk;
    var r1 := GoTick(r, Ticker.Look, k.(pc := Ticker.Waiting(c)));
    r' := GoTick(r1, Ticker.Take, Ticker.With(k, c, Shut(t).(holder := Ticker.TickerThread)).(pc := Ticker.Holding(c)));
  }

  /** It brings the core to the current tick and lets go of it. */
  lemma OneCore(r: seq<State>, c: nat, t: nat) returns (r': seq<State>)
    requires Run(r) && c < |Last(r).tk.cores| && Last(r).tk.cores[c] == Shut(t)
    requires Last(r).tk.current == t + 1 && Last(r).tk.pc == Ticker.Scanning(c)
    ensures Run(r')
    ensures Last(r') == Last(r).(tk := Ticker.With(Last(r).tk, c, Shut(t + 1)).(pc := Ticker.Scanning(c + 1)))
  {
    var k := Last(r).tk;
    var r1 := TakeCore(r, c, t);
    var k1 := Ticker.With(k, c, Shut(t + 1).(holder := Ticker.TickerThread)).(pc := Ticker.Stored(c));
    assert k1.cores == Last(r1).tk.cores[c := Shut(t + 1).(holder := Ticker.TickerThread)];
    var r2 := GoTick(r1, Ticker.Advance, k1);
    var k2 := Ticker.With(k, c, Shut(t + 1)).(pc := Ticker.Scanning(c + 1));
    assert k2.cores == k1.cores[c := Shut(t + 1)];
    r' := GoTick(r2, Ticker.Untake, k2);
  }

  function Idle(t: nat): Ticker.State
    requires t >= 1
  {
    Ticker.State(t, t - 1, [Shut(t), Shut(t), Shut(t)], Ticker.Sleeping)
  }

  /** One round over three closed cores. */
  lemma Round(r: seq<State>, t: nat) returns (r': seq<State>)
    requires Run(r) && t >= 1 && Last(r).tk == Idle(t)
    ensures Run(r') && Last(r') == Last(r).(tk := Idle(t + 1))
  {
    var k := Last(r).tk.(current := t + 1, pc := Ticker.Scanning(0));
    var r1 := GoTick(r, Ticker.Bump, k);
    var r2 := OneCore(r1, 0, t);
    var r3 := OneCore(r2, 1, t);
    var r4 := OneCore(r3, 2, t);
    assert Last(r4).tk.cores == Idle(t + 1).cores;
    r' := GoTick(r4, Ticker.Publish, Idle(t + 1));
  }

  lemma RoIsEpoch(e: nat)
    ensures Tid.ToReadOnlyTick(e, 1) == e
  {
    if e > 0 {
      RoIsEpoch(e - 1);
    }
  }

  /** There is an identifier to choose for a core's first commit. */
  lemma FirstTid(core: nat, epoch: nat) returns (tid: nat)
    requires core < 3 && 1 <= epoch < 0x7FFF_FFFF
    ensures Tid.Chosen(tid, core, epoch, 0, {}) && Tid.MIN_TID < tid < Tid.MAX_TID && Tid.EpochId(tid) == epoch
  {
    var base := Tid.Floor(0, epoch);
    assert Tid.IsBase(base, Tid.Floor(0, epoch), {});
    tid := Tid.MakeTid(core, Tid.NumId(base) + 1, epoch);
    Tid.ChosenExceeds(tid, core, epoch, 0, {});
  }

  // ----- steps of one transaction

  /** A transaction on core c that has just begun at tick t. */
  function Begun(c: nat, t: nat): Txn
    requires t >= 1
  {
    Txn(c, t, t - 1, false, Tid.ComputeReadOnlyTid(t, 1), Running, None, [], {}, map[], [], {}, {}, {}, [], 0, 0, {},
      false, 0, map[])
  }

  lemma BeginTxn(r: seq<State>, x: nat, c: nat, t: nat) returns (r': seq<State>)
    requires Run(r) && t >= 1 && x !in Last(r).txns && Last(r).m == 1 && c < |Last(r).tk.cores| && c < |Last(r).clean|
    requires Last(r).tk.cores[c] == Opened(t) && Last(r).tk.last == t - 1 && Between(Last(r), c)
    requires Last(r).clean[c] == Resting
    ensures Run(r') && Last(r') == WithTxn(Last(r), x, Begun(c, t))
  {
    var s := Last(r);
    var s' := WithTxn(s, x, Begun(c, t));
    assert BodyStep(s, s', ABegin(x, c, false));
    r' := Go(r, s', ABegin(x, c, false));
  }

  /** A tuple just inserted by x. */
  function Planned(k: Key, x: nat, v: Value): Tuple {
    Tuple(k, Some(x), true, false, Tid.MAX_TID, v, 1, None, false, 0, false, None)
  }

  /** A tuple whose insert has been committed. */
  function Stored(k: Key, tid: nat, v: Value): Tuple {
    Tuple(k, None, true, false, tid, v, 1, None, false, 0, false, None)
  }

  lemma GoLookup(r: seq<State>, x: nat, n: Name) returns (r': seq<State>)
    requires Run(r) && IsRunning(Last(r), x) && n in Last(r).tree
    ensures Run(r') && Last(r') == WithTxn(Last(r), x, Last(r).txns[x].(cursor := Some(Last(r).tree[n])))
  {
    var s := Last(r);
    var s' := WithTxn(s, x, s.txns[x].(cursor := Some(s.tree[n])));
    assert BodyStep(s, s', ALookup(x, n));
    r' := Go(r, s', ALookup(x, n));
  }

  lemma GoRead(r: seq<State>, x: nat, p: Ptr, k: Key, tid: nat, v: Value) returns (r': seq<State>)
    requires Run(r) && IsRunning(Last(r), x) && !Last(r).txns[x].snapshot && Last(r).txns[x].cursor == Some(p)
    requires p in Last(r).tuples && Last(r).tuples[p] == Stored(k, tid, v) && tid != Tid.MAX_TID
    ensures Run(r')
    ensures Last(r') == WithTxn(Last(r), x,
      Last(r).txns[x].(cursor := None, readSet := Last(r).txns[x].readSet + [ReadRec(p, tid, v)]))
  {
    var s := Last(r);
    var s' := WithTxn(s, x, s.txns[x].(cursor := None, readSet := s.txns[x].readSet + [ReadRec(p, tid, v)]));
    assert BodyStep(s, s', ARead(x));
    r' := Go(r, s', ARead(x));
  }

  lemma GoInsert(r: seq<State>, x: nat, k: Key, v: Value, p: Ptr) returns (r': seq<State>)
    requires Run(r) && IsRunning(Last(r), x) && !Last(r).txns[x].snapshot && k.name !in Last(r).tree && Next(Last(r), k)
    requires p !in Last(r).tuples && |v| <= 1
    ensures Run(r')
    ensures var s, t := Last(r), Last(r).txns[x];
            Last(r') == s.(txns := s.txns[x := t.(inserts := t.inserts + {p}, held := t.held + {p})],
                           tuples := s.tuples[p := Planned(k, x, v)], tree := s.tree[k.name := p],
                           index := s.index[k := p], born := s.born + {k})
  {
    var s, t := Last(r), Last(r).txns[x];
    var s' := s.(txns := s.txns[x := t.(inserts := t.inserts + {p}, held := t.held + {p})],
                 tuples := s.tuples[p := Planned(k, x, v)], tree := s.tree[k.name := p],
                 index := s.index[k := p], born := s.born + {k});
    assert BodyStep(s, s', AInsert(x, k, v, p, 1));
    r' := Go(r, s', AInsert(x, k, v, p, 1));
  }

  /** A transaction that puts only to its own inserts has nothing to lock. */
  lemma GoStart(r: seq<State>, x: nat) returns (r': seq<State>)
    requires Run(r) && IsRunning(Last(r), x) && !Last(r).txns[x].snapshot
    requires Last(r).txns[x].puts.Keys <= Last(r).txns[x].inserts
    ensures Run(r')
    ensures var t := Last(r).txns[x];
            Last(r') == WithTxn(Last(r), x, t.(cursor := None, phase := Locking(0), order := [], marks := t.inserts))
  {
    var s, t := Last(r), Last(r).txns[x];
    var s' := WithTxn(s, x, t.(cursor := None, phase := Locking(0), order := [], marks := t.inserts));
    assert Elems<Ptr>([]) == t.puts.Keys - t.inserts;
    assert LockStep(s, s', AStartCommit(x, []));
    r' := Go(r, s', AStartCommit(x, []));
  }

  lemma GoSerialize(r: seq<State>, x: nat, tid: nat, w: map<Key, Value>) returns (r': seq<State>)
    requires Run(r) && AllLocked(Last(r), x) && w == Writes(Last(r), Last(r).txns[x])
    requires Last(r).txns[x].core < |Last(r).lastTid|
    requires var s, t := Last(r), Last(r).txns[x];
             if HasWrites(t)
             then s.tk.current < 0x7FFF_FFFF && Tid.Chosen(tid, t.core, s.tk.current, s.lastTid[t.core], SeenTids(s, t))
             else tid == 0
    ensures Run(r')
    ensures var s, t := Last(r), Last(r).txns[x];
            Last(r') == WithTxn(s, x, t.(phase := Validating(0), tid := tid, epoch := s.tk.current, serial := true,
              pos := |s.log|))
                        .(log := s.log + [Entry(x, tid, s.tk.current, w)],
                          lastTid := if HasWrites(t) then s.lastTid[t.core := tid] else s.lastTid)
  {
    var s, t := Last(r), Last(r).txns[x];
    var s' := WithTxn(s, x, t.(phase := Validating(0), tid := tid, epoch := s.tk.current, serial := true,
      pos := |s.log|))
              .(log := s.log + [Entry(x, tid, s.tk.current, w)],
                lastTid := if HasWrites(t) then s.lastTid[t.core := tid] else s.lastTid);
    assert CheckStep(s, s', ASerialize(x, tid));
    r' := Go(r, s', ASerialize(x, tid));
  }

  lemma GoValidate(r: seq<State>, x: nat, n: nat, p: Ptr, k: Key, tid: nat, v: Value) returns (r': seq<State>)
    requires Run(r) && x in Last(r).txns && Last(r).txns[x].phase == Validating(n) && n < |Last(r).txns[x].readSet|
    requires Last(r).txns[x].readSet[n] == ReadRec(p, tid, v) && p in Last(r).tuples
    requires Last(r).tuples[p] == Stored(k, tid, v)
    ensures Run(r') && Last(r') == WithTxn(Last(r), x, Last(r).txns[x].(phase := Validating(n + 1)))
  {
    var s := Last(r);
    var s' := WithTxn(s, x, s.txns[x].(phase := Validating(n + 1)));
    assert CheckStep(s, s', AValidate(x));
    r' := Go(r, s', AValidate(x));
  }

  lemma GoDecide(r: seq<State>, x: nat) returns (r': seq<State>)
    requires Run(r) && x in Last(r).txns && Last(r).txns[x].phase == Validating(|Last(r).txns[x].readSet|)
    ensures Run(r') && Last(r') == WithTxn(Last(r), x, Last(r).txns[x].(phase := Writing))
  {
    var s := Last(r);
    var s' := WithTxn(s, x, s.txns[x].(phase := Writing));
    assert CheckStep(s, s', ADecide(x));
    r' := Go(r, s', ADecide(x));
  }

  /** The insert of p, a new key, is committed, with the value put over it if there is one. */
  lemma GoApply(r: seq<State>, x: nat, p: Ptr, k: Key, v: Value, w: Value) returns (r': seq<State>)
    requires Run(r) && x in Last(r).txns && Last(r).txns[x].phase == Writing && p in Last(r).txns[x].inserts
    requires w == (if p in Last(r).txns[x].puts then Last(r).txns[x].puts[p] else v)
    requires p in Last(r).tuples && Last(r).tuples[p] == Planned(k, x, v) && H(Last(r), k) == []
    ensures Run(r')
    ensures var s, t := Last(r), Last(r).txns[x];
            Last(r') == s.(txns := s.txns[x := t.(applied := t.applied[k := 0])],
                           tuples := s.tuples[p := Planned(k, x, v).(version := t.tid, draft := p in t.puts)],
                           hist := s.hist[k := [Ver(t.pos, t.tid, t.epoch, w)]])
  {
    var s, t := Last(r), Last(r).txns[x];
    var s' := s.(txns := s.txns[x := t.(applied := t.applied[k := 0])],
                 tuples := s.tuples[p := Planned(k, x, v).(version := t.tid, draft := p in t.puts)],
                 hist := s.hist[k := [Ver(t.pos, t.tid, t.epoch, w)]]);
    assert H(s, k) + [Ver(t.pos, t.tid, t.epoch, w)] == [Ver(t.pos, t.tid, t.epoch, w)];
    assert WriteStep(s, s', AWriteInsert(x, p));
    r' := Go(r, s', AWriteInsert(x, p));
  }

  lemma GoEnd(r: seq<State>, x: nat) returns (r': seq<State>)
    requires Run(r) && x in Last(r).txns && Last(r).txns[x].phase == Writing
    requires Last(r).txns[x].written == Last(r).txns[x].puts.Keys
    requires forall p :: p in Last(r).txns[x].inserts ==>
      p in Last(r).tuples && Last(r).tuples[p].version != Tid.MAX_TID
    ensures Run(r') && Last(r') == WithTxn(Last(r), x, Last(r).txns[x].(phase := Unlocking))
  {
    var s := Last(r);
    var s' := WithTxn(s, x, s.txns[x].(phase := Unlocking));
    assert FreeStep(s, s', AEndWriting(x));
    r' := Go(r, s', AEndWriting(x));
  }

  lemma GoUnlock(r: seq<State>, x: nat, p: Ptr, k: Key, tid: nat, v: Value) returns (r': seq<State>)
    requires Run(r) && x in Last(r).txns && Last(r).txns[x].phase == Unlocking && p in Last(r).txns[x].marks
    requires p in Last(r).tuples && Last(r).tuples[p].(modifying := false) == Planned(k, x, v).(version := tid)
    ensures Run(r')
    ensures var s, t := Last(r), Last(r).txns[x];
            Last(r') == s.(txns := s.txns[x := t.(held := t.held - {p}, marks := t.marks - {p})],
                           tuples := s.tuples[p := Stored(k, tid, v)])
  {
    var s, t := Last(r), Last(r).txns[x];
    var s' := s.(txns := s.txns[x := t.(held := t.held - {p}, marks := t.marks - {p})],
      tuples := s.tuples[p := Stored(k, tid, v)]);
    assert FreeStep(s, s', AUnlock(x, p));
    r' := Go(r, s', AUnlock(x, p));
  }

  lemma GoFinish(r: seq<State>, x: nat) returns (r': seq<State>)
    requires Run(r) && x in Last(r).txns && Last(r).txns[x].phase == Unlocking && Last(r).txns[x].marks == {}
    ensures Run(r') && Last(r') == WithTxn(Last(r), x, Last(r).txns[x].(phase := Committed))
  {
    var s := Last(r);
    var s' := WithTxn(s, x, s.txns[x].(phase := Committed));
    assert FreeStep(s, s', AFinish(x));
    r' := Go(r, s', AFinish(x));
  }

  /** A put over the transaction's own insert of one character, by a deletion, in epoch 1 under multiplier 1. */
  lemma GoDelete(r: seq<State>, p: Ptr, k: Key) returns (r': seq<State>)
    requires Run(r) && 0 in Last(r).txns && Last(r).txns[0].phase == Writing && p in Last(r).txns[0].puts
    requires Last(r).m == 1
    requires var s, t := Last(r), Last(r).txns[0];
             && t.puts[p] == "" && p in t.inserts && p !in t.written && t.core == 0 < |s.queue| && t.epoch == 1
             && t.tid != Tid.MAX_TID
             && p in s.tuples && s.tuples[p] == Planned(k, 0, "a").(version := t.tid, draft := true)
    ensures Run(r')
    ensures var s, t := Last(r), Last(r).txns[0];
            Last(r') == s.(txns := s.txns[0 := t.(written := t.written + {p})],
                           tuples := s.tuples[p := Planned(k, 0, "").(version := t.tid, modifying := true)],
                           queue := s.queue[0 := s.queue[0] + [Item(p, 1, true)]])
  {
    var s, t := Last(r), Last(r).txns[0];
    var s' := s.(txns := s.txns[0 := t.(written := t.written + {p})],
                 tuples := s.tuples[p := Planned(k, 0, "").(version := t.tid, modifying := true)],
                 queue := s.queue[0 := s.queue[0] + [Item(p, 1, true)]]);
    RoIsEpoch(1);
    assert WriteStep(s, s', APutInPlace(0, p));
    r' := Go(r, s', APutInPlace(0, p));
  }

  lemma GoPut(r: seq<State>, x: nat, p: Ptr, v: Value) returns (r': seq<State>)
    requires Run(r) && IsRunning(Last(r), x) && !Last(r).txns[x].snapshot && Last(r).txns[x].cursor == Some(p)
    requires p in Last(r).tuples
    ensures Run(r')
    ensures Last(r') == WithTxn(Last(r), x, Last(r).txns[x].(cursor := None, puts := Last(r).txns[x].puts[p := v]))
  {
    var s := Last(r);
    var s' := WithTxn(s, x, s.txns[x].(cursor := None, puts := s.txns[x].puts[p := v]));
    assert BodyStep(s, s', APut(x, v));
    r' := Go(r, s', APut(x, v));
  }

  function Start(): State {
    State(1, 1, Idle(1), map[], map[], map[], [0, 0, 0], [[], [], []], [0, 0, 0], [Resting, Resting, Resting],
      [[], [], []],
          map[], {}, {}, map[], [], map[])
  }

  // ----- the first transaction inserts k and deletes it again

  lemma Begins() returns (r: seq<State>)
    ensures Run(r) && Last(r) == Start()
  {
    var s := Start();
    assert s.lastTid == seq(3, _ => 0) && s.gc == seq(3, _ => 0) && s.queue == seq(3, _ => []);
    assert s.rcu == seq(3, _ => []);
    assert s.clean == seq(3, _ => Resting);
    r := [s];
  }

  function Tick1(): Ticker.State {
    Ticker.State(1, 0, [Opened(1), Shut(1), Shut(1)], Ticker.Sleeping)
  }

  /** The first transaction with its insert and its put, and nothing else anywhere. */
  ghost predicate Planting0(s: State, t: Txn) {
    && s == Start().(tk := Tick1(), tuples := map[0 := Planned(K, 0, "a")], tree := map["k" := 0], txns := map[0 := t],
                     index := map[K := 0], born := {K})
    && t.core == 0 && !t.snapshot && t.phase == Running && t.inserts == {0} && t.puts == map[0 := ""] && t.readSet == []
    && t.written == {} && t.applied == map[] && t.unlinked == {}
  }

  lemma InsertFirst() returns (r: seq<State>, t: Txn)
    ensures Run(r) && Planting0(Last(r), t)
  {
    r := Begins();
    r := OpenGuard(r, 0);
    assert Last(r).tk == Tick1();
    r := BeginTxn(r, 0, 0, 1);
    r := GoInsert(r, 0, K, "a", 0);
    r := GoLookup(r, 0, "k");
    r := GoPut(r, 0, 0, "");
    var s := Last(r);
    t := s.txns[0];
    assert s.txns == map[0 := t] && s.tuples == map[0 := Planned(K, 0, "a")] && s.tree == map["k" := 0];
    assert s.index == map[K := 0] && s.born == {K};
  }

  lemma FirstWrites(s: State, t: Txn)
    requires t.inserts == {0} && t.puts == map[0 := ""] && t.readSet == [] && s.index == map[K := 0]
    ensures Writes(s, t) == map[K := ""] && SeenTids(s, t) == {}
  {
  }

  /** It is decided, at log position 0. */
  ghost predicate Writing0(s: State, a: nat, t: Txn) {
    && s == Start().(tk := Tick1(), tuples := map[0 := Planned(K, 0, "a")], tree := map["k" := 0], txns := map[0 := t],
                     index := map[K := 0], born := {K}, log := [Entry(0, a, 1, map[K := ""])], lastTid := [a, 0, 0])
    && t.core == 0 && t.phase == Writing && t.inserts == {0} && t.puts == map[0 := ""] && t.marks == {0}
    && t.written == {} && t.tid == a && t.epoch == 1 && t.pos == 0
  }

  lemma CommitFirst() returns (r: seq<State>, a: nat, t: Txn)
    ensures Run(r) && Tid.MIN_TID < a < Tid.MAX_TID && Writing0(Last(r), a, t)
  {
    r, t := InsertFirst();
    r := GoStart(r, 0);
    a := FirstTid(0, 1);
    FirstWrites(Last(r), Last(r).txns[0]);
    r := GoSerialize(r, 0, a, map[K := ""]);
    r := GoDecide(r, 0);
    var s := Last(r);
    t := s.txns[0];
    assert s.txns == map[0 := t] && s.log == [Entry(0, a, 1, map[K := ""])] && s.lastTid == [a, 0, 0];
  }

  /** The deletion marker is in the tree and on core 0's queue. */
  function Marked(a: nat, t: Txn): State {
    Start().(tk := Tick1(), tuples := map[0 := Stored(K, a, "")], tree := map["k" := 0], txns := map[0 := t],
             queue := [[Item(0, 1, true)], [], []], lastTid := [a, 0, 0], index := map[K := 0], born := {K},
             log := [Entry(0, a, 1, map[K := ""])], hist := map[K := [Ver(0, a, 1, "")]])
  }

  /** The write is applied; the locks are still held. */
  ghost predicate Applied0(s: State, a: nat, t: Txn) {
    && s == Marked(a, t).(tuples := map[0 := Planned(K, 0, "").(version := a, modifying := true)])
    && t.core == 0 && t.phase == Writing && t.inserts == {0} && t.puts == map[0 := ""] && t.marks == {0}
    && t.written == {0}
  }

  lemma ApplyFirst() returns (r: seq<State>, a: nat, t: Txn)
    ensures Run(r) && Tid.MIN_TID < a < Tid.MAX_TID && Applied0(Last(r), a, t)
  {
    r, a, t := CommitFirst();
    r := GoApply(r, 0, 0, K, "a", "");
    r := GoDelete(r, 0, K);
    var s := Last(r);
    t := s.txns[0];
    assert t.written == {0};
    assert s.txns == map[0 := t] && s.hist == map[K := [Ver(0, a, 1, "")]];
    assert s.queue[0] == [Item(0, 1, true)];
    assert s.queue == [[Item(0, 1, true)], [], []];
  }

  lemma WriteFirst() returns (r: seq<State>, a: nat, t: Txn)
    ensures Run(r) && Tid.MIN_TID < a < Tid.MAX_TID && Last(r) == Marked(a, t) && t.phase == Committed && t.core == 0
  {
    r, a, t := ApplyFirst();
    r := GoEnd(r, 0);
    r := GoUnlock(r, 0, 0, K, a, "");
    r := GoFinish(r, 0);
    t := Last(r).txns[0];
    assert Last(r).txns == map[0 := t] && Last(r).tuples == map[0 := Stored(K, a, "")];
  }

  // ----- two epochs later, a reader finds the marker and the cleaner takes its key out of the tree

  lemma TwoRounds() returns (r: seq<State>, a: nat, t: Txn)
    ensures Run(r) && Tid.MIN_TID < a < Tid.MAX_TID && Last(r) == Marked(a, t).(tk := Idle(3)) && t.phase == Committed
    ensures t.core == 0
  {
    r, a, t := WriteFirst();
    r := CloseGuard(r, 0, 1);
    assert Last(r).tk == Idle(1);
    r := Round(r, 1);
    r := Round(r, 2);
  }

  lemma GoLoad(r: seq<State>) returns (r': seq<State>)
    requires Run(r) && Last(r).tk == Idle(3) && Last(r).gc == [0, 0, 0] && Last(r).m == 1
    ensures Run(r') && Last(r') == Last(r).(gc := [2, 0, 0])
  {
    var s := Last(r);
    var s' := s.(gc := [2, 0, 0]);
    RoIsEpoch(2);
    assert s'.gc == s.gc[0 := 2];
    assert ClockStep(s, s', AGcLoad(0));
    r' := Go(r, s', AGcLoad(0));
  }

  function Tick3(): Ticker.State {
    Ticker.State(3, 2, [Shut(3), Opened(3), Opened(3)], Ticker.Sleeping)
  }

  lemma Age() returns (r: seq<State>, a: nat, t: Txn)
    ensures Run(r) && Tid.MIN_TID < a < Tid.MAX_TID && t.phase == Committed && t.core == 0
    ensures Last(r) == Marked(a, t).(tk := Tick3(), gc := [2, 0, 0])
  {
    r, a, t := TwoRounds();
    r := GoLoad(r);
    r := OpenGuard(r, 1);
    r := OpenGuard(r, 2);
    assert Last(r).tk == Tick3();
  }

  function Reader(a: nat): Txn { Begun(1, 3).(readSet := [ReadRec(0, a, "")]) }

  lemma ReadMarker() returns (r: seq<State>, a: nat, t: Txn)
    ensures Run(r) && Tid.MIN_TID < a < Tid.MAX_TID && t.phase == Committed && t.core == 0
    ensures Last(r) == Marked(a, t).(tk := Tick3(), gc := [2, 0, 0], txns := map[0 := t, 1 := Reader(a)])
  {
    r, a, t := Age();
    r := BeginTxn(r, 1, 1, 3);
    r := GoLookup(r, 1, "k");
    r := GoRead(r, 1, 0, K, a, "");
    assert Last(r).txns[1].readSet == [ReadRec(0, a, "")];
    assert Last(r).txns == map[0 := t, 1 := Reader(a)];
  }

  lemma GoLock(r: seq<State>, p: Ptr) returns (r': seq<State>)
    requires Run(r) && Last(r).queue == [[Item(p, 1, true)], [], []] && Last(r).gc == [2, 0, 0] && Between(Last(r), 0)
    requires Last(r).clean == [Resting, Resting, Resting] && p in Last(r).tuples && Last(r).tuples[p].latest
    requires Last(r).tuples[p].owner == None
    ensures Run(r') && Last(r') == Last(r).(queue := [[], [], []], clean := [Locked(p), Resting, Resting])
  {
    var s := Last(r);
    var s' := s.(queue := [[], [], []], clean := [Locked(p), Resting, Resting]);
    assert s.queue[0][1..] == [];
    assert s'.queue == s.queue[0 := []] && s'.clean == s.clean[0 := Locked(p)];
    assert CleanStep(s, s', ACleanLock(0));
    r' := Go(r, s', ACleanLock(0));
  }

  lemma GoRemove(r: seq<State>, p: Ptr) returns (r': seq<State>)
    requires Run(r) && Last(r).clean == [Locked(p), Resting, Resting] && Ticker.Open(Last(r).tk, 0)
    requires p in Last(r).tuples
    ensures Run(r')
    ensures var s := Last(r);
            Last(r') == s.(tree := s.tree - {s.tuples[p].key.name}, shut := s.shut + {s.tuples[p].key},
                           clean := [Removed(p), Resting, Resting])
  {
    var s := Last(r);
    var s' := s.(tree := s.tree - {s.tuples[p].key.name}, shut := s.shut + {s.tuples[p].key},
      clean := [Removed(p), Resting, Resting]);
    assert s'.clean == s.clean[0 := Removed(p)];
    assert CleanStep(s, s', ACleanRemove(0));
    r' := Go(r, s', ACleanRemove(0));
  }

  function Tick4(): Ticker.State {
    Ticker.State(3, 2, [Opened(3), Opened(3), Opened(3)], Ticker.Sleeping)
  }

  /** What the second writer and the reader find. */
  ghost predicate AtWork(s: State, a: nat, t: Txn) {
    && s.m == 1 && s.tk == Tick4() && s.lastTid == [a, 0, 0] && s.clean == [Removed(0), Resting, Resting]
    && s.tuples == map[0 := Stored(K, a, "")] && s.tree == map[] && s.txns == map[0 := t, 1 := Reader(a)]
    && s.index == map[K := 0] && s.born == {K} && s.hist == map[K := [Ver(0, a, 1, "")]]
    && s.log == [Entry(0, a, 1, map[K := ""])]
  }

  lemma Clean() returns (r: seq<State>, a: nat, t: Txn)
    ensures Run(r) && Tid.MIN_TID < a < Tid.MAX_TID && t.phase == Committed && t.core == 0 && AtWork(Last(r), a, t)
  {
    r, a, t := ReadMarker();
    r := GoLock(r, 0);
    r := OpenGuard(r, 0);
    assert Last(r).tk == Tick4();
    r := GoRemove(r, 0);
    assert Last(r).tree == map[];
  }

  // ----- the second writer inserts k anew, and y

  /** The second writer has its two tuples in the tree. */
  ghost predicate Planting2(s: State, a: nat, t0: Txn, t: Txn) {
    && s.m == 1 && s.tk == Tick4() && s.lastTid == [a, 0, 0] && s.hist == map[K := [Ver(0, a, 1, "")]]
    && s.tuples == map[0 := Stored(K, a, ""), 1 := Planned(K1, 2, "b"), 2 := Planned(Y, 2, "c")]
    && s.tree == map["k" := 1, "y" := 2] && s.txns == map[0 := t0, 1 := Reader(a), 2 := t]
    && s.index == map[K := 0, K1 := 1, Y := 2] && s.log == [Entry(0, a, 1, map[K := ""])]
  }

  /** The second writer with its two inserts. */
  function Second(phase: Phase, marks: set<Ptr>): Txn {
    Begun(2, 3).(inserts := {1, 2}, held := {1, 2}, marks := marks, phase := phase)
  }

  lemma InsertSecond() returns (r: seq<State>, a: nat, t0: Txn)
    ensures Run(r) && Tid.MIN_TID < a < Tid.MAX_TID && Planting2(Last(r), a, t0, Second(Running, {}))
  {
    r, a, t0 := Clean();
    r := BeginTxn(r, 2, 2, 3);
    r := GoInsert(r, 2, K1, "b", 1);
    r := GoInsert(r, 2, Y, "c", 2);
    assert Last(r).txns[2].inserts == {1, 2} && Last(r).txns[2].held == {1, 2};
  }

  lemma LockSecond() returns (r: seq<State>, a: nat, t0: Txn)
    ensures Run(r) && Tid.MIN_TID < a < Tid.MAX_TID && Planting2(Last(r), a, t0, Second(Locking(0), {1, 2}))
  {
    r, a, t0 := InsertSecond();
    r := GoStart(r, 2);
  }

  lemma SecondWrites(s: State, t: Txn)
    requires t.inserts == {1, 2} && t.puts == map[] && t.readSet == [] && s.index == map[K := 0, K1 := 1, Y := 2]
    requires 1 in s.tuples && s.tuples[1].value == "b" && 2 in s.tuples && s.tuples[2].value == "c"
    ensures Writes(s, t) == map[K1 := "b", Y := "c"] && SeenTids(s, t) == {}
  {
  }

  /** It is decided, at log position 1. */
  ghost predicate Writing2(s: State, a: nat, b: nat, t: Txn) {
    && s.m == 1 && s.tk == Tick4() && |s.lastTid| == 3 && s.hist == map[K := [Ver(0, a, 1, "")]]
    && s.tuples == map[0 := Stored(K, a, ""), 1 := Planned(K1, 2, "b"), 2 := Planned(Y, 2, "c")]
    && s.tree == map["k" := 1, "y" := 2] && 1 in s.txns && s.txns[1] == Reader(a) && 2 in s.txns && s.txns[2] == t
    && s.log == [Entry(0, a, 1, map[K := ""]), Entry(2, b, 3, map[K1 := "b", Y := "c"])]
    && t.inserts == {1, 2} && t.marks == {1, 2} && t.puts == map[] && t.written == {}
    && t.phase == Writing && t.tid == b && t.pos == 1
  }

  lemma CommitSecond() returns (r: seq<State>, a: nat, b: nat, t: Txn)
    ensures Run(r) && Tid.MIN_TID < a < Tid.MAX_TID && Tid.MIN_TID < b < Tid.MAX_TID && Writing2(Last(r), a, b, t)
  {
    var t0;
    r, a, t0 := LockSecond();
    b := FirstTid(2, 3);
    SecondWrites(Last(r), Last(r).txns[2]);
    r := GoSerialize(r, 2, b, map[K1 := "b", Y := "c"]);
    r := GoDecide(r, 2);
    t := Last(r).txns[2];
  }

  /** It has written and is giving its locks back, y's first. */
  ghost predicate Written2(s: State, a: nat, b: nat) {
    && s.m == 1 && s.tk == Tick4() && |s.lastTid| == 3
    && 0 in s.tuples && s.tuples[0] == Stored(K, a, "") && 2 in s.tuples && s.tuples[2] == Stored(Y, b, "c")
    && "y" in s.tree && s.tree["y"] == 2 && 1 in s.txns && s.txns[1] == Reader(a)
    && 2 in s.txns && s.txns[2].phase == Unlocking
    && s.log == [Entry(0, a, 1, map[K := ""]), Entry(2, b, 3, map[K1 := "b", Y := "c"])]
  }

  lemma WriteSecond() returns (r: seq<State>, a: nat, b: nat)
    ensures Run(r) && Tid.MIN_TID < a < Tid.MAX_TID && Tid.MIN_TID < b < Tid.MAX_TID && Written2(Last(r), a, b)
  {
    var t;
    r, a, b, t := CommitSecond();
    r := GoApply(r, 2, 1, K1, "b", "b");
    r := GoApply(r, 2, 2, Y, "c", "c");
    r := GoEnd(r, 2);
    r := GoUnlock(r, 2, 2, Y, b, "c");
  }

  // ----- the reader reads y and commits

  lemma ReaderWrites(s: State, t: Txn)
    requires t.inserts == {} && t.puts == map[]
    ensures Writes(s, t) == map[]
  {
  }

  /** The reader and the second writer when the reader is past its checks. */
  ghost predicate Fractured(s: State, a: nat, b: nat) {
    && 0 in s.tuples && s.tuples[0].key == K && 2 in s.tuples && s.tuples[2].key == Y
    && 1 in s.txns && s.txns[1].readSet == [ReadRec(0, a, ""), ReadRec(2, b, "c")]
    && !s.txns[1].snapshot && s.txns[1].phase == Writing && s.txns[1].pos == 2
    && |s.log| == 3 && s.log[1].writes == map[K1 := "b", Y := "c"] && DecidedAt(s, 1)
  }

  lemma ReadBoth() returns (r: seq<State>, a: nat, b: nat, t: Txn)
    ensures Run(r) && Written2(Last(r).(txns := Last(r).txns[1 := Reader(a)]), a, b) && 1 in Last(r).txns
    ensures Last(r).txns[1] == t
    ensures t == Begun(1, 3).(readSet := [ReadRec(0, a, ""), ReadRec(2, b, "c")])
  {
    r, a, b := WriteSecond();
    r := GoLookup(r, 1, "y");
    r := GoRead(r, 1, 2, Y, b, "c");
    t := Last(r).txns[1];
    assert t.readSet == [ReadRec(0, a, ""), ReadRec(2, b, "c")];
  }

  lemma CommitReader() returns (r: seq<State>, a: nat, b: nat)
    ensures Run(r) && Fractured(Last(r), a, b)
  {
    var t;
    r, a, b, t := ReadBoth();
    r := GoStart(r, 1);
    ReaderWrites(Last(r), Last(r).txns[1]);
    r := GoSerialize(r, 1, 0, map[]);
    r := GoValidate(r, 1, 0, 0, K, a, "");
    r := GoValidate(r, 1, 1, 2, Y, b, "c");
    r := GoDecide(r, 1);
  }

  /** What the second writer's entry says. */
  lemma SecondEntry(e: Entry)
    requires e.writes == map[K1 := "b", Y := "c"]
    ensures WritesName(e, "k") && WritesName(e, "y") && NameValue(e, "k") == "b" && NameValue(e, "y") == "c"
  {
    assert K1 in e.writes && Y in e.writes;
  }

  lemma SecondWroteLast(s: State)
    requires |s.log| == 3 && s.log[1].writes == map[K1 := "b", Y := "c"] && DecidedAt(s, 1)
    ensures LastWriter(s, 2, "k") == Some(1) && LastWriter(s, 2, "y") == Some(1)
    ensures Replay(s, 2, "y") == Some("c") && Replay(s, 2, "k") == Some("b")
  {
    SecondEntry(s.log[1]);
  }

  /** A transaction commits though it reads k as deleted and y as the second writer left it, which had by then given k
      a new value: the one transaction last wrote both names before it. */
  lemma CleanerBreaksOrder() returns (r: seq<State>)
    ensures Run(r) && 1 in Last(r).txns
    ensures var s, t := Last(r), Last(r).txns[1];
            && !t.snapshot && Decided(t) && t.pos == 2 <= |s.log| && |t.readSet| == 2
            && t.readSet[0].ptr in s.tuples && s.tuples[t.readSet[0].ptr].key.name == "k" && t.readSet[0].value == ""
            && t.readSet[1].ptr in s.tuples && s.tuples[t.readSet[1].ptr].key.name == "y" && t.readSet[1].value == "c"
            && LastWriter(s, 2, "k") == Some(1) && LastWriter(s, 2, "y") == Some(1)
            && Replay(s, 2, "y") == Some("c") && Replay(s, 2, "k") == Some("b")
  {
    var a, b;
    r, a, b := CommitReader();
    SecondWroteLast(Last(r));
  }
}
