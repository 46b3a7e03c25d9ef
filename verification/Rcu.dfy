/** Deferred frees over the ticker (silo/rcu.cc, silo/rcu.h): who may still hold a pointer when its
    free routine runs. */
module Rcu {
  import Ticker
  import Tid

  /** A delete_entry, with the rcu tick it was queued at. */
  datatype Item = Item(id: nat, tick: nat)

  /** One core's rcu::sync. */
  datatype Sync = Sync(queue: seq<Item>, limit: nat, scratch: seq<Item>, reaped: nat)

  datatype State = State(
    m: nat,                    // EpochTimeMultiplier
    tk: Ticker.State,
    syncs: seq<Sync>,
    ticks: map<nat, nat>)      // history: the rcu tick of every entry ever queued

  function ToRcuTicks(ticks: nat, m: nat): nat
    requires m >= 1
  {
    ticks / m
  }

  lemma ToRcuTicksMonotone(a: nat, b: nat, m: nat)
    requires m >= 1 && a <= b
    ensures ToRcuTicks(a, m) <= ToRcuTicks(b, m)
  {
    Tid.ReadOnlyTickMonotone(a, b, m);
    Tid.ReadOnlyTickIsQuotient(a, m);
    Tid.ReadOnlyTickIsQuotient(b, m);
  }

  ghost predicate Init(s: State) {
    && s.m >= 1 && Ticker.Init(s.tk) && s.ticks == map[]
    && s.syncs == seq(|s.tk.cores|, _ => Sync([], 0, [], 0))
  }

  ghost predicate Tick(s: State, s': State, a: Ticker.Action, tk: Ticker.State) {
    Ticker.Step(s.tk, tk, a) && s' == s.(tk := tk)
  }

  /** free_with_fn and dealloc_rcu, under a guard of the calling core. */
  ghost predicate Free(s: State, s': State, c: nat, id: nat) {
    && Ticker.Open(s.tk, c) && c < |s.syncs| && s.m >= 1 && id !in s.ticks
    && var tick := ToRcuTicks(s.tk.cores[c].tick + 1, s.m);
       s' == s.(syncs := s.syncs[c := s.syncs[c].(queue := s.syncs[c].queue + [Item(id, tick)])],
                ticks := s.ticks[id := tick])
  }

  /** do_cleanup computes the cleaning tick, and goes on only if there is something new to reap. */
  ghost predicate StartCleanup(s: State, s': State, c: nat) {
    && c < |s.syncs| && s.m >= 1 && s.syncs[c].scratch == [] && s.syncs[c].limit == 0
    && var ex := ToRcuTicks(s.tk.last + 1, s.m);
       && ex > 0 && s.syncs[c].reaped != ex - 1
       && s' == s.(syncs := s.syncs[c := s.syncs[c].(limit := ex, reaped := ex - 1)])
  }

  /** How many entries at the front of a queue have a tick below the limit. */
  function Ripe(q: seq<Item>, limit: nat): (n: nat)
    ensures n <= |q|
    ensures forall i :: 0 <= i < n ==> q[i].tick < limit
    ensures n < |q| ==> q[n].tick >= limit
  {
    if q == [] || q[0].tick >= limit then 0 else 1 + Ripe(q[1..], limit)
  }

  ghost predicate Accept(s: State, s': State, c: nat) {
    && c < |s.syncs| && s.syncs[c].limit > 0
    && var y := s.syncs[c];
       var n := Ripe(y.queue, y.limit);
       s' == s.(syncs := s.syncs[c := y.(queue := y.queue[n..], limit := 0, scratch := y.scratch + y.queue[..n])])
  }

  /** The next free routine runs. */
  ghost predicate RunFree(s: State, s': State, c: nat, id: nat) {
    && c < |s.syncs| && s.syncs[c].scratch != [] && s.syncs[c].scratch[0].id == id
    && s' == s.(syncs := s.syncs[c := s.syncs[c].(scratch := s.syncs[c].scratch[1..])])
  }

  datatype Action =
    | ATick(a: Ticker.Action, tk: Ticker.State) | AFree(c: nat, id: nat)
    | AStartCleanup(c: nat) | AAccept(c: nat) | ARunFree(c: nat, id: nat)

  ghost predicate Step(s: State, s': State, a: Action) {
    match a
    case ATick(b, tk) => Tick(s, s', b, tk)
    case AFree(c, id) => Free(s, s', c, id)
    case AStartCleanup(c) => StartCleanup(s, s', c)
    case AAccept(c) => Accept(s, s', c)
    case ARunFree(c, id) => RunFree(s, s', c, id)
  }

  // ----- invariant

  ghost predicate Known(s: State, q: seq<Item>) {
    forall i :: 0 <= i < |q| ==> q[i].id in s.ticks && s.ticks[q[i].id] == q[i].tick
  }

  ghost predicate SyncOf(s: State, y: Sync)
    requires s.m >= 1
  {
    && Known(s, y.queue) && Known(s, y.scratch)
    && y.limit <= ToRcuTicks(s.tk.last + 1, s.m)
    && (y.reaped > 0 ==> y.reaped < ToRcuTicks(s.tk.last + 1, s.m))
    && forall i :: 0 <= i < |y.scratch| ==> y.scratch[i].tick < ToRcuTicks(s.tk.last + 1, s.m)
  }

  ghost predicate Inv(s: State) {
    && s.m >= 1 && Ticker.Inv(s.tk) && |s.syncs| == |s.tk.cores|
    && forall c :: 0 <= c < |s.syncs| ==> SyncOf(s, s.syncs[c])
  }

  lemma TickKeepsInv(s: State, s': State, a: Ticker.Action, tk: Ticker.State)
    requires Inv(s) && Tick(s, s', a, tk)
    ensures Inv(s')
  {
    Ticker.StepKeepsInv(s.tk, tk, a);
    Ticker.StepEffects(s.tk, tk, a);
    ToRcuTicksMonotone(s.tk.last + 1, tk.last + 1, s.m);
    forall c | 0 <= c < |s'.syncs| ensures SyncOf(s', s'.syncs[c]) {
      assert SyncOf(s, s.syncs[c]);
    }
  }

  lemma StepKeepsInv(s: State, s': State, a: Action)
    requires Inv(s) && Step(s, s', a)
    ensures Inv(s')
  {
    if a.ATick? {
      TickKeepsInv(s, s', a.a, a.tk);
    } else {
      forall c | 0 <= c < |s'.syncs| ensures SyncOf(s', s'.syncs[c]) {
        assert SyncOf(s, s.syncs[c]);
      }
    }
  }

  ghost predicate Run(r: seq<State>) {
    && |r| > 0 && Init(r[0])
    && forall i :: 0 <= i < |r| - 1 ==> Linked(r, i)
  }

  ghost predicate Linked(r: seq<State>, i: nat)
    requires i + 1 < |r|
  {
    exists a {:trigger Step(r[i], r[i + 1], a)} :: Step(r[i], r[i + 1], a)
  }

  lemma {:induction false} RunInv(r: seq<State>, n: nat)
    requires Run(r) && n < |r|
    ensures Inv(r[n]) && r[n].m == r[0].m
  {
    if n == 0 {
      Ticker.InitEstablishesInv(r[0].tk);
    } else {
      RunInv(r, n - 1);
      assert Linked(r, n - 1);
      var a :| Step(r[n - 1], r[n], a);
      StepKeepsInv(r[n - 1], r[n], a);
    }
  }

  /** Entries keep the tick they were queued with, and an open guard keeps its tick. */
  lemma {:induction false} Meanwhile(r: seq<State>, i: nat, j: nat, d: nat, id: nat)
    requires Run(r) && i <= j < |r|
    requires id in r[i].ticks && forall n :: i <= n <= j ==> Ticker.Open(r[n].tk, d)
    ensures id in r[j].ticks && r[j].ticks[id] == r[i].ticks[id]
    ensures Ticker.Open(r[i].tk, d) && Ticker.Open(r[j].tk, d) && r[j].tk.cores[d].tick == r[i].tk.cores[d].tick
  {
    assert Ticker.Open(r[i].tk, d);
    if i < j {
      Meanwhile(r, i, j - 1, d, id);
      RunInv(r, j - 1);
      assert Linked(r, j - 1);
      var a :| Step(r[j - 1], r[j], a);
      assert Ticker.Open(r[j].tk, d);
      StepMeanwhile(r[j - 1], r[j], a, d, id);
    }
  }

  /** One step leaves the tick of an open guard and of a request already made. */
  lemma StepMeanwhile(s: State, s': State, a: Action, d: nat, id: nat)
    requires Inv(s) && Step(s, s', a) && id in s.ticks && Ticker.Open(s.tk, d) && Ticker.Open(s'.tk, d)
    ensures id in s'.ticks && s'.ticks[id] == s.ticks[id] && s'.tk.cores[d].tick == s.tk.cores[d].tick
  {
    if a.ATick? {
      Ticker.StepEffects(s.tk, s'.tk, a.a);
    }
  }

  /** While a guard stays open, last stays at or below the tick of every free requested under it. */
  lemma GuardHoldsBack(r: seq<State>, i: nat, j: nat, c: nat, d: nat, id: nat)
    requires Run(r) && i < j < |r| && Free(r[i], r[i + 1], c, id)
    requires forall n :: i <= n <= j ==> Ticker.Open(r[n].tk, d)
    ensures r[j].tk.last <= r[i].tk.cores[c].tick
    ensures id in r[j].ticks && r[j].ticks[id] == ToRcuTicks(r[i].tk.cores[c].tick + 1, r[i].m)
  {
    RunInv(r, i);
    RunInv(r, j);
    assert Ticker.Open(r[i + 1].tk, d) && Ticker.Open(r[i].tk, d);
    Meanwhile(r, i + 1, j, d, id);
    Ticker.OpenGuardBounds(r[i].tk, c);
    Ticker.OpenGuardBounds(r[i].tk, d);
    Ticker.OpenGuardBounds(r[j].tk, d);
  }

  /** Grace period: by the time a deferred free runs, every guard that was open when it was
      requested has been closed in between, whatever the multiplier. */
  lemma GracePeriod(r: seq<State>, i: nat, j: nat, c: nat, e: nat, d: nat, id: nat)
    requires Run(r) && i < j && j + 1 < |r|
    requires Free(r[i], r[i + 1], c, id) && RunFree(r[j], r[j + 1], e, id)
    requires Ticker.Open(r[i].tk, d)
    ensures exists n :: i < n <= j && !Ticker.Open(r[n].tk, d)
  {
    if forall n :: i < n <= j ==> Ticker.Open(r[n].tk, d) {
      GuardHoldsBack(r, i, j, c, d, id);
      RunInv(r, i);
      RunInv(r, j);
      ToRcuTicksMonotone(r[j].tk.last + 1, r[i].tk.cores[c].tick + 1, r[i].m);
      assert false;
    }
  }

  /** The assertion of do_cleanup: what was reaped is never ahead of what may be reaped now. */
  lemma ReapedStaysBehind(r: seq<State>, n: nat, c: nat)
    requires Run(r) && n < |r| && c < |r[n].syncs| && r[n].m >= 1 && ToRcuTicks(r[n].tk.last + 1, r[n].m) > 0
    ensures r[n].syncs[c].reaped <= ToRcuTicks(r[n].tk.last + 1, r[n].m) - 1
  {
    RunInv(r, n);
    assert SyncOf(r[n], r[n].syncs[c]);
  }
}
