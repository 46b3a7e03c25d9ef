/** The system-wide ticker of silo/ticker.h, as a step relation over the individual loads, stores
    and lock operations of the guard constructor, the guard destructor and the ticker thread. */
module Ticker {

  /** Who holds a core's tickinfo spinlock. */
  datatype Holder = Nobody | Guard | TickerThread

  /** Where a core stands in the constructor or destructor of its outermost guard. */
  datatype CorePc =
    | Outside               // depth is 0 and the core owns nothing
    | Entering              // depth bumped, lock not yet taken
    | Locked                // lock taken, global tick not yet loaded
    | Loaded(seen: nat)     // global tick loaded, not yet stored
    | Inside                // the guard is open
    | Leaving               // depth is 0 again, lock not yet released

  datatype Core = Core(tick: nat, depth: nat, holder: Holder, pc: CorePc)

  /** Where the ticker thread stands in one round of its loop. */
  datatype TickerPc =
    | Sleeping
    | Scanning(next: nat)   // cores below next are done
    | Waiting(core: nat)    // core was behind, its lock is wanted
    | Holding(core: nat)    // core's lock is held
    | Stored(core: nat)     // core's tick is stored, its lock still held

  datatype State = State(current: nat, last: nat, cores: seq<Core>, pc: TickerPc)

  datatype Action =
    | Enter(c: nat) | Acquire(c: nat) | LoadTick(c: nat) | StoreTick(c: nat)
    | Nest(c: nat) | Unnest(c: nat) | Drop(c: nat) | Release(c: nat)
    | Bump | Look | Take | Advance | Untake | Publish

  ghost predicate Init(s: State) {
    && s.current == 1 && s.last == 0 && s.pc == Sleeping
    && forall c :: 0 <= c < |s.cores| ==> s.cores[c] == Core(1, 0, Nobody, Outside)
  }

  /** Replaces one core. */
  function With(s: State, c: nat, k: Core): State
    requires c < |s.cores|
  {
    s.(cores := s.cores[c := k])
  }

  /** The steps of the guard constructor and destructor on core c. */
  ghost predicate GuardStep(s: State, s': State, c: nat, a: Action)
    requires c < |s.cores|
  {
    var k := s.cores[c];
    match a
    case Enter(_) => k.pc == Outside && s' == With(s, c, k.(depth := 1, pc := Entering))
    case Acquire(_) => k.pc == Entering && k.holder == Nobody && s' == With(s, c, k.(holder := Guard, pc := Locked))
    case LoadTick(_) => k.pc == Locked && s' == With(s, c, k.(pc := Loaded(s.current)))
    case StoreTick(_) => k.pc.Loaded? && s' == With(s, c, k.(tick := k.pc.seen, pc := Inside))
    case Nest(_) => k.pc == Inside && s' == With(s, c, k.(depth := k.depth + 1))
    case Unnest(_) => k.pc == Inside && k.depth > 1 && s' == With(s, c, k.(depth := k.depth - 1))
    case Drop(_) => k.pc == Inside && k.depth == 1 && s' == With(s, c, k.(depth := 0, pc := Leaving))
    case Release(_) => k.pc == Leaving && s' == With(s, c, k.(holder := Nobody, pc := Outside))
    case _ => false
  }

  /** The steps of one round of the ticker thread. */
  ghost predicate LoopStep(s: State, s': State, a: Action) {
    match a
    case Bump => s.pc == Sleeping && s' == s.(current := s.current + 1, pc := Scanning(0))
    case Look =>
      && s.pc.Scanning? && s.pc.next < |s.cores|
      && s' == s.(pc := if s.cores[s.pc.next].tick == s.current then Scanning(s.pc.next + 1) else Waiting(s.pc.next))
    case Take =>
      && s.pc.Waiting? && s.pc.core < |s.cores| && s.cores[s.pc.core].holder == Nobody
      && s' == With(s, s.pc.core, s.cores[s.pc.core].(holder := TickerThread)).(pc := Holding(s.pc.core))
    case Advance =>
      && s.pc.Holding? && s.pc.core < |s.cores|
      && s' == With(s, s.pc.core, s.cores[s.pc.core].(tick := s.current)).(pc := Stored(s.pc.core))
    case Untake =>
      && s.pc.Stored? && s.pc.core < |s.cores|
      && s' == With(s, s.pc.core, s.cores[s.pc.core].(holder := Nobody)).(pc := Scanning(s.pc.core + 1))
    case Publish =>
      && s.pc.Scanning? && s.pc.next == |s.cores| && s.current > 0
      && s' == s.(last := s.current - 1, pc := Sleeping)
    case _ => false
  }

  ghost predicate Step(s: State, s': State, a: Action) {
    match a
    case Bump => LoopStep(s, s', a)
    case Look => LoopStep(s, s', a)
    case Take => LoopStep(s, s', a)
    case Advance => LoopStep(s, s', a)
    case Untake => LoopStep(s, s', a)
    case Publish => LoopStep(s, s', a)
    case _ => a.c < |s.cores| && GuardStep(s, s', a.c, a)
  }

  /** A core the ticker thread has already brought to the current tick in this round. */
  predicate Passed(s: State, c: nat) {
    match s.pc
    case Sleeping => true
    case Scanning(n) => c < n
    case Waiting(n) => c < n
    case Holding(n) => c < n
    case Stored(n) => c <= n
  }

  predicate GuardOwns(k: Core) {
    k.pc == Locked || k.pc.Loaded? || k.pc == Inside || k.pc == Leaving
  }

  ghost predicate CoreInv(s: State, c: nat)
    requires c < |s.cores|
  {
    var k := s.cores[c];
    && (k.tick == s.current || k.tick == s.current - 1)
    && (Passed(s, c) ==> k.tick == s.current)
    && (GuardOwns(k) <==> k.holder == Guard)
    && (k.holder == TickerThread <==> (s.pc == Holding(c) || s.pc == Stored(c)))
    && (k.pc.Loaded? ==> k.tick <= k.pc.seen <= s.current)
    && (k.depth > 0 <==> (k.pc == Entering || k.pc == Locked || k.pc.Loaded? || k.pc == Inside))
  }

  /** Where the ticker thread is, and what the counters are there. */
  ghost predicate ClockInv(s: State) {
    && s.current == (if s.pc == Sleeping then s.last + 1 else s.last + 2)
    && (s.pc.Scanning? ==> s.pc.next <= |s.cores|)
    && (s.pc.Waiting? || s.pc.Holding? || s.pc.Stored? ==> s.pc.core < |s.cores|)
  }

  ghost predicate Inv(s: State) { ClockInv(s) && forall c :: 0 <= c < |s.cores| ==> CoreInv(s, c) }

  lemma InitEstablishesInv(s: State)
    requires Init(s)
    ensures Inv(s)
  {
    forall c | 0 <= c < |s.cores| ensures CoreInv(s, c) {
      assert s.cores[c] == Core(1, 0, Nobody, Outside);
    }
  }

  lemma StepKeepsCore(s: State, s': State, a: Action, c: nat)
    requires ClockInv(s) && Step(s, s', a) && c < |s.cores| && CoreInv(s, c)
    ensures c < |s'.cores| && CoreInv(s', c)
  {
  }

  lemma StepKeepsClock(s: State, s': State, a: Action)
    requires ClockInv(s) && Step(s, s', a)
    ensures ClockInv(s') && |s'.cores| == |s.cores|
  {
  }

  lemma StepKeepsInv(s: State, s': State, a: Action)
    requires Inv(s) && Step(s, s', a)
    ensures Inv(s')
  {
    StepKeepsClock(s, s', a);
    forall c | 0 <= c < |s'.cores| ensures CoreInv(s', c) {
      StepKeepsCore(s, s', a, c);
    }
  }

  /** A guard is open on core c: its constructor has finished and its destructor has not begun. */
  predicate Open(s: State, c: nat) {
    c < |s.cores| && s.cores[c].pc == Inside
  }

  /** What one step leaves of an open guard and of the two global counters. */
  lemma StepEffects(s: State, s': State, a: Action)
    requires Inv(s) && Step(s, s', a)
    ensures |s'.cores| == |s.cores|
    ensures s.current <= s'.current <= s.current + 1
    ensures s.last <= s'.last <= s.last + 1
    ensures forall c: nat :: Open(s, c) && Open(s', c) ==> s'.cores[c].tick == s.cores[c].tick
  {
    forall c: nat | Open(s, c) && Open(s', c) ensures s'.cores[c].tick == s.cores[c].tick {
      assert CoreInv(s, c);
    }
  }

  /** In every good state an open guard's tick is above last and at most the current tick,
      which is itself at most two above last. */
  lemma OpenGuardBounds(s: State, c: nat)
    requires Inv(s) && Open(s, c)
    ensures s.last < s.cores[c].tick <= s.current <= s.last + 2
    ensures s.current <= s.cores[c].tick + 1
  {
    assert CoreInv(s, c);
  }

  /** A run: consecutive states related by steps, from an initial state. */
  ghost predicate Run(r: seq<State>) {
    && |r| > 0 && Init(r[0])
    && forall i :: 0 <= i < |r| - 1 ==> Linked(r, i)
  }

  ghost predicate Linked(r: seq<State>, i: nat)
    requires i + 1 < |r|
  {
    exists a {:trigger Step(r[i], r[i + 1], a)} :: Step(r[i], r[i + 1], a)
  }

  lemma LinkKeepsInv(r: seq<State>, i: nat)
    requires i + 1 < |r| && Linked(r, i) && Inv(r[i])
    ensures Inv(r[i + 1]) && |r[i + 1].cores| == |r[i].cores| && r[i].last <= r[i + 1].last
    ensures forall c: nat :: Open(r[i], c) && Open(r[i + 1], c) ==> r[i + 1].cores[c].tick == r[i].cores[c].tick
  {
    var a :| Step(r[i], r[i + 1], a);
    StepKeepsInv(r[i], r[i + 1], a);
    StepEffects(r[i], r[i + 1], a);
  }

  lemma {:induction false} RunInv(r: seq<State>, n: nat)
    requires Run(r) && n < |r|
    ensures Inv(r[n]) && |r[n].cores| == |r[0].cores|
  {
    if n == 0 {
      InitEstablishesInv(r[0]);
    } else {
      RunInv(r, n - 1);
      LinkKeepsInv(r, n - 1);
    }
  }

  /** Every core's tick is the global tick or one less, in every state of every run. */
  lemma TicksStayClose(r: seq<State>, n: nat, c: nat)
    requires Run(r) && n < |r| && c < |r[n].cores|
    ensures r[n].current - 1 <= r[n].cores[c].tick <= r[n].current
    ensures Open(r[n], c) ==> r[n].last < r[n].cores[c].tick
  {
    RunInv(r, n);
    assert CoreInv(r[n], c);
  }

  /** While one guard stays open, its tick does not move and last advances by at most one. */
  lemma LastAdvancesOnceUnderGuard(r: seq<State>, i: nat, j: nat, c: nat)
    requires Run(r) && i <= j < |r|
    requires forall n :: i <= n <= j ==> Open(r[n], c)
    ensures Open(r[i], c) && Open(r[j], c) && r[i].cores[c].tick == r[j].cores[c].tick
    ensures r[i].last <= r[j].last <= r[i].last + 1
  {
    GuardKeepsTick(r, i, j, c);
    RunInv(r, i);
    RunInv(r, j);
    OpenGuardBounds(r[i], c);
    OpenGuardBounds(r[j], c);
  }

  lemma {:induction false} GuardKeepsTick(r: seq<State>, i: nat, j: nat, c: nat)
    requires Run(r) && i <= j < |r|
    requires forall n :: i <= n <= j ==> Open(r[n], c)
    ensures Open(r[i], c) && Open(r[j], c) && r[i].cores[c].tick == r[j].cores[c].tick && r[i].last <= r[j].last
  {
    if i < j {
      GuardKeepsTick(r, i, j - 1, c);
      RunInv(r, j - 1);
      LinkKeepsInv(r, j - 1);
      assert Open(r[j - 1], c) && Open(r[j], c);
    }
  }
}
