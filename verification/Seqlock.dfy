/** One dbtuple under concurrent readers, validators and lock holders, one load or store at a time
    (silo/tuple.h). The version counter of the header does not wrap. */
module Seqlock {
  import Tid

  datatype Option<+T> = None | Some(value: T)

  /** The header word. */
  datatype Header = Header(owner: Option<nat>, intent: bool, modifying: bool, deleting: bool, latest: bool,
    counter: nat)

  datatype Body = Body(version: nat, size: nat, bytes: seq<nat>, next: Option<nat>)

  datatype Pc =
    | Outside
    | Entered                                                        // past the MAX_TID test
    | Stable(v: Header)                                              // reader_stable_version returned v
    | Versioned(v: Header, version: nat)
    | Copying(v: Header, version: nat, size: nat, got: seq<nat>)
    | Following(v: Header, version: nat, next: Option<nat>)
    | Trying(v: Header)                                              // try_writer_stable_version returned v
    | Comparing(v: Header, version: nat)

  /** A thread reading at, or validating against, identifier t. */
  datatype Reader = Reader(t: nat, allowIntent: bool, pc: Pc)

  datatype State = State(h: Header, b: Body, readers: map<nat, Reader>)

  /** The record a reader should see. */
  function Value(s: State): seq<nat> {
    if s.h.deleting || s.b.size > |s.b.bytes| then [] else s.b.bytes[..s.b.size]
  }

  ghost predicate Init(s: State) {
    && s.h.owner == None && !s.h.intent && !s.h.modifying
    && s.b.size <= |s.b.bytes| && s.readers == map[]
  }

  // ----- lock holders

  ghost predicate Lock(s: State, s': State, w: nat, intent: bool) {
    s.h.owner == None && s' == s.(h := s.h.(owner := Some(w), intent := intent))
  }

  predicate Holds(s: State, w: nat) { s.h.owner == Some(w) }

  ghost predicate MarkModifying(s: State, s': State, w: nat) {
    Holds(s, w) && s.h.intent && s' == s.(h := s.h.(modifying := true))
  }

  /** Any store write_record_at makes to the tuple after marking it. */
  ghost predicate Store(s: State, s': State, w: nat, b: Body, deleting: bool) {
    && Holds(s, w) && s.h.modifying
    && b.version < Tid.MAX_TID && b.size <= |b.bytes| == |s.b.bytes|
    && s' == s.(b := b, h := s.h.(deleting := deleting))
  }

  /** A committing insert replaces MAX_TID by its identifier, without marking the tuple. */
  ghost predicate Finalize(s: State, s': State, w: nat, tid: nat) {
    && Holds(s, w) && s.h.intent && s.b.version == Tid.MAX_TID && tid < Tid.MAX_TID
    && s' == s.(b := s.b.(version := tid))
  }

  ghost predicate ClearLatest(s: State, s': State, w: nat) {
    Holds(s, w) && s' == s.(h := s.h.(latest := false))
  }

  ghost predicate Unlock(s: State, s': State, w: nat) {
    && Holds(s, w)
    && s' == s.(h := s.h.(owner := None, intent := false, modifying := false,
                          counter := if s.h.modifying || s.h.intent then s.h.counter + 1 else s.h.counter))
  }

  // ----- readers

  function Move(s: State, r: nat, pc: Pc): State
    requires r in s.readers
  {
    s.(readers := s.readers[r := s.readers[r].(pc := pc)])
  }

  ghost predicate Enter(s: State, s': State, r: nat, t: nat, allowIntent: bool) {
    && (r in s.readers ==> s.readers[r].pc == Outside) && s.b.version != Tid.MAX_TID
    && s' == s.(readers := s.readers[r := Reader(t, allowIntent, Entered)])
  }

  ghost predicate LoadHeader(s: State, s': State, r: nat) {
    && r in s.readers && s.readers[r].pc == Entered
    && !s.h.modifying && (s.readers[r].allowIntent || !s.h.intent)
    && s' == Move(s, r, Stable(s.h))
  }

  ghost predicate LoadVersion(s: State, s': State, r: nat) {
    && r in s.readers && s.readers[r].pc.Stable?
    && s' == Move(s, r, Versioned(s.readers[r].pc.v, s.b.version))
  }

  ghost predicate LoadSize(s: State, s': State, r: nat) {
    && r in s.readers && s.readers[r].pc.Versioned? && s.readers[r].pc.version <= s.readers[r].t
    && var pc := s.readers[r].pc;
       s' == Move(s, r, Copying(pc.v, pc.version, if pc.v.deleting then 0 else s.b.size, []))
  }

  ghost predicate LoadByte(s: State, s': State, r: nat) {
    && r in s.readers && s.readers[r].pc.Copying?
    && var pc := s.readers[r].pc;
       && |pc.got| < pc.size && |pc.got| < |s.b.bytes|
       && s' == Move(s, r, pc.(got := pc.got + [s.b.bytes[|pc.got|]]))
  }

  ghost predicate LoadNext(s: State, s': State, r: nat) {
    && r in s.readers && s.readers[r].pc.Versioned? && s.readers[r].pc.version > s.readers[r].t
    && s' == Move(s, r, Following(s.readers[r].pc.v, s.readers[r].pc.version, s.b.next))
  }

  /** reader_check_version: equal up to the locked, write-intent and latest bits. */
  predicate ReaderCheck(h: Header, v: Header) {
    h.counter == v.counter && h.modifying == v.modifying && h.deleting == v.deleting
  }

  /** writer_check_version: equal. */
  predicate WriterCheck(h: Header, v: Header) {
    ReaderCheck(h, v) && h.intent == v.intent && h.latest == v.latest && h.owner.Some? == v.owner.Some?
  }

  ghost predicate Return(s: State, s': State, r: nat) {
    && r in s.readers && s.readers[r].pc.Copying? && |s.readers[r].pc.got| == s.readers[r].pc.size
    && ReaderCheck(s.h, s.readers[r].pc.v) && s' == Move(s, r, Outside)
  }

  ghost predicate Follow(s: State, s': State, r: nat) {
    && r in s.readers && s.readers[r].pc.Following?
    && ReaderCheck(s.h, s.readers[r].pc.v) && s' == Move(s, r, Outside)
  }

  /** The check failed, or the copy could not be finished: start over. */
  ghost predicate Retry(s: State, s': State, r: nat) {
    && r in s.readers && (s.readers[r].pc.Copying? || s.readers[r].pc.Following?)
    && s' == Move(s, r, Entered)
  }

  // ----- validators

  ghost predicate Try(s: State, s': State, r: nat, t: nat) {
    && (r in s.readers ==> s.readers[r].pc == Outside) && !s.h.intent
    && s' == s.(readers := s.readers[r := Reader(t, false, Trying(s.h))])
  }

  ghost predicate Compare(s: State, s': State, r: nat) {
    && r in s.readers && s.readers[r].pc.Trying?
    && s' == Move(s, r, Comparing(s.readers[r].pc.v, s.b.version))
  }

  ghost predicate Confirm(s: State, s': State, r: nat) {
    && r in s.readers && s.readers[r].pc.Comparing?
    && var pc := s.readers[r].pc;
       && pc.v.latest && pc.version <= s.readers[r].t && WriterCheck(s.h, pc.v)
       && s' == Move(s, r, Outside)
  }

  ghost predicate Reject(s: State, s': State, r: nat) {
    r in s.readers && s.readers[r].pc.Comparing? && s' == Move(s, r, Outside)
  }

  datatype Action =
    | ALock(w: nat, intent: bool) | AMarkModifying(w: nat) | AStore(w: nat, b: Body, deleting: bool)
    | AFinalize(w: nat, tid: nat) | AClearLatest(w: nat) | AUnlock(w: nat)
    | AEnter(r: nat, t: nat, allowIntent: bool) | ALoadHeader(r: nat) | ALoadVersion(r: nat)
    | ALoadSize(r: nat) | ALoadByte(r: nat) | ALoadNext(r: nat)
    | AReturn(r: nat) | AFollow(r: nat) | ARetry(r: nat)
    | ATry(r: nat, t: nat) | ACompare(r: nat) | AConfirm(r: nat) | AReject(r: nat)

  ghost predicate WriterStep(s: State, s': State, a: Action) {
    match a
    case ALock(w, intent) => Lock(s, s', w, intent)
    case AMarkModifying(w) => MarkModifying(s, s', w)
    case AStore(w, b, deleting) => Store(s, s', w, b, deleting)
    case AFinalize(w, tid) => Finalize(s, s', w, tid)
    case AClearLatest(w) => ClearLatest(s, s', w)
    case AUnlock(w) => Unlock(s, s', w)
    case _ => false
  }

  ghost predicate ReaderStep(s: State, s': State, a: Action) {
    match a
    case AEnter(r, t, allowIntent) => Enter(s, s', r, t, allowIntent)
    case ALoadHeader(r) => LoadHeader(s, s', r)
    case ALoadVersion(r) => LoadVersion(s, s', r)
    case ALoadSize(r) => LoadSize(s, s', r)
    case ALoadByte(r) => LoadByte(s, s', r)
    case ALoadNext(r) => LoadNext(s, s', r)
    case AReturn(r) => Return(s, s', r)
    case AFollow(r) => Follow(s, s', r)
    case ARetry(r) => Retry(s, s', r)
    case ATry(r, t) => Try(s, s', r, t)
    case ACompare(r) => Compare(s, s', r)
    case AConfirm(r) => Confirm(s, s', r)
    case AReject(r) => Reject(s, s', r)
    case _ => false
  }

  ghost predicate Step(s: State, s': State, a: Action) {
    WriterStep(s, s', a) || ReaderStep(s, s', a)
  }

  // ----- invariant

  /** Nobody has marked the tuple since a reader saw this header. */
  predicate Fresh(s: State, v: Header) { s.h.counter == v.counter && !s.h.modifying }

  /** Nobody has locked the tuple for writing since a validator saw this header. */
  predicate Untouched(s: State, v: Header) { s.h.counter == v.counter && !s.h.intent }

  ghost predicate ReaderOf(s: State, d: Reader) {
    match d.pc
    case Outside => true
    case Entered => s.b.version != Tid.MAX_TID
    case Stable(v) =>
      && s.b.version != Tid.MAX_TID && v.counter <= s.h.counter && !v.modifying
      && (Fresh(s, v) ==> s.h.deleting == v.deleting)
    case Versioned(v, version) =>
      && s.b.version != Tid.MAX_TID && v.counter <= s.h.counter && !v.modifying
      && (Fresh(s, v) ==> s.h.deleting == v.deleting && s.b.version == version)
    case Copying(v, version, size, got) =>
      && s.b.version != Tid.MAX_TID && v.counter <= s.h.counter && !v.modifying
      && version <= d.t && |got| <= size <= |s.b.bytes|
      && (Fresh(s, v) ==>
            && s.h.deleting == v.deleting && s.b.version == version
            && size == (if v.deleting then 0 else s.b.size) && got == s.b.bytes[..|got|])
    case Following(v, version, next) =>
      && s.b.version != Tid.MAX_TID && v.counter <= s.h.counter && !v.modifying && version > d.t
      && (Fresh(s, v) ==> s.h.deleting == v.deleting && s.b.version == version && s.b.next == next)
    case Trying(v) => v.counter <= s.h.counter && !v.intent
    case Comparing(v, version) =>
      v.counter <= s.h.counter && !v.intent && (Untouched(s, v) ==> s.b.version == version)
  }

  ghost predicate Inv(s: State) {
    && (s.h.modifying ==> s.h.intent) && (s.h.intent ==> s.h.owner.Some?)
    && s.b.size <= |s.b.bytes|
    && forall r :: r in s.readers ==> ReaderOf(s, s.readers[r])
  }

  lemma WriterKeepsReader(s: State, s': State, a: Action, d: Reader)
    requires (s.h.modifying ==> s.h.intent) && (s.h.intent ==> s.h.owner.Some?) && WriterStep(s, s', a)
    requires ReaderOf(s, d)
    ensures ReaderOf(s', d)
  {
  }

  lemma WriterStepKeepsInv(s: State, s': State, a: Action)
    requires Inv(s) && WriterStep(s, s', a)
    ensures Inv(s')
  {
    forall r | r in s'.readers ensures ReaderOf(s', s'.readers[r]) {
      WriterKeepsReader(s, s', a, s.readers[r]);
    }
  }

  lemma ReaderKeepsReader(s: State, s': State, a: Action, r: nat)
    requires ReaderStep(s, s', a) && (s.h.modifying ==> s.h.intent) && s.b.size <= |s.b.bytes|
    requires r in s'.readers && (r in s.readers ==> ReaderOf(s, s.readers[r]))
    ensures ReaderOf(s', s'.readers[r])
  {
  }

  lemma ReaderStepKeepsInv(s: State, s': State, a: Action)
    requires Inv(s) && ReaderStep(s, s', a)
    ensures Inv(s')
  {
    forall r | r in s'.readers ensures ReaderOf(s', s'.readers[r]) {
      ReaderKeepsReader(s, s', a, r);
    }
  }

  lemma StepKeepsInv(s: State, s': State, a: Action)
    requires Inv(s) && Step(s, s', a)
    ensures Inv(s')
  {
    if WriterStep(s, s', a) {
      WriterStepKeepsInv(s, s', a);
    } else {
      ReaderStepKeepsInv(s, s', a);
    }
  }

  ghost predicate Run(q: seq<State>) {
    && |q| > 0 && Init(q[0])
    && forall i :: 0 <= i < |q| - 1 ==> Linked(q, i)
  }

  ghost predicate Linked(q: seq<State>, i: nat)
    requires i + 1 < |q|
  {
    exists a {:trigger Step(q[i], q[i + 1], a)} :: Step(q[i], q[i + 1], a)
  }

  lemma {:induction false} RunInv(q: seq<State>, n: nat)
    requires Run(q) && n < |q|
    ensures Inv(q[n])
  {
    if n > 0 {
      RunInv(q, n - 1);
      assert Linked(q, n - 1);
      var a :| Step(q[n - 1], q[n], a);
      StepKeepsInv(q[n - 1], q[n], a);
    }
  }

  // ----- what the checks buy

  /** A read that returns gives exactly what the tuple holds at the instant of its check. */
  lemma ReadIsAtomic(q: seq<State>, n: nat, r: nat)
    requires Run(q) && n + 1 < |q| && Return(q[n], q[n + 1], r)
    ensures var pc := q[n].readers[r].pc;
            && pc.version == q[n].b.version && pc.got == Value(q[n])
            && pc.version <= q[n].readers[r].t && pc.version != Tid.MAX_TID && !q[n].h.modifying
  {
    RunInv(q, n);
    assert ReaderOf(q[n], q[n].readers[r]);
  }

  /** A reader past its header load, with the header it loaded. */
  predicate Loaded(pc: Pc) { pc.Stable? || pc.Versioned? || pc.Copying? || pc.Following? }

  /** One step leaves a reader where it is, lets it load a header, or keeps the header it has. */
  lemma StepOfReader(s: State, s': State, a: Action, r: nat)
    requires Step(s, s', a) && r in s'.readers && Loaded(s'.readers[r].pc)
    ensures r in s.readers && s'.readers[r].allowIntent == s.readers[r].allowIntent
    ensures LoadHeader(s, s', r) || (Loaded(s.readers[r].pc) && s'.readers[r].pc.v == s.readers[r].pc.v)
    ensures LoadHeader(s, s', r) ==> s'.readers[r].pc.v == s.h
  {
  }

  /** Where a reader loaded the header it has. */
  lemma {:induction false} HeaderLoad(q: seq<State>, n: nat, r: nat) returns (m: nat)
    requires Run(q) && n < |q| && r in q[n].readers && Loaded(q[n].readers[r].pc)
    ensures m < n && LoadHeader(q[m], q[m + 1], r) && q[m].h == q[n].readers[r].pc.v
    ensures q[m].readers[r].allowIntent == q[n].readers[r].allowIntent
  {
    assert Linked(q, n - 1);
    var a :| Step(q[n - 1], q[n], a);
    StepOfReader(q[n - 1], q[n], a, r);
    if LoadHeader(q[n - 1], q[n], r) {
      m := n - 1;
    } else {
      m := HeaderLoad(q, n - 1, r);
    }
  }

  /** What one step leaves of a tuple that is not being inserted. */
  lemma StepOfBody(s: State, s': State, a: Action)
    requires Step(s, s', a) && s.b.version != Tid.MAX_TID && (s.h.modifying ==> s.h.intent)
    ensures s'.b.version != Tid.MAX_TID && s.h.counter <= s'.h.counter
    ensures s'.h.counter == s.h.counter && !s'.h.modifying ==>
      !s.h.modifying && s'.b == s.b && s'.h.deleting == s.h.deleting
  {
  }

  /** As long as the counter stands and the tuple is not marked, its record stays. */
  lemma {:induction false} RecordKept(q: seq<State>, m: nat, n: nat)
    requires Run(q) && m <= n < |q| && q[m].b.version != Tid.MAX_TID
    ensures q[n].b.version != Tid.MAX_TID && q[m].h.counter <= q[n].h.counter
    ensures q[n].h.counter == q[m].h.counter && !q[n].h.modifying ==>
      q[n].b == q[m].b && q[n].h.deleting == q[m].h.deleting
  {
    if m < n {
      RecordKept(q, m, n - 1);
      RunInv(q, n - 1);
      assert Linked(q, n - 1);
      var a :| Step(q[n - 1], q[n], a);
      StepOfBody(q[n - 1], q[n], a);
    }
  }

  /** A read that does not allow write intent gives what the tuple held at an earlier instant, its header load, at which
      nobody had it locked for writing. */
  lemma ReadWithoutIntent(q: seq<State>, n: nat, r: nat) returns (m: nat)
    requires Run(q) && n + 1 < |q| && Return(q[n], q[n + 1], r) && !q[n].readers[r].allowIntent
    ensures m < n && LoadHeader(q[m], q[m + 1], r) && !q[m].h.intent && !q[m].h.modifying
    ensures var pc := q[n].readers[r].pc;
            pc.version == q[m].b.version != Tid.MAX_TID && pc.got == Value(q[m]) && q[m].b == q[n].b
  {
    m := HeaderLoad(q, n, r);
    RunInv(q, m);
    RunInv(q, n);
    assert ReaderOf(q[m], q[m].readers[r]) && ReaderOf(q[n], q[n].readers[r]);
    RecordKept(q, m, n);
  }

  /** A reader goes on to the next older version exactly from a tuple too new for it. */
  lemma FollowIsAtomic(q: seq<State>, n: nat, r: nat)
    requires Run(q) && n + 1 < |q| && Follow(q[n], q[n + 1], r)
    ensures var pc := q[n].readers[r].pc;
            pc.version == q[n].b.version > q[n].readers[r].t && pc.next == q[n].b.next && !q[n].h.modifying
  {
    RunInv(q, n);
    assert ReaderOf(q[n], q[n].readers[r]);
  }

  /** A validation that succeeds holds of the tuple at the instant of its check. */
  lemma ValidationIsAtomic(q: seq<State>, n: nat, r: nat)
    requires Run(q) && n + 1 < |q| && Confirm(q[n], q[n + 1], r)
    ensures q[n].h.latest && q[n].b.version <= q[n].readers[r].t && !q[n].h.intent && !q[n].h.modifying
  {
    RunInv(q, n);
    assert ReaderOf(q[n], q[n].readers[r]);
  }

  /** A reader never looks past the buffer, however stale the size it loaded. */
  lemma ReadsStayInBuffer(q: seq<State>, n: nat, r: nat)
    requires Run(q) && n < |q| && r in q[n].readers && q[n].readers[r].pc.Copying?
    ensures |q[n].readers[r].pc.got| <= q[n].readers[r].pc.size <= |q[n].b.bytes|
  {
    RunInv(q, n);
    assert ReaderOf(q[n], q[n].readers[r]);
  }
}
