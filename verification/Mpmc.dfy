/** The bounded multi-producer multi-consumer queue of
    cdschecker_modified_benchmarks/mpmc-queue/mpmc-queue.h, one atomic access per step. Claims are counted
    in the two 16-bit halves of one word, so how many threads there are matters. */
module Mpmc {
  import Circular

  const WRAP: nat := 0x1_0000

  datatype Pc =
    | Idle
    | RLoaded(word: nat)
    | RWait(rd: nat, wr: nat, i: nat, seen: nat)       // claimed read i when seen writes were claimed
    | Reading(rd: nat, i: nat, seen: nat)
    | WLoaded(word: nat)
    | WWait(rd: nat, wr: nat, i: nat, seen: nat)       // claimed write i when seen reads were claimed
    | Writing(wr: nat, i: nat, seen: nat)

  datatype State = State(
    slots: seq<int>,           // m_array
    rdwr: nat, read: nat, written: nat,
    threads: seq<Pc>,
    // history: claims in all, which are complete, and what each write left in its slot
    readClaims: nat, writeClaims: nat,
    readDone: set<nat>, writeDone: set<nat>, put: map<nat, int>)

  /** t_size is below 65536 and divides it. */
  predicate Sized(s: State) {
    0 < |s.slots| < WRAP && WRAP % |s.slots| == 0
  }

  /** Few enough threads that no 16-bit counter can lap another. */
  predicate Few(s: State) {
    |s.threads| + |s.slots| <= 2 * WRAP
  }

  ghost predicate Init(s: State) {
    && Sized(s) && s.rdwr == 0 && s.read == 0 && s.written == 0
    && (forall h :: 0 <= h < |s.threads| ==> s.threads[h] == Idle)
    && s.readClaims == 0 && s.writeClaims == 0 && s.readDone == {} && s.writeDone == {} && s.put == map[]
  }

  function Rd(word: nat): nat { word / WRAP % WRAP }
  function Wr(word: nat): nat { word % WRAP }

  function Move(s: State, h: nat, pc: Pc): State
    requires h < |s.threads|
  {
    s.(threads := s.threads[h := pc])
  }

  predicate At(s: State, h: nat) { h < |s.threads| && Sized(s) }

  // ----- read_fetch, read_consume

  ghost predicate ReadLoad(s: State, s': State, h: nat) {
    At(s, h) && s.threads[h] == Idle && s' == Move(s, h, RLoaded(s.rdwr))
  }

  ghost predicate ReadEmpty(s: State, s': State, h: nat) {
    && At(s, h) && s.threads[h].RLoaded? && Wr(s.threads[h].word) == Rd(s.threads[h].word)
    && s' == Move(s, h, Idle)
  }

  ghost predicate ReadClaim(s: State, s': State, h: nat) {
    && At(s, h) && s.threads[h].RLoaded? && Wr(s.threads[h].word) != Rd(s.threads[h].word)
    && var word := s.threads[h].word;
       s' == if s.rdwr == word
             then Move(s, h, RWait(Rd(word), Wr(word), s.readClaims, s.writeClaims)).(rdwr :=
               (word + WRAP) % (WRAP * WRAP), readClaims := s.readClaims + 1)
             else Move(s, h, RLoaded(s.rdwr))
  }

  ghost predicate ReadReady(s: State, s': State, h: nat) {
    && At(s, h) && s.threads[h].RWait? && s.written % WRAP == s.threads[h].wr
    && s' == Move(s, h, Reading(s.threads[h].rd, s.threads[h].i, s.threads[h].seen))
  }

  ghost predicate Consume(s: State, s': State, h: nat) {
    && At(s, h) && s.threads[h].Reading?
    && s' == Move(s, h, Idle).(read := s.read + 1, readDone := s.readDone + {s.threads[h].i})
  }

  // ----- write_prepare, write_publish

  ghost predicate WriteLoad(s: State, s': State, h: nat) {
    At(s, h) && s.threads[h] == Idle && s' == Move(s, h, WLoaded(s.rdwr))
  }

  predicate Full(s: State, word: nat) { Wr(word) == (Rd(word) + |s.slots|) % WRAP }

  ghost predicate WriteFull(s: State, s': State, h: nat) {
    At(s, h) && s.threads[h].WLoaded? && Full(s, s.threads[h].word) && s' == Move(s, h, Idle)
  }

  ghost predicate WriteClaim(s: State, s': State, h: nat) {
    && At(s, h) && s.threads[h].WLoaded? && !Full(s, s.threads[h].word)
    && var word := s.threads[h].word;
       s' == if s.rdwr == word
             then Move(s, h, WWait(Rd(word), Wr(word), s.writeClaims, s.readClaims))
                  .(rdwr := Rd(word) * WRAP + (Wr(word) + 1) % WRAP, writeClaims := s.writeClaims + 1)
             else Move(s, h, WLoaded(s.rdwr))
  }

  ghost predicate WriteReady(s: State, s': State, h: nat) {
    && At(s, h) && s.threads[h].WWait? && s.read % WRAP == s.threads[h].rd
    && s' == Move(s, h, Writing(s.threads[h].wr, s.threads[h].i, s.threads[h].seen))
  }

  /** The producer fills its slot. */
  ghost predicate Fill(s: State, s': State, h: nat, x: int) {
    && At(s, h) && s.threads[h].Writing?
    && s' == s.(slots := s.slots[s.threads[h].wr % |s.slots| := x])
  }

  ghost predicate PublishWrite(s: State, s': State, h: nat) {
    && At(s, h) && s.threads[h].Writing?
    && s' == Move(s, h, Idle).(written := s.written + 1, writeDone := s.writeDone + {s.threads[h].i},
                               put := s.put[s.threads[h].i := s.slots[s.threads[h].wr % |s.slots|]])
  }

  datatype Action =
    | AReadLoad(h: nat) | AReadEmpty(h: nat) | AReadClaim(h: nat) | AReadReady(h: nat) | AConsume(h: nat)
    | AWriteLoad(h: nat) | AWriteFull(h: nat) | AWriteClaim(h: nat) | AWriteReady(h: nat)
    | AFill(h: nat, x: int) | APublish(h: nat)

  ghost predicate Step(s: State, s': State, a: Action) {
    match a
    case AReadLoad(h) => ReadLoad(s, s', h)
    case AReadEmpty(h) => ReadEmpty(s, s', h)
    case AReadClaim(h) => ReadClaim(s, s', h)
    case AReadReady(h) => ReadReady(s, s', h)
    case AConsume(h) => Consume(s, s', h)
    case AWriteLoad(h) => WriteLoad(s, s', h)
    case AWriteFull(h) => WriteFull(s, s', h)
    case AWriteClaim(h) => WriteClaim(s, s', h)
    case AWriteReady(h) => WriteReady(s, s', h)
    case AFill(h, x) => Fill(s, s', h, x)
    case APublish(h) => PublishWrite(s, s', h)
  }

  // ----- invariant

  predicate IsRead(pc: Pc) { pc.RWait? || pc.Reading? }
  predicate IsWrite(pc: Pc) { pc.WWait? || pc.Writing? }

  ghost predicate Below(a: set<nat>, n: nat) { forall k :: k in a ==> k < n }

  ghost predicate Covers(a: set<nat>, n: nat) { forall k: nat :: k < n ==> k in a }

  /** The word packs the claims; there are never more unread claims than slots. */
  ghost predicate Words(s: State) {
    && s.rdwr == s.readClaims % WRAP * WRAP + s.writeClaims % WRAP
    && s.readClaims <= s.writeClaims <= s.readClaims + |s.slots|
    && s.read == |s.readDone| && s.written == |s.writeDone|
    && Below(s.readDone, s.readClaims) && Below(s.writeDone, s.writeClaims)
  }

  /** A claimed operation, and how far the opposite side has got: never past what it waits for. */
  ghost predicate ThreadOf(s: State, pc: Pc) {
    && (pc.RWait? ==> pc.wr == pc.seen % WRAP)
    && (IsRead(pc) ==>
          && pc.rd == pc.i % WRAP && pc.i < pc.seen <= s.writeClaims && pc.i < s.readClaims && pc.i !in s.readDone
          && pc.seen <= pc.i + |s.slots| && Below(s.writeDone, pc.seen))
    && (pc.Reading? ==> Covers(s.writeDone, pc.seen))
    && (pc.WWait? ==> pc.rd == pc.seen % WRAP)
    && (IsWrite(pc) ==>
          && pc.wr == pc.i % WRAP && pc.seen <= pc.i < pc.seen + |s.slots| && pc.i < s.writeClaims
          && pc.seen <= s.readClaims
          && pc.i !in s.writeDone && Below(s.readDone, pc.seen))
    && (pc.Writing? ==> Covers(s.readDone, pc.seen))
  }

  /** Claims are taken one after another: each pair of operations agrees on which came first. */
  ghost predicate PairOf(p: Pc, q: Pc) {
    && (IsRead(p) && IsRead(q) ==> p.i != q.i)
    && (IsWrite(p) && IsWrite(q) ==> p.i != q.i)
    && (IsRead(p) && IsWrite(q) ==> (q.i < p.seen <==> q.seen <= p.i))
  }

  ghost predicate Threads(s: State) {
    && (forall h :: 0 <= h < |s.threads| ==> ThreadOf(s, s.threads[h]))
    && (forall h, g :: 0 <= h < |s.threads| && 0 <= g < |s.threads| && h != g ==> PairOf(s.threads[h], s.threads[g]))
  }

  function Readers(q: seq<Pc>): nat {
    if q == [] then 0 else Readers(q[..|q| - 1]) + if IsRead(q[|q| - 1]) then 1 else 0
  }

  function Writers(q: seq<Pc>): nat {
    if q == [] then 0 else Writers(q[..|q| - 1]) + if IsWrite(q[|q| - 1]) then 1 else 0
  }

  ghost predicate Counted(s: State) {
    s.readClaims == s.read + Readers(s.threads) && s.writeClaims == s.written + Writers(s.threads)
  }

  /** A slot keeps a published element until its read is complete. */
  ghost predicate Data(s: State) {
    && |s.slots| > 0 && s.written <= s.read + |s.slots|
    && (forall i :: i in s.readDone ==> i in s.writeDone)
    && (forall i, j: nat :: i in s.writeDone && j + |s.slots| <= i ==> j in s.readDone)
    && (forall i :: i in s.writeDone && i !in s.readDone ==> i in s.put && s.slots[i % |s.slots|] == s.put[i])
  }

  ghost predicate Inv(s: State) {
    Sized(s) && Few(s) && Words(s) && Threads(s) && Counted(s) && Data(s)
  }

  // ----- counting

  lemma {:induction false} CountUpdate(q: seq<Pc>, h: nat, pc: Pc)
    requires h < |q|
    ensures Readers(q[h := pc]) == Readers(q) - (if IsRead(q[h]) then 1 else 0) + (if IsRead(pc) then 1 else 0)
    ensures Writers(q[h := pc]) == Writers(q) - (if IsWrite(q[h]) then 1 else 0) + (if IsWrite(pc) then 1 else 0)
  {
    var n := |q| - 1;
    if h == n {
      assert q[h := pc][..n] == q[..n];
    } else {
      assert q[h := pc][..n] == q[..n][h := pc];
      CountUpdate(q[..n], h, pc);
    }
  }

  /** No thread is at both kinds of operation. */
  lemma {:induction false} CountBound(q: seq<Pc>)
    ensures Readers(q) + Writers(q) <= |q|
  {
    if q != [] {
      CountBound(q[..|q| - 1]);
    }
  }

  /** A set of numbers below n has at most n of them, and n only if it has them all. */
  lemma {:induction false} BelowSize(a: set<nat>, n: nat)
    requires Below(a, n)
    ensures |a| <= n && (|a| == n ==> Covers(a, n))
  {
    if n == 0 {
      assert a == {};
    } else if n - 1 in a {
      BelowSize(a - {n - 1}, n - 1);
    } else {
      BelowSize(a, n - 1);
    }
  }

  lemma {:induction false} CoversSize(a: set<nat>, n: nat)
    requires Covers(a, n)
    ensures |a| >= n
  {
    if n > 0 {
      CoversSize(a - {n - 1}, n - 1);
    }
  }

  lemma {:induction false} SubsetSize(a: set<nat>, b: set<nat>)
    requires a <= b
    ensures |a| <= |b|
  {
    if a != {} {
      var x :| x in a;
      SubsetSize(a - {x}, b - {x});
    }
  }

  /** Counters that agree modulo 65536 and are less than 65536 apart agree. */
  lemma NoWrap(a: nat, b: nat)
    requires a <= b < a + WRAP && a % WRAP == b % WRAP
    ensures a == b
  {
  }

  /** A 16-bit counter picks the slot the full counter would. */
  lemma SlotOf(i: nat, n: nat)
    requires 0 < n < WRAP && WRAP % n == 0
    ensures i % WRAP % n == i % n
  {
    var a, r, d := i / WRAP, i % WRAP, WRAP / n;
    assert a * WRAP == a * d * n;
    assert (a * d + r / n) * n == a * d * n + r / n * n;
    Circular.Unique(i, n, a * d + r / n, r % n);
  }

  // ----- the packed word

  lemma Unpack(s: State)
    requires Sized(s) && Words(s)
    ensures Rd(s.rdwr) == s.readClaims % WRAP && Wr(s.rdwr) == s.writeClaims % WRAP
    ensures Wr(s.rdwr) == Rd(s.rdwr) <==> s.writeClaims == s.readClaims
    ensures Full(s, s.rdwr) <==> s.writeClaims == s.readClaims + |s.slots|
  {
    var r, w, n := s.readClaims, s.writeClaims, |s.slots|;
    UnpackWord(r, w);
    WrapAdd(r, n);
    if r < w {
      Circular.Apart(r, w, WRAP);
    }
    if w < r + n {
      Circular.Apart(w, r + n, WRAP);
    }
  }

  lemma UnpackWord(r: nat, w: nat)
    ensures Rd(r % WRAP * WRAP + w % WRAP) == r % WRAP && Wr(r % WRAP * WRAP + w % WRAP) == w % WRAP
  {
  }

  lemma WrapAdd(r: nat, n: nat)
    ensures (r % WRAP + n) % WRAP == (r + n) % WRAP
  {
  }

  lemma PackRead(r: nat, w: nat)
    ensures (r % WRAP * WRAP + w % WRAP + WRAP) % (WRAP * WRAP) == (r + 1) % WRAP * WRAP + w % WRAP
  {
  }

  // ----- every step keeps the invariant

  /** Steps that only move one thread between places outside a claim. */
  lemma IdleMoveKeeps(s: State, s': State, h: nat, pc: Pc)
    requires Inv(s) && At(s, h) && !IsRead(pc) && !IsWrite(pc) && !IsRead(s.threads[h]) && !IsWrite(s.threads[h])
    requires s' == Move(s, h, pc)
    ensures Inv(s')
  {
    CountUpdate(s.threads, h, pc);
    forall g | 0 <= g < |s'.threads| ensures ThreadOf(s', s'.threads[g]) {
      assert ThreadOf(s, s.threads[g]);
    }
  }

  lemma ReadClaimKeeps(s: State, s': State, h: nat)
    requires Inv(s) && ReadClaim(s, s', h) && s.rdwr == s.threads[h].word
    ensures Inv(s')
  {
    Unpack(s);
    PackRead(s.readClaims, s.writeClaims);
    CountUpdate(s.threads, h, s'.threads[h]);
    forall g | 0 <= g < |s'.threads| ensures ThreadOf(s', s'.threads[g]) {
      assert ThreadOf(s, s.threads[g]);
    }
    forall g, k | 0 <= g < |s'.threads| && 0 <= k < |s'.threads| && g != k
      ensures PairOf(s'.threads[g], s'.threads[k])
    {
      assert ThreadOf(s, s.threads[g]) && ThreadOf(s, s.threads[k]) && PairOf(s.threads[g], s.threads[k]);
    }
  }

  lemma WriteClaimWords(s: State, s': State, h: nat)
    requires Sized(s) && Words(s) && WriteClaim(s, s', h) && s.rdwr == s.threads[h].word
    ensures Words(s') && s.writeClaims < s.readClaims + |s.slots|
    ensures s'.threads[h] == WWait(s.readClaims % WRAP, s.writeClaims % WRAP, s.writeClaims, s.readClaims)
  {
    Unpack(s);
    PackWrite(s.writeClaims);
  }

  lemma PackWrite(w: nat)
    ensures (w % WRAP + 1) % WRAP == (w + 1) % WRAP
  {
  }

  lemma WriteClaimThreads(s: State, s': State, h: nat)
    requires Words(s) && Threads(s) && h < |s.threads| && s.writeClaims < s.readClaims + |s.slots|
    requires s' == s.(rdwr := s'.rdwr, writeClaims := s.writeClaims + 1,
                      threads := s.threads[h := WWait(s.readClaims % WRAP, s.writeClaims % WRAP, s.writeClaims,
                        s.readClaims)])
    ensures Threads(s')
  {
    forall g | 0 <= g < |s'.threads| ensures ThreadOf(s', s'.threads[g]) {
      assert ThreadOf(s, s.threads[g]);
    }
    forall g, k | 0 <= g < |s'.threads| && 0 <= k < |s'.threads| && g != k
      ensures PairOf(s'.threads[g], s'.threads[k])
    {
      assert ThreadOf(s, s.threads[g]) && ThreadOf(s, s.threads[k]) && PairOf(s.threads[g], s.threads[k]);
    }
  }

  lemma WriteClaimKeeps(s: State, s': State, h: nat)
    requires Inv(s) && WriteClaim(s, s', h) && s.rdwr == s.threads[h].word
    ensures Inv(s')
  {
    WriteClaimWords(s, s', h);
    WriteClaimThreads(s, s', h);
    CountUpdate(s.threads, h, s'.threads[h]);
  }

  /** A reader's wait ends only when every write claimed before it is published, wrap or no wrap. */
  lemma ReadWaits(s: State, h: nat)
    requires Inv(s) && h < |s.threads| && s.threads[h].RWait? && s.written % WRAP == s.threads[h].wr
    ensures Covers(s.writeDone, s.threads[h].seen)
  {
    assert ThreadOf(s, s.threads[h]);
    BelowSize(s.writeDone, s.threads[h].seen);
    SubsetSize(s.readDone, s.writeDone);
    CountBound(s.threads);
    NoWrap(s.written, s.threads[h].seen);
  }

  /** A writer's wait ends only when every read claimed before it is complete. */
  lemma WriteWaits(s: State, h: nat)
    requires Inv(s) && h < |s.threads| && s.threads[h].WWait? && s.read % WRAP == s.threads[h].rd
    ensures Covers(s.readDone, s.threads[h].seen)
  {
    assert ThreadOf(s, s.threads[h]);
    BelowSize(s.readDone, s.threads[h].seen);
    CountBound(s.threads);
    NoWrap(s.read, s.threads[h].seen);
  }

  lemma ReadyKeeps(s: State, s': State, h: nat)
    requires Inv(s) && (ReadReady(s, s', h) || WriteReady(s, s', h))
    ensures Inv(s')
  {
    if ReadReady(s, s', h) {
      ReadWaits(s, h);
    } else {
      WriteWaits(s, h);
    }
    CountUpdate(s.threads, h, s'.threads[h]);
    forall g | 0 <= g < |s'.threads| ensures ThreadOf(s', s'.threads[g]) {
      assert ThreadOf(s, s.threads[g]);
    }
    forall g, k | 0 <= g < |s'.threads| && 0 <= k < |s'.threads| && g != k
      ensures PairOf(s'.threads[g], s'.threads[k])
    {
      assert PairOf(s.threads[g], s.threads[k]);
    }
  }

  lemma ConsumeKeeps(s: State, s': State, h: nat)
    requires Inv(s) && Consume(s, s', h)
    ensures Inv(s')
  {
    CountUpdate(s.threads, h, Idle);
    assert ThreadOf(s, s.threads[h]);
    forall g | 0 <= g < |s'.threads| ensures ThreadOf(s', s'.threads[g]) {
      assert ThreadOf(s, s.threads[g]) && (g != h ==> PairOf(s.threads[h], s.threads[g]));
    }
  }

  lemma PublishRoom(s: State, s': State, h: nat)
    requires Inv(s) && PublishWrite(s, s', h)
    ensures s'.written <= s'.read + |s'.slots|
  {
    var pc := s.threads[h];
    assert ThreadOf(s, pc);
    CoversSize(s.readDone, pc.seen);
    forall k | k in s'.writeDone ensures k < pc.seen + |s.slots| {
      if k >= |s.slots| && k in s.writeDone {
        assert k - |s.slots| in s.readDone;
      }
    }
    BelowSize(s'.writeDone, pc.seen + |s.slots|);
  }

  lemma PublishKeeps(s: State, s': State, h: nat)
    requires Inv(s) && PublishWrite(s, s', h)
    ensures Inv(s')
  {
    CountUpdate(s.threads, h, Idle);
    assert ThreadOf(s, s.threads[h]);
    PublishRoom(s, s', h);
    SlotOf(s.threads[h].i, |s.slots|);
    forall g | 0 <= g < |s'.threads| ensures ThreadOf(s', s'.threads[g]) {
      assert ThreadOf(s, s.threads[g]);
      assert (g != h ==> PairOf(s.threads[g], s.threads[h]) && PairOf(s.threads[h], s.threads[g]));
    }
  }

  lemma FillKeeps(s: State, s': State, h: nat, x: int)
    requires Inv(s) && Fill(s, s', h, x)
    ensures Inv(s')
  {
    var w, n := s.threads[h].i, |s.slots|;
    assert ThreadOf(s, s.threads[h]);
    SlotOf(w, n);
    forall i | i in s.writeDone && i !in s.readDone ensures i in s.put && s'.slots[i % n] == s.put[i] {
      if i < w {
        Circular.Apart(i, w, n);
      } else {
        Circular.Apart(w, i, n);
      }
    }
    forall g | 0 <= g < |s'.threads| ensures ThreadOf(s', s'.threads[g]) {
      assert ThreadOf(s, s.threads[g]);
    }
  }

  lemma StepKeepsInv(s: State, s': State, a: Action)
    requires Inv(s) && Step(s, s', a)
    ensures Inv(s')
  {
    match a
    case AReadClaim(h) =>
      if s.rdwr == s.threads[h].word {
        ReadClaimKeeps(s, s', h);
      } else {
        IdleMoveKeeps(s, s', h, RLoaded(s.rdwr));
      }
    case AWriteClaim(h) =>
      if s.rdwr == s.threads[h].word {
        WriteClaimKeeps(s, s', h);
      } else {
        IdleMoveKeeps(s, s', h, WLoaded(s.rdwr));
      }
    case AReadReady(h) => ReadyKeeps(s, s', h);
    case AWriteReady(h) => ReadyKeeps(s, s', h);
    case AConsume(h) => ConsumeKeeps(s, s', h);
    case APublish(h) => PublishKeeps(s, s', h);
    case AFill(h, x) => FillKeeps(s, s', h, x);
    case AReadLoad(h) => IdleMoveKeeps(s, s', h, RLoaded(s.rdwr));
    case AWriteLoad(h) => IdleMoveKeeps(s, s', h, WLoaded(s.rdwr));
    case AReadEmpty(h) => IdleMoveKeeps(s, s', h, Idle);
    case AWriteFull(h) => IdleMoveKeeps(s, s', h, Idle);
  }

  ghost predicate Run(r: seq<State>) {
    && |r| > 0 && Init(r[0])
    && forall i :: 0 <= i < |r| - 1 ==> Linked(r, i)
  }

  ghost predicate Linked(r: seq<State>, i: nat)
    requires i + 1 < |r|
  {
    exists a {:trigger Step(r[i], r[i + 1], a)} :: Step(r[i], r[i + 1], a)
  }

  lemma {:induction false} AllIdle(q: seq<Pc>)
    requires forall h :: 0 <= h < |q| ==> q[h] == Idle
    ensures Readers(q) == 0 && Writers(q) == 0
  {
    if q != [] {
      AllIdle(q[..|q| - 1]);
    }
  }

  lemma {:induction false} RunInv(r: seq<State>, n: nat)
    requires Run(r) && n < |r| && Few(r[0])
    ensures Inv(r[n])
  {
    if n == 0 {
      AllIdle(r[0].threads);
    } else {
      RunInv(r, n - 1);
      assert Linked(r, n - 1);
      var a :| Step(r[n - 1], r[n], a);
      StepKeepsInv(r[n - 1], r[n], a);
    }
  }

  // ----- what it guarantees

  /** No thread reads while another writes, and no two threads write the same slot. */
  lemma SlotsAreExclusive(r: seq<State>, n: nat, h: nat, g: nat)
    requires Run(r) && Few(r[0]) && n < |r| && h < |r[n].threads| && g < |r[n].threads| && h != g
    requires r[n].threads[g].Writing?
    ensures !r[n].threads[h].Reading? && |r[n].slots| > 0
    ensures r[n].threads[h].Writing? ==> r[n].threads[h].wr % |r[n].slots| != r[n].threads[g].wr % |r[n].slots|
  {
    RunInv(r, n);
    var s := r[n];
    var p, q := s.threads[h], s.threads[g];
    assert ThreadOf(s, p) && ThreadOf(s, q) && PairOf(p, q);
    if p.Writing? {
      SlotOf(p.i, |s.slots|);
      SlotOf(q.i, |s.slots|);
      if p.i < q.i {
        Circular.Apart(p.i, q.i, |s.slots|);
      } else {
        Circular.Apart(q.i, p.i, |s.slots|);
      }
    }
  }

  /** The reader that claimed read i finds in its slot what the i-th claimed write published, until it is done. */
  lemma FetchInClaimOrder(r: seq<State>, n: nat, h: nat)
    requires Run(r) && Few(r[0]) && n < |r| && h < |r[n].threads| && r[n].threads[h].Reading?
    ensures var s, pc := r[n], r[n].threads[h];
            && |s.slots| > 0 && pc.i in s.writeDone && pc.i !in s.readDone
            && pc.i in s.put && s.slots[pc.rd % |s.slots|] == s.put[pc.i]
  {
    RunInv(r, n);
    var s, pc := r[n], r[n].threads[h];
    assert ThreadOf(s, pc);
    SlotOf(pc.i, |s.slots|);
  }

  /** Every element is claimed by one reader at most. */
  lemma FetchedOnce(r: seq<State>, n: nat, h: nat, g: nat)
    requires Run(r) && Few(r[0]) && n < |r| && h < |r[n].threads| && g < |r[n].threads| && h != g
    requires IsRead(r[n].threads[h])
    ensures r[n].threads[h].i !in r[n].readDone
    ensures IsRead(r[n].threads[g]) ==> r[n].threads[h].i != r[n].threads[g].i
  {
    RunInv(r, n);
    assert ThreadOf(r[n], r[n].threads[h]) && PairOf(r[n].threads[h], r[n].threads[g]);
  }

  /** The 16-bit tests for empty and full are exact. */
  lemma TestsAreExact(r: seq<State>, n: nat)
    requires Run(r) && Few(r[0]) && n < |r|
    ensures r[n].readClaims <= r[n].writeClaims <= r[n].readClaims + |r[n].slots|
    ensures Wr(r[n].rdwr) == Rd(r[n].rdwr) <==> r[n].writeClaims == r[n].readClaims
    ensures Full(r[n], r[n].rdwr) <==> r[n].writeClaims == r[n].readClaims + |r[n].slots|
  {
    RunInv(r, n);
    Unpack(r[n]);
  }

  // ----- with one thread more, the counters do lap

  /** The thread at h claims next: writes until the queue is full, then a read and a write in turn. */
  predicate ReadTurn(s: State, h: nat) { h >= |s.slots| && (h - |s.slots|) % 2 == 0 }

  function WritesBy(s: State, h: nat): nat { if h <= |s.slots| then h else |s.slots| + (h - |s.slots|) / 2 }

  function ReadsBy(s: State, h: nat): nat { h - WritesBy(s, h) }

  /** Threads 0 to h have each claimed one operation and wait. */
  ghost predicate Claimed(z: State, s: State, h: nat) {
    && |s.threads| == |z.threads| && s.slots == z.slots && h <= |s.threads|
    && s.readClaims == ReadsBy(z, h) && s.writeClaims == WritesBy(z, h)
    && s.rdwr == s.readClaims % WRAP * WRAP + s.writeClaims % WRAP
    && s.read == 0 && s.written == 0 && s.writeDone == {} && s.readDone == {}
    && (forall g :: h <= g < |s.threads| ==> s.threads[g] == Idle)
  }

  lemma TurnCounts(z: State, h: nat)
    requires Sized(z)
    ensures ReadTurn(z, h) ==>
      && ReadsBy(z, h + 1) == ReadsBy(z, h) + 1 && WritesBy(z, h + 1) == WritesBy(z, h)
      && WritesBy(z, h) % WRAP != ReadsBy(z, h) % WRAP
    ensures !ReadTurn(z, h) ==>
      && ReadsBy(z, h + 1) == ReadsBy(z, h) && WritesBy(z, h + 1) == WritesBy(z, h) + 1
      && WritesBy(z, h) % WRAP != (ReadsBy(z, h) % WRAP + |z.slots|) % WRAP
  {
    TurnGaps(z, h);
    var r, w, n := ReadsBy(z, h), WritesBy(z, h), |z.slots|;
    if ReadTurn(z, h) {
      Circular.Apart(r, w, WRAP);
    } else {
      Circular.Apart(w, r + n, WRAP);
      WrapAdd(r, n);
    }
  }

  lemma TurnGaps(z: State, h: nat)
    requires Sized(z)
    ensures ReadTurn(z, h) ==>
      && ReadsBy(z, h + 1) == ReadsBy(z, h) + 1 && WritesBy(z, h + 1) == WritesBy(z, h)
      && WritesBy(z, h) == ReadsBy(z, h) + |z.slots|
    ensures !ReadTurn(z, h) ==>
      && ReadsBy(z, h + 1) == ReadsBy(z, h) && WritesBy(z, h + 1) == WritesBy(z, h) + 1
      && ReadsBy(z, h) <= WritesBy(z, h) < ReadsBy(z, h) + |z.slots|
  {
  }

  /** One more thread claims, in two steps. */
  lemma ClaimNext(z: State, s: State, h: nat) returns (mid: State, s': State, a: Action, b: Action)
    requires Sized(z) && Claimed(z, s, h) && h < |s.threads|
    ensures Step(s, mid, a) && Step(mid, s', b) && Claimed(z, s', h + 1)
    ensures ReadTurn(z, h) ==>
      s'.threads[h] == RWait(s.readClaims % WRAP, s.writeClaims % WRAP, s.readClaims, s.writeClaims)
  {
    TurnCounts(z, h);
    UnpackWord(s.readClaims, s.writeClaims);
    if ReadTurn(z, h) {
      mid, s' := ClaimRead(z, s, h);
      a, b := AReadLoad(h), AReadClaim(h);
    } else {
      mid, s' := ClaimWrite(z, s, h);
      a, b := AWriteLoad(h), AWriteClaim(h);
    }
  }

  lemma ClaimRead(z: State, s: State, h: nat) returns (mid: State, s': State)
    requires Sized(z) && Claimed(z, s, h) && h < |s.threads|
    requires ReadsBy(z, h + 1) == s.readClaims + 1 && WritesBy(z, h + 1) == s.writeClaims
    requires Rd(s.rdwr) == s.readClaims % WRAP && Wr(s.rdwr) == s.writeClaims % WRAP && Rd(s.rdwr) != Wr(s.rdwr)
    ensures ReadLoad(s, mid, h) && ReadClaim(mid, s', h) && Claimed(z, s', h + 1)
    ensures s'.threads[h] == RWait(s.readClaims % WRAP, s.writeClaims % WRAP, s.readClaims, s.writeClaims)
  {
    mid := Move(s, h, RLoaded(s.rdwr));
    s' := Move(mid, h, RWait(Rd(s.rdwr), Wr(s.rdwr), s.readClaims, s.writeClaims))
      .(rdwr := (s.rdwr + WRAP) % (WRAP * WRAP), readClaims := s.readClaims + 1);
    PackRead(s.readClaims, s.writeClaims);
  }

  lemma ClaimWrite(z: State, s: State, h: nat) returns (mid: State, s': State)
    requires Sized(z) && Claimed(z, s, h) && h < |s.threads|
    requires ReadsBy(z, h + 1) == s.readClaims && WritesBy(z, h + 1) == s.writeClaims + 1
    requires Rd(s.rdwr) == s.readClaims % WRAP && Wr(s.rdwr) == s.writeClaims % WRAP && !Full(s, s.rdwr)
    ensures WriteLoad(s, mid, h) && WriteClaim(mid, s', h) && Claimed(z, s', h + 1)
  {
    mid := Move(s, h, WLoaded(s.rdwr));
    s' := Move(mid, h, WWait(Rd(s.rdwr), Wr(s.rdwr), s.writeClaims, s.readClaims))
      .(rdwr := Rd(s.rdwr) * WRAP + (Wr(s.rdwr) + 1) % WRAP, writeClaims := s.writeClaims + 1);
    PackWrite(s.writeClaims);
  }

  lemma RunOn(r: seq<State>, s': State, a: Action)
    requires Run(r) && Step(r[|r| - 1], s', a)
    ensures Run(r + [s'])
  {
    var q := r + [s'];
    forall i | 0 <= i < |q| - 1 ensures Linked(q, i) {
      if i < |r| - 1 {
        assert Linked(r, i);
        var b :| Step(r[i], r[i + 1], b);
        assert Step(q[i], q[i + 1], b);
      } else {
        assert Step(q[i], q[i + 1], a);
      }
    }
  }

  lemma {:induction false} ClaimAll(z: State, h: nat) returns (r: seq<State>)
    requires Init(z) && h <= |z.threads|
    ensures Run(r) && r[0] == z && Claimed(z, r[|r| - 1], h)
    ensures h > 0 && ReadTurn(z, h - 1) ==>
      var s := r[|r| - 1];
      s.threads[h - 1] == RWait(ReadsBy(z, h - 1) % WRAP, WritesBy(z, h - 1) % WRAP, ReadsBy(z, h - 1),
        WritesBy(z, h - 1))
  {
    if h == 0 {
      r := [z];
    } else {
      r := ClaimAll(z, h - 1);
      var mid, s', a, b := ClaimNext(z, r[|r| - 1], h - 1);
      RunOn(r, mid, a);
      r := r + [mid];
      RunOn(r, s', b);
      r := r + [s'];
    }
  }

  /** With more threads than Few allows, some run lets a reader at a slot whose write is not published. */
  lemma TooManyThreads(z: State) returns (r: seq<State>, h: nat)
    requires Init(z) && !Few(z)
    ensures Run(r) && r[0] == z && h < |z.threads|
    ensures var s := r[|r| - 1];
            |s.threads| == |z.threads| && s.threads[h].Reading? && s.threads[h].i !in s.writeDone
  {
    h := 2 * WRAP - |z.slots|;
    r := ClaimAll(z, h + 1);
    var s := r[|r| - 1];
    LastTurn(z, h);
    var s' := Move(s, h, Reading(s.threads[h].rd, s.threads[h].i, s.threads[h].seen));
    assert Step(s, s', AReadReady(h));
    RunOn(r, s', AReadReady(h));
    r := r + [s'];
  }

  lemma LastTurn(z: State, h: nat)
    requires Sized(z) && h == 2 * WRAP - |z.slots|
    ensures ReadTurn(z, h) && WritesBy(z, h) == WRAP
  {
  }
}
