/** Transaction identifiers of silo/txn_proto2_impl.h: packing, order, snapshot boundaries and
    the choice of a commit identifier. */
module Tid {

  const CORES: nat := 0x200                 // 2^9, core field
  const NUMBERS: nat := 0x100_0000          // 2^24, counter field
  const EPOCH_UNIT: nat := 0x2_0000_0000    // 2^33
  const MIN_TID: nat := 0
  const MAX_TID: nat := 0xFFFF_FFFF_FFFF_FFFF

  function CoreId(t: nat): nat { t % CORES }

  function NumId(t: nat): nat { (t / CORES) % NUMBERS }

  function EpochId(t: nat): nat { t / EPOCH_UNIT }

  /** The three fields side by side. The bit-level form is PackBits below. */
  function MakeTid(core: nat, num: nat, epoch: nat): (t: nat)
    requires core < CORES && num < NUMBERS
    ensures CoreId(t) == core && NumId(t) == num && EpochId(t) == epoch
  {
    var t := core + num * CORES + epoch * EPOCH_UNIT;
    FieldsComeBack(core, num, epoch);
    t
  }

  lemma FieldsComeBack(core: nat, num: nat, epoch: nat)
    requires core < CORES && num < NUMBERS
    ensures var t := core + num * CORES + epoch * EPOCH_UNIT;
            CoreId(t) == core && NumId(t) == num && EpochId(t) == epoch
  {
    var t := core + num * CORES + epoch * EPOCH_UNIT;
    assert t == core + CORES * (num + NUMBERS * epoch);
    assert t / CORES == num + NUMBERS * epoch;
  }

  /** Shifting and or-ing the fields, as the source does, is adding them: they do not overlap. */
  lemma PackBits(core: bv64, num: bv64, epoch: bv64)
    requires core < 0x200 && num < 0x100_0000 && epoch < 0x8000_0000
    ensures core | (num << 9) | (epoch << 33) == core + num * 0x200 + epoch * 0x2_0000_0000
    ensures var t := core | (num << 9) | (epoch << 33);
            t & 0x1FF == core && (t & 0x1_FFFF_FE00) >> 9 == num && (t & 0xFFFF_FFFE_0000_0000) >> 33 == epoch
  {
  }

  /** Every identifier is the packing of its own fields. */
  lemma Repack(t: nat)
    ensures t == CoreId(t) + NumId(t) * CORES + EpochId(t) * EPOCH_UNIT
  {
    assert t / CORES / NUMBERS == t / EPOCH_UNIT;
  }

  /** Numeric order is lexicographic order on (epoch, number, core). */
  lemma OrderIsLexicographic(a: nat, b: nat)
    ensures a < b <==>
      || EpochId(a) < EpochId(b)
      || (EpochId(a) == EpochId(b) && NumId(a) < NumId(b))
      || (EpochId(a) == EpochId(b) && NumId(a) == NumId(b) && CoreId(a) < CoreId(b))
  {
    Repack(a);
    Repack(b);
  }

  lemma EpochMonotone(a: nat, b: nat)
    requires a <= b
    ensures EpochId(a) <= EpochId(b)
  {
  }

  // ----- snapshot boundaries

  /** How many whole groups of m epochs end at or before the given epoch: the quotient, see ReadOnlyTickIsQuotient. */
  function ToReadOnlyTick(epoch: nat, m: nat): nat
    requires m >= 1
  {
    if epoch < m then 0 else 1 + ToReadOnlyTick(epoch - m, m)
  }

  lemma {:induction false} ReadOnlyTickBounds(epoch: nat, m: nat)
    requires m >= 1
    ensures ToReadOnlyTick(epoch, m) * m <= epoch < (ToReadOnlyTick(epoch, m) + 1) * m
  {
    if epoch >= m {
      ReadOnlyTickBounds(epoch - m, m);
      var q := ToReadOnlyTick(epoch - m, m);
      assert ToReadOnlyTick(epoch, m) == q + 1;
      Distribute(q, m);
      Distribute(q + 1, m);
    }
  }

  lemma Distribute(q: nat, m: nat)
    ensures (q + 1) * m == q * m + m
  {
  }

  lemma ReadOnlyTickIsQuotient(epoch: nat, m: nat)
    requires m >= 1
    ensures ToReadOnlyTick(epoch, m) == epoch / m
  {
    ReadOnlyTickBounds(epoch, m);
    QuotientUnique(epoch, m, ToReadOnlyTick(epoch, m));
  }

  lemma QuotientUnique(e: nat, m: nat, q: nat)
    requires m >= 1 && q * m <= e < (q + 1) * m
    ensures q == e / m
  {
    var d := e / m;
    assert e == d * m + e % m;
    Distribute(d, m);
    if q < d {
      MulMonotone(q + 1, d, m);
    } else if d < q {
      MulMonotone(d + 1, q, m);
    }
  }

  /** The first epoch a snapshot started at this exclusive tick does not see. */
  function Boundary(tickEx: nat, m: nat): nat
    requires m >= 1
  {
    tickEx / m * m
  }

  function ComputeReadOnlyTid(tickEx: nat, m: nat): nat
    requires m >= 1
  {
    var b := Boundary(tickEx, m);
    if b == 0 then MakeTid(0, 0, 0) else MakeTid(CORES - 1, NUMBERS - 1, b - 1)
  }

  /** A snapshot identifier admits exactly the identifiers of epochs below its boundary. */
  lemma SnapshotAdmits(t: nat, tickEx: nat, m: nat)
    requires m >= 1 && t > MIN_TID
    ensures t <= ComputeReadOnlyTid(tickEx, m) <==> EpochId(t) < Boundary(tickEx, m)
  {
    var b := Boundary(tickEx, m);
    if b > 0 {
      OrderIsLexicographic(ComputeReadOnlyTid(tickEx, m), t);
    }
  }

  predicate CanOverwrite(prev: nat, cur: nat, m: nat)
    requires m >= 1
  {
    ToReadOnlyTick(EpochId(prev), m) == ToReadOnlyTick(EpochId(cur), m) || prev == MIN_TID
  }

  /** A boundary falls between read-only ticks, never inside one. */
  lemma BelowBoundary(e: nat, tickEx: nat, m: nat)
    requires m >= 1
    ensures e < Boundary(tickEx, m) <==> ToReadOnlyTick(e, m) < ToReadOnlyTick(tickEx, m)
  {
    ReadOnlyTickIsQuotient(tickEx, m);
    ReadOnlyTickBounds(e, m);
    var q, r := ToReadOnlyTick(e, m), ToReadOnlyTick(tickEx, m);
    if q < r {
      MulMonotone(q + 1, r, m);
    } else {
      MulMonotone(r, q, m);
    }
  }

  lemma MulMonotone(a: int, b: int, m: nat)
    requires a <= b
    ensures a * m <= b * m
  {
  }

  lemma {:induction false} ReadOnlyTickMonotone(a: nat, b: nat, m: nat)
    requires m >= 1 && a <= b
    ensures ToReadOnlyTick(a, m) <= ToReadOnlyTick(b, m)
  {
    if a >= m {
      ReadOnlyTickMonotone(a - m, b - m, m);
    }
  }

  // ----- the commit identifier

  /** Where the search for a commit identifier starts: the core's last one, or the bottom of a new epoch. */
  function Floor(last: nat, epoch: nat): nat {
    if epoch != EpochId(last) then MakeTid(0, 0, epoch) else last
  }

  /** tid is built from the largest of floor and seen, by bumping its counter, in the given epoch and core. */
  ghost predicate Chosen(tid: nat, core: nat, epoch: nat, last: nat, seen: set<nat>) {
    exists base: nat ::
      && IsBase(base, Floor(last, epoch), seen)
      && core < CORES && NumId(base) + 1 < NUMBERS
      && tid == MakeTid(core, NumId(base) + 1, epoch)
  }

  ghost predicate IsBase(base: nat, floor: nat, seen: set<nat>) {
    && (base == floor || base in seen)
    && floor <= base
    && forall t :: t in seen ==> t <= base
  }

  /** The chosen identifier carries the core and epoch and exceeds everything it was chosen from, as
      long as nothing seen comes from a later epoch. */
  lemma ChosenExceeds(tid: nat, core: nat, epoch: nat, last: nat, seen: set<nat>)
    requires Chosen(tid, core, epoch, last, seen)
    requires EpochId(last) <= epoch
    requires forall t :: t in seen ==> EpochId(t) <= epoch
    ensures CoreId(tid) == core && EpochId(tid) == epoch
    ensures epoch < 0x7FFF_FFFF ==> tid < MAX_TID
    ensures last < tid && MIN_TID < tid
    ensures forall t :: t in seen ==> t < tid
  {
    var base: nat :| IsBase(base, Floor(last, epoch), seen)
      && core < CORES && NumId(base) + 1 < NUMBERS && tid == MakeTid(core, NumId(base) + 1, epoch);
    assert EpochId(base) == epoch by {
      EpochMonotone(Floor(last, epoch), base);
    }
    OrderIsLexicographic(base, tid);
    assert last <= base || EpochId(last) < epoch;
    OrderIsLexicographic(last, tid);
    Repack(tid);
  }

  datatype WriteInfo = WriteInfo(isInsert: bool, version: nat)

  /** The identifiers the loops of gen_commit_tid look at. */
  function Seen(readTids: seq<nat>, writes: seq<WriteInfo>): (r: set<nat>) {
    (set t | t in readTids) + (set w | w in writes && Counts(w) :: w.version)
  }

  /** Inserts are skipped, and so is a tuple this transaction inserted and then overwrote. */
  predicate Counts(w: WriteInfo) {
    !w.isInsert && w.version != MAX_TID
  }

  /** The part of a core's thread context that commit identifiers come from. */
  class ThreadCtx {
    const core: nat
    var lastCommitTid: nat

    constructor (core: nat)
      ensures this.core == core && lastCommitTid == MIN_TID
    {
      this.core := core;
      lastCommitTid := MIN_TID;
    }

    /** gen_commit_tid: one pass over the reads, one over the locked write tuples. The counter field
        must have room, which the source only asserts. */
    method GenCommitTid(epoch: nat, readTids: seq<nat>, writes: seq<WriteInfo>) returns (tid: nat)
      requires core < CORES && EpochId(lastCommitTid) <= epoch
      requires forall t :: t in Seen(readTids, writes) ==> EpochId(t) <= epoch
      requires forall t :: t in Seen(readTids, writes) + {lastCommitTid} ==> NumId(t) + 1 < NUMBERS
      modifies this
      ensures Chosen(tid, core, epoch, old(lastCommitTid), Seen(readTids, writes))
      ensures lastCommitTid == tid
      ensures tid > old(lastCommitTid) && forall t :: t in Seen(readTids, writes) ==> t < tid
      ensures CoreId(tid) == core && EpochId(tid) == epoch
    {
      var ret := lastCommitTid;
      if epoch != EpochId(ret) {
        ret := MakeTid(0, 0, epoch);
      }
      ghost var floor := ret;
      var i := 0;
      while i < |readTids|
        invariant 0 <= i <= |readTids|
        invariant lastCommitTid == old(lastCommitTid)
        invariant IsBase(ret, floor, Seen(readTids[..i], []))
      {
        if readTids[i] > ret {
          ret := readTids[i];
        }
        SeenRead(readTids, i);
        i := i + 1;
      }
      assert readTids[..i] == readTids;
      var j := 0;
      while j < |writes|
        invariant 0 <= j <= |writes|
        invariant lastCommitTid == old(lastCommitTid)
        invariant IsBase(ret, floor, Seen(readTids, writes[..j]))
      {
        if Counts(writes[j]) && writes[j].version > ret {
          ret := writes[j].version;
        }
        SeenWrite(readTids, writes, j);
        j := j + 1;
      }
      assert writes[..j] == writes;
      ghost var base := ret;
      tid := MakeTid(core, NumId(ret) + 1, epoch);
      assert Chosen(tid, core, epoch, lastCommitTid, Seen(readTids, writes)) by {
        assert IsBase(base, Floor(lastCommitTid, epoch), Seen(readTids, writes));
      }
      ChosenExceeds(tid, core, epoch, lastCommitTid, Seen(readTids, writes));
      lastCommitTid := tid;
    }
  }

  lemma SeenRead(readTids: seq<nat>, i: nat)
    requires i < |readTids|
    ensures Seen(readTids[..i + 1], []) == Seen(readTids[..i], []) + {readTids[i]}
  {
    assert readTids[..i + 1] == readTids[..i] + [readTids[i]];
  }

  lemma SeenWrite(readTids: seq<nat>, writes: seq<WriteInfo>, j: nat)
    requires j < |writes|
    ensures Seen(readTids, writes[..j + 1])
         == Seen(readTids, writes[..j]) + (if Counts(writes[j]) then {writes[j].version} else {})
  {
    assert writes[..j + 1] == writes[..j] + [writes[j]];
    assert forall w :: w in writes[..j + 1] <==> w in writes[..j] || w == writes[j];
  }
}
