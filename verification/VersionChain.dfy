/** A record's version chain as the source keeps it: tuples linked from newest to oldest, written in
    place (silo/tuple.h). Module Engine has the same writes as steps over all records and threads. */
module VersionChain {
  import Tid

  datatype Version = Version(tid: nat, value: string)    // "" is a deletion

  /** Newest first. */
  predicate Ordered(c: seq<Version>) {
    forall i, j :: 0 <= i < j < |c| ==> c[i].tid >= c[j].tid
  }

  /** What a read at identifier t sees: the newest version not after t, or nothing. */
  function ReadAt(c: seq<Version>, t: nat): Version {
    if c == [] then Version(Tid.MIN_TID, "")
    else if c[0].tid <= t then c[0]
    else ReadAt(c[1..], t)
  }

  /** Every snapshot taken before t reads the same from both chains. */
  ghost predicate SnapshotsSurvive(c: seq<Version>, d: seq<Version>, t: nat, m: nat)
    requires m >= 1
  {
    forall tickEx: nat {:trigger Tid.ComputeReadOnlyTid(tickEx, m)} ::
      Tid.ComputeReadOnlyTid(tickEx, m) < t ==>
        ReadAt(c, Tid.ComputeReadOnlyTid(tickEx, m)) == ReadAt(d, Tid.ComputeReadOnlyTid(tickEx, m))
  }

  /** A snapshot before the new write is also before the version it may overwrite, unless that is at MIN_TID. */
  lemma SnapshotsAgree(prev: nat, t: nat, tickEx: nat, m: nat)
    requires m >= 1 && Tid.CanOverwrite(prev, t, m) && Tid.MIN_TID < prev <= t
    ensures Tid.ComputeReadOnlyTid(tickEx, m) < t ==> Tid.ComputeReadOnlyTid(tickEx, m) < prev
  {
    Tid.SnapshotAdmits(t, tickEx, m);
    Tid.SnapshotAdmits(prev, tickEx, m);
    Tid.BelowBoundary(Tid.EpochId(t), tickEx, m);
    Tid.BelowBoundary(Tid.EpochId(prev), tickEx, m);
  }

  /** The newest version is at MIN_TID and is not what a read would see without it. */
  predicate OnlyAtMin(c: seq<Version>)
    requires c != []
  {
    c[0].tid == Tid.MIN_TID && c[0] != (if |c| > 1 then c[1] else Version(Tid.MIN_TID, ""))
  }

  /** Overwriting the newest version in place keeps every earlier snapshot, except that a value at
      MIN_TID, which the source takes for absent, is lost. */
  lemma OverwriteKeepsSnapshots(c: seq<Version>, t: nat, v: string, m: nat)
    requires m >= 1 && c != [] && Ordered(c) && c[0].tid <= t && t > Tid.MIN_TID && Tid.CanOverwrite(c[0].tid, t, m)
    ensures SnapshotsSurvive(c, [Version(t, v)] + c[1..], t, m) <==> !OnlyAtMin(c)
  {
    var d := [Version(t, v)] + c[1..];
    assert d[1..] == c[1..];
    forall b: nat | b < t ensures ReadAt(d, b) == ReadAt(c[1..], b) {}
    if c[0].tid > Tid.MIN_TID {
      forall tickEx: nat | Tid.ComputeReadOnlyTid(tickEx, m) < t
        ensures ReadAt(c, Tid.ComputeReadOnlyTid(tickEx, m)) == ReadAt(d, Tid.ComputeReadOnlyTid(tickEx, m))
      {
        SnapshotsAgree(c[0].tid, t, tickEx, m);
      }
    } else {
      ReadsFromZero(c, d, t, m);
    }
  }

  /** A value written at MIN_TID, overwritten at identifier 1: the snapshot at MIN_TID no longer reads it. */
  lemma ValueAtMinIsLost(m: nat)
    requires m >= 1
    ensures var c := [Version(Tid.MIN_TID, "a")];
            Ordered(c) && Tid.CanOverwrite(c[0].tid, 1, m) && !SnapshotsSurvive(c, [Version(1, "b")] + c[1..], 1, m)
  {
    OverwriteKeepsSnapshots([Version(Tid.MIN_TID, "a")], 1, "b", m);
  }

  lemma ReadsFromZero(c: seq<Version>, d: seq<Version>, t: nat, m: nat)
    requires m >= 1 && c != [] && Ordered(c) && c[0].tid == Tid.MIN_TID && d != [] && d[0].tid == t > Tid.MIN_TID
    requires d[1..] == c[1..]
    ensures SnapshotsSurvive(c, d, t, m) <==> !OnlyAtMin(c)
  {
    assert Tid.ComputeReadOnlyTid(0, m) == Tid.MIN_TID by {
      assert Tid.Boundary(0, m) == 0;
    }
    forall b: nat | b < t ensures ReadAt(c, b) == c[0] && ReadAt(d, b) == ReadAt(c[1..], Tid.MIN_TID) {
      if c[1..] != [] {
        assert c[1..][0] == c[1] && c[1].tid <= c[0].tid;
      }
    }
    assert SnapshotsSurvive(c, d, t, m) ==>
      ReadAt(c, Tid.ComputeReadOnlyTid(0, m)) == ReadAt(d, Tid.ComputeReadOnlyTid(0, m));
  }

  lemma OrderedInFront(c: seq<Version>, t: nat, v: string)
    requires c != [] && Ordered(c) && c[0].tid <= t
    ensures Ordered([Version(t, v)] + c) && Ordered([Version(t, v)] + c[1..])
  {
    var d := [Version(t, v)] + c;
    forall i, j | 0 <= i < j < |d| ensures d[i].tid >= d[j].tid {
      assert d[j] == c[j - 1];
    }
    var e := [Version(t, v)] + c[1..];
    forall i, j | 0 <= i < j < |e| ensures e[i].tid >= e[j].tid {
      assert e[j] == c[j];
    }
  }

  /** Keeping the old chain behind the new version keeps every earlier snapshot. */
  lemma SpillKeepsSnapshots(c: seq<Version>, t: nat, v: string, m: nat)
    requires m >= 1
    ensures SnapshotsSurvive(c, [Version(t, v)] + c, t, m)
  {
    assert ([Version(t, v)] + c)[1..] == c;
  }

  class DbTuple {
    var version: nat
    var value: string
    var deleting: bool
    var allocSize: nat
    var latest: bool
    var modifying: bool
    var next: DbTuple?
    ghost var chain: seq<Version>
    ghost var repr: set<DbTuple>

    ghost predicate Valid()
      reads this, repr
      decreases repr
    {
      && this in repr && |value| <= allocSize && (deleting <==> value == "")
      && (next == null ==> chain == [Version(version, value)])
      && (next != null ==>
            && next in repr && next.repr < repr && this !in next.repr && next.Valid()
            && chain == [Version(version, value)] + next.chain)
      && Ordered(chain)
    }

    /** alloc: a copy of another tuple's record, behind which the same older versions hang. */
    constructor Copy(base: DbTuple)
      requires base.Valid()
      ensures Valid() && fresh(this) && repr == {this} + (base.repr - {base})
      ensures chain == base.chain && !latest && next == base.next && version == base.version && value == base.value
    {
      version, value, deleting, latest, modifying := base.version, base.value, base.deleting, false, false;
      allocSize, next, chain := |base.value|, base.next, base.chain;
      repr := {this} + (base.repr - {base});
    }

    /** alloc_spill: a new latest version in front of an existing chain. */
    constructor Spill(t: nat, v: string, room: nat, rest: DbTuple)
      requires rest.Valid() && |v| <= room && rest.version <= t
      ensures Valid() && fresh(this) && repr == {this} + rest.repr
      ensures chain == [Version(t, v)] + rest.chain && latest && next == rest && version == t
    {
      version, value, deleting, latest, modifying := t, v, v == "", true, false;
      OrderedInFront(rest.chain, t, v);
      allocSize, next, chain := room, rest, [Version(t, v)] + rest.chain;
      repr := {this} + rest.repr;
    }

    /** write_record_at: head is the latest tuple afterwards, rest the superseded one if any. */
    method WriteRecordAt(t: nat, v: string, m: nat,
                         room: nat) returns (head: DbTuple, rest: DbTuple?, forcedSpill: bool)
      requires Valid() && latest && m >= 1 && version <= t && t > Tid.MIN_TID && |v| <= room
      modifies this
      ensures head.Valid() && head.latest && head.chain != [] && head.chain[0] == Version(t, v)
      ensures forall u :: u >= t ==> ReadAt(head.chain, u) == Version(t, v)
      ensures old(version) > Tid.MIN_TID || old(value) == "" ==> SnapshotsSurvive(old(chain), head.chain, t, m)
      ensures head.chain == [Version(t, v)] + (if rest == null then old(chain)[1..] else old(chain))
      ensures rest == null <==> Tid.CanOverwrite(old(version), t, m) && old(value) != "" && |v| <= old(allocSize)
      ensures rest != null ==>
        rest in head.repr && !rest.latest && rest.version == old(version) && rest.value == old(value)
      ensures forcedSpill <==> !(Tid.CanOverwrite(old(version), t, m) && old(value) != "")
      ensures head != this ==> fresh(head) && rest == this && !latest && version == old(version) && value == old(value)
      ensures head == this ==> modifying
    {
      var oldSize := if deleting then 0 else |value|;
      if Tid.CanOverwrite(version, t, m) && oldSize > 0 {
        if |v| <= allocSize {
          OverwriteKeepsSnapshots(chain, t, v, m);
          OverwriteInPlace(t, v);
          return this, null, false;
        }
        head := Replace(t, v, room);
        SpillKeepsSnapshots(old(chain), t, v, m);
        return head, this, false;
      }
      SpillKeepsSnapshots(chain, t, v, m);
      if |v| <= allocSize && oldSize > 0 {
        var spill := SpillInPlace(t, v);
        return this, spill, true;
      }
      head := Replace(t, v, room);
      return head, this, true;
    }

    method OverwriteInPlace(t: nat, v: string)
      requires Valid() && version <= t && |v| <= allocSize
      modifies this
      ensures Valid() && chain == [Version(t, v)] + old(chain)[1..] && modifying && latest == old(latest)
    {
      OrderedInFront(chain, t, v);
      modifying := true;
      value, version, deleting := v, t, v == "";
      chain := [Version(t, v)] + chain[1..];
    }

    method SpillInPlace(t: nat, v: string) returns (spill: DbTuple)
      requires Valid() && version <= t && |v| <= allocSize
      modifies this
      ensures Valid() && chain == [Version(t, v)] + old(chain) && modifying && latest == old(latest)
      ensures spill in repr && !spill.latest && spill.version == old(version) && spill.value == old(value)
    {
      OrderedInFront(chain, t, v);
      spill := new DbTuple.Copy(this);
      modifying, next := true, spill;
      value, version, deleting := v, t, v == "";
      chain := [Version(t, v)] + chain;
      repr := {this} + spill.repr;
    }

    method Replace(t: nat, v: string, room: nat) returns (rep: DbTuple)
      requires Valid() && version <= t && |v| <= room
      modifies this`latest
      ensures rep.Valid() && fresh(rep) && rep.latest && rep.next == this && this in rep.repr
      ensures rep.chain == [Version(t, v)] + old(chain) && !latest
    {
      latest := false;
      rep := new DbTuple.Spill(t, v, room, this);
    }

    /** record_at and record_at_chain, when no writer interferes. */
    method RecordAt(t: nat) returns (r: Version)
      requires Valid()
      ensures version == Tid.MAX_TID ==> r == Version(Tid.MIN_TID, "")
      ensures version != Tid.MAX_TID ==> r == ReadAt(chain, t)
    {
      if version == Tid.MAX_TID {
        return Version(Tid.MIN_TID, "");
      }
      var current: DbTuple? := this;
      while current != null
        invariant current != null ==> current.Valid() && ReadAt(current.chain, t) == ReadAt(chain, t)
        invariant current == null ==> ReadAt(chain, t) == Version(Tid.MIN_TID, "")
        decreases if current == null then {} else current.repr
      {
        if current.version <= t {
          return Version(current.version, if current.deleting then "" else current.value);
        }
        current := current.next;
      }
      return Version(Tid.MIN_TID, "");
    }
  }
}
