/** What a put leaves of the version chains that snapshots walk (silo/tuple.h, record_at_chain and write_record_at). */
module EngineVersions {
  import opened Engine
  import opened EngineInv
  import opened EngineRuns
  import opened EngineApply
  import M = EngineMain
  import Tid

  /** What a snapshot with the given identifier reads from p on, if it takes it at most so many tuples to find it. */
  function Walk(s: State, snapTid: nat, p: Ptr, hops: nat): Option<Value>
    decreases hops
  {
    if hops == 0 || p !in s.tuples then None
    else if s.tuples[p].version == Tid.MAX_TID then Some("")
    else if s.tuples[p].version <= snapTid then Some(s.tuples[p].value)
    else if s.tuples[p].next == None then Some("")
    else Walk(s, snapTid, s.tuples[p].next.value, hops - 1)
  }

  /** An identifier of an epoch that no snapshot reaches is above every snapshot's. */
  lemma AboveSnapshot(s: State, y: nat, tid: nat)
    requires Sound(s) && s.m >= 1 && y in s.txns && tid > Tid.MIN_TID && Ro(s, Tid.EpochId(tid)) >= Limit(s, s.txns[y])
    ensures tid > s.txns[y].snapTid
  {
    TheCuts(s);
    Tid.SnapshotAdmits(tid, s.txns[y].start + 1, s.m);
    Tid.BelowBoundary(Tid.EpochId(tid), s.txns[y].start + 1, s.m);
  }

  /** A transaction that is writing is beyond every snapshot. */
  lemma WriterAbove(s: State, x: nat, p: Ptr, y: nat)
    requires Sound(s) && AtPut(s, x, p) && y in s.txns
    ensures s.txns[x].tid > s.txns[y].snapTid
  {
    WriterEpoch(s, x, p);
    TheTimes(s);
    assert TimeOf(s, y);
    Tid.ReadOnlyTickMonotone(s.txns[y].start + 1, s.txns[x].epoch, s.m);
    AboveSnapshot(s, y, s.txns[x].tid);
  }

  lemma WriterEpoch(s: State, x: nat, p: Ptr)
    requires Sound(s) && AtPut(s, x, p)
    ensures PutReady(s, x, p) && Tid.EpochId(s.txns[x].tid) == s.txns[x].epoch > s.tk.last
    ensures s.txns[x].tid > Tid.MIN_TID
  {
    Open(s);
    M.PutReadyNow(s, x, p);
  }

  /** So is the version it may overwrite in place. */
  lemma OverwrittenAbove(s: State, x: nat, p: Ptr, y: nat)
    requires Sound(s) && AtPut(s, x, p) && y in s.txns && Tid.CanOverwrite(s.tuples[p].version, s.txns[x].tid, s.m)
    ensures s.tuples[p].version > s.txns[y].snapTid
  {
    WriterEpoch(s, x, p);
    TheTimes(s);
    assert TimeOf(s, y);
    Tid.ReadOnlyTickMonotone(s.txns[y].start + 1, s.txns[x].epoch, s.m);
    AboveSnapshot(s, y, s.tuples[p].version);
  }

  /** No committed version is at MIN_TID, so the case in which an overwrite in place could lose one never comes up. */
  lemma VersionsAboveMin(r: seq<State>, n: nat, p: Ptr)
    requires Run(r) && n < |r| && p in r[n].tuples
    ensures r[n].tuples[p].version > Tid.MIN_TID
  {
    RunSound(r, n);
    TheHoldings(r[n]);
    assert HoldsOf(r[n], p);
  }

  // ----- in place

  lemma {:induction false} InPlaceWalk(s: State, s': State, b: nat, p: Ptr, q: Ptr, hops: nat)
    requires p in s.tuples && p in s'.tuples && s'.tuples == s.tuples[p := s'.tuples[p]]
    requires s.tuples[p].version > b && s'.tuples[p].version > b && s'.tuples[p].next == s.tuples[p].next
    requires s.tuples[p].version != Tid.MAX_TID && s'.tuples[p].version != Tid.MAX_TID
    ensures Walk(s', b, q, hops) == Walk(s, b, q, hops)
    decreases hops
  {
    if hops > 0 && q in s.tuples && s.tuples[q].next.Some? {
      InPlaceWalk(s, s', b, p, s.tuples[q].next.value, hops - 1);
    }
  }

  /** A put in place leaves what every snapshot that has begun reads as it was, from whatever tuple it goes on. */
  lemma InPlaceUnseen(r: seq<State>, n: nat, x: nat, p: Ptr, y: nat, q: Ptr, hops: nat)
    requires Run(r) && n + 1 < |r| && PutInPlace(r[n], r[n + 1], x, p) && y in r[n].txns
    ensures Walk(r[n + 1], r[n].txns[y].snapTid, q, hops) == Walk(r[n], r[n].txns[y].snapTid, q, hops)
  {
    RunSound(r, n);
    var s, s' := r[n], r[n + 1];
    OverwrittenAbove(s, x, p, y);
    WriterAbove(s, x, p, y);
    InPlaceTuples(s, s', x, p);
    InPlaceWalk(s, s', s.txns[y].snapTid, p, q, hops);
  }

  lemma InPlaceTuples(s: State, s': State, x: nat, p: Ptr)
    requires Sound(s) && PutInPlace(s, s', x, p)
    ensures p in s'.tuples && s'.tuples == s.tuples[p := s'.tuples[p]] && s'.tuples[p].next == s.tuples[p].next
    ensures s'.tuples[p].version == s.txns[x].tid != Tid.MAX_TID
  {
    Open(s);
    M.PutReadyNow(s, x, p);
  }

  // ----- with a spill or a replacement

  /** The tuples off the head stay, and none of them leads back to it. */
  ghost predicate OffHead(s: State, s': State, p: Ptr) {
    && (forall q :: q in s.tuples && q != p ==> q in s'.tuples && SameVersion(s.tuples[q], s'.tuples[q]))
    && (forall q :: q in s.tuples && s.tuples[q].version != Tid.MAX_TID && s.tuples[q].next.Some? ==>
          s.tuples[q].next.value in s.tuples && s.tuples[q].next.value != p)
  }

  predicate SameVersion(u: Tuple, u': Tuple) {
    u'.version == u.version && u'.value == u.value && u'.next == u.next
  }

  lemma {:induction false} OffHeadWalk(s: State, s': State, b: nat, p: Ptr, q: Ptr, hops: nat)
    requires OffHead(s, s', p) && q in s.tuples && q != p
    ensures Walk(s', b, q, hops) == Walk(s, b, q, hops)
    decreases hops
  {
    assert SameVersion(s.tuples[q], s'.tuples[q]);
    if hops > 0 && s.tuples[q].version != Tid.MAX_TID && s.tuples[q].next.Some? {
      OffHeadWalk(s, s', b, p, s.tuples[q].next.value, hops - 1);
    }
  }

  /** A new head in front of a tuple that holds what the old head held costs a snapshot one more hop. */
  lemma NewHead(s: State, s': State, b: nat, p: Ptr, head: Ptr, back: Ptr, hops: nat)
    requires OffHead(s, s', p) && p in s.tuples && s.tuples[p].version != Tid.MAX_TID
    requires head in s'.tuples && b < s'.tuples[head].version != Tid.MAX_TID && s'.tuples[head].next == Some(back)
    requires back in s'.tuples && SameVersion(s.tuples[p], s'.tuples[back])
    ensures Walk(s', b, head, hops + 1) == Walk(s, b, p, hops)
  {
    if hops > 0 && s.tuples[p].next.Some? {
      OffHeadWalk(s, s', b, p, s.tuples[p].next.value, hops - 1);
    }
  }

  lemma HeadIsOff(s: State, s': State, x: nat, p: Ptr)
    requires Sound(s) && AtPut(s, x, p)
    requires forall q :: q in s.tuples && q != p ==> q in s'.tuples && s'.tuples[q] == s.tuples[q]
    ensures OffHead(s, s', p)
  {
    WriterEpoch(s, x, p);
    TheChains(s);
    TheHoldings(s);
    forall q | q in s.tuples && s.tuples[q].version != Tid.MAX_TID && s.tuples[q].next.Some?
      ensures s.tuples[q].next.value in s.tuples && s.tuples[q].next.value != p
    {
      assert LinkOf(s, q) && HoldsOf(s, q);
    }
  }

  /** A put with a spill: from the tuple written it takes one more hop, from any other tuple the same. */
  lemma SpillUnseen(r: seq<State>, n: nat, x: nat, p: Ptr, q: Ptr, y: nat, o: Ptr, hops: nat)
    requires Run(r) && n + 1 < |r| && PutSpill(r[n], r[n + 1], x, p, q) && y in r[n].txns && o in r[n].tuples
    ensures var b := r[n].txns[y].snapTid;
            Walk(r[n + 1], b, o, if o == p then hops + 1 else hops) == Walk(r[n], b, o, hops)
  {
    RunSound(r, n);
    var s, s' := r[n], r[n + 1];
    WriterAbove(s, x, p, y);
    HeadIsOff(s, s', x, p);
    SpillTid(s, s', x, p, q);
    if o == p {
      NewHead(s, s', s.txns[y].snapTid, p, p, q, hops);
    } else {
      OffHeadWalk(s, s', s.txns[y].snapTid, p, o, hops);
    }
  }

  lemma SpillTid(s: State, s': State, x: nat, p: Ptr, q: Ptr)
    requires Sound(s) && AtPut(s, x, p)
    ensures s.txns[x].tid != Tid.MAX_TID
  {
    Open(s);
    M.PutReadyNow(s, x, p);
  }

  /** A put by replacement: from the new tuple it takes one more hop than from the old, from any other the same. */
  lemma ReplaceUnseen(r: seq<State>, n: nat, x: nat, p: Ptr, q: Ptr, room: nat, y: nat, o: Ptr, hops: nat)
    requires Run(r) && n + 1 < |r| && PutReplace(r[n], r[n + 1], x, p, q, room) && y in r[n].txns && o in r[n].tuples
    ensures var b := r[n].txns[y].snapTid;
            && Walk(r[n + 1], b, q, hops + 1) == Walk(r[n], b, p, hops)
            && (o != p ==> Walk(r[n + 1], b, o, hops) == Walk(r[n], b, o, hops))
  {
    RunSound(r, n);
    var s, s' := r[n], r[n + 1];
    WriterAbove(s, x, p, y);
    HeadIsOff(s, s', x, p);
    SpillTid(s, s', x, p, q);
    NewHead(s, s', s.txns[y].snapTid, p, q, p, hops);
    if o != p { OffHeadWalk(s, s', s.txns[y].snapTid, p, o, hops); }
  }
}
