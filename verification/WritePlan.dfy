/** How commit turns the sorted write set into locks to take and writes to apply, and what its two unlock loops give
    back (silo/txn_impl.h, silo/txn.h). Module Engine takes these loops one entry at a time. */
module WritePlan {

  /** dbtuple_write_info: one entry of the write set, by the address of its tuple. */
  datatype WriteInfo = WriteInfo(tuple: nat, insert: bool, pos: nat)

  /** What commit does to tuples: lock, unlock, and take out of the tree. */
  datatype Event = Lock(tuple: nat) | Unlock(tuple: nat) | Unlink(tuple: nat)

  predicate Less(a: WriteInfo, b: WriteInfo) {
    || a.tuple < b.tuple
    || (a.tuple == b.tuple && a.insert && !b.insert)
    || (a.tuple == b.tuple && a.insert == b.insert && a.pos < b.pos)
  }

  /** Sorted, without duplicates, and with at most one insert per tuple. */
  predicate Sorted(w: seq<WriteInfo>) {
    && (forall i, j :: 0 <= i < j < |w| ==> Less(w[i], w[j]))
    && (forall i, j :: 0 <= i < j < |w| && w[i].tuple == w[j].tuple ==> !w[j].insert)
  }

  predicate Ascending(q: seq<nat>) {
    forall i, j :: 0 <= i < j < |q| ==> q[i] < q[j]
  }

  /** Some entry before n writes the tuple, and none inserted it. */
  ghost predicate NeedsLock(w: seq<WriteInfo>, n: nat, p: nat)
    requires n <= |w|
  {
    Written(w, n, p) && forall i :: 0 <= i < n && w[i].tuple == p ==> !w[i].insert
  }

  ghost predicate Written(w: seq<WriteInfo>, n: nat, p: nat)
    requires n <= |w|
  {
    exists i :: 0 <= i < n && w[i].tuple == p
  }

  /** No later entry of the write set puts to the same tuple. */
  ghost predicate LastPut(w: seq<WriteInfo>, i: nat)
    requires i < |w|
  {
    !w[i].insert && forall j :: 0 <= j < |w| && w[j].tuple == w[i].tuple && !w[j].insert ==> w[j].pos <= w[i].pos
  }

  /** The locks the groups before entry n need. */
  ghost predicate Locked(w: seq<WriteInfo>, n: nat, locks: seq<nat>)
    requires n <= |w|
  {
    Ascending(locks) && forall p :: p in locks <==> NeedsLock(w, n, p)
  }

  /** Which of the entries before n are to be written. */
  ghost predicate Marked(w: seq<WriteInfo>, n: nat, doWrite: set<nat>)
    requires n <= |w|
  {
    forall i :: 0 <= i < n ==> MarkedAt(w, i, doWrite)
  }

  ghost predicate MarkedAt(w: seq<WriteInfo>, i: nat, doWrite: set<nat>)
    requires i < |w|
  {
    i in doWrite <==> w[i].insert || LastPut(w, i)
  }

  /** Entries g to i are the whole of one group, or its beginning. */
  ghost predicate Group(w: seq<WriteInfo>, g: nat, i: nat) {
    && g <= i < |w|
    && (forall k :: 0 <= k < g ==> w[k].tuple < w[i].tuple)
    && (forall k :: g <= k <= i ==> w[k].tuple == w[i].tuple)
  }

  predicate GroupEnds(w: seq<WriteInfo>, i: nat) { i + 1 < |w| ==> w[i + 1].tuple != w[i].tuple }

  lemma LastOfGroup(w: seq<WriteInfo>, i: nat)
    requires Sorted(w) && i < |w| && GroupEnds(w, i)
    ensures forall j :: i < j < |w| ==> w[j].tuple > w[i].tuple
    ensures !w[i].insert ==> LastPut(w, i)
  {
    forall j | i < j < |w| ensures w[j].tuple > w[i].tuple {
      assert Less(w[i], w[i + 1]) && (i + 1 < j ==> Less(w[i + 1], w[j]));
    }
    forall j | 0 <= j < i && w[j].tuple == w[i].tuple && !w[j].insert && !w[i].insert ensures w[j].pos <= w[i].pos {
      assert Less(w[j], w[i]);
    }
  }

  /** The group's last entry, and its insert if there is one, are all that is written of it. */
  lemma GroupMarked(w: seq<WriteInfo>, g: nat, i: nat, doWrite: set<nat>)
    requires Sorted(w) && Group(w, g, i) && GroupEnds(w, i) && Marked(w, g, doWrite)
    requires forall k :: g <= k <= i ==> (k in doWrite <==> w[k].insert)
    ensures Marked(w, i + 1, if w[i].insert then doWrite else doWrite + {i})
  {
    LastOfGroup(w, i);
    var doWrite' := if w[i].insert then doWrite else doWrite + {i};
    forall k | 0 <= k <= i ensures MarkedAt(w, k, doWrite') {
      if k < g {
        assert MarkedAt(w, k, doWrite);
      } else if k < i {
        assert Less(w[k], w[i]);
      }
    }
  }

  lemma GroupLocked(w: seq<WriteInfo>, g: nat, i: nat, locks: seq<nat>)
    requires Sorted(w) && Group(w, g, i) && Locked(w, g, locks)
    ensures Locked(w, i + 1, if w[g].insert then locks else locks + [w[i].tuple])
  {
    var q := w[i].tuple;
    var locks' := if w[g].insert then locks else locks + [q];
    assert Written(w, i + 1, q) && w[g].tuple == q;
    forall p: nat | p in locks ensures p < q {
      assert NeedsLock(w, g, p);
    }
    assert NeedsLock(w, i + 1, q) <==> !w[g].insert;
    forall a | 0 <= a < |locks| ensures locks[a] < q {
      assert locks[a] in locks;
    }
    forall p: nat ensures p in locks' <==> NeedsLock(w, i + 1, p) {
      if p != q {
        SameNeed(w, g, i, p);
      }
    }
  }

  /** Another tuple's need for a lock does not depend on this group. */
  lemma SameNeed(w: seq<WriteInfo>, g: nat, i: nat, p: nat)
    requires Group(w, g, i) && p != w[i].tuple
    ensures NeedsLock(w, i + 1, p) <==> NeedsLock(w, g, p)
  {
  }

  /** Entries before i are dealt with, except that the group beginning at g is still open. */
  ghost predicate Progress(w: seq<WriteInfo>, g: nat, i: nat, inserted: bool, locks: seq<nat>, doWrite: set<nat>) {
    && g < i <= |w| && Group(w, g, i - 1) && inserted == w[g].insert
    && Locked(w, g, locks) && Marked(w, g, doWrite)
    && (forall k :: k in doWrite ==> k < i)
    && (forall k :: g <= k < i ==> (k in doWrite <==> w[k].insert))
  }

  ghost predicate Done(w: seq<WriteInfo>, i: nat, locks: seq<nat>, doWrite: set<nat>) {
    && i <= |w| && Locked(w, i, locks) && Marked(w, i, doWrite)
    && (forall k :: k in doWrite ==> k < i)
  }

  lemma CloseGroup(w: seq<WriteInfo>, g: nat, i: nat, inserted: bool, locks: seq<nat>, doWrite: set<nat>)
    requires Sorted(w) && Progress(w, g, i, inserted, locks, doWrite) && GroupEnds(w, i - 1)
    ensures Done(w, i, if inserted then locks else locks + [w[i - 1].tuple], if w[i - 1].insert then doWrite
      else doWrite + {i - 1})
  {
    GroupMarked(w, g, i - 1, doWrite);
    GroupLocked(w, g, i - 1, locks);
  }

  lemma OpenGroup(w: seq<WriteInfo>, i: nat, locks: seq<nat>, doWrite: set<nat>)
    requires Sorted(w) && Done(w, i, locks, doWrite) && i < |w| && (i > 0 ==> w[i - 1].tuple != w[i].tuple)
    ensures Progress(w, i, i + 1, w[i].insert, locks, if w[i].insert then doWrite + {i} else doWrite)
  {
    forall k | 0 <= k < i ensures w[k].tuple < w[i].tuple {
      assert Less(w[i - 1], w[i]) && (k < i - 1 ==> Less(w[k], w[i - 1]));
    }
    var doWrite' := if w[i].insert then doWrite + {i} else doWrite;
    forall k | 0 <= k < i ensures MarkedAt(w, k, doWrite') {
      assert MarkedAt(w, k, doWrite);
    }
  }

  lemma StayInGroup(w: seq<WriteInfo>, g: nat, i: nat, inserted: bool, locks: seq<nat>, doWrite: set<nat>)
    requires Sorted(w) && Progress(w, g, i, inserted, locks, doWrite) && i < |w| && w[i - 1].tuple == w[i].tuple
    ensures !w[i].insert && Progress(w, g, i + 1, inserted, locks, doWrite)
  {
  }

  // ----- marks

  ghost predicate Inserted(w: seq<WriteInfo>, p: nat) {
    exists i :: 0 <= i < |w| && w[i].tuple == p && w[i].insert
  }

  /** Exactly the inserts, which were locked when they were made, and one entry of each tuple locked since, carry the
      locked flag. */
  ghost predicate Flagged(w: seq<WriteInfo>, locks: seq<nat>, marks: set<nat>) {
    && (forall i :: i in marks ==> i < |w| && (w[i].insert || w[i].tuple in locks))
    && (forall i :: 0 <= i < |w| && w[i].insert ==> i in marks)
    && (forall p :: p in locks ==> exists i :: i in marks && w[i].tuple == p)
    && (forall i, j :: i in marks && j in marks && w[i].tuple == w[j].tuple ==> i == j)
  }

  lemma FlagOne(w: seq<WriteInfo>, locks: seq<nat>, marks: set<nat>, i: nat)
    requires Flagged(w, locks, marks) && i < |w| && w[i].tuple !in locks
    requires forall j :: 0 <= j < |w| && w[j].tuple == w[i].tuple ==> !w[j].insert
    ensures i !in marks && Flagged(w, locks + [w[i].tuple], marks + {i})
  {
    var locks', marks' := locks + [w[i].tuple], marks + {i};
    forall p | p in locks' ensures exists j :: j in marks' && w[j].tuple == p {
      if p in locks {
        var j :| j in marks && w[j].tuple == p;
        assert j in marks';
      } else {
        assert i in marks';
      }
    }
  }

  /** A tuple's locks can be taken: it is no other transaction's insert, and is still the latest version then. */
  predicate Free(p: nat, tentative: set<nat>, stale: set<nat>) { p !in tentative && p !in stale }

  /** What gathering the locks comes to, whether it succeeds or not. */
  ghost predicate Gathered(w: seq<WriteInfo>, locks: seq<nat>, marks: set<nat>) {
    && Ascending(locks) && (forall p :: p in locks ==> NeedsLock(w, |w|, p)) && Flagged(w, locks, marks)
  }

  /** The need of a group that has ended is the tuple's need. */
  lemma GroupNeeds(w: seq<WriteInfo>, g: nat, i: nat)
    requires Sorted(w) && Group(w, g, i) && GroupEnds(w, i) && !w[g].insert
    ensures NeedsLock(w, |w|, w[i].tuple)
    ensures forall j :: 0 <= j < |w| && w[j].tuple == w[i].tuple ==> !w[j].insert
  {
    LastOfGroup(w, i);
    assert Written(w, |w|, w[i].tuple) by { assert w[i].tuple == w[i].tuple; }
    forall j | 0 <= j < |w| && w[j].tuple == w[i].tuple ensures !w[j].insert {
      if g < j { assert w[g].tuple == w[j].tuple; }
    }
  }

  lemma SoFarNeeds(w: seq<WriteInfo>, g: nat, i: nat, locks: seq<nat>, p: nat)
    requires Sorted(w) && Group(w, g, i) && Locked(w, g, locks) && p in locks
    ensures NeedsLock(w, |w|, p) && p < w[i].tuple
  {
    assert NeedsLock(w, g, p);
    var k :| 0 <= k < g && w[k].tuple == p;
    assert Written(w, |w|, p);
    forall j | 0 <= j < |w| && w[j].tuple == p ensures !w[j].insert {
      if j >= g {
        assert w[k].tuple < w[i].tuple;
        assert j > i ==> Less(w[i], w[j]);
      }
    }
  }

  /** At the end of group g..i: its tuple's lock may be taken and its last entry flagged. */
  lemma EndGroup(w: seq<WriteInfo>, g: nat, i: nat, locks: seq<nat>, marks: set<nat>)
    requires Sorted(w) && Group(w, g, i) && GroupEnds(w, i) && Locked(w, g, locks) && Flagged(w, locks, marks)
    ensures Gathered(w, locks, marks)
    ensures !w[g].insert ==> i !in marks && NeedsLock(w, |w|, w[i].tuple)
    ensures !w[g].insert ==> Gathered(w, locks + [w[i].tuple], marks + {i})
  {
    forall p | p in locks ensures NeedsLock(w, |w|, p) && p < w[i].tuple { SoFarNeeds(w, g, i, locks, p); }
    if !w[g].insert {
      GroupNeeds(w, g, i);
      FlagOne(w, locks, marks, i);
      forall a | 0 <= a < |locks| ensures locks[a] < w[i].tuple { assert locks[a] in locks; }
    }
  }

  // ----- gathering the locks

  ghost predicate AllFree(locks: seq<nat>, tentative: set<nat>, stale: set<nat>) {
    forall p :: p in locks ==> Free(p, tentative, stale)
  }

  /** What handle_last_tuple_in_group did at entry i. */
  ghost predicate Handled(w: seq<WriteInfo>, i: nat, didGroupInsert: bool, tentative: set<nat>, stale: set<nat>,
                          locks: seq<nat>, marks: set<nat>, ok: bool, locks': seq<nat>, marks': set<nat>)
    requires i < |w|
  {
    && (ok <==> didGroupInsert || Free(w[i].tuple, tentative, stale))
    && if didGroupInsert || w[i].tuple in tentative then locks' == locks && marks' == marks
       else locks' == locks + [w[i].tuple] && marks' == marks + {i}
  }

  /** A tuple that cannot be locked. */
  ghost predicate Blocked(w: seq<WriteInfo>, tentative: set<nat>, stale: set<nat>) {
    exists p :: NeedsLock(w, |w|, p) && !Free(p, tentative, stale)
  }

  lemma GroupHandled(w: seq<WriteInfo>, g: nat, i: nat, inserted: bool, tentative: set<nat>, stale: set<nat>,
                     locks: seq<nat>, marks: set<nat>, ok: bool, locks': seq<nat>, marks': set<nat>)
    requires Sorted(w) && Group(w, g, i) && GroupEnds(w, i) && Locked(w, g, locks) && inserted == w[g].insert
    requires Flagged(w, locks, marks) && AllFree(locks, tentative, stale)
    requires Handled(w, i, inserted, tentative, stale, locks, marks, ok, locks', marks')
    ensures Gathered(w, locks', marks') && (ok ==> AllFree(locks', tentative, stale))
    ensures !ok ==> Blocked(w, tentative, stale)
    ensures ok ==> locks' == if inserted then locks else locks + [w[i].tuple]
  {
    EndGroup(w, g, i, locks, marks);
  }

  /** The entries before n are dealt with. */
  ghost predicate Through(w: seq<WriteInfo>, n: nat, tentative: set<nat>, stale: set<nat>, locks: seq<nat>,
                          marks: set<nat>, doWrite: set<nat>)
  {
    forall l | l == locks :: Done(w, n, l, doWrite) && Flagged(w, l, marks) && AllFree(l, tentative, stale)
  }

  /** The entries before i are dealt with, except that the group beginning at g is still open. */
  ghost predicate Within(w: seq<WriteInfo>, g: nat, i: nat, inserted: bool, tentative: set<nat>, stale: set<nat>,
                         locks: seq<nat>, marks: set<nat>, doWrite: set<nat>)
  {
    forall l | l == locks ::
      Progress(w, g, i, inserted, l, doWrite) && Flagged(w, l, marks) && AllFree(l, tentative, stale)
  }

  lemma Starts(w: seq<WriteInfo>, tentative: set<nat>, stale: set<nat>, marks: set<nat>)
    requires Sorted(w) && marks == set i | 0 <= i < |w| && w[i].insert
    ensures Through(w, 0, tentative, stale, [], marks, {})
  {
  }

  lemma Enters(w: seq<WriteInfo>, i: nat, tentative: set<nat>, stale: set<nat>, locks: seq<nat>, marks: set<nat>,
               doWrite: set<nat>)
    requires Sorted(w) && Through(w, i, tentative, stale, locks, marks, doWrite) && i < |w|
    requires i > 0 ==> w[i - 1].tuple != w[i].tuple
    ensures Within(w, i, i + 1, w[i].insert, tentative, stale, locks, marks,
                   if w[i].insert then doWrite + {i} else doWrite)
  {
    OpenGroup(w, i, locks, doWrite);
  }

  lemma Stays(w: seq<WriteInfo>, g: nat, i: nat, inserted: bool, tentative: set<nat>, stale: set<nat>,
              locks: seq<nat>, marks: set<nat>, doWrite: set<nat>)
    requires Sorted(w) && Within(w, g, i, inserted, tentative, stale, locks, marks, doWrite)
    requires 0 < i < |w| && w[i - 1].tuple == w[i].tuple
    ensures !w[i].insert && Within(w, g, i + 1, inserted, tentative, stale, locks, marks, doWrite)
  {
    StayInGroup(w, g, i, inserted, locks, doWrite);
  }

  /** The loop over the sorted entries. Locks are taken once per tuple and in address order, exactly for the tuples not
      inserted here; what is written is every insert and, for each tuple, the last put to it. It stops at the first
      tuple that is another transaction's insert or turns out not to be the latest. */
  method Gather(w: seq<WriteInfo>, tentative: set<nat>, stale: set<nat>)
    returns (ok: bool, locks: seq<nat>, marks: set<nat>, doWrite: set<nat>)
    requires Sorted(w)
    ensures Gathered(w, locks, marks)
    ensures ok <==> !Blocked(w, tentative, stale)
    ensures ok ==> Done(w, |w|, locks, doWrite)
  {
    ok, locks, marks, doWrite := true, [], set i | 0 <= i < |w| && w[i].insert, {};
    var i, insertedLastRun := 0, false;
    ghost var g := 0;
    Starts(w, tentative, stale, marks);
    while i < |w|
      invariant ok && i <= |w| && (i == 0 ==> !insertedLastRun)
      invariant i == 0 ==> Through(w, 0, tentative, stale, locks, marks, doWrite)
      invariant i > 0 ==> Within(w, g, i, insertedLastRun, tentative, stale, locks, marks, doWrite)
    {
      if i > 0 && w[i - 1].tuple != w[i].tuple {
        ok, locks, marks, doWrite := LastInGroup(w, g, i - 1, insertedLastRun, tentative, stale, locks, marks, doWrite);
        if !ok {
          return;
        }
        insertedLastRun := false;
        Enters(w, i, tentative, stale, locks, marks, doWrite);
        g := i;
      } else if i > 0 {
        Stays(w, g, i, insertedLastRun, tentative, stale, locks, marks, doWrite);
      } else {
        Enters(w, i, tentative, stale, locks, marks, doWrite);
        g := i;
      }
      if w[i].insert {
        doWrite := doWrite + {i};
        insertedLastRun := true;
      }
      i := i + 1;
    }
    if i > 0 {
      ok, locks, marks, doWrite := LastInGroup(w, g, i - 1, insertedLastRun, tentative, stale, locks, marks, doWrite);
    }
    if ok { AllLocked(w, tentative, stale, locks, marks, doWrite); }
  }

  /** Through all entries with every lock taken, nothing stood in the way. */
  lemma AllLocked(w: seq<WriteInfo>, tentative: set<nat>, stale: set<nat>, locks: seq<nat>, marks: set<nat>,
                  doWrite: set<nat>)
    requires Through(w, |w|, tentative, stale, locks, marks, doWrite)
    ensures !Blocked(w, tentative, stale) && Gathered(w, locks, marks) && Done(w, |w|, locks, doWrite)
  {
    assert Done(w, |w|, locks, doWrite);
  }

  /** handle_last_tuple_in_group: the tuple of an entry that ends a group is locked and the entry marked, unless the
      group began with an insert. */
  method LastInGroup(w: seq<WriteInfo>, ghost g: nat, i: nat, didGroupInsert: bool, tentative: set<nat>,
                     stale: set<nat>, locks: seq<nat>, marks: set<nat>, doWrite: set<nat>)
    returns (ok: bool, locks': seq<nat>, marks': set<nat>, doWrite': set<nat>)
    requires Sorted(w) && i < |w| && GroupEnds(w, i)
    requires Within(w, g, i + 1, didGroupInsert, tentative, stale, locks, marks, doWrite)
    ensures Handled(w, i, didGroupInsert, tentative, stale, locks, marks, ok, locks', marks')
    ensures ok ==> Through(w, i + 1, tentative, stale, locks', marks', doWrite')
    ensures !ok ==> Blocked(w, tentative, stale) && Gathered(w, locks', marks')
  {
    assert Progress(w, g, i + 1, didGroupInsert, locks, doWrite);
    ok, locks', marks', doWrite' := true, locks, marks, doWrite;
    if didGroupInsert {
      if !w[i].insert {
        doWrite' := doWrite + {i};
      }
    } else if w[i].tuple in tentative {
      ok := false;
    } else {
      locks', marks' := locks + [w[i].tuple], marks + {i};
      if w[i].tuple in stale {
        ok := false;
      } else {
        doWrite' := doWrite + {i};
      }
    }
    GroupHandled(w, g, i, didGroupInsert, tentative, stale, locks, marks, ok, locks', marks');
    CloseGroup(w, g, i + 1, didGroupInsert, locks, doWrite);
  }

  // ----- giving the locks back

  /** How often an event occurs. */
  ghost function Times(trace: seq<Event>, e: Event): nat { multiset(trace)[e] }

  /** Some flagged entry before n is p's. */
  ghost predicate FlaggedBefore(w: seq<WriteInfo>, marks: set<nat>, n: nat, p: nat)
    requires n <= |w|
  {
    exists i :: 0 <= i < n && i in marks && w[i].tuple == p
  }

  /** What an unlock loop has done by entry n. */
  ghost predicate Returned(w: seq<WriteInfo>, marks: set<nat>, abort: bool, n: nat, trace: seq<Event>)
    requires n <= |w|
  {
    && (forall p :: Times(trace, Lock(p)) == 0)
    && (forall p :: Times(trace, Unlock(p)) == if FlaggedBefore(w, marks, n, p) then 1 else 0)
    && (forall p :: Times(trace, Unlink(p)) == if abort && InsertedBefore(w, n, p) then 1 else 0)
    && (forall i :: 0 <= i < |trace| && trace[i].Unlink? ==> i + 1 < |trace| && trace[i + 1] == Unlock(trace[i].tuple))
  }

  ghost predicate SoFar(w: seq<WriteInfo>, marks: set<nat>, abort: bool, n: nat, trace: seq<Event>)
    requires n <= |w|
  {
    forall t | t == trace :: Returned(w, marks, abort, n, t)
  }

  ghost predicate InsertedBefore(w: seq<WriteInfo>, n: nat, p: nat)
    requires n <= |w|
  {
    exists i :: 0 <= i < n && w[i].tuple == p && w[i].insert
  }

  /** What the loop does at one entry. */
  function AtEntry(e: WriteInfo, marked: bool, abort: bool): seq<Event> {
    if !marked then [] else if abort && e.insert then [Unlink(e.tuple), Unlock(e.tuple)] else [Unlock(e.tuple)]
  }

  lemma NextFlagged(w: seq<WriteInfo>, marks: set<nat>, n: nat, p: nat)
    requires n < |w|
    ensures FlaggedBefore(w, marks, n + 1, p) <==> FlaggedBefore(w, marks, n, p) || (n in marks && w[n].tuple == p)
    ensures InsertedBefore(w, n + 1, p) <==> InsertedBefore(w, n, p) || (w[n].insert && w[n].tuple == p)
  {
  }

  lemma ReturnsNext(w: seq<WriteInfo>, locks: seq<nat>, marks: set<nat>, abort: bool, n: nat, trace: seq<Event>)
    requires n < |w| && Flagged(w, locks, marks) && SoFar(w, marks, abort, n, trace)
    ensures SoFar(w, marks, abort, n + 1, trace + AtEntry(w[n], n in marks, abort))
  {
    assert Returned(w, marks, abort, n, trace);
    EntryReturned(w, locks, marks, abort, n, trace);
  }

  lemma EntryReturned(w: seq<WriteInfo>, locks: seq<nat>, marks: set<nat>, abort: bool, n: nat, trace: seq<Event>)
    requires n < |w| && Flagged(w, locks, marks) && Returned(w, marks, abort, n, trace)
    ensures Returned(w, marks, abort, n + 1, trace + AtEntry(w[n], n in marks, abort))
  {
    var more := AtEntry(w[n], n in marks, abort);
    var trace' := trace + more;
    assert multiset(trace') == multiset(trace) + multiset(more);
    forall p ensures Times(trace', Unlock(p)) == if FlaggedBefore(w, marks, n + 1, p) then 1 else 0 {
      NextFlagged(w, marks, n, p);
    }
    forall p ensures Times(trace', Unlink(p)) == if abort && InsertedBefore(w, n + 1, p) then 1 else 0 {
      NextFlagged(w, marks, n, p);
    }
  }

  /** The body of both unlock loops. */
  method ReturnEntry(e: WriteInfo, marked: bool, abort: bool) returns (events: seq<Event>)
    ensures events == AtEntry(e, marked, abort)
  {
    events := [];
    if marked {
      if abort && e.insert {
        events := events + [Unlink(e.tuple)];
      }
      events := events + [Unlock(e.tuple)];
    }
  }

  /** The unlock loop of a commit, or of an abort, which also takes the inserts out of the tree. */
  method Return(w: seq<WriteInfo>, ghost locks: seq<nat>, marks: set<nat>, abort: bool) returns (trace: seq<Event>)
    requires Flagged(w, locks, marks)
    ensures SoFar(w, marks, abort, |w|, trace)
  {
    trace := [];
    var i := 0;
    while i < |w|
      invariant i <= |w| && SoFar(w, marks, abort, i, trace)
    {
      var events := ReturnEntry(w[i], i in marks, abort);
      ReturnsNext(w, locks, marks, abort, i, trace);
      trace := trace + events;
      i := i + 1;
    }
  }

  function Locks(locks: seq<nat>): seq<Event> { seq(|locks|, i requires 0 <= i < |locks| => Lock(locks[i])) }

  lemma {:induction false} LocksOnce(locks: seq<nat>, p: nat)
    requires Ascending(locks)
    ensures Times(Locks(locks), Lock(p)) == if p in locks then 1 else 0
    ensures Times(Locks(locks), Unlock(p)) == 0 && Times(Locks(locks), Unlink(p)) == 0
    decreases |locks|
  {
    if locks != [] {
      var l := |locks| - 1;
      assert Locks(locks) == Locks(locks[..l]) + [Lock(locks[l])];
      assert locks == locks[..l] + [locks[l]];
      LocksOnce(locks[..l], p);
    }
  }

  /** The flagged tuples are the inserts and the tuples locked. */
  lemma FlaggedIs(w: seq<WriteInfo>, locks: seq<nat>, marks: set<nat>, p: nat)
    requires Gathered(w, locks, marks)
    ensures FlaggedBefore(w, marks, |w|, p) <==> Inserted(w, p) || p in locks
    ensures InsertedBefore(w, |w|, p) <==> Inserted(w, p)
    ensures !(Inserted(w, p) && p in locks)
  {
    if p in locks {
      var i :| i in marks && w[i].tuple == p;
      assert NeedsLock(w, |w|, p);
    }
  }

  /** Commit, from the sorted write set on. It succeeds if and only if every tuple to lock could be locked and is still
      the latest, and validation succeeds. Either way every lock it takes and every lock its inserts came with is
      released exactly once, after all locks are taken, and no other lock is; exactly when it fails, each insert is
      taken out of the tree, once, just before its lock is released. */
  method Commit(w: seq<WriteInfo>, tentative: set<nat>, stale: set<nat>, valid: bool)
    returns (committed: bool, doWrite: set<nat>, trace: seq<Event>)
    requires Sorted(w)
    ensures committed <==> valid && !Blocked(w, tentative, stale)
    ensures committed ==> (forall i :: i in doWrite ==> 0 <= i < |w|) && forall i :: 0 <= i < |w| ==>
      MarkedAt(w, i, doWrite)
    ensures forall p :: Times(trace, Lock(p)) <= 1 && (Times(trace, Lock(p)) == 1 ==> NeedsLock(w, |w|, p))
    ensures committed ==> forall p :: NeedsLock(w, |w|, p) ==> Times(trace, Lock(p)) == 1
    ensures forall p :: Times(trace, Unlock(p)) == Times(trace, Lock(p)) + if Inserted(w, p) then 1 else 0
    ensures forall p :: Times(trace, Unlink(p)) == if !committed && Inserted(w, p) then 1 else 0
    ensures forall i, j :: 0 <= i < j < |trace| && trace[j].Lock? ==> trace[i].Lock? && trace[i].tuple < trace[j].tuple
    ensures forall i :: 0 <= i < |trace| && trace[i].Unlink? ==>
      i + 1 < |trace| && trace[i + 1] == Unlock(trace[i].tuple)
  {
    var ok, locks, marks;
    ok, locks, marks, doWrite := Gather(w, tentative, stale);
    committed := ok && valid;
    var back := Return(w, locks, marks, !committed);
    assert Returned(w, marks, !committed, |w|, back);
    trace := Locks(locks) + back;
    assert multiset(trace) == multiset(Locks(locks)) + multiset(back);
    forall p ensures Times(trace, Lock(p)) == if p in locks then 1 else 0 {
      LocksOnce(locks, p);
    }
    forall p ensures Times(trace, Unlock(p)) == Times(trace, Lock(p)) + if Inserted(w, p) then 1 else 0 {
      LocksOnce(locks, p);
      FlaggedIs(w, locks, marks, p);
    }
    forall p ensures Times(trace, Unlink(p)) == if !committed && Inserted(w, p) then 1 else 0 {
      LocksOnce(locks, p);
      FlaggedIs(w, locks, marks, p);
    }
    forall i | |locks| <= i < |trace| ensures !trace[i].Lock? { NoLockIn(back, i - |locks|); }
  }

  lemma NoLockIn(trace: seq<Event>, i: nat)
    requires i < |trace| && forall p :: Times(trace, Lock(p)) == 0
    ensures !trace[i].Lock?
  {
    assert trace[i] in multiset(trace);
  }
}
