/** basic_px_queue of silo/pxqueue.h: elements in linked groups, each group of one tick, with a freelist
    of empty groups. */
module PxQueue {

  datatype Entry = Entry(elem: nat, tick: nat)

  class Group {
    var next: Group?
    var items: seq<nat>
    var tick: nat

    constructor ()
      ensures next == null && items == [] && tick == 0
    {
      next, items, tick := null, [], 0;
    }

    ghost function Holding(): Load
      reads `items, `tick
    {
      Load(items, tick)
    }
  }

  function Objs(gs: seq<Group>): set<Group> { set g | g in gs }

  /** What a group holds. */
  datatype Load = Load(items: seq<nat>, tick: nat)

  function Tagged(items: seq<nat>, tick: nat): (r: seq<Entry>)
    ensures |r| == |items|
    ensures forall i :: 0 <= i < |items| ==> r[i] == Entry(items[i], tick)
  {
    if items == [] then [] else Tagged(items[..|items| - 1], tick) + [Entry(items[|items| - 1], tick)]
  }

  /** All the elements of a list of groups, in order, with their ticks. */
  function Flat(q: seq<Load>): seq<Entry> {
    if q == [] then [] else Flat(q[..|q| - 1]) + Tagged(q[|q| - 1].items, q[|q| - 1].tick)
  }

  lemma {:induction false} FlatSnoc(q: seq<Load>, l: Load)
    ensures Flat(q + [l]) == Flat(q) + Tagged(l.items, l.tick)
  {
    assert (q + [l])[..|q|] == q;
  }

  lemma Assoc<T>(a: seq<T>, b: seq<T>, c: seq<T>)
    ensures a + b + c == a + (b + c)
  {
  }

  lemma {:induction false} FlatConcatOne(a: seq<Load>, c: seq<Load>, l: Load)
    requires Flat(a + c) == Flat(a) + Flat(c)
    ensures Flat(a + (c + [l])) == Flat(a) + Flat(c + [l])
  {
    FlatSnoc(a + c, l);
    FlatSnoc(c, l);
    Assoc(a, c, [l]);
    Assoc(Flat(a), Flat(c), Tagged(l.items, l.tick));
  }

  lemma {:induction false} FlatConcat(a: seq<Load>, b: seq<Load>)
    ensures Flat(a + b) == Flat(a) + Flat(b)
  {
    if b == [] {
      assert a + b == a;
    } else {
      var c, l := b[..|b| - 1], b[|b| - 1];
      FlatConcat(a, c);
      FlatConcatOne(a, c, l);
      assert b == c + [l];
    }
  }

  lemma {:induction false} FlatTicks(q: seq<Load>, lo: int, hi: int)
    requires forall i :: 0 <= i < |q| ==> lo <= q[i].tick <= hi
    ensures forall i :: 0 <= i < |Flat(q)| ==> lo <= Flat(q)[i].tick <= hi
  {
    if q != [] {
      FlatTicks(q[..|q| - 1], lo, hi);
    }
  }

  /** Groups are neither empty nor overfull, and their ticks do not decrease. */
  predicate Loaded(q: seq<Load>, size: nat) {
    && (forall i :: 0 <= i < |q| ==> 0 < |q[i].items| <= size)
    && (forall i, j :: 0 <= i < j < |q| ==> q[i].tick <= q[j].tick)
  }

  predicate Distinct(gs: seq<Group>) {
    forall i, j :: 0 <= i < j < |gs| ==> gs[i] != gs[j]
  }

  lemma DistinctConcat(a: seq<Group>, b: seq<Group>)
    requires Distinct(a) && Distinct(b) && Objs(a) !! Objs(b)
    ensures Distinct(a + b)
  {
    forall i, j | 0 <= i < j < |a + b| ensures (a + b)[i] != (a + b)[j] {
      if i < |a| <= j {
        assert a[i] in Objs(a) && b[j - |a|] in Objs(b);
      }
    }
  }

  datatype Aspect = Cells | Ends | Links | Held

  /** A list of groups linked by next, with its two end pointers. */
  class List {
    var head: Group?
    var tail: Group?
    var count: nat           // ngroups_; the source keeps it for the live list only
    ghost var groups: seq<Group>
    ghost var repr: set<Group>
    ghost var loads: seq<Load>

    ghost predicate Fine(a: Aspect)
      reads this, repr
    {
      match a
      case Cells => repr == Objs(groups) && Distinct(groups) && count == |groups|
      case Ends =>
        && (groups == [] ==> head == null && tail == null)
        && (groups != [] ==> head == groups[0] && tail == groups[|groups| - 1])
      case Links =>
        && repr == Objs(groups)
        && (groups != [] ==> groups[|groups| - 1].next == null)
        && (forall i {:trigger groups[i].next} :: 0 <= i < |groups| - 1 ==> groups[i].next == groups[i + 1])
      case Held =>
        && repr == Objs(groups) && |loads| == |groups|
        && (forall i {:trigger loads[i]} :: 0 <= i < |groups| ==> loads[i] == groups[i].Holding())
    }

    /** All aspects hold; users of a list need only what is ensured. */
    ghost predicate Valid()
      reads this, repr
      ensures Valid() ==> repr == Objs(groups) && count == |groups| == |loads|
      ensures Valid() ==> (head == null <==> groups == []) && (tail == null <==> groups == [])
      ensures Valid() && groups != [] ==>
        head in repr && tail in repr && loads[0] == head.Holding() && loads[|loads| - 1] == tail.Holding()
    {
      assert (forall a :: Fine(a)) ==> Fine(Cells) && Fine(Ends) && Fine(Held);
      forall a :: Fine(a)
    }

    constructor ()
      ensures Valid() && groups == [] && loads == [] && repr == {}
    {
      head, tail, count, groups, repr, loads := null, null, 0, [], {}, [];
    }

    method PushFront(p: Group)
      requires Valid() && p !in repr
      modifies this, p`next
      ensures Valid() && groups == [p] + old(groups) && repr == old(repr) + {p} && loads == [p.Holding()] + old(loads)
    {
      assert Fine(Cells) && Fine(Ends) && Fine(Links) && Fine(Held);
      if tail == null {
        tail := p;
      }
      p.next := head;
      head := p;
      count, groups, repr, loads := count + 1, [p] + groups, repr + {p}, [p.Holding()] + loads;
      forall i | 0 <= i < |groups| - 1 ensures groups[i].next == groups[i + 1] {
        if i > 0 {
          assert old(groups)[i - 1].next == old(groups)[i];
        }
      }
    }

    method PushBack(p: Group)
      requires Valid() && p !in repr
      modifies this, repr`next, p`next
      ensures Valid() && groups == old(groups) + [p] && repr == old(repr) + {p} && loads == old(loads) + [p.Holding()]
    {
      assert Fine(Cells) && Fine(Ends) && Fine(Links) && Fine(Held);
      p.next := null;
      if head == null {
        head, tail := p, p;
      } else {
        tail.next := p;
        tail := p;
      }
      count, groups, repr, loads := count + 1, groups + [p], repr + {p}, loads + [p.Holding()];
      forall i | 0 <= i < |groups| - 1 ensures groups[i].next == groups[i + 1] {
        if i < |groups| - 2 {
          assert old(groups[i].next) == old(groups)[i + 1];
        }
      }
    }

    method PopFront() returns (p: Group)
      requires Valid() && groups != []
      modifies this
      ensures Valid() && groups == old(groups)[1..] && p == old(groups)[0] && p in old(repr) && repr == old(repr) - {p}
      ensures loads == old(loads)[1..] && p.Holding() == old(loads)[0]
    {
      assert Fine(Cells) && Fine(Ends) && Fine(Links) && Fine(Held);
      p := head;
      if p == tail {
        tail := null;
      }
      head := p.next;
      count, groups, repr, loads := count - 1, groups[1..], repr - {p}, loads[1..];
      forall i | 0 <= i < |groups| - 1 ensures groups[i].next == groups[i + 1] {
        assert old(groups)[i + 1].next == old(groups)[i + 2];
      }
    }

    /** One more element in the tail group. */
    method Append(t: nat)
      requires Valid() && groups != []
      modifies this`loads, repr`items
      ensures Valid()
      ensures var n, was := |old(loads)| - 1, old(loads); loads == was[..n] + [Load(was[n].items + [t], was[n].tick)]
    {
      assert Fine(Cells) && Fine(Ends) && Fine(Links) && Fine(Held);
      tail.items := tail.items + [t];
      loads := loads[..|loads| - 1] + [tail.Holding()];
    }

    /** The first group of another list goes behind the tail of this one. */
    method MoveFrom(other: List)
      requires Valid() && other.Valid() && this != other && repr !! other.repr && other.groups != []
      modifies this, other, repr`next, other.repr`next
      ensures Valid() && other.Valid() && repr !! other.repr && repr + other.repr == old(repr + other.repr)
      ensures loads == old(loads) + [old(other.loads)[0]] && other.loads == old(other.loads)[1..]
    {
      var p := other.PopFront();
      PushBack(p);
    }

    /** The loop of empty_accept_from: groups go over one by one while their tick allows. */
    method AcceptUpTo(other: List, tick: nat)
      requires Valid() && other.Valid() && this != other && groups == []
      modifies this, other, other.repr`next
      ensures Valid() && other.Valid() && repr !! other.repr && repr + other.repr == old(other.repr)
      ensures loads + other.loads == old(other.loads)
      ensures loads != [] ==> loads[|loads| - 1].tick <= tick
      ensures other.loads != [] ==> other.loads[0].tick > tick
    {
      while other.head != null && other.head.tick <= tick
        invariant Valid() && other.Valid() && repr !! other.repr && repr + other.repr == old(other.repr)
        invariant loads + other.loads == old(other.loads)
        invariant loads != [] ==> loads[|loads| - 1].tick <= tick
        decreases |other.loads|
      {
        Shift(loads, other.loads);
        MoveFrom(other);
      }
    }

    /** transfer_freelist with a limit: up to n groups go over, one by one. */
    method GiveSome(dest: List, n: nat)
      requires Valid() && dest.Valid() && this != dest && repr !! dest.repr
      modifies this, dest, repr`next
      ensures Valid() && dest.Valid() && repr !! dest.repr && repr + dest.repr == old(repr + dest.repr)
      ensures |dest.groups| == |old(dest.groups)| + (if n <= |old(groups)| then n else |old(groups)|)
      ensures |groups| <= |old(groups)| && groups == old(groups)[|old(groups)| - |groups|..]
    {
      var c := 0;
      while head != null && c < n
        invariant c <= n && Valid() && dest.Valid() && repr !! dest.repr && repr + dest.repr == old(repr + dest.repr)
        invariant repr <= old(repr) && |dest.groups| == |old(dest.groups)| + c
        invariant |groups| + c == |old(groups)| && groups == old(groups)[c..]
        decreases |groups|
      {
        var p := PopFront();
        dest.PushFront(p);
        c := c + 1;
      }
    }

    /** transfer_freelist: all groups go over, or up to n. */
    method Give(dest: List, n: int)
      requires Valid() && dest.Valid() && this != dest && repr !! dest.repr
      modifies this, dest, repr`next
      ensures Valid() && dest.Valid() && repr !! dest.repr && repr + dest.repr == old(repr + dest.repr)
      ensures |dest.groups| == |old(dest.groups)| + (if 0 <= n <= |old(groups)| then n else |old(groups)|)
    {
      if n < 0 {
        dest.SpliceFront(this);
      } else {
        GiveSome(dest, n);
      }
    }

    /** Puts all of another list in front of this one, leaving the other empty. */
    method SpliceFront(other: List)
      requires Valid() && other.Valid() && this != other && repr !! other.repr
      modifies this, other, other.repr`next
      ensures Valid() && other.Valid() && groups == old(other.groups) + old(groups) && other.groups == []
      ensures other.repr == {}
      ensures repr == old(repr) + old(other.repr)
    {
      if other.head == null {
        return;
      }
      SpliceSome(other);
      other.Forget();
    }

    method Forget()
      modifies this
      ensures Valid() && groups == [] && repr == {} && loads == []
    {
      head, tail, count, groups, repr, loads := null, null, 0, [], {}, [];
    }

    method SpliceSome(other: List)
      requires Valid() && other.Valid() && this != other && repr !! other.repr && other.groups != []
      modifies this, other.repr`next
      ensures Valid() && groups == old(other.groups) + old(groups) && repr == old(repr) + old(other.repr)
    {
      assert Fine(Cells) && Fine(Ends) && Fine(Links) && Fine(Held);
      assert other.Fine(Cells) && other.Fine(Ends) && other.Fine(Links) && other.Fine(Held);
      DistinctConcat(other.groups, groups);
      other.tail.next := head;
      if tail == null {
        tail := other.tail;
      }
      head := other.head;
      count, groups, repr, loads := count + other.count, other.groups + groups, repr + other.repr, other.loads + loads;
      forall i | 0 <= i < |groups| - 1 ensures groups[i].next == groups[i + 1] {
        if i < |old(other.groups)| - 1 {
          assert old(other.groups[i].next) == old(other.groups)[i + 1];
        } else if i >= |old(other.groups)| {
          assert old(groups[i - |other.groups|].next) == old(groups)[i - |old(other.groups)| + 1];
        }
      }
      forall i | 0 <= i < |groups| ensures loads[i] == groups[i].Holding() {
        if i >= |other.groups| {
          assert old(loads)[i - |other.groups|] == old(groups)[i - |other.groups|].Holding();
        }
      }
    }
  }

  lemma SetsMoved(f: set<Group>, g: set<Group>, all: set<Group>, a: set<Group>, b: set<Group>)
    requires a + b == all && a !! b && f !! g && f !! all && g !! all
    ensures (a + f) + (b + g) == f + (all + g) && (a + f) !! (b + g) && a !! f && b !! g && a <= all && b <= all
  {
  }

  lemma Shift(a: seq<Load>, b: seq<Load>)
    requires b != []
    ensures (a + [b[0]]) + b[1..] == a + b
  {
  }

  lemma LoadedGrows(loads: seq<Load>, groupSize: nat, l: Load)
    requires Loaded(loads, groupSize) && 0 < |l.items| <= groupSize
    requires (loads != [] ==> loads[|loads| - 1].tick <= l.tick)
    ensures Loaded(loads + [l], groupSize)
  {
  }

  class Queue {
    const groupSize: nat
    const live: List         // head_, tail_, ngroups_
    const free: List         // freelist_head_, freelist_tail_

    /** Every group of the queue; it is on one of the two lists, once. */
    ghost function Repr(): set<Group>
      reads live, free
    {
      live.repr + free.repr
    }

    /** sanity_check. */
    ghost predicate Valid()
      reads live, free, Repr()
    {
      && groupSize > 0 && live != free && live.Valid() && free.Valid() && live.repr !! free.repr
      && Loaded(live.loads, groupSize)
    }

    /** The queued elements with their ticks, oldest first. */
    ghost function Contents(): seq<Entry>
      reads live
    {
      Flat(live.loads)
    }

    ghost predicate NotAfter(tick: nat)
      reads live
    {
      live.loads != [] ==> live.loads[|live.loads| - 1].tick <= tick
    }

    constructor (groupSize: nat)
      requires groupSize > 0
      ensures Valid() && Contents() == [] && Repr() == {} && fresh(live) && fresh(free)
    {
      this.groupSize := groupSize;
      live := new List();
      free := new List();
    }

    method AllocFreelist(n: nat)
      requires Valid()
      modifies free
      ensures Valid() && |free.groups| == |old(free.groups)| + n
      ensures old(free.repr) <= free.repr && fresh(free.repr - old(free.repr))
    {
      for i := 0 to n
        invariant Valid() && |free.groups| == |old(free.groups)| + i
        invariant old(free.repr) <= free.repr && fresh(free.repr - old(free.repr))
      {
        var p := new Group();
        free.PushFront(p);
      }
    }

    /** The first free group, emptied, becomes the tail. */
    method OpenGroup(t: nat, tick: nat)
      requires Valid() && NotAfter(tick) && free.groups != []
      modifies live, free, Repr()
      ensures Valid() && live.loads == old(live.loads) + [Load([t], tick)] && Repr() == old(Repr())
    {
      var g := free.PopFront();
      g.items, g.tick := [t], tick;
      LoadedGrows(live.loads, groupSize, Load([t], tick));
      live.PushBack(g);
    }

    /** Adds to the tail group. */
    method AppendItem(t: nat)
      requires Valid() && live.loads != [] && |live.loads[|live.loads| - 1].items| < groupSize
      modifies live`loads, live.repr`items
      ensures Valid() && NotAfter(old(live.loads)[|live.loads| - 1].tick)
      ensures Contents() == old(Contents()) + [Entry(t, old(live.loads)[|live.loads| - 1].tick)]
    {
      FlatGrow(live.loads, groupSize, t);
      live.Append(t);
    }

    method Enqueue(t: nat, tick: nat)
      requires Valid() && NotAfter(tick)
      modifies live, free, Repr()
      ensures Valid() && NotAfter(tick) && Contents() == old(Contents()) + [Entry(t, tick)]
      ensures old(Repr()) <= Repr() && fresh(Repr() - old(Repr()))
    {
      if live.tail == null || |live.tail.items| == groupSize || live.tail.tick != tick {
        if free.head == null {
          AllocFreelist(16);
        }
        FlatOpen(live.loads, t, tick);
        OpenGroup(t, tick);
      } else {
        AppendItem(t);
      }
    }

    /** All groups go to the freelist. */
    method Clear()
      requires Valid()
      modifies live, free, live.repr`next
      ensures Valid() && Contents() == [] && Repr() == old(Repr()) && free.groups == old(live.groups) + old(free.groups)
    {
      free.SpliceFront(live);
    }

    /** Two queues that share nothing. */
    ghost predicate Apart(other: Queue)
      reads live, free, other.live, other.free
    {
      this != other && {live, free} !! {other.live, other.free} && Repr() !! other.Repr()
    }

    /** The groups go over, and no list loses or shares one. */
    method TakeGroups(source: Queue, tick: nat)
      requires Valid() && source.Valid() && Apart(source) && live.groups == []
      modifies live, source.live, source.live.repr`next
      ensures live.Valid() && free.Valid() && live.repr !! free.repr
      ensures source.live.Valid() && source.free.Valid() && source.live.repr !! source.free.repr
      ensures Apart(source) && Repr() + source.Repr() == old(Repr() + source.Repr())
      ensures live.loads + source.live.loads == old(source.live.loads)
      ensures live.loads != [] ==> live.loads[|live.loads| - 1].tick <= tick
      ensures source.live.loads != [] ==> source.live.loads[0].tick > tick
    {
      ghost var moved := source.live.repr;
      live.AcceptUpTo(source.live, tick);
      SetsMoved(free.repr, source.free.repr, moved, live.repr, source.live.repr);
    }

    /** Takes from the source, in order, exactly the elements with a tick at or below the bound. */
    method EmptyAcceptFrom(source: Queue, tick: nat)
      requires Valid() && source.Valid() && Apart(source) && live.groups == [] && groupSize == source.groupSize
      modifies live, source.live, source.live.repr`next
      ensures Valid() && source.Valid() && Apart(source)
      ensures Contents() + source.Contents() == old(source.Contents())
      ensures forall i :: 0 <= i < |Contents()| ==> Contents()[i].tick <= tick
      ensures forall i :: 0 <= i < |source.Contents()| ==> source.Contents()[i].tick > tick
      ensures Repr() + source.Repr() == old(Repr() + source.Repr())
    {
      TakeGroups(source, tick);
      AcceptSplits(live.loads, source.live.loads, groupSize, tick);
    }

    /** Moves the freelist to another queue: all of it, or its first n groups. */
    method TransferFreelist(dest: Queue, n: int)
      requires Valid() && dest.Valid() && Apart(dest)
      modifies free, dest.free, free.repr`next
      ensures Valid() && dest.Valid() && Apart(dest)
      ensures |dest.free.groups|
        == |old(dest.free.groups)| + (if 0 <= n <= |old(free.groups)| then n else |old(free.groups)|)
      ensures Repr() + dest.Repr() == old(Repr() + dest.Repr())
      ensures Contents() == old(Contents()) && dest.Contents() == old(dest.Contents())
    {
      ghost var was, its := free.repr, dest.free.repr;
      free.Give(dest.free, n);
      FreeMoved(live.repr, dest.live.repr, was, its, free.repr, dest.free.repr);
    }
  }

  lemma FreeMoved(l: set<Group>, k: set<Group>, f: set<Group>, g: set<Group>, f': set<Group>, g': set<Group>)
    requires l !! f && k !! g && (l + f) !! (k + g) && f' !! g' && f' + g' == f + g
    ensures l !! f' && k !! g' && (l + f') !! (k + g') && (l + f') + (k + g') == (l + f) + (k + g)
  {
  }

  lemma {:induction false} LoadedParts(a: seq<Load>, b: seq<Load>, size: nat)
    requires Loaded(a + b, size)
    ensures Loaded(a, size) && Loaded(b, size)
  {
    var r := a + b;
    forall i | 0 <= i < |a| ensures a[i] == r[i] {}
    forall i | 0 <= i < |b| ensures b[i] == r[|a| + i] {}
  }

  /** Accepting up to a tick takes exactly the elements up to that tick, in order, and leaves the rest. */
  lemma {:induction false} AcceptSplits(a: seq<Load>, b: seq<Load>, size: nat, tick: nat)
    requires Loaded(a + b, size) && (a != [] ==> a[|a| - 1].tick <= tick) && (b != [] ==> b[0].tick > tick)
    ensures Loaded(a, size) && Loaded(b, size) && Flat(a) + Flat(b) == Flat(a + b)
    ensures forall i :: 0 <= i < |Flat(a)| ==> Flat(a)[i].tick <= tick
    ensures forall i :: 0 <= i < |Flat(b)| ==> Flat(b)[i].tick > tick
  {
    LoadedParts(a, b, size);
    FlatConcat(a, b);
    TicksUpTo(a, size, tick);
    TicksAfter(b, size, tick);
  }

  lemma {:induction false} TicksUpTo(q: seq<Load>, size: nat, tick: nat)
    requires Loaded(q, size) && (q != [] ==> q[|q| - 1].tick <= tick)
    ensures forall i :: 0 <= i < |Flat(q)| ==> Flat(q)[i].tick <= tick
  {
    forall i | 0 <= i < |q| ensures 0 <= q[i].tick <= tick {
      if i < |q| - 1 {
        assert q[i].tick <= q[|q| - 1].tick;
      }
    }
    FlatTicks(q, 0, tick);
  }

  lemma {:induction false} TicksAfter(q: seq<Load>, size: nat, tick: nat)
    requires Loaded(q, size) && (q != [] ==> q[0].tick > tick)
    ensures forall i :: 0 <= i < |Flat(q)| ==> Flat(q)[i].tick > tick
  {
    if q != [] {
      var hi := q[|q| - 1].tick;
      forall i | 0 <= i < |q| ensures tick + 1 <= q[i].tick <= hi {
        if i < |q| - 1 {
          assert q[i].tick <= q[|q| - 1].tick;
        }
        if i > 0 {
          assert q[0].tick <= q[i].tick;
        }
      }
      FlatTicks(q, tick + 1, hi);
    }
  }

  /** One more group, with one element. */
  lemma {:induction false} FlatOpen(q: seq<Load>, t: nat, tick: nat)
    ensures Flat(q + [Load([t], tick)]) == Flat(q) + [Entry(t, tick)]
  {
    FlatSnoc(q, Load([t], tick));
    assert Tagged([t], tick) == [Entry(t, tick)];
  }

  /** One more element in the last group. */
  lemma {:induction false} FlatGrow(q: seq<Load>, size: nat, t: nat)
    requires Loaded(q, size) && q != [] && |q[|q| - 1].items| < size
    ensures var n := |q| - 1;
            var r := q[..n] + [Load(q[n].items + [t], q[n].tick)];
            Loaded(r, size) && Flat(r) == Flat(q) + [Entry(t, q[n].tick)]
  {
    var n := |q| - 1;
    var items := q[n].items + [t];
    var r := q[..n] + [Load(items, q[n].tick)];
    assert r[..n] == q[..n] && items[..|items| - 1] == q[n].items;
  }
}
