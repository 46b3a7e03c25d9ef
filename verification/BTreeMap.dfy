/** The tree is a map from byte strings to values. */
module BTreeMap {
  import opened KeyOrder
  import opened BTree
  import opened BTreeRows
  import opened BTreeInsert
  import opened BTreeRemove

  // ----- one sequence of slots

  lemma {:induction false} HasAt(s: seq<Slot>, slice: nat, len: nat, i: nat)
    requires SlotsSorted(s) && i < |s| && At(s[i], slice, len)
    ensures Has(s, slice, len) && Get(s, slice, len) == s[i]
  {
    assert i + 1 < |s| ==> Before(s[i], s[i + 1].slice, s[i + 1].len);
    RankAt(s, slice, len, i + 1);
  }

  lemma {:induction false} PutHas(s: seq<Slot>, x: Slot)
    requires SlotsSorted(s)
    ensures Has(Put(s, x), x.slice, x.len) && Get(Put(s, x), x.slice, x.len) == x
  {
    PutSorted(s, x);
    var r := Rank(s, x.slice, x.len);
    HasAt(Put(s, x), x.slice, x.len, if Has(s, x.slice, x.len) then r - 1 else r);
  }

  /** Putting a slot leaves what is found anywhere else. */
  lemma {:induction false} PutKeeps(s: seq<Slot>, x: Slot, slice: nat, len: nat)
    requires SlotsSorted(s) && !At(x, slice, len)
    ensures Has(Put(s, x), slice, len) <==> Has(s, slice, len)
    ensures Has(s, slice, len) ==> Get(Put(s, x), slice, len) == Get(s, slice, len)
  {
    PutSorted(s, x);
    var t, r := Put(s, x), Rank(s, x.slice, x.len);
    if Has(s, slice, len) {
      var i := Rank(s, slice, len) - 1;
      var j := if Has(s, x.slice, x.len) || i < r then i else i + 1;
      assert t[j] == s[i];
      HasAt(t, slice, len, j);
    } else if Has(t, slice, len) {
      var j := Rank(t, slice, len) - 1;
      PutMembers(s, x, j);
      var i :| 0 <= i < |s| && s[i] == t[j];
      HasAt(s, slice, len, i);
    }
  }

  /** After a put, a key in the slot reads the new entry, and any other key reads as before. */
  lemma {:induction false} ReadPut(s: seq<Slot>, x: Slot, q: Bytes)
    requires SlotsSorted(s)
    ensures Read(Put(s, x), q) == if At(x, Slice(q), SliceLen(q)) then ReadEntry(x.entry, q) else Read(s, q)
  {
    if At(x, Slice(q), SliceLen(q)) {
      PutHas(s, x);
    } else {
      PutKeeps(s, x, Slice(q), SliceLen(q));
    }
  }

  lemma {:induction false} FlatSorted(n: Node, h: nat, lo: nat, hi: nat, root: bool)
    requires Valid(n, h, lo, hi, root)
    ensures SlotsSorted(Flat(n))
    decreases h, 1
  {
    if n.Internal? {
      ValidIsRow(n.keys, n.children, h, lo, hi, root);
      FlatInternal(n.keys, n.children);
      RowSorted(n.keys, n.children, h - 1, lo, hi);
    }
  }

  lemma {:induction false} RowSorted(keys: seq<nat>, cs: seq<Node>, h: nat, lo: nat, hi: nat)
    requires Row(keys, cs, h, lo, hi)
    ensures SlotsSorted(FlatRow(cs))
    decreases h + 1, 0, |cs|
  {
    var n := |keys|;
    assert ChildOk(keys, cs, n, h, lo, hi);
    FlatSorted(cs[n], h, Lo(keys, n, lo), hi, false);
    FlatRowOne(cs[n]);
    if n == 0 {
      assert cs == [cs[0]];
    } else {
      RowCut(keys, cs, h, lo, hi, n - 1);
      RowSorted(keys[..n - 1], cs[..n], h, lo, keys[n - 1]);
      RowFlatBounds(keys[..n - 1], cs[..n], h, lo, keys[n - 1]);
      FlatBounds(cs[n], h, keys[n - 1], hi, false);
      FlatRowConcat(cs[..n], [cs[n]]);
      assert cs == cs[..n] + [cs[n]];
      SortedConcat(FlatRow(cs[..n]), Flat(cs[n]), keys[n - 1]);
    }
  }

  lemma SortedConcat(a: seq<Slot>, b: seq<Slot>, mid: nat)
    requires SlotsSorted(a) && SlotsSorted(b)
    requires (forall i :: 0 <= i < |a| ==> a[i].slice < mid) && (forall i :: 0 <= i < |b| ==> b[i].slice >= mid)
    ensures SlotsSorted(a + b)
  {
  }

  // ----- insert

  /** What inserting means to a map. */
  function Inserting(was: Option<Value>, v: Value, onlyIfAbsent: bool): Option<Value> {
    if onlyIfAbsent && was.Some? then was else Some(v)
  }

  lemma {:induction false} SingleRead(z: Bytes, w: Value, q: Bytes)
    ensures Shape(Leaf(0, 0, [NewSlot(z, w)]), 0)
    ensures Search(Leaf(0, 0, [NewSlot(z, w)]), 0, q) == if q == z then Some(w) else None
  {
    EqualityIsSliceEquality(q, z);
    var s := [NewSlot(z, w)];
    LeafReads(0, 0, s, q);
    if At(s[0], Slice(q), SliceLen(q)) {
      HasAt(s, Slice(q), SliceLen(q), 0);
    }
  }

  /** What the settled slot says about keys with its slice and length, given what the layers below it do. */
  ghost predicate Settles(found: Option<Slot>, k: Bytes, v: Value, onlyIfAbsent: bool, q: Bytes)
    requires found.Some? ==> SlotShape(found.value) && At(found.value, Slice(k), SliceLen(k))
  {
    var was := if found.Some? then ReadEntry(found.value.entry, k) else None;
    var o := Settle(found, k, v, onlyIfAbsent);
    && o.added == (was == None) && o.prior == was
    && ReadEntry(o.slot.entry, q) ==
         if q == k then Inserting(was, v, onlyIfAbsent)
         else if found.Some? then ReadEntry(found.value.entry, q) else None
  }

  lemma {:induction false} SettleReads(found: Option<Slot>, k: Bytes, v: Value, onlyIfAbsent: bool, q: Bytes)
    requires found.Some? ==> SlotShape(found.value) && SlotOk(found.value) && At(found.value, Slice(k), SliceLen(k))
    requires Slice(q) == Slice(k) && SliceLen(q) == SliceLen(k)
    ensures Settles(found, k, v, onlyIfAbsent, q)
    decreases |k|, 0
  {
    EqualityIsSliceEquality(q, k);
    if found.Some? && found.value.entry.Layer? {
      InsertIsMapInsert(found.value.entry.tree, Shift(k), v, onlyIfAbsent, Shift(q));
      InsertIsMapInsert(found.value.entry.tree, Shift(k), v, onlyIfAbsent, Shift(k));
    } else if found.Some? && SliceLen(k) == MAX_LEN && found.value.entry.suffix != Shift(k) {
      var z, w := found.value.entry.suffix, found.value.entry.v;
      NewLayerReads(z, w, Shift(k), v, onlyIfAbsent, Shift(q));
    }
  }

  /** Two keys with the same slice get a layer of their own. */
  lemma {:induction false} NewLayerReads(z: Bytes, w: Value, k: Bytes, v: Value, onlyIfAbsent: bool, q: Bytes)
    requires z != k && z != []
    ensures Shape(Leaf(0, 0, [NewSlot(z, w)]), 0)
    ensures var (t, _, prior) := InsertTree(Alone(Leaf(0, 0, [NewSlot(z, w)])), k, v, onlyIfAbsent);
            && prior == None && Shape(t.root, t.height)
            && Lookup(t, q) == if q == k then Some(v) else if q == z then Some(w) else None
    decreases |k|, 2
  {
    NewSlotOk(z, w);
    SingleRead(z, w, q);
    SingleRead(z, w, k);
    InsertIsMapInsert(Alone(Leaf(0, 0, [NewSlot(z, w)])), k, v, onlyIfAbsent, q);
  }

  /** Inserting into a tree is inserting into a map; the result says whether the key is new, and what it had. */
  lemma {:induction false} InsertIsMapInsert(t: Tree, k: Bytes, v: Value, onlyIfAbsent: bool, q: Bytes)
    requires ValidTree(t) && Shape(t.root, t.height)
    ensures var (t', added, prior) := InsertTree(t, k, v, onlyIfAbsent);
            && ValidTree(t') && Shape(t'.root, t'.height)
            && (added <==> Lookup(t, k) == None) && prior == Lookup(t, k)
            && Lookup(t', q) == if q == k then Inserting(Lookup(t, k), v, onlyIfAbsent) else Lookup(t, q)
    decreases |k|, 1
  {
    InsertTreeOk(t, k, v, onlyIfAbsent);
    var (t', added, prior) := InsertTree(t, k, v, onlyIfAbsent);
    var s, f := Flat(t.root), Find(Flat(t.root), k);
    FlatSorted(t.root, t.height, 0, END, true);
    SearchReads(t.root, t.height, 0, END, true, k);
    SearchReads(t.root, t.height, 0, END, true, q);
    SearchReads(t'.root, t'.height, 0, END, true, q);
    ReadPut(s, Settle(f, k, v, onlyIfAbsent).slot, q);
    SettleReads(f, k, v, onlyIfAbsent, k);
    if Slice(q) == Slice(k) && SliceLen(q) == SliceLen(k) {
      SettleReads(f, k, v, onlyIfAbsent, q);
    }
  }

  // ----- remove

  lemma {:induction false} DelSorted(s: seq<Slot>, slice: nat, len: nat)
    requires SlotsSorted(s)
    ensures SlotsSorted(Del(s, slice, len))
  {
  }

  lemma {:induction false} DelStillHas(s: seq<Slot>, slice: nat, len: nat, slice': nat, len': nat)
    requires SlotsSorted(s) && Has(s, slice, len) && Has(s, slice', len') && !(slice' == slice && len' == len)
    ensures Has(Del(s, slice, len), slice', len') && Get(Del(s, slice, len), slice', len') == Get(s, slice', len')
  {
    DelSorted(s, slice, len);
    var i, d := Rank(s, slice', len') - 1, Rank(s, slice, len) - 1;
    HasAt(Del(s, slice, len), slice', len', if i < d then i else i - 1);
  }

  lemma {:induction false} DelAddsNothing(s: seq<Slot>, slice: nat, len: nat, slice': nat, len': nat)
    requires SlotsSorted(s) && Has(s, slice, len) && Has(Del(s, slice, len), slice', len')
    ensures !(slice' == slice && len' == len) && Has(s, slice', len')
  {
    var j, d := Rank(Del(s, slice, len), slice', len') - 1, Rank(s, slice, len) - 1;
    HasAt(s, slice', len', if j < d then j else j + 1);
  }

  /** Deleting a slot leaves nothing in its place, and what is found anywhere else. */
  lemma {:induction false} DelKeeps(s: seq<Slot>, slice: nat, len: nat, slice': nat, len': nat)
    requires SlotsSorted(s) && Has(s, slice, len)
    ensures var same := slice' == slice && len' == len;
            && (Has(Del(s, slice, len), slice', len') <==> !same && Has(s, slice', len'))
            && (!same && Has(s, slice', len') ==> Get(Del(s, slice, len), slice', len') == Get(s, slice', len'))
  {
    if Has(Del(s, slice, len), slice', len') {
      DelAddsNothing(s, slice, len, slice', len');
    }
    if Has(s, slice', len') && !(slice' == slice && len' == len) {
      DelStillHas(s, slice, len, slice', len');
    }
  }

  /** What the loss says about keys with the slot's slice and length, given what the layers below it do. */
  ghost predicate Loses(found: Option<Slot>, k: Bytes, q: Bytes)
    requires found.Some? ==> SlotShape(found.value) && At(found.value, Slice(k), SliceLen(k))
  {
    var l := Loss(found, k);
    if found == None then l == None
    else
      var was := ReadEntry(found.value.entry, k);
      && (l == None <==> was == None)
      && (l.Some? ==>
            && l.value.1 == was.value
            && match l.value.0
               case Drop => q != k ==> ReadEntry(found.value.entry, q) == None
               case Set(x) =>
                 && At(x, Slice(k), SliceLen(k))
                 && ReadEntry(x.entry, q) == if q == k then None else ReadEntry(found.value.entry, q))
  }

  lemma {:induction false} LossReads(found: Option<Slot>, k: Bytes, q: Bytes)
    requires found.Some? ==> SlotShape(found.value) && SlotOk(found.value) && At(found.value, Slice(k), SliceLen(k))
    requires Slice(q) == Slice(k) && SliceLen(q) == SliceLen(k)
    ensures Loses(found, k, q)
    decreases |k|, 0
  {
    EqualityIsSliceEquality(q, k);
    if found.Some? && found.value.entry.Layer? {
      RemoveIsMapRemove(found.value.entry.tree, Shift(k), Shift(q));
    }
  }

  lemma {:induction false} ReadApply(s: seq<Slot>, k: Bytes, c: Change, q: Bytes)
    requires SlotsSorted(s) && Find(s, k).Some? && (c.Set? ==> At(c.x, Slice(k), SliceLen(k)))
    ensures Read(Apply(s, k, c), q) ==
            if Slice(q) == Slice(k) && SliceLen(q) == SliceLen(k)
              then (if c.Set? then ReadEntry(c.x.entry, q) else None) else Read(s, q)
  {
    match c
    case Drop => DelKeeps(s, Slice(k), SliceLen(k), Slice(q), SliceLen(q));
    case Set(x) => ReadPut(s, x, q);
  }

  /** Removing from a tree is removing from a map; the result says whether the key was there, and what it had. */
  lemma {:induction false} RemoveIsMapRemove(t: Tree, k: Bytes, q: Bytes)
    requires ValidTree(t) && Shape(t.root, t.height)
    ensures var r := RemoveTree(t, k);
            && (r == None <==> Lookup(t, k) == None)
            && (r.Some? ==>
                  && ValidTree(r.value.0) && Shape(r.value.0.root, r.value.0.height)
                  && Lookup(t, k) == Some(r.value.1)
                  && Lookup(r.value.0, q) == if q == k then None else Lookup(t, q))
    decreases |k|, 1
  {
    RemoveTreeOk(t, k);
    var r := RemoveTree(t, k);
    var s, f := Flat(t.root), Find(Flat(t.root), k);
    var l := Loss(f, k);
    SearchReads(t.root, t.height, 0, END, true, k);
    LossReads(f, k, k);
    if r.Some? {
      SearchReads(t.root, t.height, 0, END, true, q);
      SearchReads(r.value.0.root, r.value.0.height, 0, END, true, q);
      FlatSorted(t.root, t.height, 0, END, true);
      ReadApply(s, k, l.value.0, q);
      if Slice(q) == Slice(k) && SliceLen(q) == SliceLen(k) {
        LossReads(f, k, q);
      }
    }
  }

  // ----- any run of operations

  datatype Op = OpInsert(k: Bytes, v: Value, onlyIfAbsent: bool) | OpRemove(k: Bytes) | OpSearch(k: Bytes)

  /** What the caller is told: the value the key had, and whether the operation changed which keys there are. */
  datatype Answer = Answer(was: Option<Value>, changed: bool)

  predicate Sane(t: Tree) { Shape(t.root, t.height) }

  function Perform(t: Tree, op: Op): (Tree, Answer)
    requires Sane(t)
  {
    match op
    case OpInsert(k, v, onlyIfAbsent) =>
      var (t', added, prior) := InsertTree(t, k, v, onlyIfAbsent);
      (t', Answer(prior, added))
    case OpRemove(k) =>
      var r := RemoveTree(t, k);
      if r == None then (t, Answer(None, false)) else (r.value.0, Answer(Some(r.value.1), true))
    case OpSearch(k) => (t, Answer(Lookup(t, k), false))
  }

  function InMap(m: map<Bytes, Value>, k: Bytes): Option<Value> { if k in m then Some(m[k]) else None }

  function PerformOnMap(m: map<Bytes, Value>, op: Op): (map<Bytes, Value>, Answer) {
    match op
    case OpInsert(k, v, onlyIfAbsent) =>
      (if onlyIfAbsent && k in m then m else m[k := v], Answer(InMap(m, k), k !in m))
    case OpRemove(k) => (m - {k}, Answer(InMap(m, k), k in m))
    case OpSearch(k) => (m, Answer(InMap(m, k), false))
  }

  /** The tree holds exactly the map. */
  ghost predicate Agrees(t: Tree, m: map<Bytes, Value>) {
    ValidTree(t) && Sane(t) && forall q :: Lookup(t, q) == InMap(m, q)
  }

  lemma {:induction false} OperationsAgree(t: Tree, m: map<Bytes, Value>, op: Op, t': Tree, a: Answer)
    requires Agrees(t, m) && Performed(t, op, t', a)
    ensures a == PerformOnMap(m, op).1 && Agrees(t', PerformOnMap(m, op).0)
  {
    var m' := PerformOnMap(m, op).0;
    match op
    case OpInsert(k, v, onlyIfAbsent) =>
      InsertIsMapInsert(t, k, v, onlyIfAbsent, k);
      forall q ensures Lookup(t', q) == InMap(m', q) {
        InsertIsMapInsert(t, k, v, onlyIfAbsent, q);
      }
    case OpRemove(k) =>
      RemoveIsMapRemove(t, k, k);
      forall q ensures Lookup(t', q) == InMap(m', q) {
        RemoveIsMapRemove(t, k, q);
      }
    case OpSearch(_) =>
  }

  ghost predicate Performed(t: Tree, op: Op, t': Tree, a: Answer) { Sane(t) && Perform(t, op) == (t', a) }

  /** The trees after each of a run of operations, and their answers. */
  ghost predicate RunOf(ts: seq<Tree>, ops: seq<Op>, answers: seq<Answer>) {
    && |ts| == |ops| + 1 && |answers| == |ops| && ts[0] == EMPTY
    && (forall i :: 0 <= i < |ops| ==> Performed(ts[i], ops[i], ts[i + 1], answers[i]))
  }

  function MapAfter(ops: seq<Op>): map<Bytes, Value> {
    if ops == [] then map[] else PerformOnMap(MapAfter(ops[..|ops| - 1]), ops[|ops| - 1]).0
  }

  lemma EmptyAgrees()
    ensures Agrees(EMPTY, map[])
  {
    assert forall q :: Search(EMPTY.root, 0, q) == None;
  }

  lemma {:induction false} MapSteps(ops: seq<Op>, n: nat)
    requires 0 < n <= |ops|
    ensures MapAfter(ops[..n]) == PerformOnMap(MapAfter(ops[..n - 1]), ops[n - 1]).0
  {
    assert ops[..n][..n - 1] == ops[..n - 1];
  }

  lemma {:induction false} RunAgrees(ts: seq<Tree>, ops: seq<Op>, answers: seq<Answer>, n: nat)
    requires RunOf(ts, ops, answers) && n <= |ops|
    ensures Agrees(ts[n], MapAfter(ops[..n]))
    ensures n > 0 ==> answers[n - 1] == PerformOnMap(MapAfter(ops[..n - 1]), ops[n - 1]).1
  {
    if n == 0 {
      EmptyAgrees();
    } else {
      RunAgrees(ts, ops, answers, n - 1);
      assert Performed(ts[n - 1], ops[n - 1], ts[n - 1 + 1], answers[n - 1]);
      OperationsAgree(ts[n - 1], MapAfter(ops[..n - 1]), ops[n - 1], ts[n], answers[n - 1]);
      MapSteps(ops, n);
    }
  }

  /** After any run from the empty tree the tree is the map, and every answer was the map's. */
  lemma {:induction false} TreeIsMap(ts: seq<Tree>, ops: seq<Op>, answers: seq<Answer>)
    requires RunOf(ts, ops, answers)
    ensures Agrees(ts[|ops|], MapAfter(ops))
    ensures forall i :: 0 <= i < |ops| ==> answers[i] == PerformOnMap(MapAfter(ops[..i]), ops[i]).1
  {
    RunAgrees(ts, ops, answers, |ops|);
    assert ops[..|ops|] == ops;
    forall i | 0 <= i < |ops| ensures answers[i] == PerformOnMap(MapAfter(ops[..i]), ops[i]).1 {
      RunAgrees(ts, ops, answers, i + 1);
    }
  }
}
