/** The leaves of a layer form a doubly linked list in key order, through splits, steals, merges and root changes. */
module BTreeLinks {
  import opened KeyOrder
  import opened BTree
  import opened BTreeRows
  import opened BTreeInsert
  import opened BTreeRemove

  // ----- the leaves of a layer

  function Cat<T>(p: seq<seq<T>>): seq<T> { if p == [] then [] else p[0] + Cat(p[1..]) }

  /** The leaves under a node, from left to right. */
  function LeavesOf(n: Node): seq<Node>
    decreases n
  {
    match n
    case Leaf(_, _, _) => [n]
    case Internal(_, cs) => Cat(seq(|cs|, i requires 0 <= i < |cs| => LeavesOf(cs[i])))
  }

  function LeafParts(cs: seq<Node>): seq<seq<Node>> {
    seq(|cs|, i requires 0 <= i < |cs| => LeavesOf(cs[i]))
  }

  function LeafRow(cs: seq<Node>): seq<Node> { Cat(LeafParts(cs)) }

  lemma LeavesInternal(keys: seq<nat>, cs: seq<Node>)
    ensures LeavesOf(Internal(keys, cs)) == LeafRow(cs)
  {
    assert LeafParts(cs) == seq(|cs|, i requires 0 <= i < |cs| => LeavesOf(cs[i]));
  }

  lemma {:induction false} CatConcat<T>(p: seq<seq<T>>, q: seq<seq<T>>)
    ensures Cat(p + q) == Cat(p) + Cat(q)
  {
    if p == [] {
      assert p + q == q;
    } else {
      CatConcat(p[1..], q);
      assert (p + q)[1..] == p[1..] + q;
    }
  }

  lemma LeafRowConcat(a: seq<Node>, b: seq<Node>)
    ensures LeafRow(a + b) == LeafRow(a) + LeafRow(b)
  {
    assert LeafParts(a + b) == LeafParts(a) + LeafParts(b);
    CatConcat(LeafParts(a), LeafParts(b));
  }

  lemma LeafRowOne(c: Node)
    ensures LeafRow([c]) == LeavesOf(c)
  {
    assert LeafParts([c]) == [LeavesOf(c)];
    assert Cat([LeavesOf(c)]) == LeavesOf(c) + Cat([]);
  }

  function IdOf(n: Node): nat { if n.Leaf? then n.id else 0 }

  function IdsOf(ls: seq<Node>): seq<nat> { seq(|ls|, i requires 0 <= i < |ls| => IdOf(ls[i])) }

  /** The addresses of the leaves under a node. */
  function Ids(n: Node): seq<nat> { IdsOf(LeavesOf(n)) }

  function IdRow(cs: seq<Node>): seq<nat> { IdsOf(LeafRow(cs)) }

  lemma IdRowConcat(a: seq<Node>, b: seq<Node>)
    ensures IdRow(a + b) == IdRow(a) + IdRow(b)
  {
    LeafRowConcat(a, b);
  }

  lemma IdRowOne(c: Node)
    ensures IdRow([c]) == Ids(c)
  {
    LeafRowOne(c);
  }

  lemma IdRowTwo(c: Node, d: Node)
    ensures IdRow([c, d]) == Ids(c) + Ids(d)
  {
    IdRowConcat([c], [d]);
    assert [c] + [d] == [c, d];
    IdRowOne(c);
    IdRowOne(d);
  }

  lemma IdsInternal(keys: seq<nat>, cs: seq<Node>)
    ensures Ids(Internal(keys, cs)) == IdRow(cs)
  {
    LeavesInternal(keys, cs);
  }

  lemma IdsLeaf(id: nat, minKey: nat, s: seq<Slot>)
    ensures Ids(Leaf(id, minKey, s)) == [id]
  {
    assert LeavesOf(Leaf(id, minKey, s)) == [Leaf(id, minKey, s)];
  }

  lemma IdAround(cs: seq<Node>, i: nat, j: nat, mc: seq<Node>)
    requires i <= j <= |cs|
    ensures IdRow(cs[..i] + mc + cs[j..]) == IdRow(cs[..i]) + IdRow(mc) + IdRow(cs[j..])
  {
    IdRowConcat(cs[..i] + mc, cs[j..]);
    IdRowConcat(cs[..i], mc);
  }

  // ----- the links

  function LinkAt(ids: seq<nat>, i: nat): Link
    requires i < |ids|
  {
    Link(if i == 0 then None else Some(ids[i - 1]), if i == |ids| - 1 then None else Some(ids[i + 1]))
  }

  ghost predicate Distinct(ids: seq<nat>) {
    forall i, j :: 0 <= i < j < |ids| ==> ids[i] != ids[j]
  }

  /** prev_ and next_ of the leaves are the list, and nothing else has links. */
  ghost predicate Chained(links: map<nat, Link>, ids: seq<nat>) {
    && Distinct(ids) && (forall id :: id in links <==> id in ids)
    && (forall i :: 0 <= i < |ids| ==> LinkedAt(links, ids, i))
  }

  predicate LinkedAt(links: map<nat, Link>, ids: seq<nat>, i: nat)
    requires i < |ids|
  {
    ids[i] in links && links[ids[i]] == LinkAt(ids, i)
  }

  /** What an edit does to the list. */
  ghost predicate Edited(ids: seq<nat>, e: Edit, ids': seq<nat>) {
    match e
    case Keep => ids' == ids
    case Added(leaf, born) => exists i :: AddedAt(ids, i, leaf, born, ids')
    case Joined(leaf, gone) => exists i :: JoinedAt(ids, i, leaf, gone, ids')
  }

  predicate AddedAt(ids: seq<nat>, i: nat, leaf: nat, born: nat, ids': seq<nat>) {
    i < |ids| && ids[i] == leaf && ids' == ids[..i + 1] + [born] + ids[i + 1..]
  }

  predicate JoinedAt(ids: seq<nat>, i: nat, leaf: nat, gone: nat, ids': seq<nat>) {
    i + 1 < |ids| && ids[i] == leaf && ids[i + 1] == gone && ids' == ids[..i + 1] + ids[i + 2..]
  }

  /** An edit inside a stretch of the list is an edit of the list. */
  lemma EditedAround(a: seq<nat>, ids: seq<nat>, b: seq<nat>, e: Edit, ids': seq<nat>)
    requires Edited(ids, e, ids')
    ensures Edited(a + ids + b, e, a + ids' + b)
  {
    var t := a + ids + b;
    match e
    case Keep =>
    case Added(leaf, born) =>
      var i :| AddedAt(ids, i, leaf, born, ids');
      var j := |a| + i;
      assert t[..j + 1] == a + ids[..i + 1] && t[j + 1..] == ids[i + 1..] + b;
      assert AddedAt(t, j, leaf, born, a + ids' + b);
    case Joined(leaf, gone) =>
      var i :| JoinedAt(ids, i, leaf, gone, ids');
      var j := |a| + i;
      assert t[..j + 1] == a + ids[..i + 1] && t[j + 2..] == ids[i + 2..] + b;
      assert JoinedAt(t, j, leaf, gone, a + ids' + b);
  }

  /** The split's pointer adjustment, at one leaf. */
  lemma AddedLink(links: map<nat, Link>, ids: seq<nat>, i: nat, born: nat, j: nat)
    requires Chained(links, ids) && i < |ids| && j < |ids| && born !in ids
    ensures var links' := Relink(links, Added(ids[i], born));
            && born in links' && links'[born] == Link(Some(ids[i]), LinkAt(ids, i).next)
            && ids[j] in links'
            && links'[ids[j]] == Link(if j == i + 1 then Some(born) else LinkAt(ids, j).prev,
                                      if j == i then Some(born) else LinkAt(ids, j).next)
  {
    assert LinkedAt(links, ids, i) && LinkedAt(links, ids, j);
    if i + 1 < |ids| { assert LinkedAt(links, ids, i + 1); }
  }

  lemma AddedDistinct(ids: seq<nat>, i: nat, born: nat, ids': seq<nat>)
    requires Distinct(ids) && i < |ids| && born !in ids && AddedAt(ids, i, ids[i], born, ids')
    ensures Distinct(ids')
  {
    forall j | 0 <= j < |ids| ensures ids[j] in ids {}
    forall j, l | 0 <= j < l < |ids'| ensures ids'[j] != ids'[l] {
      AddedIndex(ids, i, born, ids', j);
      AddedIndex(ids, i, born, ids', l);
    }
  }

  lemma AddedIndex(ids: seq<nat>, i: nat, born: nat, ids': seq<nat>, j: nat)
    requires i < |ids| && AddedAt(ids, i, ids[i], born, ids') && j < |ids'|
    ensures |ids'| == |ids| + 1 && ids'[j] == if j <= i then ids[j] else if j == i + 1 then born else ids[j - 1]
  {
  }

  lemma AddedMembers(ids: seq<nat>, i: nat, born: nat, ids': seq<nat>, id: nat)
    requires i < |ids| && AddedAt(ids, i, ids[i], born, ids')
    ensures id in ids' <==> id in ids || id == born
  {
    assert ids == ids[..i + 1] + ids[i + 1..];
  }

  lemma AddedKeys(links: map<nat, Link>, leaf: nat, born: nat)
    ensures Relink(links, Added(leaf, born)).Keys == links.Keys + {born}
  {
  }

  lemma AddedLinked(links: map<nat, Link>, ids: seq<nat>, i: nat, born: nat, ids': seq<nat>, j: nat)
    requires Chained(links, ids) && i < |ids| && born !in ids && AddedAt(ids, i, ids[i], born, ids') && j < |ids'|
    ensures LinkedAt(Relink(links, Added(ids[i], born)), ids', j)
  {
    AddedLink(links, ids, i, born, if j <= i then j else if j == i + 1 then i else j - 1);
    AddedIndex(ids, i, born, ids', j);
    if j > 0 { AddedIndex(ids, i, born, ids', j - 1); }
    if j + 1 < |ids'| { AddedIndex(ids, i, born, ids', j + 1); }
  }

  lemma ChainedAdd(links: map<nat, Link>, ids: seq<nat>, i: nat, born: nat, ids': seq<nat>)
    requires Chained(links, ids) && i < |ids| && born !in ids && AddedAt(ids, i, ids[i], born, ids')
    ensures forall l :: l == Relink(links, Added(ids[i], born)) ==> Chained(l, ids')
  {
    var links' := Relink(links, Added(ids[i], born));
    AddedDistinct(ids, i, born, ids');
    AddedKeys(links, ids[i], born);
    forall id ensures id in links' <==> id in ids' { AddedMembers(ids, i, born, ids', id); }
    forall j | 0 <= j < |ids'| ensures LinkedAt(links', ids', j) { AddedLinked(links, ids, i, born, ids', j); }
  }

  /** The merges' pointer adjustment, at one leaf. */
  lemma JoinedLink(links: map<nat, Link>, ids: seq<nat>, i: nat, j: nat)
    requires Chained(links, ids) && i + 1 < |ids| && j < |ids| && j != i + 1
    ensures var links' := Relink(links, Joined(ids[i], ids[i + 1]));
            && ids[j] in links'
            && links'[ids[j]] == Link(if j == i + 2 then Some(ids[i]) else LinkAt(ids, j).prev,
                                      if j == i then LinkAt(ids, i + 1).next else LinkAt(ids, j).next)
  {
    assert LinkedAt(links, ids, i) && LinkedAt(links, ids, j) && LinkedAt(links, ids, i + 1);
    if i + 2 < |ids| { assert LinkedAt(links, ids, i + 2); }
  }

  lemma JoinedDistinct(ids: seq<nat>, i: nat, ids': seq<nat>)
    requires Distinct(ids) && i + 1 < |ids| && JoinedAt(ids, i, ids[i], ids[i + 1], ids')
    ensures Distinct(ids')
  {
    forall j, l | 0 <= j < l < |ids'| ensures ids'[j] != ids'[l] {
      JoinedIndex(ids, i, ids', j);
      JoinedIndex(ids, i, ids', l);
    }
  }

  lemma JoinedIndex(ids: seq<nat>, i: nat, ids': seq<nat>, j: nat)
    requires i + 1 < |ids| && JoinedAt(ids, i, ids[i], ids[i + 1], ids') && j < |ids'|
    ensures |ids'| == |ids| - 1 && ids'[j] == if j <= i then ids[j] else ids[j + 1]
  {
  }

  lemma JoinedMembers(ids: seq<nat>, i: nat, ids': seq<nat>, id: nat)
    requires i + 1 < |ids| && Distinct(ids) && JoinedAt(ids, i, ids[i], ids[i + 1], ids')
    ensures id in ids' <==> id in ids && id != ids[i + 1]
  {
    if id in ids && id != ids[i + 1] {
      var j :| 0 <= j < |ids| && ids[j] == id;
      assert ids'[if j <= i then j else j - 1] == id;
    }
    if id in ids' {
      var j :| 0 <= j < |ids'| && ids'[j] == id;
      assert ids[if j <= i then j else j + 1] == id;
    }
  }

  lemma JoinedKeys(links: map<nat, Link>, leaf: nat, gone: nat)
    ensures Relink(links, Joined(leaf, gone)).Keys == links.Keys - {gone}
  {
  }

  lemma JoinedLinked(links: map<nat, Link>, ids: seq<nat>, i: nat, ids': seq<nat>, j: nat)
    requires Chained(links, ids) && i + 1 < |ids| && JoinedAt(ids, i, ids[i], ids[i + 1], ids') && j < |ids'|
    ensures LinkedAt(Relink(links, Joined(ids[i], ids[i + 1])), ids', j)
  {
    JoinedIndex(ids, i, ids', j);
    JoinedLink(links, ids, i, if j <= i then j else j + 1);
    if j > 0 { JoinedIndex(ids, i, ids', j - 1); }
    if j + 1 < |ids'| { JoinedIndex(ids, i, ids', j + 1); }
  }

  lemma ChainedJoin(links: map<nat, Link>, ids: seq<nat>, i: nat, ids': seq<nat>)
    requires Chained(links, ids) && i + 1 < |ids| && JoinedAt(ids, i, ids[i], ids[i + 1], ids')
    ensures forall l :: l == Relink(links, Joined(ids[i], ids[i + 1])) ==> Chained(l, ids')
  {
    var links' := Relink(links, Joined(ids[i], ids[i + 1]));
    JoinedDistinct(ids, i, ids');
    JoinedKeys(links, ids[i], ids[i + 1]);
    forall id ensures id in links' <==> id in ids' { JoinedMembers(ids, i, ids', id); }
    forall j | 0 <= j < |ids'| ensures LinkedAt(links', ids', j) { JoinedLinked(links, ids, i, ids', j); }
  }

  lemma ChainedEdit(links: map<nat, Link>, ids: seq<nat>, e: Edit, ids': seq<nat>)
    requires Chained(links, ids) && Edited(ids, e, ids') && (e.Added? ==> e.born !in ids)
    ensures Chained(Relink(links, e), ids')
  {
    match e
    case Keep =>
    case Added(leaf, born) =>
      var i :| AddedAt(ids, i, leaf, born, ids');
      ChainedAdd(links, ids, i, born, ids');
    case Joined(leaf, gone) =>
      var i :| JoinedAt(ids, i, leaf, gone, ids');
      ChainedJoin(links, ids, i, ids');
  }

  // ----- insert

  function UpIds(up: Option<Up>): seq<nat> { if up.Some? then Ids(up.value.node) else [] }

  /** The split of an internal node leaves its children in order. */
  lemma InsertChildIds(keys: seq<nat>, cs: seq<Node>, i: nat, u: Up)
    requires |cs| == |keys| + 1 && i <= |keys| <= FANOUT
    ensures var (m, up) := InsertChild(keys, cs, i, u); Ids(m) + UpIds(up) == IdRow(WideChildren(cs, i, u))
  {
    var wk, wc := WideKeys(keys, i, u), WideChildren(cs, i, u);
    if |keys| < FANOUT {
      IdsInternal(wk, wc);
    } else {
      ThreeCasesAreOne(keys, cs, i, u);
      IdsInternal(wk[..LEAST], wc[..LEAST + 1]);
      IdsInternal(wk[LEAST + 1..], wc[LEAST + 1..]);
      IdRowConcat(wc[..LEAST + 1], wc[LEAST + 1..]);
      assert wc[..LEAST + 1] + wc[LEAST + 1..] == wc;
    }
  }

  /** An insertion adds at most one leaf, at an unused address, right after the one that split. */
  ghost predicate InsertsIds(ids: seq<nat>, unused: nat, r: Inserted) {
    Edited(ids, r.edit, Ids(r.node) + UpIds(r.up)) && !r.edit.Joined? && (r.edit.Added? ==> r.edit.born == unused)
  }

  lemma {:induction false} SplitIds(id: nat, minKey: nat, s: seq<Slot>, x: Slot, next: Option<nat>, unused: nat)
    requires |s| == FANOUT && ShortSlots(s) && !Has(s, x.slice, x.len)
    ensures InsertsIds([id], unused, SplitLeaf(id, minKey, s, x, next, unused))
  {
    var r := SplitLeaf(id, minKey, s, x, next, unused);
    var c := SplitCut(id, minKey, s, x, next, unused);
    IdsLeaf(id, minKey, r.node.slots);
    IdsLeaf(unused, r.up.value.node.minKey, r.up.value.node.slots);
    assert AddedAt([id], 0, id, unused, [id] + [unused]);
  }

  lemma {:induction false} LeafInsertIds(n: Node, k: Bytes, v: Value, onlyIfAbsent: bool, links: map<nat, Link>,
                                         unused: nat)
    requires n.Leaf? && Shape(n, 0)
    ensures InsertsIds(Ids(n), unused, Insert(n, 0, k, v, onlyIfAbsent, links, unused))
  {
    var r := Insert(n, 0, k, v, onlyIfAbsent, links, unused);
    IdsLeaf(n.id, n.minKey, n.slots);
    if Has(n.slots, Slice(k), SliceLen(k)) {
      assert SlotShape(n.slots[Rank(n.slots, Slice(k), SliceLen(k)) - 1]);
    }
    if r.edit == Keep {
      IdsLeaf(n.id, n.minKey, r.node.slots);
    } else {
      LeafIsShort(n.id, n.minKey, n.slots);
      SplitIds(n.id, n.minKey, n.slots, NewSlot(k, v), NextOf(links, n.id), unused);
    }
  }

  /** The list around child i. */
  lemma IdSplit(cs: seq<Node>, i: nat)
    requires i < |cs|
    ensures IdRow(cs) == IdRow(cs[..i]) + Ids(cs[i]) + IdRow(cs[i + 1..])
  {
    assert cs == cs[..i] + [cs[i]] + cs[i + 1..];
    IdAround(cs, i, i + 1, [cs[i]]);
    IdRowOne(cs[i]);
  }

  /** The list of a node one of whose children was replaced, by one or by two. */
  lemma {:induction false} WithChildIds(keys: seq<nat>, cs: seq<Node>, i: nat, node: Node, up: Option<Up>)
    requires |cs| == |keys| + 1 && i <= |keys| <= FANOUT
    ensures var r := WithChild(keys, cs, i, node, up);
            Ids(r.0) + UpIds(r.1) == IdRow(cs[..i]) + (Ids(node) + UpIds(up)) + IdRow(cs[i + 1..])
  {
    var cs' := cs[i := node];
    if up == None {
      assert cs' == cs[..i] + [node] + cs[i + 1..];
      IdAround(cs, i, i + 1, [node]);
      IdRowOne(node);
      IdsInternal(keys, cs');
    } else {
      InsertChildIds(keys, cs', i, up.value);
      assert WideChildren(cs', i, up.value) == cs[..i] + [node, up.value.node] + cs[i + 1..];
      IdAround(cs, i, i + 1, [node, up.value.node]);
      IdRowTwo(node, up.value.node);
    }
  }

  /** A child's edit is its parent's. */
  lemma {:induction false} ParentInsertIds(keys: seq<nat>, cs: seq<Node>, i: nat, sub: Inserted, unused: nat)
    requires |cs| == |keys| + 1 && i <= |keys| <= FANOUT && InsertsIds(Ids(cs[i]), unused, sub)
    ensures var r := WithChild(keys, cs, i, sub.node, sub.up);
            InsertsIds(IdRow(cs), unused, sub.(node := r.0, up := r.1))
  {
    EditedAround(IdRow(cs[..i]), Ids(cs[i]), IdRow(cs[i + 1..]), sub.edit, Ids(sub.node) + UpIds(sub.up));
    IdSplit(cs, i);
    WithChildIds(keys, cs, i, sub.node, sub.up);
  }

  lemma {:induction false} InsertIds(n: Node, h: nat, k: Bytes, v: Value, onlyIfAbsent: bool, links: map<nat, Link>,
                                     unused: nat)
    requires Shape(n, h)
    ensures InsertsIds(Ids(n), unused, Insert(n, h, k, v, onlyIfAbsent, links, unused))
    decreases h
  {
    if n.Leaf? {
      LeafInsertIds(n, k, v, onlyIfAbsent, links, unused);
    } else {
      var i := ChildOf(n.keys, Slice(k));
      InsertIds(n.children[i], h - 1, k, v, onlyIfAbsent, links, unused);
      InsertDescends(n.keys, n.children, h, k, v, onlyIfAbsent, links, unused);
      ParentInsertIds(n.keys, n.children, i, Insert(n.children[i], h - 1, k, v, onlyIfAbsent, links, unused), unused);
      IdsInternal(n.keys, n.children);
    }
  }

  // ----- remove

  function IdsIn(n: Option<Node>): seq<nat> { if n.Some? then Ids(n.value) else [] }

  /** What a removal did to the list of a node and the neighbours it used. */
  ghost predicate RemovesIds(ids: seq<nat>, left: Option<Node>, right: Option<Node>, r: Removed) {
    match r
    case Missing => true
    case Done(m, got) => Edited(ids, got.edit, Ids(m))
    case FromLeft(l, m, _, got) => Edited(IdsIn(left) + ids, got.edit, Ids(l) + Ids(m))
    case FromRight(m, q, _, got) => Edited(ids + IdsIn(right), got.edit, Ids(m) + Ids(q))
    case IntoLeft(l, got) => Edited(IdsIn(left) + ids, got.edit, Ids(l))
    case WithRight(m, got) => Edited(ids + IdsIn(right), got.edit, Ids(m))
    case Replaced(m, got) => Edited(ids, got.edit, Ids(m))
  }

  predicate NoBirth(r: Removed) { r.Missing? || !r.got.edit.Added? }

  lemma LeafRemovesIds(id: nat, minKey: nat, s: seq<Slot>, i: nat, v: Value, left: Option<Node>, right: Option<Node>)
    requires i < |s| && LeafSibling(left) && LeafSibling(right)
    ensures var r := RemoveFromLeaf(id, minKey, s, i, v, left, right); RemovesIds([id], left, right, r) && NoBirth(r)
  {
    var r := RemoveFromLeaf(id, minKey, s, i, v, left, right);
    if left.Some? { IdsLeaf(left.value.id, left.value.minKey, left.value.slots); }
    if right.Some? { IdsLeaf(right.value.id, right.value.minKey, right.value.slots); }
    match r
    case Done(m, _) => IdsLeaf(m.id, m.minKey, m.slots);
    case FromLeft(l, m, _, _) =>
      IdsLeaf(l.id, l.minKey, l.slots);
      IdsLeaf(m.id, m.minKey, m.slots);
    case FromRight(m, q, _, _) =>
      IdsLeaf(m.id, m.minKey, m.slots);
      IdsLeaf(q.id, q.minKey, q.slots);
    case IntoLeft(l, _) =>
      IdsLeaf(l.id, l.minKey, l.slots);
      assert JoinedAt([l.id] + [id], 0, l.id, id, [l.id]);
    case WithRight(m, _) =>
      IdsLeaf(m.id, m.minKey, m.slots);
      assert JoinedAt([id] + [right.value.id], 0, id, right.value.id, [id]);
  }

  /** A node that loses a key and a child keeps the list, whichever way its neighbours help. */
  ghost predicate Rearranges(ids: seq<nat>, left: Option<Node>, right: Option<Node>, r: Removed) {
    match r
    case Missing => false
    case Done(m, _) => Ids(m) == ids
    case FromLeft(l, m, _, _) => Ids(l) + Ids(m) == IdsIn(left) + ids
    case FromRight(m, q, _, _) => Ids(m) + Ids(q) == ids + IdsIn(right)
    case IntoLeft(l, _) => Ids(l) == IdsIn(left) + ids
    case WithRight(m, _) => Ids(m) == ids + IdsIn(right)
    case Replaced(m, _) => Ids(m) == ids
  }

  lemma ShrinkWithRight(dk: seq<nat>, dc: seq<Node>, q: Node, maxKey: nat)
    requires q.Internal? && |q.children| > 0 && |q.keys| > 0
    ensures Ids(Internal(dk + [maxKey], dc + [q.children[0]])) + Ids(Internal(q.keys[1..], q.children[1..]))
      == IdRow(dc) + Ids(q)
    ensures Ids(Internal(dk + [maxKey] + q.keys, dc + q.children)) == IdRow(dc) + Ids(q)
  {
    var a, b := dc + [q.children[0]], q.children[1..];
    IdsInternal(dk + [maxKey], a);
    IdsInternal(q.keys[1..], b);
    IdsInternal(dk + [maxKey] + q.keys, dc + q.children);
    IdsInternal(q.keys, q.children);
    IdRowConcat(a, b);
    IdRowConcat(dc, q.children);
    assert a + b == dc + q.children;
  }

  lemma ShrinkWithLeft(dk: seq<nat>, dc: seq<Node>, q: Node, minKey: nat)
    requires q.Internal? && |q.children| == |q.keys| + 1 && |q.keys| > 0
    ensures var l := |q.keys|;
            Ids(Internal(q.keys[..l - 1], q.children[..l])) + Ids(Internal([minKey] + dk, [q.children[l]] + dc))
              == Ids(q) + IdRow(dc)
    ensures Ids(Internal(q.keys + [minKey] + dk, q.children + dc)) == Ids(q) + IdRow(dc)
  {
    var l := |q.keys|;
    var a, b := q.children[..l], [q.children[l]] + dc;
    IdsInternal(q.keys[..l - 1], a);
    IdsInternal([minKey] + dk, b);
    IdsInternal(q.keys + [minKey] + dk, q.children + dc);
    IdsInternal(q.keys, q.children);
    IdRowConcat(a, b);
    IdRowConcat(q.children, dc);
    assert a + b == q.children + dc;
  }

  lemma ShrinkIds(keys: seq<nat>, cs: seq<Node>, delKey: nat, delChild: nat, minKey: nat, maxKey: nat, got: Got,
                  left: Option<Node>, right: Option<Node>)
    requires delKey < |keys| && delChild < |cs| == |keys| + 1 && InternalSibling(left) && InternalSibling(right)
    ensures Rearranges(IdRow(Without(cs, delChild)), left, right,
      Shrink(keys, cs, delKey, delChild, minKey, maxKey, got, left, right))
  {
    var dk, dc := Without(keys, delKey), Without(cs, delChild);
    IdsInternal(dk, dc);
    if |keys| <= LEAST && right.Some? {
      ShrinkWithRight(dk, dc, right.value, maxKey);
    } else if |keys| <= LEAST && left.Some? {
      ShrinkWithLeft(dk, dc, left.value, minKey);
    } else if |keys| == 1 {
      assert dc == [dc[0]];
      IdRowOne(dc[0]);
    }
  }

  lemma EditedAfter(a: seq<nat>, ids: seq<nat>, e: Edit, ids': seq<nat>)
    requires Edited(ids, e, ids')
    ensures Edited(a + ids, e, a + ids')
  {
    EditedAround(a, ids, [], e, ids');
    assert a + ids + [] == a + ids && a + ids' + [] == a + ids';
  }

  lemma EditedBefore(ids: seq<nat>, b: seq<nat>, e: Edit, ids': seq<nat>)
    requires Edited(ids, e, ids')
    ensures Edited(ids + b, e, ids' + b)
  {
    EditedAround([], ids, b, e, ids');
    assert [] + ids + b == ids + b && [] + ids' + b == ids' + b;
  }

  /** An edited list stays edited when the node's neighbours join in. */
  lemma RearrangesEdited(ids: seq<nat>, e: Edit, ids': seq<nat>, left: Option<Node>, right: Option<Node>, r: Removed)
    requires Edited(ids, e, ids') && Rearranges(ids', left, right, r) && r.got.edit == e
    ensures RemovesIds(ids, left, right, r)
  {
    match r
    case Done(_, _) =>
    case Replaced(_, _) =>
    case FromLeft(_, _, _, _) => EditedAfter(IdsIn(left), ids, e, ids');
    case IntoLeft(_, _) => EditedAfter(IdsIn(left), ids, e, ids');
    case FromRight(_, _, _, _) => EditedBefore(ids, IdsIn(right), e, ids');
    case WithRight(_, _) => EditedBefore(ids, IdsIn(right), e, ids');
  }

  /** The list around two neighbouring children. */
  lemma IdPair(cs: seq<Node>, i: nat, mc: seq<Node>)
    requires i + 1 < |cs|
    ensures IdRow(cs) == IdRow(cs[..i]) + (Ids(cs[i]) + Ids(cs[i + 1])) + IdRow(cs[i + 2..])
    ensures IdRow(cs[..i] + mc + cs[i + 2..]) == IdRow(cs[..i]) + IdRow(mc) + IdRow(cs[i + 2..])
  {
    assert cs == cs[..i] + [cs[i], cs[i + 1]] + cs[i + 2..];
    IdAround(cs, i, i + 2, [cs[i], cs[i + 1]]);
    IdRowTwo(cs[i], cs[i + 1]);
    IdAround(cs, i, i + 2, mc);
  }

  lemma PairReplaced(cs: seq<Node>, i: nat, a: Node, b: Node)
    requires i + 1 < |cs|
    ensures cs[i := a][i + 1 := b] == cs[..i] + [a, b] + cs[i + 2..]
  {
  }

  lemma PairMerged(cs: seq<Node>, i: nat, a: Node)
    requires i + 1 < |cs|
    ensures Without(cs[i := a], i + 1) == cs[..i] + [a] + cs[i + 2..]
  {
  }

  /** Two neighbouring children become two others, or one. */
  lemma PairIds(cs: seq<Node>, i: nat, e: Edit, mc: seq<Node>)
    requires i + 1 < |cs| && Edited(Ids(cs[i]) + Ids(cs[i + 1]), e, IdRow(mc))
    ensures Edited(IdRow(cs), e, IdRow(cs[..i] + mc + cs[i + 2..]))
  {
    EditedAround(IdRow(cs[..i]), Ids(cs[i]) + Ids(cs[i + 1]), IdRow(cs[i + 2..]), e, IdRow(mc));
    IdPair(cs, i, mc);
  }

  /** Two children merged into the first of them: the node shrinks. */
  lemma MergeIds(keys: seq<nat>, cs: seq<Node>, i: nat, a: Node, got: Got, minKey: nat, maxKey: nat,
                 left: Option<Node>, right: Option<Node>)
    requires i + 1 < |cs| == |keys| + 1 && InternalSibling(left) && InternalSibling(right)
    requires Edited(Ids(cs[i]) + Ids(cs[i + 1]), got.edit, Ids(a))
    ensures RemovesIds(IdRow(cs), left, right, Shrink(keys, cs[i := a], i, i + 1, minKey, maxKey, got, left, right))
  {
    IdRowOne(a);
    PairIds(cs, i, got.edit, [a]);
    PairMerged(cs, i, a);
    ShrinkIds(keys, cs[i := a], i, i + 1, minKey, maxKey, got, left, right);
    RearrangesEdited(IdRow(cs), got.edit, IdRow(Without(cs[i := a], i + 1)), left, right,
                     Shrink(keys, cs[i := a], i, i + 1, minKey, maxKey, got, left, right));
  }

  /** Two children changed, with the key between them. */
  lemma RecutIds(keys: seq<nat>, cs: seq<Node>, i: nat, a: Node, b: Node, key: nat, e: Edit)
    requires i + 1 < |cs| == |keys| + 1 && Edited(Ids(cs[i]) + Ids(cs[i + 1]), e, Ids(a) + Ids(b))
    ensures Edited(IdRow(cs), e, Ids(Internal(keys[i := key], cs[i := a][i + 1 := b])))
  {
    IdRowTwo(a, b);
    PairIds(cs, i, e, [a, b]);
    PairReplaced(cs, i, a, b);
    IdsInternal(keys[i := key], cs[i := a][i + 1 := b]);
  }

  /** What the parent makes of its child's answer. */
  lemma AscendIds(keys: seq<nat>, cs: seq<Node>, i: nat, sub: Removed, minKey: nat, maxKey: nat,
                  left: Option<Node>, right: Option<Node>)
    requires i < |cs| == |keys| + 1 && |keys| >= 1 && InternalSibling(left) && InternalSibling(right)
    requires Fits(sub, LeftOf(cs, i), RightOf(cs, i)) && RemovesIds(Ids(cs[i]), LeftOf(cs, i), RightOf(cs, i), sub)
    ensures RemovesIds(IdRow(cs), left, right, Ascend(keys, cs, i, sub, minKey, maxKey, left, right))
  {
    match sub
    case Missing =>
    case Done(m, got) =>
      IdSplit(cs, i);
      EditedAround(IdRow(cs[..i]), Ids(cs[i]), IdRow(cs[i + 1..]), got.edit, Ids(m));
      assert cs[i := m] == cs[..i] + [m] + cs[i + 1..];
      IdAround(cs, i, i + 1, [m]);
      IdRowOne(m);
      IdsInternal(keys, cs[i := m]);
    case FromLeft(l, m, key, got) => RecutIds(keys, cs, i - 1, l, m, key, got.edit);
    case FromRight(m, q, key, got) => RecutIds(keys, cs, i, m, q, key, got.edit);
    case IntoLeft(l, got) => MergeIds(keys, cs, i - 1, l, got, minKey, maxKey, left, right);
    case WithRight(m, got) => MergeIds(keys, cs, i, m, got, minKey, maxKey, left, right);
  }

  lemma {:induction false} RemoveIds(n: Node, h: nat, minKey: nat, maxKey: nat, k: Bytes, left: Option<Node>,
                                     right: Option<Node>)
    requires Shape(n, h) && Sibling(left, h) && Sibling(right, h)
    ensures var r := Remove(n, h, minKey, maxKey, k, left, right); RemovesIds(Ids(n), left, right, r) && NoBirth(r)
    decreases h
  {
    var r := Remove(n, h, minKey, maxKey, k, left, right);
    if n.Leaf? {
      LeafAnswersIds(n, minKey, maxKey, k, left, right);
    } else {
      var i := ChildOf(n.keys, Slice(k));
      RemoveDescends(n.keys, n.children, h, minKey, maxKey, k, left, right);
      RemoveIds(n.children[i], h - 1, Lo(n.keys, i, minKey), Hi(n.keys, i, maxKey), k, LeftOf(n.children, i),
                RightOf(n.children, i));
      AscendIds(n.keys, n.children, i,
                Remove(n.children[i], h - 1, Lo(n.keys, i, minKey), Hi(n.keys, i, maxKey), k, LeftOf(n.children, i),
                  RightOf(n.children, i)),
                minKey, maxKey, left, right);
      IdsInternal(n.keys, n.children);
    }
  }

  lemma {:induction false} LeafAnswersIds(n: Node, minKey: nat, maxKey: nat, k: Bytes, left: Option<Node>,
                                          right: Option<Node>)
    requires n.Leaf? && Shape(n, 0) && Sibling(left, 0) && Sibling(right, 0)
    ensures var r := Remove(n, 0, minKey, maxKey, k, left, right); RemovesIds(Ids(n), left, right, r) && NoBirth(r)
  {
    var r := Remove(n, 0, minKey, maxKey, k, left, right);
    IdsLeaf(n.id, n.minKey, n.slots);
    if Has(n.slots, Slice(k), SliceLen(k)) {
      var i := Rank(n.slots, Slice(k), SliceLen(k)) - 1;
      assert SlotShape(n.slots[i]);
      if n.slots[i].entry.Layer? {
        if r.Done? { IdsLeaf(n.id, n.minKey, r.node.slots); }
      } else {
        LeafRemovesIds(n.id, n.minKey, n.slots, i, n.slots[i].entry.v, left, right);
      }
    }
  }

  // ----- layers

  /** The links of a layer, and of every layer below it, are the lists of their leaves. */
  ghost predicate LinksOk(t: Tree)
    decreases t
  {
    && Chained(t.links, Ids(t.root)) && (forall id :: id in t.links ==> id < t.unused)
    && LayersOk(t.root)
  }

  ghost predicate LayersOk(n: Node)
    decreases n
  {
    match n
    case Leaf(_, _, slots) => forall i :: 0 <= i < |slots| ==> SlotLinks(slots[i])
    case Internal(_, cs) => forall i :: 0 <= i < |cs| ==> LayersOk(cs[i])
  }

  ghost predicate SlotLinks(x: Slot)
    decreases x
  {
    x.entry.Layer? ==> LinksOk(x.entry.tree)
  }

  ghost predicate AllLinks(s: seq<Slot>) {
    forall i :: 0 <= i < |s| ==> SlotLinks(s[i])
  }

  /** Only the slots matter. */
  lemma {:induction false} LayersFlat(n: Node)
    ensures LayersOk(n) <==> AllLinks(Flat(n))
    decreases n, 1
  {
    if n.Internal? {
      FlatInternal(n.keys, n.children);
      RowLayers(n, n.children);
    }
  }

  lemma {:induction false} RowLayers(n: Node, cs: seq<Node>)
    requires n.Internal? && |cs| <= |n.children| && cs == n.children[..|cs|]
    ensures (forall i :: 0 <= i < |cs| ==> LayersOk(cs[i])) <==> AllLinks(FlatRow(cs))
    decreases n, 0, |cs|
  {
    if cs == [] {
      assert FlatRow(cs) == [];
    } else {
      var l := |cs| - 1;
      assert cs[l] == n.children[l] && cs[..l] == n.children[..l];
      RowLayers(n, cs[..l]);
      LayersFlat(cs[l]);
      assert cs == cs[..l] + [cs[l]];
      FlatRowConcat(cs[..l], [cs[l]]);
      FlatRowOne(cs[l]);
      BothLinks(FlatRow(cs[..l]), Flat(cs[l]));
      assert (forall i :: 0 <= i < |cs| ==> LayersOk(cs[i]))
        <==> (forall i :: 0 <= i < l ==> LayersOk(cs[..l][i])) && LayersOk(cs[l]);
    }
  }

  lemma BothLinks(a: seq<Slot>, b: seq<Slot>)
    ensures AllLinks(a + b) <==> AllLinks(a) && AllLinks(b)
  {
    forall i | 0 <= i < |a| ensures (a + b)[i] == a[i] {}
    forall i | 0 <= i < |b| ensures (a + b)[|a| + i] == b[i] {}
  }

  lemma {:induction false} PutLinks(s: seq<Slot>, x: Slot)
    requires AllLinks(s) && SlotLinks(x)
    ensures AllLinks(Put(s, x))
  {
    forall i | 0 <= i < |Put(s, x)| ensures SlotLinks(Put(s, x)[i]) { PutMembers(s, x, i); }
  }

  lemma {:induction false} DelLinks(s: seq<Slot>, slice: nat, len: nat)
    requires AllLinks(s)
    ensures AllLinks(Del(s, slice, len))
  {
  }

  lemma AloneLinked(s: seq<Slot>)
    requires AllLinks(s)
    ensures LinksOk(Alone(Leaf(0, 0, s)))
  {
    IdsLeaf(0, 0, s);
    assert LinkedAt(map[0 := Link(None, None)], [0], 0);
  }

  // ----- the operations keep the links

  lemma {:induction false} SettleLinks(found: Option<Slot>, k: Bytes, v: Value, onlyIfAbsent: bool)
    requires found.Some? ==> SlotShape(found.value) && SlotOk(found.value) && At(found.value, Slice(k), SliceLen(k))
    requires found.Some? ==> SlotLinks(found.value)
    ensures SlotLinks(Settle(found, k, v, onlyIfAbsent).slot)
    decreases |k|, 0
  {
    if found.Some? && SliceLen(k) == MAX_LEN {
      var x := found.value;
      if x.entry.Layer? {
        InsertKeepsLinks(x.entry.tree, Shift(k), v, onlyIfAbsent);
      } else if x.entry.suffix != Shift(k) {
        var s := [NewSlot(x.entry.suffix, x.entry.v)];
        NewSlotOk(x.entry.suffix, x.entry.v);
        AloneLinked(s);
        InsertKeepsLinks(Alone(Leaf(0, 0, s)), Shift(k), v, onlyIfAbsent);
      }
    }
  }

  /** Inserting leaves prev_ and next_ of every layer the list of its leaves in key order. */
  lemma {:induction false} InsertKeepsLinks(t: Tree, k: Bytes, v: Value, onlyIfAbsent: bool)
    requires ValidTree(t) && Shape(t.root, t.height) && LinksOk(t)
    ensures LinksOk(InsertTree(t, k, v, onlyIfAbsent).0)
    decreases |k|, 1
  {
    var t', f := InsertTree(t, k, v, onlyIfAbsent).0, Find(Flat(t.root), k);
    InsertTreeOk(t, k, v, onlyIfAbsent);
    LayersFlat(t.root);
    SettleLinks(f, k, v, onlyIfAbsent);
    PutLinks(Flat(t.root), Settle(f, k, v, onlyIfAbsent).slot);
    LayersFlat(t'.root);
    InsertChains(t, k, v, onlyIfAbsent);
  }

  lemma {:induction false} InsertChains(t: Tree, k: Bytes, v: Value, onlyIfAbsent: bool)
    requires Shape(t.root, t.height) && Chained(t.links, Ids(t.root)) && forall id :: id in t.links ==> id < t.unused
    ensures var t' := InsertTree(t, k, v, onlyIfAbsent).0;
            Chained(t'.links, Ids(t'.root)) && forall id :: id in t'.links ==> id < t'.unused
  {
    var r := Insert(t.root, t.height, k, v, onlyIfAbsent, t.links, t.unused);
    InsertIds(t.root, t.height, k, v, onlyIfAbsent, t.links, t.unused);
    ChainedEdit(t.links, Ids(t.root), r.edit, Ids(r.node) + UpIds(r.up));
    if r.up.Some? {
      IdsInternal([r.up.value.key], [r.node, r.up.value.node]);
      IdRowTwo(r.node, r.up.value.node);
    }
    assert Ids(InsertTree(t, k, v, onlyIfAbsent).0.root) == Ids(r.node) + UpIds(r.up);
    RelinkKeys(t.links, r.edit);
  }

  lemma RelinkKeys(links: map<nat, Link>, e: Edit)
    ensures Relink(links, e).Keys <= links.Keys + if e.Added? then {e.born} else {}
  {
  }

  lemma {:induction false} LossLinks(found: Option<Slot>, k: Bytes)
    requires found.Some? ==> SlotShape(found.value) && SlotOk(found.value) && At(found.value, Slice(k), SliceLen(k))
    requires found.Some? ==> SlotLinks(found.value)
    ensures var l := Loss(found, k); l.Some? && l.value.0.Set? ==> SlotLinks(l.value.0.x)
    decreases |k|, 0
  {
    if found.Some? && found.value.entry.Layer? {
      RemoveKeepsLinks(found.value.entry.tree, Shift(k));
    }
  }

  /** So does removing, through steals, merges and root changes. */
  lemma {:induction false} RemoveKeepsLinks(t: Tree, k: Bytes)
    requires ValidTree(t) && Shape(t.root, t.height) && LinksOk(t)
    ensures var r := RemoveTree(t, k); r.Some? ==> LinksOk(r.value.0)
    decreases |k|, 1
  {
    var r, f := RemoveTree(t, k), Find(Flat(t.root), k);
    RemoveTreeOk(t, k);
    LayersFlat(t.root);
    LossLinks(f, k);
    if r.Some? {
      var c := Loss(f, k).value.0;
      if c.Set? { PutLinks(Flat(t.root), c.x); } else { DelLinks(Flat(t.root), Slice(k), SliceLen(k)); }
      LayersFlat(r.value.0.root);
      RemoveChains(t, k);
    }
  }

  lemma {:induction false} RemoveChains(t: Tree, k: Bytes)
    requires Shape(t.root, t.height) && Chained(t.links, Ids(t.root)) && forall id :: id in t.links ==> id < t.unused
    ensures var r := RemoveTree(t, k);
            r.Some? ==> Chained(r.value.0.links, Ids(r.value.0.root)) && forall id :: id in r.value.0.links ==>
              id < r.value.0.unused
  {
    var r := Remove(t.root, t.height, 0, END, k, None, None);
    RemoveIds(t.root, t.height, 0, END, k, None, None);
    if !r.Missing? {
      ChainedEdit(t.links, Ids(t.root), r.got.edit, Ids(r.node));
      RelinkKeys(t.links, r.got.edit);
    }
  }
}
