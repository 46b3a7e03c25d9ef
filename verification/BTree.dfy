/** Silo's B+-tree of 8-byte key slices (silo/btree.h, silo/btree_impl.h) without concurrency: version
    checks succeed and nothing retries. Nodes are values: the arrays of a node are sequences, and the
    shifts and copies of the source are slices and concatenations of them. */
module BTree {
  import Circular
  import opened KeyOrder

  type Value = nat

  datatype Option<+T> = None | Some(value: T)

  const FANOUT: nat := 15        // NKeysPerNode
  const LEAST: nat := 7          // NMinKeysPerNode
  const MAX_LEN: nat := 9        // slice length standing for a suffix or a layer
  const END: nat := Pow256(8)    // one past the largest slice

  /** What a leaf keeps for one slice and length: a value with the rest of its key, or a tree of the rests. */
  datatype Entry = Val(v: Value, suffix: Bytes) | Layer(tree: Tree)

  datatype Slot = Slot(slice: nat, len: nat, entry: Entry)

  /** A leaf is known by its address, which is what its neighbours point to. */
  datatype Node =
    | Leaf(id: nat, minKey: nat, slots: seq<Slot>)
    | Internal(keys: seq<nat>, children: seq<Node>)

  /** prev_ and next_ of a leaf. */
  datatype Link = Link(prev: Option<nat>, next: Option<nat>)

  /** One layer: its nodes, the links of its leaves, and the next unused address. */
  datatype Tree = Tree(height: nat, root: Node, links: map<nat, Link>, unused: nat)

  /** A layer of one leaf. */
  function Alone(root: Node): Tree { Tree(0, root, map[0 := Link(None, None)], 1) }

  const EMPTY: Tree := Alone(Leaf(0, 0, []))

  // ----- sibling links

  /** What an operation does to the links of a layer: nothing, a new leaf after one, or one leaf's end in another. */
  datatype Edit = Keep | Added(leaf: nat, born: nat) | Joined(leaf: nat, gone: nat)

  function NextOf(links: map<nat, Link>, id: nat): Option<nat> { if id in links then links[id].next else None }

  function SetNext(links: map<nat, Link>, id: nat, next: Option<nat>): map<nat, Link> {
    if id in links then links[id := links[id].(next := next)] else links
  }

  function SetPrev(links: map<nat, Link>, id: Option<nat>, prev: nat): map<nat, Link> {
    if id.Some? && id.value in links then links[id.value := links[id.value].(prev := Some(prev))] else links
  }

  /** The pointer adjustments of a split (silo/btree_impl.h:1233-1237) and of the two merges (1699-1701, 1799-1801). */
  function Relink(links: map<nat, Link>, e: Edit): map<nat, Link> {
    match e
    case Keep => links
    case Added(leaf, born) =>
      var next := NextOf(links, leaf);
      SetNext(SetPrev(links, next, born), leaf, Some(born))[born := Link(Some(leaf), next)]
    case Joined(leaf, gone) =>
      var next := NextOf(links, gone);
      SetPrev(SetNext(links, leaf, next), next, leaf) - {gone}
  }

  // ----- positions in a node

  predicate Before(x: Slot, slice: nat, len: nat) { x.slice < slice || (x.slice == slice && x.len < len) }

  predicate At(x: Slot, slice: nat, len: nat) { x.slice == slice && x.len == len }

  predicate SlotsSorted(s: seq<Slot>) {
    forall i, j :: 0 <= i < j < |s| ==> Before(s[i], s[j].slice, s[j].len)
  }

  predicate KeysSorted(keys: seq<nat>) {
    forall i, j :: 0 <= i < j < |keys| ==> keys[i] < keys[j]
  }

  /** How many slots are at or before a slice and length. */
  function Rank(s: seq<Slot>, slice: nat, len: nat): (r: nat)
    ensures r <= |s|
    ensures r > 0 ==> Before(s[r - 1], slice, len) || At(s[r - 1], slice, len)
    ensures forall i :: r <= i < |s| ==> !Before(s[i], slice, len) && !At(s[i], slice, len)
  {
    if s == [] then 0
    else if Before(s[|s| - 1], slice, len) || At(s[|s| - 1], slice, len) then |s|
    else Rank(s[..|s| - 1], slice, len)
  }

  /** The slot for a slice and length is the last one not after it. */
  predicate Has(s: seq<Slot>, slice: nat, len: nat) {
    Rank(s, slice, len) > 0 && At(s[Rank(s, slice, len) - 1], slice, len)
  }

  function Get(s: seq<Slot>, slice: nat, len: nat): Slot
    requires Has(s, slice, len)
  {
    s[Rank(s, slice, len) - 1]
  }

  /** Adds a slot in its place, or replaces the one already there. */
  function Put(s: seq<Slot>, x: Slot): seq<Slot> {
    var r := Rank(s, x.slice, x.len);
    if Has(s, x.slice, x.len) then s[r - 1 := x] else s[..r] + [x] + s[r..]
  }

  function Del(s: seq<Slot>, slice: nat, len: nat): seq<Slot> {
    var r := Rank(s, slice, len);
    if Has(s, slice, len) then s[..r - 1] + s[r..] else s
  }

  /** Which child is responsible for a slice: the number of keys not above it. */
  function ChildOf(keys: seq<nat>, slice: nat): (r: nat)
    ensures r <= |keys|
    ensures r > 0 ==> keys[r - 1] <= slice
    ensures forall i :: r <= i < |keys| ==> slice < keys[i]
  {
    if keys == [] then 0
    else if keys[|keys| - 1] <= slice then |keys|
    else ChildOf(keys[..|keys| - 1], slice)
  }

  function Lo(keys: seq<nat>, i: nat, lo: nat): nat
    requires i <= |keys|
  {
    if i == 0 then lo else keys[i - 1]
  }

  function Hi(keys: seq<nat>, i: nat, hi: nat): nat
    requires i <= |keys|
  {
    if i == |keys| then hi else keys[i]
  }

  // ----- the loops

  /** leaf_node::key_search. */
  method KeySearch(s: seq<Slot>, slice: nat, len: nat) returns (i: int)
    requires SlotsSorted(s)
    ensures -1 <= i < |s|
    ensures i == -1 <==> !Has(s, slice, len)
    ensures i >= 0 ==> i == Rank(s, slice, len) - 1 && At(s[i], slice, len)
  {
    var lower, upper := 0, |s|;
    while lower < upper
      invariant 0 <= lower <= upper <= |s|
      invariant forall j :: 0 <= j < lower ==> Before(s[j], slice, len)
      invariant forall j :: upper <= j < |s| ==> !Before(s[j], slice, len) && !At(s[j], slice, len)
    {
      i := (lower + upper) / 2;
      if Before(s[i], slice, len) {
        lower := i + 1;
      } else if At(s[i], slice, len) {
        RankAt(s, slice, len, i + 1);
        return i;
      } else {
        upper := i;
      }
    }
    RankAt(s, slice, len, lower);
    return -1;
  }

  lemma {:induction false} RankAt(s: seq<Slot>, slice: nat, len: nat, r: nat)
    requires SlotsSorted(s) && r <= |s|
    requires r > 0 ==> Before(s[r - 1], slice, len) || At(s[r - 1], slice, len)
    requires r < |s| ==> !Before(s[r], slice, len) && !At(s[r], slice, len)
    ensures Rank(s, slice, len) == r
  {
  }

  /** internal_node::key_lower_bound_search, one added to its result. */
  method ChildSearch(keys: seq<nat>, slice: nat) returns (r: nat)
    requires KeysSorted(keys)
    ensures r == ChildOf(keys, slice)
  {
    var ret, lower, upper := -1, 0, |keys|;
    while lower < upper
      invariant 0 <= lower <= upper <= |keys| && ret == lower - 1
      invariant forall j :: 0 <= j < lower ==> keys[j] < slice
      invariant forall j :: upper <= j < |keys| ==> keys[j] > slice
    {
      var i := (lower + upper) / 2;
      if keys[i] == slice {
        ChildAt(keys, slice, i + 1);
        return i + 1;
      } else if keys[i] > slice {
        upper := i;
      } else {
        ret, lower := i, i + 1;
      }
    }
    ChildAt(keys, slice, lower);
    return ret + 1;
  }

  lemma {:induction false} ChildAt(keys: seq<nat>, slice: nat, r: nat)
    requires KeysSorted(keys) && r <= |keys|
    requires r > 0 ==> keys[r - 1] <= slice
    requires r < |keys| ==> slice < keys[r]
    ensures ChildOf(keys, slice) == r
  {
  }

  /** leaf_node::key_lower_bound_search for length 0, as FindRespLeafLowerBound uses it. */
  method LowerBound(s: seq<Slot>, slice: nat) returns (ret: int)
    requires SlotsSorted(s)
    ensures ret == Rank(s, slice, 0) - 1
  {
    ret := -1;
    var lower, upper := 0, |s|;
    while lower < upper
      invariant 0 <= lower <= upper <= |s| && ret == lower - 1
      invariant forall j :: 0 <= j < lower ==> Before(s[j], slice, 0)
      invariant forall j :: upper <= j < |s| ==> !Before(s[j], slice, 0) && !At(s[j], slice, 0)
    {
      var i := (lower + upper) / 2;
      if Before(s[i], slice, 0) {
        ret, lower := i, i + 1;
      } else if At(s[i], slice, 0) {
        RankAt(s, slice, 0, i + 1);
        return i;
      } else {
        upper := i;
      }
    }
    RankAt(s, slice, 0, lower);
  }

  lemma StaysAfter(s: seq<Slot>, i: nat, j: nat, slice: nat, len: nat)
    requires SlotsSorted(s) && i < j < |s| && s[i].slice == slice && s[i].len > len
    ensures !Before(s[j], slice, len) && !At(s[j], slice, len) && s[j].slice >= slice
  {
    assert Before(s[i], s[j].slice, s[j].len);
  }

  /** Nothing from i on is before a slice. */
  ghost predicate NoneBelow(s: seq<Slot>, i: int, slice: nat) {
    forall j :: 0 <= j < |s| && i <= j ==> s[j].slice >= slice
  }

  /** The last slot at or before a slice and length, told from its neighbour. */
  predicate IsPlace(s: seq<Slot>, p: int, slice: nat, len: nat) {
    && -1 <= p < |s|
    && (p >= 0 ==> Before(s[p], slice, len) || At(s[p], slice, len))
    && (p + 1 < |s| ==> !Before(s[p + 1], slice, len) && !At(s[p + 1], slice, len))
  }

  /** The linear scan of FindRespLeafLowerBound, from the lower bound for length 0. */
  method Scan(s: seq<Slot>, slice: nat, len: nat, ret: int) returns (idxMatch: int, idxLowerBound: int)
    requires SlotsSorted(s) && NoneBelow(s, ret + 1, slice) && -1 <= ret < |s|
    requires ret >= 0 ==> Before(s[ret], slice, 0) || At(s[ret], slice, 0)
    ensures IsPlace(s, idxLowerBound, slice, len)
    ensures idxMatch == if idxLowerBound >= 0 && At(s[idxLowerBound], slice, len) then idxLowerBound else -1
  {
    idxMatch, idxLowerBound := -1, ret;
    var i := if ret == -1 then 0 else ret;
    while i < |s|
      invariant 0 <= i <= |s| && -1 <= ret <= idxLowerBound <= i && idxLowerBound < |s|
      invariant (i > ret ==> idxLowerBound < i)
      invariant idxLowerBound >= 0 ==> Before(s[idxLowerBound], slice, len) || At(s[idxLowerBound], slice, len)
      invariant idxLowerBound + 1 < i ==> s[idxLowerBound + 1].slice == slice && s[idxLowerBound + 1].len > len
      invariant idxMatch == if 0 <= idxLowerBound < i && At(s[idxLowerBound], slice, len) then idxLowerBound else -1
    {
      if idxLowerBound + 1 < i {
        StaysAfter(s, idxLowerBound + 1, i, slice, len);
      }
      if s[i].slice < slice {
      } else if s[i].slice == slice {
        if s[i].len <= len {
          idxLowerBound := i;
          if s[i].len == len {
            idxMatch := i;
          }
        }
      } else {
        break;
      }
      i := i + 1;
    }
  }

  /** FindRespLeafLowerBound within the responsible leaf: where a key is, and where it would go. */
  method FindInLeaf(s: seq<Slot>, slice: nat, len: nat) returns (idxMatch: int, idxLowerBound: int)
    requires SlotsSorted(s)
    ensures idxLowerBound == Rank(s, slice, len) - 1
    ensures idxMatch == if Has(s, slice, len) then Rank(s, slice, len) - 1 else -1
  {
    var ret := LowerBound(s, slice);
    idxMatch, idxLowerBound := Scan(s, slice, len, ret);
    RankAt(s, slice, len, idxLowerBound + 1);
  }

  // ----- search

  function Join(p: seq<seq<Slot>>): seq<Slot> {
    if p == [] then [] else p[0] + Join(p[1..])
  }

  /** The slots of a layer, from left to right. */
  function Flat(n: Node): seq<Slot>
    decreases n
  {
    match n
    case Leaf(_, _, slots) => slots
    case Internal(_, cs) => Join(seq(|cs|, i requires 0 <= i < |cs| => Flat(cs[i])))
  }

  /** Heights and array bounds fit, leaves are sorted, and layers hang where they may. */
  predicate Shape(n: Node, h: nat)
    decreases n
  {
    match n
    case Leaf(_, _, slots) =>
      h == 0 && |slots| <= FANOUT && SlotsSorted(slots) && forall i :: 0 <= i < |slots| ==> SlotShape(slots[i])
    case Internal(keys, cs) =>
      h > 0 && |cs| == |keys| + 1 && 1 <= |keys| <= FANOUT && forall i :: 0 <= i < |cs| ==>
        Shape(cs[i], h - 1) && NotEmpty(cs[i])
  }

  predicate NotEmpty(n: Node) { n.Leaf? ==> n.slots != [] }

  predicate SlotShape(x: Slot)
    decreases x
  {
    && x.len <= MAX_LEN
    && (x.entry.Layer? ==> x.len == MAX_LEN && Shape(x.entry.tree.root, x.entry.tree.height))
  }

  /** search_impl, from one node down. */
  function Search(n: Node, h: nat, k: Bytes): Option<Value>
    requires Shape(n, h)
    decreases |k|, h
  {
    match n
    case Internal(keys, cs) => Search(cs[ChildOf(keys, Slice(k))], h - 1, k)
    case Leaf(_, _, slots) =>
      if !Has(slots, Slice(k), SliceLen(k)) then None
      else
        var x := slots[Rank(slots, Slice(k), SliceLen(k)) - 1];
        assert SlotShape(x);
        match x.entry
        case Val(v, suffix) => if SliceLen(k) == MAX_LEN && suffix != Shift(k) then None else Some(v)
        case Layer(t) => Search(t.root, t.height, Shift(k))
  }

  function Lookup(t: Tree, k: Bytes): Option<Value>
    requires Shape(t.root, t.height)
  {
    Search(t.root, t.height, k)
  }

  // ----- remove

  function Without<T>(s: seq<T>, i: nat): seq<T>
    requires i < |s|
  {
    s[..i] + s[i + 1..]
  }

  /** What removing from a node does to it and its neighbours under the same parent. */
  datatype Removed =
    | Missing
    | Done(node: Node, got: Got)
    | FromLeft(left: Node, node: Node, key: nat, got: Got)     // stole from the left sibling
    | FromRight(node: Node, right: Node, key: nat, got: Got)   // stole from the right sibling
    | IntoLeft(left: Node, got: Got)                           // merged into the left sibling
    | WithRight(node: Node, got: Got)                          // merged with the right sibling
    | Replaced(node: Node, got: Got)                           // the root has one child left

  /** The value removed, and what became of the links. */
  datatype Got = Got(v: Value, edit: Edit)

  /** Neighbours are used only if they are there. */
  predicate Fits(r: Removed, left: Option<Node>, right: Option<Node>) {
    && (r.FromLeft? || r.IntoLeft? ==> left.Some?)
    && (r.FromRight? || r.WithRight? ==> right.Some?)
    && (r.Replaced? ==> left == None && right == None)
  }

  predicate LeafSibling(n: Option<Node>) { n.Some? ==> n.value.Leaf? && 1 <= |n.value.slots| <= FANOUT }

  predicate InternalSibling(n: Option<Node>) {
    n.Some? ==> n.value.Internal? && 1 <= |n.value.keys| <= FANOUT && |n.value.children| == |n.value.keys| + 1
  }

  /** Removes slot i of a leaf: steal from the right, merge with the right, steal from the left, merge with the left,
      or let the leaf run low. */
  function RemoveFromLeaf(id: nat, minKey: nat, s: seq<Slot>, i: nat, v: Value, left: Option<Node>,
                          right: Option<Node>): (r: Removed)
    requires i < |s| && LeafSibling(left) && LeafSibling(right)
    ensures !r.Missing? && !r.Replaced? && Fits(r, left, right) && r.got.v == v
  {
    var n, d, got := |s|, Without(s, i), Got(v, Keep);
    if n > LEAST then Done(Leaf(id, minKey, d), got)
    else if right.Some? then
      var q, p := right.value.slots, right.value.id;
      var steal := RightSplit(q, 1);
      if |q| > LEAST && n - 1 + steal <= FANOUT && steal < |q| then
        FromRight(Leaf(id, minKey, d + q[..steal]), Leaf(p, q[steal].slice, q[steal..]), q[steal].slice, got)
      else if |q| > LEAST && n - 1 + |q| > FANOUT then Done(Leaf(id, minKey, d), got)
      else WithRight(Leaf(id, minKey, d + q), Got(v, Joined(id, p)))
    else if left.Some? then
      var q, p := left.value.slots, left.value.id;
      var steal := LeftSplit(q, |q| - 1);
      if |q| > LEAST && n - 1 + (|q| - steal) <= FANOUT && steal > 0 then
        FromLeft(Leaf(p, left.value.minKey, q[..steal]), Leaf(id, q[steal].slice, q[steal..] + d), q[steal].slice, got)
      else if |q| > LEAST && |q| + (n - 1) > FANOUT then Done(Leaf(id, minKey, d), got)
      else IntoLeft(Leaf(p, left.value.minKey, q + d), Got(v, Joined(p, id)))
    else Done(Leaf(id, minKey, d), got)
  }

  /** Removes a key and a child of an internal node after two of its children merged. */
  function Shrink(keys: seq<nat>, cs: seq<Node>, delKey: nat, delChild: nat, minKey: nat, maxKey: nat, got: Got,
                  left: Option<Node>, right: Option<Node>): (r: Removed)
    requires delKey < |keys| && delChild < |cs| == |keys| + 1 && InternalSibling(left) && InternalSibling(right)
    ensures !r.Missing? && r.got == got && Fits(r, left, right)
  {
    var n, dk, dc := |keys|, Without(keys, delKey), Without(cs, delChild);
    if n > LEAST then Done(Internal(dk, dc), got)
    else if right.Some? then
      var q := right.value;
      if |q.keys| > LEAST then
        FromRight(Internal(dk + [maxKey], dc + [q.children[0]]), Internal(q.keys[1..], q.children[1..]), q.keys[0], got)
      else WithRight(Internal(dk + [maxKey] + q.keys, dc + q.children), got)
    else if left.Some? then
      var q := left.value;
      var l := |q.keys|;
      if l > LEAST then
        FromLeft(Internal(q.keys[..l - 1], q.children[..l]), Internal([minKey] + dk, [q.children[l]] + dc),
          q.keys[l - 1], got)
      else IntoLeft(Internal(q.keys + [minKey] + dk, q.children + dc), got)
    else if n == 1 then Replaced(dc[0], got)
    else Done(Internal(dk, dc), got)
  }

  function LeftOf(cs: seq<Node>, i: nat): Option<Node>
    requires i < |cs|
  {
    if i == 0 then None else Some(cs[i - 1])
  }

  function RightOf(cs: seq<Node>, i: nat): Option<Node>
    requires i < |cs|
  {
    if i == |cs| - 1 then None else Some(cs[i + 1])
  }

  /** What remove0 makes of its child's answer. */
  function Ascend(keys: seq<nat>, cs: seq<Node>, i: nat, sub: Removed, minKey: nat, maxKey: nat, left: Option<Node>,
                  right: Option<Node>): (r: Removed)
    requires i < |cs| == |keys| + 1 && |keys| >= 1 && InternalSibling(left) && InternalSibling(right)
    requires Fits(sub, LeftOf(cs, i), RightOf(cs, i))
    ensures Fits(r, left, right) && (r.Missing? <==> sub.Missing?) && (!sub.Missing? ==> r.got == sub.got)
  {
    match sub
    case Missing => Missing
    case Done(m, got) => Done(Internal(keys, cs[i := m]), got)
    case FromLeft(l, m, key, got) => Done(Internal(keys[i - 1 := key], cs[i - 1 := l][i := m]), got)
    case FromRight(m, q, key, got) => Done(Internal(keys[i := key], cs[i := m][i + 1 := q]), got)
    case IntoLeft(l, got) => Shrink(keys, cs[i - 1 := l], i - 1, i, minKey, maxKey, got, left, right)
    case WithRight(m, got) => Shrink(keys, cs[i := m], i, i + 1, minKey, maxKey, got, left, right)
    case Replaced(_, _) => assert false; Missing
  }

  predicate Sibling(n: Option<Node>, h: nat) { n.Some? ==> Shape(n.value, h) && NotEmpty(n.value) }

  /** remove0, between two keys and two neighbours. */
  function Remove(n: Node, h: nat, minKey: nat, maxKey: nat, k: Bytes, left: Option<Node>,
                  right: Option<Node>): (r: Removed)
    requires Shape(n, h) && Sibling(left, h) && Sibling(right, h)
    ensures Fits(r, left, right) && (r.Replaced? ==> h > 0)
    decreases |k|, h, 0
  {
    match n
    case Leaf(id, mk, s) =>
      if !Has(s, Slice(k), SliceLen(k)) then Missing
      else
        var i := Rank(s, Slice(k), SliceLen(k)) - 1;
        assert SlotShape(s[i]);
        if s[i].entry.Layer? then
          var sub := RemoveTree(s[i].entry.tree, Shift(k));
          if sub == None then Missing
          else Done(Leaf(id, mk, s[i := s[i].(entry := Layer(sub.value.0))]), Got(sub.value.1, Keep))
        else if SliceLen(k) == MAX_LEN && s[i].entry.suffix != Shift(k) then Missing
        else RemoveFromLeaf(id, mk, s, i, s[i].entry.v, left, right)
    case Internal(keys, cs) =>
      var i := ChildOf(keys, Slice(k));
      var sub := Remove(cs[i], h - 1, Lo(keys, i, minKey), Hi(keys, i, maxKey), k, LeftOf(cs, i), RightOf(cs, i));
      Ascend(keys, cs, i, sub, minKey, maxKey, left, right)
  }

  /** remove_stable_location: the tree without a key it held, and the value. */
  function RemoveTree(t: Tree, k: Bytes): Option<(Tree, Value)>
    requires Shape(t.root, t.height)
    decreases |k|, t.height, 1
  {
    match Remove(t.root, t.height, 0, END, k, None, None)
    case Missing => None
    case Done(n, got) => Some((Tree(t.height, n, Relink(t.links, got.edit), t.unused), got.v))
    case Replaced(n, got) => Some((Tree(t.height - 1, n, Relink(t.links, got.edit), t.unused), got.v))
  }

  // ----- invariant

  ghost predicate SlotOk(x: Slot)
    decreases x
  {
    && x.len <= MAX_LEN
    && (x.len < MAX_LEN ==> x.entry.Val? && x.entry.suffix == [])
    && (x.len == MAX_LEN ==> match x.entry
                             case Val(_, suffix) => suffix != []
                             case Layer(t) => Valid(t.root, t.height, 0, END, true))
  }

  /** invariant_checker: order, bounds, uniform depth, separators and occupancy of a subtree responsible
      for the slices from lo up to hi. */
  ghost predicate Valid(n: Node, h: nat, lo: nat, hi: nat, root: bool)
    decreases n
  {
    match n
    case Leaf(_, minKey, slots) =>
      && h == 0 && minKey == lo && |slots| <= FANOUT && (!root ==> |slots| >= 1)
      && SlotsSorted(slots)
      && (forall i :: 0 <= i < |slots| ==> lo <= slots[i].slice < hi && SlotOk(slots[i]))
    case Internal(keys, cs) =>
      && h > 0 && |cs| == |keys| + 1 && |keys| <= FANOUT && |keys| >= (if root then 1 else LEAST)
      && KeysSorted(keys)
      && (forall i :: 0 <= i < |keys| ==> lo < keys[i] < hi)
      && (forall i :: 0 <= i < |cs| ==> Valid(cs[i], h - 1, Lo(keys, i, lo), Hi(keys, i, hi), false))
  }

  ghost predicate ValidTree(t: Tree) { Valid(t.root, t.height, 0, END, true) }

  lemma {:induction false} ValidHasShape(n: Node, h: nat, lo: nat, hi: nat, root: bool)
    requires Valid(n, h, lo, hi, root)
    ensures Shape(n, h)
    decreases n
  {
    if n.Internal? {
      forall i | 0 <= i < |n.children| ensures Shape(n.children[i], h - 1) && NotEmpty(n.children[i]) {
        ValidHasShape(n.children[i], h - 1, Lo(n.keys, i, lo), Hi(n.keys, i, hi), false);
      }
    } else {
      forall i | 0 <= i < |n.slots| ensures SlotShape(n.slots[i]) {
        SlotHasShape(n.slots[i]);
      }
    }
  }

  lemma {:induction false} SlotHasShape(x: Slot)
    requires SlotOk(x)
    ensures SlotShape(x)
    decreases x
  {
    if x.entry.Layer? {
      ValidHasShape(x.entry.tree.root, x.entry.tree.height, 0, END, true);
    }
  }

  // ----- splitting a full leaf

  /** The start of the slice group around the middle: left_split_point. */
  function LeftSplit(s: seq<Slot>, p: nat): (r: nat)
    requires p < |s|
    ensures r <= p && s[r].slice == s[p].slice && (r > 0 ==> s[r - 1].slice != s[r].slice)
    ensures forall i :: r <= i <= p ==> s[i].slice == s[p].slice
  {
    if p > 0 && s[p - 1].slice == s[p].slice then LeftSplit(s, p - 1) else p
  }

  /** The end of the slice group before the middle: right_split_point. */
  function RightSplit(s: seq<Slot>, p: nat): (r: nat)
    requires 0 < p <= |s|
    ensures p <= r <= |s| && (r < |s| ==> s[r - 1].slice != s[r].slice)
    ensures forall i :: p - 1 <= i < r ==> s[i].slice == s[p - 1].slice
    decreases |s| - p
  {
    if p < |s| && s[p - 1].slice == s[p].slice then RightSplit(s, p + 1) else p
  }

  function Min(a: int, b: int): int { if a < b then a else b }

  function SplitPoint(s: seq<Slot>): nat
    requires |s| == FANOUT
  {
    var l, r := LeftSplit(s, FANOUT / 2), RightSplit(s, FANOUT / 2);
    if Min(l, FANOUT - l) < Min(r, FANOUT - r) then r else l
  }

  /** The two loops that look for a split point, and the choice between their results. */
  method FindSplitPoint(s: seq<Slot>) returns (split: nat)
    requires |s| == FANOUT
    ensures split == SplitPoint(s)
  {
    var l, i := FANOUT / 2, FANOUT / 2 - 1;
    while i >= 0
      invariant -1 <= i == l - 1 && l <= FANOUT / 2 && LeftSplit(s, l) == LeftSplit(s, FANOUT / 2)
    {
      if s[i].slice != s[l].slice {
        break;
      }
      l := l - 1;
      i := i - 1;
    }
    var r, j := FANOUT / 2, FANOUT / 2 - 1;
    while j >= 0 && j < FANOUT - 1
      invariant FANOUT / 2 <= r <= FANOUT && j == r - 1 && RightSplit(s, r) == RightSplit(s, FANOUT / 2)
      decreases FANOUT - j
    {
      if s[j].slice != s[r].slice {
        break;
      }
      r := r + 1;
      j := j + 1;
    }
    split := if Min(l, FANOUT - l) < Min(r, FANOUT - r) then r else l;
  }

  /** In a sorted leaf the slots between two of one slice have that slice. */
  lemma SameGroup(s: seq<Slot>, i: nat, j: nat, l: nat)
    requires SlotsSorted(s) && i <= l <= j < |s| && s[i].slice == s[j].slice
    ensures s[l].slice == s[i].slice
  {
    assert i < l ==> Before(s[i], s[l].slice, s[l].len);
    assert l < j ==> Before(s[l], s[j].slice, s[j].len);
  }

  lemma {:induction false} RightSplitReaches(s: seq<Slot>, p: nat)
    requires SlotsSorted(s) && 0 < p <= |s|
    ensures RightSplit(s, p) == |s| <==> s[p - 1].slice == s[|s| - 1].slice
    decreases |s| - p
  {
    if s[p - 1].slice == s[|s| - 1].slice && p < |s| {
      SameGroup(s, p - 1, |s| - 1, p);
      RightSplitReaches(s, p + 1);
    } else if p < |s| && s[p - 1].slice == s[p].slice {
      RightSplitReaches(s, p + 1);
    }
  }

  /** The check after the second loop (silo/btree_impl.h:1139) reads one slot past a full leaf exactly when the seventh
      slot and the last are of one slice: then nine slots are, which a leaf may hold. */
  lemma SplitCheckReadsPast(s: seq<Slot>)
    requires |s| == FANOUT && SlotsSorted(s)
    ensures RightSplit(s, FANOUT / 2) == FANOUT <==> s[6].slice == s[14].slice
  {
    RightSplitReaches(s, FANOUT / 2);
  }

  /** Fifteen keys: the one-byte keys 0 to 5, and the byte 6 followed by up to eight zeros. */
  function NineKeys(i: nat): Bytes
    requires i < FANOUT
  {
    if i < 6 then [i] else [6] + seq(i - 6, _ => 0)
  }

  lemma {:induction false} ZerosAreZero(k: Bytes, n: nat)
    requires forall i :: 0 <= i < |k| ==> k[i] == 0
    ensures Front(k, n) == 0
    decreases n
  {
    if n > 0 {
      ZerosAreZero(Rest(k), n - 1);
      Circular.Scale(0, 0, Pow256(n - 1));
    }
  }

  lemma NineSlices(i: nat)
    requires i < FANOUT
    ensures Slice(NineKeys(i)) == (if i < 6 then i else 6) * Pow256(7)
    ensures SliceLen(NineKeys(i)) == if i < 6 then 1 else i - 5
  {
    ZerosAreZero(Rest(NineKeys(i)), 7);
  }

  /** A leaf with those keys is full, valid, and one the check reads past. */
  lemma NineOfOneReadsPast(s: seq<Slot>)
    requires |s| == FANOUT && forall i :: 0 <= i < FANOUT ==> s[i] == NewSlot(NineKeys(i), i)
    ensures Valid(Leaf(0, 0, s), 0, 0, END, true) && RightSplit(s, FANOUT / 2) == FANOUT
  {
    var p := Pow256(7);
    forall i | 0 <= i < FANOUT
      ensures s[i].slice == (if i < 6 then i else 6) * p && s[i].len == if i < 6 then 1 else i - 5
    {
      NineSlices(i);
    }
    forall i | 0 <= i < FANOUT ensures SlotOk(s[i]) && s[i].slice < END {
      if i == 14 { assert Shift(NineKeys(i)) == [0]; }
    }
    forall i, j | 0 <= i < j < FANOUT ensures Before(s[i], s[j].slice, s[j].len) {
      if i < 6 { assert s[j].slice == s[i].slice + ((if j < 6 then j else 6) - i) * p; }
    }
    SplitCheckReadsPast(s);
  }

  ghost predicate ShortSlots(s: seq<Slot>) {
    SlotsSorted(s) && forall i :: 0 <= i < |s| ==> s[i].len <= MAX_LEN
  }

  lemma LeafIsShort(id: nat, minKey: nat, s: seq<Slot>)
    requires Shape(Leaf(id, minKey, s), 0)
    ensures ShortSlots(s)
  {
    forall i | 0 <= i < |s| ensures s[i].len <= MAX_LEN {
      assert SlotShape(s[i]);
    }
  }

  /** Slots of one slice have different lengths, so there are at most ten of them. */
  lemma {:induction false} GroupIsSmall(s: seq<Slot>, i: nat, j: nat)
    requires ShortSlots(s) && i <= j < |s| && s[i].slice == s[j].slice
    ensures s[j].len >= s[i].len + (j - i) && j - i <= MAX_LEN
    decreases j - i
  {
    if i < j {
      assert Before(s[i], s[i + 1].slice, s[i + 1].len) && (i + 1 < j ==> Before(s[i + 1], s[j].slice, s[j].len));
      GroupIsSmall(s, i + 1, j);
    }
  }

  /** The split point is strictly inside the leaf and cuts no group of slots with one slice. */
  lemma SplitCutsNoGroup(s: seq<Slot>)
    requires |s| == FANOUT && ShortSlots(s)
    ensures 0 < SplitPoint(s) < FANOUT && s[SplitPoint(s) - 1].slice < s[SplitPoint(s)].slice
  {
    var l, r, p := LeftSplit(s, FANOUT / 2), RightSplit(s, FANOUT / 2), SplitPoint(s);
    if l < FANOUT / 2 {
      GroupIsSmall(s, l, r - 1);
    }
    assert Before(s[p - 1], s[p].slice, s[p].len);
  }

  /** Where the new slot stays in the old leaf, its place is not past the split point: what the source relies on. */
  lemma SplitIsLegal(s: seq<Slot>, x: Slot)
    requires |s| == FANOUT && ShortSlots(s)
    ensures 0 < SplitPoint(s) < FANOUT
    ensures var p, r := SplitPoint(s), Rank(s, x.slice, x.len);
            !(p <= r && s[p - 1].slice != x.slice) ==> r <= p
  {
    SplitCutsNoGroup(s);
    var p, r := SplitPoint(s), Rank(s, x.slice, x.len);
    if p < r {
      assert p < r - 1 ==> Before(s[p], s[r - 1].slice, s[r - 1].len);
    }
  }

  // ----- insert

  /** What an insertion hands to the parent: a new right node and the key in front of it. */
  datatype Up = Up(key: nat, node: Node)

  /** The node afterwards, its new right sibling if it split, whether a key was added, the value found, and what
      became of the links. */
  datatype Inserted = Inserted(node: Node, up: Option<Up>, added: bool, prior: Option<Value>, edit: Edit)

  function NewSlot(k: Bytes, v: Value): Slot {
    Slot(Slice(k), SliceLen(k), Val(v, if SliceLen(k) == MAX_LEN then Shift(k) else []))
  }

  /** A full leaf takes one more slot: if no leaf follows, a slice past its end goes into a new leaf of its own,
      otherwise the leaf splits. */
  function SplitLeaf(id: nat, minKey: nat, s: seq<Slot>, x: Slot, next: Option<nat>, unused: nat): Inserted
    requires |s| == FANOUT && ShortSlots(s)
  {
    SplitIsLegal(s, x);
    var r, e := Rank(s, x.slice, x.len), Added(id, unused);
    if next == None && s[FANOUT - 1].slice < x.slice then
      Inserted(Leaf(id, minKey, s), Some(Up(x.slice, Leaf(unused, x.slice, [x]))), true, None, e)
    else
      var p := SplitPoint(s);
      if p <= r && s[p - 1].slice != x.slice then
        var right := s[p..r] + [x] + s[r..];
        Inserted(Leaf(id, minKey, s[..p]), Some(Up(right[0].slice, Leaf(unused, right[0].slice, right))), true, None, e)
      else
        Inserted(Leaf(id, minKey, s[..r] + [x] + s[r..p]), Some(Up(s[p].slice, Leaf(unused, s[p].slice, s[p..]))), true,
          None, e)
  }

  /** A child split: the new key and child go in, and a full node splits in its turn. */
  function InsertChild(keys: seq<nat>, cs: seq<Node>, i: nat, u: Up): (Node, Option<Up>)
    requires |cs| == |keys| + 1 && i <= |keys| <= FANOUT
  {
    if |keys| < FANOUT then
      (Internal(keys[..i] + [u.key] + keys[i..], cs[..i + 1] + [u.node] + cs[i + 1..]), None)
    else if i < LEAST then
      (Internal(keys[..i] + [u.key] + keys[i..LEAST - 1], cs[..i + 1] + [u.node] + cs[i + 1..LEAST]),
       Some(Up(keys[LEAST - 1], Internal(keys[LEAST..], cs[LEAST..]))))
    else if i == LEAST then
      (Internal(keys[..LEAST], cs[..LEAST + 1]),
       Some(Up(u.key, Internal(keys[LEAST..], [u.node] + cs[LEAST + 1..]))))
    else
      (Internal(keys[..LEAST], cs[..LEAST + 1]),
       Some(Up(keys[LEAST], Internal(keys[LEAST + 1..i] + [u.key] + keys[i..],
                                     cs[LEAST + 1..i + 1] + [u.node] + cs[i + 1..]))))
  }

  /** insert0, with the links of the layer and an unused address. */
  function Insert(n: Node, h: nat, k: Bytes, v: Value, onlyIfAbsent: bool, links: map<nat, Link>, unused: nat): Inserted
    requires Shape(n, h)
    decreases |k|, h, 0
  {
    match n
    case Leaf(id, minKey, s) =>
      var r := Rank(s, Slice(k), SliceLen(k));
      if Has(s, Slice(k), SliceLen(k)) then
        var x := s[r - 1];
        assert SlotShape(x);
        match x.entry
        case Val(w, suffix) =>
          if SliceLen(k) < MAX_LEN || suffix == Shift(k) then
            Inserted(Leaf(id, minKey, if onlyIfAbsent then s else s[r - 1 := x.(entry := Val(v, suffix))]), None, false,
              Some(w), Keep)
          else
            var (t, _, prior) := InsertTree(Alone(Leaf(0, 0, [NewSlot(suffix, w)])), Shift(k), v, onlyIfAbsent);
            Inserted(Leaf(id, minKey, s[r - 1 := x.(entry := Layer(t))]), None, true, prior, Keep)
        case Layer(t) =>
          var (t', added, prior) := InsertTree(t, Shift(k), v, onlyIfAbsent);
          Inserted(Leaf(id, minKey, s[r - 1 := x.(entry := Layer(t'))]), None, added, prior, Keep)
      else if |s| < FANOUT then Inserted(Leaf(id, minKey, s[..r] + [NewSlot(k, v)] + s[r..]), None, true, None, Keep)
      else
        LeafIsShort(id, minKey, s);
        SplitLeaf(id, minKey, s, NewSlot(k, v), NextOf(links, id), unused)
    case Internal(keys, cs) =>
      var i := ChildOf(keys, Slice(k));
      var sub := Insert(cs[i], h - 1, k, v, onlyIfAbsent, links, unused);
      if sub.up == None then sub.(node := Internal(keys, cs[i := sub.node]), up := None)
      else
        var (m, up) := InsertChild(keys, cs[i := sub.node], i, sub.up.value);
        sub.(node := m, up := up)
  }

  /** insert_stable_location: a split of the root makes a new root. */
  function InsertTree(t: Tree, k: Bytes, v: Value, onlyIfAbsent: bool): (Tree, bool, Option<Value>)
    requires Shape(t.root, t.height)
    decreases |k|, t.height, 1
  {
    var r := Insert(t.root, t.height, k, v, onlyIfAbsent, t.links, t.unused);
    var links, unused := Relink(t.links, r.edit), if r.edit.Added? then t.unused + 1 else t.unused;
    match r.up
    case None => (Tree(t.height, r.node, links, unused), r.added, r.prior)
    case Some(u) => (Tree(t.height + 1, Internal([u.key], [r.node, u.node]), links, unused), r.added, r.prior)
  }
}
