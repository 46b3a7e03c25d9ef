/** Removal keeps the tree valid, through steals, merges and root changes, and changes exactly one slot. */
module BTreeRemove {
  import opened KeyOrder
  import opened BTree
  import opened BTreeRows
  import opened BTreeInsert

  /** What happens to the slot of a removed key: it goes, or its layer shrinks. */
  datatype Change = Drop | Set(x: Slot)

  function Apply(s: seq<Slot>, k: Bytes, c: Change): seq<Slot> {
    match c
    case Drop => Del(s, Slice(k), SliceLen(k))
    case Set(x) => Put(s, x)
  }

  function Loss(found: Option<Slot>, k: Bytes): Option<(Change, Value)>
    requires found.Some? ==> SlotShape(found.value) && At(found.value, Slice(k), SliceLen(k))
  {
    if found == None then None
    else if found.value.entry.Layer? then
      var sub := RemoveTree(found.value.entry.tree, Shift(k));
      if sub == None then None else Some((Set(found.value.(entry := Layer(sub.value.0))), sub.value.1))
    else if SliceLen(k) == MAX_LEN && found.value.entry.suffix != Shift(k) then None
    else Some((Drop, found.value.entry.v))
  }

  /** A neighbour under the same parent, between its own bounds. */
  ghost predicate Neighbour(n: Option<Node>, h: nat, lo: nat, hi: nat) {
    n.Some? ==> lo < hi && Valid(n.value, h, lo, hi, false)
  }

  function FlatOf(n: Option<Node>): seq<Slot> { if n.Some? then Flat(n.value) else [] }

  /** The nodes that come out are valid between the bounds that are left, and hold the wanted slots. */
  ghost predicate Leaves(r: Removed, h: nat, lo: nat, hi: nat, root: bool, left: Option<Node>, right: Option<Node>,
                         llo: nat, rhi: nat, want: seq<Slot>)
  {
    match r
    case Missing => false
    case Done(m, _) => Valid(m, h, lo, hi, root) && Flat(m) == want
    case FromLeft(l, m, key, _) =>
      && left.Some? && llo < key < hi && Valid(l, h, llo, key, false) && Valid(m, h, key, hi, false)
      && Flat(l) + Flat(m) == FlatOf(left) + want
    case FromRight(m, q, key, _) =>
      && right.Some? && lo < key < rhi && Valid(m, h, lo, key, false) && Valid(q, h, key, rhi, false)
      && Flat(m) + Flat(q) == want + FlatOf(right)
    case IntoLeft(l, _) => left.Some? && Valid(l, h, llo, hi, false) && Flat(l) == FlatOf(left) + want
    case WithRight(m, _) => right.Some? && Valid(m, h, lo, rhi, false) && Flat(m) == want + FlatOf(right)
    case Replaced(m, _) => root && h > 0 && Valid(m, h - 1, lo, hi, true) && Flat(m) == want
  }

  // ----- leaves

  lemma GoodConcat(a: seq<Slot>, b: seq<Slot>, lo: nat, mid: nat, hi: nat)
    requires Good(a, lo, mid) && Good(b, mid, hi) && lo <= mid <= hi
    ensures Good(a + b, lo, hi)
  {
  }

  lemma GoodWithout(s: seq<Slot>, lo: nat, hi: nat, i: nat)
    requires Good(s, lo, hi) && i < |s|
    ensures Good(Without(s, i), lo, hi)
  {
  }

  /** A run of slots over two neighbours cut anew between two slices. */
  lemma TwoLeaves(t: seq<Slot>, lo: nat, hi: nat, c: nat, a: nat, b: nat)
    requires Good(t, lo, hi) && 0 < c < |t| && t[c - 1].slice < t[c].slice && c <= FANOUT && |t| - c <= FANOUT
    ensures lo < t[c].slice < hi
    ensures Valid(Leaf(a, lo, t[..c]), 0, lo, t[c].slice, false)
    ensures Valid(Leaf(b, t[c].slice, t[c..]), 0, t[c].slice, hi, false)
    ensures t[..c] + t[c..] == t
  {
    CutGood(t, lo, hi, c);
  }

  lemma FromTheRight(lo: nat, d: seq<Slot>, hi: nat, q: seq<Slot>, rhi: nat, a: nat, b: nat)
    requires Good(d, lo, hi) && Valid(Leaf(b, hi, q), 0, hi, rhi, false) && lo < hi < rhi
    requires var steal := RightSplit(q, 1); |d| + steal <= FANOUT && steal < |q|
    ensures var steal := RightSplit(q, 1);
            && lo < q[steal].slice < rhi
            && Valid(Leaf(a, lo, d + q[..steal]), 0, lo, q[steal].slice, false)
            && Valid(Leaf(b, q[steal].slice, q[steal..]), 0, q[steal].slice, rhi, false)
            && (d + q[..steal]) + q[steal..] == d + q
  {
    var steal, t := RightSplit(q, 1), d + q;
    var c := |d| + steal;
    GoodConcat(d, q, lo, hi, rhi);
    assert t[c - 1] == q[steal - 1] && t[c] == q[steal] && Before(q[steal - 1], q[steal].slice, q[steal].len);
    TwoLeaves(t, lo, rhi, c, a, b);
    assert t[..c] == d + q[..steal] && t[c..] == q[steal..];
  }

  /** Two neighbours' slots, cut at a group boundary of the left one. */
  lemma CutInLeft(llo: nat, q: seq<Slot>, lo: nat, d: seq<Slot>, hi: nat, c: nat, a: nat, b: nat)
    requires Good(q, llo, lo) && Good(d, lo, hi) && llo < lo < hi && 0 < c < |q| && q[c - 1].slice < q[c].slice
    requires c <= FANOUT && |q| - c + |d| <= FANOUT
    ensures llo < q[c].slice < hi
    ensures Valid(Leaf(a, llo, q[..c]), 0, llo, q[c].slice, false)
    ensures Valid(Leaf(b, q[c].slice, q[c..] + d), 0, q[c].slice, hi, false)
    ensures q[..c] + (q[c..] + d) == q + d
  {
    var t := q + d;
    GoodConcat(q, d, llo, lo, hi);
    TwoLeaves(t, llo, hi, c, a, b);
    assert t[..c] == q[..c] && t[c..] == q[c..] + d;
  }

  lemma FromTheLeft(llo: nat, q: seq<Slot>, lo: nat, d: seq<Slot>, hi: nat, a: nat, b: nat)
    requires Valid(Leaf(a, llo, q), 0, llo, lo, false) && Good(d, lo, hi) && llo < lo < hi
    requires var steal := LeftSplit(q, |q| - 1); |d| + (|q| - steal) <= FANOUT && steal > 0
    ensures var steal := LeftSplit(q, |q| - 1);
            && llo < q[steal].slice < hi
            && Valid(Leaf(a, llo, q[..steal]), 0, llo, q[steal].slice, false)
            && Valid(Leaf(b, q[steal].slice, q[steal..] + d), 0, q[steal].slice, hi, false)
            && q[..steal] + (q[steal..] + d) == q + d
  {
    var steal := LeftSplit(q, |q| - 1);
    assert Before(q[steal - 1], q[steal].slice, q[steal].len);
    CutInLeft(llo, q, lo, d, hi, steal, a, b);
  }

  lemma LosesWithRight(id: nat, s: seq<Slot>, lo: nat, hi: nat, root: bool, i: nat, v: Value, left: Option<Node>,
                       right: Node, llo: nat, rhi: nat)
    requires Valid(Leaf(id, lo, s), 0, lo, hi, root) && i < |s| <= LEAST && lo < hi < rhi && LeafSibling(left)
    requires Valid(right, 0, hi, rhi, false) && !root
    ensures Leaves(RemoveFromLeaf(id, lo, s, i, v, left, Some(right)), 0, lo, hi, root, left, Some(right), llo, rhi,
      Without(s, i))
  {
    var n, d, q := |s|, Without(s, i), right.slots;
    GoodWithout(s, lo, hi, i);
    if |q| > LEAST && n - 1 + RightSplit(q, 1) <= FANOUT && RightSplit(q, 1) < |q| {
      FromTheRight(lo, d, hi, q, rhi, id, right.id);
    } else {
      GoodConcat(d, q, lo, hi, rhi);
    }
  }

  predicate StealsLeft(n: nat, q: seq<Slot>)
    requires q != []
  {
    |q| > LEAST && n - 1 + (|q| - LeftSplit(q, |q| - 1)) <= FANOUT && LeftSplit(q, |q| - 1) > 0
  }

  lemma StealLeftIs(id: nat, s: seq<Slot>, minKey: nat, i: nat, v: Value, left: Node)
    requires i < |s| <= LEAST && LeafSibling(Some(left)) && StealsLeft(|s|, left.slots)
    ensures var q := left.slots;
            var steal := LeftSplit(q, |q| - 1);
            RemoveFromLeaf(id, minKey, s, i, v, Some(left), None)
            == FromLeft(Leaf(left.id, left.minKey, q[..steal]), Leaf(id, q[steal].slice, q[steal..] + Without(s, i)),
              q[steal].slice, Got(v, Keep))
  {
  }

  lemma StealLeft(id: nat, s: seq<Slot>, lo: nat, hi: nat, i: nat, v: Value, left: Node, llo: nat, rhi: nat)
    requires Valid(Leaf(id, lo, s), 0, lo, hi, false) && i < |s| <= LEAST && llo < lo < hi
    requires Valid(left, 0, llo, lo, false) && StealsLeft(|s|, left.slots)
    ensures Leaves(RemoveFromLeaf(id, lo, s, i, v, Some(left), None), 0, lo, hi, false, Some(left), None, llo, rhi,
      Without(s, i))
  {
    StealLeftIs(id, s, lo, i, v, left);
    GoodWithout(s, lo, hi, i);
    FromTheLeft(llo, left.slots, lo, Without(s, i), hi, left.id, id);
  }

  lemma MergeLeft(id: nat, s: seq<Slot>, lo: nat, hi: nat, i: nat, v: Value, left: Node, llo: nat, rhi: nat)
    requires Valid(Leaf(id, lo, s), 0, lo, hi, false) && i < |s| <= LEAST && llo < lo < hi
    requires Valid(left, 0, llo, lo, false) && !StealsLeft(|s|, left.slots)
    ensures Leaves(RemoveFromLeaf(id, lo, s, i, v, Some(left), None), 0, lo, hi, false, Some(left), None, llo, rhi,
      Without(s, i))
  {
    GoodWithout(s, lo, hi, i);
    GoodConcat(left.slots, Without(s, i), llo, lo, hi);
  }

  lemma LosesWithLeft(id: nat, s: seq<Slot>, lo: nat, hi: nat, i: nat, v: Value, left: Node, llo: nat, rhi: nat)
    requires Valid(Leaf(id, lo, s), 0, lo, hi, false) && i < |s| <= LEAST && llo < lo < hi
    requires Valid(left, 0, llo, lo, false)
    ensures Leaves(RemoveFromLeaf(id, lo, s, i, v, Some(left), None), 0, lo, hi, false, Some(left), None, llo, rhi,
      Without(s, i))
  {
    if StealsLeft(|s|, left.slots) {
      StealLeft(id, s, lo, hi, i, v, left, llo, rhi);
    } else {
      MergeLeft(id, s, lo, hi, i, v, left, llo, rhi);
    }
  }

  /** Removing one slot of a leaf, with whatever help its neighbours give; a leaf that is not the root is never
      emptied. */
  lemma LeafLoses(id: nat, s: seq<Slot>, lo: nat, hi: nat, root: bool, i: nat, v: Value, left: Option<Node>,
                  right: Option<Node>, llo: nat, rhi: nat)
    requires Valid(Leaf(id, lo, s), 0, lo, hi, root) && i < |s| && lo < hi
    requires Neighbour(left, 0, llo, lo) && Neighbour(right, 0, hi, rhi) && (root <==> left == None && right == None)
    ensures LeafSibling(left) && LeafSibling(right)
    ensures Leaves(RemoveFromLeaf(id, lo, s, i, v, left, right), 0, lo, hi, root, left, right, llo, rhi, Without(s, i))
  {
    if |s| <= LEAST && right.Some? {
      LosesWithRight(id, s, lo, hi, root, i, v, left, right.value, llo, rhi);
    } else if |s| <= LEAST && left.Some? {
      LosesWithLeft(id, s, lo, hi, i, v, left.value, llo, rhi);
    } else {
      GoodWithout(s, lo, hi, i);
    }
  }

  // ----- internal nodes

  /** A non-root subtree may become a root. */
  lemma RootRelaxed(n: Node, h: nat, lo: nat, hi: nat)
    requires Valid(n, h, lo, hi, false)
    ensures Valid(n, h, lo, hi, true)
  {
  }

  lemma NodeFromRow(keys: seq<nat>, cs: seq<Node>, h: nat, lo: nat, hi: nat)
    requires h > 0 && Row(keys, cs, h - 1, lo, hi) && LEAST <= |keys| <= FANOUT
    ensures Valid(Internal(keys, cs), h, lo, hi, false) && Flat(Internal(keys, cs)) == FlatRow(cs)
  {
    ValidIsRow(keys, cs, h, lo, hi, false);
    FlatInternal(keys, cs);
  }

  lemma StealsFromRight(dk: seq<nat>, dc: seq<Node>, h: nat, lo: nat, hi: nat, q: Node, rhi: nat)
    requires h > 0 && Row(dk, dc, h - 1, lo, hi) && |dk| == LEAST - 1 && lo < hi < rhi
    requires Valid(q, h, hi, rhi, false) && q.Internal? && |q.keys| > LEAST
    ensures hi < q.keys[0] < rhi
    ensures Valid(Internal(dk + [hi], dc + [q.children[0]]), h, lo, q.keys[0], false)
    ensures Valid(Internal(q.keys[1..], q.children[1..]), h, q.keys[0], rhi, false)
  {
    ValidIsRow(q.keys, q.children, h, hi, rhi, false);
    var k0, c0 := q.keys[..0], q.children[..1];
    RowCut(q.keys, q.children, h - 1, hi, rhi, 0);
    RowMeet(dk, dc, k0, c0, h - 1, lo, hi, q.keys[0]);
    assert dk + [hi] + k0 == dk + [hi] && c0 == [q.children[0]];
    NodeFromRow(dk + [hi], dc + c0, h, lo, q.keys[0]);
    NodeFromRow(q.keys[1..], q.children[1..], h, q.keys[0], rhi);
  }

  /** A row without its last child, and that child alone. */
  lemma CutLast(keys: seq<nat>, cs: seq<Node>, h: nat, lo: nat, hi: nat)
    requires Row(keys, cs, h, lo, hi) && |keys| > 0 && lo < hi
    ensures var l := |keys|;
            && lo < keys[l - 1] < hi
            && Row(keys[..l - 1], cs[..l], h, lo, keys[l - 1]) && Row([], [cs[l]], h, keys[l - 1], hi)
  {
    var l := |keys|;
    RowCut(keys, cs, h, lo, hi, l - 1);
    assert keys[l..] == [] && cs[l..] == [cs[l]];
  }

  lemma TakesInFront(key: nat, c: Node, dk: seq<nat>, dc: seq<Node>, h: nat, lo: nat, hi: nat)
    requires h > 0 && Row([], [c], h - 1, lo, key) && Row(dk, dc, h - 1, key, hi) && lo < key < hi
    requires |dk| == LEAST - 1
    ensures Valid(Internal([key] + dk, [c] + dc), h, lo, hi, false)
  {
    RowMeet([], [c], dk, dc, h - 1, lo, key, hi);
    assert [] + [key] + dk == [key] + dk;
    NodeFromRow([key] + dk, [c] + dc, h, lo, hi);
  }

  lemma StealsFromLeft(dk: seq<nat>, dc: seq<Node>, h: nat, lo: nat, hi: nat, q: Node, llo: nat)
    requires h > 0 && Row(dk, dc, h - 1, lo, hi) && |dk| == LEAST - 1 && llo < lo < hi
    requires Valid(q, h, llo, lo, false) && q.Internal? && |q.keys| > LEAST
    ensures var l := |q.keys|;
            && llo < q.keys[l - 1] < lo
            && Valid(Internal(q.keys[..l - 1], q.children[..l]), h, llo, q.keys[l - 1], false)
            && Valid(Internal([lo] + dk, [q.children[l]] + dc), h, q.keys[l - 1], hi, false)
  {
    var l := |q.keys|;
    ValidIsRow(q.keys, q.children, h, llo, lo, false);
    CutLast(q.keys, q.children, h - 1, llo, lo);
    TakesInFront(lo, q.children[l], dk, dc, h, q.keys[l - 1], hi);
    NodeFromRow(q.keys[..l - 1], q.children[..l], h, llo, q.keys[l - 1]);
  }

  /** However two rows of children are cut anew, the slots underneath are the same. */
  lemma FlatRecut(k1: seq<nat>, c1: seq<Node>, k2: seq<nat>, c2: seq<Node>, d1: seq<Node>, d2: seq<Node>)
    requires c1 + c2 == d1 + d2
    ensures Flat(Internal(k1, c1)) + Flat(Internal(k2, c2)) == FlatRow(d1) + FlatRow(d2)
  {
    FlatInternal(k1, c1);
    FlatInternal(k2, c2);
    FlatRowConcat(c1, c2);
    FlatRowConcat(d1, d2);
  }

  lemma MergesWith(k1: seq<nat>, c1: seq<Node>, k2: seq<nat>, c2: seq<Node>, h: nat, lo: nat, mid: nat, hi: nat)
    requires h > 0 && Row(k1, c1, h - 1, lo, mid) && Row(k2, c2, h - 1, mid, hi) && lo < mid < hi
    requires LEAST <= |k1| + 1 + |k2| <= FANOUT
    ensures Valid(Internal(k1 + [mid] + k2, c1 + c2), h, lo, hi, false)
    ensures Flat(Internal(k1 + [mid] + k2, c1 + c2)) == FlatRow(c1) + FlatRow(c2)
  {
    RowMeet(k1, c1, k2, c2, h - 1, lo, mid, hi);
    NodeFromRow(k1 + [mid] + k2, c1 + c2, h, lo, hi);
    FlatRowConcat(c1, c2);
  }

  ghost predicate Loser(keys: seq<nat>, cs: seq<Node>, delKey: nat, delChild: nat, h: nat, lo: nat, hi: nat,
                        root: bool) {
    && h > 0 && delKey < |keys| && delChild < |cs| == |keys| + 1 && lo < hi
    && Row(Without(keys, delKey), Without(cs, delChild), h - 1, lo, hi)
    && |keys| <= FANOUT && |keys| >= (if root then 1 else LEAST)
  }

  lemma ShrinksAlone(keys: seq<nat>, cs: seq<Node>, delKey: nat, delChild: nat, h: nat, lo: nat, hi: nat, root: bool,
                     got: Got,
                     left: Option<Node>, right: Option<Node>, llo: nat, rhi: nat)
    requires Loser(keys, cs, delKey, delChild, h, lo, hi, root) && InternalSibling(left) && InternalSibling(right)
    requires |keys| > LEAST || (root && left == None && right == None)
    ensures Leaves(Shrink(keys, cs, delKey, delChild, lo, hi, got, left, right), h, lo, hi, root, left, right, llo, rhi,
                   FlatRow(Without(cs, delChild)))
  {
    var dk, dc := Without(keys, delKey), Without(cs, delChild);
    if |keys| > 1 {
      ValidIsRow(dk, dc, h, lo, hi, root);
      FlatInternal(dk, dc);
    } else {
      assert dc == [dc[0]];
      assert ChildOk(dk, dc, 0, h - 1, lo, hi);
      RootRelaxed(dc[0], h - 1, lo, hi);
      FlatRowOne(dc[0]);
    }
  }

  lemma ShrinkStealsRight(keys: seq<nat>, cs: seq<Node>, delKey: nat, delChild: nat, h: nat, lo: nat, hi: nat, got: Got,
                          left: Option<Node>, right: Node, llo: nat, rhi: nat)
    requires Loser(keys, cs, delKey, delChild, h, lo, hi, false) && InternalSibling(left) && |keys| == LEAST
    requires hi < rhi && Valid(right, h, hi, rhi, false) && |right.keys| > LEAST
    ensures Leaves(Shrink(keys, cs, delKey, delChild, lo, hi, got, left, Some(right)),
                   h, lo, hi, false, left, Some(right), llo, rhi, FlatRow(Without(cs, delChild)))
  {
    var dk, dc, q := Without(keys, delKey), Without(cs, delChild), right;
    FlatInternal(q.keys, q.children);
    StealsFromRight(dk, dc, h, lo, hi, q, rhi);
    assert (dc + [q.children[0]]) + q.children[1..] == dc + q.children;
    FlatRecut(dk + [hi], dc + [q.children[0]], q.keys[1..], q.children[1..], dc, q.children);
  }

  lemma ShrinksRight(keys: seq<nat>, cs: seq<Node>, delKey: nat, delChild: nat, h: nat, lo: nat, hi: nat, got: Got,
                     left: Option<Node>, right: Node, llo: nat, rhi: nat)
    requires Loser(keys, cs, delKey, delChild, h, lo, hi, false) && InternalSibling(left) && |keys| == LEAST
    requires hi < rhi && Valid(right, h, hi, rhi, false)
    ensures Leaves(Shrink(keys, cs, delKey, delChild, lo, hi, got, left, Some(right)),
                   h, lo, hi, false, left, Some(right), llo, rhi, FlatRow(Without(cs, delChild)))
  {
    if |right.keys| > LEAST {
      ShrinkStealsRight(keys, cs, delKey, delChild, h, lo, hi, got, left, right, llo, rhi);
    } else {
      FlatInternal(right.keys, right.children);
      ValidIsRow(right.keys, right.children, h, hi, rhi, false);
      MergesWith(Without(keys, delKey), Without(cs, delChild), right.keys, right.children, h, lo, hi, rhi);
    }
  }

  lemma ShrinkSteals(keys: seq<nat>, cs: seq<Node>, delKey: nat, delChild: nat, h: nat, lo: nat, hi: nat, got: Got,
                     left: Node, llo: nat, rhi: nat)
    requires Loser(keys, cs, delKey, delChild, h, lo, hi, false) && |keys| == LEAST
    requires llo < lo && Valid(left, h, llo, lo, false) && |left.keys| > LEAST
    ensures Leaves(Shrink(keys, cs, delKey, delChild, lo, hi, got, Some(left), None),
                   h, lo, hi, false, Some(left), None, llo, rhi, FlatRow(Without(cs, delChild)))
  {
    var dk, dc, q := Without(keys, delKey), Without(cs, delChild), left;
    var l := |q.keys|;
    StealsFromLeft(dk, dc, h, lo, hi, q, llo);
    assert q.children[..l] + ([q.children[l]] + dc) == q.children + dc;
    FlatRecut(q.keys[..l - 1], q.children[..l], [lo] + dk, [q.children[l]] + dc, q.children, dc);
    FlatInternal(q.keys, q.children);
  }

  lemma ShrinksLeft(keys: seq<nat>, cs: seq<Node>, delKey: nat, delChild: nat, h: nat, lo: nat, hi: nat, got: Got,
                    left: Node, llo: nat, rhi: nat)
    requires Loser(keys, cs, delKey, delChild, h, lo, hi, false) && |keys| == LEAST
    requires llo < lo && Valid(left, h, llo, lo, false)
    ensures Leaves(Shrink(keys, cs, delKey, delChild, lo, hi, got, Some(left), None),
                   h, lo, hi, false, Some(left), None, llo, rhi, FlatRow(Without(cs, delChild)))
  {
    if |left.keys| > LEAST {
      ShrinkSteals(keys, cs, delKey, delChild, h, lo, hi, got, left, llo, rhi);
    } else {
      var dk, dc, q := Without(keys, delKey), Without(cs, delChild), left;
      FlatInternal(q.keys, q.children);
      ValidIsRow(q.keys, q.children, h, llo, lo, false);
      MergesWith(q.keys, q.children, dk, dc, h, llo, lo, hi);
    }
  }

  /** A node that loses a key and a child, with whatever help its neighbours give. */
  lemma NodeShrinks(keys: seq<nat>, cs: seq<Node>, delKey: nat, delChild: nat, h: nat, lo: nat, hi: nat, root: bool,
                    got: Got,
                    left: Option<Node>, right: Option<Node>, llo: nat, rhi: nat)
    requires Loser(keys, cs, delKey, delChild, h, lo, hi, root)
    requires Neighbour(left, h, llo, lo) && Neighbour(right, h, hi, rhi) && (root <==> left == None && right == None)
    ensures InternalSibling(left) && InternalSibling(right)
    ensures Leaves(Shrink(keys, cs, delKey, delChild, lo, hi, got, left, right), h, lo, hi, root, left, right, llo, rhi,
                   FlatRow(Without(cs, delChild)))
  {
    if |keys| > LEAST || root {
      ShrinksAlone(keys, cs, delKey, delChild, h, lo, hi, root, got, left, right, llo, rhi);
    } else if right.Some? {
      ShrinksRight(keys, cs, delKey, delChild, h, lo, hi, got, left, right.value, llo, rhi);
    } else {
      ShrinksLeft(keys, cs, delKey, delChild, h, lo, hi, got, left.value, llo, rhi);
    }
  }

  /** Two neighbouring children change, with the key between them. */
  lemma TwoChildren(keys: seq<nat>, cs: seq<Node>, h: nat, lo: nat, hi: nat, root: bool, j: nat, key: nat, a: Node,
                    b: Node)
    requires Valid(Internal(keys, cs), h, lo, hi, root) && h > 0 && j + 1 < |cs|
    requires Lo(keys, j, lo) < key < Hi(keys, j + 1, hi)
    requires Valid(a, h - 1, Lo(keys, j, lo), key, false) && Valid(b, h - 1, key, Hi(keys, j + 1, hi), false)
    ensures Valid(Internal(keys[j := key], cs[j := a][j + 1 := b]), h, lo, hi, root)
  {
    ValidIsRow(keys, cs, h, lo, hi, root);
    PairIsRow(a, Up(key, b), h - 1, Lo(keys, j, lo), Hi(keys, j + 1, hi));
    RowSplice(keys, cs, h - 1, lo, hi, j, j + 2, [key], [a, b]);
    assert keys[..j] + [key] + keys[j + 1..] == keys[j := key];
    assert cs[..j] + [a, b] + cs[j + 2..] == cs[j := a][j + 1 := b];
    ValidIsRow(keys[j := key], cs[j := a][j + 1 := b], h, lo, hi, root);
  }

  lemma FlatTwoChildren(keys: seq<nat>, cs: seq<Node>, j: nat, a: Node, b: Node)
    requires j + 1 < |cs|
    ensures Flat(Internal(keys, cs[j := a][j + 1 := b]))
      == FlatRow(cs[..j]) + (Flat(a) + Flat(b)) + FlatRow(cs[j + 2..])
  {
    assert cs[..j] + [a, b] + cs[j + 2..] == cs[j := a][j + 1 := b];
    FlatInternal(keys, cs[j := a][j + 1 := b]);
    FlatAround(cs, j, j + 2, [a, b]);
    FlatRowTwo(a, b);
  }

  /** Two neighbouring children become one, and the key between them goes. */
  lemma MergedChildren(keys: seq<nat>, cs: seq<Node>, h: nat, lo: nat, hi: nat, j: nat, m: Node)
    requires Row(keys, cs, h, lo, hi) && j + 1 < |cs| && Valid(m, h, Lo(keys, j, lo), Hi(keys, j + 1, hi), false)
    ensures Row(Without(keys, j), Without(cs[j := m], j + 1), h, lo, hi)
    ensures FlatRow(Without(cs[j := m], j + 1)) == FlatRow(cs[..j]) + Flat(m) + FlatRow(cs[j + 2..])
  {
    assert ChildOk([], [m], 0, h, Lo(keys, j, lo), Hi(keys, j + 1, hi));
    RowSplice(keys, cs, h, lo, hi, j, j + 2, [], [m]);
    assert keys[..j] + [] + keys[j + 1..] == Without(keys, j);
    assert cs[..j] + [m] + cs[j + 2..] == Without(cs[j := m], j + 1);
    FlatAround(cs, j, j + 2, [m]);
    FlatRowOne(m);
  }

  /** The slots left of a child, with those of its left neighbour apart; and on the right. */
  lemma FlatNext(cs: seq<Node>, i: nat)
    requires i < |cs|
    ensures i > 0 ==> FlatRow(cs[..i]) == FlatRow(cs[..i - 1]) + Flat(cs[i - 1])
    ensures i + 1 < |cs| ==> FlatRow(cs[i + 1..]) == Flat(cs[i + 1]) + FlatRow(cs[i + 2..])
  {
    if i > 0 {
      FlatRowConcat(cs[..i - 1], [cs[i - 1]]);
      assert cs[..i] == cs[..i - 1] + [cs[i - 1]];
      FlatRowOne(cs[i - 1]);
    }
    if i + 1 < |cs| {
      FlatRowConcat([cs[i + 1]], cs[i + 2..]);
      assert cs[i + 1..] == [cs[i + 1]] + cs[i + 2..];
      FlatRowOne(cs[i + 1]);
    }
  }

  /** Bounds of the neighbours of child i. */
  function LeftLo(keys: seq<nat>, i: nat, lo: nat): nat
    requires i <= |keys|
  {
    if i == 0 then lo else Lo(keys, i - 1, lo)
  }

  function RightHi(keys: seq<nat>, i: nat, hi: nat): nat
    requires i <= |keys|
  {
    if i == |keys| then hi else Hi(keys, i + 1, hi)
  }

  lemma Regroup<T>(a: seq<T>, b: seq<T>, c: seq<T>, d: seq<T>)
    ensures a + (b + c) + d == (a + b) + c + d && a + (b + c) + d == a + b + (c + d)
  {
  }

  /** What the child's answer says, when the child is one of a row. */
  ghost predicate ChildLeaves(keys: seq<nat>, cs: seq<Node>, h: nat, lo: nat, hi: nat, i: nat, sub: Removed,
                              want: seq<Slot>)
    requires i < |cs| == |keys| + 1
  {
    && Fits(sub, LeftOf(cs, i), RightOf(cs, i))
    && Leaves(sub, h, Lo(keys, i, lo), Hi(keys, i, hi), false, LeftOf(cs, i), RightOf(cs, i), LeftLo(keys, i, lo),
         RightHi(keys, i, hi), want)
  }

  lemma ChildStoleLeft(keys: seq<nat>, cs: seq<Node>, h: nat, lo: nat, hi: nat, root: bool, i: nat, sub: Removed,
                       want: seq<Slot>)
    requires Valid(Internal(keys, cs), h, lo, hi, root) && h > 0 && i < |cs| && sub.FromLeft?
    requires ChildLeaves(keys, cs, h - 1, lo, hi, i, sub, want)
    ensures var m := Internal(keys[i - 1 := sub.key], cs[i - 1 := sub.left][i := sub.node]);
            Valid(m, h, lo, hi, root) && Flat(m) == FlatRow(cs[..i]) + want + FlatRow(cs[i + 1..])
  {
    FlatNext(cs, i);
    TwoChildren(keys, cs, h, lo, hi, root, i - 1, sub.key, sub.left, sub.node);
    FlatTwoChildren(keys[i - 1 := sub.key], cs, i - 1, sub.left, sub.node);
    Regroup(FlatRow(cs[..i - 1]), Flat(cs[i - 1]), want, FlatRow(cs[i + 1..]));
  }

  lemma ChildStoleRight(keys: seq<nat>, cs: seq<Node>, h: nat, lo: nat, hi: nat, root: bool, i: nat, sub: Removed,
                        want: seq<Slot>)
    requires Valid(Internal(keys, cs), h, lo, hi, root) && h > 0 && i < |cs| && sub.FromRight?
    requires ChildLeaves(keys, cs, h - 1, lo, hi, i, sub, want)
    ensures var m := Internal(keys[i := sub.key], cs[i := sub.node][i + 1 := sub.right]);
            Valid(m, h, lo, hi, root) && Flat(m) == FlatRow(cs[..i]) + want + FlatRow(cs[i + 1..])
  {
    FlatNext(cs, i);
    TwoChildren(keys, cs, h, lo, hi, root, i, sub.key, sub.node, sub.right);
    FlatTwoChildren(keys[i := sub.key], cs, i, sub.node, sub.right);
    Regroup(FlatRow(cs[..i]), want, Flat(cs[i + 1]), FlatRow(cs[i + 2..]));
  }

  lemma ChildWentLeft(keys: seq<nat>, cs: seq<Node>, h: nat, lo: nat, hi: nat, root: bool, i: nat, sub: Removed,
                      want: seq<Slot>)
    requires Valid(Internal(keys, cs), h, lo, hi, root) && h > 0 && i < |cs| && lo < hi && sub.IntoLeft?
    requires ChildLeaves(keys, cs, h - 1, lo, hi, i, sub, want)
    ensures Loser(keys, cs[i - 1 := sub.left], i - 1, i, h, lo, hi, root)
    ensures FlatRow(Without(cs[i - 1 := sub.left], i)) == FlatRow(cs[..i]) + want + FlatRow(cs[i + 1..])
  {
    ValidIsRow(keys, cs, h, lo, hi, root);
    FlatNext(cs, i);
    MergedChildren(keys, cs, h - 1, lo, hi, i - 1, sub.left);
    Regroup(FlatRow(cs[..i - 1]), Flat(cs[i - 1]), want, FlatRow(cs[i + 1..]));
  }

  lemma ChildTookRight(keys: seq<nat>, cs: seq<Node>, h: nat, lo: nat, hi: nat, root: bool, i: nat, sub: Removed,
                       want: seq<Slot>)
    requires Valid(Internal(keys, cs), h, lo, hi, root) && h > 0 && i < |cs| && lo < hi && sub.WithRight?
    requires ChildLeaves(keys, cs, h - 1, lo, hi, i, sub, want)
    ensures Loser(keys, cs[i := sub.node], i, i + 1, h, lo, hi, root)
    ensures FlatRow(Without(cs[i := sub.node], i + 1)) == FlatRow(cs[..i]) + want + FlatRow(cs[i + 1..])
  {
    ValidIsRow(keys, cs, h, lo, hi, root);
    FlatNext(cs, i);
    MergedChildren(keys, cs, h - 1, lo, hi, i, sub.node);
    Regroup(FlatRow(cs[..i]), want, Flat(cs[i + 1]), FlatRow(cs[i + 2..]));
  }

  /** Whatever the child answers, the node deals with it. */
  lemma NodeAscends(keys: seq<nat>, cs: seq<Node>, h: nat, lo: nat, hi: nat, root: bool, i: nat, sub: Removed,
                    want: seq<Slot>,
                    left: Option<Node>, right: Option<Node>, llo: nat, rhi: nat)
    requires Valid(Internal(keys, cs), h, lo, hi, root) && h > 0 && i < |cs| && lo < hi
    requires Neighbour(left, h, llo, lo) && Neighbour(right, h, hi, rhi) && (root <==> left == None && right == None)
    requires ChildLeaves(keys, cs, h - 1, lo, hi, i, sub, want)
    ensures InternalSibling(left) && InternalSibling(right)
    ensures Leaves(Ascend(keys, cs, i, sub, lo, hi, left, right), h, lo, hi, root, left, right, llo, rhi,
                   FlatRow(cs[..i]) + want + FlatRow(cs[i + 1..]))
  {
    match sub
    case Done(m, _) =>
      ChildReplaced(keys, cs, h, lo, hi, root, i, m);
      FlatReplaced(keys, cs, i, m);
    case FromLeft(_, _, _, _) => ChildStoleLeft(keys, cs, h, lo, hi, root, i, sub, want);
    case FromRight(_, _, _, _) => ChildStoleRight(keys, cs, h, lo, hi, root, i, sub, want);
    case IntoLeft(l, got) =>
      ChildWentLeft(keys, cs, h, lo, hi, root, i, sub, want);
      NodeShrinks(keys, cs[i - 1 := l], i - 1, i, h, lo, hi, root, got, left, right, llo, rhi);
    case WithRight(m, got) =>
      ChildTookRight(keys, cs, h, lo, hi, root, i, sub, want);
      NodeShrinks(keys, cs[i := m], i, i + 1, h, lo, hi, root, got, left, right, llo, rhi);
  }

  // ----- the whole removal

  /** A change in the responsible child's slots is a change in all the node's slots. */
  lemma ApplyInChild(keys: seq<nat>, cs: seq<Node>, h: nat, lo: nat, hi: nat, k: Bytes, c: Change)
    requires Row(keys, cs, h, lo, hi) && (c.Set? ==> c.x.slice == Slice(k))
    ensures var i := ChildOf(keys, Slice(k));
            Apply(Flat(Internal(keys, cs)), k, c) == FlatRow(cs[..i]) + Apply(Flat(cs[i]), k, c) + FlatRow(cs[i + 1..])
  {
    if c.Set? {
      PutInChild(keys, cs, h, lo, hi, c.x);
    } else {
      var i := ChildOf(keys, Slice(k));
      FlatInternal(keys, cs);
      FlatSplit(cs, i);
      ChildAround(keys, cs, h, lo, hi, Slice(k));
      DelAround(FlatRow(cs[..i]), Flat(cs[i]), FlatRow(cs[i + 1..]), Slice(k), SliceLen(k));
    }
  }

  /** Each child sits between its bounds, next to its neighbours. */
  lemma ChildNeighbours(keys: seq<nat>, cs: seq<Node>, h: nat, lo: nat, hi: nat, i: nat)
    requires Row(keys, cs, h, lo, hi) && lo < hi && i < |cs|
    ensures Lo(keys, i, lo) < Hi(keys, i, hi) && Valid(cs[i], h, Lo(keys, i, lo), Hi(keys, i, hi), false)
    ensures Neighbour(LeftOf(cs, i), h, LeftLo(keys, i, lo), Lo(keys, i, lo))
    ensures Neighbour(RightOf(cs, i), h, Hi(keys, i, hi), RightHi(keys, i, hi))
  {
    RowBounds(keys, cs, h, lo, hi, i);
    assert ChildOk(keys, cs, i, h, lo, hi);
    if i > 0 {
      RowBounds(keys, cs, h, lo, hi, i - 1);
      assert ChildOk(keys, cs, i - 1, h, lo, hi);
    }
    if i + 1 < |cs| {
      RowBounds(keys, cs, h, lo, hi, i + 1);
      assert ChildOk(keys, cs, i + 1, h, lo, hi);
    }
  }

  /** A removal with a given loss. */
  ghost predicate Removes(n: Node, h: nat, lo: nat, hi: nat, root: bool, k: Bytes, left: Option<Node>,
                          right: Option<Node>,
                          llo: nat, rhi: nat, l: Option<(Change, Value)>, r: Removed)
  {
    match l
    case None => r == Missing
    case Some(c) =>
      !r.Missing? && r.got.v == c.1 && Leaves(r, h, lo, hi, root, left, right, llo, rhi, Apply(Flat(n), k, c.0))
  }

  /** A layer that lost a key stays in its slot. */
  lemma {:induction false} LossOk(found: Option<Slot>, k: Bytes)
    requires found.Some? ==> SlotShape(found.value) && SlotOk(found.value) && At(found.value, Slice(k), SliceLen(k))
    ensures var l := Loss(found, k);
            l.Some? && l.value.0.Set? ==> SlotOk(l.value.0.x) && At(l.value.0.x, Slice(k), SliceLen(k))
    decreases |k|, 0, 0
  {
    if found.Some? && found.value.entry.Layer? {
      RemoveTreeOk(found.value.entry.tree, Shift(k));
    }
  }

  lemma {:induction false} LeafRemoves(id: nat, s: seq<Slot>, lo: nat, hi: nat, root: bool, k: Bytes,
                                       left: Option<Node>, right: Option<Node>, llo: nat, rhi: nat)
    requires Valid(Leaf(id, lo, s), 0, lo, hi, root) && Shape(Leaf(id, lo, s), 0) && lo <= Slice(k) < hi
    requires Neighbour(left, 0, llo, lo) && Neighbour(right, 0, hi, rhi) && (root <==> left == None && right == None)
    requires Sibling(left, 0) && Sibling(right, 0)
    requires var f := Find(s, k);
             && (f.Some? ==> SlotShape(f.value))
             && var l := Loss(f, k); l.Some? && l.value.0.Set? ==>
                  SlotOk(l.value.0.x) && At(l.value.0.x, Slice(k), SliceLen(k))
    ensures Removes(Leaf(id, lo, s), 0, lo, hi, root, k, left, right, llo, rhi, Loss(Find(s, k), k),
      Remove(Leaf(id, lo, s), 0, lo, hi, k, left, right))
  {
    var l := Loss(Find(s, k), k);
    if l.Some? {
      var i := Rank(s, Slice(k), SliceLen(k)) - 1;
      if l.value.0.Set? {
        PutGood(s, lo, hi, l.value.0.x);
      } else {
        assert Without(s, i) == Del(s, Slice(k), SliceLen(k));
        LeafLoses(id, s, lo, hi, root, i, s[i].entry.v, left, right, llo, rhi);
      }
    }
  }

  lemma {:induction false} RemoveDescends(keys: seq<nat>, cs: seq<Node>, h: nat, lo: nat, hi: nat, k: Bytes,
                                          left: Option<Node>, right: Option<Node>)
    requires Shape(Internal(keys, cs), h) && Sibling(left, h) && Sibling(right, h)
    ensures var i := ChildOf(keys, Slice(k));
            && Shape(cs[i], h - 1) && Sibling(LeftOf(cs, i), h - 1) && Sibling(RightOf(cs, i), h - 1)
            && Remove(Internal(keys, cs), h, lo, hi, k, left, right)
               == Ascend(keys, cs, i, Remove(cs[i], h - 1, Lo(keys, i, lo), Hi(keys, i, hi), k, LeftOf(cs, i),
                 RightOf(cs, i)), lo, hi, left, right)
  {
  }

  /** In an internal node the responsible child does the work. */
  lemma {:induction false} ChildRemoves(keys: seq<nat>, cs: seq<Node>, h: nat, lo: nat, hi: nat, root: bool, k: Bytes,
                                        left: Option<Node>, right: Option<Node>, llo: nat, rhi: nat, c: Change,
                                          sub: Removed)
    requires Valid(Internal(keys, cs), h, lo, hi, root) && h > 0 && lo < hi
    requires Neighbour(left, h, llo, lo) && Neighbour(right, h, hi, rhi) && (root <==> left == None && right == None)
    requires c.Set? ==> c.x.slice == Slice(k)
    requires var i := ChildOf(keys, Slice(k)); ChildLeaves(keys, cs, h - 1, lo, hi, i, sub, Apply(Flat(cs[i]), k, c))
    ensures InternalSibling(left) && InternalSibling(right)
    ensures Leaves(Ascend(keys, cs, ChildOf(keys, Slice(k)), sub, lo, hi, left, right), h, lo, hi, root, left, right,
                   llo, rhi, Apply(Flat(Internal(keys, cs)), k, c))
  {
    var i := ChildOf(keys, Slice(k));
    var want := Apply(Flat(cs[i]), k, c);
    ApplyInNode(keys, cs, h, lo, hi, root, k, c);
    NodeAscends(keys, cs, h, lo, hi, root, i, sub, want, left, right, llo, rhi);
  }

  lemma {:induction false} ApplyInNode(keys: seq<nat>, cs: seq<Node>, h: nat, lo: nat, hi: nat, root: bool, k: Bytes,
                                       c: Change)
    requires Valid(Internal(keys, cs), h, lo, hi, root) && (c.Set? ==> c.x.slice == Slice(k))
    ensures var i := ChildOf(keys, Slice(k));
            |cs| == |keys| + 1 && Apply(Flat(Internal(keys, cs)), k, c)
                                  == FlatRow(cs[..i]) + Apply(Flat(cs[i]), k, c) + FlatRow(cs[i + 1..])
  {
    ValidIsRow(keys, cs, h, lo, hi, root);
    ApplyInChild(keys, cs, h - 1, lo, hi, k, c);
  }

  lemma {:induction false} InternalRemoves(n: Node, h: nat, lo: nat, hi: nat, root: bool, k: Bytes,
                                           left: Option<Node>, right: Option<Node>, llo: nat, rhi: nat,
                                             l: Option<(Change, Value)>)
    requires Valid(n, h, lo, hi, root) && Shape(n, h) && n.Internal? && lo < hi
    requires Neighbour(left, h, llo, lo) && Neighbour(right, h, hi, rhi) && (root <==> left == None && right == None)
    requires Sibling(left, h) && Sibling(right, h)
    requires l.Some? && l.value.0.Set? ==> l.value.0.x.slice == Slice(k)
    requires var i := ChildOf(n.keys, Slice(k));
             var cl, cr := LeftOf(n.children, i), RightOf(n.children, i);
             && Sibling(cl, h - 1) && Sibling(cr, h - 1)
             && Removes(n.children[i], h - 1, Lo(n.keys, i, lo), Hi(n.keys, i, hi), false, k, cl, cr,
                  LeftLo(n.keys, i, lo), RightHi(n.keys, i, hi), l,
                        Remove(n.children[i], h - 1, Lo(n.keys, i, lo), Hi(n.keys, i, hi), k, cl, cr))
    ensures Removes(n, h, lo, hi, root, k, left, right, llo, rhi, l, Remove(n, h, lo, hi, k, left, right))
  {
    var keys, cs, i := n.keys, n.children, ChildOf(n.keys, Slice(k));
    var sub := Remove(cs[i], h - 1, Lo(keys, i, lo), Hi(keys, i, hi), k, LeftOf(cs, i), RightOf(cs, i));
    RemoveDescends(keys, cs, h, lo, hi, k, left, right);
    if l.Some? {
      ChildRemoves(keys, cs, h, lo, hi, root, k, left, right, llo, rhi, l.value.0, sub);
    }
  }

  lemma {:induction false} ChildShapes(keys: seq<nat>, cs: seq<Node>, h: nat, i: nat)
    requires Shape(Internal(keys, cs), h) && i < |cs|
    ensures h > 0 && |cs| == |keys| + 1 >= 2 && Shape(cs[i], h - 1) && Sibling(LeftOf(cs, i), h - 1)
    ensures Sibling(RightOf(cs, i), h - 1)
  {
  }

  /** The responsible child meets the same conditions as its parent. */
  lemma {:induction false} ChildReady(keys: seq<nat>, cs: seq<Node>, h: nat, lo: nat, hi: nat, root: bool, k: Bytes)
    requires Valid(Internal(keys, cs), h, lo, hi, root) && Shape(Internal(keys, cs), h) && lo <= Slice(k) < hi
    ensures var i := ChildOf(keys, Slice(k));
            var clo, chi := Lo(keys, i, lo), Hi(keys, i, hi);
            && Valid(cs[i], h - 1, clo, chi, false) && Shape(cs[i], h - 1) && clo <= Slice(k) < chi
            && Neighbour(LeftOf(cs, i), h - 1, LeftLo(keys, i, lo), clo)
            && Neighbour(RightOf(cs, i), h - 1, chi, RightHi(keys, i, hi))
            && (LeftOf(cs, i).Some? || RightOf(cs, i).Some?)
            && Sibling(LeftOf(cs, i), h - 1) && Sibling(RightOf(cs, i), h - 1)
            && Find(Flat(Internal(keys, cs)), k) == Find(Flat(cs[i]), k)
  {
    var i := ChildOf(keys, Slice(k));
    ChildShapes(keys, cs, h, i);
    ValidIsRow(keys, cs, h, lo, hi, root);
    ChildNeighbours(keys, cs, h - 1, lo, hi, i);
    FindInChild(keys, cs, h - 1, lo, hi, k);
  }

  /** Removing from a subtree, for whatever was found in it. */
  ghost predicate RemovesFrom(n: Node, h: nat, lo: nat, hi: nat, root: bool, k: Bytes, left: Option<Node>,
                              right: Option<Node>, llo: nat, rhi: nat)
    requires Shape(n, h) && Sibling(left, h) && Sibling(right, h)
  {
    forall f | f == Find(Flat(n), k) ::
      && (f.Some? ==> SlotShape(f.value) && SlotOk(f.value))
      && Removes(n, h, lo, hi, root, k, left, right, llo, rhi, Loss(f, k), Remove(n, h, lo, hi, k, left, right))
  }

  ghost predicate FoundFine(f: Option<Slot>, k: Bytes)
    requires f.Some? ==> At(f.value, Slice(k), SliceLen(k))
  {
    && (f.Some? ==> SlotShape(f.value) && SlotOk(f.value))
    && var l := Loss(f, k); l.Some? && l.value.0.Set? ==> SlotOk(l.value.0.x) && At(l.value.0.x, Slice(k), SliceLen(k))
  }

  /** The responsible child has answered. */
  ghost predicate ChildDone(n: Node, h: nat, lo: nat, hi: nat, k: Bytes)
    requires Shape(n, h) && n.Internal?
  {
    var keys, cs, i := n.keys, n.children, ChildOf(n.keys, Slice(k));
    && Sibling(LeftOf(cs, i), h - 1) && Sibling(RightOf(cs, i), h - 1)
    && Find(Flat(n), k) == Find(Flat(cs[i]), k)
    && RemovesFrom(cs[i], h - 1, Lo(keys, i, lo), Hi(keys, i, hi), false, k, LeftOf(cs, i), RightOf(cs, i),
         LeftLo(keys, i, lo), RightHi(keys, i, hi))
  }

  lemma {:induction false} RemoveOkHere(n: Node, h: nat, lo: nat, hi: nat, root: bool, k: Bytes, left: Option<Node>,
                                        right: Option<Node>, llo: nat, rhi: nat)
    requires Valid(n, h, lo, hi, root) && Shape(n, h) && lo <= Slice(k) < hi
    requires Neighbour(left, h, llo, lo) && Neighbour(right, h, hi, rhi) && (root <==> left == None && right == None)
    requires Sibling(left, h) && Sibling(right, h)
    requires FoundFine(Find(Flat(n), k), k) && (n.Internal? ==> ChildDone(n, h, lo, hi, k))
    ensures RemovesFrom(n, h, lo, hi, root, k, left, right, llo, rhi)
  {
    if n.Leaf? {
      LeafRemoves(n.id, n.slots, lo, hi, root, k, left, right, llo, rhi);
    } else {
      InternalRemoves(n, h, lo, hi, root, k, left, right, llo, rhi, Loss(Find(Flat(n), k), k));
    }
  }

  lemma {:induction false} ChildRemoveOk(keys: seq<nat>, cs: seq<Node>, h: nat, lo: nat, hi: nat, root: bool, k: Bytes)
    requires Valid(Internal(keys, cs), h, lo, hi, root) && Shape(Internal(keys, cs), h) && lo <= Slice(k) < hi
    ensures ChildDone(Internal(keys, cs), h, lo, hi, k)
    decreases |k|, h, 1
  {
    var i := ChildOf(keys, Slice(k));
    ChildReady(keys, cs, h, lo, hi, root, k);
    RemoveOk(cs[i], h - 1, Lo(keys, i, lo), Hi(keys, i, hi), false, k, LeftOf(cs, i), RightOf(cs, i),
             LeftLo(keys, i, lo), RightHi(keys, i, hi));
  }

  lemma {:induction false} FindIsFine(n: Node, h: nat, lo: nat, hi: nat, root: bool, k: Bytes)
    requires Valid(n, h, lo, hi, root) && Shape(n, h)
    ensures FoundFine(Find(Flat(n), k), k)
    decreases |k|, h, 1
  {
    FoundOk(n, h, lo, hi, root, k);
    LossOk(Find(Flat(n), k), k);
  }

  lemma {:induction false} RemoveOk(n: Node, h: nat, lo: nat, hi: nat, root: bool, k: Bytes, left: Option<Node>,
                                    right: Option<Node>, llo: nat, rhi: nat)
    requires Valid(n, h, lo, hi, root) && Shape(n, h) && lo <= Slice(k) < hi
    requires Neighbour(left, h, llo, lo) && Neighbour(right, h, hi, rhi) && (root <==> left == None && right == None)
    requires Sibling(left, h) && Sibling(right, h)
    ensures RemovesFrom(n, h, lo, hi, root, k, left, right, llo, rhi)
    decreases |k|, h, 2
  {
    FindIsFine(n, h, lo, hi, root, k);
    if n.Internal? {
      ChildRemoveOk(n.keys, n.children, h, lo, hi, root, k);
    }
    RemoveOkHere(n, h, lo, hi, root, k, left, right, llo, rhi);
  }

  /** A tree lost what its top layer's slot for the key says. */
  ghost predicate TreeLoses(t: Tree, k: Bytes, l: Option<(Change, Value)>, r: Option<(Tree, Value)>) {
    match l
    case None => r == None
    case Some(c) =>
      && r.Some? && r.value.1 == c.1 && ValidTree(r.value.0) && Shape(r.value.0.root, r.value.0.height)
      && Flat(r.value.0.root) == Apply(Flat(t.root), k, c.0)
  }

  lemma {:induction false} RootRemoves(t: Tree, k: Bytes, l: Option<(Change, Value)>)
    requires Shape(t.root, t.height)
    requires Removes(t.root, t.height, 0, END, true, k, None, None, 0, END, l,
      Remove(t.root, t.height, 0, END, k, None, None))
    ensures TreeLoses(t, k, l, RemoveTree(t, k))
  {
    var r := RemoveTree(t, k);
    if r.Some? {
      ValidHasShape(r.value.0.root, r.value.0.height, 0, END, true);
    }
  }

  /** Removing from a tree keeps it valid, and changes one slot of its top layer. */
  lemma {:induction false} RemoveTreeOk(t: Tree, k: Bytes)
    requires ValidTree(t) && Shape(t.root, t.height)
    ensures var f := Find(Flat(t.root), k);
            && (f.Some? ==> SlotShape(f.value) && SlotOk(f.value))
            && TreeLoses(t, k, Loss(f, k), RemoveTree(t, k))
    decreases |k|, t.height, 3
  {
    NewSlotOk(k, 0);
    RemoveOk(t.root, t.height, 0, END, true, k, None, None, 0, END);
    RootRemoves(t, k, Loss(Find(Flat(t.root), k), k));
  }
}
