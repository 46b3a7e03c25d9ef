/** Walking the linked leaves of a layer: from any leaf, searches and the responsible-leaf walk end where a descent from
    the root does (silo/btree_impl.h, search_impl and FindRespLeafNode). */
module BTreeWalk {
  import opened KeyOrder
  import opened BTree
  import opened BTreeRows
  import opened BTreeInsert
  import opened BTreeLinks
  import M = BTreeMap

  // ----- a strip of leaves

  /** Where the next leaf of a strip begins. */
  function NextMin(ls: seq<Node>, i: nat, hi: nat): nat
    requires i < |ls|
  {
    if i + 1 < |ls| && ls[i + 1].Leaf? then ls[i + 1].minKey else hi
  }

  /** Leaf i holds slices from its own min_key_ up to the next one's. */
  ghost predicate InStrip(ls: seq<Node>, i: nat, hi: nat)
    requires i < |ls|
  {
    && ls[i].Leaf? && ls[i].minKey < NextMin(ls, i, hi) && SlotsSorted(ls[i].slots)
    && forall j :: 0 <= j < |ls[i].slots| ==> ls[i].minKey <= ls[i].slots[j].slice < NextMin(ls, i, hi)
  }

  ghost predicate Strip(ls: seq<Node>, lo: nat, hi: nat) {
    && |ls| >= 1 && ls[0].Leaf? && ls[0].minKey == lo
    && forall i :: 0 <= i < |ls| ==> InStrip(ls, i, hi)
  }

  lemma StripConcat(a: seq<Node>, b: seq<Node>, lo: nat, mid: nat, hi: nat)
    requires Strip(a, lo, mid) && Strip(b, mid, hi)
    ensures Strip(a + b, lo, hi)
  {
    var c := a + b;
    forall i | 0 <= i < |c| ensures InStrip(c, i, hi) {
      if i < |a| {
        if i + 1 < |a| { assert InStrip(a, i + 1, mid); }
        assert InStrip(a, i, mid) && c[i] == a[i];
        assert (i + 1 < |c| ==> c[i + 1] == if i + 1 < |a| then a[i + 1] else b[i + 1 - |a|]);
      } else {
        assert InStrip(b, i - |a|, hi) && c[i] == b[i - |a|] && (i + 1 < |c| ==> c[i + 1] == b[i + 1 - |a|]);
      }
    }
  }

  /** The leaves of a valid node, with the min_key_ of each. */
  lemma {:induction false} LeavesStrip(n: Node, h: nat, lo: nat, hi: nat, root: bool)
    requires Valid(n, h, lo, hi, root) && lo < hi
    ensures Strip(LeavesOf(n), lo, hi)
    decreases h, 1
  {
    if n.Leaf? {
      assert LeavesOf(n) == [n];
      assert InStrip([n], 0, hi);
    } else {
      ValidIsRow(n.keys, n.children, h, lo, hi, root);
      LeavesInternal(n.keys, n.children);
      RowStrip(n.keys, n.children, h - 1, lo, hi);
    }
  }

  lemma {:induction false} RowStrip(keys: seq<nat>, cs: seq<Node>, h: nat, lo: nat, hi: nat)
    requires Row(keys, cs, h, lo, hi) && lo < hi
    ensures Strip(LeafRow(cs), lo, hi)
    decreases h + 1, 0, |cs|
  {
    var n := |keys|;
    assert Strip(LeavesOf(cs[n]), Lo(keys, n, lo), hi) by {
      assert ChildOk(keys, cs, n, h, lo, hi);
      LeavesStrip(cs[n], h, Lo(keys, n, lo), hi, false);
    }
    if n == 0 {
      assert cs == [cs[0]];
      LeafRowOne(cs[0]);
    } else {
      assert Strip(LeafRow(cs[..n]), lo, keys[n - 1]) by {
        RowCut(keys, cs, h, lo, hi, n - 1);
        RowStrip(keys[..n - 1], cs[..n], h, lo, keys[n - 1]);
      }
      StripLast(cs, n, lo, keys[n - 1], hi);
    }
  }

  lemma StripLast(cs: seq<Node>, n: nat, lo: nat, mid: nat, hi: nat)
    requires |cs| == n + 1 && Strip(LeafRow(cs[..n]), lo, mid) && Strip(LeavesOf(cs[n]), mid, hi)
    ensures Strip(LeafRow(cs), lo, hi)
  {
    StripConcat(LeafRow(cs[..n]), LeavesOf(cs[n]), lo, mid, hi);
    LastChild(cs, n);
  }

  lemma LastChild(cs: seq<Node>, n: nat)
    requires |cs| == n + 1
    ensures LeafRow(cs) == LeafRow(cs[..n]) + LeavesOf(cs[n])
  {
    assert cs == cs[..n] + [cs[n]];
    LeafRowConcat(cs[..n], [cs[n]]);
    LeafRowOne(cs[n]);
  }

  /** Leaf i is the one responsible for a slice. */
  predicate Responsible(ls: seq<Node>, i: nat, slice: nat, hi: nat)
    requires i < |ls|
  {
    ls[i].Leaf? && ls[i].minKey <= slice < NextMin(ls, i, hi)
  }

  lemma {:induction false} MinsAscend(ls: seq<Node>, lo: nat, hi: nat, i: nat, j: nat)
    requires Strip(ls, lo, hi) && i < j < |ls|
    ensures ls[i].Leaf? && ls[j].Leaf? && NextMin(ls, i, hi) <= ls[j].minKey
    decreases j - i
  {
    assert InStrip(ls, i, hi) && InStrip(ls, i + 1, hi);
    if i + 1 < j { MinsAscend(ls, lo, hi, i + 1, j); }
    assert InStrip(ls, j, hi);
  }

  /** Only one leaf is responsible. */
  lemma OneResponsible(ls: seq<Node>, lo: nat, hi: nat, i: nat, j: nat, slice: nat)
    requires Strip(ls, lo, hi) && i < |ls| && j < |ls| && Responsible(ls, i, slice, hi) && Responsible(ls, j, slice, hi)
    ensures i == j
  {
    if i < j { MinsAscend(ls, lo, hi, i, j); }
    if j < i { MinsAscend(ls, lo, hi, j, i); }
  }

  lemma {:induction false} SomeResponsible(ls: seq<Node>, lo: nat, hi: nat, slice: nat, n: nat) returns (i: nat)
    requires Strip(ls, lo, hi) && lo <= slice < hi && n < |ls| && slice < NextMin(ls, n, hi)
    ensures i <= n && Responsible(ls, i, slice, hi)
  {
    assert InStrip(ls, n, hi);
    if ls[n].minKey <= slice {
      i := n;
    } else {
      i := SomeResponsible(ls, lo, hi, slice, n - 1);
    }
  }

  // ----- a layer in memory

  /** The leaves by address, linked in order. */
  ghost predicate InMemory(leaf: map<nat, Node>, links: map<nat, Link>, ls: seq<Node>) {
    && Chained(links, IdsOf(ls))
    && (forall i :: 0 <= i < |ls| ==> IdOf(ls[i]) in leaf && leaf[IdOf(ls[i])] == ls[i])
  }

  /** Its neighbours' addresses, as a leaf knows them. */
  lemma AtLeaf(leaf: map<nat, Node>, links: map<nat, Link>, ls: seq<Node>, i: nat)
    requires InMemory(leaf, links, ls) && i < |ls|
    ensures var id := IdOf(ls[i]);
            && id in leaf && leaf[id] == ls[i] && id in links
            && links[id].prev == (if i == 0 then None else Some(IdOf(ls[i - 1])))
            && links[id].next == (if i == |ls| - 1 then None else Some(IdOf(ls[i + 1])))
            && (i > 0 ==> IdOf(ls[i - 1]) in leaf && leaf[IdOf(ls[i - 1])] == ls[i - 1])
            && (i + 1 < |ls| ==> IdOf(ls[i + 1]) in leaf && leaf[IdOf(ls[i + 1])] == ls[i + 1])
  {
    assert LinkedAt(links, IdsOf(ls), i);
  }

  lemma LeafWithId(leaf: map<nat, Node>, links: map<nat, Link>, ls: seq<Node>, id: nat) returns (i: nat)
    requires InMemory(leaf, links, ls) && id in links
    ensures i < |ls| && IdOf(ls[i]) == id
  {
    assert id in IdsOf(ls);
    i :| 0 <= i < |IdsOf(ls)| && IdsOf(ls)[i] == id;
  }

  /** The leaf at an address is the responsible one. */
  ghost predicate Resp(ls: seq<Node>, id: nat, slice: nat, hi: nat) {
    exists i :: 0 <= i < |ls| && IdOf(ls[i]) == id && Responsible(ls, i, slice, hi)
  }

  function Distance(i: nat, j: nat): nat { if i < j then j - i else i - j }

  /** The responsible leaf is to the left of one that begins above the slice, and to the right of one whose neighbour
      begins at or below it. */
  lemma GoesLeft(ls: seq<Node>, hi: nat, at: nat, goal: nat, slice: nat)
    requires Strip(ls, 0, hi) && at < |ls| && goal < |ls| && Responsible(ls, goal, slice, hi) && ls[at].Leaf?
    requires slice < ls[at].minKey
    ensures goal < at
  {
    if goal > at { MinsAscend(ls, 0, hi, at, goal); }
    assert InStrip(ls, at, hi);
  }

  lemma GoesRight(ls: seq<Node>, hi: nat, at: nat, goal: nat, slice: nat)
    requires Strip(ls, 0, hi) && at + 1 < |ls| && goal < |ls| && Responsible(ls, goal, slice, hi)
    requires ls[at + 1].Leaf? && slice >= ls[at + 1].minKey
    ensures goal > at
  {
    if goal <= at { MinsAscend(ls, 0, hi, goal, at + 1); }
  }

  /** FindRespLeafNode: from any leaf of the layer, the walk over prev_ and next_ ends at the responsible leaf. */
  method FindRespLeaf(leaf: map<nat, Node>, links: map<nat, Link>, ghost ls: seq<Node>, ghost hi: nat, start: nat,
                      slice: nat)
    returns (cur: nat)
    requires InMemory(leaf, links, ls) && Strip(ls, 0, hi) && slice < hi && start in links
    ensures cur in leaf && Resp(ls, cur, slice, hi)
  {
    cur := start;
    ghost var at := LeafWithId(leaf, links, ls, start);
    ghost var goal := SomeResponsible(ls, 0, hi, slice, |ls| - 1);
    AtLeaf(leaf, links, ls, at);
    while true
      invariant 0 <= at < |ls| && cur == IdOf(ls[at]) && cur in leaf && leaf[cur] == ls[at] && cur in links
      decreases Distance(at, goal)
    {
      AtLeaf(leaf, links, ls, at);
      assert InStrip(ls, at, hi);
      if slice < leaf[cur].minKey {
        var left := links[cur].prev;
        GoesLeft(ls, hi, at, goal, slice);
        AtLeaf(leaf, links, ls, at - 1);
        cur := left.value;
        at := at - 1;
      } else {
        var right := links[cur].next;
        if right.Some? { assert InStrip(ls, at + 1, hi); }
        if right.Some? && slice >= leaf[right.value].minKey {
          GoesRight(ls, hi, at, goal, slice);
          AtLeaf(leaf, links, ls, at + 1);
          cur := right.value;
          at := at + 1;
        } else {
          return;
        }
      }
    }
  }

  // ----- searching from any leaf

  lemma {:induction false} StripBounds(ls: seq<Node>, lo: nat, hi: nat)
    requires Strip(ls, lo, hi)
    ensures lo < hi && forall i :: 0 <= i < |FlatRow(ls)| ==> lo <= FlatRow(ls)[i].slice < hi
    decreases |ls|
  {
    var l := |ls| - 1;
    assert InStrip(ls, l, hi);
    FlatRowOne(ls[l]);
    if l == 0 {
      assert ls == [ls[0]];
    } else {
      StripCut(ls, lo, hi, l);
      StripBounds(ls[..l], lo, ls[l].minKey);
      assert ls == ls[..l] + [ls[l]];
      FlatRowConcat(ls[..l], [ls[l]]);
    }
  }

  lemma StripCut(ls: seq<Node>, lo: nat, hi: nat, i: nat)
    requires Strip(ls, lo, hi) && 0 < i < |ls|
    ensures ls[i].Leaf? && Strip(ls[..i], lo, ls[i].minKey) && Strip(ls[i..], ls[i].minKey, hi)
  {
    var a, b := ls[..i], ls[i..];
    assert InStrip(ls, i, hi);
    forall j | 0 <= j < |a| ensures InStrip(a, j, ls[i].minKey) { assert InStrip(ls, j, hi) && InStrip(ls, j + 1, hi); }
    forall j | 0 <= j < |b| ensures InStrip(b, j, hi) {
      assert InStrip(ls, i + j, hi);
      if j + 1 < |b| { assert b[j + 1] == ls[i + j + 1]; }
    }
  }

  /** What the strip says about a slice, the responsible leaf says. */
  lemma RespFinds(ls: seq<Node>, lo: nat, hi: nat, i: nat, k: Bytes)
    requires Strip(ls, lo, hi) && i < |ls| && Responsible(ls, i, Slice(k), hi)
    ensures Find(FlatRow(ls), k) == Find(ls[i].slots, k)
  {
    FlatSplit(ls, i);
    if i > 0 {
      StripCut(ls, lo, hi, i);
      StripBounds(ls[..i], lo, ls[i].minKey);
    } else {
      assert ls[..0] == [] && FlatRow(ls[..0]) == [];
    }
    if i + 1 < |ls| {
      assert InStrip(ls, i + 1, hi);
      StripCut(ls, lo, hi, i + 1);
      StripBounds(ls[i + 1..], ls[i + 1].minKey, hi);
    } else {
      assert ls[i + 1..] == [] && FlatRow(ls[i + 1..]) == [];
    }
    Around(FlatRow(ls[..i]), Flat(ls[i]), FlatRow(ls[i + 1..]), Slice(k), SliceLen(k));
  }

  /** search_impl within one layer, from any of its leaves: it looks in the leaf, and on a miss goes by min_key_, prev_,
      next_ and the right neighbour's min_key_; what it finds is what the layer holds for the key. */
  method SearchFrom(leaf: map<nat, Node>, links: map<nat, Link>, ghost ls: seq<Node>, ghost hi: nat, start: nat,
                    k: Bytes)
    returns (r: Option<Slot>)
    requires InMemory(leaf, links, ls) && Strip(ls, 0, hi) && Slice(k) < hi && start in links
    ensures r == Find(FlatRow(ls), k)
  {
    var cur, slice := start, Slice(k);
    ghost var at := LeafWithId(leaf, links, ls, start);
    ghost var goal := SomeResponsible(ls, 0, hi, slice, |ls| - 1);
    AtLeaf(leaf, links, ls, at);
    while true
      invariant 0 <= at < |ls| && cur == IdOf(ls[at]) && cur in leaf && leaf[cur] == ls[at] && cur in links
      decreases Distance(at, goal)
    {
      AtLeaf(leaf, links, ls, at);
      assert InStrip(ls, at, hi);
      var i := KeySearch(leaf[cur].slots, slice, SliceLen(k));
      if i >= 0 {
        RespFinds(ls, 0, hi, at, k);
        return Some(leaf[cur].slots[i]);
      } else if slice < leaf[cur].minKey {
        GoesLeft(ls, hi, at, goal, slice);
        AtLeaf(leaf, links, ls, at - 1);
        cur := links[cur].prev.value;
        at := at - 1;
      } else {
        var right := links[cur].next;
        if right.Some? { assert InStrip(ls, at + 1, hi); }
        if right.Some? && slice >= leaf[right.value].minKey {
          GoesRight(ls, hi, at, goal, slice);
          AtLeaf(leaf, links, ls, at + 1);
          cur := right.value;
          at := at + 1;
        } else {
          RespFinds(ls, 0, hi, at, k);
          return None;
        }
      }
    }
  }

  // ----- and the descent

  /** The leaf the internal nodes lead to. */
  function Descend(n: Node, h: nat, slice: nat): Node
    requires Shape(n, h)
    decreases h
  {
    match n
    case Leaf(_, _, _) => n
    case Internal(keys, cs) => Descend(cs[ChildOf(keys, slice)], h - 1, slice)
  }

  lemma {:induction false} FlatLeaves(n: Node)
    ensures FlatRow(LeavesOf(n)) == Flat(n)
    decreases n, 1
  {
    if n.Leaf? {
      assert LeavesOf(n) == [n];
      FlatRowOne(n);
    } else {
      LeavesInternal(n.keys, n.children);
      FlatInternal(n.keys, n.children);
      RowFlatLeaves(n, n.children);
    }
  }

  lemma {:induction false} RowFlatLeaves(n: Node, cs: seq<Node>)
    requires n.Internal? && |cs| <= |n.children| && cs == n.children[..|cs|]
    ensures FlatRow(LeafRow(cs)) == FlatRow(cs)
    decreases n, 0, |cs|
  {
    if cs == [] {
      assert LeafRow(cs) == [];
    } else {
      var l := |cs| - 1;
      assert cs[l] == n.children[l] && cs[..l] == n.children[..l] && cs == cs[..l] + [cs[l]];
      RowFlatLeaves(n, cs[..l]);
      FlatLeaves(cs[l]);
      LeafRowConcat(cs[..l], [cs[l]]);
      LeafRowOne(cs[l]);
      FlatRowConcat(LeafRow(cs[..l]), LeavesOf(cs[l]));
      FlatRowConcat(cs[..l], [cs[l]]);
      FlatRowOne(cs[l]);
    }
  }

  /** A leaf responsible within a stretch of a strip is responsible in the strip. */
  lemma RespAround(a: seq<Node>, b: seq<Node>, c: seq<Node>, mid: nat, hi: nat, i: nat, slice: nat)
    requires i < |b| && Responsible(b, i, slice, mid) && (c == [] ==> mid == hi)
    requires (c != [] ==> c[0].Leaf? && c[0].minKey == mid)
    requires forall j :: 0 <= j < |b| ==> b[j].Leaf?
    ensures Responsible(a + b + c, |a| + i, slice, hi)
  {
    var s := a + b + c;
    assert s[|a| + i] == b[i];
    if i + 1 < |b| {
      assert s[|a| + i + 1] == b[i + 1];
    } else if c != [] {
      assert s[|a| + i + 1] == c[0];
    }
  }

  /** A leaf responsible within a child is responsible in the node. */
  lemma InChild(keys: seq<nat>, cs: seq<Node>, h: nat, lo: nat, hi: nat, c: nat, j: nat, slice: nat)
    requires Row(keys, cs, h, lo, hi) && lo < hi && c < |cs| && j < |LeavesOf(cs[c])|
    requires Responsible(LeavesOf(cs[c]), j, slice, Hi(keys, c, hi))
    ensures var i := |LeafRow(cs[..c])| + j;
            i < |LeafRow(cs)| && LeafRow(cs)[i] == LeavesOf(cs[c])[j] && Responsible(LeafRow(cs), i, slice, hi)
  {
    var clo, chi, b := Lo(keys, c, lo), Hi(keys, c, hi), LeavesOf(cs[c]);
    LeafSplit(cs, c);
    RightStrip(keys, cs, h, lo, hi, c);
    RowBounds(keys, cs, h, lo, hi, c);
    assert ChildOk(keys, cs, c, h, lo, hi);
    LeavesStrip(cs[c], h, clo, chi, false);
    forall x | 0 <= x < |b| ensures b[x].Leaf? { assert InStrip(b, x, chi); }
    RespAround(LeafRow(cs[..c]), b, LeafRow(cs[c + 1..]), chi, hi, j, slice);
  }

  /** The child a slice leads to. */
  lemma ChildFor(keys: seq<nat>, cs: seq<Node>, h: nat, lo: nat, hi: nat, root: bool, slice: nat)
    requires Valid(Internal(keys, cs), h, lo, hi, root) && Shape(Internal(keys, cs), h) && lo <= slice < hi
    ensures var c := ChildOf(keys, slice);
            && h > 0 && |cs| == |keys| + 1 && Row(keys, cs, h - 1, lo, hi) && Shape(cs[c], h - 1)
            && Valid(cs[c], h - 1, Lo(keys, c, lo), Hi(keys, c, hi), false)
            && Lo(keys, c, lo) <= slice < Hi(keys, c, hi)
  {
    ValidIsRow(keys, cs, h, lo, hi, root);
    assert ChildOk(keys, cs, ChildOf(keys, slice), h - 1, lo, hi);
  }

  /** The descent from the root ends at the responsible leaf, so the walk from there stays there. */
  lemma {:induction false} DescentIsResponsible(n: Node, h: nat, lo: nat, hi: nat, root: bool,
                                                slice: nat) returns (i: nat)
    requires Valid(n, h, lo, hi, root) && Shape(n, h) && lo <= slice < hi
    ensures i < |LeavesOf(n)| && LeavesOf(n)[i] == Descend(n, h, slice) && Responsible(LeavesOf(n), i, slice, hi)
    decreases h, 1
  {
    if n.Leaf? {
      assert LeavesOf(n) == [n];
      i := 0;
    } else {
      i := ChildIsResponsible(n.keys, n.children, h, lo, hi, root, slice);
      LeavesInternal(n.keys, n.children);
    }
  }

  lemma {:induction false} ChildIsResponsible(keys: seq<nat>, cs: seq<Node>, h: nat, lo: nat, hi: nat, root: bool,
                                              slice: nat) returns (i: nat)
    requires Valid(Internal(keys, cs), h, lo, hi, root) && Shape(Internal(keys, cs), h) && lo <= slice < hi
    ensures i < |LeafRow(cs)| && LeafRow(cs)[i] == Descend(Internal(keys, cs), h, slice)
    ensures Responsible(LeafRow(cs), i, slice, hi)
    decreases h, 0
  {
    var c := ChildOf(keys, slice);
    ChildFor(keys, cs, h, lo, hi, root, slice);
    var j := DescentIsResponsible(cs[c], h - 1, Lo(keys, c, lo), Hi(keys, c, hi), false, slice);
    InChild(keys, cs, h - 1, lo, hi, c, j, slice);
    i := |LeafRow(cs[..c])| + j;
  }

  lemma LeafSplit(cs: seq<Node>, i: nat)
    requires i < |cs|
    ensures LeafRow(cs) == LeafRow(cs[..i]) + LeavesOf(cs[i]) + LeafRow(cs[i + 1..])
  {
    assert cs == cs[..i] + [cs[i]] + cs[i + 1..];
    LeafRowConcat(cs[..i] + [cs[i]], cs[i + 1..]);
    LeafRowConcat(cs[..i], [cs[i]]);
    LeafRowOne(cs[i]);
  }

  /** The leaves right of a child begin where the child ends. */
  lemma RightStrip(keys: seq<nat>, cs: seq<Node>, h: nat, lo: nat, hi: nat, c: nat)
    requires Row(keys, cs, h, lo, hi) && lo < hi && c < |cs|
    ensures var r := LeafRow(cs[c + 1..]);
            && (r == [] ==> Hi(keys, c, hi) == hi)
            && (r != [] ==> r[0].Leaf? && r[0].minKey == Hi(keys, c, hi))
  {
    if c < |keys| {
      RowCut(keys, cs, h, lo, hi, c);
      RowStrip(keys[c + 1..], cs[c + 1..], h, keys[c], hi);
    } else {
      assert cs[c + 1..] == [] && LeafRow(cs[c + 1..]) == [];
    }
  }

  /** In a layer whose links are its list of leaves, a search from any leaf answers as the search from the root. */
  lemma LayerIsWalkable(t: Tree, leaf: map<nat, Node>, k: Bytes)
    requires ValidTree(t) && Shape(t.root, t.height) && LinksOk(t)
    requires forall i :: 0 <= i < |LeavesOf(t.root)| ==>
      IdOf(LeavesOf(t.root)[i]) in leaf && leaf[IdOf(LeavesOf(t.root)[i])] == LeavesOf(t.root)[i]
    ensures InMemory(leaf, t.links, LeavesOf(t.root)) && Strip(LeavesOf(t.root), 0, END) && Slice(k) < END
    ensures var f := Find(FlatRow(LeavesOf(t.root)), k);
            Lookup(t, k) == if f == None then None else ReadEntry(f.value.entry, k)
  {
    LeavesStrip(t.root, t.height, 0, END, true);
    FlatLeaves(t.root);
    SearchReads(t.root, t.height, 0, END, true, k);
    NewSlotOk(k, 0);
  }

  /** Only the last leaf of a layer has no next_: an append split happens at the end of the layer and nowhere else. */
  lemma NoNextIsLast(t: Tree, i: nat)
    requires LinksOk(t) && i < |Ids(t.root)|
    ensures NextOf(t.links, Ids(t.root)[i]) == None <==> i == |Ids(t.root)| - 1
  {
    assert LinkedAt(t.links, Ids(t.root), i);
  }

  /** After any run of operations from the empty tree the links of every layer are the list of its leaves. */
  lemma {:induction false} RunIsLinked(ts: seq<Tree>, ops: seq<M.Op>, answers: seq<M.Answer>, n: nat)
    requires M.RunOf(ts, ops, answers) && n <= |ops|
    ensures ValidTree(ts[n]) && LinksOk(ts[n])
  {
    M.RunAgrees(ts, ops, answers, n);
    if n == 0 {
      AloneLinked([]);
    } else {
      RunIsLinked(ts, ops, answers, n - 1);
      M.RunAgrees(ts, ops, answers, n - 1);
      assert M.Performed(ts[n - 1], ops[n - 1], ts[n - 1 + 1], answers[n - 1]);
      StepIsLinked(ts[n - 1], ops[n - 1]);
    }
  }

  lemma StepIsLinked(t: Tree, op: M.Op)
    requires ValidTree(t) && M.Sane(t) && LinksOk(t)
    ensures LinksOk(M.Perform(t, op).0)
  {
    match op
    case OpInsert(k, v, onlyIfAbsent) => InsertKeepsLinks(t, k, v, onlyIfAbsent);
    case OpRemove(k) => RemoveKeepsLinks(t, k);
    case OpSearch(_) =>
  }
}
