/** Rows of siblings: the keys and children of an internal node, without its occupancy limits, and what
    replacing a stretch of them does to validity and to the slots underneath. */
module BTreeRows {
  import opened KeyOrder
  import opened BTree

  ghost predicate Row(keys: seq<nat>, cs: seq<Node>, h: nat, lo: nat, hi: nat) {
    && |cs| == |keys| + 1 && KeysSorted(keys)
    && (forall i :: 0 <= i < |keys| ==> lo < keys[i] < hi)
    && (forall i :: 0 <= i < |cs| ==> ChildOk(keys, cs, i, h, lo, hi))
  }

  ghost predicate ChildOk(keys: seq<nat>, cs: seq<Node>, i: nat, h: nat, lo: nat, hi: nat)
    requires i < |cs| == |keys| + 1
  {
    Valid(cs[i], h, Lo(keys, i, lo), Hi(keys, i, hi), false)
  }

  lemma ValidIsRow(keys: seq<nat>, cs: seq<Node>, h: nat, lo: nat, hi: nat, root: bool)
    ensures Valid(Internal(keys, cs), h, lo, hi, root) <==>
      h > 0 && Row(keys, cs, h - 1, lo, hi) && |keys| <= FANOUT && |keys| >= (if root then 1 else LEAST)
  {
    if h > 0 && |cs| == |keys| + 1 {
      forall i | 0 <= i < |cs| ensures ChildOk(keys, cs, i, h - 1, lo, hi)
        <==> Valid(cs[i], h - 1, Lo(keys, i, lo), Hi(keys, i, hi), false) {}
    }
  }

  /** The key on each side of child i. */
  lemma RowBounds(keys: seq<nat>, cs: seq<Node>, h: nat, lo: nat, hi: nat, i: nat)
    requires Row(keys, cs, h, lo, hi) && lo < hi && i <= |keys|
    ensures lo <= Lo(keys, i, lo) < Hi(keys, i, hi) <= hi
  {
  }

  /** Children i up to j, with the keys between them, give way to another row with the same bounds. */
  lemma RowSplice(keys: seq<nat>, cs: seq<Node>, h: nat, lo: nat, hi: nat, i: nat, j: nat, mk: seq<nat>, mc: seq<Node>)
    requires Row(keys, cs, h, lo, hi) && i < j <= |cs| && Row(mk, mc, h, Lo(keys, i, lo), Hi(keys, j - 1, hi))
    ensures Row(keys[..i] + mk + keys[j - 1..], cs[..i] + mc + cs[j..], h, lo, hi)
  {
    var k2, c2 := keys[..i] + mk + keys[j - 1..], cs[..i] + mc + cs[j..];
    SpliceKeys(keys, lo, hi, i, j, mk);
    forall x | 0 <= x < |c2| ensures ChildOk(k2, c2, x, h, lo, hi) {
      if x < i {
        assert ChildOk(keys, cs, x, h, lo, hi);
      } else if x < i + |mc| {
        assert ChildOk(mk, mc, x - i, h, Lo(keys, i, lo), Hi(keys, j - 1, hi));
      } else {
        assert ChildOk(keys, cs, x - i - |mc| + j, h, lo, hi);
      }
    }
  }

  lemma SpliceKeys(keys: seq<nat>, lo: nat, hi: nat, i: nat, j: nat, mk: seq<nat>)
    requires KeysSorted(keys) && (forall x :: 0 <= x < |keys| ==> lo < keys[x] < hi) && i < j <= |keys| + 1
    requires KeysSorted(mk) && (forall x :: 0 <= x < |mk| ==> Lo(keys, i, lo) < mk[x] < Hi(keys, j - 1, hi))
    ensures var k2 := keys[..i] + mk + keys[j - 1..];
            KeysSorted(k2) && forall x :: 0 <= x < |k2| ==> lo < k2[x] < hi
  {
    var k2 := keys[..i] + mk + keys[j - 1..];
    forall x | 0 <= x < |k2| ensures lo < k2[x] < hi {
      if i <= x < i + |mk| {
        assert k2[x] == mk[x - i];
      } else if x >= i + |mk| {
        assert k2[x] == keys[x - i - |mk| + (j - 1)];
      }
    }
    forall x, y | 0 <= x < y < |k2| ensures k2[x] < k2[y] {
      var a, b := i, i + |mk|;
      if x < a && a <= y < b {
        assert k2[y] == mk[y - a] && keys[x] <= keys[i - 1];
      } else if a <= x < b && b <= y {
        assert k2[x] == mk[x - a] && k2[y] == keys[y - b + (j - 1)] && keys[j - 1] <= k2[y];
      } else if x < a && b <= y {
        assert k2[y] == keys[y - b + (j - 1)];
      } else if b <= x {
        assert k2[x] == keys[x - b + (j - 1)] && k2[y] == keys[y - b + (j - 1)];
      } else if a <= x && y < b {
        assert k2[x] == mk[x - a] && k2[y] == mk[y - a];
      }
    }
  }

  lemma ReplaceOne<T>(s: seq<T>, i: nat, x: T)
    requires i < |s|
    ensures s[..i] + [x] + s[i + 1..] == s[i := x]
  {
  }

  lemma RowReplace(keys: seq<nat>, cs: seq<Node>, h: nat, lo: nat, hi: nat, i: nat, c: Node)
    requires Row(keys, cs, h, lo, hi) && i < |cs| && Valid(c, h, Lo(keys, i, lo), Hi(keys, i, hi), false)
    ensures Row(keys, cs[i := c], h, lo, hi)
  {
    var cs' := cs[i := c];
    forall x | 0 <= x < |cs| ensures ChildOk(keys, cs', x, h, lo, hi) {
      assert ChildOk(keys, cs, x, h, lo, hi);
    }
  }

  /** A row cut at key p is two rows. */
  lemma RowCut(keys: seq<nat>, cs: seq<Node>, h: nat, lo: nat, hi: nat, p: nat)
    requires Row(keys, cs, h, lo, hi) && p < |keys|
    ensures Row(keys[..p], cs[..p + 1], h, lo, keys[p]) && Row(keys[p + 1..], cs[p + 1..], h, keys[p], hi)
  {
    var k1, c1, k2, c2, mid := keys[..p], cs[..p + 1], keys[p + 1..], cs[p + 1..], keys[p];
    forall x | 0 <= x < |c1| ensures ChildOk(k1, c1, x, h, lo, mid) {
      assert ChildOk(keys, cs, x, h, lo, hi);
    }
    forall x | 0 <= x < |c2| ensures ChildOk(k2, c2, x, h, mid, hi) {
      assert ChildOk(keys, cs, p + 1 + x, h, lo, hi);
    }
  }

  /** Two rows that meet at a key are one. */
  lemma RowMeet(k1: seq<nat>, c1: seq<Node>, k2: seq<nat>, c2: seq<Node>, h: nat, lo: nat, mid: nat, hi: nat)
    requires Row(k1, c1, h, lo, mid) && Row(k2, c2, h, mid, hi) && lo < mid < hi
    ensures Row(k1 + [mid] + k2, c1 + c2, h, lo, hi)
  {
    var k, c := k1 + [mid] + k2, c1 + c2;
    forall x | 0 <= x < |c| ensures ChildOk(k, c, x, h, lo, hi) {
      if x < |c1| {
        assert ChildOk(k1, c1, x, h, lo, mid);
      } else {
        assert ChildOk(k2, c2, x - |c1|, h, mid, hi);
      }
    }
  }

  // ----- the slots of a row

  function Parts(cs: seq<Node>): seq<seq<Slot>> {
    seq(|cs|, i requires 0 <= i < |cs| => Flat(cs[i]))
  }

  /** All slots under a row of children. */
  function FlatRow(cs: seq<Node>): seq<Slot> { Join(Parts(cs)) }

  lemma FlatInternal(keys: seq<nat>, cs: seq<Node>)
    ensures Flat(Internal(keys, cs)) == FlatRow(cs)
  {
    assert Parts(cs) == seq(|cs|, i requires 0 <= i < |cs| => Flat(cs[i]));
  }

  lemma {:induction false} JoinConcat(p: seq<seq<Slot>>, q: seq<seq<Slot>>)
    ensures Join(p + q) == Join(p) + Join(q)
  {
    if p == [] {
      assert p + q == q;
    } else {
      JoinConcat(p[1..], q);
      assert (p + q)[1..] == p[1..] + q;
    }
  }

  lemma FlatRowConcat(a: seq<Node>, b: seq<Node>)
    ensures FlatRow(a + b) == FlatRow(a) + FlatRow(b)
  {
    assert Parts(a + b) == Parts(a) + Parts(b);
    JoinConcat(Parts(a), Parts(b));
  }

  lemma FlatRowOne(c: Node)
    ensures FlatRow([c]) == Flat(c)
  {
    assert Parts([c]) == [Flat(c)];
    assert Join([Flat(c)]) == Flat(c) + Join([]);
  }

  lemma FlatRowTwo(c: Node, d: Node)
    ensures FlatRow([c, d]) == Flat(c) + Flat(d)
  {
    FlatRowConcat([c], [d]);
    assert [c] + [d] == [c, d];
    FlatRowOne(c);
    FlatRowOne(d);
  }

  /** What lies left and right of child i, and the child itself. */
  lemma FlatAround(cs: seq<Node>, i: nat, j: nat, mc: seq<Node>)
    requires i <= j <= |cs|
    ensures FlatRow(cs[..i] + mc + cs[j..]) == FlatRow(cs[..i]) + FlatRow(mc) + FlatRow(cs[j..])
  {
    FlatRowConcat(cs[..i] + mc, cs[j..]);
    FlatRowConcat(cs[..i], mc);
  }

  // ----- slices under a valid node

  /** Every slot under a node is within the node's bounds. */
  lemma {:induction false} FlatBounds(n: Node, h: nat, lo: nat, hi: nat, root: bool)
    requires Valid(n, h, lo, hi, root)
    ensures forall i :: 0 <= i < |Flat(n)| ==> lo <= Flat(n)[i].slice < hi
    decreases h, 1
  {
    if n.Internal? {
      ValidIsRow(n.keys, n.children, h, lo, hi, root);
      FlatInternal(n.keys, n.children);
      RowFlatBounds(n.keys, n.children, h - 1, lo, hi);
    }
  }

  lemma {:induction false} RowFlatBounds(keys: seq<nat>, cs: seq<Node>, h: nat, lo: nat, hi: nat)
    requires Row(keys, cs, h, lo, hi)
    ensures forall i :: 0 <= i < |FlatRow(cs)| ==> lo <= FlatRow(cs)[i].slice < hi
    decreases h + 1, 0, |cs|
  {
    var n := |keys|;
    assert ChildOk(keys, cs, n, h, lo, hi);
    FlatBounds(cs[n], h, Lo(keys, n, lo), hi, false);
    FlatRowOne(cs[n]);
    if n == 0 {
      assert cs == [cs[0]];
    } else {
      RowCut(keys, cs, h, lo, hi, n - 1);
      RowFlatBounds(keys[..n - 1], cs[..n], h, lo, keys[n - 1]);
      FlatRowConcat(cs[..n], [cs[n]]);
      assert cs == cs[..n] + [cs[n]];
    }
  }

  // ----- finding a place among slots on both sides

  predicate AllBelow(s: seq<Slot>, slice: nat) { forall i :: 0 <= i < |s| ==> s[i].slice < slice }

  predicate AllAbove(s: seq<Slot>, slice: nat) { forall i :: 0 <= i < |s| ==> s[i].slice > slice }

  lemma {:induction false} RankIs(s: seq<Slot>, slice: nat, len: nat, r: nat)
    requires r <= |s|
    requires r > 0 ==> Before(s[r - 1], slice, len) || At(s[r - 1], slice, len)
    requires forall i :: r <= i < |s| ==> !Before(s[i], slice, len) && !At(s[i], slice, len)
    ensures Rank(s, slice, len) == r
  {
  }

  /** Slots of smaller slices before and of larger slices after make no difference. */
  lemma {:induction false} Around(a: seq<Slot>, b: seq<Slot>, c: seq<Slot>, slice: nat, len: nat)
    requires AllBelow(a, slice) && AllAbove(c, slice)
    ensures Rank(a + b + c, slice, len) == |a| + Rank(b, slice, len)
    ensures Has(a + b + c, slice, len) <==> Has(b, slice, len)
    ensures Has(b, slice, len) ==> Get(a + b + c, slice, len) == Get(b, slice, len)
  {
    var s, r := a + b + c, |a| + Rank(b, slice, len);
    forall i | r <= i < |s| ensures !Before(s[i], slice, len) && !At(s[i], slice, len) {
      if i < |a| + |b| {
        assert s[i] == b[i - |a|];
      } else {
        assert s[i] == c[i - |a| - |b|];
      }
    }
    if r > |a| {
      assert s[r - 1] == b[r - 1 - |a|];
    }
    RankIs(s, slice, len, r);
  }

  lemma InsertIn<T>(a: seq<T>, b: seq<T>, c: seq<T>, q: nat, x: T)
    requires q <= |b|
    ensures (a + b + c)[..|a| + q] + [x] + (a + b + c)[|a| + q..] == a + (b[..q] + [x] + b[q..]) + c
  {
    assert (a + b + c)[..|a| + q] == a + b[..q];
    assert (a + b + c)[|a| + q..] == b[q..] + c;
  }

  lemma DeleteIn<T>(a: seq<T>, b: seq<T>, c: seq<T>, q: nat)
    requires 0 < q <= |b|
    ensures (a + b + c)[..|a| + q - 1] + (a + b + c)[|a| + q..] == a + (b[..q - 1] + b[q..]) + c
  {
    assert (a + b + c)[..|a| + q - 1] == a + b[..q - 1];
    assert (a + b + c)[|a| + q..] == b[q..] + c;
  }

  lemma {:induction false} PutAround(a: seq<Slot>, b: seq<Slot>, c: seq<Slot>, x: Slot)
    requires AllBelow(a, x.slice) && AllAbove(c, x.slice)
    ensures Put(a + b + c, x) == a + Put(b, x) + c
  {
    Around(a, b, c, x.slice, x.len);
    InsertIn(a, b, c, Rank(b, x.slice, x.len), x);
  }

  lemma {:induction false} DelAround(a: seq<Slot>, b: seq<Slot>, c: seq<Slot>, slice: nat, len: nat)
    requires AllBelow(a, slice) && AllAbove(c, slice)
    ensures Del(a + b + c, slice, len) == a + Del(b, slice, len) + c
  {
    Around(a, b, c, slice, len);
    if Has(b, slice, len) {
      DeleteIn(a, b, c, Rank(b, slice, len));
    }
  }

  /** What lies under the other children of a node does not matter to a slice. */
  lemma ChildAround(keys: seq<nat>, cs: seq<Node>, h: nat, lo: nat, hi: nat, slice: nat)
    requires Row(keys, cs, h, lo, hi)
    ensures var i := ChildOf(keys, slice);
            AllBelow(FlatRow(cs[..i]), slice) && AllAbove(FlatRow(cs[i + 1..]), slice)
  {
    var i := ChildOf(keys, slice);
    if i > 0 {
      RowCut(keys, cs, h, lo, hi, i - 1);
      RowFlatBounds(keys[..i - 1], cs[..i], h, lo, keys[i - 1]);
    }
    if i < |keys| {
      RowCut(keys, cs, h, lo, hi, i);
      RowFlatBounds(keys[i + 1..], cs[i + 1..], h, keys[i], hi);
    }
  }

  /** The slots of a node are those left of a child, its own, and those right of it. */
  lemma FlatSplit(cs: seq<Node>, i: nat)
    requires i < |cs|
    ensures FlatRow(cs) == FlatRow(cs[..i]) + Flat(cs[i]) + FlatRow(cs[i + 1..])
  {
    FlatAround(cs, i, i + 1, [cs[i]]);
    assert cs == cs[..i] + [cs[i]] + cs[i + 1..];
    FlatRowOne(cs[i]);
  }

  /** What the responsible child's slots say about a slice, all the node's slots say. */
  lemma ChildHas(keys: seq<nat>, cs: seq<Node>, h: nat, lo: nat, hi: nat, slice: nat, len: nat)
    requires Row(keys, cs, h, lo, hi)
    ensures var b := Flat(cs[ChildOf(keys, slice)]);
            && (Has(FlatRow(cs), slice, len) <==> Has(b, slice, len))
            && (Has(b, slice, len) ==> Get(FlatRow(cs), slice, len) == Get(b, slice, len))
  {
    var i := ChildOf(keys, slice);
    FlatSplit(cs, i);
    ChildAround(keys, cs, h, lo, hi, slice);
    Around(FlatRow(cs[..i]), Flat(cs[i]), FlatRow(cs[i + 1..]), slice, len);
  }

  lemma ChildReads(keys: seq<nat>, cs: seq<Node>, h: nat, lo: nat, hi: nat, k: Bytes)
    requires Row(keys, cs, h, lo, hi)
    ensures Read(Flat(Internal(keys, cs)), k) == Read(Flat(cs[ChildOf(keys, Slice(k))]), k)
  {
    FlatInternal(keys, cs);
    ChildHas(keys, cs, h, lo, hi, Slice(k), SliceLen(k));
  }

  /** Search sees the slots of a layer as one sorted sequence. */
  lemma {:induction false} SearchReads(n: Node, h: nat, lo: nat, hi: nat, root: bool, k: Bytes)
    requires Valid(n, h, lo, hi, root) && Shape(n, h)
    ensures Search(n, h, k) == Read(Flat(n), k)
    decreases h
  {
    if n.Internal? {
      var i := ChildOf(n.keys, Slice(k));
      SearchReads(n.children[i], h - 1, Lo(n.keys, i, lo), Hi(n.keys, i, hi), false, k);
      ValidIsRow(n.keys, n.children, h, lo, hi, root);
      ChildReads(n.keys, n.children, h - 1, lo, hi, k);
    } else {
      LeafReads(n.id, n.minKey, n.slots, k);
    }
  }

  lemma LeafReads(id: nat, minKey: nat, s: seq<Slot>, k: Bytes)
    requires Shape(Leaf(id, minKey, s), 0)
    ensures Search(Leaf(id, minKey, s), 0, k) == Read(s, k)
  {
    if Has(s, Slice(k), SliceLen(k)) {
      assert SlotShape(s[Rank(s, Slice(k), SliceLen(k)) - 1]);
    }
  }

  /** What a sorted sequence of slots says about a key. */
  function Read(s: seq<Slot>, k: Bytes): Option<Value> {
    if !Has(s, Slice(k), SliceLen(k)) then None
    else ReadEntry(Get(s, Slice(k), SliceLen(k)).entry, k)
  }

  function ReadEntry(e: Entry, k: Bytes): Option<Value> {
    match e
    case Val(v, suffix) => if SliceLen(k) == MAX_LEN && suffix != Shift(k) then None else Some(v)
    case Layer(t) => if |k| >= 8 && Shape(t.root, t.height) then Lookup(t, Shift(k)) else None
  }
}
