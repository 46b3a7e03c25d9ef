/** Insertion keeps the tree valid and changes exactly one slot of one layer. */
module BTreeInsert {
  import opened KeyOrder
  import opened BTree
  import opened BTreeRows

  function Find(s: seq<Slot>, k: Bytes): Option<Slot> {
    if Has(s, Slice(k), SliceLen(k)) then Some(Get(s, Slice(k), SliceLen(k))) else None
  }

  /** What becomes of the slot a key belongs to, whether a key is added, and what value was there. */
  datatype Outcome = Outcome(slot: Slot, added: bool, prior: Option<Value>)

  function Settle(found: Option<Slot>, k: Bytes, v: Value, onlyIfAbsent: bool): Outcome
    requires found.Some? ==> SlotShape(found.value) && At(found.value, Slice(k), SliceLen(k))
  {
    match found
    case None => Outcome(NewSlot(k, v), true, None)
    case Some(x) =>
      if x.entry.Layer? then
        var (t, added, prior) := InsertTree(x.entry.tree, Shift(k), v, onlyIfAbsent);
        Outcome(x.(entry := Layer(t)), added, prior)
      else if SliceLen(k) < MAX_LEN || x.entry.suffix == Shift(k) then
        Outcome(if onlyIfAbsent then x else x.(entry := Val(v, x.entry.suffix)), false, Some(x.entry.v))
      else
        var (t, _, prior) := InsertTree(Alone(Leaf(0, 0, [NewSlot(x.entry.suffix, x.entry.v)])), Shift(k), v,
          onlyIfAbsent);
        Outcome(x.(entry := Layer(t)), true, prior)
  }

  /** The node, or the two halves of it, is valid between its bounds and holds the wanted slots. */
  ghost predicate Holds(node: Node, up: Option<Up>, h: nat, lo: nat, hi: nat, root: bool, want: seq<Slot>) {
    match up
    case None => Valid(node, h, lo, hi, root) && Flat(node) == want
    case Some(u) =>
      && lo < u.key < hi
      && Valid(node, h, lo, u.key, false) && Valid(u.node, h, u.key, hi, false)
      && Flat(node) + Flat(u.node) == want
  }

  // ----- leaves

  lemma {:induction false} PutSorted(s: seq<Slot>, x: Slot)
    requires SlotsSorted(s)
    ensures SlotsSorted(Put(s, x))
  {
    var r, t := Rank(s, x.slice, x.len), Put(s, x);
    if !Has(s, x.slice, x.len) {
      forall i | 0 <= i < r ensures Before(s[i], x.slice, x.len) {
        if i < r - 1 {
          assert Before(s[i], s[r - 1].slice, s[r - 1].len);
        }
      }
      forall i, j | 0 <= i < j < |t| ensures Before(t[i], t[j].slice, t[j].len) {
        assert t[i] == if i < r then s[i] else if i == r then x else s[i - 1];
        assert t[j] == if j < r then s[j] else if j == r then x else s[j - 1];
      }
    }
  }

  lemma {:induction false} PutMembers(s: seq<Slot>, x: Slot, i: nat)
    requires i < |Put(s, x)|
    ensures Put(s, x)[i] == x || exists j :: 0 <= j < |s| && s[j] == Put(s, x)[i]
  {
    var r, t := Rank(s, x.slice, x.len), Put(s, x);
    if Has(s, x.slice, x.len) {
      assert t[i] == x || t[i] == s[i];
    } else {
      assert t[i] == if i < r then s[i] else if i == r then x else s[i - 1];
    }
  }

  ghost predicate Good(s: seq<Slot>, lo: nat, hi: nat) {
    SlotsSorted(s) && forall i :: 0 <= i < |s| ==> lo <= s[i].slice < hi && SlotOk(s[i])
  }

  lemma {:induction false} PutGood(s: seq<Slot>, lo: nat, hi: nat, x: Slot)
    requires Good(s, lo, hi) && lo <= x.slice < hi && SlotOk(x)
    ensures Good(Put(s, x), lo, hi)
  {
    PutSorted(s, x);
    forall i | 0 <= i < |Put(s, x)| ensures lo <= Put(s, x)[i].slice < hi && SlotOk(Put(s, x)[i]) {
      PutMembers(s, x, i);
    }
  }

  lemma {:induction false} GoodSlice(s: seq<Slot>, lo: nat, hi: nat, a: nat, b: nat, lo': nat, hi': nat)
    requires Good(s, lo, hi) && a <= b <= |s|
    requires a < b ==> lo' <= s[a].slice && s[b - 1].slice < hi'
    ensures Good(s[a..b], lo', hi')
  {
    forall i | a <= i < b ensures lo' <= s[i].slice < hi' && SlotOk(s[i]) {
      assert a < i ==> Before(s[a], s[i].slice, s[i].len);
      assert i < b - 1 ==> Before(s[i], s[b - 1].slice, s[b - 1].len);
    }
  }

  /** A sorted run of slots cut between two slices makes two leaves. */
  lemma {:induction false} CutGood(t: seq<Slot>, lo: nat, hi: nat, c: nat)
    requires Good(t, lo, hi) && 0 < c < |t| && t[c - 1].slice < t[c].slice
    ensures lo < t[c].slice < hi && Good(t[..c], lo, t[c].slice) && Good(t[c..], t[c].slice, hi)
    ensures t[..c] + t[c..] == t
  {
    GoodSlice(t, lo, hi, 0, c, lo, t[c].slice);
    GoodSlice(t, lo, hi, c, |t|, t[c].slice, hi);
    assert t[0..c] == t[..c] && t[c..|t|] == t[c..];
  }

  lemma {:induction false} CutHolds(t: seq<Slot>, lo: nat, hi: nat, c: nat, root: bool, id: nat, born: nat)
    requires Good(t, lo, hi) && 0 < c < |t| && t[c - 1].slice < t[c].slice && c <= FANOUT && |t| - c <= FANOUT
    ensures Holds(Leaf(id, lo, t[..c]), Some(Up(t[c].slice, Leaf(born, t[c].slice, t[c..]))), 0, lo, hi, root, t)
  {
    CutGood(t, lo, hi, c);
  }

  lemma {:induction false} LeftStaysLeft(s: seq<Slot>, x: Slot)
    requires |s| == FANOUT && ShortSlots(s) && !Has(s, x.slice, x.len)
    requires var p, r := SplitPoint(s), Rank(s, x.slice, x.len); !(p <= r && 0 < p && s[p - 1].slice != x.slice)
    ensures 0 < SplitPoint(s) < FANOUT && x.slice < s[SplitPoint(s)].slice
  {
    SplitCutsNoGroup(s);
    var p, r := SplitPoint(s), Rank(s, x.slice, x.len);
    if r < p {
      assert !Before(s[r], x.slice, x.len);
      assert r < p - 1 ==> Before(s[r], s[p - 1].slice, s[p - 1].len);
    }
  }

  lemma CutAfter<T>(s: seq<T>, r: nat, x: T, p: nat)
    requires p <= r <= |s|
    ensures (s[..r] + [x] + s[r..])[..p] == s[..p] && (s[..r] + [x] + s[r..])[p..] == s[p..r] + [x] + s[r..]
  {
  }

  lemma CutBefore<T>(s: seq<T>, r: nat, x: T, p: nat)
    requires r <= p <= |s|
    ensures (s[..r] + [x] + s[r..])[..p + 1] == s[..r] + [x] + s[r..p] && (s[..r] + [x] + s[r..])[p + 1..] == s[p..]
  {
  }

  ghost predicate CutAs(res: Inserted, id: nat, minKey: nat, t: seq<Slot>, c: nat, unused: nat) {
    && 0 < c <= FANOUT && c < |t| && t[c - 1].slice < t[c].slice
    && res == Inserted(Leaf(id, minKey, t[..c]), Some(Up(t[c].slice, Leaf(unused, t[c].slice, t[c..]))), true, None,
         Added(id, unused))
  }

  lemma {:induction false} SplitAtEnd(id: nat, minKey: nat, s: seq<Slot>, x: Slot, unused: nat)
    requires |s| == FANOUT && ShortSlots(s) && !Has(s, x.slice, x.len) && s[FANOUT - 1].slice < x.slice
    ensures CutAs(SplitLeaf(id, minKey, s, x, None, unused), id, minKey, Put(s, x), FANOUT, unused)
  {
    assert Rank(s, x.slice, x.len) == FANOUT;
    assert s[..FANOUT] == s && s[FANOUT..] == [];
    assert Put(s, x) == s + [x];
  }

  lemma {:induction false} SplitRight(id: nat, minKey: nat, s: seq<Slot>, x: Slot, next: Option<nat>, unused: nat)
    requires |s| == FANOUT && ShortSlots(s) && !Has(s, x.slice, x.len)
    requires !(next == None && s[FANOUT - 1].slice < x.slice)
    requires var p, r := SplitPoint(s), Rank(s, x.slice, x.len); 0 < p <= r && s[p - 1].slice != x.slice
    ensures CutAs(SplitLeaf(id, minKey, s, x, next, unused), id, minKey, Put(s, x), SplitPoint(s), unused)
  {
    var r, p, t := Rank(s, x.slice, x.len), SplitPoint(s), Put(s, x);
    RightGoesRight(s, x);
    CutAfter(s, r, x, p);
    assert t[p - 1] == s[p - 1] && t[p] == (if p == r then x else s[p]) && t[p] == t[p..][0];
  }

  lemma {:induction false} SplitLeft(id: nat, minKey: nat, s: seq<Slot>, x: Slot, next: Option<nat>, unused: nat)
    requires |s| == FANOUT && ShortSlots(s) && !Has(s, x.slice, x.len)
    requires !(next == None && s[FANOUT - 1].slice < x.slice)
    requires var p, r := SplitPoint(s), Rank(s, x.slice, x.len); 0 < p && !(p <= r && s[p - 1].slice != x.slice)
    ensures CutAs(SplitLeaf(id, minKey, s, x, next, unused), id, minKey, Put(s, x), SplitPoint(s) + 1, unused)
  {
    var r, p, t := Rank(s, x.slice, x.len), SplitPoint(s), Put(s, x);
    SplitIsLegal(s, x);
    LeftStaysLeft(s, x);
    SplitCutsNoGroup(s);
    CutBefore(s, r, x, p);
    assert t[p] == (if p == r then x else s[p - 1]) && t[p + 1] == s[p];
  }

  /** However a full leaf splits, it is the enlarged leaf cut between two slices. */
  lemma {:induction false} SplitCut(id: nat, minKey: nat, s: seq<Slot>, x: Slot, next: Option<nat>,
                                    unused: nat) returns (c: nat)
    requires |s| == FANOUT && ShortSlots(s) && !Has(s, x.slice, x.len)
    ensures CutAs(SplitLeaf(id, minKey, s, x, next, unused), id, minKey, Put(s, x), c, unused)
  {
    var r, p := Rank(s, x.slice, x.len), SplitPoint(s);
    SplitIsLegal(s, x);
    if next == None && s[FANOUT - 1].slice < x.slice {
      SplitAtEnd(id, minKey, s, x, unused);
      c := FANOUT;
    } else if p <= r && s[p - 1].slice != x.slice {
      SplitRight(id, minKey, s, x, next, unused);
      c := p;
    } else {
      SplitLeft(id, minKey, s, x, next, unused);
      c := p + 1;
    }
  }

  lemma {:induction false} RightGoesRight(s: seq<Slot>, x: Slot)
    requires |s| == FANOUT && ShortSlots(s)
    requires var p, r := SplitPoint(s), Rank(s, x.slice, x.len); 0 < p <= r && s[p - 1].slice != x.slice
    ensures var p := SplitPoint(s); p < FANOUT && s[p - 1].slice < x.slice && s[p - 1].slice < s[p].slice
  {
    SplitCutsNoGroup(s);
    var p, r := SplitPoint(s), Rank(s, x.slice, x.len);
    assert p < r ==> Before(s[p - 1], s[r - 1].slice, s[r - 1].len);
  }

  /** Both halves of a split leaf, with the new slot in one of them. */
  lemma {:induction false} SplitHolds(id: nat, minKey: nat, s: seq<Slot>, lo: nat, hi: nat, root: bool, x: Slot,
                                      next: Option<nat>, unused: nat)
    requires Valid(Leaf(id, minKey, s), 0, lo, hi, root) && |s| == FANOUT && ShortSlots(s)
    requires lo <= x.slice < hi && SlotOk(x) && !Has(s, x.slice, x.len)
    ensures var res := SplitLeaf(id, minKey, s, x, next, unused);
            Holds(res.node, res.up, 0, lo, hi, root, Put(s, x)) && res.added && res.prior == None
  {
    PutGood(s, lo, hi, x);
    var c := SplitCut(id, minKey, s, x, next, unused);
    CutHolds(Put(s, x), lo, hi, c, root, id, unused);
  }

  // ----- internal nodes

  function WideKeys(keys: seq<nat>, i: nat, u: Up): seq<nat>
    requires i <= |keys|
  {
    keys[..i] + [u.key] + keys[i..]
  }

  function WideChildren(cs: seq<Node>, i: nat, u: Up): seq<Node>
    requires i < |cs|
  {
    cs[..i + 1] + [u.node] + cs[i + 1..]
  }

  lemma CutLow<T>(s: seq<T>, i: nat, x: T, p: nat)
    requires i <= p <= |s|
    ensures (s[..i] + [x] + s[i..])[..p + 1] == s[..i] + [x] + s[i..p] && (s[..i] + [x] + s[i..])[p + 1..] == s[p..]
  {
  }

  lemma CutHigh<T>(s: seq<T>, i: nat, x: T, p: nat)
    requires p <= i <= |s|
    ensures (s[..i] + [x] + s[i..])[..p] == s[..p] && (s[..i] + [x] + s[i..])[p..] == s[p..i] + [x] + s[i..]
  {
  }

  /** The three cases of an internal split are one: the widened node is cut at its eighth key. */
  lemma ThreeCasesAreOne(keys: seq<nat>, cs: seq<Node>, i: nat, u: Up)
    requires |cs| == |keys| + 1 && i <= |keys| == FANOUT
    ensures var wk, wc := WideKeys(keys, i, u), WideChildren(cs, i, u);
            InsertChild(keys, cs, i, u)
            == (Internal(wk[..LEAST], wc[..LEAST + 1]), Some(Up(wk[LEAST], Internal(wk[LEAST + 1..], wc[LEAST + 1..]))))
  {
    var wk, wc := WideKeys(keys, i, u), WideChildren(cs, i, u);
    if i < LEAST {
      CutLow(keys, i, u.key, LEAST - 1);
      CutLow(keys, i, u.key, LEAST);
      CutLow(cs, i + 1, u.node, LEAST);
      assert wk[LEAST] == keys[LEAST - 1];
    } else if i == LEAST {
      CutHigh(keys, i, u.key, LEAST);
      CutLow(keys, i, u.key, LEAST);
      CutHigh(cs, i + 1, u.node, LEAST + 1);
      assert cs[LEAST + 1..i + 1] + [u.node] + cs[i + 1..] == [u.node] + cs[LEAST + 1..];
      assert wk[LEAST] == u.key;
    } else {
      CutHigh(keys, i, u.key, LEAST);
      CutHigh(keys, i, u.key, LEAST + 1);
      CutHigh(cs, i + 1, u.node, LEAST + 1);
      assert wk[LEAST] == keys[LEAST];
    }
  }

  /** A child was replaced by two: the node takes both, or splits. */
  lemma ChildSplits(keys: seq<nat>, cs: seq<Node>, h: nat, lo: nat, hi: nat, root: bool, i: nat, a: Node, u: Up)
    requires Valid(Internal(keys, cs), h, lo, hi, root) && i < |cs|
    requires Lo(keys, i, lo) < u.key < Hi(keys, i, hi)
    requires Valid(a, h - 1, Lo(keys, i, lo), u.key, false) && Valid(u.node, h - 1, u.key, Hi(keys, i, hi), false)
    ensures var (m, up) := InsertChild(keys, cs[i := a], i, u);
            Holds(m, up, h, lo, hi, root, FlatRow(cs[..i]) + (Flat(a) + Flat(u.node)) + FlatRow(cs[i + 1..]))
  {
    ValidIsRow(keys, cs, h, lo, hi, root);
    var wk, wc := WideKeys(keys, i, u), WideChildren(cs[i := a], i, u);
    WideRow(keys, cs, h - 1, lo, hi, i, a, u);
    if |keys| < FANOUT {
      ValidIsRow(wk, wc, h, lo, hi, root);
      FlatInternal(wk, wc);
    } else {
      ThreeCasesAreOne(keys, cs[i := a], i, u);
      WideCut(wk, wc, h, lo, hi);
    }
  }

  lemma WideRow(keys: seq<nat>, cs: seq<Node>, h: nat, lo: nat, hi: nat, i: nat, a: Node, u: Up)
    requires Row(keys, cs, h, lo, hi) && i < |cs| && Lo(keys, i, lo) < u.key < Hi(keys, i, hi)
    requires Valid(a, h, Lo(keys, i, lo), u.key, false) && Valid(u.node, h, u.key, Hi(keys, i, hi), false)
    ensures var wc := WideChildren(cs[i := a], i, u);
            && Row(WideKeys(keys, i, u), wc, h, lo, hi)
            && FlatRow(wc) == FlatRow(cs[..i]) + (Flat(a) + Flat(u.node)) + FlatRow(cs[i + 1..])
  {
    assert WideChildren(cs[i := a], i, u) == cs[..i] + [a, u.node] + cs[i + 1..];
    PairIsRow(a, u, h, Lo(keys, i, lo), Hi(keys, i, hi));
    RowSplice(keys, cs, h, lo, hi, i, i + 1, [u.key], [a, u.node]);
    FlatAround(cs, i, i + 1, [a, u.node]);
    FlatRowTwo(a, u.node);
  }

  lemma PairIsRow(a: Node, u: Up, h: nat, lo: nat, hi: nat)
    requires lo < u.key < hi && Valid(a, h, lo, u.key, false) && Valid(u.node, h, u.key, hi, false)
    ensures Row([u.key], [a, u.node], h, lo, hi)
  {
    assert ChildOk([u.key], [a, u.node], 0, h, lo, hi) && ChildOk([u.key], [a, u.node], 1, h, lo, hi);
  }

  lemma WideCut(wk: seq<nat>, wc: seq<Node>, h: nat, lo: nat, hi: nat)
    requires h > 0 && Row(wk, wc, h - 1, lo, hi) && |wk| == FANOUT + 1
    ensures Holds(Internal(wk[..LEAST], wc[..LEAST + 1]),
      Some(Up(wk[LEAST], Internal(wk[LEAST + 1..], wc[LEAST + 1..]))),
                  h, lo, hi, false, FlatRow(wc))
  {
    RowCut(wk, wc, h - 1, lo, hi, LEAST);
    var k1, c1, k2, c2 := wk[..LEAST], wc[..LEAST + 1], wk[LEAST + 1..], wc[LEAST + 1..];
    ValidIsRow(k1, c1, h, lo, wk[LEAST], false);
    ValidIsRow(k2, c2, h, wk[LEAST], hi, false);
    FlatInternal(k1, c1);
    FlatInternal(k2, c2);
    FlatRowConcat(c1, c2);
    assert c1 + c2 == wc;
  }

  // ----- the whole insertion

  /** An insertion with a given outcome leaves the node, or its halves, with that slot put. */
  ghost predicate Inserts(n: Node, h: nat, lo: nat, hi: nat, root: bool, o: Outcome, r: Inserted) {
    r.added == o.added && r.prior == o.prior && Holds(r.node, r.up, h, lo, hi, root, Put(Flat(n), o.slot))
  }

  /** In the leaf the slot is replaced. */
  lemma {:induction false} LeafReplaces(id: nat, minKey: nat, s: seq<Slot>, k: Bytes, v: Value, onlyIfAbsent: bool,
                                        links: map<nat, Link>, unused: nat)
    requires Shape(Leaf(id, minKey, s), 0) && Find(s, k).Some? && SlotShape(Find(s, k).value)
    ensures var o, r := Settle(Find(s, k), k, v, onlyIfAbsent),
      Insert(Leaf(id, minKey, s), 0, k, v, onlyIfAbsent, links, unused);
            r == Inserted(Leaf(id, minKey, Put(s, o.slot)), None, o.added, o.prior, Keep)
  {
    var r := Rank(s, Slice(k), SliceLen(k));
    assert s[r - 1 := s[r - 1]] == s;
  }

  /** Or added. */
  lemma {:induction false} LeafAdds(n: Node, lo: nat, hi: nat, root: bool, k: Bytes, v: Value, onlyIfAbsent: bool,
                                    links: map<nat, Link>, unused: nat)
    requires n.Leaf? && Valid(n, 0, lo, hi, root) && Shape(n, 0) && lo <= Slice(k) < hi
    requires Find(n.slots, k) == None && SlotOk(NewSlot(k, v))
    ensures var r := Insert(n, 0, k, v, onlyIfAbsent, links, unused);
            r.added && r.prior == None && Holds(r.node, r.up, 0, lo, hi, root, Put(n.slots, NewSlot(k, v)))
  {
    if |n.slots| == FANOUT {
      LeafIsShort(n.id, n.minKey, n.slots);
      SplitHolds(n.id, n.minKey, n.slots, lo, hi, root, NewSlot(k, v), NextOf(links, n.id), unused);
    } else {
      PutGood(n.slots, lo, hi, NewSlot(k, v));
    }
  }

  lemma {:induction false} LeafInserts(n: Node, lo: nat, hi: nat, root: bool, k: Bytes, v: Value, onlyIfAbsent: bool,
                                       links: map<nat, Link>, unused: nat)
    requires n.Leaf? && Valid(n, 0, lo, hi, root) && Shape(n, 0) && lo <= Slice(k) < hi
    requires var f := Find(n.slots, k); f.Some? ==> SlotShape(f.value)
    requires SlotOk(Settle(Find(n.slots, k), k, v, onlyIfAbsent).slot)
    ensures Inserts(n, 0, lo, hi, root, Settle(Find(n.slots, k), k, v, onlyIfAbsent),
      Insert(n, 0, k, v, onlyIfAbsent, links, unused))
  {
    if Find(n.slots, k) == None {
      LeafAdds(n, lo, hi, root, k, v, onlyIfAbsent, links, unused);
    } else {
      LeafReplaces(n.id, n.minKey, n.slots, k, v, onlyIfAbsent, links, unused);
      PutGood(n.slots, lo, hi, Settle(Find(n.slots, k), k, v, onlyIfAbsent).slot);
    }
  }

  function WithChild(keys: seq<nat>, cs: seq<Node>, i: nat, node: Node, up: Option<Up>): (Node, Option<Up>)
    requires |cs| == |keys| + 1 && i <= |keys| <= FANOUT
  {
    if up == None then (Internal(keys, cs[i := node]), None) else InsertChild(keys, cs[i := node], i, up.value)
  }

  /** Whatever became of a child, the node takes it. */
  lemma ChildHolds(keys: seq<nat>, cs: seq<Node>, h: nat, lo: nat, hi: nat, root: bool, i: nat, node: Node,
                   up: Option<Up>, want: seq<Slot>)
    requires Valid(Internal(keys, cs), h, lo, hi, root) && h > 0 && i < |cs|
    requires Holds(node, up, h - 1, Lo(keys, i, lo), Hi(keys, i, hi), false, want)
    ensures var r := WithChild(keys, cs, i, node, up);
            Holds(r.0, r.1, h, lo, hi, root, FlatRow(cs[..i]) + want + FlatRow(cs[i + 1..]))
  {
    if up == None {
      ChildReplaced(keys, cs, h, lo, hi, root, i, node);
      FlatReplaced(keys, cs, i, node);
    } else {
      ChildSplits(keys, cs, h, lo, hi, root, i, node, up.value);
    }
  }

  /** In an internal node the responsible child does the work. */
  lemma ChildInserts(keys: seq<nat>, cs: seq<Node>, h: nat, lo: nat, hi: nat, root: bool, o: Outcome, sub: Inserted)
    requires Valid(Internal(keys, cs), h, lo, hi, root) && h > 0
    requires var i := ChildOf(keys, o.slot.slice);
             Inserts(cs[i], h - 1, Lo(keys, i, lo), Hi(keys, i, hi), false, o, sub)
    ensures var r := WithChild(keys, cs, ChildOf(keys, o.slot.slice), sub.node, sub.up);
            Inserts(Internal(keys, cs), h, lo, hi, root, o, sub.(node := r.0, up := r.1))
  {
    var i := ChildOf(keys, o.slot.slice);
    ValidIsRow(keys, cs, h, lo, hi, root);
    PutInChild(keys, cs, h - 1, lo, hi, o.slot);
    ChildHolds(keys, cs, h, lo, hi, root, i, sub.node, sub.up, Put(Flat(cs[i]), o.slot));
  }

  lemma ChildReplaced(keys: seq<nat>, cs: seq<Node>, h: nat, lo: nat, hi: nat, root: bool, i: nat, c: Node)
    requires Valid(Internal(keys, cs), h, lo, hi, root) && i < |cs|
    requires Valid(c, h - 1, Lo(keys, i, lo), Hi(keys, i, hi), false)
    ensures Valid(Internal(keys, cs[i := c]), h, lo, hi, root)
  {
    ValidIsRow(keys, cs, h, lo, hi, root);
    RowReplace(keys, cs, h - 1, lo, hi, i, c);
    ValidIsRow(keys, cs[i := c], h, lo, hi, root);
  }

  lemma FlatReplaced(keys: seq<nat>, cs: seq<Node>, i: nat, c: Node)
    requires i < |cs|
    ensures Flat(Internal(keys, cs[i := c])) == FlatRow(cs[..i]) + Flat(c) + FlatRow(cs[i + 1..])
  {
    ReplaceOne(cs, i, c);
    FlatInternal(keys, cs[i := c]);
    FlatAround(cs, i, i + 1, [c]);
    FlatRowOne(c);
  }

  /** The responsible child's slots decide. */
  lemma FindInChild(keys: seq<nat>, cs: seq<Node>, h: nat, lo: nat, hi: nat, k: Bytes)
    requires Row(keys, cs, h, lo, hi)
    ensures Find(Flat(Internal(keys, cs)), k) == Find(Flat(cs[ChildOf(keys, Slice(k))]), k)
  {
    FlatInternal(keys, cs);
    ChildHas(keys, cs, h, lo, hi, Slice(k), SliceLen(k));
  }

  /** A change in the responsible child's slots is a change in all the node's slots. */
  lemma PutInChild(keys: seq<nat>, cs: seq<Node>, h: nat, lo: nat, hi: nat, x: Slot)
    requires Row(keys, cs, h, lo, hi)
    ensures var i := ChildOf(keys, x.slice);
            Put(Flat(Internal(keys, cs)), x) == FlatRow(cs[..i]) + Put(Flat(cs[i]), x) + FlatRow(cs[i + 1..])
  {
    var i := ChildOf(keys, x.slice);
    FlatInternal(keys, cs);
    FlatSplit(cs, i);
    ChildAround(keys, cs, h, lo, hi, x.slice);
    PutAround(FlatRow(cs[..i]), Flat(cs[i]), FlatRow(cs[i + 1..]), x);
  }

  lemma NewSlotOk(k: Bytes, v: Value)
    ensures SlotOk(NewSlot(k, v)) && Slice(k) < END
  {
  }

  /** The slot a key ends up in is sound, down through the layers. */
  lemma {:induction false} SettleOk(found: Option<Slot>, k: Bytes, v: Value, onlyIfAbsent: bool)
    requires found.Some? ==> SlotShape(found.value) && SlotOk(found.value) && At(found.value, Slice(k), SliceLen(k))
    ensures SlotOk(Settle(found, k, v, onlyIfAbsent).slot)
    decreases |k|, 0, 0
  {
    NewSlotOk(k, v);
    if found.Some? && SliceLen(k) == MAX_LEN {
      var x := found.value;
      if x.entry.Layer? {
        InsertTreeOk(x.entry.tree, Shift(k), v, onlyIfAbsent);
      } else if x.entry.suffix != Shift(k) {
        NewSlotOk(x.entry.suffix, x.entry.v);
        InsertTreeOk(Alone(Leaf(0, 0, [NewSlot(x.entry.suffix, x.entry.v)])), Shift(k), v, onlyIfAbsent);
      }
    }
  }

  /** The slot found under a node is sound. */
  lemma {:induction false} FoundOk(n: Node, h: nat, lo: nat, hi: nat, root: bool, k: Bytes)
    requires Valid(n, h, lo, hi, root) && Shape(n, h)
    ensures var f := Find(Flat(n), k); f.Some? ==> SlotShape(f.value) && SlotOk(f.value)
    decreases h
  {
    if n.Internal? {
      var i := ChildOf(n.keys, Slice(k));
      FoundOk(n.children[i], h - 1, Lo(n.keys, i, lo), Hi(n.keys, i, hi), false, k);
      ValidIsRow(n.keys, n.children, h, lo, hi, root);
      FindInChild(n.keys, n.children, h - 1, lo, hi, k);
    }
  }

  lemma {:induction false} InsertOk(n: Node, h: nat, lo: nat, hi: nat, root: bool, k: Bytes, v: Value,
                                    onlyIfAbsent: bool, links: map<nat, Link>, unused: nat)
    requires Valid(n, h, lo, hi, root) && Shape(n, h) && lo <= Slice(k) < hi
    ensures var f := Find(Flat(n), k);
            && (f.Some? ==> SlotShape(f.value) && SlotOk(f.value))
            && Inserts(n, h, lo, hi, root, Settle(f, k, v, onlyIfAbsent),
                 Insert(n, h, k, v, onlyIfAbsent, links, unused))
    decreases |k|, h, 1
  {
    FoundOk(n, h, lo, hi, root, k);
    if n.Leaf? {
      SettleOk(Find(n.slots, k), k, v, onlyIfAbsent);
      LeafInserts(n, lo, hi, root, k, v, onlyIfAbsent, links, unused);
    } else {
      var i := ChildOf(n.keys, Slice(k));
      InsertOk(n.children[i], h - 1, Lo(n.keys, i, lo), Hi(n.keys, i, hi), false, k, v, onlyIfAbsent, links, unused);
      InternalInserts(n, h, lo, hi, root, k, v, onlyIfAbsent, links, unused);
    }
  }

  lemma {:induction false} InsertDescends(keys: seq<nat>, cs: seq<Node>, h: nat, k: Bytes, v: Value, onlyIfAbsent: bool,
                                          links: map<nat, Link>, unused: nat)
    requires Shape(Internal(keys, cs), h)
    ensures var i := ChildOf(keys, Slice(k));
            var sub := Insert(cs[i], h - 1, k, v, onlyIfAbsent, links, unused);
            var r := WithChild(keys, cs, i, sub.node, sub.up);
            Insert(Internal(keys, cs), h, k, v, onlyIfAbsent, links, unused) == sub.(node := r.0, up := r.1)
  {
  }

  lemma {:induction false} InternalInserts(n: Node, h: nat, lo: nat, hi: nat, root: bool, k: Bytes, v: Value,
                                           onlyIfAbsent: bool, links: map<nat, Link>, unused: nat)
    requires Valid(n, h, lo, hi, root) && Shape(n, h) && n.Internal?
    requires var f := Find(Flat(n), k); f.Some? ==> SlotShape(f.value)
    requires var i := ChildOf(n.keys, Slice(k));
             var f := Find(Flat(n.children[i]), k);
             && (f.Some? ==> SlotShape(f.value))
             && Inserts(n.children[i], h - 1, Lo(n.keys, i, lo), Hi(n.keys, i, hi), false,
                  Settle(f, k, v, onlyIfAbsent),
                        Insert(n.children[i], h - 1, k, v, onlyIfAbsent, links, unused))
    ensures Inserts(n, h, lo, hi, root, Settle(Find(Flat(n), k), k, v, onlyIfAbsent),
      Insert(n, h, k, v, onlyIfAbsent, links, unused))
  {
    var i := ChildOf(n.keys, Slice(k));
    ValidIsRow(n.keys, n.children, h, lo, hi, root);
    FindInChild(n.keys, n.children, h - 1, lo, hi, k);
    var o := Settle(Find(Flat(n.children[i]), k), k, v, onlyIfAbsent);
    var sub := Insert(n.children[i], h - 1, k, v, onlyIfAbsent, links, unused);
    assert o.slot.slice == Slice(k);
    InsertDescends(n.keys, n.children, h, k, v, onlyIfAbsent, links, unused);
    ChildInserts(n.keys, n.children, h, lo, hi, root, o, sub);
  }

  /** Inserting into a tree keeps it valid, and puts one slot of its top layer. */
  lemma {:induction false} InsertTreeOk(t: Tree, k: Bytes, v: Value, onlyIfAbsent: bool)
    requires ValidTree(t) && Shape(t.root, t.height)
    ensures var (t', added, prior) := InsertTree(t, k, v, onlyIfAbsent);
            var found := Find(Flat(t.root), k);
            && ValidTree(t') && Shape(t'.root, t'.height)
            && (found.Some? ==> SlotShape(found.value) && SlotOk(found.value))
            && var o := Settle(found, k, v, onlyIfAbsent);
               added == o.added && prior == o.prior && Flat(t'.root) == Put(Flat(t.root), o.slot)
    decreases |k|, t.height, 2
  {
    NewSlotOk(k, v);
    InsertOk(t.root, t.height, 0, END, true, k, v, onlyIfAbsent, t.links, t.unused);
    var r := Insert(t.root, t.height, k, v, onlyIfAbsent, t.links, t.unused);
    var (t', _, _) := InsertTree(t, k, v, onlyIfAbsent);
    if r.up.Some? {
      NewRoot(r.node, r.up.value, t.height);
    }
    ValidHasShape(t'.root, t'.height, 0, END, true);
  }

  lemma NewRoot(a: Node, u: Up, h: nat)
    requires 0 < u.key < END && Valid(a, h, 0, u.key, false) && Valid(u.node, h, u.key, END, false)
    ensures Valid(Internal([u.key], [a, u.node]), h + 1, 0, END, true)
    ensures Flat(Internal([u.key], [a, u.node])) == Flat(a) + Flat(u.node)
  {
    PairIsRow(a, u, h, 0, END);
    ValidIsRow([u.key], [a, u.node], h + 1, 0, END, true);
    FlatInternal([u.key], [a, u.node]);
    FlatRowTwo(a, u.node);
  }
}
