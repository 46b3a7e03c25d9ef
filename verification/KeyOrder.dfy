/** Keys as byte strings and as the tree sees them: an 8-byte big-endian slice, a length capped at 9, and
    what is left after 8 bytes (silo/varkey.h, silo/btree.h). */
module KeyOrder {
  import Circular

  type Byte = b: nat | b < 256

  type Bytes = seq<Byte>

  /** The comparison operator of varkey: memcmp, then the shorter first. */
  predicate Less(a: Bytes, b: Bytes) {
    if b == [] then false
    else if a == [] then true
    else a[0] < b[0] || (a[0] == b[0] && Less(a[1..], b[1..]))
  }

  function Pow256(n: nat): (p: nat)
    ensures p > 0
  {
    if n == 0 then 1 else 256 * Pow256(n - 1)
  }

  function First(k: Bytes): Byte { if k == [] then 0 else k[0] }

  function Rest(k: Bytes): Bytes { if k == [] then [] else k[1..] }

  lemma LeadingDigit(d: Byte, x: nat, p: nat)
    requires x < p
    ensures d * p + x < 256 * p
  {
    Circular.Scale(d + 1, 256, p);
    assert (d + 1) * p == d * p + p;
  }

  /** The first n bytes as a big-endian number, padded with zeros. */
  function Front(k: Bytes, n: nat): (r: nat)
    ensures r < Pow256(n)
  {
    if n == 0 then 0
    else
      LeadingDigit(First(k), Front(Rest(k), n - 1), Pow256(n - 1));
      First(k) * Pow256(n - 1) + Front(Rest(k), n - 1)
  }

  function Slice(k: Bytes): nat { Front(k, 8) }

  function Cap(k: Bytes, n: nat): nat { if |k| <= n then |k| else n + 1 }

  /** The slice length a leaf stores: 9 stands for anything over 8. */
  function SliceLen(k: Bytes): nat { Cap(k, 8) }

  function Shift(k: Bytes): Bytes
    requires |k| >= 8
  {
    k[8..]
  }

  /** Comparing leading digits, then the rest. */
  lemma Digits(a: nat, b: nat, x: nat, y: nat, p: nat)
    requires x < p && y < p
    ensures a * p + x < b * p + y <==> a < b || (a == b && x < y)
    ensures a * p + x == b * p + y <==> a == b && x == y
  {
    Circular.Scale(a + 1, b, p);
    Circular.Scale(b + 1, a, p);
    assert (a + 1) * p == a * p + p && (b + 1) * p == b * p + p;
  }

  lemma {:induction false} FrontEmpty(n: nat)
    ensures Front([], n) == 0
  {
    if n > 0 {
      FrontEmpty(n - 1);
    }
  }

  /** Byte-string order is the order of the n-byte fronts, then of the capped lengths, then of the remainders. */
  lemma {:induction false} OrderByFront(a: Bytes, b: Bytes, n: nat)
    ensures Less(a, b) <==>
      || Front(a, n) < Front(b, n)
      || (Front(a, n) == Front(b, n) && Cap(a, n) < Cap(b, n))
      || (Front(a, n) == Front(b, n) && |a| > n && |b| > n && Less(a[n..], b[n..]))
  {
    if a == [] || b == [] {
      FrontEmpty(n);
    } else if n > 0 {
      OrderByFront(a[1..], b[1..], n - 1);
      Digits(a[0], b[0], Front(a[1..], n - 1), Front(b[1..], n - 1), Pow256(n - 1));
      if |a| > n && |b| > n {
        assert a[1..][n - 1..] == a[n..] && b[1..][n - 1..] == b[n..];
      }
    }
  }

  lemma {:induction false} EqualByFront(a: Bytes, b: Bytes, n: nat)
    ensures a == b <==>
      Front(a, n) == Front(b, n) && Cap(a, n) == Cap(b, n) && (|a| > n && |b| > n ==> a[n..] == b[n..])
  {
    if n == 0 || a == [] || b == [] {
      assert n == 0 && a != [] && b != [] ==> a[0..] == a && b[0..] == b;
    } else {
      EqualByFront(a[1..], b[1..], n - 1);
      Digits(a[0], b[0], Front(a[1..], n - 1), Front(b[1..], n - 1), Pow256(n - 1));
      assert a == [a[0]] + a[1..] && b == [b[0]] + b[1..];
      if |a| > n && |b| > n {
        assert a[1..][n - 1..] == a[n..] && b[1..][n - 1..] == b[n..];
      }
    }
  }

  /** Lexicographic order on keys of any length is what the tree compares, layer by layer. */
  lemma OrderIsSliceOrder(a: Bytes, b: Bytes)
    ensures Less(a, b) <==>
      || Slice(a) < Slice(b)
      || (Slice(a) == Slice(b) && SliceLen(a) < SliceLen(b))
      || (Slice(a) == Slice(b) && SliceLen(a) == 9 && SliceLen(b) == 9 && Less(Shift(a), Shift(b)))
  {
    OrderByFront(a, b, 8);
  }

  lemma EqualityIsSliceEquality(a: Bytes, b: Bytes)
    ensures a == b <==>
      && Slice(a) == Slice(b) && SliceLen(a) == SliceLen(b)
      && (SliceLen(a) == 9 && SliceLen(b) == 9 ==> Shift(a) == Shift(b))
  {
    EqualByFront(a, b, 8);
  }

  /** slice(): the bytes go into an 8-byte word one by one, and the word is read as big-endian. */
  method ReadSlice(p: Bytes) returns (r: nat)
    ensures r == Slice(p)
  {
    var word := new Byte[8](_ => 0);
    var i := 0;
    while i < |p| && i < 8
      invariant 0 <= i <= 8 && i <= |p|
      invariant forall j :: 0 <= j < i ==> word[j] == p[j]
      invariant forall j :: i <= j < 8 ==> word[j] == 0
    {
      word[i] := p[i];
      i := i + 1;
    }
    r := BigEndian(word);
    FrontOfPadded(p, word[..], 8);
  }

  lemma {:induction false} FrontOfPadded(p: Bytes, w: Bytes, n: nat)
    requires |w| == n
    requires forall j :: 0 <= j < n && j < |p| ==> w[j] == p[j]
    requires forall j :: |p| <= j < n ==> w[j] == 0
    ensures Front(w, n) == Front(p, n)
  {
    if n > 0 {
      FrontOfPadded(Rest(p), w[1..], n - 1);
    }
  }

  method BigEndian(word: array<Byte>) returns (r: nat)
    requires word.Length == 8
    ensures r == Front(word[..], 8)
  {
    r := 0;
    var i := 0;
    while i < 8
      invariant 0 <= i <= 8
      invariant Front(word[..], 8) == r * Pow256(8 - i) + Front(word[i..], 8 - i)
    {
      assert word[i..][1..] == word[i + 1..] && word[i..][0] == word[i];
      Regroup(r, word[i], Pow256(7 - i));
      r := r * 256 + word[i];
      i := i + 1;
    }
    assert word[0..] == word[..];
  }

  lemma Regroup(r: nat, b: nat, p: nat)
    ensures r * (256 * p) + b * p == (r * 256 + b) * p
  {
  }
}
