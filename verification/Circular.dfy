/** Arithmetic of circular buffers: indices taken modulo the capacity, or masked by a power of two less one. */
module Circular {

  /** Indices less than one lap apart fall into different cells. */
  lemma Apart(i: nat, j: nat, n: nat)
    requires i < j < i + n
    ensures i % n != j % n
  {
    var d := j / n - i / n;
    assert d * n == j / n * n - i / n * n;
    if d <= 0 {
      assert d * n <= 0;
    } else {
      assert d * n >= n;
    }
  }

  lemma Unique(x: nat, n: nat, q: nat, r: nat)
    requires n > 0 && x == q * n + r && r < n
    ensures x % n == r
  {
    Scale(x / n + 1, q, n);
    Scale(q + 1, x / n, n);
  }

  lemma Scale(a: nat, b: nat, n: nat)
    ensures a <= b ==> a * n <= b * n
  {
    if a <= b {
      assert b * n == a * n + (b - a) * n;
    }
  }

  /** Within one lap there is no wrap. */
  lemma Contiguous(i: nat, k: nat, n: nat)
    requires n > 0 && i % n + k < n
    ensures (i + k) % n == i % n + k
  {
    Unique(i + k, n, i / n, i % n + k);
  }

  function Pow(k: nat): (p: nat)
    ensures p > 0
  {
    if k == 0 then 1 else 2 * Pow(k - 1)
  }

  ghost predicate PowerOfTwo(n: nat) { exists k :: Pow(k) == n }

  /** Bitwise and of two words. */
  function And(a: nat, b: nat): nat {
    if a == 0 || b == 0 then 0 else 2 * And(a / 2, b / 2) + a % 2 * (b % 2)
  }

  /** Masking with a power of two less one is taking the remainder. */
  lemma {:induction false} MaskIsRemainder(x: nat, k: nat)
    ensures And(x, Pow(k) - 1) == x % Pow(k)
  {
    if k > 0 {
      MaskIsRemainder(x / 2, k - 1);
      OneBitMore(x, Pow(k - 1));
    }
  }

  lemma OneBitMore(x: nat, h: nat)
    requires h > 0 && And(x / 2, h - 1) == x / 2 % h
    ensures And(x, 2 * h - 1) == x % (2 * h)
  {
    AndOdd(x, h);
    HalfRemainder(x, h);
  }

  lemma AndOdd(x: nat, h: nat)
    requires h > 0
    ensures And(x, 2 * h - 1) == 2 * And(x / 2, h - 1) + x % 2
  {
    assert (2 * h - 1) / 2 == h - 1 && (2 * h - 1) % 2 == 1;
  }

  lemma HalfRemainder(x: nat, h: nat)
    requires h > 0
    ensures x % (2 * h) == 2 * (x / 2 % h) + x % 2
  {
    var q, r := x / 2 / h, 2 * (x / 2 % h) + x % 2;
    assert q * (2 * h) == 2 * (q * h);
    Unique(x, 2 * h, q, r);
  }

  // ----- rounding up to a power of two

  function Bits(n: nat): nat { if n == 0 then 0 else 1 + Bits(n / 2) }

  function Ones(n: nat): nat { if n == 0 then 0 else n % 2 + Ones(n / 2) }

  lemma HalfPower(n: nat)
    requires n > 1
    ensures PowerOfTwo(n) <==> n % 2 == 0 && PowerOfTwo(n / 2)
  {
    if k: nat :| Pow(k) == n {
      assert Pow(k - 1) == n / 2;
    }
    if k: nat :| Pow(k) == n / 2 && n % 2 == 0 {
      assert Pow(k + 1) == n;
    }
  }

  /** n has one bit set exactly when it is a power of two; otherwise the next power is less than twice n. */
  lemma {:induction false} BitCounts(n: nat)
    requires n > 0
    ensures n < Pow(Bits(n)) <= 2 * n
    ensures Ones(n) >= 1 && (Ones(n) == 1 <==> PowerOfTwo(n)) && (Ones(n) > 1 ==> Pow(Bits(n)) < 2 * n)
  {
    if n > 1 {
      BitCounts(n / 2);
      HalfPower(n);
    } else {
      assert Pow(0) == 1;
    }
  }

  lemma {:induction false} PowMonotone(a: nat, b: nat)
    requires a <= b
    ensures Pow(a) <= Pow(b)
  {
    if a < b {
      PowMonotone(a, b - 1);
    }
  }

  lemma {:induction false} PowSum(a: nat, b: nat)
    ensures Pow(a + b) == Pow(a) * Pow(b)
  {
    if a > 0 {
      PowSum(a - 1, b);
    }
  }

  /** Between 2^30 and 2^31 there is no power of two. */
  lemma NoPowerBetween(r: nat)
    requires PowerOfTwo(r) && r > 0x4000_0000
    ensures r >= 0x8000_0000
  {
    var k: nat :| Pow(k) == r;
    PowSum(5, 10);
    PowSum(15, 15);
    assert Pow(30) == 0x4000_0000 && Pow(31) == 2 * Pow(30);
    if k <= 30 {
      PowMonotone(k, 30);
    } else {
      PowMonotone(31, k);
    }
  }

  /** round_up_to_next_multiple_of_2: the least power of two that is not below n. It fits an int exactly
      for n up to 2^30. */
  method RoundUp(n: nat) returns (r: nat)
    requires n < 0x8000_0000
    ensures PowerOfTwo(r) && n <= r && (n > 0 ==> r < 2 * n) && (n == 0 ==> r == 1)
    ensures r < 0x8000_0000 <==> n <= 0x4000_0000
  {
    var bits, ones, left := 0, 0, n;
    while left != 0
      invariant bits + Bits(left) == Bits(n) && ones + Ones(left) == Ones(n)
      decreases left
    {
      if left % 2 == 1 {
        ones := ones + 1;
      }
      bits := bits + 1;
      left := left / 2;
    }
    assert Pow(bits) > 0;
    if n > 0 {
      BitCounts(n);
    }
    r := if ones == 1 then n else Pow(bits);
    if n > 0x4000_0000 {
      NoPowerBetween(r);
    }
  }

  /** n after so many rounds of the loop, each of which shifts it right by one, keeping the sign. */
  function Shifted(n: int, rounds: nat): int
    decreases rounds
  {
    if rounds == 0 then n else Shifted(n / 2, rounds - 1)
  }

  lemma {:induction false} StaysNegative(n: int, rounds: nat)
    requires n < 0
    ensures Shifted(n, rounds) < 0
    decreases rounds
  {
    if rounds > 0 {
      StaysNegative(n / 2, rounds - 1);
    }
  }

  lemma {:induction false} ShiftsToZero(n: nat)
    ensures Shifted(n, Bits(n)) == 0
  {
    if n > 0 {
      ShiftsToZero(n / 2);
    }
  }

  /** The loop ends if and only if its argument is not negative. */
  lemma RoundUpEnds(n: int)
    ensures (exists k: nat :: Shifted(n, k) == 0) <==> n >= 0
  {
    if n < 0 {
      forall k: nat ensures Shifted(n, k) != 0 { StaysNegative(n, k); }
    } else {
      ShiftsToZero(n);
    }
  }
}
