/** The 32-bit arithmetic the program's three circular buffers rely on: wrap-around, the
    absolute-value distance of two free-running indices, power-of-two masks and the
    doubling loops that size the buffers. */
module Uint32 {

  const MODULUS: nat := 0x1_0000_0000

  type uint32 = x: int | 0 <= x < MODULUS

  /** The value left in a `uint32_t` after an arithmetic operation. */
  function Wrap(x: int): uint32 {
    x % MODULUS
  }

  /** `llabs((int64_t)a - (int64_t)b)`; it fits a `uint32_t`, so the cast in the ring's
      `u32_diff` and the `int64_t` result of the queue's `count_pending_works` agree. */
  function AbsDiff(a: uint32, b: uint32): uint32 {
    if a >= b then a - b else b - a
  }

  /** The value of a `uint32_t` returned as a (32-bit two's complement) `int`. */
  function ToInt(x: uint32): int {
    if x < 0x8000_0000 then x else x - MODULUS
  }

  const INT64_MAX: int := 0x7FFF_FFFF_FFFF_FFFF

  type uint64 = x: int | 0 <= x < 0x1_0000_0000_0000_0000

  /** `(int64_t)x`. */
  function AsInt64(x: uint64): int {
    if x <= INT64_MAX then x else x - 0x1_0000_0000_0000_0000
  }

  /** The two casts to signed types keep the value modulo the width. */
  lemma CastsExact(x: uint32, y: uint64)
    ensures -0x8000_0000 <= ToInt(x) < 0x8000_0000 && (ToInt(x) == x || ToInt(x) == x - MODULUS)
    ensures -INT64_MAX - 1 <= AsInt64(y) <= INT64_MAX
    ensures AsInt64(y) == y || AsInt64(y) == y - 0x1_0000_0000_0000_0000
  {
  }

  /** Bitwise `&`, one binary digit at a time. */
  function And(x: nat, y: nat): nat
    decreases x
  {
    if x == 0 then 0 else 2 * And(x / 2, y / 2) + (if x % 2 == 1 && y % 2 == 1 then 1 else 0)
  }

  function Pow2(k: nat): nat {
    if k == 0 then 1 else 2 * Pow2(k - 1)
  }

  /** The capacities the program can end up with: powers of two no larger than 2^31. */
  ghost predicate IsCapacity(n: int) {
    exists k: nat :: k <= 31 && n == Pow2(k)
  }

  lemma {:induction false} Pow2Positive(k: nat)
    ensures Pow2(k) >= 1
  {
    if k > 0 { Pow2Positive(k - 1); }
  }

  lemma {:induction false} Pow2Monotone(j: nat, k: nat)
    requires j <= k
    ensures Pow2(j) <= Pow2(k)
  {
    if j < k {
      Pow2Monotone(j, k - 1);
      Pow2Positive(k - 1);
    }
  }

  lemma CapacityRange(n: int)
    requires IsCapacity(n)
    ensures 1 <= n <= 0x8000_0000
  {
    var k: nat :| k <= 31 && n == Pow2(k);
    Pow2Positive(k);
    Pow2Monotone(k, 31);
    assert Pow2(31) == 0x8000_0000 by { Pow2At31(); }
  }

  lemma Pow2At31()
    ensures Pow2(31) == 0x8000_0000
  {
    assert Pow2(8) == 256;
    assert Pow2(16) == 65536;
    assert Pow2(24) == 16777216;
  }

  /** Masking with `capacity - 1` is reduction modulo the capacity. */
  lemma {:induction false} MaskIsModulo(x: nat, k: nat)
    ensures Pow2(k) >= 1
    ensures And(x, Pow2(k) - 1) == x % Pow2(k)
    decreases k
  {
    Pow2Positive(k);
    if k == 0 {
      AndZero(x);
    } else {
      var m := Pow2(k - 1);
      Pow2Positive(k - 1);
      MaskIsModulo(x / 2, k - 1);
      AndOdd(x, m - 1);
      HalfModulo(x, m);
      assert Pow2(k) == 2 * m;
      hide And;
      assert Pow2(k) - 1 == 2 * (m - 1) + 1;
    }
  }

  lemma AndOdd(x: nat, y: nat)
    ensures And(x, 2 * y + 1) == 2 * And(x / 2, y) + x % 2
  {
    assert (2 * y + 1) / 2 == y && (2 * y + 1) % 2 == 1;
    if x == 0 { assert And(0, y) == 0; }
  }

  lemma {:induction false} AndZero(x: nat)
    ensures And(x, 0) == 0
    decreases x
  {
    if x > 0 { AndZero(x / 2); }
  }

  lemma HalfModulo(x: nat, m: nat)
    requires m >= 1
    ensures x % (2 * m) == 2 * ((x / 2) % m) + x % 2
  {
    var q, r := (x / 2) / m, (x / 2) % m;
    assert x / 2 == m * q + r;
    assert x == (2 * m) * q + (2 * r + x % 2);
    ModuloUnique(x, 2 * m, q, 2 * r + x % 2);
  }

  /** Quotient and remainder are unique. */
  lemma ModuloUnique(x: int, m: nat, q: int, r: nat)
    requires r < m && x == m * q + r
    ensures x % m == r
  {
    var d := x / m - q;
    assert x == m * (x / m) + x % m;
    assert m * d == r - x % m;
    MultipleWithin(m, d);
  }

  /** The only multiple of `m` strictly between `-m` and `m` is zero. */
  lemma MultipleWithin(m: nat, d: int)
    ensures 0 - m < m * d < m ==> d == 0
  {
    if d >= 1 {
      assert m * d == m + m * (d - 1);
      assert m * (d - 1) >= 0;
    } else if d <= -1 {
      assert m * d == m * (d + 1) - m;
      assert m * (d + 1) <= 0;
    }
  }

  lemma ModuloDistinct(i: nat, j: nat, m: nat)
    requires i < j < i + m
    ensures i % m != j % m
  {
    var d := j / m - i / m;
    assert j == m * (j / m) + j % m;
    assert i == m * (i / m) + i % m;
    assert m * d == m * (j / m) - m * (i / m);
    MultipleWithin(m, d);
  }

  /** Two's-power capacities divide 2^32, so masking survives the wrap of the index. */
  lemma WrapKeepsSlot(x: nat, k: nat)
    requires k <= 32
    ensures Pow2(k) >= 1
    ensures Wrap(x) % Pow2(k) == x % Pow2(k)
  {
    Pow2Positive(k);
    Pow2Sum(k, 32 - k);
    Pow2At31();
    assert Pow2(32) == 2 * Pow2(31);
    ModuloOfDivisor(x, Pow2(k), Pow2(32 - k));
  }

  lemma ModuloOfDivisor(x: nat, c: nat, d: nat)
    requires c >= 1 && c * d == MODULUS
    ensures Wrap(x) % c == x % c
  {
    var q, r := x / MODULUS, Wrap(x);
    var q', r' := r / c, r % c;
    assert r == c * q' + r';
    assert MODULUS * q == c * (d * q);
    assert x == c * (d * q) + c * q' + r';
    assert c * (d * q) + c * q' == c * (d * q + q');
    ModuloUnique(x, c, d * q + q', r');
  }

  lemma {:induction false} Pow2Sum(j: nat, k: nat)
    ensures Pow2(j) * Pow2(k) == Pow2(j + k)
  {
    if j > 0 {
      Pow2Sum(j - 1, k);
      assert Pow2(j) * Pow2(k) == 2 * (Pow2(j - 1) * Pow2(k));
    }
  }

  // ---------------------------------------------------------------- buffer sizing

  /** The value of `max` after `n` rounds of `max *= 2u`, starting from `2u`. */
  function Doubled(n: nat): uint32 {
    if n == 0 then 2 else Wrap(2 * Doubled(n - 1))
  }

  /** `r` is the least power of two that is at least `max(2, request)`. */
  ghost predicate IsRoundUp(r: int, request: uint32) {
    && IsCapacity(r) && r >= 2 && r >= request
    && forall k: nat :: Pow2(k) >= 2 && Pow2(k) >= request ==> r <= Pow2(k)
  }

  lemma {:induction false} DoubledIsPow2(n: nat)
    ensures n <= 30 ==> Doubled(n) == Pow2(n + 1)
    ensures n > 30 ==> Doubled(n) == 0
  {
    hide Pow2, Wrap;
    if n == 0 {
      Pow2Bound(0);
      Pow2AtZero();
    } else {
      DoubledIsPow2(n - 1);
      if n <= 31 { Pow2Bound(n); }
      WrapDouble(Doubled(n - 1));
    }
  }

  lemma WrapDouble(x: uint32)
    ensures x < 0x8000_0000 ==> Wrap(2 * x) == 2 * x
    ensures x == 0x8000_0000 ==> Wrap(2 * x) == 0
  {
  }

  lemma Pow2AtZero()
    ensures Pow2(0) == 1
  {
  }

  lemma Pow2Bound(n: nat)
    requires n <= 31
    ensures Pow2(n + 1) == 2 * Pow2(n)
    ensures n < 31 ==> Pow2(n + 1) < MODULUS
    ensures n == 31 ==> Pow2(n) == 0x8000_0000
  {
    Pow2At31();
    if n < 31 { Pow2Monotone(n + 1, 31); }
  }

  /** The loop `while (max < request) max *= 2u` stops for exactly the requests up to 2^31:
      past that, `max` wraps to zero and stays there. */
  lemma DoublingStops(request: uint32)
    ensures (exists n: nat :: Doubled(n) >= request) <==> request <= 0x8000_0000
  {
    Pow2At31();
    DoubledIsPow2(30);
    if request <= 0x8000_0000 {
      assert Doubled(30) >= request;
    } else {
      forall n: nat ensures Doubled(n) < request {
        DoubledIsPow2(n);
        if n <= 30 { Pow2Monotone(n + 1, 31); }
      }
    }
  }

  /** The sizing loop of the work queue and of the ring. By DoublingStops, `requires` names
      exactly the requests for which the loop ends. */
  method RoundUp(request: uint32) returns (max: uint32)
    requires request <= 0x8000_0000
    ensures IsRoundUp(max, request)
  {
    max := 2;
    ghost var n := 0;
    assert Doubled(0) == 2 == Pow2(1);
    Pow2At31();
    while max < request
      invariant n <= 30 && max == Doubled(n) == Pow2(n + 1)
      invariant forall k: nat :: Pow2(k) >= 2 && Pow2(k) >= request ==> n + 1 <= k
      decreases 31 - n
    {
      if n == 30 { assert false; }
      forall k: nat | Pow2(k) >= 2 && Pow2(k) >= request ensures n + 2 <= k {
        assert n + 1 <= k;
        assert Pow2(k) != Pow2(n + 1);
      }
      max := Wrap(max * 2);
      n := n + 1;
      DoubledIsPow2(n);
    }
    forall k: nat | Pow2(k) >= 2 && Pow2(k) >= request ensures max <= Pow2(k) {
      Pow2Monotone(n + 1, k);
    }
  }
}
