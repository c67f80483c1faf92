/** Facts about remainders, kept away from the modules that use them: every proof about the packed
    indices, the ring slots and the steal walk goes through these names. */
module Modular {

  lemma SmallMultiple(d: int, m: int)
    requires m > 0
    requires -m < d * m < m
    ensures d == 0
  {
    assert d >= 1 ==> d * m >= m;
    assert d <= -1 ==> d * m <= -m;
  }

  /** The remainder is the only number in [0, m) that differs from x by a multiple of m. */
  lemma RemainderUnique(x: int, m: int, q: int, r: int)
    requires 0 <= r < m
    requires x == q * m + r
    ensures x % m == r && x / m == q
  {
    var d := x / m - q;
    assert x == (x / m) * m + x % m;
    assert d * m == r - x % m by {
      assert d * m == (x / m) * m - q * m;
    }
    SmallMultiple(d, m);
  }

  lemma ShiftByMultiple(x: int, m: int, q: int)
    requires m > 0
    ensures (x + q * m) % m == x % m
  {
    assert x + q * m == (x / m + q) * m + x % m;
    RemainderUnique(x + q * m, m, x / m + q, x % m);
  }

  lemma ShiftByOne(x: int, m: int)
    requires m > 0
    ensures (x + m) % m == x % m
  {
    ShiftByMultiple(x, m, 1);
  }

  /** Congruent numbers stay congruent under the same offset. */
  lemma ShiftCongruent(x: int, y: int, d: int, m: int)
    requires m > 0
    requires x % m == y % m
    ensures (x + d) % m == (y + d) % m
  {
    assert x + d == (y + d) + (x / m - y / m) * m by {
      assert x == (x / m) * m + x % m;
      assert y == (y / m) * m + y % m;
      assert (x / m - y / m) * m == (x / m) * m - (y / m) * m;
    }
    ShiftByMultiple(y + d, m, x / m - y / m);
  }

  /** Two numbers less than m apart with the same remainder are equal. */
  lemma RemainderInjective(x: int, y: int, m: int)
    requires m > 0
    requires x % m == y % m
    requires -m < x - y < m
    ensures x == y
  {
    var d := x / m - y / m;
    assert x - y == d * m by {
      assert x == (x / m) * m + x % m;
      assert y == (y / m) * m + y % m;
      assert d * m == (x / m) * m - (y / m) * m;
    }
    SmallMultiple(d, m);
  }

  /** Reducing first modulo a multiple of m changes nothing modulo m. */
  lemma ReduceTwice(x: int, m: int, c: int)
    requires m > 0 && c > 0
    ensures c * m > 0 && (x % (c * m)) % m == x % m
  {
    assert c * m > 0;
    var n := c * m;
    assert x == (x / n) * n + x % n;
    assert (x / n) * n == (x / n * c) * m;
    ShiftByMultiple(x % n, m, x / n * c);
  }

  lemma RemainderAtMost(x: nat, m: int)
    requires m > 0
    ensures 0 <= x % m <= x
  {
    if x < m {
      RemainderUnique(x, m, 0, x);
    }
  }

  /** A number and its remainder modulo n * q have quotients by n that agree modulo q. */
  lemma QuotientOfRemainder(y: int, n: int, q: int)
    requires n > 0 && q > 0
    ensures q * n > 0 && (y % (q * n)) / n == (y / n) % q
  {
    assert q * n > 0;
    var r := y % (q * n);
    assert y == (y / (q * n)) * (q * n) + r;
    assert (y / (q * n)) * (q * n) == (y / (q * n) * q) * n;
    assert y == (y / (q * n) * q + r / n) * n + r % n by {
      assert r == (r / n) * n + r % n;
      assert (y / (q * n) * q + r / n) * n == (y / (q * n) * q) * n + (r / n) * n;
    }
    RemainderUnique(y, n, y / (q * n) * q + r / n, r % n);
    var e := r / n;
    assert e >= q ==> e * n >= q * n;
    RemainderUnique(y / n, q, y / (q * n), r / n);
  }

  /** Changing a number below n * q within its block of n keeps it below. */
  lemma BlockFits(i: nat, r: int, n: int, q: int)
    requires n > 0 && 0 <= r < n && i < q * n
    ensures (i - i % n) + r < q * n
  {
    var e := i / n;
    assert i == e * n + i % n;
    assert e >= q ==> e * n >= q * n;
    assert (e + 1) * n <= q * n;
  }

  /** Rounding n / t up. */
  lemma CeilingShare(n: nat, t: nat)
    requires n >= 2 && t >= 2
    ensures 1 <= (n + t - 1) / t < n
    ensures n <= t ==> (n + t - 1) / t == 1
  {
    var y := n + t - 1;
    var q := y / t;
    assert y == q * t + y % t;
    assert (n - 1) * (t - 1) >= 1 * (t - 1) by {
      MultiplyMonotone(1, n - 1, t - 1);
    }
    assert (n - 1) * (t - 1) == n * t - n - t + 1;
    if n <= t {
      RemainderUnique(y, t, 1, n - 1);
    }
    QuotientBelow(y, t, n);
    QuotientAtLeast(y, t, 1);
  }

  lemma MultiplyMonotone(a: int, b: int, m: nat)
    requires a <= b
    ensures a * m <= b * m
  {
    assert (b - a) * m >= 0;
    assert (b - a) * m == b * m - a * m;
  }

  lemma QuotientBelow(y: int, m: int, bound: int)
    requires m > 0 && y < bound * m
    ensures y / m < bound
  {
    if y / m >= bound {
      MultiplyMonotone(bound, y / m, m);
      assert false;
    }
  }

  lemma QuotientAtLeast(y: int, m: int, bound: int)
    requires m > 0 && y >= bound * m
    ensures y / m >= bound
  {
    var q := y / m;
    assert y == q * m + y % m;
    assert (q + 1) * m == q * m + m;
    if q < bound {
      MultiplyMonotone(q + 1, bound, m);
      assert false;
    }
  }

  function Pow2(n: nat): (r: nat)
    ensures r > 0
  {
    if n == 0 then 1 else 2 * Pow2(n - 1)
  }

  /** An odd multiple of 2^e is no multiple of 2^d when e < d. */
  lemma {:induction false} OddMultiple(m: nat, e: nat, q: int, d: nat)
    requires m % 2 == 1 && e < d
    ensures m * Pow2(e) != q * Pow2(d)
  {
    assert q * Pow2(d) == 2 * (q * Pow2(d - 1));
    if e > 0 {
      OddMultiple(m, e - 1, q, d - 1);
      assert m * Pow2(e) == 2 * (m * Pow2(e - 1));
    }
  }

  /** One past the last element of a block, and of its first half. */
  lemma BlockBoundary(x: int, w: int)
    requires w > 0
    ensures x % (2 * w) == 2 * w - 1 ==> x + 1 == (x / (2 * w) + 1) * (2 * w)
    ensures x % (2 * w) == w - 1 ==> x + 1 == (2 * (x / (2 * w)) + 1) * w
  {
    var q := x / (2 * w);
    assert x == q * (2 * w) + x % (2 * w);
    assert (q + 1) * (2 * w) == q * (2 * w) + 2 * w;
    assert (2 * q + 1) * w == q * (2 * w) + w;
  }

  /** The iterations of a ParallelFor over [0, n). */
  function Below(n: nat): set<nat> {
    if n == 0 then {} else Below(n - 1) + {n - 1}
  }

  lemma {:induction false} InBelow(n: nat, i: nat)
    ensures i in Below(n) <==> i < n
  {
    if n > 0 {
      InBelow(n - 1, i);
    }
  }
}
