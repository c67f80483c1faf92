/** The pseudo-random walk over victims: step widths found by Euclid's algorithm, and why a walk with such
    a width meets every worker once. */
module StealWalk {
  import opened Prelude
  import opened Modular

  const WORD := 0x1_0000_0000

  predicate Divides(d: int, n: int)
    requires d > 0
  {
    n % d == 0
  }

  /** No common divisor but 1. */
  ghost predicate Coprime(a: nat, b: nat) {
    forall d: nat :: d > 1 ==> !(Divides(d, a) && Divides(d, b))
  }

  // ----- divisors -----

  lemma DividesSum(d: int, a: int, b: int, q: int)
    requires d > 0 && Divides(d, a) && Divides(d, b)
    ensures Divides(d, a + q * b)
  {
    assert a == (a / d) * d && b == (b / d) * d;
    assert q * b == (q * (b / d)) * d;
    assert a + q * b == (a / d + q * (b / d)) * d + 0;
    RemainderUnique(a + q * b, d, a / d + q * (b / d), 0);
  }

  /** One round of Euclid's algorithm keeps the common divisors. */
  lemma EuclidRound(a: nat, b: nat, d: nat)
    requires b > 0 && d > 0
    ensures (Divides(d, a) && Divides(d, b)) == (Divides(d, b) && Divides(d, a % b))
  {
    assert a == a % b + (a / b) * b;
    assert a % b == a + (-(a / b)) * b;
    if Divides(d, b) {
      if Divides(d, a) {
        DividesSum(d, a, b, -(a / b));
      } else if Divides(d, a % b) {
        DividesSum(d, a % b, b, a / b);
      }
    }
  }

  lemma SelfDivides(a: nat)
    requires a > 0
    ensures Divides(a, a) && Divides(a, 0)
  {
  }

  lemma OnlyOneDividesOne(d: nat)
    requires d > 1
    ensures !Divides(d, 1)
  {
  }

  // ----- the step widths -----

  /** The numbers from 1 to n that are coprime to n, in ascending order. */
  method ComputeCoprimes(n: nat) returns (coprimes: seq<nat>)
    ensures forall i: nat :: i in coprimes <==> 1 <= i <= n && Coprime(i, n)
    ensures forall j, k :: 0 <= j < k < |coprimes| ==> coprimes[j] < coprimes[k]
  {
    coprimes := [];
    var i := 1;
    while i <= n
      invariant 1 <= i <= n + 1
      invariant forall x: nat :: x in coprimes <==> 1 <= x < i && Coprime(x, n)
      invariant forall j, k :: 0 <= j < k < |coprimes| ==> coprimes[j] < coprimes[k]
    {
      var a: nat, b := i, n;
      while b != 0
        invariant a > 0
        invariant forall d: nat :: d > 0 ==> (Divides(d, a) && Divides(d, b)) == (Divides(d, i) && Divides(d, n))
        decreases b
      {
        forall d: nat | d > 0
          ensures (Divides(d, a) && Divides(d, b)) == (Divides(d, b) && Divides(d, a % b))
        {
          EuclidRound(a, b, d);
        }
        var tmp := a;
        a := b;
        b := tmp % b;
      }
      CoprimeByGcd(i, n, a);
      if a == 1 {
        assert forall j :: 0 <= j < |coprimes| ==> coprimes[j] in coprimes;
        coprimes := coprimes + [i];
      }
      i := i + 1;
    }
  }

  lemma CoprimeByGcd(i: nat, n: nat, a: nat)
    requires a > 0
    requires forall d: nat :: d > 0 ==> (Divides(d, a) && Divides(d, 0)) == (Divides(d, i) && Divides(d, n))
    ensures Coprime(i, n) <==> a == 1
  {
    SelfDivides(a);
    forall d: nat | d > 1
      ensures !Divides(d, 1) && Divides(d, 0)
    {
      OnlyOneDividesOne(d);
    }
  }

  lemma OneIsCoprime(n: nat)
    requires n >= 1
    ensures Coprime(1, n)
  {
    forall d: nat | d > 1
      ensures !Divides(d, 1)
    {
      OnlyOneDividesOne(d);
    }
  }

  // ----- Bezout -----

  /** The greatest common divisor as a combination of the two numbers. */
  lemma {:induction false} Bezout(a: nat, b: nat) returns (x: int, y: int, g: nat)
    requires a > 0 || b > 0
    ensures g > 0 && x * a + y * b == g && Divides(g, a) && Divides(g, b)
    decreases b
  {
    if b == 0 {
      x, y, g := 1, 0, a;
      SelfDivides(a);
    } else {
      var x1, y1;
      x1, y1, g := Bezout(b, a % b);
      EuclidRound(a, b, g);
      x, y := y1, x1 - (a / b) * y1;
      var q := a / b;
      assert a == q * b + a % b;
      assert y1 * a == y1 * (q * b) + y1 * (a % b);
      assert y * b == x1 * b - (q * y1) * b;
      assert y1 * (q * b) == (q * y1) * b;
    }
  }

  /** A multiple of a number coprime to n is a multiple of n only if its factor is. */
  lemma CoprimeCancels(n: nat, inc: nat, k: int)
    requires n > 0 && Coprime(inc, n) && Divides(n, k * inc)
    ensures Divides(n, k)
  {
    var x, y, g := Bezout(inc, n);
    assert g == 1;
    assert k == k * (x * inc + y * n);
    assert k * (x * inc + y * n) == x * (k * inc) + (k * y) * n;
    assert (k * y) * n == (k * y) * n + 0;
    RemainderUnique((k * y) * n, n, k * y, 0);
    DividesSum(n, (k * y) * n, k * inc, x);
  }

  // ----- the walk -----

  /** The offset visited in step i. */
  function Victim(size: nat, first: nat, inc: nat, i: nat): (v: nat)
    requires size > 0
    ensures v < size
  {
    (first + i * inc) % size
  }

  /** Adding the width and subtracting the size once on overflow is the next step of the walk. */
  lemma NextVictim(size: nat, first: nat, inc: nat, i: nat)
    requires 0 < inc <= size
    ensures var v := Victim(size, first, inc, i) + inc;
            Victim(size, first, inc, i + 1) == if v >= size then v - size else v
  {
    var x := first + i * inc;
    var v := x % size + inc;
    assert first + (i + 1) * inc == x + inc;
    assert x == (x / size) * size + x % size;
    if v >= size {
      assert x + inc == (x / size + 1) * size + (v - size) by {
        assert (x / size + 1) * size == (x / size) * size + size;
      }
      RemainderUnique(x + inc, size, x / size + 1, v - size);
    } else {
      RemainderUnique(x + inc, size, x / size, v);
    }
  }

  /** No worker is visited twice in one walk. */
  lemma WalkInjective(size: nat, first: nat, inc: nat, i: nat, j: nat)
    requires i < size && j < size && Coprime(inc, size)
    requires Victim(size, first, inc, i) == Victim(size, first, inc, j)
    ensures i == j
  {
    var x, y := first + i * inc, first + j * inc;
    assert x - y == (i - j) * inc;
    assert x == (x / size) * size + x % size && y == (y / size) * size + y % size;
    assert (x / size - y / size) * size == (x / size) * size - (y / size) * size;
    RemainderUnique(x - y, size, x / size - y / size, 0);
    CoprimeCancels(size, inc, i - j);
    RemainderUnique(0, size, 0, 0);
    RemainderInjective(i - j, 0, size);
  }

  lemma {:induction false} BelowSize(n: nat)
    ensures |Below(n)| == n
  {
    if n > 0 {
      BelowSize(n - 1);
      InBelow(n - 1, n - 1);
    }
  }

  function Elements(s: seq<nat>): set<nat> {
    set x | x in s
  }

  lemma {:induction false} DistinctElements(s: seq<nat>)
    requires forall i, j :: 0 <= i < j < |s| ==> s[i] != s[j]
    ensures |Elements(s)| == |s|
  {
    if s != [] {
      var n := |s| - 1;
      DistinctElements(s[..n]);
      assert s == s[..n] + [s[n]];
      assert Elements(s) == Elements(s[..n]) + {s[n]};
    }
  }

  lemma SubsetOfSameSize(a: set<nat>, b: set<nat>)
    requires a <= b && |a| == |b|
    ensures a == b
  {
    if x :| x in b && x !in a {
      assert a <= b - {x};
      CardinalityMonotone(a, b - {x});
    }
  }

  lemma {:induction false} CardinalityMonotone(a: set<nat>, b: set<nat>)
    requires a <= b
    ensures |a| <= |b|
  {
    if x :| x in a {
      CardinalityMonotone(a - {x}, b - {x});
    }
  }

  /** A full walk visits every worker: `probed` lists `size` different offsets below `size`. */
  lemma FullWalkCovers(size: nat, probed: seq<nat>)
    requires |probed| == size
    requires forall i :: 0 <= i < size ==> probed[i] < size
    requires forall i, j :: 0 <= i < j < size ==> probed[i] != probed[j]
    ensures forall v: nat :: v < size ==> v in probed
  {
    DistinctElements(probed);
    BelowSize(size);
    forall v | v in Elements(probed)
      ensures v in Below(size)
    {
      InBelow(size, v);
    }
    SubsetOfSameSize(Elements(probed), Below(size));
    forall v: nat | v < size
      ensures v in probed
    {
      InBelow(size, v);
      assert v in Elements(probed);
    }
  }

  /** Lemire's reduction of a random word into [0, n). */
  lemma ReducedBelow(r: nat, n: nat)
    requires r < WORD && n > 0
    ensures r * n / WORD < n
  {
    assert r * n < WORD * n by {
      MultiplyMonotone(r + 1, WORD, n);
      assert (r + 1) * n == r * n + n;
    }
    QuotientBelow(r * n, WORD, n);
  }

  /** v is the part, of n equal parts of the words, in which r lies. */
  predicate IsReduced(r: nat, n: nat, v: int) {
    v * WORD <= r * n < (v + 1) * WORD
  }

  lemma ReducedIs(r: nat, n: nat)
    ensures IsReduced(r, n, r * n / WORD)
  {
  }

  /** The probes start at `first` and go on by the width, round the size. */
  predicate IsWalk(probed: seq<nat>, start: nat, size: nat, first: nat, inc: nat)
    requires size > 0
  {
    forall i: nat :: i < |probed| ==> probed[i] == start + Victim(size, first, inc, i)
  }

  /** The word r decides the first victim and the width. */
  predicate DrawnWalk(r: nat, coprimes: seq<nat>, probed: seq<nat>, start: nat, limit: nat, first: nat, index: nat)
    requires start < limit
  {
    && index < |coprimes|
    && IsReduced(r, limit - start, first) && IsReduced(r, |coprimes|, index)
    && IsWalk(probed, start, limit - start, first, coprimes[index])
  }

  /** A walk of coprime width of at most `size` steps stays in bounds and repeats no worker ... */
  lemma WalkDistinct(probed: seq<nat>, start: nat, size: nat, first: nat, inc: nat)
    requires size > 0 && |probed| <= size && Coprime(inc, size) && IsWalk(probed, start, size, first, inc)
    ensures forall i :: 0 <= i < |probed| ==> start <= probed[i] < start + size
    ensures forall i, j :: 0 <= i < j < |probed| ==> probed[i] != probed[j]
  {
    forall i: nat, j: nat | i < j < |probed|
      ensures probed[i] != probed[j]
    {
      if probed[i] == probed[j] {
        WalkInjective(size, first, inc, i, j);
      }
    }
  }

  /** ... and a full one meets every worker. */
  lemma WalkCovers(probed: seq<nat>, start: nat, size: nat, first: nat, inc: nat)
    requires size > 0 && |probed| == size && Coprime(inc, size) && IsWalk(probed, start, size, first, inc)
    ensures forall v :: start <= v < start + size ==> v in probed
  {
    WalkDistinct(probed, start, size, first, inc);
    var offsets := seq(size, i requires 0 <= i < size => probed[i] - start);
    FullWalkCovers(size, offsets);
    forall v | start <= v < start + size
      ensures v in probed
    {
      assert v - start in offsets;
      var k :| 0 <= k < size && offsets[k] == v - start;
      assert probed[k] == v;
    }
  }

  /** One attempt to steal from the workers start to limit - 1. `answers[i]` is what PopBack returns at
      probe i; `coprimes` is the table computed for this size and `r` the random word. */
  method Steal(start: nat, limit: nat, coprimes: seq<nat>, r: nat, answers: seq<Option<Work>>)
    returns (task: Option<Work>, probed: seq<nat>)
    requires start < limit && r < WORD
    requires forall i: nat :: i in coprimes <==> 1 <= i <= limit - start && Coprime(i, limit - start)
    requires |answers| == limit - start
    ensures forall i :: 0 <= i < |probed| ==> start <= probed[i] < limit
    ensures forall i, j :: 0 <= i < j < |probed| ==> probed[i] != probed[j]
    ensures 0 < |probed| <= limit - start
    ensures exists first: nat, index: nat :: DrawnWalk(r, coprimes, probed, start, limit, first, index)
    ensures forall i :: 0 <= i < |probed| - 1 ==> answers[i].None?
    ensures task == answers[|probed| - 1]
    ensures task.None? ==> forall v :: start <= v < limit ==> v in probed
  {
    var size := limit - start;
    var first, index, inc := Draw(size, coprimes, r);
    var victim := first;
    probed, task := [], None;
    var i := 0;
    assert 0 * inc == 0;
    RemainderUnique(first, size, 0, first);
    while i < size
      invariant 0 <= i <= size && |probed| == i
      invariant victim == Victim(size, first, inc, i)
      invariant IsWalk(probed, start, size, first, inc)
      invariant forall k :: 0 <= k < i ==> answers[k].None?
      invariant i > 0 ==> task == answers[i - 1]
    {
      assert start + victim < limit;
      probed := probed + [start + victim];
      task := answers[i];
      if task.Some? {
        break;
      }
      NextVictim(size, first, inc, i);
      victim := victim + inc;
      if victim >= size {
        victim := victim - size;
      }
      i := i + 1;
    }
    assert DrawnWalk(r, coprimes, probed, start, limit, first, index);
    WalkDistinct(probed, start, size, first, inc);
    if task.None? {
      WalkCovers(probed, start, size, first, inc);
    }
  }

  /** The first victim and the width. */
  method Draw(size: nat, coprimes: seq<nat>, r: nat) returns (first: nat, index: nat, inc: nat)
    requires size > 0 && r < WORD
    requires forall i: nat :: i in coprimes <==> 1 <= i <= size && Coprime(i, size)
    ensures first < size && IsReduced(r, size, first)
    ensures index < |coprimes| && IsReduced(r, |coprimes|, index) && inc == coprimes[index]
    ensures 0 < inc <= size && Coprime(inc, size)
  {
    OneIsCoprime(size);
    assert 1 in coprimes;
    ReducedBelow(r, size);
    ReducedBelow(r, |coprimes|);
    ReducedIs(r, size);
    ReducedIs(r, |coprimes|);
    first := r * size / WORD;
    index := r * |coprimes| / WORD;
    inc := coprimes[index];
    assert inc in coprimes;
  }
}
