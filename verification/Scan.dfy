/** The two-phase in-place prefix sum over integers, with the iterations of every level executed in an
    arbitrary order. */
module Scan {
  import opened Modular

  function Sum(s: seq<int>, a: nat, b: nat): int
    requires a <= b <= |s|
  {
    if a == b then 0 else Sum(s, a, b - 1) + s[b - 1]
  }

  lemma {:induction false} SumJoin(s: seq<int>, a: nat, b: nat, c: nat)
    requires a <= b <= c <= |s|
    ensures Sum(s, a, c) == Sum(s, a, b) + Sum(s, b, c)
    decreases c - b
  {
    if b < c {
      SumJoin(s, a, b, c - 1);
    }
  }

  // ----- one level -----

  /** Element x after one level of the up-sweep, and of the down-sweep, with blocks of 2 * w elements. */
  function UpAt(s: seq<int>, w: nat, x: nat): int
    requires w > 0 && x < |s| && |s| % (2 * w) == 0
  {
    BlockInside(|s|, w, x);
    if x % (2 * w) == 2 * w - 1 then s[x] + s[x - w] else s[x]
  }

  function DownAt(s: seq<int>, w: nat, x: nat): int
    requires w > 0 && x < |s| && |s| % (2 * w) == 0
  {
    BlockInside(|s|, w, x);
    if x % (2 * w) == 2 * w - 1 then s[x] + s[x - w]
    else if x % (2 * w) == w - 1 then s[x + w]
    else s[x]
  }

  /** An element's whole block lies inside the array. */
  lemma BlockInside(n: nat, w: nat, x: nat)
    requires w > 0 && x < n && n % (2 * w) == 0
    ensures x % (2 * w) <= x && x - x % (2 * w) + 2 * w <= n
  {
    var v := 2 * w;
    assert n == (n / v) * v && x == (x / v) * v + x % v;
    RemainderAtMost(x, v);
    QuotientBelow(x, v, n / v);
    MultiplyMonotone(x / v + 1, n / v, v);
    assert (x / v + 1) * v == (x / v) * v + v;
  }

  /** Block i of 2 * w elements starts at i * 2 * w; its elements are those whose quotient is i. */
  lemma BlockOf(i: nat, w: nat, x: nat)
    requires w > 0
    ensures x / (2 * w) == i <==> i * (2 * w) <= x < i * (2 * w) + 2 * w
    ensures x / (2 * w) == i ==> x % (2 * w) == x - i * (2 * w)
  {
    var v := 2 * w;
    assert x == (x / v) * v + x % v;
    if i * v <= x < i * v + v {
      RemainderUnique(x, v, i, x - i * v);
    }
  }

  /** How many iterations a level has, and where the block of iteration i starts. */
  function Limit(n: nat, w: nat): nat
    requires w > 0
  {
    (n + 2 * w - 1) / (2 * w)
  }

  function Start(i: nat, w: nat): nat {
    i * (2 * w)
  }

  lemma LevelLimit(n: nat, w: nat)
    requires w > 0 && n % (2 * w) == 0
    ensures Limit(n, w) == n / (2 * w)
  {
    var v := 2 * w;
    assert n == (n / v) * v;
    RemainderUnique(n + v - 1, v, n / v, v - 1);
  }

  /** The blocks in `todo` are as in s, the others as `f` says. */
  ghost predicate LevelSoFar(s: seq<int>, t: seq<int>, w: nat, f: (seq<int>, nat, nat) --> int, todo: set<nat>)
    requires w > 0 && |s| % (2 * w) == 0
    requires forall x: nat :: x < |s| ==> f.requires(s, w, x)
  {
    |t| == |s| && forall x: nat :: x < |s| ==> t[x] == if x / (2 * w) in todo then s[x] else f(s, w, x)
  }

  lemma AllToDo(s: seq<int>, w: nat, f: (seq<int>, nat, nat) --> int)
    requires w > 0 && |s| % (2 * w) == 0
    requires forall x: nat :: x < |s| ==> f.requires(s, w, x)
    ensures LevelSoFar(s, s, w, f, Below(|s| / (2 * w)))
  {
    forall x: nat | x < |s|
      ensures x / (2 * w) in Below(|s| / (2 * w))
    {
      assert |s| == (|s| / (2 * w)) * (2 * w);
      QuotientBelow(x, 2 * w, |s| / (2 * w));
      InBelow(|s| / (2 * w), x / (2 * w));
    }
  }

  lemma BlockEnd(size: nat, w: nat, i: nat)
    requires w > 0 && size % (2 * w) == 0 && i < size / (2 * w)
    ensures i * (2 * w) + 2 * w <= size
  {
    var v := 2 * w;
    assert size == (size / v) * v;
    MultiplyMonotone(i + 1, size / v, v);
    assert (i + 1) * v == i * v + v;
  }

  lemma UpBlockDone(s: seq<int>, t: seq<int>, t': seq<int>, w: nat, todo: set<nat>, i: nat)
    requires w > 0 && |s| % (2 * w) == 0 && i in todo && Start(i, w) + 2 * w <= |s|
    requires LevelSoFar(s, t, w, UpAt, todo)
    requires var k := Start(i, w); t' == t[k + 2 * w - 1 := t[k + 2 * w - 1] + t[k + w - 1]]
    ensures LevelSoFar(s, t', w, UpAt, todo - {i})
  {
    forall x: nat | x < |s|
      ensures t'[x] == if x / (2 * w) in todo - {i} then s[x] else UpAt(s, w, x)
    {
      BlockOf(i, w, x);
      BlockOf(i, w, i * (2 * w) + w - 1);
    }
  }

  lemma DownBlockDone(s: seq<int>, t: seq<int>, t': seq<int>, w: nat, todo: set<nat>, i: nat)
    requires w > 0 && |s| % (2 * w) == 0 && i in todo && Start(i, w) + 2 * w <= |s|
    requires LevelSoFar(s, t, w, DownAt, todo)
    requires var k := Start(i, w); t' == t[k + w - 1 := t[k + 2 * w - 1]][k + 2 * w - 1 := t[k + 2 * w - 1] + t[k + w - 1]]
    ensures LevelSoFar(s, t', w, DownAt, todo - {i})
  {
    var k := Start(i, w);
    BlockOf(i, w, k + w - 1);
    BlockOf(i, w, k + 2 * w - 1);
    forall x: nat | x < |s|
      ensures t'[x] == if x / (2 * w) in todo - {i} then s[x] else DownAt(s, w, x)
    {
      BlockOf(i, w, x);
    }
  }

  ghost predicate UpDone(s: seq<int>, t: seq<int>, w: nat)
    requires w > 0 && |s| % (2 * w) == 0
  {
    |t| == |s| && forall x: nat :: x < |s| ==> t[x] == UpAt(s, w, x)
  }

  lemma UpBlockFits(n: nat, w: nat, i: nat)
    requires w > 0 && n % (2 * w) == 0 && i in Below(Limit(n, w))
    ensures Start(i, w) + 2 * w <= n
  {
    LevelLimit(n, w);
    InBelow(Limit(n, w), i);
    BlockEnd(n, w, i);
  }

  /** One level of the up-sweep; `i :| i in todo` stands for whatever order ParallelFor executes in. */
  method UpSweepLevel(data: array<int>, w: nat)
    requires w > 0 && data.Length % (2 * w) == 0
    modifies data
    ensures UpDone(old(data[..]), data[..], w)
  {
    ghost var s := data[..];
    var todo := Below(Limit(data.Length, w));
    LevelLimit(data.Length, w);
    AllToDo(s, w, UpAt);
    while todo != {}
      invariant LevelSoFar(s, data[..], w, UpAt, todo)
      invariant todo <= Below(Limit(data.Length, w))
      decreases |todo|
    {
      var i :| i in todo;
      UpBlockFits(data.Length, w, i);
      ghost var t := data[..];
      UpSweepBlock(data, Start(i, w), w);
      UpBlockDone(s, t, data[..], w, todo, i);
      todo := todo - {i};
    }
  }

  /** The body of one iteration. */
  method UpSweepBlock(data: array<int>, k: nat, w: nat)
    requires w > 0
    modifies data
    ensures var s := old(data[..]);
            data[..] == if k + 2 * w <= data.Length then s[k + 2 * w - 1 := s[k + 2 * w - 1] + s[k + w - 1]] else s
  {
    var shift := 2 * w;
    if k + shift - 1 < data.Length {
      data[k + shift - 1] := data[k + shift - 1] + data[k + w - 1];
    }
  }

  /** The body of one iteration. */
  method DownSweepBlock(data: array<int>, k: nat, w: nat)
    requires w > 0 && k + w <= data.Length
    modifies data
    ensures var s := old(data[..]);
            data[..] == if k + 2 * w <= data.Length
                        then s[k + w - 1 := s[k + 2 * w - 1]][k + 2 * w - 1 := s[k + 2 * w - 1] + s[k + w - 1]] else s
  {
    var shift := 2 * w;
    var t := data[k + w - 1];
    if k + shift - 1 < data.Length {
      data[k + w - 1] := data[k + shift - 1];
      data[k + shift - 1] := data[k + shift - 1] + t;
    }
  }

  /** A level of the down-sweep whose blocks fit the array, or the first one, whose only block does not. */
  predicate DownLevel(n: nat, w: nat) {
    w > 0 && (n % (2 * w) == 0 || n == w)
  }

  ghost predicate DownSoFar(s: seq<int>, t: seq<int>, w: nat, todo: set<nat>)
    requires DownLevel(|s|, w)
  {
    if |s| % (2 * w) == 0 then LevelSoFar(s, t, w, DownAt, todo) else t == s
  }

  lemma DownStart(s: seq<int>, w: nat)
    requires DownLevel(|s|, w)
    ensures DownSoFar(s, s, w, Below(Limit(|s|, w)))
  {
    if |s| % (2 * w) == 0 {
      LevelLimit(|s|, w);
      AllToDo(s, w, DownAt);
    }
  }

  lemma DownBlockFits(n: nat, w: nat, i: nat)
    requires DownLevel(n, w) && i in Below(Limit(n, w))
    ensures if n % (2 * w) == 0 then Start(i, w) + 2 * w <= n else Start(i, w) == 0
  {
    InBelow(Limit(n, w), i);
    if n % (2 * w) == 0 {
      LevelLimit(n, w);
      BlockEnd(n, w, i);
    } else {
      RemainderUnique(n + 2 * w - 1, 2 * w, 1, w - 1);
    }
  }

  lemma DownRound(s: seq<int>, t: seq<int>, t': seq<int>, w: nat, todo: set<nat>, i: nat)
    requires DownLevel(|s|, w) && DownSoFar(s, t, w, todo) && |t| == |s| && i in todo
    requires if |s| % (2 * w) == 0 then Start(i, w) + 2 * w <= |s| else Start(i, w) == 0
    requires var k := Start(i, w);
             t' == if k + 2 * w <= |t| then t[k + w - 1 := t[k + 2 * w - 1]][k + 2 * w - 1 := t[k + 2 * w - 1] + t[k + w - 1]] else t
    ensures DownSoFar(s, t', w, todo - {i})
  {
    if |s| % (2 * w) == 0 {
      DownBlockDone(s, t, t', w, todo, i);
    }
  }

  ghost predicate DownDone(s: seq<int>, t: seq<int>, w: nat)
    requires DownLevel(|s|, w)
  {
    |t| == |s| && if |s| % (2 * w) == 0 then forall x: nat :: x < |s| ==> t[x] == DownAt(s, w, x) else t == s
  }

  /** One level of the down-sweep. */
  method DownSweepLevel(data: array<int>, w: nat)
    requires DownLevel(data.Length, w)
    modifies data
    ensures DownDone(old(data[..]), data[..], w)
  {
    ghost var s := data[..];
    var todo := Below(Limit(data.Length, w));
    DownStart(s, w);
    while todo != {}
      invariant DownSoFar(s, data[..], w, todo)
      invariant todo <= Below(Limit(data.Length, w))
      decreases |todo|
    {
      var i :| i in todo;
      DownBlockFits(data.Length, w, i);
      ghost var t := data[..];
      DownSweepBlock(data, Start(i, w), w);
      DownRound(s, t, data[..], w, todo, i);
      todo := todo - {i};
    }
  }

  // ----- both phases -----

  /** Position of the last element of the m-th run of w elements. */
  function Last(m: nat, w: nat): int {
    (m + 1) * w - 1
  }

  /** The m-th run of w elements lies inside an array of n. */
  predicate Fits(m: nat, w: nat, n: nat) {
    (m + 1) * w <= n
  }

  lemma LastBounds(m: nat, w: nat, n: nat)
    requires w > 0 && Fits(m, w, n)
    ensures 0 <= Last(m, w) < n && m * w <= n && (m + 1) * w == m * w + w
  {
    assert (m + 1) * w == m * w + w;
    assert m * w >= 0;
  }

  /** Run m of length 2^e holds its own sum in its last element. */
  predicate RunSum(s: seq<int>, t: seq<int>, m: nat, w: nat)
    requires |t| == |s| && w > 0 && Fits(m, w, |s|)
  {
    LastBounds(m, w, |s|);
    t[Last(m, w)] == Sum(s, m * w, (m + 1) * w)
  }

  /** Run m holds in its last element the sum of everything before it. */
  predicate PrefixSum(s: seq<int>, t: seq<int>, m: nat, w: nat)
    requires |t| == |s| && w > 0 && Fits(m, w, |s|)
  {
    LastBounds(m, w, |s|);
    t[Last(m, w)] == Sum(s, 0, m * w)
  }

  /** After d levels up: every run of length 2^d, and every even run of a shorter power. */
  ghost predicate Up(s: seq<int>, t: seq<int>, d: nat) {
    && |t| == |s|
    && (forall m: nat :: Fits(m, Pow2(d), |s|) ==> RunSum(s, t, m, Pow2(d)))
    && EvenRuns(s, t, d)
  }

  ghost predicate EvenRuns(s: seq<int>, t: seq<int>, d: nat)
    requires |t| == |s|
  {
    forall e: nat, m: nat :: e < d && m % 2 == 0 && Fits(m, Pow2(e), |s|) ==> RunSum(s, t, m, Pow2(e))
  }

  /** On the way down, at runs of length 2^d: prefix sums at those runs, run sums below them. */
  ghost predicate Down(s: seq<int>, t: seq<int>, d: nat) {
    && |t| == |s|
    && (forall m: nat :: Fits(m, Pow2(d), |s|) ==> PrefixSum(s, t, m, Pow2(d)))
    && EvenRuns(s, t, d)
  }

  /** The last elements of the two halves of a block. */
  lemma HalvesOfBlock(m: nat, w: nat)
    requires w > 0
    ensures Last(m, 2 * w) == Last(2 * m + 1, w) && Last(2 * m, w) == Last(2 * m + 1, w) - w
    ensures Last(2 * m + 1, w) % (2 * w) == 2 * w - 1
    ensures Last(2 * m, w) % (2 * w) == w - 1
    ensures m * (2 * w) == (2 * m) * w && (2 * m + 1) * w == (2 * m) * w + w && (2 * m + 2) * w == (m + 1) * (2 * w)
  {
    assert (m + 1) * (2 * w) == m * (2 * w) + 2 * w;
    assert (2 * m + 1) * w == m * (2 * w) + w;
    assert (2 * m + 2) * w == m * (2 * w) + 2 * w;
    RemainderUnique(Last(2 * m + 1, w), 2 * w, m, 2 * w - 1);
    RemainderUnique(Last(2 * m, w), 2 * w, m, w - 1);
  }

  /** A level with half-blocks of 2^d leaves the even runs of shorter powers alone. */
  lemma EvenRunUntouched(m: nat, e: nat, d: nat)
    requires m % 2 == 0 && e <= d
    ensures Last(m, Pow2(e)) % (2 * Pow2(d)) != 2 * Pow2(d) - 1
    ensures e < d ==> Last(m, Pow2(e)) % (2 * Pow2(d)) != Pow2(d) - 1
  {
    var x, w := Last(m, Pow2(e)), Pow2(d);
    BlockBoundary(x, w);
    var q := x / (2 * w);
    OddMultiple(m + 1, e, q + 1, d + 1);
    if e < d {
      OddMultiple(m + 1, e, 2 * q + 1, d);
    }
  }

  lemma FitsHalves(b: nat, w: nat, n: nat)
    requires w > 0 && Fits(b, 2 * w, n)
    ensures Fits(2 * b, w, n) && Fits(2 * b + 1, w, n)
  {
    HalvesOfBlock(b, w);
  }

  lemma UpOneRun(s: seq<int>, t: seq<int>, t': seq<int>, w: nat, m: nat)
    requires |t| == |s| && w > 0 && |s| % (2 * w) == 0 && UpDone(t, t', w) && Fits(m, 2 * w, |s|)
    requires Fits(2 * m, w, |s|) && Fits(2 * m + 1, w, |s|)
    requires RunSum(s, t, 2 * m, w) && RunSum(s, t, 2 * m + 1, w)
    ensures RunSum(s, t', m, 2 * w)
  {
    HalvesOfBlock(m, w);
    LastBounds(m, 2 * w, |s|);
    LastBounds(2 * m + 1, w, |s|);
    LastBounds(2 * m, w, |s|);
    SumJoin(s, (2 * m) * w, (2 * m + 1) * w, (2 * m + 2) * w);
  }

  lemma EvenRunsKept(s: seq<int>, t: seq<int>, t': seq<int>, d: nat, e: nat, m: nat)
    requires |t| == |t'| == |s| && |s| % (2 * Pow2(d)) == 0
    requires UpDone(t, t', Pow2(d)) || (e < d && DownDone(t, t', Pow2(d)))
    requires e <= d && m % 2 == 0 && Fits(m, Pow2(e), |s|) && RunSum(s, t, m, Pow2(e))
    ensures RunSum(s, t', m, Pow2(e))
  {
    LastBounds(m, Pow2(e), |s|);
    EvenRunUntouched(m, e, d);
  }

  /** A level up turns run sums at length 2^d into run sums at length 2^(d + 1). */
  lemma UpLevelKeeps(s: seq<int>, t: seq<int>, t': seq<int>, d: nat)
    requires Up(s, t, d) && |s| % (2 * Pow2(d)) == 0 && UpDone(t, t', Pow2(d))
    ensures Up(s, t', d + 1)
  {
    var w, w2 := Pow2(d), Pow2(d + 1);
    forall m: nat | Fits(m, w2, |s|)
      ensures RunSum(s, t', m, w2)
    {
      FitsHalves(m, w, |s|);
      assert RunSum(s, t, 2 * m, w) && RunSum(s, t, 2 * m + 1, w);
      UpOneRun(s, t, t', w, m);
    }
    forall e: nat, m: nat | e < d + 1 && m % 2 == 0 && Fits(m, Pow2(e), |s|)
      ensures RunSum(s, t', m, Pow2(e))
    {
      assert RunSum(s, t, m, Pow2(e));
      EvenRunsKept(s, t, t', d, e, m);
    }
  }

  /** Both halves of a block after a level down. */
  lemma DownBothRuns(s: seq<int>, t: seq<int>, t': seq<int>, w: nat, b: nat)
    requires |t| == |s| && w > 0 && |s| % (2 * w) == 0 && DownDone(t, t', w)
    requires Fits(b, 2 * w, |s|) && PrefixSum(s, t, b, 2 * w)
    requires Fits(2 * b, w, |s|) && RunSum(s, t, 2 * b, w)
    requires Fits(2 * b + 1, w, |s|)
    ensures PrefixSum(s, t', 2 * b, w) && PrefixSum(s, t', 2 * b + 1, w)
  {
    HalvesOfBlock(b, w);
    LastBounds(b, 2 * w, |s|);
    LastBounds(2 * b, w, |s|);
    LastBounds(2 * b + 1, w, |s|);
    SumJoin(s, 0, (2 * b) * w, (2 * b + 1) * w);
  }

  lemma EvenRunAt(s: seq<int>, t: seq<int>, d: nat, b: nat)
    requires |t| == |s| && EvenRuns(s, t, d + 1) && Fits(2 * b, Pow2(d), |s|)
    ensures RunSum(s, t, 2 * b, Pow2(d))
  {
    var e, m := d, 2 * b;
    assert e < d + 1 && m % 2 == 0 && Fits(m, Pow2(e), |s|);
  }

  lemma PrefixAt(s: seq<int>, t: seq<int>, d: nat, b: nat)
    requires Down(s, t, d + 1) && Fits(b, 2 * Pow2(d), |s|)
    ensures PrefixSum(s, t, b, 2 * Pow2(d))
  {
    var w2 := Pow2(d + 1);
    assert Fits(b, w2, |s|);
  }

  lemma DownOneRun(s: seq<int>, t: seq<int>, t': seq<int>, d: nat, m: nat)
    requires Down(s, t, d + 1) && |s| % (2 * Pow2(d)) == 0 && DownDone(t, t', Pow2(d))
    requires Fits(m, Pow2(d), |s|)
    ensures PrefixSum(s, t', m, Pow2(d))
  {
    var b := m / 2;
    PairInside(s, Pow2(d), m);
    FitsHalves(b, Pow2(d), |s|);
    PrefixAt(s, t, d, b);
    EvenRunAt(s, t, d, b);
    DownBothRuns(s, t, t', Pow2(d), b);
  }

  /** A level down turns prefix sums at runs of length 2^(d + 1) into prefix sums at runs of length 2^d. */
  lemma DownLevelKeeps(s: seq<int>, t: seq<int>, t': seq<int>, d: nat)
    requires Down(s, t, d + 1) && |s| % (2 * Pow2(d)) == 0 && DownDone(t, t', Pow2(d))
    ensures Down(s, t', d)
  {
    forall m: nat | Fits(m, Pow2(d), |s|)
      ensures PrefixSum(s, t', m, Pow2(d))
    {
      DownOneRun(s, t, t', d, m);
    }
    forall e: nat, m: nat | e < d && m % 2 == 0 && Fits(m, Pow2(e), |s|)
      ensures RunSum(s, t', m, Pow2(e))
    {
      assert RunSum(s, t, m, Pow2(e));
      EvenRunsKept(s, t, t', d, e, m);
    }
  }

  /** The block of two runs that contains run m lies inside the array. */
  lemma PairInside(s: seq<int>, w: nat, m: nat)
    requires w > 0 && |s| % (2 * w) == 0 && Fits(m, w, |s|)
    ensures (m / 2 + 1) * (2 * w) <= |s|
  {
    var n := |s| / (2 * w);
    assert |s| == n * (2 * w);
    assert n * (2 * w) == (2 * n) * w;
    assert (2 * n + 1) * w == (2 * n) * w + w;
    if m / 2 + 1 > n {
      MultiplyMonotone(2 * n + 1, m + 1, w);
      assert false;
    }
    MultiplyMonotone(m / 2 + 1, n, 2 * w);
  }

  lemma {:induction false} PowersDivide(d: nat, p: nat)
    requires d <= p
    ensures Pow2(p) % Pow2(d) == 0
  {
    if d > 0 {
      PowersDivide(d - 1, p - 1);
      var q := Pow2(p - 1) / Pow2(d - 1);
      assert Pow2(p - 1) == q * Pow2(d - 1);
      assert Pow2(p) == q * Pow2(d);
      RemainderUnique(Pow2(p), Pow2(d), q, 0);
    }
  }

  /** Clearing the last element of the swept-up array starts the way down. */
  lemma Turn(s: seq<int>, t: seq<int>, p: nat)
    requires |s| == Pow2(p) && Up(s, t, p)
    ensures Down(s, t[|s| - 1 := 0], p)
  {
    var t' := t[|s| - 1 := 0];
    forall m: nat | Fits(m, Pow2(p), |s|)
      ensures PrefixSum(s, t', m, Pow2(p))
    {
      if m > 0 {
        MultiplyMonotone(2, m + 1, Pow2(p));
        assert false;
      }
    }
    forall e: nat, m: nat | e < p && m % 2 == 0 && Fits(m, Pow2(e), |s|)
      ensures RunSum(s, t', m, Pow2(e))
    {
      LastBounds(m, Pow2(e), |s|);
      OddMultiple(m + 1, e, 1, p);
      assert RunSum(s, t, m, Pow2(e));
    }
  }

  lemma UpStart(s: seq<int>)
    ensures Up(s, s, 0)
  {
    forall m: nat | Fits(m, Pow2(0), |s|)
      ensures RunSum(s, s, m, Pow2(0))
    {
      assert Sum(s, m, m + 1) == Sum(s, m, m) + s[m];
    }
  }

  /** Afterwards every element is the sum of the original elements before it. */
  method Scan(sizePow: nat, data: array<int>)
    requires data.Length == Pow2(sizePow)
    modifies data
    ensures forall x: nat :: x < data.Length ==> data[x] == Sum(old(data[..]), 0, x)
  {
    ghost var s := data[..];
    UpStart(s);
    var d: nat := 0;
    while d != sizePow
      invariant d <= sizePow
      invariant Up(s, data[..], d)
    {
      PowersDivide(d + 1, sizePow);
      ghost var t := data[..];
      UpSweepLevel(data, Pow2(d));
      UpLevelKeeps(s, t, data[..], d);
      d := d + 1;
    }
    Turn(s, data[..], sizePow);
    data[data.Length - 1] := 0;
    RemainderUnique(data.Length, 2 * data.Length, 0, data.Length);
    var level: int := sizePow;
    while level >= 0
      invariant -1 <= level <= sizePow
      invariant Down(s, data[..], if level == sizePow then sizePow else level + 1)
    {
      ghost var t := data[..];
      if level < sizePow {
        PowersDivide(level + 1, sizePow);
      }
      DownSweepLevel(data, Pow2(level));
      if level < sizePow {
        DownLevelKeeps(s, t, data[..], level);
      }
      level := level - 1;
    }
    forall x: nat | x < data.Length
      ensures data[x] == Sum(s, 0, x)
    {
      assert PrefixSum(s, data[..], x, Pow2(0));
    }
  }
}
