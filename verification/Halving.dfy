/** Halving what is left of a range until no piece is larger than the grain, and the grain that a time span
    leaves. */
module Halving {
  import opened Distribution

  // ----- balancing by halves -----

  /** The ranges that are finally executed when [current, end) is balanced with grain g and the stack never
      fills: the task keeps halving, and so does every task it spawns. */
  function Leaves(current: nat, end: nat, g: nat): seq<Range>
    requires current <= end && g >= 1
    decreases end - current
  {
    if current + g < end then
      var mid := current + (end - current) / 2;
      Leaves(current, mid, g) + Leaves(mid, end, g)
    else [Range(current, end)]
  }

  function LeavesAll(rs: seq<Range>, g: nat): seq<Range>
    requires g >= 1 && forall r :: r in rs ==> r.from <= r.to
  {
    if rs == [] then [] else Leaves(rs[0].from, rs[0].to, g) + LeavesAll(rs[1..], g)
  }

  /** Balancing respects the grain: the executed ranges tile the original and, when that is larger than the
      grain, each holds between floor((g + 1) / 2) and g iterations. */
  lemma {:induction false} LeafSizes(current: nat, end: nat, g: nat)
    requires current <= end && g >= 1
    ensures Tiles(Leaves(current, end, g), current, end)
    ensures end - current > g ==> forall r :: r in Leaves(current, end, g) ==> (g + 1) / 2 <= r.Size() <= g
    ensures end - current <= g ==> Leaves(current, end, g) == [Range(current, end)]
    decreases end - current
  {
    if current + g < end {
      var mid := current + (end - current) / 2;
      LeafSizes(current, mid, g);
      LeafSizes(mid, end, g);
      TilesJoin(Leaves(current, mid, g), Leaves(mid, end, g), current, mid, end);
    }
  }

  /** The iterations from a to b, in order. */
  function Iterations(a: nat, b: nat): seq<nat>
    requires a <= b
  {
    seq(b - a, i requires 0 <= i < b - a => a + i)
  }

  lemma IterationsJoin(a: nat, b: nat, c: nat)
    requires a <= b <= c
    ensures Iterations(a, b) + Iterations(b, c) == Iterations(a, c)
  {
  }

  lemma LeafStays(current: nat, end: nat, g: nat)
    requires current <= end <= current + g && g >= 1
    ensures Leaves(current, end, g) == [Range(current, end)]
  {
  }

  lemma PrependTile(r: Range, rs: seq<Range>, from: nat, to: nat)
    requires r.from == from && from <= r.to && Tiles(rs, r.to, to)
    ensures Tiles([r] + rs, from, to)
  {
    TilesInside(rs, r.to, to);
    assert ([r] + rs)[1..] == rs;
  }

  lemma PrependLeaves(r: Range, rs: seq<Range>, g: nat)
    requires g >= 1 && r.from <= r.to && forall x :: x in rs ==> x.from <= x.to
    ensures LeavesAll([r] + rs, g) == Leaves(r.from, r.to, g) + LeavesAll(rs, g)
  {
    assert ([r] + rs)[1..] == rs;
  }

  /** [current, to) has been halved down to [current, end) and the spawned ranges, listed last first. */
  predicate Halved(current: nat, end: nat, to: nat, spawned: seq<Range>, g: nat) {
    && g >= 1 && current <= end <= to
    && Tiles(spawned, end, to)
    && (forall r :: r in spawned ==> r.from <= r.to)
    && Leaves(current, to, g) == Leaves(current, end, g) + LeavesAll(spawned, g)
  }

  lemma HalvedStart(current: nat, to: nat, g: nat)
    requires current <= to && g >= 1
    ensures Halved(current, to, to, [], g)
  {
  }

  lemma HalvedRound(current: nat, end: nat, to: nat, spawned: seq<Range>, g: nat, mid: nat)
    requires Halved(current, end, to, spawned, g) && current + g < end
    requires mid == current + (end - current) / 2
    ensures Halved(current, mid, to, [Range(mid, end)] + spawned, g)
  {
    PrependTile(Range(mid, end), spawned, mid, to);
    PrependLeaves(Range(mid, end), spawned, g);
    TilesInside(spawned, end, to);
  }

  // ----- the measured grain -----

  /** The grain that a span of m iterations leaves. */
  predicate Measured(m: nat, grain: nat) {
    grain >= 1 && m <= grain <= m + 1
  }

  /** What is left after a span of m, when it is more than m, is balanced into ranges of (m + 1) / 2 to m
      iterations; otherwise it stays in one piece. */
  lemma MeasuredLeaves(current: nat, end: nat, m: nat, g: nat)
    requires current <= end && Measured(m, g) && (current < end ==> g == m)
    ensures end - current > m ==> forall r :: r in Leaves(current, end, g) ==> (m + 1) / 2 <= r.Size() <= m
    ensures end - current <= m ==> Leaves(current, end, g) == [Range(current, end)]
  {
    LeafSizes(current, end, g);
  }
}
