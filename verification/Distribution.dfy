/** How a ParallelFor task gives work away: by sharing it over a range of threads, and by halving what is
    left until pieces are no larger than the grain. */
module Distribution {
  import opened Modular

  datatype Range = Range(from: nat, to: nat) {
    function Size(): int {
      to - from
    }
  }

  /** A piece of the data handed to a range of threads; the first of them is the scheduling hint. */
  datatype Piece = Piece(data: Range, threads: Range)

  const K_SPLIT := 2

  function Min(a: nat, b: nat): nat {
    if a < b then a else b
  }

  predicate Divisible(current: nat, end: nat, grain: nat, halfFull: bool) {
    current + grain < end && !halfFull
  }

  /** Consecutive, non-empty-or-empty ranges from one end to the other. */
  predicate Tiles(rs: seq<Range>, from: nat, to: nat) {
    if rs == [] then from == to
    else rs[0].from == from && from <= rs[0].to <= to && Tiles(rs[1..], rs[0].to, to)
  }

  lemma {:induction false} TilesJoin(xs: seq<Range>, ys: seq<Range>, a: nat, b: nat, c: nat)
    requires Tiles(xs, a, b) && Tiles(ys, b, c)
    ensures Tiles(xs + ys, a, c) && a <= b <= c
    decreases |xs|, |ys|
  {
    if xs == [] {
      assert xs + ys == ys;
      TilesInside(ys, b, c);
    } else {
      TilesJoin(xs[1..], ys, xs[0].to, b, c);
      assert (xs + ys)[1..] == xs[1..] + ys;
    }
  }

  /** Ranges that tile an interval are a partition of it: every number lies in exactly one. */
  lemma {:induction false} TilesPartition(rs: seq<Range>, from: nat, to: nat, i: nat) returns (k: nat)
    requires Tiles(rs, from, to) && from <= i < to
    ensures k < |rs| && rs[k].from <= i < rs[k].to
    ensures forall j :: 0 <= j < |rs| && rs[j].from <= i < rs[j].to ==> j == k
  {
    TilesInside(rs[1..], rs[0].to, to);
    if i < rs[0].to {
      k := 0;
      assert forall j :: 1 <= j < |rs| ==> rs[j] == rs[1..][j - 1];
    } else {
      var k0 := TilesPartition(rs[1..], rs[0].to, to, i);
      k := k0 + 1;
      assert forall j :: 1 <= j < |rs| ==> rs[j] == rs[1..][j - 1];
    }
  }

  lemma {:induction false} TilesInside(rs: seq<Range>, from: nat, to: nat)
    requires Tiles(rs, from, to)
    ensures from <= to
    ensures forall j :: 0 <= j < |rs| ==> from <= rs[j].from <= rs[j].to <= to
  {
    if rs != [] {
      TilesInside(rs[1..], rs[0].to, to);
      assert forall j :: 1 <= j < |rs| ==> rs[j] == rs[1..][j - 1];
    }
  }

  // ----- sharing -----

  /** The first iteration that is given away: this thread keeps 1/threads of them, rounded up. */
  function Keep(current: nat, end: nat, threads: nat): nat
    requires current <= end && threads > 0
  {
    current + (end - current + threads - 1) / threads
  }

  lemma KeepsSome(current: nat, end: nat, threads: nat)
    requires current + 1 < end && threads >= 2
    ensures current < Keep(current, end, threads) < end
    ensures end - current <= threads ==> Keep(current, end, threads) == current + 1
  {
    CeilingShare(end - current, threads);
  }

  /** The splits of one round of the loop over the parts. */
  function ThreadSplit(from: nat, to: nat, step: nat, mod: nat, parts: nat, i: nat): nat
    requires i < parts
  {
    Min(to, from + step + if parts - 1 - i < mod then 1 else 0)
  }

  function DataSplit(from: nat, to: nat, step: nat, mod: nat, parts: nat, i: nat, threadsMod: nat): nat
    requires i < parts
  {
    Min(to, from + step + if (if threadsMod == 0 then i else parts - 1 - i) < mod then 1 else 0)
  }

  /** The children of one round of sharing, in order: at most two parts, the threads divided as evenly as
      can be, the data likewise with the odd one going where the thread counts allow. */
  function Children(data: Range, threads: Range): seq<Piece>
    requires data.from < data.to && threads.from < threads.to
  {
    var n, t := data.Size(), threads.Size();
    if n == 1 || t == 1 then [Piece(data, threads)]
    else
      var t1 := threads.from + t / 2;
      var n1 := data.from + n / 2 + if t % 2 == 0 then n % 2 else 0;
      [Piece(Range(data.from, n1), Range(threads.from, t1)), Piece(Range(n1, data.to), Range(t1, threads.to))]
  }

  /** What a task shares: nothing when it has one thread or is not divisible. */
  function Shared(current: nat, end: nat, threads: Range, grain: nat, halfFull: bool): seq<Piece>
    requires current <= end && threads.from < threads.to && grain >= 1
  {
    if threads.Size() != 1 && Divisible(current, end, grain, halfFull) then
      KeepsSome(current, end, threads.Size());
      Children(Range(Keep(current, end, threads.Size()), end), Range(threads.from + 1, threads.to))
    else []
  }

  function Kept(current: nat, end: nat, threads: Range, grain: nat, halfFull: bool): nat
    requires current <= end && threads.from < threads.to && grain >= 1
  {
    if threads.Size() != 1 && Divisible(current, end, grain, halfFull) then Keep(current, end, threads.Size())
    else end
  }

  function Data(ps: seq<Piece>): seq<Range> {
    seq(|ps|, i requires 0 <= i < |ps| => ps[i].data)
  }

  function Threads(ps: seq<Piece>): seq<Range> {
    seq(|ps|, i requires 0 <= i < |ps| => ps[i].threads)
  }

  /** The kept prefix and the children's data tile the task's range, no child is empty, and the children's
      threads tile all the task's threads but its first. */
  lemma SharedTiles(current: nat, end: nat, threads: Range, grain: nat, halfFull: bool)
    requires current <= end && threads.from < threads.to && grain >= 1
    ensures var ps := Shared(current, end, threads, grain, halfFull);
            var kept := Kept(current, end, threads, grain, halfFull);
            && |ps| <= K_SPLIT && current <= kept <= end
            && (ps != [] ==> current < kept)
            && Tiles([Range(current, kept)] + Data(ps), current, end)
            && Tiles(Data(ps), kept, end)
            && (forall p :: p in ps ==> p.data.from < p.data.to && p.threads.from < p.threads.to)
            && (ps != [] ==> Tiles(Threads(ps), threads.from + 1, threads.to))
  {
    var ps := Shared(current, end, threads, grain, halfFull);
    var kept := Kept(current, end, threads, grain, halfFull);
    assert ([Range(current, kept)] + Data(ps))[1..] == Data(ps);
    if ps != [] {
      KeepsSome(current, end, threads.Size());
      if |ps| == 1 {
        assert Data(ps) == [ps[0].data] && Threads(ps) == [ps[0].threads];
      } else {
        assert Data(ps) == [ps[0].data, ps[1].data] && Threads(ps) == [ps[0].threads, ps[1].threads];
        assert Data(ps)[1..] == [ps[1].data] && Threads(ps)[1..] == [ps[1].threads];
        assert Tiles([ps[1].data], ps[1].data.from, end);
        assert Tiles([ps[1].threads], ps[1].threads.from, threads.to);
      }
    }
  }

  /** A task that shares keeps one part in as many as it has threads, rounded up. */
  lemma KeepsShare(current: nat, end: nat, threads: Range, grain: nat, halfFull: bool)
    requires current <= end && threads.from < threads.to && grain >= 1
    requires Shared(current, end, threads, grain, halfFull) != []
    ensures var kept := Kept(current, end, threads, grain, halfFull);
            (kept - current - 1) * threads.Size() < end - current <= (kept - current) * threads.Size()
  {
    var t, x := threads.Size(), end - current + threads.Size() - 1;
    assert x == (x / t) * t + x % t;
    assert (x / t - 1) * t == (x / t) * t - t;
  }

  /** Two children differ by at most one iteration and by at most one thread. The last has the odd thread;
      the odd iteration goes to the first when the threads divide evenly, otherwise to the last. */
  lemma SharesEvenly(current: nat, end: nat, threads: Range, grain: nat, halfFull: bool)
    requires current <= end && threads.from < threads.to && grain >= 1
    requires |Shared(current, end, threads, grain, halfFull)| == 2
    ensures var ps := Shared(current, end, threads, grain, halfFull);
            var others, given := threads.Size() - 1, end - Kept(current, end, threads, grain, halfFull);
            && ps[1].threads.Size() - ps[0].threads.Size() == others % 2
            && (if others % 2 == 0 then ps[0].data.Size() - ps[1].data.Size() else ps[1].data.Size() - ps[0].data.Size()) == given % 2
  {
    KeepsSome(current, end, threads.Size());
  }

  /** One child gets everything that is given away: there is one iteration or one thread for it. Nothing is
      shared exactly when the task has one thread or is not divisible. */
  lemma SharesWhen(current: nat, end: nat, threads: Range, grain: nat, halfFull: bool)
    requires current <= end && threads.from < threads.to && grain >= 1
    ensures var ps := Shared(current, end, threads, grain, halfFull);
            && (ps == [] <==> threads.Size() == 1 || halfFull || end - current <= grain)
            && (|ps| == 1 ==> end - ps[0].data.from == 1 || threads.Size() == 2)
            && (|ps| == 2 ==> end - ps[0].data.from >= 2 && threads.Size() >= 3)
  {
    if threads.Size() != 1 && Divisible(current, end, grain, halfFull) {
      KeepsSome(current, end, threads.Size());
    }
  }

  // ----- the whole tree of shared tasks -----

  /** What one thread is given before any stealing. */
  datatype Assignment = Assignment(thread: nat, data: Range)

  /** All tasks of a call, in the order of their data; `full` stands for the stack test of the task that
      owns a range of threads. */
  function Plan(full: Range -> bool, current: nat, end: nat, threads: Range, grain: nat): seq<Assignment>
    requires current <= end && threads.from < threads.to && grain >= 1
    decreases threads.to - threads.from, 0
  {
    SharedTiles(current, end, threads, grain, full(threads));
    var kept := Kept(current, end, threads, grain, full(threads));
    [Assignment(threads.from, Range(current, kept))] +
    PlanAll(full, Shared(current, end, threads, grain, full(threads)), Range(threads.from + 1, threads.to), grain)
  }

  function PlanAll(full: Range -> bool, ps: seq<Piece>, threads: Range, grain: nat): seq<Assignment>
    requires grain >= 1 && threads.from <= threads.to
    requires ps != [] ==> Tiles(Threads(ps), threads.from, threads.to)
    requires forall p :: p in ps ==> p.data.from < p.data.to && p.threads.from < p.threads.to
    decreases threads.to - threads.from, 1
  {
    if ps == [] then []
    else
      assert Threads(ps)[1..] == Threads(ps[1..]);
      TilesInside(Threads(ps), threads.from, threads.to);
      assert Threads(ps)[0] == ps[0].threads;
      Plan(full, ps[0].data.from, ps[0].data.to, ps[0].threads, grain) +
      PlanAll(full, ps[1..], Range(ps[0].threads.to, threads.to), grain)
  }

  function DataOf(plan: seq<Assignment>): seq<Range> {
    seq(|plan|, i requires 0 <= i < |plan| => plan[i].data)
  }

  lemma DataOfJoin(xs: seq<Assignment>, ys: seq<Assignment>)
    ensures DataOf(xs + ys) == DataOf(xs) + DataOf(ys)
  {
  }

  /** All tasks together tile the iterations of the call. */
  lemma {:induction false} PlanTiles(full: Range -> bool, current: nat, end: nat, threads: Range, grain: nat)
    requires current <= end && threads.from < threads.to && grain >= 1
    ensures Tiles(DataOf(Plan(full, current, end, threads, grain)), current, end)
    decreases threads.to - threads.from, 0
  {
    var ps := Shared(current, end, threads, grain, full(threads));
    var kept := Kept(current, end, threads, grain, full(threads));
    SharedTiles(current, end, threads, grain, full(threads));
    var own := [Assignment(threads.from, Range(current, kept))];
    var rest := PlanAll(full, ps, Range(threads.from + 1, threads.to), grain);
    PlanAllTiles(full, ps, Range(threads.from + 1, threads.to), grain, kept, end);
    DataOfJoin(own, rest);
    assert DataOf(own) == [Range(current, kept)] && Tiles(DataOf(own), current, kept);
    TilesJoin(DataOf(own), DataOf(rest), current, kept, end);
  }

  lemma {:induction false} PlanAllTiles(full: Range -> bool, ps: seq<Piece>, threads: Range, grain: nat, from: nat, to: nat)
    requires grain >= 1 && threads.from <= threads.to
    requires ps != [] ==> Tiles(Threads(ps), threads.from, threads.to)
    requires forall p :: p in ps ==> p.data.from < p.data.to && p.threads.from < p.threads.to
    requires Tiles(Data(ps), from, to)
    ensures Tiles(DataOf(PlanAll(full, ps, threads, grain)), from, to)
    decreases threads.to - threads.from, 1
  {
    if ps != [] {
      var p := ps[0];
      assert Threads(ps)[1..] == Threads(ps[1..]) && Data(ps)[1..] == Data(ps[1..]);
      assert Threads(ps)[0] == p.threads && Data(ps)[0] == p.data;
      TilesInside(Threads(ps), threads.from, threads.to);
      TilesInside(Data(ps), from, to);
      PlanTiles(full, p.data.from, p.data.to, p.threads, grain);
      PlanAllTiles(full, ps[1..], Range(p.threads.to, threads.to), grain, p.data.to, to);
      var xs := Plan(full, p.data.from, p.data.to, p.threads, grain);
      var ys := PlanAll(full, ps[1..], Range(p.threads.to, threads.to), grain);
      DataOfJoin(xs, ys);
      TilesJoin(DataOf(xs), DataOf(ys), from, p.data.to, to);
    }
  }

  /** The hints ascend strictly, so no two tasks of a call are meant for the same thread. */
  predicate Ascending(plan: seq<Assignment>, threads: Range) {
    && (forall i :: 0 <= i < |plan| ==> threads.from <= plan[i].thread < threads.to)
    && (forall i, j :: 0 <= i < j < |plan| ==> plan[i].thread < plan[j].thread)
  }

  lemma {:induction false} PlanThreads(full: Range -> bool, current: nat, end: nat, threads: Range, grain: nat)
    requires current <= end && threads.from < threads.to && grain >= 1
    ensures Ascending(Plan(full, current, end, threads, grain), threads)
    decreases threads.to - threads.from, 0
  {
    var ps := Shared(current, end, threads, grain, full(threads));
    SharedTiles(current, end, threads, grain, full(threads));
    PlanAllThreads(full, ps, Range(threads.from + 1, threads.to), grain);
  }

  lemma {:induction false} PlanAllThreads(full: Range -> bool, ps: seq<Piece>, threads: Range, grain: nat)
    requires grain >= 1 && threads.from <= threads.to
    requires ps != [] ==> Tiles(Threads(ps), threads.from, threads.to)
    requires forall p :: p in ps ==> p.data.from < p.data.to && p.threads.from < p.threads.to
    ensures Ascending(PlanAll(full, ps, threads, grain), threads)
    decreases threads.to - threads.from, 1
  {
    if ps != [] {
      var p := ps[0];
      assert Threads(ps)[1..] == Threads(ps[1..]);
      assert Threads(ps)[0] == p.threads;
      TilesInside(Threads(ps), threads.from, threads.to);
      PlanThreads(full, p.data.from, p.data.to, p.threads, grain);
      PlanAllThreads(full, ps[1..], Range(p.threads.to, threads.to), grain);
    }
  }

  // ----- depth -----

  function Max(a: nat, b: nat): nat {
    if a < b then b else a
  }

  /** How many times work is handed on. */
  function Depth(full: Range -> bool, current: nat, end: nat, threads: Range, grain: nat): nat
    requires current <= end && threads.from < threads.to && grain >= 1
    decreases threads.to - threads.from, 0
  {
    SharedTiles(current, end, threads, grain, full(threads));
    var ps := Shared(current, end, threads, grain, full(threads));
    if ps == [] then 0 else 1 + DepthAll(full, ps, Range(threads.from + 1, threads.to), grain)
  }

  function DepthAll(full: Range -> bool, ps: seq<Piece>, threads: Range, grain: nat): nat
    requires grain >= 1 && threads.from <= threads.to
    requires ps != [] ==> Tiles(Threads(ps), threads.from, threads.to)
    requires forall p :: p in ps ==> p.data.from < p.data.to && p.threads.from < p.threads.to
    decreases threads.to - threads.from, 1
  {
    if ps == [] then 0
    else
      assert Threads(ps)[1..] == Threads(ps[1..]);
      TilesInside(Threads(ps), threads.from, threads.to);
      assert Threads(ps)[0] == ps[0].threads;
      Max(Depth(full, ps[0].data.from, ps[0].data.to, ps[0].threads, grain),
          DepthAll(full, ps[1..], Range(ps[0].threads.to, threads.to), grain))
  }

  /** A single iteration, or a single thread, is never shared further. */
  lemma LeafDepth(full: Range -> bool, current: nat, end: nat, threads: Range, grain: nat)
    requires current <= end && threads.from < threads.to && grain >= 1
    requires end - current <= 1 || threads.Size() == 1
    ensures Depth(full, current, end, threads, grain) == 0
  {
  }

  function ChildDepth(full: Range -> bool, p: Piece, grain: nat): nat
    requires grain >= 1 && p.data.from < p.data.to && p.threads.from < p.threads.to
  {
    Depth(full, p.data.from, p.data.to, p.threads, grain)
  }

  lemma DepthAllUnfolds(full: Range -> bool, ps: seq<Piece>, threads: Range, grain: nat)
    requires grain >= 1 && threads.from <= threads.to && 1 <= |ps| <= 2
    requires Tiles(Threads(ps), threads.from, threads.to)
    requires forall p :: p in ps ==> p.data.from < p.data.to && p.threads.from < p.threads.to
    ensures DepthAll(full, ps, threads, grain) ==
            if |ps| == 1 then ChildDepth(full, ps[0], grain)
            else Max(ChildDepth(full, ps[0], grain), ChildDepth(full, ps[1], grain))
  {
    assert Threads(ps)[1..] == Threads(ps[1..]) && Threads(ps)[0] == ps[0].threads;
    if |ps| == 2 {
      DepthAllUnfolds(full, ps[1..], Range(ps[0].threads.to, threads.to), grain);
    }
  }

  /** Each of two parts has at most half of the task's threads; a single part is a leaf. */
  lemma PartsAreHalves(current: nat, end: nat, threads: Range, grain: nat, halfFull: bool)
    requires current <= end && threads.from < threads.to && grain >= 1
    ensures var ps := Shared(current, end, threads, grain, halfFull);
            && (|ps| == 1 ==> threads.Size() >= 2 && (ps[0].data.Size() == 1 || ps[0].threads.Size() == 1))
            && (|ps| == 2 ==> 2 * ps[0].threads.Size() <= threads.Size() && 2 * ps[1].threads.Size() <= threads.Size())
  {
  }

  /** Work is handed on at most floor(log2 T) times: 2 to the depth is at most the number of threads. */
  lemma {:induction false} DepthLogarithmic(full: Range -> bool, current: nat, end: nat, threads: Range, grain: nat)
    requires current <= end && threads.from < threads.to && grain >= 1
    ensures Pow2(Depth(full, current, end, threads, grain)) <= threads.Size()
    decreases threads.to - threads.from
  {
    SharedTiles(current, end, threads, grain, full(threads));
    PartsAreHalves(current, end, threads, grain, full(threads));
    var ps := Shared(current, end, threads, grain, full(threads));
    if ps != [] {
      DepthAllUnfolds(full, ps, Range(threads.from + 1, threads.to), grain);
      if |ps| == 1 {
        LeafDepth(full, ps[0].data.from, ps[0].data.to, ps[0].threads, grain);
      } else {
        DepthLogarithmic(full, ps[0].data.from, ps[0].data.to, ps[0].threads, grain);
        DepthLogarithmic(full, ps[1].data.from, ps[1].data.to, ps[1].threads, grain);
      }
    }
  }

  // ----- one iteration per thread -----

  const NEVER: Range -> bool := _ => false

  function Child(full: Range -> bool, p: Piece, grain: nat): seq<Assignment>
    requires grain >= 1 && p.data.from < p.data.to && p.threads.from < p.threads.to
  {
    Plan(full, p.data.from, p.data.to, p.threads, grain)
  }

  lemma PlanUnfolds(full: Range -> bool, current: nat, end: nat, threads: Range, grain: nat)
    requires current <= end && threads.from < threads.to && grain >= 1
    ensures var ps := Shared(current, end, threads, grain, full(threads));
            var own := Assignment(threads.from, Range(current, Kept(current, end, threads, grain, full(threads))));
            && |ps| <= 2
            && (forall p :: p in ps ==> p.data.from < p.data.to && p.threads.from < p.threads.to)
            && Plan(full, current, end, threads, grain) ==
               [own] + (if |ps| == 0 then [] else if |ps| == 1 then Child(full, ps[0], grain)
                        else Child(full, ps[0], grain) + Child(full, ps[1], grain))
  {
    SharedTiles(current, end, threads, grain, full(threads));
    PlanAllUnfolds(full, Shared(current, end, threads, grain, full(threads)), Range(threads.from + 1, threads.to), grain);
  }

  lemma PlanAllUnfolds(full: Range -> bool, ps: seq<Piece>, threads: Range, grain: nat)
    requires grain >= 1 && threads.from <= threads.to && |ps| <= 2
    requires ps != [] ==> Tiles(Threads(ps), threads.from, threads.to)
    requires forall p :: p in ps ==> p.data.from < p.data.to && p.threads.from < p.threads.to
    ensures PlanAll(full, ps, threads, grain) ==
            if |ps| == 0 then [] else if |ps| == 1 then Child(full, ps[0], grain)
            else Child(full, ps[0], grain) + Child(full, ps[1], grain)
  {
    if |ps| == 1 {
      assert ps[1..] == [];
    } else if |ps| == 2 {
      assert Threads(ps)[1..] == Threads(ps[1..]) && Threads(ps)[0] == ps[0].threads;
      PlanAllUnfolds(full, ps[1..], Range(ps[0].threads.to, threads.to), grain);
    }
  }

  /** With no more iterations than threads, the same holds of each child; with as many, each child's data
      lies as far from the start as its threads. */
  lemma ChildrenFit(current: nat, end: nat, threads: Range)
    requires current + 1 < end && end - current <= threads.Size()
    ensures var ps := Shared(current, end, threads, 1, false);
            && Kept(current, end, threads, 1, false) == current + 1
            && |ps| > 0
            && (forall p :: p in ps ==> p.data.Size() <= p.threads.Size())
            && (end - current == threads.Size() ==>
                  forall p :: p in ps ==> p.data.Size() == p.threads.Size() && p.data.from - current == p.threads.from - threads.from)
  {
    KeepsSome(current, end, threads.Size());
  }

  function OneToOne(current: nat, threads: Range): seq<Assignment>
    requires threads.from <= threads.to
  {
    seq(threads.Size(), k requires 0 <= k < threads.Size() => Assignment(threads.from + k, Range(current + k, current + k + 1)))
  }

  /** With grain 1 and no more iterations than threads, no task is given more than one iteration. */
  lemma {:induction false} AtMostOneEach(current: nat, end: nat, threads: Range)
    requires current <= end && threads.from < threads.to && end - current <= threads.Size()
    ensures forall a :: a in Plan(NEVER, current, end, threads, 1) ==> a.data.Size() <= 1
    decreases threads.to - threads.from
  {
    PlanUnfolds(NEVER, current, end, threads, 1);
    if current + 1 < end {
      ChildrenFit(current, end, threads);
      SharedTiles(current, end, threads, 1, false);
      var ps := Shared(current, end, threads, 1, false);
      TilesInside(Threads(ps), threads.from + 1, threads.to);
      forall i | 0 <= i < |ps|
        ensures forall a :: a in Child(NEVER, ps[i], 1) ==> a.data.Size() <= 1
      {
        assert Threads(ps)[i] == ps[i].threads;
        AtMostOneEach(ps[i].data.from, ps[i].data.to, ps[i].threads);
      }
    }
  }

  /** Where the children's threads lie. */
  lemma ChildThreads(current: nat, end: nat, threads: Range)
    requires current + 1 < end && end - current == threads.Size()
    ensures var ps := Shared(current, end, threads, 1, false);
            && 1 <= |ps| <= 2 && ps[0].threads.from == threads.from + 1 && ps[|ps| - 1].threads.to == threads.to
            && ps[0].data.from < ps[0].data.to && ps[0].threads.from < ps[0].threads.to
            && (|ps| == 2 ==> ps[1].threads.from == ps[0].threads.to < threads.to && ps[1].data.from < ps[1].data.to
                              && ps[0] != ps[1])
  {
    KeepsSome(current, end, threads.Size());
  }

  lemma OneToOneHead(current: nat, threads: Range)
    requires threads.from < threads.to
    ensures OneToOne(current, threads) ==
            [Assignment(threads.from, Range(current, current + 1))] + OneToOne(current + 1, Range(threads.from + 1, threads.to))
  {
  }

  lemma OneToOneSplit(current: nat, threads: Range, mid: nat)
    requires threads.from <= mid <= threads.to
    ensures OneToOne(current, threads) ==
            OneToOne(current, Range(threads.from, mid)) + OneToOne(current + (mid - threads.from), Range(mid, threads.to))
  {
  }

  /** The first iteration for the first thread, and one or two stretches that go on one to one. */
  lemma OneToOneJoins(current: nat, threads: Range, mid: nat, first: seq<Assignment>, second: seq<Assignment>)
    requires threads.from < mid <= threads.to
    requires first == OneToOne(current + 1, Range(threads.from + 1, mid))
    requires second == OneToOne(current + (mid - threads.from), Range(mid, threads.to))
    ensures [Assignment(threads.from, Range(current, current + 1))] + (first + second) == OneToOne(current, threads)
    ensures mid == threads.to ==> second == [] && first + second == first
  {
    OneToOneHead(current, threads);
    OneToOneSplit(current + 1, Range(threads.from + 1, threads.to), mid);
  }

  /** A round of sharing whose children's plans are one to one. */
  lemma OneToOneRound(current: nat, threads: Range, p: Piece, q: Piece, plan: seq<Assignment>)
    requires threads.from < threads.to
    requires p.threads.from == threads.from + 1 <= p.threads.to && p.data.from == current + 1
    requires p != q ==> q.threads.from == p.threads.to <= q.threads.to && q.data.from == current + (q.threads.from - threads.from)
    requires q.threads.to == threads.to
    requires plan == [Assignment(threads.from, Range(current, current + 1))] +
                     if p == q then OneToOne(p.data.from, p.threads)
                     else OneToOne(p.data.from, p.threads) + OneToOne(q.data.from, q.threads)
    ensures plan == OneToOne(current, threads)
  {
    var mid := p.threads.to;
    OneToOneJoins(current, threads, mid, OneToOne(current + 1, Range(threads.from + 1, mid)),
                  OneToOne(current + (mid - threads.from), Range(mid, threads.to)));
  }

  /** With as many iterations as threads, thread k of the range is given iteration k. */
  lemma {:induction false} ExactlyOneEach(current: nat, end: nat, threads: Range)
    requires current <= end && threads.from < threads.to && end - current == threads.Size()
    ensures Plan(NEVER, current, end, threads, 1) == OneToOne(current, threads)
    decreases threads.to - threads.from
  {
    PlanUnfolds(NEVER, current, end, threads, 1);
    if current + 1 < end {
      ChildrenFit(current, end, threads);
      ChildThreads(current, end, threads);
      var ps := Shared(current, end, threads, 1, false);
      var p, q := ps[0], ps[|ps| - 1];
      ExactlyOneEach(p.data.from, p.data.to, p.threads);
      ExactlyOneEach(q.data.from, q.data.to, q.threads);
      OneToOneRound(current, threads, p, q, Plan(NEVER, current, end, threads, 1));
    }
  }
}
