/** A ParallelFor task run by one worker: it shares its range, executes for a while, halves what is left
    into tasks that others may steal, and executes the rest. */
module PartitionerTask {
  import opened Distribution
  import opened Halving

  // ----- sharing -----

  /** The loop of DistributeWork over the parts, with its assertions. */
  method SplitOver(from: nat, dataTo: nat, first: nat, threadsTo: nat) returns (children: seq<Piece>)
    requires from < dataTo && first < threadsTo
    ensures children == Children(Range(from, dataTo), Range(first, threadsTo))
  {
    var dataFrom, threadsFrom := from, first;
    var parts := Min(Min(K_SPLIT, threadsTo - threadsFrom), dataTo - dataFrom);
    var threadStep, threadsMod := (threadsTo - threadsFrom) / parts, (threadsTo - threadsFrom) % parts;
    var dataStep, dataMod := (dataTo - dataFrom) / parts, (dataTo - dataFrom) % parts;
    ghost var pieces := Children(Range(from, dataTo), Range(first, threadsTo));
    children := [];
    var i := 0;
    while i != parts
      invariant 0 <= i <= parts == |pieces|
      invariant children == pieces[..i]
      invariant dataFrom == if i < parts then pieces[i].data.from else dataTo
      invariant threadsFrom == if i < parts then pieces[i].threads.from else threadsTo
    {
      var threadSplit := ThreadSplit(threadsFrom, threadsTo, threadStep, threadsMod, parts, i);
      var dataSplit := DataSplit(dataFrom, dataTo, dataStep, dataMod, parts, i, threadsMod);
      assert dataFrom < dataSplit;
      assert threadsFrom < threadSplit;
      children := children + [Piece(Range(dataFrom, dataSplit), Range(threadsFrom, threadSplit))];
      threadsFrom := threadSplit;
      dataFrom := dataSplit;
      i := i + 1;
    }
    assert dataFrom == dataTo;
    assert threadsFrom == threadsTo || (parts < K_SPLIT && threadsFrom + (K_SPLIT - parts) == threadsTo);
  }

  // ----- what a task does, by its policies -----

  /** What it shares. */
  predicate SharedAs(sharing: bool, from: nat, to: nat, threads: Range, grain: nat, halfFull: bool, shared: seq<Piece>)
    requires from <= to && threads.from < threads.to && grain >= 1
  {
    shared == if sharing then Shared(from, to, threads, grain, halfFull) else []
  }

  /** What it keeps. */
  function KeptAs(sharing: bool, from: nat, to: nat, threads: Range, grain: nat, halfFull: bool): (kept: nat)
    requires from <= to && threads.from < threads.to && grain >= 1
    ensures from <= kept <= to
  {
    SharedTiles(from, to, threads, grain, halfFull);
    if sharing then Kept(from, to, threads, grain, halfFull) else to
  }

  /** [start, kept) is balanced into [start, stop) and the spawned halves. When the stack never fills, the
      range that stays and the leaves of the halves are the leaves of [start, kept). */
  predicate BalancedAs(start: nat, kept: nat, stop: nat, spawned: seq<Range>, grain: nat, stackMayFill: bool) {
    && Halved(start, stop, kept, spawned, grain)
    && (!stackMayFill ==> Leaves(start, kept, grain) == [Range(start, stop)] + LeavesAll(spawned, grain))
  }

  /** With which grain it balances what it has not executed in its span. */
  predicate GrainAs(timespan: bool, start: nat, kept: nat, spanned: nat, before: nat, grain: nat) {
    if timespan then Measured(spanned, grain) && (start + spanned < kept ==> grain == spanned)
    else spanned == 0 && grain == before
  }

  predicate RanAs(sharing: bool, timespan: bool, stackMayFill: bool, from: nat, to: nat, threads: Range, before: nat, halfFull: bool,
                  spanned: nat, grain: nat, stop: nat, spawned: seq<Range>, shared: seq<Piece>)
    requires from <= to && threads.from < threads.to && before >= 1
  {
    var kept := KeptAs(sharing, from, to, threads, before, halfFull);
    && SharedAs(sharing, from, to, threads, before, halfFull, shared)
    && GrainAs(timespan, from, kept, spanned, before, grain)
    && BalancedAs(from + spanned, kept, stop, spawned, grain, stackMayFill)
  }

  lemma BalancedIs(start: nat, kept: nat, stop: nat, spawned: seq<Range>, grain: nat, stackMayFill: bool)
    requires Halved(start, stop, kept, spawned, grain) && (!stackMayFill ==> stop - start <= grain)
    ensures BalancedAs(start, kept, stop, spawned, grain, stackMayFill)
  {
    if !stackMayFill {
      LeafStays(start, stop, grain);
    }
  }

  lemma RunTiles(sharing: bool, from: nat, to: nat, threads: Range, before: nat, halfFull: bool,
                 stop: nat, spawned: seq<Range>, shared: seq<Piece>)
    requires from <= to && threads.from < threads.to && before >= 1
    requires SharedAs(sharing, from, to, threads, before, halfFull, shared)
    requires from <= stop && Tiles(spawned, stop, KeptAs(sharing, from, to, threads, before, halfFull))
    ensures Tiles([Range(from, stop)] + (spawned + Data(shared)), from, to)
  {
    var kept := KeptAs(sharing, from, to, threads, before, halfFull);
    SharedTiles(from, to, threads, before, halfFull);
    assert Tiles(Data(shared), kept, to);
    TilesJoin(spawned, Data(shared), stop, kept, to);
    PrependTile(Range(from, stop), spawned + Data(shared), from, to);
  }

  // ----- the task -----

  class Task {
    var current: nat
    var end: nat
    var grain: nat
    const threads: Range

    predicate Valid()
      reads this
    {
      current <= end && threads.from < threads.to
    }

    constructor (from: nat, to: nat, grain: nat, threads: Range)
      requires from <= to && threads.from < threads.to
      ensures Valid() && current == from && end == to && this.grain == grain && this.threads == threads
    {
      current, end := from, to;
      this.grain := grain;
      this.threads := threads;
    }

    /** Hands all but the first part of the range to other threads, in at most two pieces. */
    method DistributeWork(halfFull: bool) returns (children: seq<Piece>)
      requires Valid() && grain >= 1
      modifies this`end
      ensures Valid()
      ensures children == Shared(current, old(end), threads, grain, halfFull)
      ensures end == Kept(current, old(end), threads, grain, halfFull)
    {
      children := [];
      if threads.Size() != 1 && Divisible(current, end, grain, halfFull) {
        KeepsSome(current, end, threads.Size());
        var dataFrom := current + (end - current + threads.Size() - 1) / threads.Size();
        var dataTo := end;
        if dataFrom < dataTo {
          end := dataFrom;
          children := SplitOver(dataFrom, dataTo, threads.from + 1, threads.to);
        }
      }
    }

    /** Halves the range until it is not divisible; the spawned ranges are listed last first. */
    method Balance(stackMayFill: bool) returns (spawned: seq<Range>)
      requires Valid() && grain >= 1
      modifies this`end
      ensures Halved(current, end, old(end), spawned, grain)
      ensures !stackMayFill ==> end - current <= grain
    {
      spawned := [];
      var halfFull: bool := *;
      HalvedStart(current, end, grain);
      while current != end && Divisible(current, end, grain, halfFull && stackMayFill)
        invariant Halved(current, end, old(end), spawned, grain)
        decreases end
      {
        var mid := current + (end - current) / 2;
        HalvedRound(current, end, old(end), spawned, grain, mid);
        spawned := [Range(mid, end)] + spawned;
        end := mid;
        halfFull := *;
      }
    }

    /** Executes for one time span, counting the iterations in the grain: the grain is then the number of
        iterations executed, or one more when the range was exhausted first. */
    method ExecuteForSpan() returns (executed: seq<nat>)
      requires Valid()
      modifies this`current, this`grain
      ensures Valid() && old(current) <= current
      ensures executed == Iterations(old(current), current)
      ensures Measured(|executed|, grain) && (current < end ==> grain == |executed|)
    {
      executed := [];
      grain := 1;
      while current < end
        invariant old(current) <= current <= end && grain == |executed| + 1
        invariant executed == Iterations(old(current), current)
      {
        executed := executed + [current];
        current := current + 1;
        if * {
          break;
        }
        grain := grain + 1;
      }
    }

    /** Executes what is left. */
    method Drain() returns (executed: seq<nat>)
      requires Valid()
      modifies this`current
      ensures current == end
      ensures executed == Iterations(old(current), end)
    {
      executed := [];
      while current != end
        invariant old(current) <= current <= end
        invariant executed == Iterations(old(current), current)
      {
        executed := executed + [current];
        current := current + 1;
      }
    }

    /** The body of a task. `sharing` and `timespan` are its policies; `halfFull` is the stack test of its
        sharing, and `stackMayFill` tells whether a later one can succeed. `spanned` is the number of
        iterations executed in the time span. */
    method Run(sharing: bool, timespan: bool, halfFull: bool, stackMayFill: bool)
      returns (executed: seq<nat>, spanned: nat, spawned: seq<Range>, shared: seq<Piece>)
      requires Valid() && grain >= 1
      modifies this
      ensures current == end && old(current) <= end <= old(end)
      ensures executed == Iterations(old(current), end)
      ensures Tiles([Range(old(current), end)] + (spawned + Data(shared)), old(current), old(end))
      ensures RanAs(sharing, timespan, stackMayFill, old(current), old(end), threads, old(grain), halfFull,
                    spanned, grain, end, spawned, shared)
    {
      shared, executed, spanned := [], [], 0;
      ghost var from, to := current, end;
      if sharing {
        shared := DistributeWork(halfFull);
      }
      ghost var kept := end;
      if timespan {
        executed := ExecuteForSpan();
        spanned := |executed|;
      }
      ghost var reached := current;
      spawned := Balance(stackMayFill);
      ghost var stop := end;
      BalancedIs(reached, kept, stop, spawned, grain, stackMayFill);
      var rest := Drain();
      IterationsJoin(from, reached, stop);
      executed := executed + rest;
      RunTiles(sharing, from, to, threads, old(grain), halfFull, stop, spawned, shared);
    }
  }
}
