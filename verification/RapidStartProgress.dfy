/** A RapidStart round ends: until spread_work returns some thread has a step to make, and every step but a
    spin brings the return closer. */
module RapidStartProgress {
  import opened RapidStart

  // ----- a measure -----

  function CallerRank(pc: CallerPc): nat {
    match pc
    case Ready => 0
    case LoadEpoch(_) => 9
    case ClearRun(_, _) => 8
    case StoreFunc(_, _) => 7
    case StoreEpoch(_, _) => 6
    case LoadStart(_) => 5
    case ClearFinish(_, _) => 4
    case StoreRun(_, _) => 3
    case RunOwn(_, _) => 2
    case WaitFinish(_, _) => 1
  }

  /** The epoch of the call under way. */
  function Target(s: State): nat {
    if Before(s.caller) then s.epoch + 1 else s.epoch
  }

  /** How many steps a worker has left in the round of an epoch. */
  function WorkerRank(pc: WorkerPc, epoch: nat): nat {
    match pc
    case Check(e, _) => if e == epoch then 4 else 9
    case SpinEpoch(e) => if e == epoch then 0 else 8
    case ReloadEpoch => 7
    case SpinRun(_) => 6
    case LoadRun(_) => 5
    case LoadFunc(_, _) => 3
    case Running(_, _, _) => 2
    case SetFinish(_) => 1
  }

  /** The ranks of the workers below n. */
  function WorkersRank(workers: map<nat, WorkerPc>, epoch: nat, n: nat): nat {
    if n == 0 then 0
    else WorkersRank(workers, epoch, n - 1) + if n - 1 in workers then WorkerRank(workers[n - 1], epoch) else 0
  }

  /** `n` is above every worker. */
  function Measure(s: State, n: nat): nat {
    CallerRank(s.caller) + WorkersRank(s.workers, Target(s), n)
  }

  lemma {:induction false} WorkersRankMoves(workers: map<nat, WorkerPc>, epoch: nat, n: nat, w: nat, pc: WorkerPc)
    requires w in workers
    ensures WorkersRank(workers[w := pc], epoch, n) ==
            WorkersRank(workers, epoch, n) + if w < n then WorkerRank(pc, epoch) - WorkerRank(workers[w], epoch) else 0
  {
    if n > 0 {
      WorkersRankMoves(workers, epoch, n - 1, w, pc);
    }
  }

  lemma {:induction false} WorkersRankAtMost(workers: map<nat, WorkerPc>, epoch: nat, n: nat)
    ensures WorkersRank(workers, epoch, n) <= 9 * n
  {
    if n > 0 {
      WorkersRankAtMost(workers, epoch, n - 1);
    }
  }

  // ----- every step but a spin is progress -----

  lemma WorkerFrame(s: State, w: nat)
    requires w in s.workers
    ensures var s' := WorkerNext(s, w);
            Target(s') == Target(s) && w in s'.workers && s'.workers == s.workers[w := s'.workers[w]]
    ensures WorkerNext(s, w).workers[w] == s.workers[w] ==> WorkerNext(s, w) == s
  {
  }

  /** A worker that moves during a call has fewer steps left: before the run mask is out ... */
  lemma WorkerMovesEarly(s: State, w: nat)
    requires w in s.workers && WorkerOk(s, w) && (Before(s.caller) || Announced(s.caller))
    requires Announced(s.caller) ==> s.run == {}
    requires WorkerNext(s, w).workers[w] != s.workers[w]
    ensures WorkerRank(WorkerNext(s, w).workers[w], Target(s)) < WorkerRank(s.workers[w], Target(s))
  {
  }

  /** ... and after. */
  lemma WorkerMovesLate(s: State, w: nat)
    requires w in s.workers && WorkerOk(s, w) && !Before(s.caller) && !Announced(s.caller)
    requires w in s.start
    requires WorkerNext(s, w).workers[w] != s.workers[w]
    ensures WorkerRank(WorkerNext(s, w).workers[w], Target(s)) < WorkerRank(s.workers[w], Target(s))
  {
  }

  lemma WorkerMoves(s: State, w: nat)
    requires Inv(s) && !s.caller.Ready? && w in s.workers && WorkerNext(s, w) != s
    ensures var s' := WorkerNext(s, w);
            Target(s') == Target(s) && WorkerRank(s'.workers[w], Target(s)) < WorkerRank(s.workers[w], Target(s))
    ensures var s' := WorkerNext(s, w); s'.workers == s.workers[w := s'.workers[w]]
  {
    WorkerFrame(s, w);
    if Before(s.caller) || Announced(s.caller) {
      WorkerMovesEarly(s, w);
    } else {
      WorkerMovesLate(s, w);
    }
  }

  lemma CallerMoves(s: State, s': State)
    requires Inv(s) && !s.caller.Ready? && CallerStep(s, s') && s' != s
    ensures s'.workers == s.workers && CallerRank(s'.caller) < CallerRank(s.caller)
    ensures !s'.caller.Ready? ==> Target(s') == Target(s)
  {
  }

  lemma StepLowers(s: State, s': State, n: nat)
    requires n >= MASK_BITS && Inv(s) && !s.caller.Ready? && Next(s, s') && s' != s
    ensures s'.caller.Ready? || Measure(s', n) < Measure(s, n)
  {
    if CallerStep(s, s') {
      CallerMoves(s, s');
    } else {
      var w :| w in s.workers && s' == WorkerNext(s, w);
      WorkerMoves(s, w);
      WorkersRankMoves(s.workers, Target(s), n, w, s'.workers[w]);
    }
  }

  // ----- some step is possible -----

  lemma UnfinishedWorkerMoves(s: State, w: nat)
    requires Inv(s) && s.caller.WaitFinish? && w in s.workers && w !in s.finish
    ensures WorkerNext(s, w) != s
  {
    assert WorkerOk(s, w);
    assert WorkerNext(s, w).workers[w] != s.workers[w];
  }

  /** Until spread_work returns, some thread has a step that is no spin. */
  lemma SomeStepPossible(s: State) returns (s': State)
    requires Inv(s) && !s.caller.Ready?
    ensures Next(s, s') && s' != s
  {
    if s.caller.WaitFinish? && s.finish != s.caller.snapshot {
      var w :| w in s.start && w !in s.finish;
      UnfinishedWorkerMoves(s, w);
      s' := WorkerNext(s, w);
    } else {
      s' := CallerNext(s);
      assert CallerStep(s, s') && s'.caller != s.caller;
    }
  }

  // ----- whole calls -----

  /** The steps from moment i to moment j that are no spins. */
  function Moves(run: seq<State>, i: nat, j: nat): nat
    requires i <= j < |run|
    decreases j - i
  {
    if i == j then 0 else Moves(run, i, j - 1) + if run[j] != run[j - 1] then 1 else 0
  }

  /** One call is under way from moment i to moment j. */
  predicate InCall(run: seq<State>, i: nat, j: nat)
    requires j < |run|
  {
    forall x :: i <= x <= j ==> !run[x].caller.Ready?
  }

  predicate MoveOk(run: seq<State>, n: nat, x: nat)
    requires x + 1 < |run|
  {
    (if run[x + 1] != run[x] then 1 else 0) + Measure(run[x + 1], n) <= Measure(run[x], n)
  }

  lemma {:induction false} MovesAddUp(run: seq<State>, i: nat, j: nat, n: nat)
    requires i <= j < |run| && forall x :: i <= x < j ==> MoveOk(run, n, x)
    ensures Moves(run, i, j) + Measure(run[j], n) <= Measure(run[i], n)
    decreases j - i
  {
    if i < j {
      MovesAddUp(run, i, j - 1, n);
      assert MoveOk(run, n, j - 1);
    }
  }

  lemma MovesBounded(run: seq<State>, i: nat, j: nat, n: nat)
    requires n >= MASK_BITS && Execution(run) && i <= j < |run|
    requires InCall(run, i, j)
    ensures Moves(run, i, j) + Measure(run[j], n) <= Measure(run[i], n)
  {
    forall x | i <= x < j
      ensures MoveOk(run, n, x)
    {
      MoveAt(run, x, n);
    }
    MovesAddUp(run, i, j, n);
  }

  lemma MoveAt(run: seq<State>, x: nat, n: nat)
    requires n >= MASK_BITS && Execution(run) && x + 1 < |run| && !run[x].caller.Ready? && !run[x + 1].caller.Ready?
    ensures MoveOk(run, n, x)
  {
    Reached(run, x);
    assert Next(run[x], run[x + 1]);
    OneMove(run[x], run[x + 1], n);
  }

  lemma OneMove(s: State, s': State, n: nat)
    requires n >= MASK_BITS && Inv(s) && Next(s, s') && !s.caller.Ready? && !s'.caller.Ready?
    ensures (if s' != s then 1 else 0) + Measure(s', n) <= Measure(s, n)
  {
    if s' != s {
      StepLowers(s, s', n);
    }
  }

  /** No call of spread_work goes on for more than a constant number of steps, spins aside. */
  lemma RoundEnds(run: seq<State>, i: nat, j: nat)
    requires Execution(run) && i <= j < |run|
    requires InCall(run, i, j)
    ensures Moves(run, i, j) <= 9 + 9 * MASK_BITS
  {
    var n := MASK_BITS;
    MovesBounded(run, i, j, n);
    WorkersRankAtMost(run[i].workers, Target(run[i]), n);
  }
}
