/** What balancing executes in a run: for every task that balances, the ranges that it and its halves finally
    execute are the leaves of what it had left, with the grain it was given or measured. */
module TaskTreeLeaves {
  import opened Distribution
  import opened Halving
  import opened TaskTree
  import opened TaskTreeRuns
  import opened TaskTreeSums
  import opened TaskTreePlan
  import opened TaskTreeHints

  // ----- what is still to be executed in one piece -----

  function LeavesOf(current: nat, end: nat, g: nat): multiset<Range> {
    if current <= end && g >= 1 then multiset(Leaves(current, end, g)) else multiset{}
  }

  /** The task executes what it has left itself: it has halved it, or is done. */
  predicate Stopped(k: Task) {
    k.phase.Draining? || k.phase.Returned? || k.phase.Gone?
  }

  predicate Balances(k: Task) {
    k.phase.Balancing? || k.phase.Spawned? || Stopped(k)
  }

  /** The ranges that a task, and the halves it will still spawn, execute in one piece each. */
  function Ahead(k: Task): multiset<Range> {
    if Stopped(k) then multiset{Range(k.past.base, k.end)} else LeavesOf(k.current, Stop(k), k.grain)
  }

  /** The same for all tasks that come from task t by halving, t included. */
  function AheadFrom(t: nat): (nat, Task) -> multiset<Range> {
    (u: nat, k: Task) => if OriginOf(k, u) == t then Ahead(k) else multiset{}
  }

  /** The halves in a run come from tasks that balance, and have their grain. */
  predicate HalfOk(s: State, u: nat)
    requires u < |s.tasks|
  {
    var k := s.tasks[u];
    k.kind.Unique? ==>
      && k.past.origin < |s.tasks|
      && var o := s.tasks[k.past.origin]; !o.kind.Unique? && Balances(o) && k.grain == o.grain
  }

  /** What task t had left when it began to balance is what it and its halves will execute. */
  predicate AheadOk(s: State, t: nat)
    requires t < |s.tasks|
  {
    var k := s.tasks[t];
    !k.kind.Unique? && Balances(k) ==> SumOf(AheadFrom(t), s.tasks) == LeavesOf(k.past.base, k.past.kept, k.grain)
  }

  ghost predicate LeavesOk(s: State) {
    forall t :: 0 <= t < |s.tasks| ==> HalfOk(s, t) && AheadOk(s, t)
  }

  lemma HalvingSplits(current: nat, end: nat, g: nat)
    requires current + g < end && g >= 1
    ensures var mid := current + (end - current) / 2; LeavesOf(current, end, g) == LeavesOf(current, mid, g) + LeavesOf(mid, end, g)
  {
  }

  lemma OneLeaf(current: nat, end: nat, g: nat)
    requires current <= end <= current + g && g >= 1
    ensures LeavesOf(current, end, g) == multiset{Range(current, end)}
  {
  }

  // ----- one step -----

  /** No later stack test cuts the halving short. */
  predicate Uncut(s: State, a: Action) {
    a.Continue? && a.t < |s.tasks| && s.tasks[a.t].phase.Balancing? ==> !a.flag
  }

  /** How a step changes a task that balances, or a half. */
  predicate BalancingStep(k: Task, k': Task, flag: bool) {
    if SpawnsHalf(k, flag) then k' == k.(phase := Spawned(k.current + (k.end - k.current) / 2))
    else if k.phase.Balancing? then k' == k.(phase := Draining)
    else if k.phase.Spawned? then k' == k.(phase := Balancing, end := k.phase.mid)
    else if Stopped(k) then Stopped(k') && k'.past == k.past && k'.end == k.end
    else (k'.phase.Sharing? || k'.phase.Balancing?) && k'.current == k.current && k'.end == k.end && k'.grain == k.grain
  }

  lemma BalancingSteps(s: State, t: nat, flag: bool)
    requires Runnable(s, t) && PastOk(s.tasks[t]) && (Balances(s.tasks[t]) || s.tasks[t].kind.Unique?)
    requires s.tasks[t].kind.Unique? ==> !s.tasks[t].sharing && !s.tasks[t].timespan && !SpawnsShared(s.tasks[t])
    ensures t < |ContinueNext(s, t, flag).tasks| && BalancingStep(s.tasks[t], ContinueNext(s, t, flag).tasks[t], flag)
    ensures s.tasks[t].kind.Unique? && !Balances(s.tasks[t]) ==> s.tasks[t].phase.Started? || s.tasks[t].phase.Sharing?
  {
  }

  /** Such a step keeps what is ahead: when it halves, ... */
  lemma AheadHalves(k: Task, origin: nat)
    requires k.phase.Balancing? && k.current + k.grain < k.end && k.grain >= 1
    ensures var mid := k.current + (k.end - k.current) / 2;
            Ahead(k) == Ahead(k.(phase := Spawned(mid))) + Ahead(HalfChild(k, mid, origin))
  {
    HalvingSplits(k.current, k.end, k.grain);
  }

  /** ... and otherwise. */
  lemma AheadStays(k: Task, k': Task, flag: bool)
    requires k.current <= k.end && k.grain >= 1 && BalancingStep(k, k', flag) && !SpawnsHalf(k, flag)
    requires k.phase.Balancing? ==> !flag && PastOk(k)
    requires Balances(k) || k.phase.Started? || k.phase.Sharing?
    ensures Ahead(k') == Ahead(k)
  {
    if k.phase.Balancing? {
      OneLeaf(k.current, k.end, k.grain);
    }
  }

  /** What a balancing task and a half keep through a step. */
  lemma BalancingStays(s: State, t: nat, flag: bool)
    requires Runnable(s, t) && PastOk(s.tasks[t])
    ensures t < |ContinueNext(s, t, flag).tasks|
    ensures var k, k' := s.tasks[t], ContinueNext(s, t, flag).tasks[t];
            && k'.kind == k.kind && k'.past.origin == k.past.origin
            && (Balances(k) ==> Balances(k') && k'.grain == k.grain && k'.past.base == k.past.base && k'.past.kept == k.past.kept)
            && (!k.sharing && !k.timespan ==> k'.grain == k.grain)
  {
  }

  lemma HalvesStay(s: State, t: nat, flag: bool, timespan: bool)
    requires Inv(s) && Historic(s, timespan) && Runnable(s, t)
    requires forall u :: 0 <= u < |s.tasks| ==> HalfOk(s, u)
    ensures var s' := ContinueNext(s, t, flag); forall u :: 0 <= u < |s'.tasks| ==> HalfOk(s', u)
  {
    var s', k := ContinueNext(s, t, flag), s.tasks[t];
    ContinueTasks(s, t, flag);
    BalancingStays(s, t, flag);
    forall u | 0 <= u < |s'.tasks|
      ensures HalfOk(s', u)
    {
      if u < |s.tasks| {
        assert HalfOk(s, u);
      } else {
        assert HalfOk(s, t);
      }
    }
  }

  /** Other tasks' sums are not touched by a step of a task that is not theirs. */
  lemma OthersAhead(s: State, t: nat, flag: bool, o: nat)
    requires Runnable(s, t) && PastOk(s.tasks[t]) && o < |s.tasks| && OriginOf(s.tasks[t], t) != o
    ensures SumOf(AheadFrom(o), ContinueNext(s, t, flag).tasks) == SumOf(AheadFrom(o), s.tasks)
  {
    ContinueTasks(s, t, flag);
    BalancingStays(s, t, flag);
    ContinueSum(AheadFrom(o), s, t, flag);
  }

  lemma NodeIrrelevant(k: Task, node: nat)
    ensures Ahead(k.(node := node)) == Ahead(k)
  {
  }

  /** The sum for a task stays when the task or one of its halves halves, ... */
  lemma SumHalves(ts: seq<Task>, t: nat, k: Task, node: nat)
    requires t < |ts| && k == ts[t] && k.phase.Balancing? && k.current + k.grain < k.end && k.grain >= 1
    ensures var mid, o := k.current + (k.end - k.current) / 2, OriginOf(k, t);
            SumOf(AheadFrom(o), ts[t := k.(phase := Spawned(mid))] + [HalfChild(k, mid, o).(node := node)]) == SumOf(AheadFrom(o), ts)
  {
    var mid, o := k.current + (k.end - k.current) / 2, OriginOf(k, t);
    var k', child := k.(phase := Spawned(mid)), HalfChild(k, mid, o).(node := node);
    AheadHalves(k, o);
    NodeIrrelevant(HalfChild(k, mid, o), node);
    InSum(o, t, k);
    InSum(o, t, k');
    InSum(o, |ts|, child);
    SumHandsOn(AheadFrom(o), ts, t, k', [child], ts[t := k'] + [child]);
  }

  /** ... and when it makes another such step. */
  lemma SumStays(ts: seq<Task>, t: nat, k: Task, k': Task, flag: bool)
    requires t < |ts| && k == ts[t] && k.current <= k.end && k.grain >= 1 && BalancingStep(k, k', flag) && !SpawnsHalf(k, flag)
    requires k.phase.Balancing? ==> !flag && PastOk(k)
    requires Balances(k) || k.phase.Started? || k.phase.Sharing?
    requires OriginOf(k', t) == OriginOf(k, t)
    ensures var o := OriginOf(k, t); SumOf(AheadFrom(o), ts[t := k']) == SumOf(AheadFrom(o), ts)
  {
    var o := OriginOf(k, t);
    AheadStays(k, k', flag);
    InSum(o, t, k);
    InSum(o, t, k');
    SumSameUpdate(AheadFrom(o), ts, t, k');
  }

  lemma SumStep(ts: seq<Task>, t: nat, k: Task, k': Task, flag: bool, ts': seq<Task>, node: nat)
    requires t < |ts| && k == ts[t] && k.current <= k.end && k.grain >= 1 && BalancingStep(k, k', flag)
    requires k.phase.Balancing? ==> !flag && PastOk(k)
    requires Balances(k) || k.phase.Started? || k.phase.Sharing?
    requires OriginOf(k', t) == OriginOf(k, t)
    requires ts' == ts[t := k'] + if SpawnsHalf(k, flag)
                                  then [HalfChild(k, k.current + (k.end - k.current) / 2, OriginOf(k, t)).(node := node)]
                                  else []
    ensures var o := OriginOf(k, t); SumOf(AheadFrom(o), ts') == SumOf(AheadFrom(o), ts)
  {
    if SpawnsHalf(k, flag) {
      SumHalves(ts, t, k, node);
    } else {
      assert ts' == ts[t := k'];
      SumStays(ts, t, k, k', flag);
    }
  }

  lemma OwnAhead(s: State, t: nat, flag: bool)
    requires Runnable(s, t) && PastOk(s.tasks[t]) && (Balances(s.tasks[t]) || s.tasks[t].kind.Unique?)
    requires s.tasks[t].kind.Unique? ==> !s.tasks[t].sharing && !s.tasks[t].timespan && !SpawnsShared(s.tasks[t])
    requires s.tasks[t].phase.Balancing? ==> !flag
    ensures var o := OriginOf(s.tasks[t], t); SumOf(AheadFrom(o), ContinueNext(s, t, flag).tasks) == SumOf(AheadFrom(o), s.tasks)
  {
    ContinueTasks(s, t, flag);
    BalancingStays(s, t, flag);
    BalancingSteps(s, t, flag);
    var s' := ContinueNext(s, t, flag);
    SumStep(s.tasks, t, s.tasks[t], s'.tasks[t], flag, s'.tasks, |s.nodes|);
  }

  lemma InSum(o: nat, u: nat, k: Task)
    requires OriginOf(k, u) == o
    ensures AheadFrom(o)(u, k) == Ahead(k)
  {
  }

  /** A task that begins to balance has no halves yet. */
  lemma FirstAhead(s: State, t: nat, flag: bool, timespan: bool)
    requires Inv(s) && Historic(s, timespan) && Runnable(s, t) && LeavesOk(s)
    requires !s.tasks[t].kind.Unique? && !Balances(s.tasks[t])
    ensures t < |ContinueNext(s, t, flag).tasks|
    ensures AheadOk(ContinueNext(s, t, flag), t)
  {
    var s', k := ContinueNext(s, t, flag), s.tasks[t];
    ContinueTasks(s, t, flag);
    BalancingStays(s, t, flag);
    if Balances(s'.tasks[t]) {
      BeginsBalancing(s, t, flag);
      forall u | 0 <= u < |s'.tasks| && u != t
        ensures AheadFrom(t)(u, s'.tasks[u]) == multiset{}
      {
        assert HalfOk(s, u);
      }
      SumOfOne(AheadFrom(t), s'.tasks, t);
    }
  }

  lemma BeginsBalancing(s: State, t: nat, flag: bool)
    requires Runnable(s, t) && TaskOk(s.tasks[t]) && PastOk(s.tasks[t]) && !Balances(s.tasks[t])
    requires t < |ContinueNext(s, t, flag).tasks| && Balances(ContinueNext(s, t, flag).tasks[t])
    ensures ContinueNext(s, t, flag).tasks == s.tasks[t := ContinueNext(s, t, flag).tasks[t]]
    ensures var k' := ContinueNext(s, t, flag).tasks[t];
            k'.phase.Balancing? && Ahead(k') == LeavesOf(k'.past.base, k'.past.kept, k'.grain)
  {
  }

  lemma AheadOkStays(s: State, t: nat, flag: bool, timespan: bool, o: nat)
    requires Inv(s) && Historic(s, timespan) && Runnable(s, t) && LeavesOk(s) && (s.tasks[t].phase.Balancing? ==> !flag)
    requires o < |s.tasks|
    ensures o < |ContinueNext(s, t, flag).tasks| && AheadOk(ContinueNext(s, t, flag), o)
  {
    var k := s.tasks[t];
    ContinueTasks(s, t, flag);
    BalancingStays(s, t, flag);
    assert AheadOk(s, o) && PolicyOk(k, timespan) && TaskOk(k);
    if OriginOf(k, t) != o {
      OthersAhead(s, t, flag, o);
    } else if k.kind.Unique? || Balances(k) {
      OwnAhead(s, t, flag);
    } else {
      FirstAhead(s, t, flag, timespan);
    }
  }

  lemma LeavesContinue(s: State, t: nat, flag: bool, timespan: bool)
    requires Inv(s) && Historic(s, timespan) && Runnable(s, t) && LeavesOk(s) && (s.tasks[t].phase.Balancing? ==> !flag)
    ensures LeavesOk(ContinueNext(s, t, flag))
  {
    var s' := ContinueNext(s, t, flag);
    ContinueTasks(s, t, flag);
    HalvesStay(s, t, flag, timespan);
    forall o | 0 <= o < |s'.tasks|
      ensures AheadOk(s', o)
    {
      if o < |s.tasks| {
        AheadOkStays(s, t, flag, timespan, o);
      }
    }
  }

  lemma LeavesInvokeAt(s: State, t: nat, o: nat)
    requires LeavesOk(s) && t < |s.tasks| && s.tasks[t].invocations > 0 && ObjectOk(s.tasks[t]) && o < |s.tasks|
    ensures var s' := InvokeNext(s, t); |s'.tasks| == |s.tasks| && HalfOk(s', o) && AheadOk(s', o)
  {
    var s' := InvokeNext(s, t);
    InvokeWork(s, t);
    SameAhead(s.tasks[t], s'.tasks[t]);
    assert HalfOk(s, o) && AheadOk(s, o);
    SumSameUpdate(AheadFrom(o), s.tasks, t, s'.tasks[t]);
  }

  lemma LeavesInvoke(s: State, t: nat)
    requires Inv(s) && LeavesOk(s) && t < |s.tasks| && s.tasks[t].invocations > 0
    ensures LeavesOk(InvokeNext(s, t))
  {
    assert ObjectOk(s.tasks[t]);
    forall o | 0 <= o < |InvokeNext(s, t).tasks|
      ensures HalfOk(InvokeNext(s, t), o) && AheadOk(InvokeNext(s, t), o)
    {
      InvokeWork(s, t);
      LeavesInvokeAt(s, t, o);
    }
  }

  lemma SameAhead(k: Task, k': Task)
    requires SameWork(k, k')
    ensures Ahead(k') == Ahead(k) && Balances(k') == Balances(k)
  {
  }

  lemma SumSameUpdate(f: (nat, Task) -> multiset<Range>, ts: seq<Task>, t: nat, k: Task)
    requires t < |ts| && f(t, k) == f(t, ts[t])
    ensures SumOf(f, ts[t := k]) == SumOf(f, ts)
  {
    SumUpdate(f, ts, t, k);
    Cancel(SumOf(f, ts[t := k]), f(t, k), multiset{}, SumOf(f, ts));
  }

  lemma LeavesStep(s: State, a: Action, s': State, timespan: bool)
    requires Inv(s) && Historic(s, timespan) && LeavesOk(s) && Next(s, a, s') && Uncut(s, a)
    ensures LeavesOk(s')
  {
    match a
    case Invoke(t) => LeavesInvoke(s, t);
    case Continue(t, flag) => LeavesContinue(s, t, flag, timespan);
    case Free(y) =>
      forall o | 0 <= o < |s'.tasks|
        ensures HalfOk(s', o) && AheadOk(s', o)
      {
        assert HalfOk(s, o) && AheadOk(s, o);
      }
  }

  // ----- whole runs -----

  ghost predicate UncutRun(run: seq<State>, actions: seq<Action>) {
    |run| == |actions| + 1 && forall i :: 0 <= i < |actions| ==> Uncut(run[i], actions[i])
  }

  lemma {:induction false} AlwaysLeaves(run: seq<State>, actions: seq<Action>, i: nat)
    requires Execution(run, actions) && UncutRun(run, actions) && i < |run|
    ensures LeavesOk(run[i])
  {
    if i > 0 {
      AlwaysLeaves(run, actions, i - 1);
      LeavesAt(run, actions, i - 1);
    }
  }

  lemma LeavesAt(run: seq<State>, actions: seq<Action>, i: nat)
    requires Execution(run, actions) && UncutRun(run, actions) && i < |actions| && LeavesOk(run[i])
    ensures LeavesOk(run[i + 1])
  {
    Reached(run, actions, i);
    AlwaysHistoric(run, actions, i);
    assert Uncut(run[i], actions[i]);
    LeavesStep(run[i], actions[i], run[i + 1], run[0].tasks[0].timespan);
  }

  /** The ranges executed in one piece by the tasks that come from task t by halving, t included. */
  function ExecutedFrom(t: nat): (nat, Task) -> multiset<Range> {
    (u: nat, k: Task) => if OriginOf(k, u) == t then multiset{Range(k.past.base, k.end)} else multiset{}
  }

  /** Task t was executed right: what was left of the range it kept was executed, by the task and its
      halves, in exactly the leaves of the halving. */
  predicate BalancedWell(ts: seq<Task>, t: nat)
    requires t < |ts|
  {
    var k := ts[t];
    && k.past.from <= k.past.base <= k.past.kept && k.grain >= 1 && GrainOk(k)
    && SumOf(ExecutedFrom(t), ts) == multiset(Leaves(k.past.base, k.past.kept, k.grain))
  }

  lemma BalancedAtRest(s: State, t: nat, timespan: bool)
    requires Inv(s) && Historic(s, timespan) && LeavesOk(s) && forall u :: 0 <= u < |s.tasks| ==> Stopped(s.tasks[u])
    requires t < |s.tasks| && !s.tasks[t].kind.Unique?
    ensures BalancedWell(s.tasks, t)
  {
    assert AheadOk(s, t) && PastOk(s.tasks[t]) && TaskOk(s.tasks[t]);
    SumSame(AheadFrom(t), ExecutedFrom(t), s.tasks);
  }

  /** At the join, for the root and every shared task: after its time span, if it has one, what it kept was
      executed in exactly the leaves of the halving, by the task and its halves. */
  lemma BalancedRight(run: seq<State>, actions: seq<Action>, i: nat, t: nat)
    requires Execution(run, actions) && UncutRun(run, actions) && i < |run| && Joined(run[i])
    requires t < |run[i].tasks| && !run[i].tasks[t].kind.Unique?
    ensures BalancedWell(run[i].tasks, t)
  {
    var s := run[i];
    Reached(run, actions, i);
    AlwaysHistoric(run, actions, i);
    AlwaysLeaves(run, actions, i);
    JoinMeansDone(run, actions, i);
    forall u | 0 <= u < |s.tasks|
      ensures Stopped(s.tasks[u])
    {
      assert !Active(s.tasks[u]);
    }
    BalancedAtRest(s, t, run[0].tasks[0].timespan);
  }

  /** With a time span of m iterations, when more than m are left, every leaf has between (m + 1) / 2 and m. */
  lemma MeasuredRight(ts: seq<Task>, t: nat, r: Range)
    requires t < |ts| && BalancedWell(ts, t) && ts[t].timespan && r in SumOf(ExecutedFrom(t), ts)
    requires var p := ts[t].past; p.kept - p.base > p.base - p.from
    ensures var m := ts[t].past.base - ts[t].past.from; (m + 1) / 2 <= r.Size() <= m
  {
    var k := ts[t];
    MeasuredLeaves(k.past.base, k.past.kept, k.past.base - k.past.from, k.grain);
  }

  // ----- stealing without sharing -----

  /** The ranges executed in one piece by any task. */
  function Executed(): (nat, Task) -> multiset<Range> {
    (u: nat, k: Task) => multiset{Range(k.past.base, k.end)}
  }

  /** Without sharing the root is the only task of the plan, and it keeps everything. */
  lemma OnlyRoot(run: seq<State>, actions: seq<Action>, i: nat)
    requires Execution(run, actions) && i < |run| && Joined(run[i]) && !run[0].tasks[0].sharing
    ensures |run[i].tasks| > 0 && run[i].tasks[0].kind.Root? && run[i].tasks[0].timespan == run[0].tasks[0].timespan
    ensures var p := run[i].tasks[0].past; p.from == run[0].from && p.kept == run[0].to && p.given == run[0].tasks[0].grain
    ensures forall u :: 0 < u < |run[i].tasks| ==> run[i].tasks[u].kind.Unique?
  {
    var full := SomeFull(run, actions, |actions|);
    assert run[..|actions| + 1] == run && actions[..|actions|] == actions;
    PlanRealized(run, actions, full, i);
    PersistsInRun(run, actions, 0, i, 0);
    AlwaysHistoric(run, actions, i);
    var f, ts := (_: nat, k: Task) => AssignedTo(k), run[i].tasks;
    assert PolicyOk(ts[0], run[0].tasks[0].timespan);
    SumHasPart(f, ts, 0);
    assert Assigned(ts[0]) in Assignments(ts);
    forall u | 0 < u < |ts|
      ensures ts[u].kind.Unique?
    {
      if !ts[u].kind.Unique? {
        SumHasTwoParts(f, ts, 0, u);
        AtLeastTwo(Assigned(ts[0]), Assigned(ts[u]), Assignments(ts));
      }
    }
  }

  /** Static stealing: whatever the schedule, the ranges finally executed are the leaves of the call's range
      with the call's grain. */
  lemma StaticStealing(run: seq<State>, actions: seq<Action>, i: nat)
    requires Execution(run, actions) && UncutRun(run, actions) && i < |run| && Joined(run[i])
    requires !run[0].tasks[0].sharing && !run[0].tasks[0].timespan
    ensures run[0].from <= run[0].to && run[0].tasks[0].grain >= 1
    ensures SumOf(Executed(), run[i].tasks) == multiset(Leaves(run[0].from, run[0].to, run[0].tasks[0].grain))
  {
    var s := run[i];
    OnlyRoot(run, actions, i);
    BalancedRight(run, actions, i, 0);
    Reached(run, actions, i);
    AlwaysLeaves(run, actions, i);
    forall u | 0 <= u < |s.tasks|
      ensures Executed()(u, s.tasks[u]) == ExecutedFrom(0)(u, s.tasks[u])
    {
      assert HalfOk(s, u);
    }
    SumSame(Executed(), ExecutedFrom(0), s.tasks);
  }
}
