/** What sharing hands out in a run: whatever the schedule, the root and the shared tasks of a call are
    exactly those of the plan, with their hints and the ranges they keep. */
module TaskTreePlan {
  import opened Distribution
  import opened Halving
  import opened TaskTree
  import opened TaskTreeRuns
  import opened TaskTreeSums

  // ----- the history of a task -----

  /** The task balances with the grain it was given, or with the number of iterations of its time span. */
  predicate GrainOk(k: Task) {
    if k.timespan then
      && k.past.from <= k.past.base
      && Measured(k.past.base - k.past.from, k.grain)
      && (k.past.base < k.past.kept ==> k.grain == k.past.base - k.past.from)
    else k.past.base == k.past.from && k.grain == k.past.given
  }

  predicate PastOk(k: Task) {
    match k.phase
    case Waiting => k.current == k.past.from && k.grain == k.past.given
    case Started => k.current == k.past.from && k.grain == k.past.given
    case Sharing(_) => k.current == k.past.from && k.grain == k.past.given && k.end == k.past.kept
    case Spanning => k.timespan && k.past.from <= k.current && k.end == k.past.kept && k.grain == k.current - k.past.from + 1
    case Balancing => k.current == k.past.base <= k.end <= k.past.kept && GrainOk(k)
    case Spawned(_) => k.current == k.past.base <= k.end <= k.past.kept && GrainOk(k)
    case _ => k.past.base <= k.current <= k.end <= k.past.kept && GrainOk(k)
  }

  /** Shared tasks share on and measure as the root does; halves do neither. */
  predicate PolicyOk(k: Task, timespan: bool) {
    && (SpawnsShared(k) ==> k.sharing)
    && match k.kind
       case Root => k.timespan == timespan
       case Proxy => k.sharing && k.timespan == timespan
       case Unique => !k.sharing && !k.timespan
  }

  ghost predicate Historic(s: State, timespan: bool) {
    forall t :: 0 <= t < |s.tasks| ==> PastOk(s.tasks[t]) && PolicyOk(s.tasks[t], timespan)
  }

  lemma PastShares(s: State, t: nat, flag: bool)
    requires Runnable(s, t) && PastOk(s.tasks[t]) && s.tasks[t].phase.Started?
    ensures t < |ContinueNext(s, t, flag).tasks| && PastOk(ContinueNext(s, t, flag).tasks[t])
    ensures SpawnsShared(ContinueNext(s, t, flag).tasks[t]) ==> s.tasks[t].sharing
  {
    var k := s.tasks[t];
    if k.sharing {
      SharedTiles(k.current, k.end, k.threads, k.grain, flag);
    }
  }

  lemma PastEarly(s: State, t: nat, flag: bool)
    requires Runnable(s, t) && TaskOk(s.tasks[t]) && PastOk(s.tasks[t]) && (s.tasks[t].phase.Sharing? || s.tasks[t].phase.Spanning?)
    ensures t < |ContinueNext(s, t, flag).tasks| && PastOk(ContinueNext(s, t, flag).tasks[t])
    ensures SpawnsShared(ContinueNext(s, t, flag).tasks[t]) ==> SpawnsShared(s.tasks[t])
  {
  }

  lemma PastLate(s: State, t: nat, flag: bool)
    requires Runnable(s, t) && TaskOk(s.tasks[t]) && PastOk(s.tasks[t])
    requires var p := s.tasks[t].phase; !p.Started? && !p.Sharing? && !p.Spanning?
    ensures t < |ContinueNext(s, t, flag).tasks| && PastOk(ContinueNext(s, t, flag).tasks[t])
    ensures !SpawnsShared(ContinueNext(s, t, flag).tasks[t])
  {
  }

  lemma PolicyStays(s: State, t: nat, flag: bool)
    requires Runnable(s, t)
    ensures t < |ContinueNext(s, t, flag).tasks|
    ensures var k, k' := s.tasks[t], ContinueNext(s, t, flag).tasks[t];
            && k'.kind == k.kind && k'.sharing == k.sharing && k'.timespan == k.timespan && k'.threads == k.threads
            && k'.past.origin == k.past.origin && k'.past.from == k.past.from && k'.past.given == k.past.given
            && (!k.phase.Started? ==> k'.past.kept == k.past.kept)
  {
  }

  lemma PastContinues(s: State, t: nat, flag: bool, timespan: bool)
    requires Runnable(s, t) && TaskOk(s.tasks[t]) && PastOk(s.tasks[t]) && PolicyOk(s.tasks[t], timespan)
    ensures t < |ContinueNext(s, t, flag).tasks|
    ensures var k' := ContinueNext(s, t, flag).tasks[t]; PastOk(k') && PolicyOk(k', timespan)
  {
    PolicyStays(s, t, flag);
    if s.tasks[t].phase.Started? {
      PastShares(s, t, flag);
    } else if s.tasks[t].phase.Sharing? || s.tasks[t].phase.Spanning? {
      PastEarly(s, t, flag);
    } else {
      PastLate(s, t, flag);
    }
  }

  lemma ChildPast(k: Task, t: nat, flag: bool, timespan: bool)
    requires TaskOk(k) && PastOk(k) && PolicyOk(k, timespan)
    ensures forall child :: child in SpawnedBy(k, t, flag) ==> PastOk(child) && PolicyOk(child, timespan)
  {
  }

  lemma HistoricContinue(s: State, t: nat, flag: bool, timespan: bool)
    requires Inv(s) && Historic(s, timespan) && Runnable(s, t)
    ensures Historic(ContinueNext(s, t, flag), timespan)
  {
    var s', more := ContinueNext(s, t, flag), SpawnedBy(s.tasks[t], t, flag);
    assert TaskOk(s.tasks[t]);
    ContinueTasks(s, t, flag);
    PastContinues(s, t, flag, timespan);
    ChildPast(s.tasks[t], t, flag, timespan);
    assert more != [] ==> more[0] in more;
  }

  lemma HistoricInvoke(s: State, t: nat, timespan: bool)
    requires Inv(s) && Historic(s, timespan) && t < |s.tasks| && s.tasks[t].invocations > 0
    ensures Historic(InvokeNext(s, t), timespan)
  {
    assert ObjectOk(s.tasks[t]);
    assert InvokeNext(s, t).tasks == s.tasks[t := InvokeNext(s, t).tasks[t]];
  }

  lemma HistoricStep(s: State, a: Action, s': State, timespan: bool)
    requires Inv(s) && Historic(s, timespan) && Next(s, a, s')
    ensures Historic(s', timespan)
  {
    match a
    case Invoke(t) => HistoricInvoke(s, t, timespan);
    case Continue(t, flag) => HistoricContinue(s, t, flag, timespan);
    case Free(y) =>
  }

  lemma {:induction false} AlwaysHistoric(run: seq<State>, actions: seq<Action>, i: nat)
    requires Execution(run, actions) && i < |run|
    ensures Historic(run[i], run[0].tasks[0].timespan)
  {
    if i > 0 {
      AlwaysHistoric(run, actions, i - 1);
      Reached(run, actions, i - 1);
      HistoricStep(run[i - 1], actions[i - 1], run[i - 1 + 1], run[0].tasks[0].timespan);
    }
  }

  // ----- what is still to be assigned -----

  /** What the task was meant for and kept. */
  function Assigned(k: Task): Assignment {
    Assignment(k.threads.from, Range(k.past.from, k.past.kept))
  }

  function PlanOf(full: Range -> bool, current: nat, end: nat, threads: Range, grain: nat): multiset<Assignment> {
    if current <= end && threads.from < threads.to && grain >= 1 then multiset(Plan(full, current, end, threads, grain)) else multiset{}
  }

  function PlanOfAll(full: Range -> bool, ps: seq<Piece>, grain: nat): multiset<Assignment> {
    if ps == [] then multiset{}
    else PlanOf(full, ps[0].data.from, ps[0].data.to, ps[0].threads, grain) + PlanOfAll(full, ps[1..], grain)
  }

  /** What a task and the tasks it will still share work with are assigned in the end. */
  function Future(full: Range -> bool, k: Task): multiset<Assignment> {
    if k.kind.Unique? then multiset{}
    else match k.phase
         case Waiting => Whole(full, k)
         case Started => Whole(full, k)
         case Sharing(todo) => multiset{Assigned(k)} + PlanOfAll(full, todo, k.grain)
         case _ => multiset{Assigned(k)}
  }

  function Whole(full: Range -> bool, k: Task): multiset<Assignment> {
    if k.sharing then PlanOf(full, k.current, k.end, k.threads, k.grain)
    else multiset{Assignment(k.threads.from, Range(k.current, k.end))}
  }

  function Futures(full: Range -> bool): (nat, Task) -> multiset<Assignment> {
    (_, k) => Future(full, k)
  }

  function Planned(full: Range -> bool, ts: seq<Task>): multiset<Assignment> {
    SumOf(Futures(full), ts)
  }

  lemma PiecesPlan(full: Range -> bool, ps: seq<Piece>, grain: nat)
    requires grain >= 1 && |ps| <= 2 && forall p :: p in ps ==> p.data.from < p.data.to && p.threads.from < p.threads.to
    ensures PlanOfAll(full, ps, grain) ==
            multiset(if |ps| == 0 then [] else if |ps| == 1 then Child(full, ps[0], grain)
                     else Child(full, ps[0], grain) + Child(full, ps[1], grain))
  {
    if |ps| == 1 {
      assert ps[0] in ps && ps[1..] == [];
    } else if |ps| == 2 {
      assert ps[0] in ps && ps[1] in ps && ps[1..] == [ps[1]] && ps[1..][1..] == [];
    }
  }

  /** Sharing assigns the kept part and leaves the pieces to be planned. */
  lemma SharePlans(full: Range -> bool, current: nat, end: nat, threads: Range, grain: nat)
    requires current <= end && threads.from < threads.to && grain >= 1
    ensures var ps := Shared(current, end, threads, grain, full(threads));
            var own := Assignment(threads.from, Range(current, Kept(current, end, threads, grain, full(threads))));
            PlanOf(full, current, end, threads, grain) == multiset{own} + PlanOfAll(full, ps, grain)
  {
    PlanUnfolds(full, current, end, threads, grain);
    PiecesPlan(full, Shared(current, end, threads, grain, full(threads)), grain);
  }

  /** A step of a task whose stack test agrees with `full` hands on the task's future: when it shares, ... */
  lemma FutureShared(full: Range -> bool, s: State, t: nat, flag: bool)
    requires Runnable(s, t) && PastOk(s.tasks[t]) && s.tasks[t].phase.Started?
    requires s.tasks[t].sharing ==> flag == full(s.tasks[t].threads)
    ensures t < |ContinueNext(s, t, flag).tasks|
    ensures Future(full, s.tasks[t]) == Future(full, ContinueNext(s, t, flag).tasks[t])
  {
    var k := s.tasks[t];
    if k.sharing {
      SharePlans(full, k.current, k.end, k.threads, k.grain);
    }
  }

  /** ... when it puts a piece into the queues, ... */
  lemma FutureSpawned(full: Range -> bool, s: State, t: nat, flag: bool)
    requires Runnable(s, t) && PastOk(s.tasks[t]) && s.tasks[t].kind != Unique && SpawnsShared(s.tasks[t])
    ensures t < |ContinueNext(s, t, flag).tasks|
    ensures Future(full, s.tasks[t]) ==
            Future(full, ContinueNext(s, t, flag).tasks[t]) + Future(full, SharedChild(s.tasks[t], s.tasks[t].phase.todo[0]))
  {
    var k := s.tasks[t];
    var k' := ContinueNext(s, t, flag).tasks[t];
    assert k' == k.(phase := Sharing(k.phase.todo[1..]));
  }

  /** Nothing is left to be shared. */
  predicate Settled(k: Task) {
    !k.phase.Waiting? && !k.phase.Started? && !SpawnsShared(k)
  }

  function AssignedTo(k: Task): multiset<Assignment> {
    if k.kind.Unique? then multiset{} else multiset{Assigned(k)}
  }

  lemma FutureSettled(full: Range -> bool, k: Task)
    requires Settled(k)
    ensures Future(full, k) == AssignedTo(k)
  {
  }

  lemma PhaseSettled(s: State, t: nat, flag: bool)
    requires Runnable(s, t) && !s.tasks[t].phase.Started? && !SpawnsShared(s.tasks[t])
    ensures t < |ContinueNext(s, t, flag).tasks|
    ensures Settled(s.tasks[t]) && Settled(ContinueNext(s, t, flag).tasks[t])
  {
  }

  lemma StaysSettled(s: State, t: nat, flag: bool)
    requires Runnable(s, t) && !s.tasks[t].phase.Started? && !SpawnsShared(s.tasks[t])
    ensures t < |ContinueNext(s, t, flag).tasks|
    ensures Settled(s.tasks[t]) && Settled(ContinueNext(s, t, flag).tasks[t])
    ensures AssignedTo(ContinueNext(s, t, flag).tasks[t]) == AssignedTo(s.tasks[t])
  {
    PhaseSettled(s, t, flag);
    PolicyStays(s, t, flag);
  }

  /** ... and otherwise. */
  lemma FutureStays(full: Range -> bool, s: State, t: nat, flag: bool)
    requires Runnable(s, t) && PastOk(s.tasks[t]) && !s.tasks[t].phase.Started? && !SpawnsShared(s.tasks[t])
    ensures t < |ContinueNext(s, t, flag).tasks|
    ensures Future(full, s.tasks[t]) == Future(full, ContinueNext(s, t, flag).tasks[t])
  {
    StaysSettled(s, t, flag);
    FutureSettled(full, s.tasks[t]);
    FutureSettled(full, ContinueNext(s, t, flag).tasks[t]);
  }

  /** Halves are not in the plan. */
  lemma HalfUnplanned(full: Range -> bool, k: Task, mid: nat, origin: nat)
    ensures Future(full, HalfChild(k, mid, origin)) == multiset{}
  {
  }

  lemma ContinuePlans(full: Range -> bool, s: State, t: nat, flag: bool, timespan: bool)
    requires Runnable(s, t) && PastOk(s.tasks[t]) && PolicyOk(s.tasks[t], timespan)
    requires s.tasks[t].phase.Started? && s.tasks[t].sharing ==> flag == full(s.tasks[t].threads)
    ensures Planned(full, ContinueNext(s, t, flag).tasks) == Planned(full, s.tasks)
  {
    var k := s.tasks[t];
    ContinueTasks(s, t, flag);
    if k.phase.Started? {
      FutureShared(full, s, t, flag);
    } else if SpawnsShared(k) {
      FutureSpawned(full, s, t, flag);
    } else {
      FutureStays(full, s, t, flag);
      HalfUnplanned(full, k, k.current + (k.end - k.current) / 2, OriginOf(k, t));
    }
    ContinueSum(Futures(full), s, t, flag);
  }

  /** Invoking a task changes nothing that its future depends on. */
  predicate SameWork(k: Task, k': Task) {
    && k'.kind == k.kind && k'.current == k.current && k'.end == k.end && k'.grain == k.grain && k'.threads == k.threads
    && k'.sharing == k.sharing && k'.timespan == k.timespan && k'.past == k.past
    && (k'.phase == k.phase || (k.phase.Waiting? && k'.phase.Started?))
  }

  lemma InvokeWork(s: State, t: nat)
    requires t < |s.tasks| && s.tasks[t].invocations > 0 && ObjectOk(s.tasks[t])
    ensures t < |InvokeNext(s, t).tasks| && SameWork(s.tasks[t], InvokeNext(s, t).tasks[t])
    ensures InvokeNext(s, t).tasks == s.tasks[t := InvokeNext(s, t).tasks[t]]
  {
  }

  lemma SameFuture(full: Range -> bool, k: Task, k': Task)
    requires SameWork(k, k')
    ensures Future(full, k') == Future(full, k)
  {
  }

  lemma InvokePlans(full: Range -> bool, s: State, t: nat)
    requires t < |s.tasks| && s.tasks[t].invocations > 0 && ObjectOk(s.tasks[t])
    ensures Planned(full, InvokeNext(s, t).tasks) == Planned(full, s.tasks)
  {
    InvokeWork(s, t);
    var k' := InvokeNext(s, t).tasks[t];
    SameFuture(full, s.tasks[t], k');
    SumUpdate(Futures(full), s.tasks, t, k');
    Cancel(SumOf(Futures(full), s.tasks[t := k']), Future(full, k'), multiset{}, SumOf(Futures(full), s.tasks));
  }

  lemma StepPlans(full: Range -> bool, s: State, a: Action, s': State, timespan: bool)
    requires Inv(s) && Historic(s, timespan) && Next(s, a, s') && Agrees(s, a, full)
    ensures Planned(full, s'.tasks) == Planned(full, s.tasks)
  {
    match a
    case Invoke(t) =>
      assert ObjectOk(s.tasks[t]);
      InvokePlans(full, s, t);
    case Continue(t, flag) => ContinuePlans(full, s, t, flag, timespan);
    case Free(y) =>
  }

  // ----- whole runs -----

  /** The stack test of a task that shares came out as `full` says for its threads. */
  predicate Agrees(s: State, a: Action, full: Range -> bool) {
    a.Continue? && a.t < |s.tasks| && s.tasks[a.t].phase.Started? && s.tasks[a.t].sharing ==> a.flag == full(s.tasks[a.t].threads)
  }

  ghost predicate RunAgrees(run: seq<State>, actions: seq<Action>, full: Range -> bool) {
    |run| == |actions| + 1 && forall i :: 0 <= i < |actions| ==> Agrees(run[i], actions[i], full)
  }

  lemma PlannedFirst(full: Range -> bool, s: State)
    requires Init(s)
    ensures Planned(full, s.tasks) == Whole(full, s.tasks[0])
  {
    SumOfOne(Futures(full), s.tasks, 0);
  }

  lemma {:induction false} PlannedStays(run: seq<State>, actions: seq<Action>, full: Range -> bool, i: nat)
    requires Execution(run, actions) && RunAgrees(run, actions, full) && i < |run|
    ensures Planned(full, run[i].tasks) == Whole(full, run[0].tasks[0])
  {
    if i == 0 {
      PlannedFirst(full, run[0]);
    } else {
      PlannedStays(run, actions, full, i - 1);
      PlannedAt(run, actions, full, i - 1);
    }
  }

  lemma PlannedAt(run: seq<State>, actions: seq<Action>, full: Range -> bool, i: nat)
    requires Execution(run, actions) && RunAgrees(run, actions, full) && i < |actions|
    ensures Planned(full, run[i + 1].tasks) == Planned(full, run[i].tasks)
  {
    Reached(run, actions, i);
    AlwaysHistoric(run, actions, i);
    assert Agrees(run[i], actions[i], full);
    StepPlans(full, run[i], actions[i], run[i + 1], run[0].tasks[0].timespan);
  }

  /** The assignments of the root and the shared tasks. */
  function Assignments(ts: seq<Task>): multiset<Assignment> {
    SumOf((_, k) => AssignedTo(k), ts)
  }

  lemma InactivePlanned(full: Range -> bool, ts: seq<Task>)
    requires forall t :: 0 <= t < |ts| ==> !Active(ts[t])
    ensures Planned(full, ts) == Assignments(ts)
  {
    forall t | 0 <= t < |ts|
      ensures Future(full, ts[t]) == AssignedTo(ts[t])
    {
      FutureSettled(full, ts[t]);
    }
    SumSame(Futures(full), (_, k) => AssignedTo(k), ts);
  }

  /** At the join the root and the shared tasks are those of the plan, hints and kept ranges included. */
  lemma PlanRealized(run: seq<State>, actions: seq<Action>, full: Range -> bool, i: nat)
    requires Execution(run, actions) && RunAgrees(run, actions, full) && i < |run| && Joined(run[i])
    ensures var k := run[0].tasks[0];
            Assignments(run[i].tasks) ==
            if k.sharing then multiset(Plan(full, run[0].from, run[0].to, k.threads, k.grain))
            else multiset{Assignment(k.threads.from, Range(run[0].from, run[0].to))}
  {
    JoinMeansDone(run, actions, i);
    PlannedStays(run, actions, full, i);
    InactivePlanned(full, run[i].tasks);
  }
}
