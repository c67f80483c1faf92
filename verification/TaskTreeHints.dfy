/** Every run of a call realizes some plan: no two tasks have the same hint, so the outcomes of the stack
    tests are a function of the threads. And what that means for as many threads as iterations. */
module TaskTreeHints {
  import opened Distribution
  import opened TaskTree
  import opened TaskTreeRuns
  import opened TaskTreeSums
  import opened TaskTreePlan

  // ----- a task keeps its place -----

  predicate Begun(k: Task) {
    !k.phase.Waiting? && !k.phase.Started?
  }

  /** Task t is the same task later on, and does not begin twice. */
  predicate Persists(s: State, s': State, t: nat) {
    && t < |s.tasks| <= |s'.tasks|
    && var k, k' := s.tasks[t], s'.tasks[t];
       && k'.kind == k.kind && k'.sharing == k.sharing && k'.threads == k.threads
       && k'.past.from == k.past.from && k'.past.given == k.past.given
       && (Begun(k) ==> Begun(k'))
  }

  lemma PersistsOneStep(s: State, a: Action, s': State, t: nat)
    requires Inv(s) && Next(s, a, s') && t < |s.tasks|
    ensures Persists(s, s', t)
  {
    match a
    case Invoke(u) =>
      assert ObjectOk(s.tasks[u]);
      InvokeWork(s, u);
    case Continue(u, flag) =>
      ContinueTasks(s, u, flag);
      PolicyStays(s, u, flag);
      BeginsOnce(s, u, flag);
    case Free(y) =>
  }

  lemma BeginsOnce(s: State, t: nat, flag: bool)
    requires Runnable(s, t)
    ensures t < |ContinueNext(s, t, flag).tasks| && Begun(ContinueNext(s, t, flag).tasks[t])
  {
  }

  lemma {:induction false} PersistsInRun(run: seq<State>, actions: seq<Action>, i: nat, j: nat, t: nat)
    requires Execution(run, actions) && i <= j < |run| && t < |run[i].tasks|
    ensures Persists(run[i], run[j], t)
    decreases j - i
  {
    if i < j {
      PersistsInRun(run, actions, i, j - 1, t);
      PersistsAt(run, actions, j - 1, t);
      PersistsFurther(run[i], run[j - 1], run[j], t);
    }
  }

  lemma PersistsAt(run: seq<State>, actions: seq<Action>, x: nat, t: nat)
    requires Execution(run, actions) && x < |actions| && t < |run[x].tasks|
    ensures Persists(run[x], run[x + 1], t)
  {
    Reached(run, actions, x);
    PersistsOneStep(run[x], actions[x], run[x + 1], t);
  }

  lemma PersistsFurther(s: State, s1: State, s2: State, t: nat)
    requires Persists(s, s1, t) && Persists(s1, s2, t)
    ensures Persists(s, s2, t)
  {
  }

  // ----- hints are distinct -----

  lemma {:induction false} TwoPlaces(plan: seq<Assignment>, a: Assignment, b: Assignment) returns (i: nat, j: nat)
    requires multiset{a} + multiset{b} <= multiset(plan)
    ensures i < |plan| && j < |plan| && i != j && plan[i] == a && plan[j] == b
  {
    var n, two := |plan| - 1, multiset{a} + multiset{b};
    assert two[a] >= 1 && two[b] >= 1 && a in multiset(plan);
    assert plan == plan[..n] + [plan[n]] && multiset(plan) == multiset(plan[..n]) + multiset{plan[n]};
    if plan[n] == a {
      assert two[b] <= multiset(plan)[b] && b in multiset(plan[..n]);
      i := n;
      j :| 0 <= j < n && plan[..n][j] == b;
    } else if plan[n] == b {
      assert two[a] <= multiset(plan)[a] && a in multiset(plan[..n]);
      j := n;
      i :| 0 <= i < n && plan[..n][i] == a;
    } else {
      assert two <= multiset(plan[..n]);
      i, j := TwoPlaces(plan[..n], a, b);
    }
  }

  lemma AtLeastTwo(a: Assignment, b: Assignment, m: multiset<Assignment>)
    requires multiset{a} + multiset{b} <= m
    ensures |m| >= 2
  {
    var two := multiset{a} + multiset{b};
    assert m == two + (m - two);
  }

  lemma HintsDistinct(full: Range -> bool, k: Task, a: Assignment, b: Assignment)
    requires k.current <= k.end && k.threads.from < k.threads.to && k.grain >= 1
    requires multiset{a} + multiset{b} <= Whole(full, k)
    ensures a.thread != b.thread
  {
    if k.sharing {
      var plan := Plan(full, k.current, k.end, k.threads, k.grain);
      PlanThreads(full, k.current, k.end, k.threads, k.grain);
      var i, j := TwoPlaces(plan, a, b);
    } else {
      AtLeastTwo(a, b, Whole(full, k));
    }
  }

  /** A task that shares still has its own assignment before it. */
  lemma OwnAssignment(full: Range -> bool, current: nat, end: nat, threads: Range, grain: nat) returns (a: Assignment)
    requires current <= end && threads.from < threads.to && grain >= 1
    ensures a in PlanOf(full, current, end, threads, grain) && a.thread == threads.from
  {
    PlanUnfolds(full, current, end, threads, grain);
    a := Plan(full, current, end, threads, grain)[0];
  }

  lemma InFuture(full: Range -> bool, k: Task) returns (a: Assignment)
    requires TaskOk(k) && !k.kind.Unique?
    ensures a in Future(full, k) && a.thread == k.threads.from
  {
    if Begun(k) {
      a := Assigned(k);
    } else if k.sharing {
      a := OwnAssignment(full, k.current, k.end, k.threads, k.grain);
    } else {
      a := Assignment(k.threads.from, Range(k.current, k.end));
    }
  }

  /** No two tasks that are in the plan are meant for the same thread. */
  lemma TasksApart(run: seq<State>, actions: seq<Action>, full: Range -> bool, i: nat, t: nat, u: nat)
    requires Execution(run, actions) && RunAgrees(run, actions, full) && i < |run|
    requires t < u < |run[i].tasks| && !run[i].tasks[t].kind.Unique? && !run[i].tasks[u].kind.Unique?
    ensures run[i].tasks[t].threads.from != run[i].tasks[u].threads.from
  {
    var s := run[i];
    Reached(run, actions, i);
    Reached(run, actions, 0);
    PlannedStays(run, actions, full, i);
    var a := InFuture(full, s.tasks[t]);
    var b := InFuture(full, s.tasks[u]);
    SumHasTwoParts(Futures(full), s.tasks, t, u);
    assert multiset{a} + multiset{b} <= Future(full, s.tasks[t]) + Future(full, s.tasks[u]);
    assert TaskOk(run[0].tasks[0]);
    HintsDistinct(full, run[0].tasks[0], a, b);
  }

  // ----- every run agrees with some function -----

  predicate StartsSharing(s: State, a: Action) {
    a.Continue? && a.t < |s.tasks| && s.tasks[a.t].phase.Started? && s.tasks[a.t].sharing
  }

  function Amend(full: Range -> bool, threads: Range, flag: bool): Range -> bool {
    q => if q == threads then flag else full(q)
  }

  /** A task that begins to share has threads for which no task has shared before. */
  lemma FirstToShare(run: seq<State>, actions: seq<Action>, full: Range -> bool, i: nat, j: nat)
    requires Execution(run, actions) && i < j < |actions| && RunAgrees(run[..j + 1], actions[..j], full)
    requires StartsSharing(run[i], actions[i]) && StartsSharing(run[j], actions[j])
    ensures run[i].tasks[actions[i].t].threads != run[j].tasks[actions[j].t].threads
  {
    var t, u := actions[i].t, actions[j].t;
    assert Next(run[i], actions[i], run[i + 1]);
    BeginsOnce(run[i], t, actions[i].flag);
    Reached(run, actions, i);
    PersistsOneStep(run[i], actions[i], run[i + 1], t);
    PersistsInRun(run, actions, i + 1, j, t);
    ExecutionPart(run, actions, j);
    AlwaysHistoric(run, actions, j);
    assert PolicyOk(run[j].tasks[t], run[0].tasks[0].timespan) && PolicyOk(run[j].tasks[u], run[0].tasks[0].timespan);
    if t < u {
      TasksApart(run[..j + 1], actions[..j], full, j, t, u);
    } else {
      TasksApart(run[..j + 1], actions[..j], full, j, u, t);
    }
  }

  lemma ExecutionPart(run: seq<State>, actions: seq<Action>, j: nat)
    requires Execution(run, actions) && j < |run|
    ensures Execution(run[..j + 1], actions[..j]) && |run[..j + 1]| == j + 1 && run[..j + 1][j] == run[j]
  {
  }

  /** The stack tests of any run are given by some function of the threads: `PlanRealized` is about all runs. */
  lemma {:induction false} SomeFull(run: seq<State>, actions: seq<Action>, n: nat) returns (full: Range -> bool)
    requires Execution(run, actions) && n <= |actions|
    ensures RunAgrees(run[..n + 1], actions[..n], full)
  {
    if n == 0 {
      full := _ => false;
    } else {
      var full0 := SomeFull(run, actions, n - 1);
      var s, a := run[n - 1], actions[n - 1];
      full := if StartsSharing(s, a) then Amend(full0, s.tasks[a.t].threads, a.flag) else full0;
      forall i | 0 <= i < n
        ensures Agrees(run[i], actions[i], full)
      {
        if i < n - 1 {
          assert run[..n][i] == run[i] && actions[..n - 1][i] == actions[i];
          assert Agrees(run[i], actions[i], full0);
          if StartsSharing(s, a) && StartsSharing(run[i], actions[i]) {
            FirstToShare(run, actions, full0, i, n - 1);
          }
        }
      }
    }
  }

  // ----- as many threads as iterations -----

  /** Sharing with grain 1 and no stack cutoff: with as many iterations as threads, the task meant for thread
      k is given exactly iteration k; with fewer, no task is given more than one. */
  lemma InitialDistribution(run: seq<State>, actions: seq<Action>, i: nat)
    requires Execution(run, actions) && RunAgrees(run, actions, NEVER) && i < |run| && Joined(run[i])
    requires var k := run[0].tasks[0]; k.sharing && k.grain == 1 && run[0].to - run[0].from <= k.threads.Size()
    ensures var k, from, to := run[0].tasks[0], run[0].from, run[0].to;
            && (to - from == k.threads.Size() ==> Assignments(run[i].tasks) == multiset(OneToOne(from, k.threads)))
            && (forall a :: a in Assignments(run[i].tasks) ==> a.data.Size() <= 1)
  {
    var k, from, to := run[0].tasks[0], run[0].from, run[0].to;
    PlanRealized(run, actions, NEVER, i);
    AtMostOneEach(from, to, k.threads);
    if to - from == k.threads.Size() {
      ExactlyOneEach(from, to, k.threads);
    }
  }
}
