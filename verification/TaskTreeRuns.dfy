/** What the caller of ParallelFor can rely on, over every run. */
module TaskTreeRuns {
  import opened TaskTree
  import opened TaskTreeSteps

  ghost predicate Execution(run: seq<State>, actions: seq<Action>) {
    && |run| == |actions| + 1 && Init(run[0])
    && forall i :: 0 <= i < |actions| ==> Next(run[i], actions[i], run[i + 1])
  }

  lemma {:induction false} Reached(run: seq<State>, actions: seq<Action>, i: nat)
    requires Execution(run, actions) && i < |run|
    ensures Inv(run[i]) && run[i].from == run[0].from && run[i].to == run[0].to
  {
    if i == 0 {
      StartOk(run[0]);
    } else {
      Reached(run, actions, i - 1);
      assert Next(run[i - 1], actions[i - 1], run[i - 1 + 1]);
      NextKeeps(run[i - 1], actions[i - 1], run[i - 1 + 1]);
    }
  }

  // ----- the join -----

  /** The condition on which the caller's loop ends. */
  predicate Joined(s: State) {
    |s.nodes| > 0 && s.nodes[0].count == 1
  }

  lemma {:induction false} AllFreed(s: State, x: nat)
    requires Inv(s) && Joined(s) && 0 < x < |s.nodes|
    ensures s.nodes[x].freed == 1
  {
    assert NodeOk(s, x) && CountOk(s, 0);
    if s.nodes[x].parent == 0 {
      assert x !in Kids(s, 0);
    } else {
      AllFreed(s, s.nodes[x].parent);
    }
  }

  lemma NoneActive(s: State, t: nat)
    requires Inv(s) && Joined(s) && t < |s.tasks|
    ensures !Active(s.tasks[t])
  {
    assert CountOk(s, 0) && NodeOk(s, 0);
    assert t !in Handles(s, 0);
    if Active(s.tasks[t]) && s.tasks[t].node > 0 {
      AllFreed(s, s.tasks[t].node);
    }
  }

  /** When the count of the root node is 1, every iteration of [from, to) has been executed exactly once
      and nothing else has, every task has reset its node, and every other node is freed, exactly once. */
  lemma JoinMeansDone(run: seq<State>, actions: seq<Action>, i: nat)
    requires Execution(run, actions) && i < |run| && Joined(run[i])
    ensures forall x: nat :: run[i].done[x] == if run[0].from <= x < run[0].to then 1 else 0
    ensures forall t :: 0 <= t < |run[i].tasks| ==> !Active(run[i].tasks[t])
    ensures forall x :: 0 < x < |run[i].nodes| ==> run[i].nodes[x].freed == 1
  {
    var s := run[i];
    Reached(run, actions, i);
    forall t | 0 <= t < |s.tasks|
      ensures !Active(s.tasks[t])
    {
      NoneActive(s, t);
    }
    forall x | 0 < x < |s.nodes|
      ensures s.nodes[x].freed == 1
    {
      AllFreed(s, x);
    }
    forall x: nat
      ensures s.done[x] == if s.from <= x < s.to then 1 else 0
    {
      assert forall t: nat :: !OwnsAt(s, t, x);
      assert !OwnedBySome(s, x);
    }
  }

  /** Conversely, when every task has reset its node and every other node is freed, the caller's loop ends. */
  lemma DoneMeansJoin(run: seq<State>, actions: seq<Action>, i: nat)
    requires Execution(run, actions) && i < |run|
    requires forall t :: 0 <= t < |run[i].tasks| ==> !Active(run[i].tasks[t])
    requires forall x :: 0 < x < |run[i].nodes| ==> run[i].nodes[x].freed == 1
    ensures Joined(run[i])
  {
    var s := run[i];
    Reached(run, actions, i);
    assert CountOk(s, 0);
    assert Handles(s, 0) == {} && Kids(s, 0) == {};
  }

  /** After the join no step executes an iteration, spawns a task or touches a node. */
  lemma JoinIsFinal(s: State, a: Action, s': State)
    requires Inv(s) && Joined(s) && Next(s, a, s')
    ensures s'.done == s.done && s'.nodes == s.nodes && |s'.tasks| == |s.tasks| && Joined(s')
  {
    match a
    case Invoke(t) => NoneActive(s, t);
    case Continue(t, _) => NoneActive(s, t);
    case Free(y) => AllFreed(s, y);
  }

  lemma JoinStaysOneStep(run: seq<State>, actions: seq<Action>, i: nat)
    requires Execution(run, actions) && i < |actions| && Joined(run[i])
    ensures Joined(run[i + 1]) && run[i + 1].done == run[i].done && run[i + 1].nodes == run[i].nodes
  {
    Reached(run, actions, i);
    JoinIsFinal(run[i], actions[i], run[i + 1]);
  }

  lemma {:induction false} JoinStays(run: seq<State>, actions: seq<Action>, i: nat, j: nat)
    requires Execution(run, actions) && i <= j < |run| && Joined(run[i])
    ensures Joined(run[j]) && run[j].done == run[i].done && run[j].nodes == run[i].nodes
    decreases j - i
  {
    if i < j {
      JoinStays(run, actions, i, j - 1);
      JoinStaysOneStep(run, actions, j - 1);
    }
  }

  // ----- no access after deletion -----

  /** The task object a step works on has not been deleted, nor has the node it holds. */
  lemma NoUseAfterDelete(run: seq<State>, actions: seq<Action>, i: nat)
    requires Execution(run, actions) && i < |actions|
    ensures match actions[i]
            case Invoke(t) => t < |run[i].tasks| && Alive(run[i].tasks[t])
            case Continue(t, _) =>
              && t < |run[i].tasks| && Alive(run[i].tasks[t])
              && (Active(run[i].tasks[t]) ==> run[i].tasks[t].node < |run[i].nodes| && run[i].nodes[run[i].tasks[t].node].freed == 0)
            case Free(y) =>
              && 0 < y < |run[i].nodes| && run[i].nodes[y].freed == 0
              && run[i].nodes[y].parent < |run[i].nodes| && run[i].nodes[run[i].nodes[y].parent].freed == 0
  {
    Reached(run, actions, i);
    var s := run[i];
    assert Next(s, actions[i], run[i + 1]);
    match actions[i]
    case Invoke(t) => assert TaskOk(s.tasks[t]) && ObjectOk(s.tasks[t]);
    case Continue(t, _) => assert TaskOk(s.tasks[t]) && ObjectOk(s.tasks[t]);
    case Free(y) => assert NodeOk(s, y);
  }

  /** A shared task sits in two queues; once both entries have been executed and its function has returned,
      the function has run exactly once and the ProxyTask has been deleted exactly once; before that it has
      not been deleted. */
  lemma ProxyRunsOnce(run: seq<State>, actions: seq<Action>, i: nat, t: nat)
    requires Execution(run, actions) && i < |run| && t < |run[i].tasks| && run[i].tasks[t].kind.Proxy?
    ensures var k := run[i].tasks[t];
            && k.runs <= 1 && k.deletes <= 1
            && (k.invocations < 2 ==> k.runs == 1)
            && (k.deletes == 1 <==> k.invocations == 0 && k.phase.Gone?)
  {
    Reached(run, actions, i);
    assert TaskOk(run[i].tasks[t]) && ObjectOk(run[i].tasks[t]);
  }

  /** The executed iterations, the ranges of unstarted tasks and the rest of running ones partition the
      range at every moment: an iteration has either been executed once, or exactly one task has it. */
  lemma AlwaysPartitioned(run: seq<State>, actions: seq<Action>, i: nat, x: nat) returns (t: nat)
    requires Execution(run, actions) && i < |run| && run[0].from <= x < run[0].to
    ensures if x in run[i].done
            then run[i].done[x] == 1 && forall u: nat :: !OwnsAt(run[i], u, x)
            else OwnsAt(run[i], t, x) && forall u: nat :: OwnsAt(run[i], u, x) ==> u == t
  {
    Reached(run, actions, i);
    t := 0;
    if x !in run[i].done {
      assert OwnedBySome(run[i], x);
      t :| OwnsAt(run[i], t, x);
    }
  }
}
