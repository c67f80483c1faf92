/** The join is reached: until it is, some worker has a step to make, and every step brings the call closer
    to its end, whatever the schedule and the outcomes of the stack tests and the clock. */
module TaskTreeProgress {
  import opened Distribution
  import opened TaskTree
  import opened TaskTreeSteps
  import opened TaskTreeRuns

  // ----- a measure -----

  /** More than splitting n iterations into tasks of one and executing them costs. */
  function TreeCost(n: int): nat {
    if n <= 0 then 0 else 20 * (2 * n - 1)
  }

  /** Splitting pays for the new task. */
  lemma SplitPays(a: int, b: int)
    requires a >= 1 && b >= 1
    ensures TreeCost(a) + TreeCost(b) + 20 == TreeCost(a + b)
  {
  }

  /** The iterations that a task has not executed or handed on. */
  function Left(k: Task): int {
    Stop(k) - k.current +
    if k.phase.Sharing? && k.phase.todo != [] then k.phase.todo[|k.phase.todo| - 1].data.to - k.phase.todo[0].data.from else 0
  }

  function Rank(phase: Phase): nat {
    match phase
    case Waiting => 10
    case Started => 9
    case Sharing(_) => 8
    case Spanning => 7
    case Balancing => 6
    case Spawned(_) => 7
    case Draining => 5
    case Returned => 4
    case Gone => 0
  }

  function Cost(k: Task): nat {
    TreeCost(Left(k)) + Rank(k.phase) + k.invocations
  }

  function Total(ts: seq<Task>): nat {
    if ts == [] then 0 else Total(ts[..|ts| - 1]) + Cost(ts[|ts| - 1])
  }

  function Live(ns: seq<Node>): nat {
    if ns == [] then 0 else Live(ns[..|ns| - 1]) + if ns[|ns| - 1].freed == 0 then 1 else 0
  }

  /** What the call can still cost, in steps. */
  function Measure(s: State): nat {
    Total(s.tasks) + Live(s.nodes)
  }

  lemma {:induction false} TotalUpdate(ts: seq<Task>, t: nat, k: Task)
    requires t < |ts|
    ensures Total(ts[t := k]) == Total(ts) - Cost(ts[t]) + Cost(k)
  {
    var n := |ts| - 1;
    if t < n {
      TotalUpdate(ts[..n], t, k);
      assert ts[t := k][..n] == ts[..n][t := k];
    } else {
      assert ts[t := k][..n] == ts[..n];
    }
  }

  lemma {:induction false} LiveUpdate(ns: seq<Node>, x: nat, node: Node)
    requires x < |ns|
    ensures Live(ns[x := node]) == Live(ns) - (if ns[x].freed == 0 then 1 else 0) + if node.freed == 0 then 1 else 0
  {
    var n := |ns| - 1;
    if x < n {
      LiveUpdate(ns[..n], x, node);
      assert ns[x := node][..n] == ns[..n][x := node];
    } else {
      assert ns[x := node][..n] == ns[..n];
    }
  }

  /** A step that changes one task and no node's life. */
  lemma PutShrinks(s: State, t: nat, k: Task)
    requires t < |s.tasks| && Cost(k) < Cost(s.tasks[t])
    ensures Measure(Put(s, t, k)) < Measure(s)
  {
    TotalUpdate(s.tasks, t, k);
  }

  lemma SpawnCosts(s: State, t: nat, k: Task, parent: nat, child: Task)
    requires t < |s.tasks| && parent < |s.nodes|
    requires Cost(k) + Cost(child) + 1 < Cost(s.tasks[t])
    ensures Measure(Spawn(Put(s, t, k), parent, child)) < Measure(s)
  {
    var s' := Spawn(Put(s, t, k), parent, child);
    TotalUpdate(s.tasks, t, k);
    var put, child' := s.tasks[t := k], child.(node := |s.nodes|);
    assert s'.tasks == put + [child'] && s'.tasks[..|put|] == put && Cost(child') == Cost(child);
    var node := s.nodes[parent].(count := s.nodes[parent].count + 1);
    LiveUpdate(s.nodes, parent, node);
    var nodes := s.nodes[parent := node];
    assert s'.nodes == nodes + [Node(parent, 1, 0)] && s'.nodes[..|nodes|] == nodes;
  }

  lemma ReleaseLives(s: State, x: nat)
    requires x < |s.nodes| && s.nodes[x].count > 0
    ensures Live(Release(s, x).nodes) == Live(s.nodes)
  {
    LiveUpdate(s.nodes, x, s.nodes[x].(count := s.nodes[x].count - 1));
  }

  // ----- every step is progress -----

  lemma ShareShrinks(s: State, t: nat, flag: bool)
    requires Inv(s) && Runnable(s, t) && s.tasks[t].phase.Started?
    ensures Measure(ContinueNext(s, t, flag)) < Measure(s)
  {
    var k := s.tasks[t];
    if k.sharing {
      SharedEnds(k.current, k.end, k.threads, k.grain, flag);
    }
    PutShrinks(s, t, ContinueNext(s, t, flag).tasks[t]);
  }

  lemma SpawnSharedShrinks(s: State, t: nat, flag: bool)
    requires Inv(s) && Runnable(s, t) && s.tasks[t].phase.Sharing? && s.tasks[t].phase.todo != []
    ensures Measure(ContinueNext(s, t, flag)) < Measure(s)
  {
    var k := s.tasks[t];
    assert TaskOk(k);
    var todo := k.phase.todo;
    var k', child := k.(phase := Sharing(todo[1..])), SharedChild(k, todo[0]);
    assert todo[0] in todo && todo[|todo| - 1] in todo;
    assert Left(k) == Left(k') + Left(child);
    SplitPays(Left(k'), Left(child));
    SpawnCosts(s, t, k', k.node, child);
  }

  lemma SpawnHalfShrinks(s: State, t: nat, flag: bool)
    requires Inv(s) && Runnable(s, t) && s.tasks[t].phase.Balancing?
    requires s.tasks[t].current != s.tasks[t].end && Divisible(s.tasks[t].current, s.tasks[t].end, s.tasks[t].grain, flag)
    ensures Measure(ContinueNext(s, t, flag)) < Measure(s)
  {
    var k := s.tasks[t];
    var mid := k.current + (k.end - k.current) / 2;
    var k', child := k.(phase := Spawned(mid)), HalfChild(k, mid, OriginOf(k, t));
    SplitPays(Left(k'), Left(child));
    SpawnCosts(s, t, k', k.node, child);
  }

  /** Steps that execute an iteration or leave the task. */
  lemma ExecutionShrinks(s: State, t: nat, flag: bool)
    requires Inv(s) && Runnable(s, t)
    requires var p := s.tasks[t].phase; p.Spanning? || p.Draining? || p.Returned?
    ensures Measure(ContinueNext(s, t, flag)) < Measure(s)
  {
    var k := s.tasks[t];
    assert TaskOk(k);
    var k' := ContinueNext(s, t, flag).tasks[t];
    PutShrinks(s, t, k');
    if k.phase.Draining? && k.current == k.end {
      ReleaseLives(Put(s, t, k'), k.node);
    }
  }

  /** Steps that only move the program counter or the end. */
  lemma LocalShrinks(s: State, t: nat, flag: bool)
    requires Inv(s) && Runnable(s, t)
    requires var k := s.tasks[t];
             || (k.phase.Sharing? && k.phase.todo == []) || k.phase.Spawned?
             || (k.phase.Balancing? && !(k.current != k.end && Divisible(k.current, k.end, k.grain, flag)))
    ensures Measure(ContinueNext(s, t, flag)) < Measure(s)
  {
    assert TaskOk(s.tasks[t]);
    PutShrinks(s, t, ContinueNext(s, t, flag).tasks[t]);
  }

  lemma ContinueShrinks(s: State, t: nat, flag: bool)
    requires Inv(s) && Runnable(s, t)
    ensures Measure(ContinueNext(s, t, flag)) < Measure(s)
  {
    var k := s.tasks[t];
    if k.phase.Started? {
      ShareShrinks(s, t, flag);
    } else if k.phase.Sharing? && k.phase.todo != [] {
      SpawnSharedShrinks(s, t, flag);
    } else if k.phase.Balancing? && k.current != k.end && Divisible(k.current, k.end, k.grain, flag) {
      SpawnHalfShrinks(s, t, flag);
    } else if k.phase.Spanning? || k.phase.Draining? || k.phase.Returned? {
      ExecutionShrinks(s, t, flag);
    } else {
      LocalShrinks(s, t, flag);
    }
  }

  lemma InvokeShrinks(s: State, t: nat)
    requires Inv(s) && t < |s.tasks| && s.tasks[t].invocations > 0
    ensures Measure(InvokeNext(s, t)) < Measure(s)
  {
    assert TaskOk(s.tasks[t]) && ObjectOk(s.tasks[t]);
    PutShrinks(s, t, InvokeNext(s, t).tasks[t]);
  }

  lemma FreeShrinks(s: State, y: nat)
    requires Inv(s) && 0 < y < |s.nodes| && s.nodes[y].freed == 0
    requires s.nodes[y].parent < |s.nodes| && s.nodes[s.nodes[y].parent].count > 0
    ensures Measure(FreeNext(s, y)) < Measure(s)
  {
    assert NodeOk(s, y);
    var node := s.nodes[y].(freed := s.nodes[y].freed + 1);
    LiveUpdate(s.nodes, y, node);
    ReleaseLives(s.(nodes := s.nodes[y := node]), s.nodes[y].parent);
  }

  lemma StepShrinks(s: State, a: Action, s': State)
    requires Inv(s) && Next(s, a, s')
    ensures Measure(s') < Measure(s)
  {
    match a
    case Invoke(t) => InvokeShrinks(s, t);
    case Continue(t, flag) => ContinueShrinks(s, t, flag);
    case Free(y) => FreeShrinks(s, y);
  }

  // ----- some step is possible -----

  /** The unfreed node with the greatest number has no children left. */
  lemma {:induction false} LastLive(s: State, n: nat) returns (y: nat)
    requires n <= |s.nodes| && exists x :: 0 < x < n && s.nodes[x].freed == 0
    ensures 0 < y < n && s.nodes[y].freed == 0
    ensures forall x :: y < x < n ==> s.nodes[x].freed != 0
  {
    y := n - 1;
    if s.nodes[y].freed != 0 {
      y := LastLive(s, n - 1);
    }
  }

  lemma FreeablePossible(s: State) returns (y: nat)
    requires Inv(s) && !Joined(s) && forall t :: 0 <= t < |s.tasks| ==> !Active(s.tasks[t])
    ensures 0 < y < |s.nodes| && s.nodes[y].count == 0 && s.nodes[y].freed == 0
  {
    assert CountOk(s, 0) && Handles(s, 0) == {};
    var z :| z in Kids(s, 0);
    y := LastLive(s, |s.nodes|);
    assert NodeOk(s, y) && CountOk(s, y) && Handles(s, y) == {};
    forall x | 0 < x < |s.nodes| && s.nodes[x].freed == 0
      ensures s.nodes[x].parent != y
    {
      assert NodeOk(s, x);
    }
    assert Kids(s, y) == {};
  }

  /** Until the caller's loop can end, some worker has a step to make. */
  lemma SomeStepPossible(s: State) returns (a: Action, s': State)
    requires Inv(s) && !Joined(s)
    ensures Next(s, a, s')
  {
    if t :| 0 <= t < |s.tasks| && Active(s.tasks[t]) {
      assert TaskOk(s.tasks[t]) && ObjectOk(s.tasks[t]);
      if s.tasks[t].phase.Waiting? {
        a, s' := Invoke(t), InvokeNext(s, t);
      } else {
        NothingBlocks(s, t, 0);
        a, s' := Continue(t, false), ContinueNext(s, t, false);
      }
    } else {
      var y := FreeablePossible(s);
      NothingBlocks(s, 0, y);
      a, s' := Free(y), FreeNext(s, y);
    }
  }

  // ----- whole runs -----

  lemma {:induction false} StepsBounded(run: seq<State>, actions: seq<Action>, i: nat)
    requires Execution(run, actions) && i < |run|
    ensures i + Measure(run[i]) <= Measure(run[0])
  {
    if i > 0 {
      StepsBounded(run, actions, i - 1);
      Reached(run, actions, i - 1);
      StepShrinks(run[i - 1], actions[i - 1], run[i - 1 + 1]);
    }
  }

  /** No schedule keeps a call of n iterations busy for more than 40 n + 10 steps. */
  lemma RunsEnd(run: seq<State>, actions: seq<Action>)
    requires Execution(run, actions)
    ensures |actions| <= 40 * (run[0].to - run[0].from) + 10
  {
    var s := run[0];
    StepsBounded(run, actions, |actions|);
    assert s.tasks == [s.tasks[0]] && Total(s.tasks[..0]) == 0 && Live(s.nodes[..0]) == 0;
  }

  /** A run that cannot go on has joined, whatever the schedule was. */
  lemma MaximalRunJoins(run: seq<State>, actions: seq<Action>)
    requires Execution(run, actions)
    requires forall a: Action, s': State :: !Next(run[|actions|], a, s')
    ensures Joined(run[|actions|])
  {
    Reached(run, actions, |actions|);
    if !Joined(run[|actions|]) {
      var a, s' := SomeStepPossible(run[|actions|]);
      assert false;
    }
  }
}
