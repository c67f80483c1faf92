/** One ParallelFor call as a state machine: tasks executed by any number of workers in any order, shared
    tasks sitting in two queues behind a ProxyTask, and the tree of reference-counted nodes the caller
    waits on. */
module TaskTree {
  import opened Distribution

  /** `invocations` counts the queue entries of the task that have not been executed yet. */
  datatype Kind = Root | Unique | Proxy

  /** Where operator() of a task stands; Returned has reset its node, Gone has left the task object. */
  datatype Phase =
    | Waiting
    | Started
    | Sharing(todo: seq<Piece>)
    | Spanning
    | Balancing
    | Spawned(mid: nat)
    | Draining
    | Returned
    | Gone

  /** History that no step reads: the range a task was given starts at `from`, it kept the iterations up to
      `kept` when it shared, it began to balance at `base`, and its grain was `given` at first; `origin` is
      the task that a half comes from by halving alone. */
  datatype History = History(from: nat, kept: nat, base: nat, given: nat, origin: nat)

  datatype Task = Task(kind: Kind, phase: Phase, node: nat, current: nat, end: nat, grain: nat, threads: Range,
                       sharing: bool, timespan: bool, invocations: nat, state: nat, runs: nat, deletes: nat, past: History)

  datatype Node = Node(parent: nat, count: nat, freed: nat)

  datatype State = State(from: nat, to: nat, nodes: seq<Node>, tasks: seq<Task>, done: multiset<nat>)

  /** A worker executes a queue entry, goes on with a running task, or finishes the deletion of a node
      whose count it has brought to zero. `flag` is the outcome of the stack test or of the clock. */
  datatype Action = Invoke(t: nat) | Continue(t: nat, flag: bool) | Free(node: nat)

  predicate Active(k: Task) {
    !k.phase.Returned? && !k.phase.Gone?
  }

  // ----- steps -----

  function AddRef(s: State, x: nat): State
    requires x < |s.nodes|
  {
    s.(nodes := s.nodes[x := s.nodes[x].(count := s.nodes[x].count + 1)])
  }

  /** The fetch_sub of a release; a node whose count reaches zero awaits its deletion. */
  function Release(s: State, x: nat): State
    requires x < |s.nodes| && s.nodes[x].count > 0
  {
    s.(nodes := s.nodes[x := s.nodes[x].(count := s.nodes[x].count - 1)])
  }

  function Put(s: State, t: nat, k: Task): State
    requires t < |s.tasks|
  {
    s.(tasks := s.tasks[t := k])
  }

  /** A new node below the parent's node, held by a new task that is put into the queues. */
  function Spawn(s: State, parent: nat, child: Task): State
    requires parent < |s.nodes|
  {
    var s1 := AddRef(s, parent);
    s1.(nodes := s1.nodes + [Node(parent, 1, 0)], tasks := s1.tasks + [child.(node := |s.nodes|)])
  }

  function SharedChild(k: Task, p: Piece): Task {
    Task(Proxy, Waiting, 0, p.data.from, p.data.to, k.grain, p.threads, true, k.timespan, 2, 0, 0, 0,
         History(p.data.from, p.data.to, p.data.from, k.grain, 0))
  }

  function HalfChild(k: Task, mid: nat, origin: nat): Task {
    Task(Unique, Waiting, 0, mid, k.end, k.grain, Range(0, 1), false, false, 1, 0, 0, 0,
         History(mid, k.end, mid, k.grain, origin))
  }

  /** The task that task t comes from by halving alone. */
  function OriginOf(k: Task, t: nat): nat {
    if k.kind.Unique? then k.past.origin else t
  }

  function StartBalancing(k: Task): Task {
    k.(phase := Balancing, past := k.past.(base := k.current))
  }

  function Execute(s: State, i: nat): State {
    s.(done := s.done + multiset{i})
  }

  predicate Runnable(s: State, t: nat) {
    && t < |s.tasks|
    && var k := s.tasks[t];
    && !k.phase.Waiting? && !k.phase.Gone?
    && k.node < |s.nodes| && k.grain >= 1 && k.current <= k.end && k.threads.from < k.threads.to
    && (Active(k) ==> s.nodes[k.node].count > 0)
  }

  function ContinueNext(s: State, t: nat, flag: bool): State
    requires Runnable(s, t)
  {
    var k := s.tasks[t];
    match k.phase
    case Started =>
      if k.sharing then
        Put(s, t, k.(phase := Sharing(Shared(k.current, k.end, k.threads, k.grain, flag)),
                     end := Kept(k.current, k.end, k.threads, k.grain, flag),
                     past := k.past.(kept := Kept(k.current, k.end, k.threads, k.grain, flag))))
      else Put(s, t, k.(phase := Sharing([]), past := k.past.(kept := k.end)))
    case Sharing(todo) =>
      if todo != [] then Spawn(Put(s, t, k.(phase := Sharing(todo[1..]))), k.node, SharedChild(k, todo[0]))
      else if k.timespan then Put(s, t, k.(phase := Spanning, grain := 1))
      else Put(s, t, StartBalancing(k))
    case Spanning =>
      if k.current < k.end then
        Execute(Put(s, t, if flag then StartBalancing(k.(current := k.current + 1))
                          else k.(grain := k.grain + 1, current := k.current + 1)), k.current)
      else Put(s, t, StartBalancing(k))
    case Balancing =>
      if k.current != k.end && Divisible(k.current, k.end, k.grain, flag) then
        var mid := k.current + (k.end - k.current) / 2;
        Spawn(Put(s, t, k.(phase := Spawned(mid))), k.node, HalfChild(k, mid, OriginOf(k, t)))
      else Put(s, t, k.(phase := Draining))
    case Spawned(mid) => Put(s, t, k.(phase := Balancing, end := mid))
    case Draining =>
      if k.current != k.end then Execute(Put(s, t, k.(current := k.current + 1)), k.current)
      else Release(Put(s, t, k.(phase := Returned)), k.node)
    case Returned =>
      match k.kind
      case Root => Put(s, t, k.(phase := Gone))
      case Unique => Put(s, t, k.(phase := Gone, deletes := k.deletes + 1))
      case Proxy =>
        Put(s, t, k.(phase := Gone, state := k.state + 1, deletes := k.deletes + if k.state == 2 then 1 else 0))
  }

  /** A worker takes an entry from a queue and executes it; for a ProxyTask the counter decides. */
  function InvokeNext(s: State, t: nat): State
    requires t < |s.tasks| && s.tasks[t].invocations > 0
  {
    var k := s.tasks[t].(invocations := s.tasks[t].invocations - 1);
    if k.kind.Proxy? then
      var k1 := k.(state := k.state + 1);
      if k.state == 0 then Put(s, t, k1.(phase := Started, runs := k.runs + 1))
      else if k.state == 2 then Put(s, t, k1.(deletes := k.deletes + 1))
      else Put(s, t, k1)
    else Put(s, t, k.(phase := Started, runs := k.runs + 1))
  }

  /** Deleting a node releases its parent. */
  function FreeNext(s: State, y: nat): State
    requires y < |s.nodes| && s.nodes[y].parent < |s.nodes| && s.nodes[s.nodes[y].parent].count > 0
  {
    Release(s.(nodes := s.nodes[y := s.nodes[y].(freed := s.nodes[y].freed + 1)]), s.nodes[y].parent)
  }

  predicate Next(s: State, a: Action, s': State) {
    match a
    case Invoke(t) => t < |s.tasks| && s.tasks[t].invocations > 0 && s' == InvokeNext(s, t)
    case Continue(t, flag) => Runnable(s, t) && s' == ContinueNext(s, t, flag)
    case Free(y) =>
      && 0 < y < |s.nodes| && s.nodes[y].count == 0 && s.nodes[y].freed == 0
      && s.nodes[y].parent < |s.nodes| && s.nodes[s.nodes[y].parent].count > 0
      && s' == FreeNext(s, y)
  }

  /** The root node starts with the caller's own reference and the handle of the first task. */
  predicate Init(s: State) {
    && s.from <= s.to && s.nodes == [Node(0, 2, 0)] && s.done == multiset{}
    && |s.tasks| == 1
    && var k := s.tasks[0];
    && k.kind == Root && k.phase == Started && k.node == 0 && k.current == s.from && k.end == s.to
    && k.grain >= 1 && k.threads.from < k.threads.to
    && k.invocations == 0 && k.state == 0 && k.runs == 1 && k.deletes == 0
    && k.past == History(s.from, s.to, s.from, k.grain, 0)
  }

  // ----- iterations -----

  /** Where the task's own remaining iterations end: between the spawn of a half and the update of End_,
      the second half is no longer the task's. */
  function Stop(k: Task): nat {
    if k.phase.Spawned? then k.phase.mid else k.end
  }

  /** Iteration i is still to be executed, and it is this task that will execute it or hand it on. */
  predicate Owns(k: Task, i: nat) {
    && Active(k)
    && (k.current <= i < Stop(k)
        || (k.phase.Sharing? && k.phase.todo != [] && k.phase.todo[0].data.from <= i < k.phase.todo[|k.phase.todo| - 1].data.to))
  }

  predicate TodoOk(todo: seq<Piece>, end: nat) {
    && (forall p :: p in todo ==> p.data.from < p.data.to && p.threads.from < p.threads.to)
    && (todo != [] ==> end <= todo[0].data.from)
    && (forall j :: 0 <= j < |todo| - 1 ==> todo[j].data.to == todo[j + 1].data.from)
    && |todo| <= 2
  }

  predicate TaskOk(k: Task) {
    && k.current <= Stop(k) <= k.end
    && k.grain >= 1 && k.threads.from < k.threads.to
    && (k.phase.Sharing? ==> TodoOk(k.phase.todo, k.end) && (k.phase.todo != [] ==> k.current < k.end))
    && (!Active(k) ==> k.current == k.end)
  }

  /** The counter of a ProxyTask and the queue entries that are left. */
  predicate ObjectOk(k: Task) {
    match k.kind
    case Root => k.invocations == 0 && !k.phase.Waiting? && k.runs == 1 && k.deletes == 0
    case Unique =>
      && k.invocations == (if k.phase.Waiting? then 1 else 0)
      && k.runs == (if k.phase.Waiting? then 0 else 1)
      && k.deletes == (if k.phase.Gone? then 1 else 0)
    case Proxy =>
      && k.invocations <= 2
      && (k.phase.Waiting? <==> k.invocations == 2)
      && k.state == (2 - k.invocations) + (if k.phase.Gone? then 1 else 0)
      && k.runs == (if k.phase.Waiting? then 0 else 1)
      && k.deletes == (if k.state == 3 then 1 else 0)
  }

  /** The task object has not been deleted. */
  predicate Alive(k: Task) {
    k.deletes == 0
  }

  predicate OwnsAt(s: State, t: nat, i: nat) {
    t < |s.tasks| && Owns(s.tasks[t], i)
  }

  ghost predicate OwnedBySome(s: State, i: nat) {
    exists t: nat :: OwnsAt(s, t, i)
  }

  /** Executed iterations, ranges of unstarted tasks and what running tasks still own partition [from, to). */
  ghost predicate Partition(s: State) {
    && (forall t: nat, u: nat, i: nat :: OwnsAt(s, t, i) && OwnsAt(s, u, i) ==> t == u)
    && (forall t: nat, i: nat :: OwnsAt(s, t, i) ==> s.from <= i < s.to && i !in s.done)
    && (forall i: nat :: i in s.done ==> s.from <= i < s.to && s.done[i] == 1)
    && (forall i: nat :: s.from <= i < s.to ==> i in s.done || OwnedBySome(s, i))
  }

  // ----- references -----

  function Handles(s: State, x: nat): set<nat> {
    set t | 0 <= t < |s.tasks| && Active(s.tasks[t]) && s.tasks[t].node == x
  }

  function Kids(s: State, x: nat): set<nat> {
    set y | 0 < y < |s.nodes| && s.nodes[y].freed == 0 && s.nodes[y].parent == x
  }

  /** A node's count is the number of pointers to it: handles of tasks that have not reset theirs, parent
      pointers of nodes that are not freed, and the caller's reference to the root. */
  predicate CountOk(s: State, x: nat)
    requires x < |s.nodes|
  {
    s.nodes[x].count == (if x == 0 then 1 else 0) + |Handles(s, x)| + |Kids(s, x)|
  }

  predicate NodeOk(s: State, x: nat)
    requires x < |s.nodes|
  {
    && s.nodes[x].freed <= 1
    && (x > 0 ==> s.nodes[x].parent < x && (s.nodes[x].freed == 0 ==> s.nodes[s.nodes[x].parent].freed == 0))
    && (x == 0 ==> s.nodes[x].freed == 0)
    && (s.nodes[x].freed == 1 ==> s.nodes[x].count == 0)
  }

  ghost predicate Tree(s: State) {
    && |s.nodes| > 0
    && (forall x :: 0 <= x < |s.nodes| ==> NodeOk(s, x) && CountOk(s, x))
    && (forall t :: 0 <= t < |s.tasks| ==> s.tasks[t].node < |s.nodes|)
    && (forall t :: 0 <= t < |s.tasks| && Active(s.tasks[t]) ==> s.nodes[s.tasks[t].node].freed == 0)
  }

  ghost predicate Inv(s: State) {
    && s.from <= s.to && |s.tasks| > 0
    && (forall t :: 0 <= t < |s.tasks| ==> TaskOk(s.tasks[t]) && ObjectOk(s.tasks[t]))
    && Partition(s)
    && Tree(s)
  }
}
