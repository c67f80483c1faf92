/** Every step of a ParallelFor call keeps its invariant. */
module TaskTreeSteps {
  import opened Distribution
  import opened TaskTree

  lemma StartOk(s: State)
    requires Init(s)
    ensures Inv(s)
  {
    assert Handles(s, 0) == {0};
    assert Kids(s, 0) == {};
    forall i: nat | s.from <= i < s.to
      ensures OwnedBySome(s, i)
    {
      assert OwnsAt(s, 0, i);
    }
  }

  // ----- one task changes -----

  lemma SameOwners(s: State, s': State)
    requires Partition(s) && s'.done == s.done && s'.from == s.from && s'.to == s.to
    requires forall t: nat, i: nat :: OwnsAt(s', t, i) == OwnsAt(s, t, i)
    ensures Partition(s')
  {
    forall i: nat | s.from <= i < s.to && i !in s.done
      ensures OwnedBySome(s', i)
    {
      assert OwnedBySome(s, i);
      var u: nat :| OwnsAt(s, u, i);
      assert OwnsAt(s', u, i);
    }
  }

  lemma OneFewer(s: State, s': State, t: nat, c: nat)
    requires Partition(s) && s'.done == s.done + multiset{c} && s'.from == s.from && s'.to == s.to
    requires OwnsAt(s, t, c)
    requires forall u: nat, i: nat :: OwnsAt(s', u, i) == (OwnsAt(s, u, i) && !(u == t && i == c))
    ensures Partition(s')
  {
    forall i: nat | s.from <= i < s.to && i !in s'.done
      ensures OwnedBySome(s', i)
    {
      assert OwnedBySome(s, i);
      var u: nat :| OwnsAt(s, u, i);
      assert OwnsAt(s', u, i);
    }
    forall i: nat | i in s'.done
      ensures s.from <= i < s.to && s'.done[i] == 1
    {
      assert i != c ==> i in s.done;
    }
  }

  /** Nothing about ownership or references changes. */
  lemma PutKeeps(s: State, t: nat, k: Task)
    requires Inv(s) && t < |s.tasks| && TaskOk(k) && ObjectOk(k)
    requires k.node == s.tasks[t].node && Active(k) == Active(s.tasks[t])
    requires forall i: nat :: Owns(k, i) == Owns(s.tasks[t], i)
    ensures Inv(Put(s, t, k))
  {
    var s' := Put(s, t, k);
    SameOwners(s, s');
    forall x | 0 <= x < |s'.nodes|
      ensures NodeOk(s', x) && CountOk(s', x)
    {
      assert NodeOk(s, x) && CountOk(s, x);
      assert Handles(s', x) == Handles(s, x);
      assert Kids(s', x) == Kids(s, x);
    }
  }

  /** A task executes its current iteration. */
  lemma ExecuteKeeps(s: State, t: nat, k: Task)
    requires Inv(s) && t < |s.tasks| && TaskOk(k) && ObjectOk(k)
    requires k.node == s.tasks[t].node && Active(k) && Active(s.tasks[t])
    requires Owns(s.tasks[t], s.tasks[t].current)
    requires forall i: nat :: Owns(k, i) == (Owns(s.tasks[t], i) && i != s.tasks[t].current)
    ensures Inv(Execute(Put(s, t, k), s.tasks[t].current))
  {
    var c := s.tasks[t].current;
    var s1 := Put(s, t, k);
    var s' := Execute(s1, c);
    assert OwnsAt(s, t, c);
    OneFewer(s, s', t, c);
    forall x | 0 <= x < |s'.nodes|
      ensures NodeOk(s', x) && CountOk(s', x)
    {
      assert NodeOk(s, x) && CountOk(s, x);
      assert Handles(s', x) == Handles(s, x);
      assert Kids(s', x) == Kids(s, x);
    }
  }

  // ----- a task spawns another -----

  /** The nodes that were there: only the parent's count changes, by its new child. */
  lemma SpawnOldNode(s: State, t: nat, k: Task, child: Task, x: nat)
    requires Inv(s) && t < |s.tasks| && k.node == s.tasks[t].node && Active(k) && Active(s.tasks[t]) && Active(child)
    requires x < |s.nodes|
    ensures var s' := Spawn(Put(s, t, k), k.node, child); NodeOk(s', x) && CountOk(s', x)
  {
    var s' := Spawn(Put(s, t, k), k.node, child);
    assert NodeOk(s, x) && CountOk(s, x) && NodeOk(s, k.node);
    assert Handles(s', x) == Handles(s, x);
    if x == k.node {
      assert Kids(s', x) == Kids(s, x) + {|s.nodes|};
    } else {
      assert Kids(s', x) == Kids(s, x);
    }
  }

  lemma SpawnNewNode(s: State, t: nat, k: Task, child: Task)
    requires Inv(s) && t < |s.tasks| && k.node == s.tasks[t].node && Active(k) && Active(s.tasks[t]) && Active(child)
    ensures var s' := Spawn(Put(s, t, k), k.node, child); NodeOk(s', |s.nodes|) && CountOk(s', |s.nodes|)
  {
    var s' := Spawn(Put(s, t, k), k.node, child);
    assert NodeOk(s, k.node);
    assert Handles(s', |s.nodes|) == {|s.tasks|};
    NoKidsYet(s, s', |s.nodes|);
  }

  lemma SpawnTree(s: State, t: nat, k: Task, child: Task)
    requires Inv(s) && t < |s.tasks| && k.node == s.tasks[t].node && Active(k) && Active(s.tasks[t]) && Active(child)
    ensures Tree(Spawn(Put(s, t, k), k.node, child))
  {
    var s' := Spawn(Put(s, t, k), k.node, child);
    forall x | 0 <= x < |s'.nodes|
      ensures NodeOk(s', x) && CountOk(s', x)
    {
      if x == |s.nodes| {
        SpawnNewNode(s, t, k, child);
      } else {
        SpawnOldNode(s, t, k, child, x);
      }
    }
  }

  lemma NoKidsYet(s: State, s': State, y: nat)
    requires Tree(s) && |s'.nodes| == y + 1 && |s.nodes| == y
    requires s'.nodes[y].parent < y
    requires forall z :: 0 <= z < y ==> s'.nodes[z].parent == s.nodes[z].parent
    ensures Kids(s', y) == {}
  {
    forall z | 0 < z < |s'.nodes|
      ensures s'.nodes[z].parent != y
    {
      if z < y {
        assert NodeOk(s, z);
      }
    }
  }

  /** The new task takes over part of what its parent owned. */
  lemma SpawnKeeps(s: State, t: nat, k: Task, child: Task)
    requires Inv(s) && t < |s.tasks|
    requires TaskOk(k) && ObjectOk(k) && k.node == s.tasks[t].node && Active(k) && Active(s.tasks[t])
    requires Active(child) && (forall x :: TaskOk(child.(node := x)) && ObjectOk(child.(node := x)))
    requires forall i: nat :: Owns(s.tasks[t], i) == (Owns(k, i) || Owns(child, i))
    requires forall i: nat :: !(Owns(k, i) && Owns(child, i))
    ensures Inv(Spawn(Put(s, t, k), k.node, child))
  {
    var s' := Spawn(Put(s, t, k), k.node, child);
    var nt := |s.tasks|;
    SpawnTree(s, t, k, child);
    forall u: nat, i: nat
      ensures OwnsAt(s', u, i) == if u == nt then Owns(child, i) else if u == t then Owns(k, i) else OwnsAt(s, u, i)
    {
    }
    SpawnPartition(s, t, s', nt);
  }

  lemma SpawnPartition(s: State, t: nat, s': State, nt: nat)
    requires Partition(s) && t < nt == |s.tasks| && s'.done == s.done && s'.from == s.from && s'.to == s.to
    requires forall u: nat, i: nat :: u != t && u != nt ==> OwnsAt(s', u, i) == OwnsAt(s, u, i)
    requires forall i: nat :: OwnsAt(s, t, i) == (OwnsAt(s', t, i) || OwnsAt(s', nt, i))
    requires forall i: nat :: !(OwnsAt(s', t, i) && OwnsAt(s', nt, i))
    ensures Partition(s')
  {
    forall i: nat | s.from <= i < s.to && i !in s.done
      ensures OwnedBySome(s', i)
    {
      assert OwnedBySome(s, i);
      var u: nat :| OwnsAt(s, u, i);
      assert OwnsAt(s', u, i) || OwnsAt(s', nt, i);
    }
    forall a: nat, b: nat, i: nat | OwnsAt(s', a, i) && OwnsAt(s', b, i)
      ensures a == b
    {
      assert OwnsAt(s, if a == nt then t else a, i);
      assert OwnsAt(s, if b == nt then t else b, i);
    }
    forall a: nat, i: nat | OwnsAt(s', a, i)
      ensures s.from <= i < s.to && i !in s.done
    {
      assert OwnsAt(s, if a == nt then t else a, i);
    }
  }

  // ----- a task lets go of its node -----

  lemma ReleaseKeeps(s: State, t: nat, k: Task)
    requires Inv(s) && t < |s.tasks| && Active(s.tasks[t])
    requires k == s.tasks[t].(phase := Returned) && TaskOk(k) && ObjectOk(k)
    requires s.tasks[t].current == Stop(s.tasks[t]) && !s.tasks[t].phase.Sharing?
    ensures s.nodes[k.node].count > 0
    ensures Inv(Release(Put(s, t, k), k.node))
  {
    assert CountOk(s, k.node) && t in Handles(s, k.node);
    var s' := Release(Put(s, t, k), k.node);
    SameOwners(s, s');
    forall x | 0 <= x < |s'.nodes|
      ensures NodeOk(s', x) && CountOk(s', x)
    {
      assert NodeOk(s, x) && CountOk(s, x);
      assert Handles(s', x) == if x == k.node then Handles(s, x) - {t} else Handles(s, x);
      assert Kids(s', x) == Kids(s, x);
    }
  }

  lemma FreeKeeps(s: State, y: nat)
    requires Inv(s) && 0 < y < |s.nodes| && s.nodes[y].count == 0 && s.nodes[y].freed == 0
    ensures s.nodes[y].parent < y && s.nodes[s.nodes[y].parent].count > 0
    ensures Inv(FreeNext(s, y))
  {
    var p := s.nodes[y].parent;
    assert NodeOk(s, y) && CountOk(s, y) && NodeOk(s, p) && CountOk(s, p);
    assert y in Kids(s, p);
    var s' := FreeNext(s, y);
    assert Handles(s, y) == {} && Kids(s, y) == {};
    forall x | 0 <= x < |s'.nodes|
      ensures NodeOk(s', x) && CountOk(s', x)
    {
      assert NodeOk(s, x) && CountOk(s, x);
      assert x !in Kids(s, y);
      assert Handles(s', x) == Handles(s, x);
      assert Kids(s', x) == if x == p then Kids(s, x) - {y} else Kids(s, x);
    }
    forall t | 0 <= t < |s.tasks| && Active(s.tasks[t])
      ensures s.tasks[t].node != y
    {
      assert t !in Handles(s, y);
    }
    SameOwners(s, s');
  }

  // ----- every step -----

  /** The pieces shared by a task are what DistributeWork hands out. */
  lemma ShareKeeps(s: State, t: nat, flag: bool)
    requires Inv(s) && t < |s.tasks| && s.tasks[t].phase.Started? && s.tasks[t].sharing
    ensures Runnable(s, t) ==> Inv(ContinueNext(s, t, flag))
  {
    var k := s.tasks[t];
    var todo := Shared(k.current, k.end, k.threads, k.grain, flag);
    var kept := Kept(k.current, k.end, k.threads, k.grain, flag);
    var k' := k.(phase := Sharing(todo), end := kept, past := k.past.(kept := kept));
    SharedTiles(k.current, k.end, k.threads, k.grain, flag);
    SharedEnds(k.current, k.end, k.threads, k.grain, flag);
    PutKeeps(s, t, k');
  }

  lemma SharedEnds(current: nat, end: nat, threads: Range, grain: nat, halfFull: bool)
    requires current <= end && threads.from < threads.to && grain >= 1
    ensures var ps := Shared(current, end, threads, grain, halfFull);
            var kept := Kept(current, end, threads, grain, halfFull);
            && (ps == [] ==> kept == end)
            && (ps != [] ==> ps[0].data.from == kept && ps[|ps| - 1].data.to == end)
            && TodoOk(ps, kept)
  {
    SharedTiles(current, end, threads, grain, halfFull);
  }

  lemma SpawnSharedKeeps(s: State, t: nat, flag: bool)
    requires Inv(s) && t < |s.tasks| && s.tasks[t].phase.Sharing? && s.tasks[t].phase.todo != []
    ensures Runnable(s, t) ==> Inv(ContinueNext(s, t, flag))
  {
    var k := s.tasks[t];
    var todo := k.phase.todo;
    var k' := k.(phase := Sharing(todo[1..]));
    var child := SharedChild(k, todo[0]);
    assert forall p :: p in todo[1..] ==> p in todo;
    assert todo[0] in todo && todo[|todo| - 1] in todo;
    SpawnKeeps(s, t, k', child);
  }

  lemma SpawnHalfKeeps(s: State, t: nat, flag: bool)
    requires Inv(s) && t < |s.tasks| && s.tasks[t].phase.Balancing?
    requires s.tasks[t].current != s.tasks[t].end && Divisible(s.tasks[t].current, s.tasks[t].end, s.tasks[t].grain, flag)
    ensures Runnable(s, t) ==> Inv(ContinueNext(s, t, flag))
  {
    var k := s.tasks[t];
    var mid := k.current + (k.end - k.current) / 2;
    SpawnKeeps(s, t, k.(phase := Spawned(mid)), HalfChild(k, mid, OriginOf(k, t)));
  }

  lemma SpanKeeps(s: State, t: nat, flag: bool)
    requires Inv(s) && Runnable(s, t) && s.tasks[t].phase.Spanning?
    ensures Inv(ContinueNext(s, t, flag))
  {
    var k := s.tasks[t];
    if k.current < k.end {
      ExecuteKeeps(s, t, if flag then StartBalancing(k.(current := k.current + 1))
                         else k.(grain := k.grain + 1, current := k.current + 1));
    } else {
      PutKeeps(s, t, StartBalancing(k));
    }
  }

  lemma DrainKeeps(s: State, t: nat, flag: bool)
    requires Inv(s) && Runnable(s, t) && s.tasks[t].phase.Draining?
    ensures Inv(ContinueNext(s, t, flag))
  {
    var k := s.tasks[t];
    if k.current != k.end {
      ExecuteKeeps(s, t, k.(current := k.current + 1));
    } else {
      ReleaseKeeps(s, t, k.(phase := Returned));
    }
  }

  /** Steps that only move the program counter of the task or its own bounds. */
  lemma LocalKeeps(s: State, t: nat, flag: bool)
    requires Inv(s) && Runnable(s, t)
    requires var k := s.tasks[t];
             || (k.phase.Started? && !k.sharing) || (k.phase.Sharing? && k.phase.todo == []) || k.phase.Spawned?
             || (k.phase.Balancing? && !(k.current != k.end && Divisible(k.current, k.end, k.grain, flag)))
    ensures Inv(ContinueNext(s, t, flag))
  {
    PutKeeps(s, t, ContinueNext(s, t, flag).tasks[t]);
  }

  lemma ContinueKeeps(s: State, t: nat, flag: bool)
    requires Inv(s) && Runnable(s, t)
    ensures Inv(ContinueNext(s, t, flag))
  {
    var k := s.tasks[t];
    match k.phase
    case Started => if k.sharing { ShareKeeps(s, t, flag); } else { LocalKeeps(s, t, flag); }
    case Sharing(todo) => if todo != [] { SpawnSharedKeeps(s, t, flag); } else { LocalKeeps(s, t, flag); }
    case Spanning => SpanKeeps(s, t, flag);
    case Balancing =>
      if k.current != k.end && Divisible(k.current, k.end, k.grain, flag) { SpawnHalfKeeps(s, t, flag); }
      else { LocalKeeps(s, t, flag); }
    case Spawned(_) => LocalKeeps(s, t, flag);
    case Draining => DrainKeeps(s, t, flag);
    case Returned => ReturnKeeps(s, t, flag);
  }

  lemma ReturnKeeps(s: State, t: nat, flag: bool)
    requires Inv(s) && Runnable(s, t) && s.tasks[t].phase.Returned?
    ensures Inv(ContinueNext(s, t, flag))
  {
    PutKeeps(s, t, ContinueNext(s, t, flag).tasks[t]);
  }

  lemma InvokeKeeps(s: State, t: nat)
    requires Inv(s) && t < |s.tasks| && s.tasks[t].invocations > 0
    ensures Inv(InvokeNext(s, t))
  {
    PutKeeps(s, t, InvokeNext(s, t).tasks[t]);
  }

  lemma NextKeeps(s: State, a: Action, s': State)
    requires Inv(s) && Next(s, a, s')
    ensures Inv(s')
  {
    match a
    case Invoke(t) => InvokeKeeps(s, t);
    case Continue(t, flag) => ContinueKeeps(s, t, flag);
    case Free(y) => FreeKeeps(s, y);
  }

  /** The side conditions of the steps, which keep them well defined, never block one: every task that has
      started and not left can go on, and every node whose count is zero can be freed. */
  lemma NothingBlocks(s: State, t: nat, y: nat)
    requires Inv(s)
    ensures t < |s.tasks| && !s.tasks[t].phase.Waiting? && !s.tasks[t].phase.Gone? ==> Runnable(s, t)
    ensures 0 < y < |s.nodes| && s.nodes[y].count == 0 && s.nodes[y].freed == 0 ==>
              s.nodes[y].parent < y && s.nodes[s.nodes[y].parent].count > 0
  {
    if t < |s.tasks| && Active(s.tasks[t]) {
      assert CountOk(s, s.tasks[t].node) && t in Handles(s, s.tasks[t].node);
    }
    if 0 < y < |s.nodes| && s.nodes[y].count == 0 && s.nodes[y].freed == 0 {
      FreeKeeps(s, y);
    }
  }
}
