/** Adding something up over the tasks of a call, and what a step does to the sum. */
module TaskTreeSums {
  import opened TaskTree
  import opened Distribution

  /** The sum of f over the tasks and their numbers. */
  function SumOf<T>(f: (nat, Task) -> multiset<T>, ts: seq<Task>): multiset<T> {
    if ts == [] then multiset{} else SumOf(f, ts[..|ts| - 1]) + f(|ts| - 1, ts[|ts| - 1])
  }

  lemma {:induction false} SumUpdate<T>(f: (nat, Task) -> multiset<T>, ts: seq<Task>, t: nat, k: Task)
    requires t < |ts|
    ensures SumOf(f, ts[t := k]) + f(t, ts[t]) == SumOf(f, ts) + f(t, k)
  {
    var n := |ts| - 1;
    if t < n {
      SumUpdate(f, ts[..n], t, k);
      assert ts[t := k][..n] == ts[..n][t := k];
      Regroup(SumOf(f, ts[..n][t := k]), f(t, ts[t]), SumOf(f, ts[..n]), f(t, k), f(n, ts[n]));
    } else {
      assert ts[t := k][..n] == ts[..n];
    }
  }

  lemma Regroup<T>(a: multiset<T>, x: multiset<T>, b: multiset<T>, y: multiset<T>, more: multiset<T>)
    requires a + x == b + y
    ensures (a + more) + x == (b + more) + y
  {
    assert (a + more) + x == (a + x) + more;
    assert (b + more) + y == (b + y) + more;
  }

  lemma Cancel<T>(a: multiset<T>, x: multiset<T>, more: multiset<T>, b: multiset<T>)
    requires a + (x + more) == b + x
    ensures a + more == b
  {
    assert (a + more) + x == a + (x + more);
    assert ((a + more) + x) - x == a + more;
    assert (b + x) - x == b;
  }

  lemma SumAppend<T>(f: (nat, Task) -> multiset<T>, ts: seq<Task>, k: Task)
    ensures SumOf(f, ts + [k]) == SumOf(f, ts) + f(|ts|, k)
  {
    assert (ts + [k])[..|ts|] == ts;
  }

  lemma {:induction false} SumSame<T>(f: (nat, Task) -> multiset<T>, g: (nat, Task) -> multiset<T>, ts: seq<Task>)
    requires forall t :: 0 <= t < |ts| ==> f(t, ts[t]) == g(t, ts[t])
    ensures SumOf(f, ts) == SumOf(g, ts)
  {
    if ts != [] {
      SumSame(f, g, ts[..|ts| - 1]);
    }
  }

  lemma {:induction false} SumHasPart<T>(f: (nat, Task) -> multiset<T>, ts: seq<Task>, t: nat)
    requires t < |ts|
    ensures f(t, ts[t]) <= SumOf(f, ts)
  {
    if t < |ts| - 1 {
      SumHasPart(f, ts[..|ts| - 1], t);
    }
  }

  lemma {:induction false} SumHasTwoParts<T>(f: (nat, Task) -> multiset<T>, ts: seq<Task>, t: nat, u: nat)
    requires t < u < |ts|
    ensures f(t, ts[t]) + f(u, ts[u]) <= SumOf(f, ts)
  {
    if u < |ts| - 1 {
      SumHasTwoParts(f, ts[..|ts| - 1], t, u);
    } else {
      SumHasPart(f, ts[..|ts| - 1], t);
    }
  }

  /** Only task t contributes. */
  lemma {:induction false} SumOfOne<T>(f: (nat, Task) -> multiset<T>, ts: seq<Task>, t: nat)
    requires t < |ts| && forall u :: 0 <= u < |ts| && u != t ==> f(u, ts[u]) == multiset{}
    ensures SumOf(f, ts) == f(t, ts[t])
  {
    var n := |ts| - 1;
    if t < n {
      SumOfOne(f, ts[..n], t);
    } else {
      SumOfNone(f, ts[..n]);
    }
  }

  lemma {:induction false} SumOfNone<T>(f: (nat, Task) -> multiset<T>, ts: seq<Task>)
    requires forall u :: 0 <= u < |ts| ==> f(u, ts[u]) == multiset{}
    ensures SumOf(f, ts) == multiset{}
  {
    if ts != [] {
      SumOfNone(f, ts[..|ts| - 1]);
    }
  }

  // ----- what a step does to the tasks -----

  /** The task that a step of task t puts into the queues, if it does. */
  predicate SpawnsShared(k: Task) {
    k.phase.Sharing? && k.phase.todo != []
  }

  predicate SpawnsHalf(k: Task, flag: bool) {
    k.phase.Balancing? && k.current != k.end && Divisible(k.current, k.end, k.grain, flag)
  }

  function SpawnedBy(k: Task, t: nat, flag: bool): seq<Task> {
    if SpawnsShared(k) then [SharedChild(k, k.phase.todo[0])]
    else if SpawnsHalf(k, flag) then [HalfChild(k, k.current + (k.end - k.current) / 2, OriginOf(k, t))]
    else []
  }

  lemma ContinueTasks(s: State, t: nat, flag: bool)
    requires Runnable(s, t)
    ensures var s', more := ContinueNext(s, t, flag), SpawnedBy(s.tasks[t], t, flag);
            && t < |s.tasks| <= |s'.tasks|
            && s'.tasks == s.tasks[t := s'.tasks[t]] + if more == [] then [] else [more[0].(node := |s.nodes|)]
  {
  }

  /** The sum stays if what task t gives up is what the new task brings. */
  lemma SumHandsOn<T>(f: (nat, Task) -> multiset<T>, ts: seq<Task>, t: nat, k: Task, more: seq<Task>, ts': seq<Task>)
    requires t < |ts| && |more| <= 1 && ts' == ts[t := k] + more
    requires f(t, ts[t]) == f(t, k) + if more == [] then multiset{} else f(|ts|, more[0])
    ensures SumOf(f, ts') == SumOf(f, ts)
  {
    var put := ts[t := k];
    SumUpdate(f, ts, t, k);
    if more == [] {
      assert ts' == put;
      Cancel(SumOf(f, put), f(t, k), multiset{}, SumOf(f, ts));
    } else {
      assert more == [more[0]];
      SumAppend(f, put, more[0]);
      Cancel(SumOf(f, put), f(t, k), f(|ts|, more[0]), SumOf(f, ts));
    }
  }

  /** A step keeps the sum if what the task gives up is what the new task brings. */
  lemma ContinueSum<T>(f: (nat, Task) -> multiset<T>, s: State, t: nat, flag: bool)
    requires Runnable(s, t) && t < |ContinueNext(s, t, flag).tasks|
    requires forall u: nat, k: Task, x: nat :: f(u, k.(node := x)) == f(u, k)
    requires var more, k' := SpawnedBy(s.tasks[t], t, flag), ContinueNext(s, t, flag).tasks[t];
             f(t, s.tasks[t]) == f(t, k') + if more == [] then multiset{} else f(|s.tasks|, more[0])
    ensures SumOf(f, ContinueNext(s, t, flag).tasks) == SumOf(f, s.tasks)
  {
    var s', more := ContinueNext(s, t, flag), SpawnedBy(s.tasks[t], t, flag);
    ContinueTasks(s, t, flag);
    SumHandsOn(f, s.tasks, t, s'.tasks[t], if more == [] then [] else [more[0].(node := |s.nodes|)], s'.tasks);
  }
}
