/** Operations of the deque end: PushFront, PopFront, PushBack and PopBack within a constant number of their
    own steps, PopBackHalf within a number linear in the capacity, a measurement or a test of Empty within a
    few steps unless the owner keeps storing its index. */
module RunQueueProgress {
  import opened DequeSpec
  import opened ManyDeque
  import opened RunQueueProtocol
  import opened RunQueueSimulation
  import opened RunQueueRuns
  import opened RunQueueCallers

  // ----- how many own steps are left -----

  function OwnerRank(pc: OwnerPc): nat {
    match pc
    case OIdle => 0
    case OReturn(_, _) => 0
    case PushLoadFront(_) => 6
    case PushLoadState(_, _) => 5
    case PushCas(_, _) => 4
    case PushStoreFront(_, _) => 3
    case PushMove(_, _) => 2
    case PushPublish(_, _) => 1
    case PopLoadFront => 6
    case PopLoadState(_) => 5
    case PopCas(_) => 4
    case PopMove(_) => 3
    case PopRelease(_, _) => 2
    case PopStoreFront(_, _) => 1
  }

  /** `k` bounds the scan of PopBackHalf, which makes three steps for an element. */
  function RemoteRank(k: nat, pc: RemotePc): nat {
    match pc
    case RIdle => 0
    case RReturn(_, _) => 0
    case BackPushLoadBack(_) => 6
    case BackPushLoadState(_, _) => 5
    case BackPushCas(_, _) => 4
    case BackPushStoreBack(_, _) => 3
    case BackPushMove(_, _) => 2
    case BackPushPublish(_, _) => 1
    case BackPopLoadBack => 6
    case BackPopLoadState(_) => 5
    case BackPopCas(_) => 4
    case BackPopMove(_) => 3
    case BackPopRelease(_, _) => 2
    case BackPopStoreBack(_, _) => 1
    case HalfLoadBack => 3 * k + 9
    case HalfSizeFront(_) => 3 * k + 8
    case HalfSizeBack(_, _) => 3 * k + 7
    case HalfSizeFront1(_, _, _) => 3 * k + 6
    case HalfLoadState(_, at) => 3 * at + 5
    case HalfCas(_, at) => 3 * at + 4
    case HalfTake(_, _, at, _) => 3 * at + 3
    case HalfRelease(_, _, at, _) => 3 * at + 2
    case HalfNext(_, _, at, _) => 3 * at + 4
    case HalfStoreBack(_, _, _) => 1
  }

  /** A measurement during which the front index has changed will have to start a new round. */
  function RemoteDebt(s: State): nat {
    if (s.remote.HalfSizeBack? || s.remote.HalfSizeFront1?) && s.remote.front != s.front then 2 else 0
  }

  predicate OwnerBusy(pc: OwnerPc) {
    !pc.OIdle? && !pc.OReturn?
  }

  predicate RemoteBusy(pc: RemotePc) {
    !pc.RIdle? && !pc.RReturn?
  }

  lemma OwnerStepLowers(c: Config, s: State)
    requires WellFormed(c, s) && OwnerBusy(s.owner)
    ensures OwnerRank(OwnerNext(c, s).owner) < OwnerRank(s.owner) <= 6
    ensures OwnerBusy(OwnerNext(c, s).owner) <==> OwnerRank(OwnerNext(c, s).owner) > 0
  {
  }

  lemma RemoteStepLowers(c: Config, s: State)
    requires WellFormed(c, s) && RemoteBusy(s.remote)
    ensures var s' := RemoteNext(c, s); RemoteRank(c.k, s'.remote) + RemoteDebt(s') < RemoteRank(c.k, s.remote) + RemoteDebt(s)
    ensures InPushBack(s.remote) || InPopBack(s.remote) ==> RemoteRank(c.k, s.remote) <= 6
    ensures RemoteBusy(RemoteNext(c, s).remote) <==> RemoteRank(c.k, RemoteNext(c, s).remote) > 0
  {
  }

  // ----- one operation in a run -----

  /** The steps of the owner from moment i to moment j: only they change its program counter. */
  function OwnerSteps(run: seq<State>, i: nat, j: nat): nat
    requires i <= j < |run|
    decreases j - i
  {
    if i == j then 0 else OwnerSteps(run, i, j - 1) + if run[j].owner != run[j - 1].owner then 1 else 0
  }

  function RemoteSteps(run: seq<State>, i: nat, j: nat): nat
    requires i <= j < |run|
    decreases j - i
  {
    if i == j then 0 else RemoteSteps(run, i, j - 1) + if run[j].remote != run[j - 1].remote then 1 else 0
  }

  /** How often the front index changes. */
  function FrontChanges(run: seq<State>, i: nat, j: nat): nat
    requires i <= j < |run|
    decreases j - i
  {
    if i == j then 0 else FrontChanges(run, i, j - 1) + if run[j].front != run[j - 1].front then 1 else 0
  }

  /** Within one call the owner makes at most six steps, and after the sixth it has returned. */
  lemma {:induction false} OwnerBounded(c: Config, run: seq<State>, events: seq<Event>, i: nat, j: nat)
    requires Execution(c, run, events) && i <= j < |run|
    requires forall x :: i <= x < j ==> OwnerBusy(run[x].owner)
    ensures OwnerSteps(run, i, j) + OwnerRank(run[j].owner) <= OwnerRank(run[i].owner)
    decreases j - i
  {
    if i < j {
      OwnerBounded(c, run, events, i, j - 1);
      OwnerOneStep(c, run[j - 1], events[j - 1], run[j - 1 + 1]);
    }
  }

  lemma OwnerOneStep(c: Config, s: State, e: Event, s': State)
    requires Next(c, s, e, s') && OwnerBusy(s.owner)
    ensures (if s'.owner != s.owner then 1 else 0) + OwnerRank(s'.owner) <= OwnerRank(s.owner)
  {
    OwnerStepLowers(c, s);
    if !OwnerStep(c, s, e, s') {
      assert s'.owner == s.owner;
    }
  }

  /** Within one call the remote makes no more steps than its rank, and two more for every change of the
      front index while PopBackHalf measures. */
  lemma {:induction false} RemoteBounded(c: Config, run: seq<State>, events: seq<Event>, i: nat, j: nat)
    requires Execution(c, run, events) && i <= j < |run|
    requires forall x :: i <= x < j ==> RemoteBusy(run[x].remote)
    ensures RemoteSteps(run, i, j) + RemoteRank(c.k, run[j].remote) + RemoteDebt(run[j])
         <= RemoteRank(c.k, run[i].remote) + RemoteDebt(run[i]) + 2 * FrontChanges(run, i, j)
    decreases j - i
  {
    if i < j {
      RemoteBounded(c, run, events, i, j - 1);
      RemoteOneStep(c, run[j - 1], events[j - 1], run[j - 1 + 1]);
    }
  }

  lemma RemoteOneStep(c: Config, s: State, e: Event, s': State)
    requires Next(c, s, e, s') && RemoteBusy(s.remote)
    ensures (if s'.remote != s.remote then 1 else 0) + RemoteRank(c.k, s'.remote) + RemoteDebt(s')
         <= RemoteRank(c.k, s.remote) + RemoteDebt(s) + if s'.front != s.front then 2 else 0
  {
    if RemoteStep(c, s, e, s') {
      RemoteStepLowers(c, s);
    } else {
      assert s'.remote == s.remote;
    }
  }

  /** PushBack and PopBack return within six steps of their own, whatever the owner does. */
  lemma {:induction false} BackBounded(c: Config, run: seq<State>, events: seq<Event>, i: nat, j: nat)
    requires Execution(c, run, events) && i <= j < |run|
    requires forall x :: i <= x < j ==> InPushBack(run[x].remote) || InPopBack(run[x].remote)
    ensures RemoteSteps(run, i, j) + RemoteRank(c.k, run[j].remote) <= RemoteRank(c.k, run[i].remote)
    ensures i < j ==> RemoteSteps(run, i, j) <= 6
    decreases j - i
  {
    if i < j {
      BackBounded(c, run, events, i, j - 1);
      BackOneStep(c, run[j - 1], events[j - 1], run[j - 1 + 1]);
    }
  }

  lemma BackOneStep(c: Config, s: State, e: Event, s': State)
    requires Next(c, s, e, s') && (InPushBack(s.remote) || InPopBack(s.remote))
    ensures (if s'.remote != s.remote then 1 else 0) + RemoteRank(c.k, s'.remote) <= RemoteRank(c.k, s.remote) <= 6
  {
    if RemoteStep(c, s, e, s') {
      RemoteStepLowers(c, s);
    } else {
      assert s'.remote == s.remote;
    }
  }

  // ----- the callers -----

  /** How many steps a test of Empty has left. */
  function TestRank(pc: CallerPc): nat {
    match pc
    case LoadFront(_) => 3
    case LoadBack(_, _) => 2
    case Reload(_, _, _) => 1
    case _ => 0
  }

  predicate Tests(pc: CallerPc) {
    pc.LoadFront? || pc.LoadBack? || pc.Reload?
  }

  function TestDebt(s: System, pc: CallerPc): nat {
    if (pc.LoadBack? || pc.Reload?) && pc.front != s.base.front then 2 else 0
  }

  function TestCost(s: System, p: nat): nat
    requires p < |s.callers|
  {
    TestRank(s.callers[p]) + TestDebt(s, s.callers[p])
  }

  lemma TestStepLowers(c: Config, s: System, p: nat, e: ManyEvent, s': System)
    requires SystemStep(c, s, Caller(p), e, s') && p < |s.callers| && Tests(s.callers[p])
    ensures |s'.callers| == |s.callers| && TestCost(s', p) < TestCost(s, p)
  {
  }

  lemma OthersCostTest(c: Config, s: System, t: Who, e: ManyEvent, s': System, p: nat)
    requires SystemStep(c, s, t, e, s') && p < |s.callers| && t != Caller(p)
    ensures |s'.callers| == |s.callers| && s'.callers[p] == s.callers[p]
    ensures TestCost(s', p) <= TestCost(s, p) + if s'.base.front != s.base.front then 2 else 0
  {
  }

  function CallerSteps(who: seq<Who>, p: nat, i: nat, j: nat): nat
    requires i <= j <= |who|
    decreases j - i
  {
    if i == j then 0 else CallerSteps(who, p, i, j - 1) + if who[j - 1] == Caller(p) then 1 else 0
  }

  /** A test of Empty takes at most three steps of its thread, and two more for every change of the front
      index meanwhile. */
  lemma {:induction false} TestBounded(c: Config, run: seq<System>, who: seq<Who>, events: seq<ManyEvent>, p: nat, i: nat, j: nat)
    requires SystemRun(c, run, who, events) && i <= j < |run|
    requires forall x :: i <= x < j ==> p < |run[x].callers| && Tests(run[x].callers[p])
    requires p < |run[i].callers|
    ensures p < |run[j].callers|
    ensures CallerSteps(who, p, i, j) + TestCost(run[j], p) <= TestCost(run[i], p) + 2 * FrontChanges(Bases(run), i, j)
    decreases j - i
  {
    if i < j {
      TestBounded(c, run, who, events, p, i, j - 1);
      assert SystemStep(c, run[j - 1], who[j - 1], events[j - 1], run[j - 1 + 1]);
      if who[j - 1] == Caller(p) {
        TestStepLowers(c, run[j - 1], p, events[j - 1], run[j]);
      } else {
        OthersCostTest(c, run[j - 1], who[j - 1], events[j - 1], run[j], p);
      }
    }
  }

  /** The answer of a round in which the front index did not change: the early return is taken exactly when
      the two positions are equal, otherwise the thread goes for the mutex. */
  lemma TestAnswers(c: Config, s: System, p: nat, e: ManyEvent, s': System)
    requires SystemStep(c, s, Caller(p), e, s') && p < |s.callers| && s.callers[p].Reload? && s.callers[p].front == s.base.front
    ensures var pc := s.callers[p];
            |s'.callers| == |s.callers| && s'.callers[p] == if Pos(c, pc.front) == Pos(c, pc.back) then FoundEmpty(pc.op) else Lock(pc.op)
  {
  }

  /** Where the callers can be stuck: nowhere but at the mutex, and there only while another thread is
      inside, which returns in the end. */
  lemma CallerStepPossible(c: Config, run: seq<System>, who: seq<Who>, events: seq<ManyEvent>, kinds: set<Kind>, i: nat, p: nat)
    returns (e: ManyEvent, s': System)
    requires SystemRun(c, run, who, events) && EntersOnly(events, kinds) && i < |run| && p < |run[i].callers|
    requires WellFormed(c, run[i].base)
    requires !run[i].callers[p].Outside? && !(run[i].callers[p].Lock? && exists q :: 0 <= q < |run[i].callers| && run[i].callers[q].Inside?)
    ensures SystemStep(c, run[i], Caller(p), e, s') && s' != run[i]
    ensures run[i].callers[p].Lock? ==> s'.callers[p].Inside?
  {
    var s := run[i];
    MutexHolds(c, run, who, events, i);
    OpsAllowed(c, run, who, events, kinds, i, p);
    match s.callers[p]
    case LoadFront(op) => e, s' := Silent, Goto(s, p, LoadBack(op, s.base.front));
    case LoadBack(op, front) => e, s' := Silent, Goto(s, p, Reload(op, front, s.base.back));
    case Reload(op, front, back) =>
      e, s' := Silent, Goto(s, p, if s.base.front != front then LoadBack(op, s.base.front)
                                  else if Same(c, front, back) then FoundEmpty(op) else Lock(op));
    case Lock(op) => e, s' := Silent, Goto(s, p, Inside).(base := s.base.(remote := RemoteEntry(op)));
    case FoundEmpty(op) => e, s' := Leave(Caller(p), op, Nothing(op)), Goto(s, p, Outside);
    case Inside =>
      if s.base.remote.RReturn? {
        e, s' := Leave(Caller(p), s.base.remote.op, s.base.remote.ret), Goto(s, p, Outside).(base := s.base.(remote := RIdle));
      } else {
        e, s' := Silent, s.(base := RemoteNext(c, s.base));
        RemoteStepLowers(c, s.base);
      }
    assert s'.callers[p] != s.callers[p] || s'.base != s.base;
  }
}
