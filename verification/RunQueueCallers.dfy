/** The deque with any number of threads at the back: the test of Empty before the mutex, the early return,
    the mutex, and inside it the operations of the protocol. */
module RunQueueCallers {
  import opened DequeSpec
  import opened ManyDeque
  import opened RunQueueProtocol
  import opened RunQueueSimulation
  import opened RunQueueRuns

  /** Where a caller stands; Inside is the holder of the mutex, whose program counter is the remote's. */
  datatype CallerPc =
    | Outside
    | LoadFront(op: Op)
    | LoadBack(op: Op, front: nat)
    | Reload(op: Op, front: nat, back: nat)
    | Lock(op: Op)
    | Inside
    | FoundEmpty(op: Op)

  datatype System = System(base: State, callers: seq<CallerPc>)

  function Goto(s: System, p: nat, pc: CallerPc): System
    requires p < |s.callers|
  {
    s.(callers := s.callers[p := pc])
  }

  /** PushBack goes straight to the mutex; PopBack and PopBackHalf test for emptiness first. */
  predicate CallerStep(c: Config, s: System, p: nat, e: ManyEvent, s': System)
    requires WellFormed(c, s.base) && p < |s.callers|
  {
    match s.callers[p]
    case Outside =>
      e.Enter? && e.t == Caller(p) && !OwnerOp(e.op) && s' == Goto(s, p, if e.op.PushBack? then Lock(e.op) else LoadFront(e.op))
    case LoadFront(op) => e == Silent && s' == Goto(s, p, LoadBack(op, s.base.front))
    case LoadBack(op, front) => e == Silent && s' == Goto(s, p, Reload(op, front, s.base.back))
    case Reload(op, front, back) =>
      e == Silent && s' == Goto(s, p, if s.base.front != front then LoadBack(op, s.base.front)
                                      else if Same(c, front, back) then FoundEmpty(op) else Lock(op))
    case Lock(op) =>
      e == Silent && !OwnerOp(op) && s.base.remote.RIdle? && s' == Goto(s, p, Inside).(base := s.base.(remote := RemoteEntry(op)))
    case Inside =>
      if s.base.remote.RReturn? then
        e == Leave(Caller(p), s.base.remote.op, s.base.remote.ret) && s' == Goto(s, p, Outside).(base := s.base.(remote := RIdle))
      else !s.base.remote.RIdle? && e == Silent && s' == s.(base := RemoteNext(c, s.base))
    case FoundEmpty(op) => e == Leave(Caller(p), op, Nothing(op)) && s' == Goto(s, p, Outside)
  }

  function OwnerEvent(e: ManyEvent): Event {
    match e
    case Enter(_, op) => Call(Owner, op)
    case Leave(_, op, ret) => Return(Owner, op, ret)
    case Silent => Internal
  }

  predicate SystemStep(c: Config, s: System, t: Who, e: ManyEvent, s': System) {
    && WellFormed(c, s.base)
    && match t
       case TheOwner =>
         && (e.Silent? || e.t == TheOwner)
         && OwnerStep(c, s.base, OwnerEvent(e), s'.base) && s' == s.(base := s'.base)
       case Caller(p) => p < |s.callers| && CallerStep(c, s, p, e, s')
  }

  /** `who[i]` performs step i. */
  ghost predicate SystemRun(c: Config, run: seq<System>, who: seq<Who>, events: seq<ManyEvent>) {
    && |run| == |events| + 1 && |who| == |events|
    && Init(c, run[0].base) && (forall p :: 0 <= p < |run[0].callers| ==> run[0].callers[p] == Outside)
    && forall i :: 0 <= i < |events| ==> SystemStep(c, run[i], who[i], events[i], run[i + 1])
  }

  // ----- the protocol inside -----

  /** The step of the protocol that a step of the system is; the tests only read. */
  function BaseEvent(s: System, t: Who, e: ManyEvent): Event {
    match t
    case TheOwner => OwnerEvent(e)
    case Caller(p) =>
      if p < |s.callers| && s.callers[p].Lock? then Call(Remote, s.callers[p].op)
      else if p < |s.callers| && s.callers[p].Inside? && s.base.remote.RReturn? then Return(Remote, s.base.remote.op, s.base.remote.ret)
      else Internal
  }

  function Bases(run: seq<System>): (bases: seq<State>)
    ensures |bases| == |run| && forall i :: 0 <= i < |run| ==> bases[i] == run[i].base
  {
    seq(|run|, i requires 0 <= i < |run| => run[i].base)
  }

  function BaseEvents(run: seq<System>, who: seq<Who>, events: seq<ManyEvent>): (es: seq<Event>)
    requires |run| == |events| + 1 && |who| == |events|
    ensures |es| == |events| && forall i :: 0 <= i < |events| ==> es[i] == BaseEvent(run[i], who[i], events[i])
  {
    seq(|events|, i requires 0 <= i < |events| => BaseEvent(run[i], who[i], events[i]))
  }

  lemma StepOfProtocol(c: Config, s: System, t: Who, e: ManyEvent, s': System)
    requires SystemStep(c, s, t, e, s')
    ensures Next(c, s.base, BaseEvent(s, t, e), s'.base) && |s'.callers| == |s.callers|
  {
  }

  lemma RunOfProtocol(c: Config, run: seq<System>, who: seq<Who>, events: seq<ManyEvent>)
    requires SystemRun(c, run, who, events)
    ensures Execution(c, Bases(run), BaseEvents(run, who, events))
  {
    forall i | 0 <= i < |events|
      ensures Next(c, Bases(run)[i], BaseEvents(run, who, events)[i], Bases(run)[i + 1])
    {
      StepOfProtocol(c, run[i], who[i], events[i], run[i + 1]);
    }
  }

  lemma CallersStay(c: Config, s: System, t: Who, e: ManyEvent, s': System)
    requires SystemStep(c, s, t, e, s')
    ensures |s'.callers| == |s.callers|
  {
  }

  lemma {:induction false} SameCallers(c: Config, run: seq<System>, who: seq<Who>, events: seq<ManyEvent>, i: nat)
    requires SystemRun(c, run, who, events) && i < |run|
    ensures |run[i].callers| == |run[0].callers|
  {
    if i > 0 {
      SameCallers(c, run, who, events, i - 1);
      CallersStay(c, run[i - 1], who[i - 1], events[i - 1], run[i - 1 + 1]);
    }
  }

  // ----- the mutex -----

  /** Some caller holds the mutex exactly while the remote is not idle, and no two do. */
  ghost predicate MutexOk(s: System) {
    && (s.base.remote.RIdle? <==> forall p :: 0 <= p < |s.callers| ==> !s.callers[p].Inside?)
    && (forall p, r :: 0 <= p < |s.callers| && 0 <= r < |s.callers| && s.callers[p].Inside? && s.callers[r].Inside? ==> p == r)
  }

  lemma MutexStep(c: Config, s: System, t: Who, e: ManyEvent, s': System)
    requires MutexOk(s) && SystemStep(c, s, t, e, s')
    ensures MutexOk(s')
  {
    match t
    case TheOwner =>
    case Caller(p) =>
      assert forall r :: 0 <= r < |s.callers| && r != p ==> s'.callers[r] == s.callers[r];
      if s.callers[p].Lock? {
        assert s'.callers[p].Inside?;
      } else if s.callers[p].Inside? && s.base.remote.RReturn? {
        assert s'.callers[p].Outside?;
      } else if s.callers[p].Inside? {
        assert s'.callers[p].Inside?;
      }
  }

  lemma {:induction false} MutexHolds(c: Config, run: seq<System>, who: seq<Who>, events: seq<ManyEvent>, i: nat)
    requires SystemRun(c, run, who, events) && i < |run|
    ensures MutexOk(run[i])
  {
    if i > 0 {
      MutexHolds(c, run, who, events, i - 1);
      MutexStep(c, run[i - 1], who[i - 1], events[i - 1], run[i - 1 + 1]);
    }
  }

  // ----- which operations are called -----

  predicate EntersOnly(events: seq<ManyEvent>, kinds: set<Kind>) {
    forall i :: 0 <= i < |events| && events[i].Enter? ==> KindOf(events[i].op) in kinds
  }

  predicate OpAllowed(pc: CallerPc, kinds: set<Kind>) {
    match pc
    case Outside => true
    case Inside => true
    case Lock(op) => KindOf(op) in kinds && !OwnerOp(op)
    case LoadFront(op) => PopAllowed(op, kinds)
    case LoadBack(op, _) => PopAllowed(op, kinds)
    case Reload(op, _, _) => PopAllowed(op, kinds)
    case FoundEmpty(op) => PopAllowed(op, kinds)
  }

  predicate PopAllowed(op: Op, kinds: set<Kind>) {
    KindOf(op) in kinds && (op.PopBack? || op.PopBackHalf?)
  }

  lemma OpAllowedStep(c: Config, s: System, t: Who, e: ManyEvent, s': System, kinds: set<Kind>, p: nat)
    requires SystemStep(c, s, t, e, s') && p < |s.callers| && OpAllowed(s.callers[p], kinds)
    requires e.Enter? ==> KindOf(e.op) in kinds
    ensures p < |s'.callers| && OpAllowed(s'.callers[p], kinds)
  {
    if t != Caller(p) {
      assert s'.callers[p] == s.callers[p];
    }
  }

  lemma {:induction false} OpsAllowed(c: Config, run: seq<System>, who: seq<Who>, events: seq<ManyEvent>, kinds: set<Kind>, i: nat, p: nat)
    requires SystemRun(c, run, who, events) && EntersOnly(events, kinds) && i < |run| && p < |run[i].callers|
    ensures OpAllowed(run[i].callers[p], kinds)
  {
    if i > 0 {
      CallersStay(c, run[i - 1], who[i - 1], events[i - 1], run[i - 1 + 1]);
      OpsAllowed(c, run, who, events, kinds, i - 1, p);
      OpAllowedStep(c, run[i - 1], who[i - 1], events[i - 1], run[i - 1 + 1], kinds, p);
    }
  }

  lemma BaseCallsOnly(c: Config, run: seq<System>, who: seq<Who>, events: seq<ManyEvent>, kinds: set<Kind>)
    requires SystemRun(c, run, who, events) && EntersOnly(events, kinds)
    ensures CallsOnly(BaseEvents(run, who, events), kinds)
  {
    var es := BaseEvents(run, who, events);
    forall i | 0 <= i < |es| && es[i].Call?
      ensures KindOf(es[i].op) in kinds
    {
      assert SystemStep(c, run[i], who[i], events[i], run[i + 1]);
      if who[i].Caller? {
        OpsAllowed(c, run, who, events, kinds, i, who[i].p);
      }
    }
  }
}
