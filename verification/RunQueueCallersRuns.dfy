/** Every run of the deque with any number of callers, early returns included, is a run of the atomic deque.
    A test of Empty that will succeed takes effect when it loads `back_`, before its thread knows. */
module RunQueueCallersRuns {
  import opened Prelude
  import opened DequeSpec
  import opened ManyDeque
  import opened RunQueueProtocol
  import opened RunQueueSimulation
  import opened RunQueueRuns
  import opened RunQueueSnapshot
  import opened RunQueueCallers

  // ----- the rounds of Empty -----

  /** From just after moment i to moment j caller p is in one round that began by loading `front`. */
  predicate InRound(run: seq<System>, p: nat, front: nat, i: nat, j: nat)
    requires j < |run|
  {
    forall x :: i < x <= j ==> p < |run[x].callers| && RoundOf(run[x].callers[p], front)
  }

  predicate RoundOf(pc: CallerPc, front: nat) {
    (pc.LoadBack? || pc.Reload?) && pc.front == front
  }

  /** During no round do as many PushFronts store their index as would wrap the counter. */
  ghost predicate NoWrap(c: Config, run: seq<System>)
    requires ValidConfig(c)
  {
    forall p: nat, i: nat, j: nat :: i <= j < |run| && InRound(run, p, run[i].base.front, i, j) ==>
      2 * Pushes(Bases(run), i, j) < Counters(c)
  }

  lemma StepMovesOne(c: Config, s: System, t: Who, e: ManyEvent, s': System, p: nat)
    requires SystemStep(c, s, t, e, s') && p < |s.callers| && t != Caller(p)
    ensures p < |s'.callers| && s'.callers[p] == s.callers[p]
  {
  }

  /** The load of `front_` that began the round a caller is in. */
  lemma {:induction false} RoundStart(c: Config, run: seq<System>, who: seq<Who>, events: seq<ManyEvent>, i: nat, p: nat) returns (i0: nat)
    requires SystemRun(c, run, who, events) && i < |run| && p < |run[i].callers| && run[i].callers[p].LoadBack?
    ensures i0 < i && run[i0].base.front == run[i].callers[p].front
    ensures InRound(run, p, run[i].callers[p].front, i0, i)
  {
    assert i > 0;
    CallersStay(c, run[i - 1], who[i - 1], events[i - 1], run[i - 1 + 1]);
    if who[i - 1] == Caller(p) {
      assert SystemStep(c, run[i - 1], who[i - 1], events[i - 1], run[i - 1 + 1]);
      i0 := i - 1;
    } else {
      StepMovesOne(c, run[i - 1], who[i - 1], events[i - 1], run[i - 1 + 1], p);
      i0 := RoundStart(c, run, who, events, i - 1, p);
    }
  }

  /** Whether a caller that is about to reload `front_` will find the queue empty. */
  predicate WillFindEmpty(run: seq<System>, who: seq<Who>, i: nat, p: nat)
    requires |run| == |who| + 1
    decreases |run| - i
  {
    i < |who| &&
    if who[i] == Caller(p) then p < |run[i + 1].callers| && run[i + 1].callers[p].FoundEmpty?
    else WillFindEmpty(run, who, i + 1, p)
  }

  /** ... and when. */
  lemma {:induction false} FindsEmpty(c: Config, run: seq<System>, who: seq<Who>, events: seq<ManyEvent>, i: nat, p: nat) returns (j: nat)
    requires SystemRun(c, run, who, events) && i < |run| && p < |run[i].callers| && run[i].callers[p].Reload?
    requires WillFindEmpty(run, who, i, p)
    ensures i <= j < |who| && run[j].base.front == run[i].callers[p].front
    ensures ValidConfig(c) && Same(c, run[i].callers[p].front, run[i].callers[p].back)
    ensures forall x :: i <= x <= j ==> p < |run[x].callers| && run[x].callers[p] == run[i].callers[p]
    decreases |run| - i
  {
    if who[i] == Caller(p) {
      assert SystemStep(c, run[i], who[i], events[i], run[i + 1]);
      j := i;
    } else {
      StepMovesOne(c, run[i], who[i], events[i], run[i + 1], p);
      j := FindsEmpty(c, run, who, events, i + 1, p);
    }
  }

  // ----- the atomic deque beside the run -----

  /** The phase of caller p; `remote` is that of the holder of the mutex. */
  function CallerPhase(run: seq<System>, who: seq<Who>, remote: Phase, i: nat, p: nat): Phase
    requires |run| == |who| + 1 && i < |run| && p < |run[i].callers|
  {
    match run[i].callers[p]
    case Outside => Idle
    case LoadFront(op) => Pending(op)
    case LoadBack(op, _) => Pending(op)
    case Reload(op, _, _) => if WillFindEmpty(run, who, i, p) then Done(op, Nothing(op)) else Pending(op)
    case Lock(op) => Pending(op)
    case Inside => remote
    case FoundEmpty(op) => Done(op, Nothing(op))
  }

  function ManyAt(run: seq<System>, who: seq<Who>, spec: seq<Deque>, i: nat): (d: Many)
    requires |run| == |who| + 1 == |spec| && i < |run|
    ensures |d.callers| == |run[i].callers| && d.q == spec[i].q && d.owner == spec[i].owner
    ensures forall p :: 0 <= p < |d.callers| ==> d.callers[p] == CallerPhase(run, who, spec[i].remote, i, p)
  {
    Many(spec[i].q, spec[i].owner,
         seq(|run[i].callers|, p requires 0 <= p < |run[i].callers| => CallerPhase(run, who, spec[i].remote, i, p)))
  }

  ghost predicate Setting(c: Config, run: seq<System>, who: seq<Who>, events: seq<ManyEvent>, spec: seq<Deque>, claims: seq<Claim>) {
    SystemRun(c, run, who, events) && Witness(c, Bases(run), BaseEvents(run, who, events), spec, claims)
  }

  /** A caller that does not move, and does not hold the mutex if the remote's phase changes, keeps its phase. */
  lemma PhaseStays(c: Config, run: seq<System>, who: seq<Who>, events: seq<ManyEvent>, remote: Phase, remote': Phase, i: nat, p: nat)
    requires SystemRun(c, run, who, events) && i < |events| && p < |run[i].callers| && who[i] != Caller(p)
    requires run[i].callers[p].Inside? ==> remote' == remote
    ensures p < |run[i + 1].callers| && CallerPhase(run, who, remote', i + 1, p) == CallerPhase(run, who, remote, i, p)
  {
    StepMovesOne(c, run[i], who[i], events[i], run[i + 1], p);
  }

  /** The phases after a step in which at most caller t moves. */
  lemma OthersStay(c: Config, run: seq<System>, who: seq<Who>, events: seq<ManyEvent>, spec: seq<Deque>, claims: seq<Claim>, i: nat)
    requires Setting(c, run, who, events, spec, claims) && i < |events|
    requires spec[i + 1].remote == spec[i].remote || (who[i].Caller? && who[i].p < |run[i].callers|
               && (run[i].callers[who[i].p].Inside? || run[i].base.remote.RIdle?))
    ensures |run[i + 1].callers| == |run[i].callers|
    ensures var d, d' := ManyAt(run, who, spec, i), ManyAt(run, who, spec, i + 1);
            forall p :: 0 <= p < |d.callers| && who[i] != Caller(p) ==> d'.callers[p] == d.callers[p]
  {
    var d, d' := ManyAt(run, who, spec, i), ManyAt(run, who, spec, i + 1);
    CallersStay(c, run[i], who[i], events[i], run[i + 1]);
    MutexHolds(c, run, who, events, i);
    forall p | 0 <= p < |d.callers| && who[i] != Caller(p)
      ensures d'.callers[p] == d.callers[p]
    {
      PhaseStays(c, run, who, events, spec[i].remote, spec[i + 1].remote, i, p);
    }
  }

  /** The phases of the protocol at moment i, and the step that the atomic deque of one remote makes. */
  lemma SpecStep(c: Config, run: seq<System>, who: seq<Who>, events: seq<ManyEvent>, spec: seq<Deque>, claims: seq<Claim>, i: nat)
    requires Setting(c, run, who, events, spec, claims) && i < |events|
    ensures DequeSpec.Step(c.k, spec[i], BaseEvent(run[i], who[i], events[i]), spec[i + 1])
    ensures WellFormed(c, run[i].base)
    ensures OwnPhaseOnly(c, run[i].base, BaseEvent(run[i], who[i], events[i]), run[i + 1].base, spec[i], spec[i + 1])
    ensures Rep(c, run[i].base, spec[i], claims[i])
  {
    var bases, es := Bases(run), BaseEvents(run, who, events);
    assert DequeSpec.Step(c.k, spec[i], es[i], spec[i + 1]);
    assert OwnPhaseOnly(c, bases[i], es[i], bases[i + 1], spec[i], spec[i + 1]);
    assert Rep(c, bases[i], spec[i], claims[i]);
  }

  lemma RemotePhaseFits(c: Config, s: State, d: Deque, m: Claim)
    requires Rep(c, s, d, m)
    ensures s.remote.RIdle? ==> d.remote == Idle
    ensures s.remote.RReturn? ==> d.remote == Done(s.remote.op, s.remote.ret)
    ensures s.owner.OReturn? ==> d.owner == Done(s.owner.op, s.owner.ret)
    ensures s.owner.OIdle? ==> d.owner == Idle
  {
  }

  lemma OwnerMoves(c: Config, s: State, e: Event, s': State)
    requires WellFormed(c, s) && OwnerStep(c, s, e, s')
    ensures s'.owner != s.owner && s'.remote == s.remote
  {
  }

  // ----- what takes effect -----

  /** The other side of the owner: the holder of the mutex, or nobody. */
  lemma OtherSide(c: Config, run: seq<System>, who: seq<Who>, events: seq<ManyEvent>, spec: seq<Deque>, claims: seq<Claim>, i: nat)
    returns (u: Who)
    requires Setting(c, run, who, events, spec, claims) && i < |run|
    ensures u.Caller? && PhaseOf(ManyAt(run, who, spec, i), u) == spec[i].remote
    ensures u.p < |run[i].callers| ==> run[i].callers[u.p].Inside?
  {
    var s := run[i];
    MutexHolds(c, run, who, events, i);
    assert Rep(c, Bases(run)[i], spec[i], claims[i]);
    RemotePhaseFits(c, s.base, spec[i], claims[i]);
    if s.base.remote.RIdle? {
      u := Caller(|s.callers|);
    } else {
      var h :| 0 <= h < |s.callers| && s.callers[h].Inside?;
      u := Caller(h);
    }
  }

  /** An effect beside one other thread is an effect beside many. */
  lemma EffectAmongMany(k: nat, op: Op, ret: Ret, d: Many, t: Who, u: Who, q': seq<Work>)
    requires u != t && Effect(k, op, ret, d.q, q', PhaseOf(d, u))
    ensures ManyEffect(k, op, ret, d, t, q')
  {
    if Pops(op) && ret == Nothing(op) {
      var us: set<Who> := if |d.q| == 0 then {} else {u};
      assert AllInserting(d, us);
    }
  }

  lemma TwoInFlight(d: Many, t: Who, a: Who, b: Who, x: bool, y: bool)
    requires a != b && a != t && b != t
    requires (x ==> Inserting(PhaseOf(d, a))) && (y ==> Inserting(PhaseOf(d, b)))
    ensures InFlight(d, t, (if x then 1 else 0) + if y then 1 else 0)
  {
    var us: set<Who> := (if x then {a} else {}) + (if y then {b} else {});
    assert AllInserting(d, us) && t !in us;
    assert |us| == (if x then 1 else 0) + if y then 1 else 0;
  }

  /** When a test of Empty that will succeed loads `back_`, every element of the queue is still being put in
      by another thread: the early return is right at that moment. */
  lemma EarlyReturnTakesEffect(c: Config, run: seq<System>, who: seq<Who>, events: seq<ManyEvent>, kinds: set<Kind>,
                               spec: seq<Deque>, claims: seq<Claim>, i: nat, p: nat)
    requires Setting(c, run, who, events, spec, claims) && EntersOnly(events, kinds) && Steady(kinds) && NoWrap(c, run)
    requires i < |events| && who[i] == Caller(p) && p < |run[i].callers| && run[i].callers[p].LoadBack?
    requires WillFindEmpty(run, who, i + 1, p)
    ensures InFlight(ManyAt(run, who, spec, i), Caller(p), |spec[i].q|)
  {
    var bases, es := Bases(run), BaseEvents(run, who, events);
    var front := run[i].callers[p].front;
    var i0 := RoundStart(c, run, who, events, i, p);
    assert SystemStep(c, run[i], who[i], events[i], run[i + 1]);
    var j := FindsEmpty(c, run, who, events, i + 1, p);
    assert InRound(run, p, run[i0].base.front, i0, j);
    RunOfProtocol(c, run, who, events);
    BaseCallsOnly(c, run, who, events, kinds);
    SnapshotMeets(c, bases, es, spec, claims, kinds, i0, i, j);
    assert Rep(c, bases[i], spec[i], claims[i]);
    MeetingInFlight(c, bases[i], spec[i], claims[i]);
    var u := OtherSide(c, run, who, events, spec, claims, i);
    var s := run[i].base;
    TwoInFlight(ManyAt(run, who, spec, i), Caller(p), TheOwner, u, s.owner.PushStoreFront?, s.remote.BackPushStoreBack?);
  }

  // ----- every step -----

  lemma OwnerCase(c: Config, run: seq<System>, who: seq<Who>, events: seq<ManyEvent>, spec: seq<Deque>, claims: seq<Claim>, i: nat)
    requires Setting(c, run, who, events, spec, claims) && i < |events| && who[i] == TheOwner
    ensures ManyStep(c.k, ManyAt(run, who, spec, i), events[i], ManyAt(run, who, spec, i + 1))
  {
    var d, d' := ManyAt(run, who, spec, i), ManyAt(run, who, spec, i + 1);
    assert SystemStep(c, run[i], who[i], events[i], run[i + 1]);
    SpecStep(c, run, who, events, spec, claims, i);
    OwnerMoves(c, run[i].base, OwnerEvent(events[i]), run[i + 1].base);
    OthersStay(c, run, who, events, spec, claims, i);
    assert d'.callers == d.callers;
    if events[i].Silent? && spec[i + 1] != spec[i] {
      var u := OtherSide(c, run, who, events, spec, claims, i);
      EffectAmongMany(c.k, spec[i].owner.op, spec[i + 1].owner.ret, d, TheOwner, u, d'.q);
      assert ManyTakesEffect(c.k, d, TheOwner, spec[i].owner.op, spec[i + 1].owner.ret, d');
    }
  }

  /** The step leaves the protocol inside as it was. */
  lemma TestLeavesSpec(c: Config, run: seq<System>, who: seq<Who>, events: seq<ManyEvent>, spec: seq<Deque>, claims: seq<Claim>, i: nat, p: nat)
    requires Setting(c, run, who, events, spec, claims) && i < |events| && who[i] == Caller(p)
    requires p < |run[i].callers| && !run[i].callers[p].Lock? && !run[i].callers[p].Inside?
    ensures spec[i + 1] == spec[i] && run[i + 1].base == run[i].base
    ensures |run[i + 1].callers| == |run[i].callers|
    ensures var d, d' := ManyAt(run, who, spec, i), ManyAt(run, who, spec, i + 1);
            d' == d.(callers := d.callers[p := d'.callers[p]])
  {
    assert SystemStep(c, run[i], who[i], events[i], run[i + 1]);
    SpecStep(c, run, who, events, spec, claims, i);
    var s := run[i].base;
    if OwnerStep(c, s, Internal, run[i + 1].base) {
      OwnerMoves(c, s, Internal, run[i + 1].base);
    }
    OthersStay(c, run, who, events, spec, claims, i);
    var d, d' := ManyAt(run, who, spec, i), ManyAt(run, who, spec, i + 1);
    assert d'.callers == d.callers[p := d'.callers[p]];
  }

  lemma TestCase(c: Config, run: seq<System>, who: seq<Who>, events: seq<ManyEvent>, kinds: set<Kind>,
                 spec: seq<Deque>, claims: seq<Claim>, i: nat, p: nat)
    requires Setting(c, run, who, events, spec, claims) && EntersOnly(events, kinds) && Steady(kinds) && NoWrap(c, run)
    requires i < |events| && who[i] == Caller(p)
    requires p < |run[i].callers| && !run[i].callers[p].Lock? && !run[i].callers[p].Inside?
    ensures ManyStep(c.k, ManyAt(run, who, spec, i), events[i], ManyAt(run, who, spec, i + 1))
  {
    var d, d' := ManyAt(run, who, spec, i), ManyAt(run, who, spec, i + 1);
    assert SystemStep(c, run[i], who[i], events[i], run[i + 1]);
    TestLeavesSpec(c, run, who, events, spec, claims, i, p);
    OpsAllowed(c, run, who, events, kinds, i, p);
    var pc := run[i].callers[p];
    if pc.LoadBack? && WillFindEmpty(run, who, i + 1, p) {
      EarlyReturnTakesEffect(c, run, who, events, kinds, spec, claims, i, p);
      assert ManyTakesEffect(c.k, d, Caller(p), pc.op, Nothing(pc.op), d');
    } else if events[i].Silent? {
      assert d'.callers[p] == d.callers[p];
      assert d' == d;
    }
  }

  lemma LockCase(c: Config, run: seq<System>, who: seq<Who>, events: seq<ManyEvent>, spec: seq<Deque>, claims: seq<Claim>, i: nat, p: nat)
    requires Setting(c, run, who, events, spec, claims) && i < |events| && who[i] == Caller(p)
    requires p < |run[i].callers| && run[i].callers[p].Lock?
    ensures ManyStep(c.k, ManyAt(run, who, spec, i), events[i], ManyAt(run, who, spec, i + 1))
  {
    var d, d' := ManyAt(run, who, spec, i), ManyAt(run, who, spec, i + 1);
    assert SystemStep(c, run[i], who[i], events[i], run[i + 1]);
    SpecStep(c, run, who, events, spec, claims, i);
    OthersStay(c, run, who, events, spec, claims, i);
    assert d'.callers[p] == d.callers[p];
    assert d' == d;
  }

  lemma InsideCase(c: Config, run: seq<System>, who: seq<Who>, events: seq<ManyEvent>, spec: seq<Deque>, claims: seq<Claim>, i: nat, p: nat)
    requires Setting(c, run, who, events, spec, claims) && i < |events| && who[i] == Caller(p)
    requires p < |run[i].callers| && run[i].callers[p].Inside?
    ensures ManyStep(c.k, ManyAt(run, who, spec, i), events[i], ManyAt(run, who, spec, i + 1))
  {
    var d, d' := ManyAt(run, who, spec, i), ManyAt(run, who, spec, i + 1);
    assert SystemStep(c, run[i], who[i], events[i], run[i + 1]);
    SpecStep(c, run, who, events, spec, claims, i);
    OthersStay(c, run, who, events, spec, claims, i);
    var s, e := run[i].base, BaseEvent(run[i], who[i], events[i]);
    if OwnerStep(c, s, e, run[i + 1].base) {
      OwnerMoves(c, s, e, run[i + 1].base);
    }
    assert d'.callers == d.callers[p := d'.callers[p]];
    if events[i].Silent? && spec[i + 1] != spec[i] {
      EffectAmongMany(c.k, spec[i].remote.op, spec[i + 1].remote.ret, d, Caller(p), TheOwner, d'.q);
      assert ManyTakesEffect(c.k, d, Caller(p), spec[i].remote.op, spec[i + 1].remote.ret, d');
    } else if events[i].Silent? {
      assert d' == d;
    }
  }

  lemma EveryStep(c: Config, run: seq<System>, who: seq<Who>, events: seq<ManyEvent>, kinds: set<Kind>,
                  spec: seq<Deque>, claims: seq<Claim>, i: nat)
    requires Setting(c, run, who, events, spec, claims) && EntersOnly(events, kinds) && Steady(kinds) && NoWrap(c, run)
    requires i < |events|
    ensures ManyStep(c.k, ManyAt(run, who, spec, i), events[i], ManyAt(run, who, spec, i + 1))
  {
    assert SystemStep(c, run[i], who[i], events[i], run[i + 1]);
    match who[i]
    case TheOwner => OwnerCase(c, run, who, events, spec, claims, i);
    case Caller(p) =>
      if run[i].callers[p].Lock? {
        LockCase(c, run, who, events, spec, claims, i, p);
      } else if run[i].callers[p].Inside? {
        InsideCase(c, run, who, events, spec, claims, i, p);
      } else {
        TestCase(c, run, who, events, kinds, spec, claims, i, p);
      }
  }

  /** Every interleaving of the owner with any number of callers that contend for the mutex, tests of Empty
      and early returns included, is a run of the atomic deque with the same calls and returned values. */
  lemma CallersLinearizable(c: Config, run: seq<System>, who: seq<Who>, events: seq<ManyEvent>, kinds: set<Kind>) returns (many: seq<Many>)
    requires SystemRun(c, run, who, events) && EntersOnly(events, kinds) && Steady(kinds)
    requires ValidConfig(c) && NoWrap(c, run)
    ensures IsManyRun(c.k, many, events) && |many[0].callers| == |run[0].callers|
  {
    RunOfProtocol(c, run, who, events);
    var spec, claims := Linearizable(c, Bases(run), BaseEvents(run, who, events));
    many := seq(|run|, i requires 0 <= i < |run| => ManyAt(run, who, spec, i));
    forall i | 0 <= i < |events|
      ensures ManyStep(c.k, many[i], events[i], many[i + 1])
    {
      EveryStep(c, run, who, events, kinds, spec, claims, i);
    }
  }
}
