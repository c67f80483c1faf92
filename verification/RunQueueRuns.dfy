/** What holds over whole runs of the work-stealing deque. */
module RunQueueRuns {
  import opened Prelude
  import opened DequeSpec
  import opened RunQueueProtocol
  import opened RunQueueSimulation
  import opened RunQueueCells
  import RunQueueOwner
  import RunQueueRemote

  ghost predicate Execution(c: Config, run: seq<State>, events: seq<Event>) {
    && |run| == |events| + 1
    && Init(c, run[0])
    && forall i :: 0 <= i < |events| ==> Next(c, run[i], events[i], run[i + 1])
  }

  // ----- which operations a run calls -----

  datatype Kind = PushesFront | PopsFront | PushesBack | PopsBack | PopsBackHalf

  function KindOf(op: Op): Kind {
    match op
    case PushFront(_) => PushesFront
    case PopFront => PopsFront
    case PushBack(_) => PushesBack
    case PopBack => PopsBack
    case PopBackHalf => PopsBackHalf
  }

  /** The run calls only operations of the given kinds. */
  predicate CallsOnly(events: seq<Event>, kinds: set<Kind>) {
    forall i :: 0 <= i < |events| && events[i].Call? ==> KindOf(events[i].op) in kinds
  }

  /** Both threads are inside operations of the given kinds, if they are inside any. */
  predicate Inside(s: State, kinds: set<Kind>) {
    && (InPushFront(s.owner) ==> PushesFront in kinds)
    && (InPopFront(s.owner) ==> PopsFront in kinds)
    && (InPushBack(s.remote) ==> PushesBack in kinds)
    && (InPopBack(s.remote) ==> PopsBack in kinds)
    && (InPopBackHalf(s.remote) ==> PopsBackHalf in kinds)
  }

  lemma InsideOneStep(c: Config, s: State, e: Event, s': State, kinds: set<Kind>)
    requires Inside(s, kinds) && Next(c, s, e, s') && (e.Call? ==> KindOf(e.op) in kinds)
    ensures Inside(s', kinds)
  {
  }

  lemma {:induction false} StaysInside(c: Config, run: seq<State>, events: seq<Event>, kinds: set<Kind>, i: nat)
    requires Execution(c, run, events) && CallsOnly(events, kinds) && i < |run|
    ensures Inside(run[i], kinds)
  {
    if i > 0 {
      StaysInside(c, run, events, kinds, i - 1);
      InsideOneStep(c, run[i - 1], events[i - 1], run[i - 1 + 1], kinds);
    }
  }

  // ----- refinement -----

  /** How the two stored indices and the unbounded positions behind them move together. */
  predicate FrontTracks(c: Config, s: State, m: Claim, s': State, m': Claim)
    requires ValidConfig(c)
  {
    var p, p' := StoredFront(s.owner, m), StoredFront(s'.owner, m');
    if StoresPushedFront(s, s') then s'.front == Advance(c, s.front) && p' == p + 1
    else (s'.front == s.front && p' == p) || (s.owner.PopStoreFront? && s'.front == Retreat(c, s.front) && p' == p - 1)
  }

  predicate StoresPushedFront(s: State, s': State) {
    s.owner.PushStoreFront? && !s'.owner.PushStoreFront?
  }

  predicate BackTracks(s: State, m: Claim, s': State, m': Claim) {
    StoredBack(s'.remote, m') >= StoredBack(s.remote, m) || s.remote.BackPushStoreBack?
  }

  lemma StartsEmpty(c: Config, s: State)
    requires Init(c, s)
    ensures Rep(c, s, DequeSpec.EMPTY, Claim(0, 0))
  {
    var m := Claim(0, 0);
    forall i | 0 <= i < c.k
      ensures CellOk(c, s, DequeSpec.EMPTY, m, i)
    {
      assert s.cells[Slot(c, i)].st == Vacant;
    }
  }

  lemma OwnerCallsOrReturns(c: Config, s: State, e: Event, s': State, d: Deque, m: Claim) returns (d': Deque)
    requires OwnerRep(c, s, d, m) && OwnerStep(c, s, e, s')
    requires s.owner.OIdle? || s.owner.OReturn?
    ensures OwnerRep(c, s', d', m) && DequeSpec.Step(c.k, d, e, d')
    ensures s' == s.(owner := s'.owner) && d'.remote == d.remote
  {
    d' := d.(owner := if s.owner.OIdle? then Pending(e.op) else Idle);
    RunQueueOwner.OwnerQuiet(c, s, d, m, s', d');
  }

  lemma OwnerSimulates(c: Config, s: State, e: Event, s': State, d: Deque, m: Claim)
    returns (d': Deque, m': Claim)
    requires OwnerRep(c, s, d, m) && RunQueueOwner.RemotePhaseOk(s, d, m) && OwnerStep(c, s, e, s')
    ensures OwnerRep(c, s', d', m') && DequeSpec.Step(c.k, d, e, d')
    ensures d'.remote == d.remote
    ensures m' == if s.owner.OIdle? || s.owner.OReturn? then m else RunQueueOwner.OwnerClaim(c, s, m)
  {
    if s.owner.OIdle? || s.owner.OReturn? {
      m' := m;
      d' := OwnerCallsOrReturns(c, s, e, s', d, m);
    } else {
      m' := RunQueueOwner.OwnerClaim(c, s, m);
      d' := RunQueueOwner.OwnerInternal(c, s, d, m);
    }
  }

  lemma RemoteCallsOrReturns(c: Config, s: State, e: Event, s': State, d: Deque, m: Claim) returns (d': Deque)
    requires RemoteRep(c, s, d, m) && RemoteStep(c, s, e, s')
    requires s.remote.RIdle? || s.remote.RReturn?
    ensures RemoteRep(c, s', d', m) && DequeSpec.Step(c.k, d, e, d')
    ensures s' == s.(remote := s'.remote) && d'.owner == d.owner
  {
    d' := d.(remote := if s.remote.RIdle? then Pending(e.op) else Idle);
    RunQueueRemote.RemoteQuiet(c, s, d, m, s', d');
  }

  lemma RemoteSimulates(c: Config, s: State, e: Event, s': State, d: Deque, m: Claim)
    returns (d': Deque, m': Claim)
    requires RemoteRep(c, s, d, m) && RunQueueRemote.OwnerPhaseOk(s, d) && RemoteStep(c, s, e, s')
    ensures RemoteRep(c, s', d', m') && DequeSpec.Step(c.k, d, e, d')
    ensures d'.owner == d.owner
    ensures m' == if s.remote.RIdle? || s.remote.RReturn? then m else RunQueueRemote.RemoteClaim(c, s, m)
  {
    if s.remote.RIdle? || s.remote.RReturn? {
      m' := m;
      d' := RemoteCallsOrReturns(c, s, e, s', d, m);
    } else {
      m' := RunQueueRemote.RemoteClaim(c, s, m);
      d' := RunQueueRemote.RemoteInternal(c, s, d, m);
    }
  }

  lemma OwnerTracks(c: Config, s: State, e: Event, s': State, m: Claim, m': Claim)
    requires WellFormed(c, s) && OwnerStep(c, s, e, s')
    requires s.owner.PushStoreFront? || s.owner.PopStoreFront? ==> s.owner.front == s.front
    requires m' == if s.owner.OIdle? || s.owner.OReturn? then m else RunQueueOwner.OwnerClaim(c, s, m)
    ensures FrontTracks(c, s, m, s', m') && BackTracks(s, m, s', m')
    ensures s'.remote == s.remote && s'.back == s.back && m'.b == m.b
  {
    if !s.owner.OIdle? && !s.owner.OReturn? {
      if InPushFront(s.owner) {
        assert s' == PushFrontNext(c, s);
      } else {
        assert s' == PopFrontNext(c, s);
      }
    }
  }

  lemma RemoteTracks(c: Config, s: State, e: Event, s': State, m: Claim, m': Claim)
    requires WellFormed(c, s) && RemoteStep(c, s, e, s')
    requires m' == if s.remote.RIdle? || s.remote.RReturn? then m else RunQueueRemote.RemoteClaim(c, s, m)
    ensures FrontTracks(c, s, m, s', m') && BackTracks(s, m, s', m')
    ensures s'.owner == s.owner && s'.front == s.front && m'.f == m.f
  {
    if !s.remote.RIdle? && !s.remote.RReturn? {
      if InPushBack(s.remote) {
        assert s' == PushBackNext(c, s);
      } else if InPopBack(s.remote) {
        assert s' == PopBackNext(c, s);
      } else {
        assert s' == PopBackHalfNext(c, s);
      }
    }
  }

  /** A step changes the phase of no thread but its own. */
  predicate OwnPhaseOnly(c: Config, s: State, e: Event, s': State, d: Deque, d': Deque)
    requires WellFormed(c, s)
  {
    if OwnerStep(c, s, e, s') then d'.remote == d.remote
    else if ReadsOnly(s, e, s') then d' == d
    else d'.owner == d.owner
  }

  lemma Simulates(c: Config, s: State, e: Event, s': State, d: Deque, m: Claim)
    returns (d': Deque, m': Claim)
    requires Rep(c, s, d, m) && Next(c, s, e, s')
    ensures Rep(c, s', d', m') && DequeSpec.Step(c.k, d, e, d')
    ensures FrontTracks(c, s, m, s', m') && BackTracks(s, m, s', m')
    ensures OwnPhaseOnly(c, s, e, s', d, d')
  {
    if OwnerStep(c, s, e, s') {
      RunQueueOwner.RemotePhase(c, s, d, m);
      d', m' := OwnerSimulates(c, s, e, s', d, m);
      OwnerTracks(c, s, e, s', m, m');
    } else if ReadsOnly(s, e, s') {
      d', m' := d, m;
    } else {
      RunQueueRemote.OwnerPhase(c, s, d, m);
      d', m' := RemoteSimulates(c, s, e, s', d, m);
      RemoteTracks(c, s, e, s', m, m');
    }
  }

  /** `spec` and `claims` represent a run state by state. */
  ghost predicate Represents(c: Config, run: seq<State>, spec: seq<Deque>, claims: seq<Claim>) {
    |run| == |spec| == |claims| && forall i :: 0 <= i < |run| ==> Rep(c, run[i], spec[i], claims[i])
  }

  ghost predicate Tracked(c: Config, run: seq<State>, claims: seq<Claim>) {
    && ValidConfig(c) && |run| == |claims|
    && forall i :: 0 <= i < |run| - 1 ==> Tracks(c, run[i], claims[i], run[i + 1], claims[i + 1])
  }

  ghost predicate PhasesOwn(c: Config, run: seq<State>, events: seq<Event>, spec: seq<Deque>) {
    && |run| == |spec| == |events| + 1 && (forall i :: 0 <= i < |run| ==> WellFormed(c, run[i]))
    && forall i :: 0 <= i < |events| ==> OwnPhaseOnly(c, run[i], events[i], run[i + 1], spec[i], spec[i + 1])
  }

  predicate Tracks(c: Config, s: State, m: Claim, s': State, m': Claim)
    requires ValidConfig(c)
  {
    FrontTracks(c, s, m, s', m') && BackTracks(s, m, s', m')
  }

  /** `spec` and `claims` witness, state by state, that a run behaves like the atomic deque. */
  ghost predicate Witness(c: Config, run: seq<State>, events: seq<Event>, spec: seq<Deque>, claims: seq<Claim>) {
    && ValidConfig(c) && |run| == |events| + 1
    && DequeSpec.IsRun(c.k, spec, events)
    && Represents(c, run, spec, claims)
    && Tracked(c, run, claims)
    && PhasesOwn(c, run, events, spec)
  }

  lemma LastRepresented(c: Config, run: seq<State>, spec: seq<Deque>, claims: seq<Claim>)
    requires Represents(c, run, spec, claims) && |run| > 0
    ensures var n := |run| - 1; Rep(c, run[n], spec[n], claims[n])
  {
  }

  lemma RepresentsOneMore(c: Config, run: seq<State>, spec: seq<Deque>, claims: seq<Claim>, s: State, d: Deque, m: Claim)
    requires Represents(c, run, spec, claims) && Rep(c, s, d, m)
    ensures Represents(c, run + [s], spec + [d], claims + [m])
  {
  }

  lemma TrackedOneMore(c: Config, run: seq<State>, claims: seq<Claim>, s: State, m: Claim)
    requires |run| > 0 && Tracked(c, run, claims)
    requires Tracks(c, run[|run| - 1], claims[|run| - 1], s, m)
    ensures Tracked(c, run + [s], claims + [m])
  {
  }

  lemma PhasesOwnOneMore(c: Config, run: seq<State>, events: seq<Event>, spec: seq<Deque>, s: State, e: Event, d: Deque)
    requires PhasesOwn(c, run, events, spec) && WellFormed(c, s)
    requires OwnPhaseOnly(c, run[|events|], e, s, spec[|events|], d)
    ensures PhasesOwn(c, run + [s], events + [e], spec + [d])
  {
  }

  lemma IsRunOneMore(k: nat, spec: seq<Deque>, events: seq<Event>, e: Event, d: Deque)
    requires DequeSpec.IsRun(k, spec, events) && DequeSpec.Step(k, spec[|events|], e, d)
    ensures DequeSpec.IsRun(k, spec + [d], events + [e])
  {
  }

  lemma WitnessOneMore(c: Config, run: seq<State>, events: seq<Event>, spec: seq<Deque>, claims: seq<Claim>,
                       s: State, e: Event, d: Deque, m: Claim)
    requires Witness(c, run, events, spec, claims)
    requires var n := |events|; DequeSpec.Step(c.k, spec[n], e, d) && Tracks(c, run[n], claims[n], s, m) && Rep(c, s, d, m)
    requires OwnPhaseOnly(c, run[|events|], e, s, spec[|events|], d)
    ensures Witness(c, run + [s], events + [e], spec + [d], claims + [m])
  {
    RepresentsOneMore(c, run, spec, claims, s, d, m);
    TrackedOneMore(c, run, claims, s, m);
    IsRunOneMore(c.k, spec, events, e, d);
    PhasesOwnOneMore(c, run, events, spec, s, e, d);
  }

  /** Every interleaving of the owner and the remotes is a run of the atomic bounded deque with the same
      calls and the same returned values. */
  lemma {:induction false} Linearizable(c: Config, run: seq<State>, events: seq<Event>)
    returns (spec: seq<Deque>, claims: seq<Claim>)
    requires Execution(c, run, events)
    ensures Witness(c, run, events, spec, claims)
  {
    var n := |events|;
    if n == 0 {
      StartsEmpty(c, run[0]);
      spec, claims := [DequeSpec.EMPTY], [Claim(0, 0)];
    } else {
      ExecutionPrefix(c, run, events);
      var spec0, claims0 := Linearizable(c, run[..n], events[..n - 1]);
      spec, claims := SimulatesLast(c, run[..n], events[..n - 1], spec0, claims0, events[n - 1], run[n]);
      assert run == run[..n] + [run[n]] && events == events[..n - 1] + [events[n - 1]];
    }
  }

  lemma SimulatesLast(c: Config, run: seq<State>, events: seq<Event>, spec0: seq<Deque>, claims0: seq<Claim>, e: Event, s: State)
    returns (spec: seq<Deque>, claims: seq<Claim>)
    requires Witness(c, run, events, spec0, claims0) && Next(c, run[|events|], e, s)
    ensures Witness(c, run + [s], events + [e], spec, claims)
  {
    var n := |events|;
    LastRepresented(c, run, spec0, claims0);
    var d', m' := Simulates(c, run[n], e, s, spec0[n], claims0[n]);
    spec, claims := spec0 + [d'], claims0 + [m'];
    WitnessOneMore(c, run, events, spec0, claims0, s, e, d', m');
  }

  lemma ExecutionPrefix(c: Config, run: seq<State>, events: seq<Event>)
    requires Execution(c, run, events) && |events| > 0
    ensures Execution(c, run[..|events|], events[..|events| - 1])
    ensures Next(c, run[|events| - 1], events[|events| - 1], run[|events|])
  {
  }

  /** The assertion in PopBackHalf that further elements are ready holds in every run. */
  lemma HalfAssertionHolds(c: Config, run: seq<State>, events: seq<Event>, i: nat)
    requires Execution(c, run, events) && i < |run|
    requires run[i].remote.HalfNext?
    ensures WellFormed(c, run[i]) && At(c, run[i], run[i].remote.back + run[i].remote.at).st == Ready
  {
    var spec, claims := Linearizable(c, run, events);
    assert Rep(c, run[i], spec[i], claims[i]);
    RunQueueRemote.HalfNextIsReady(c, run[i], spec[i], claims[i]);
  }

  // ----- conservation -----

  function Given(op: Op, ret: Ret): multiset<Work> {
    match (op, ret)
    case (PushFront(w), Stored(true)) => multiset{w}
    case (PushBack(w), Stored(true)) => multiset{w}
    case _ => multiset{}
  }

  function TakenOut(ret: Ret): multiset<Work> {
    match ret
    case Item(Some(w)) => multiset{w}
    case Items(items) => multiset(items)
    case _ => multiset{}
  }

  function Pushed(e: Event): multiset<Work> {
    if e.Return? then Given(e.op, e.ret) else multiset{}
  }

  function Popped(e: Event): multiset<Work> {
    if e.Return? then TakenOut(e.ret) else multiset{}
  }

  /** The elements of all pushes that returned true. */
  function Accepted(events: seq<Event>): multiset<Work> {
    if events == [] then multiset{}
    else
      var e := events[|events| - 1];
      Accepted(events[..|events| - 1]) + Pushed(e)
  }

  /** The elements of all pops that returned some. */
  function Delivered(events: seq<Event>): multiset<Work> {
    if events == [] then multiset{}
    else
      var e := events[|events| - 1];
      Delivered(events[..|events| - 1]) + Popped(e)
  }

  function PhaseGiven(p: Phase): multiset<Work> {
    if p.Done? then Given(p.op, p.ret) else multiset{}
  }

  function PhaseTaken(p: Phase): multiset<Work> {
    if p.Done? then TakenOut(p.ret) else multiset{}
  }

  lemma {:induction false} ReverseElements<T>(s: seq<T>)
    ensures multiset(Reverse(s)) == multiset(s)
  {
    if s != [] {
      var n := |s| - 1;
      assert s == s[..n] + [s[n]];
      assert Reverse(s) == [s[n]] + Reverse(s[..n]);
      ReverseElements(s[..n]);
    }
  }

  /** Elements of pushes, and of pops, that have taken effect but not returned. */
  function InFlow(d: Deque): multiset<Work> {
    PhaseGiven(d.owner) + PhaseGiven(d.remote)
  }

  function OutFlow(d: Deque): multiset<Work> {
    PhaseTaken(d.owner) + PhaseTaken(d.remote)
  }

  predicate Balanced(d: Deque, accepted: multiset<Work>, delivered: multiset<Work>) {
    accepted + InFlow(d) == delivered + OutFlow(d) + multiset(d.q)
  }

  lemma TakenApart(q: seq<Work>, n: nat)
    requires n <= |q|
    ensures multiset(q) == multiset(q[..n]) + multiset(q[n..])
  {
    assert q == q[..n] + q[n..];
  }

  lemma EffectBalances(k: nat, op: Op, ret: Ret, q: seq<Work>, q': seq<Work>, other: Phase)
    requires Effect(k, op, ret, q, q', other)
    ensures Given(op, ret) + multiset(q) == TakenOut(ret) + multiset(q')
  {
    if ret == Stored(true) {
      assert multiset(q') == multiset(q) + multiset{op.w};
    } else if ret.Item? && ret.item.Some? {
      var n := if op.PopFront? then |q| - 1 else 1;
      TakenApart(q, n);
      assert [ret.item.value] == if op.PopFront? then q[n..] else q[..n];
    } else if ret.Items? && ret.items != [] {
      TakenApart(q, |ret.items|);
      ReverseElements(q[..|ret.items|]);
    }
  }

  lemma Rebalance(a: multiset<Work>, g: multiset<Work>, x: multiset<Work>, t: multiset<Work>,
                  q: multiset<Work>, g': multiset<Work>, t': multiset<Work>, q': multiset<Work>)
    requires a + g == x + t + q
    requires g' + q == t' + q'
    ensures a + (g + g') == x + (t + t') + q'
  {
    assert a + (g + g') == (a + g) + g';
    assert (x + t + q) + g' == x + t + (g' + q);
  }

  lemma UndoneFlows(p: Phase)
    requires !p.Done?
    ensures PhaseGiven(p) == PhaseTaken(p) == multiset{}
  {
  }

  lemma OwnerFlows(k: nat, d: Deque, d': Deque)
    requires TakesEffect(k, Owner, d, d')
    ensures InFlow(d') == InFlow(d) + PhaseGiven(d'.owner) && OutFlow(d') == OutFlow(d) + PhaseTaken(d'.owner)
  {
    UndoneFlows(d.owner);
    assert InFlow(d) == PhaseGiven(d.remote) && OutFlow(d) == PhaseTaken(d.remote);
  }

  lemma RemoteFlows(k: nat, d: Deque, d': Deque)
    requires TakesEffect(k, Remote, d, d')
    ensures InFlow(d') == InFlow(d) + PhaseGiven(d'.remote) && OutFlow(d') == OutFlow(d) + PhaseTaken(d'.remote)
  {
    UndoneFlows(d.remote);
    assert InFlow(d) == PhaseGiven(d.owner) && OutFlow(d) == PhaseTaken(d.owner);
  }

  lemma EffectFlows(k: nat, t: Thread, d: Deque, d': Deque) returns (given: multiset<Work>, taken: multiset<Work>)
    requires TakesEffect(k, t, d, d')
    ensures InFlow(d') == InFlow(d) + given && OutFlow(d') == OutFlow(d) + taken
    ensures given + multiset(d.q) == taken + multiset(d'.q)
  {
    match t
    case Owner =>
      given, taken := PhaseGiven(d'.owner), PhaseTaken(d'.owner);
      OwnerFlows(k, d, d');
      EffectBalances(k, d.owner.op, d'.owner.ret, d.q, d'.q, d.remote);
    case Remote =>
      given, taken := PhaseGiven(d'.remote), PhaseTaken(d'.remote);
      RemoteFlows(k, d, d');
      EffectBalances(k, d.remote.op, d'.remote.ret, d.q, d'.q, d.owner);
  }

  /** A return moves the operation's elements from the flows to the totals. */
  lemma ReturnFlows(k: nat, d: Deque, e: Event, d': Deque)
    requires DequeSpec.Step(k, d, e, d') && e.Return?
    ensures InFlow(d) == Pushed(e) + InFlow(d') && OutFlow(d) == Popped(e) + OutFlow(d')
    ensures d'.q == d.q
  {
    UndoneFlows(Idle);
    match e.t
    case Owner =>
      assert PhaseGiven(d.owner) == Pushed(e) && PhaseTaken(d.owner) == Popped(e);
    case Remote =>
      assert PhaseGiven(d.remote) == Pushed(e) && PhaseTaken(d.remote) == Popped(e);
  }

  lemma CallFlows(k: nat, d: Deque, e: Event, d': Deque)
    requires DequeSpec.Step(k, d, e, d') && e.Call?
    ensures InFlow(d') == InFlow(d) && OutFlow(d') == OutFlow(d) && d'.q == d.q
  {
    UndoneFlows(Idle);
    UndoneFlows(Pending(e.op));
  }

  lemma Regroup(a: multiset<Work>, g: multiset<Work>, i: multiset<Work>,
                x: multiset<Work>, t: multiset<Work>, o: multiset<Work>, q: multiset<Work>)
    requires a + (g + i) == x + (t + o) + q
    ensures (a + g) + i == (x + t) + o + q
  {
    assert (a + g) + i == a + (g + i);
    assert (x + t) + o + q == x + (t + o) + q;
  }

  lemma StepBalances(k: nat, d: Deque, e: Event, d': Deque, accepted: multiset<Work>, delivered: multiset<Work>)
    requires DequeSpec.Step(k, d, e, d') && Balanced(d, accepted, delivered)
    ensures Balanced(d', accepted + Pushed(e), delivered + Popped(e))
  {
    if e.Return? {
      ReturnFlows(k, d, e, d');
      Regroup(accepted, Pushed(e), InFlow(d'), delivered, Popped(e), OutFlow(d'), multiset(d.q));
    } else {
      assert accepted + Pushed(e) == accepted && delivered + Popped(e) == delivered;
      if e.Call? {
        CallFlows(k, d, e, d');
      } else if d' != d {
        var t := if TakesEffect(k, Owner, d, d') then Owner else Remote;
        var given, taken := EffectFlows(k, t, d, d');
        Rebalance(accepted, InFlow(d), delivered, OutFlow(d), multiset(d.q), given, taken, multiset(d'.q));
      }
    }
  }

  lemma {:induction false} RunBalances(k: nat, run: seq<Deque>, events: seq<Event>)
    requires DequeSpec.IsRun(k, run, events)
    ensures Balanced(run[|events|], Accepted(events), Delivered(events))
  {
    var n := |events|;
    if n > 0 {
      assert forall i :: 0 <= i < n - 1 ==> events[..n - 1][i] == events[i];
      RunBalances(k, run[..n], events[..n - 1]);
      assert DequeSpec.Step(k, run[n - 1], events[n - 1], run[n]);
      StepBalances(k, run[n - 1], events[n - 1], run[n], Accepted(events[..n - 1]), Delivered(events[..n - 1]));
    }
  }

  /** The array at rest: the elements in ready slots from `back_` on, and nothing else. */
  ghost predicate Holds(c: Config, s: State, q: seq<Work>) {
    && WellFormed(c, s) && |q| <= c.k
    && Same(c, s.back + |q|, s.front)
    && forall i: nat :: i < c.k ==> HoldsAt(c, s, q, i)
  }

  predicate HoldsAt(c: Config, s: State, q: seq<Work>, i: nat)
    requires WellFormed(c, s)
  {
    var cell := At(c, s, s.back + i);
    if i < |q| then cell == Cell(Ready, q[i]) else cell.st == Vacant
  }

  lemma AtRest(c: Config, s: State, d: Deque, m: Claim)
    requires Rep(c, s, d, m) && s.owner.OIdle? && s.remote.RIdle?
    ensures Holds(c, s, d.q)
  {
    SameShift(c, s.back, m.b, |d.q|);
    forall i: nat | i < c.k
      ensures HoldsAt(c, s, d.q, i)
    {
      SameShift(c, s.back, m.b, i);
      SameSlot(c, s.back + i, m.b + i);
      assert CellOk(c, s, d, m, m.b + i);
    }
  }

  /** When no operation is under way, the elements pushed with success are exactly those popped plus those
      in the array. */
  lemma NothingLostOrDuplicated(c: Config, run: seq<State>, events: seq<Event>) returns (q: seq<Work>)
    requires Execution(c, run, events)
    requires run[|events|].owner == OIdle && run[|events|].remote == RIdle
    ensures Holds(c, run[|events|], q)
    ensures Accepted(events) == Delivered(events) + multiset(q)
  {
    var spec, claims := Linearizable(c, run, events);
    var n := |events|;
    q := spec[n].q;
    assert Rep(c, run[n], spec[n], claims[n]);
    AtRest(c, run[n], spec[n], claims[n]);
    RunBalances(c.k, spec, events);
    IdlePhases(c, run[n], spec[n], claims[n]);
    BalancedAtRest(c.k, spec[n], Accepted(events), Delivered(events));
  }

  lemma BalancedAtRest(k: nat, d: Deque, accepted: multiset<Work>, delivered: multiset<Work>)
    requires Balanced(d, accepted, delivered) && d.owner == d.remote == Idle
    ensures accepted == delivered + multiset(d.q)
  {
    UndoneFlows(Idle);
    assert InFlow(d) == OutFlow(d) == multiset{};
    assert accepted + InFlow(d) == accepted;
    assert delivered + OutFlow(d) == delivered;
  }

  lemma IdlePhases(c: Config, s: State, d: Deque, m: Claim)
    requires Rep(c, s, d, m) && s.owner.OIdle? && s.remote.RIdle?
    ensures d.owner == d.remote == Idle
  {
  }
}
