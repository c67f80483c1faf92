/** Building runs: states that are reached by calling only operations of some kinds. */
module RunQueueReach {
  import opened Prelude
  import opened DequeSpec
  import opened RunQueueProtocol
  import opened RunQueueSimulation
  import opened RunQueueRuns
  import opened RunQueueSnapshot

  ghost predicate Trail(c: Config, kinds: set<Kind>, run: seq<State>, events: seq<Event>) {
    Execution(c, run, events) && CallsOnly(events, kinds)
  }

  ghost predicate Reaches(c: Config, kinds: set<Kind>, run: seq<State>, events: seq<Event>, s: State) {
    Trail(c, kinds, run, events) && run[|events|] == s
  }

  ghost predicate Reachable(c: Config, kinds: set<Kind>, s: State) {
    exists run: seq<State>, events: seq<Event> :: Reaches(c, kinds, run, events, s)
  }

  lemma TrailStep(c: Config, kinds: set<Kind>, run: seq<State>, events: seq<Event>, e: Event, s': State)
    requires Trail(c, kinds, run, events) && Next(c, run[|events|], e, s') && (e.Call? ==> KindOf(e.op) in kinds)
    ensures Trail(c, kinds, run + [s'], events + [e])
  {
    var run', events' := run + [s'], events + [e];
    forall i | 0 <= i < |events'|
      ensures Next(c, run'[i], events'[i], run'[i + 1])
    {
      if i < |events| {
        assert Next(c, run[i], events[i], run[i + 1]);
      }
    }
  }

  lemma ReachStep(c: Config, kinds: set<Kind>, s: State, e: Event, s': State)
    requires Reachable(c, kinds, s) && Next(c, s, e, s') && (e.Call? ==> KindOf(e.op) in kinds)
    ensures Reachable(c, kinds, s')
  {
    var run, events :| Reaches(c, kinds, run, events, s);
    TrailStep(c, kinds, run, events, e, s');
    assert Reaches(c, kinds, run + [s'], events + [e], s');
  }

  lemma Represented(c: Config, kinds: set<Kind>, s: State) returns (d: Deque, m: Claim)
    requires Reachable(c, kinds, s)
    ensures Rep(c, s, d, m)
  {
    var run, events :| Reaches(c, kinds, run, events, s);
    var spec, claims := Linearizable(c, run, events);
    d, m := spec[|events|], claims[|events|];
  }

  lemma OwnerGoesOn(c: Config, kinds: set<Kind>, s: State) returns (s': State)
    requires Reachable(c, kinds, s) && WellFormed(c, s) && !s.owner.OIdle? && !s.owner.OReturn?
    ensures Reachable(c, kinds, s') && s' == OwnerNext(c, s)
  {
    s' := OwnerNext(c, s);
    ReachStep(c, kinds, s, Internal, s');
  }

  lemma RemoteGoesOn(c: Config, kinds: set<Kind>, s: State) returns (s': State)
    requires Reachable(c, kinds, s) && WellFormed(c, s) && !s.remote.RIdle? && !s.remote.RReturn?
    ensures Reachable(c, kinds, s') && s' == RemoteNext(c, s)
  {
    s' := RemoteNext(c, s);
    ReachStep(c, kinds, s, Internal, s');
  }

  /** The state before any call. */
  lemma Start(c: Config, kinds: set<Kind>) returns (s: State)
    requires ValidConfig(c)
    ensures Reachable(c, kinds, s) && Init(c, s)
  {
    s := State(0, 0, seq(c.k, i => Cell(Vacant, 0)), OIdle, RIdle);
    assert Reaches(c, kinds, [s], [], s);
  }

  /** A whole PushFront with no step of the remote in between. */
  lemma PushAlone(c: Config, kinds: set<Kind>, s: State, w: Work) returns (s': State)
    requires Reachable(c, kinds, s) && WellFormed(c, s) && PushesFront in kinds
    requires s.owner.OIdle? && At(c, s, s.front).st == Vacant
    ensures Reachable(c, kinds, s')
    ensures s' == s.(front := Advance(c, s.front), cells := s.cells[Slot(c, s.front) := Cell(Ready, w)])
  {
    s' := s.(owner := PushLoadFront(w));
    ReachStep(c, kinds, s, Call(Owner, PushFront(w)), s');
    s' := OwnerGoesOn(c, kinds, s');
    s' := OwnerGoesOn(c, kinds, s');
    s' := OwnerGoesOn(c, kinds, s');
    s' := OwnerGoesOn(c, kinds, s');
    s' := OwnerGoesOn(c, kinds, s');
    s' := OwnerGoesOn(c, kinds, s');
    var done := s';
    s' := done.(owner := OIdle);
    ReachStep(c, kinds, done, Return(Owner, PushFront(w), Stored(true)), s');
    assert s'.cells == s.cells[Slot(c, s.front) := Cell(Ready, w)];
  }

  /** The distance is that of the unbounded positions. */
  lemma DistanceIs(c: Config, s: State, d: Deque, m: Claim)
    requires Rep(c, s, d, m)
    ensures Distance(c, s) == StoredFront(s.owner, m) - StoredBack(s.remote, m)
  {
    PositionsApart(c, s, d, m);
    PositionsStored(c, s, d, m);
    PosDifference(c, s.front, s.back, StoredFront(s.owner, m), StoredBack(s.remote, m));
  }
}
