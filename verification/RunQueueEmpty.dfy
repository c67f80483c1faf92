/** Empty can be wrong, and exactly when: a queue that always holds an element is called empty after
    PushBack and PopFront have moved both indices once round. */
module RunQueueEmpty {
  import opened DequeSpec
  import opened Modular
  import opened RunQueueProtocol
  import opened RunQueueCells
  import opened RunQueueRuns
  import opened RunQueueSnapshot
  import opened RunQueueReach

  const BOTH: set<Kind> := {PopsFront, PushesBack}

  /** From moment `from` on, slot j has been ready. */
  predicate ReadyFrom(run: seq<State>, from: nat, j: nat) {
    forall x :: from <= x < |run| ==> j < |run[x].cells| && run[x].cells[j].st == Ready
  }

  predicate SomeReadyFrom(run: seq<State>, from: nat) {
    forall x :: from <= x < |run| ==> !NoneReady(run[x])
  }

  /** The run goes on: `more` are the states after it. */
  ghost predicate GoesOn(c: Config, run: seq<State>, events: seq<Event>, run': seq<State>, events': seq<Event>) {
    Trail(c, BOTH, run, events) && Trail(c, BOTH, run', events') && run <= run'
  }

  lemma OneStep(c: Config, run: seq<State>, events: seq<Event>, e: Event, s': State) returns (run': seq<State>, events': seq<Event>)
    requires Trail(c, BOTH, run, events) && Next(c, run[|events|], e, s') && (e.Call? ==> KindOf(e.op) in BOTH)
    ensures GoesOn(c, run, events, run', events') && run'[|events'|] == s' && run' == run + [s']
  {
    TrailStep(c, BOTH, run, events, e, s');
    run', events' := run + [s'], events + [e];
  }

  lemma RemoteSteps(c: Config, run: seq<State>, events: seq<Event>) returns (run': seq<State>, events': seq<Event>)
    requires Trail(c, BOTH, run, events)
    requires var s := run[|events|]; WellFormed(c, s) && !s.remote.RIdle? && !s.remote.RReturn?
    ensures GoesOn(c, run, events, run', events') && run'[|events'|] == RemoteNext(c, run[|events|]) && run' == run + [RemoteNext(c, run[|events|])]
  {
    run', events' := OneStep(c, run, events, Internal, RemoteNext(c, run[|events|]));
  }

  lemma OwnerSteps(c: Config, run: seq<State>, events: seq<Event>) returns (run': seq<State>, events': seq<Event>)
    requires Trail(c, BOTH, run, events)
    requires var s := run[|events|]; WellFormed(c, s) && !s.owner.OIdle? && !s.owner.OReturn?
    ensures GoesOn(c, run, events, run', events') && run'[|events'|] == OwnerNext(c, run[|events|]) && run' == run + [OwnerNext(c, run[|events|])]
  {
    run', events' := OneStep(c, run, events, Internal, OwnerNext(c, run[|events|]));
  }

  /** PushBack up to the store of its index; slot j stays ready if it was. */
  lemma PushBackBegins(c: Config, run0: seq<State>, events0: seq<Event>, j: nat) returns (run: seq<State>, events: seq<Event>)
    requires Trail(c, BOTH, run0, events0)
    requires var s := run0[|events0|];
             WellFormed(c, s) && s.remote.RIdle? && At(c, s, s.back - 1).st == Vacant && j < c.k
    ensures GoesOn(c, run0, events0, run, events)
    ensures var s := run0[|events0|];
            && run[|events|] == SetSt(c, s, s.back - 1, Busy).(back := Retreat(c, s.back), remote := BackPushMove(0, s.back))
            && (s.cells[j].st == Ready ==> ReadyFrom(run, |events0|, j))
  {
    var s := run0[|events0|];
    run, events := OneStep(c, run0, events0, Call(Remote, PushBack(0)), s.(remote := BackPushLoadBack(0)));
    run, events := RemoteSteps(c, run, events);
    run, events := RemoteSteps(c, run, events);
    run, events := RemoteSteps(c, run, events);
    run, events := RemoteSteps(c, run, events);
  }

  /** A whole PushBack with no step of the owner in between; slot j stays ready if it was. */
  lemma PushBackAlone(c: Config, run0: seq<State>, events0: seq<Event>, j: nat) returns (run: seq<State>, events: seq<Event>)
    requires Trail(c, BOTH, run0, events0)
    requires var s := run0[|events0|];
             WellFormed(c, s) && s.remote.RIdle? && At(c, s, s.back - 1).st == Vacant && j < c.k
    ensures GoesOn(c, run0, events0, run, events)
    ensures var s := run0[|events0|];
            && run[|events|] == s.(back := Retreat(c, s.back), cells := s.cells[Slot(c, s.back - 1) := Cell(Ready, 0)])
            && (s.cells[j].st == Ready ==> ReadyFrom(run, |events0|, j))
  {
    var s := run0[|events0|];
    run, events := PushBackBegins(c, run0, events0, j);
    run, events := RemoteSteps(c, run, events);
    run, events := RemoteSteps(c, run, events);
    var done := run[|events|];
    run, events := OneStep(c, run, events, Return(Remote, PushBack(0), Stored(true)), done.(remote := RIdle));
    assert run[|events|].cells == s.cells[Slot(c, s.back - 1) := Cell(Ready, 0)];
  }

  /** A whole PopFront with no step of the remote in between; another slot j stays ready if it was. */
  lemma PopFrontAlone(c: Config, run0: seq<State>, events0: seq<Event>, j: nat) returns (run: seq<State>, events: seq<Event>)
    requires Trail(c, BOTH, run0, events0)
    requires var s := run0[|events0|];
             WellFormed(c, s) && s.owner.OIdle? && At(c, s, s.front - 1).st == Ready && j < c.k && j != Slot(c, s.front - 1)
    ensures GoesOn(c, run0, events0, run, events)
    ensures var s := run0[|events0|];
            && run[|events|] == s.(front := Retreat(c, s.front),
                                   cells := s.cells[Slot(c, s.front - 1) := s.cells[Slot(c, s.front - 1)].(st := Vacant)])
            && (s.cells[j].st == Ready ==> ReadyFrom(run, |events0|, j))
  {
    var s := run0[|events0|];
    run, events := OneStep(c, run0, events0, Call(Owner, PopFront), s.(owner := PopLoadFront));
    run, events := OwnerSteps(c, run, events);
    run, events := OwnerSteps(c, run, events);
    run, events := OwnerSteps(c, run, events);
    run, events := OwnerSteps(c, run, events);
    run, events := OwnerSteps(c, run, events);
    run, events := OwnerSteps(c, run, events);
    var done := run[|events|];
    run, events := OneStep(c, run, events, Return(Owner, PopFront, done.owner.ret), done.(owner := OIdle));
  }

  // ----- once round the array -----

  /** After n elements have passed through: one is left, both indices are n lower. */
  predicate OneLeft(c: Config, s: State, n: int) {
    && WellFormed(c, s) && s.owner.OIdle? && s.remote.RIdle?
    && s.front == Pos(c, -n) && s.back == Pos(c, -n - 1)
    && forall j :: 0 <= j < c.k ==> s.cells[j].st == if j == Slot(c, -n - 1) then Ready else Vacant
  }

  lemma PosShift(c: Config, x: int, d: int)
    requires ValidConfig(c)
    ensures Slot(c, Pos(c, x) + d) == Slot(c, x + d) && Pos(c, Pos(c, x) + d) == Pos(c, x + d)
    ensures Retreat(c, Pos(c, x)) == Pos(c, x - 1)
  {
    var n := 2 * c.k;
    RemainderUnique(Pos(c, x), n, 0, Pos(c, x));
    SameShift(c, Pos(c, x), x, d);
    SameSlot(c, Pos(c, x) + d, x + d);
    SameShift(c, Pos(c, x), x, -1);
  }

  lemma NextSlots(c: Config, n: int)
    requires ValidConfig(c)
    ensures Slot(c, -n - 2) != Slot(c, -n - 1)
  {
    if Slot(c, -n - 2) == Slot(c, -n - 1) {
      RemainderInjective(-n - 2, -n - 1, c.k);
    }
  }

  /** One more is pushed at the back and the one at the front is popped; all the time one is ready. */
  lemma Round(c: Config, run0: seq<State>, events0: seq<Event>, n: int) returns (run: seq<State>, events: seq<Event>)
    requires Trail(c, BOTH, run0, events0) && OneLeft(c, run0[|events0|], n)
    ensures GoesOn(c, run0, events0, run, events) && OneLeft(c, run[|events|], n + 1) && SomeReadyFrom(run, |events0|)
  {
    var s := run0[|events0|];
    var kept, added := Slot(c, -n - 1), Slot(c, -n - 2);
    PosShift(c, -n - 1, -1);
    PosShift(c, -n, -1);
    NextSlots(c, n);
    run, events := PushBackAlone(c, run0, events0, kept);
    var run1, events1 := run, events;
    run, events := PopFrontAlone(c, run1, events1, added);
    forall x | |events0| <= x < |run|
      ensures !NoneReady(run[x])
    {
      var j := if x < |events1| then kept else added;
      if x < |events1| {
        assert run[x] == run1[x];
      }
      assert run[x].cells[j] in run[x].cells;
    }
  }

  lemma {:induction false} Rounds(c: Config, run0: seq<State>, events0: seq<Event>, n: nat) returns (run: seq<State>, events: seq<Event>)
    requires Trail(c, BOTH, run0, events0) && OneLeft(c, run0[|events0|], 0)
    ensures GoesOn(c, run0, events0, run, events) && OneLeft(c, run[|events|], n) && SomeReadyFrom(run, |events0|)
  {
    if n == 0 {
      run, events := run0, events0;
      var s := run0[|events0|];
      assert s.cells[Slot(c, -1)] in s.cells;
    } else {
      var run1, events1 := Rounds(c, run0, events0, n - 1);
      run, events := Round(c, run1, events1, n - 1);
      forall x | |events0| <= x < |run|
        ensures !NoneReady(run[x])
      {
        if x < |run1| {
          assert run[x] == run1[x];
        }
      }
    }
  }

  lemma FirstElement(c: Config) returns (run: seq<State>, events: seq<Event>)
    requires ValidConfig(c)
    ensures Trail(c, BOTH, run, events) && OneLeft(c, run[|events|], 0)
  {
    var s := State(0, 0, seq(c.k, i => Cell(Vacant, 0)), OIdle, RIdle);
    run, events := PushBackAlone(c, [s], [], 0);
    PosShift(c, 0, -1);
  }

  lemma {:induction false} NoPushes(c: Config, run: seq<State>, events: seq<Event>, i: nat, j: nat)
    requires Trail(c, BOTH, run, events) && i <= j < |run|
    ensures Pushes(run, i, j) == 0
    decreases j - i
  {
    if i < j {
      NoPushes(c, run, events, i, j - 1);
      StaysInside(c, run, events, BOTH, j - 1);
    }
  }

  lemma OnceRound(c: Config)
    requires ValidConfig(c)
    ensures Pos(c, -2 * c.k) == 0 && Pos(c, 0) == 0
  {
    RemainderUnique(-2 * c.k, 2 * c.k, -1, 0);
    RemainderUnique(0, 2 * c.k, 0, 0);
  }

  /** Both indices go once round, and the back index meets where the front index was. */
  lemma RoundAndBack(c: Config) returns (run: seq<State>, events: seq<Event>, i: nat, m: nat, j: nat)
    requires ValidConfig(c)
    ensures Trail(c, BOTH, run, events) && i <= m <= j == |events|
    ensures OneLeft(c, run[i], 0) && OneLeft(c, run[m], 2 * c.k - 1) && OneLeft(c, run[j], 2 * c.k) && SomeReadyFrom(run, i)
  {
    var run0, events0 := FirstElement(c);
    var run1, events1 := Rounds(c, run0, events0, 2 * c.k - 1);
    run, events := Round(c, run1, events1, 2 * c.k - 1);
    i, m, j := |events0|, |events1|, |events|;
    assert run[i] == run0[i] && run[m] == run1[m];
    forall x | i <= x < |run|
      ensures !NoneReady(run[x])
    {
      if x < m {
        assert run[x] == run1[x];
      }
    }
  }

  /** Empty loads `front_` at i, `back_` at m and `front_` at j, sees equal values and returns true, although
      at every moment from i to j an element was ready. */
  lemma EmptyWrong(c: Config) returns (run: seq<State>, events: seq<Event>, i: nat, m: nat, j: nat)
    requires ValidConfig(c)
    ensures Trail(c, BOTH, run, events) && i <= m <= j < |run|
    ensures EmptyCall(run, [i, j], [m]) && ReportsEmpty(c, run, [i, j], [m]) && Pushes(run, i, j) == 0
    ensures SomeReadyFrom(run, i)
  {
    run, events, i, m, j := RoundAndBack(c);
    OnceRound(c);
    NoPushes(c, run, events, i, j);
  }

  /** Empty is truthful exactly in runs that do not mix PopFront with PushBack. */
  lemma EmptyExact(c: Config, kinds: set<Kind>)
    requires ValidConfig(c)
    ensures EmptyTruthful(c, kinds) <==> Steady(kinds)
  {
    if Steady(kinds) {
      EmptyIsNeverWrong(c, kinds);
    } else {
      var run, events, i, m, j := EmptyWrong(c);
      assert BOTH <= kinds;
      var fronts: seq<nat>, backs: seq<nat> := [i, j], [m];
      assert CallsOnly(events, kinds);
      assert EmptyCall(run, fronts, backs) && ReportsEmpty(c, run, fronts, backs) && !NoneReady(run[backs[|backs| - 1]]);
    }
  }
}
