/** How far apart the stored indices really get: the comment at the clamp of CalculateSize holds exactly in
    runs that do not call both PushFront and PopBackHalf; with both, half a capacity more is reached. */
module RunQueueOvershoot {
  import opened DequeSpec
  import opened RunQueueProtocol
  import opened RunQueueSimulation
  import opened RunQueueCells
  import opened RunQueueRuns
  import opened RunQueueSnapshot
  import opened RunQueueReach
  import opened RunQueueRange
  import RunQueueOwner
  import RunQueueRemote

  // ----- reaching the largest distance -----

  /** How far beyond the capacity the owner can push while the remote has emptied slots but not moved its
      index. */
  function Room(pc: RemotePc): nat {
    if pc.HalfStoreBack? then pc.start + 1 else 0
  }

  lemma PushMore(c: Config, kinds: set<Kind>, s: State) returns (s': State)
    requires ValidConfig(c) && Reachable(c, kinds, s) && PushesFront in kinds
    requires s.owner.OIdle? && (s.remote.RIdle? || s.remote.HalfStoreBack?) && Distance(c, s) < c.k + Room(s.remote)
    ensures Reachable(c, kinds, s') && s'.owner.OIdle? && s'.remote == s.remote && s'.back == s.back
    ensures Distance(c, s') == Distance(c, s) + 1
  {
    var d, m := Represented(c, kinds, s);
    DistanceIs(c, s, d, m);
    RunQueueOwner.FrontSlotVacant(c, s, d, m, s.front);
    s' := PushAlone(c, kinds, s, 0);
    AdvancePos(c, s.front);
    SameShift(c, s.front, m.f, 1);
    PositionsStored(c, s, d, m);
    PositionsApart(c, s, d, m);
    PosDifference(c, s'.front, s'.back, m.f + 1, StoredBack(s.remote, m));
  }

  lemma {:induction false} PushUpTo(c: Config, kinds: set<Kind>, s: State, n: nat) returns (s': State)
    requires ValidConfig(c) && Reachable(c, kinds, s) && PushesFront in kinds
    requires s.owner.OIdle? && (s.remote.RIdle? || s.remote.HalfStoreBack?) && Distance(c, s) <= n <= c.k + Room(s.remote)
    ensures Reachable(c, kinds, s') && s'.owner.OIdle? && s'.remote == s.remote && Distance(c, s') == n
    decreases n - Distance(c, s)
  {
    s' := s;
    if Distance(c, s) < n {
      s' := PushMore(c, kinds, s);
      s' := PushUpTo(c, kinds, s', n);
    }
  }

  /** PopBackHalf, alone, measures n elements ... */
  lemma HalfMeasured(c: Config, kinds: set<Kind>, s: State) returns (s': State)
    requires ValidConfig(c) && Reachable(c, kinds, s) && PopsBackHalf in kinds
    requires s.owner.OIdle? && s.remote.RIdle? && 1 <= Distance(c, s) <= c.k
    ensures Reachable(c, kinds, s') && s' == s.(remote := HalfLoadState(s.back, (Distance(c, s) - 1) / 2))
  {
    var d, m := Represented(c, kinds, s);
    s' := s.(remote := HalfLoadBack);
    ReachStep(c, kinds, s, Call(Remote, PopBackHalf), s');
    s' := RemoteGoesOn(c, kinds, s');
    s' := RemoteGoesOn(c, kinds, s');
    s' := RemoteGoesOn(c, kinds, s');
    s' := RemoteGoesOn(c, kinds, s');
  }

  lemma MiddleReady(c: Config, kinds: set<Kind>, s: State)
    requires ValidConfig(c) && Reachable(c, kinds, s)
    requires s.owner.OIdle? && s.remote.HalfLoadState? && s.remote.at < Distance(c, s)
    ensures WellFormed(c, s) && At(c, s, s.remote.back + s.remote.at).st == Ready
  {
    var d, m := Represented(c, kinds, s);
    DistanceIs(c, s, d, m);
    RunQueueRemote.BackElementReady(c, s, d, m, s.remote.back, s.remote.at);
  }

  /** ... and claims the half with its CAS. */
  lemma HalfClaimed(c: Config, kinds: set<Kind>, s: State) returns (s': State)
    requires ValidConfig(c) && Reachable(c, kinds, s) && PopsBackHalf in kinds
    requires s.owner.OIdle? && s.remote.RIdle? && 1 <= Distance(c, s) <= c.k
    ensures Reachable(c, kinds, s') && WellFormed(c, s') && s'.owner.OIdle? && s'.front == s.front && s'.back == s.back
    ensures var start := (Distance(c, s) - 1) / 2; s'.remote == HalfTake(s.back, start, start, [])
  {
    s' := HalfMeasured(c, kinds, s);
    MiddleReady(c, kinds, s');
    s' := RemoteGoesOn(c, kinds, s');
    s' := RemoteGoesOn(c, kinds, s');
  }

  /** It empties its slots and stops just before it stores its index. */
  lemma {:induction false} HalfTaken(c: Config, kinds: set<Kind>, s: State) returns (s': State)
    requires ValidConfig(c) && Reachable(c, kinds, s) && s.remote.HalfTake?
    ensures Reachable(c, kinds, s') && s'.owner == s.owner && s'.front == s.front && s'.back == s.back
    ensures s'.remote.HalfStoreBack? && s'.remote.start == s.remote.start
    decreases s.remote.at
  {
    var d, m := Represented(c, kinds, s);
    s' := RemoteGoesOn(c, kinds, s);
    s' := RemoteGoesOn(c, kinds, s');
    if s.remote.at > 0 {
      s' := RemoteGoesOn(c, kinds, s');
      s' := HalfTaken(c, kinds, s');
    }
  }

  /** A full queue, PopBackHalf about to store its index, and the owner filling the emptied slots. */
  lemma LargestReached(c: Config, kinds: set<Kind>) returns (s: State)
    requires ValidConfig(c) && PushesFront in kinds && PopsBackHalf in kinds
    ensures Reachable(c, kinds, s) && Distance(c, s) == c.k + (c.k + 1) / 2
  {
    s := Start(c, kinds);
    s := PushUpTo(c, kinds, s, c.k);
    s := HalfClaimed(c, kinds, s);
    s := HalfTaken(c, kinds, s);
    assert Distance(c, s) == c.k;
    s := PushUpTo(c, kinds, s, c.k + s.remote.start + 1);
  }

  /** No run gets further apart, and every capacity gets there. */
  lemma LargestDistance(c: Config, kinds: set<Kind>, s: State)
    requires ValidConfig(c) && Reachable(c, kinds, s)
    ensures 0 <= Distance(c, s) <= c.k + (c.k + 1) / 2
  {
    var d, m := Represented(c, kinds, s);
    DistanceIs(c, s, d, m);
    PositionsApart(c, s, d, m);
  }

  // ----- when the comment holds -----

  /** Without PushFront the distance does not grow beyond what the slots themselves allow. */
  lemma {:induction false} NoPushNoOvershoot(c: Config, kinds: set<Kind>, run: seq<State>, events: seq<Event>,
                                             spec: seq<Deque>, claims: seq<Claim>, i: nat)
    requires Trail(c, kinds, run, events) && PushesFront !in kinds && Witness(c, run, events, spec, claims) && i < |run|
    ensures StoredFront(run[i].owner, claims[i]) - StoredBack(run[i].remote, claims[i]) <= c.k + 1
  {
    assert Rep(c, run[i], spec[i], claims[i]);
    PositionsApart(c, run[i], spec[i], claims[i]);
    if i > 0 && Lag(run[i].remote) > 1 {
      NoPushNoOvershoot(c, kinds, run, events, spec, claims, i - 1);
      StaysInside(c, run, events, kinds, i - 1);
      assert Tracks(c, run[i - 1], claims[i - 1], run[i - 1 + 1], claims[i - 1 + 1]);
      assert Next(c, run[i - 1], events[i - 1], run[i - 1 + 1]);
    }
  }

  /** The comment: the computed size, before the clamp, is at most one more than the capacity. */
  ghost predicate CommentHolds(c: Config, kinds: set<Kind>)
    requires ValidConfig(c)
  {
    forall s :: Reachable(c, kinds, s) ==> Distance(c, s) <= c.k + 1
  }

  lemma CommentHoldsFor(c: Config, kinds: set<Kind>, s: State)
    requires ValidConfig(c) && Reachable(c, kinds, s) && !(PushesFront in kinds && PopsBackHalf in kinds)
    ensures Distance(c, s) <= c.k + 1
  {
    var run, events :| Reaches(c, kinds, run, events, s);
    var n := |events|;
    if PopsBackHalf !in kinds {
      StaysInside(c, run, events, kinds, n);
      DistanceBounded(c, run, events, n);
    } else {
      var spec, claims := Linearizable(c, run, events);
      NoPushNoOvershoot(c, kinds, run, events, spec, claims, n);
      assert Rep(c, s, spec[n], claims[n]);
      DistanceIs(c, s, spec[n], claims[n]);
    }
  }

  /** The comment is right exactly when the run does not mix PushFront with PopBackHalf. */
  lemma CommentExact(c: Config, kinds: set<Kind>)
    requires ValidConfig(c)
    ensures CommentHolds(c, kinds) <==> !(PushesFront in kinds && PopsBackHalf in kinds)
  {
    if PushesFront in kinds && PopsBackHalf in kinds {
      var s := LargestReached(c, kinds);
    } else {
      forall s | Reachable(c, kinds, s)
        ensures Distance(c, s) <= c.k + 1
      {
        CommentHoldsFor(c, kinds, s);
      }
    }
  }

  // ----- a gap in the array -----

  /** With three elements PopBackHalf, having emptied the middle one, leaves the array in two pieces. */
  lemma GapReached(c: Config, kinds: set<Kind>) returns (s: State)
    requires ValidConfig(c) && c.k >= 4 && PushesFront in kinds && PopsBackHalf in kinds
    ensures Reachable(c, kinds, s) && WellFormed(c, s) && !OneStretch(c, s)
  {
    s := Start(c, kinds);
    s := PushUpTo(c, kinds, s, 3);
    s := HalfClaimed(c, kinds, s);
    s := RemoteGoesOn(c, kinds, s);
    s := RemoteGoesOn(c, kinds, s);
    var d, m := Represented(c, kinds, s);
    DistanceIs(c, s, d, m);
    GapSplits(c, s, d, m);
  }
}
