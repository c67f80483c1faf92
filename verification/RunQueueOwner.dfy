/** The owner's half of the simulation: PushFront and PopFront. */
module RunQueueOwner {
  import opened Prelude
  import opened DequeSpec
  import opened RunQueueProtocol
  import opened RunQueueSimulation
  import opened RunQueueCells

  // ----- what the owner sees in the array -----

  /** The slot in front of the queue is vacant exactly when index f still fits the window. */
  lemma FrontSlotVacant(c: Config, s: State, d: Deque, m: Claim, front: nat)
    requires OwnerRep(c, s, d, m) && Same(c, front, m.f)
    requires !OwnerPushing(s.owner) && !OwnerPopping(s.owner)
    ensures At(c, s, front).st == Vacant <==> m.f < Base(s.remote, m) + c.k
    ensures Slot(c, front) == Slot(c, m.f)
  {
    SameSlot(c, front, m.f);
    var base := Base(s.remote, m);
    if m.f < base + c.k {
      assert CellOk(c, s, d, m, m.f);
    } else {
      WindowWrap(c, base);
      assert CellOk(c, s, d, m, base);
    }
  }

  /** What the owner relies on about the remote's phase. */
  predicate RemotePhaseOk(s: State, d: Deque, m: Claim) {
    && m.b - Base(s.remote, m) <= Removing(d.remote)
    && (RemotePushing(s.remote) ==> Inserting(d.remote))
  }

  lemma RemotePhase(c: Config, s: State, d: Deque, m: Claim)
    requires RemoteRep(c, s, d, m)
    ensures RemotePhaseOk(s, d, m)
  {
  }

  /** The front element can be taken exactly when there is one that the remote is not still storing. */
  lemma FrontElementReady(c: Config, s: State, d: Deque, m: Claim, front: nat)
    requires OwnerRep(c, s, d, m) && Same(c, front, m.f)
    requires !OwnerPushing(s.owner) && !OwnerPopping(s.owner)
    ensures Slot(c, front - 1) == Slot(c, m.f - 1)
    ensures At(c, s, front - 1).st == Ready <==> m.b < m.f && !(m.f - 1 == m.b && RemotePushing(s.remote))
  {
    SameShift(c, front, m.f, -1);
    SameSlot(c, front - 1, m.f - 1);
    var base := Base(s.remote, m);
    if m.f - 1 >= base {
      assert CellOk(c, s, d, m, m.f - 1);
    } else {
      WindowWrap(c, base);
      assert CellOk(c, s, d, m, base + c.k - 1);
    }
  }

  // ----- steps that touch no shared state -----

  lemma OwnerQuiet(c: Config, s: State, d: Deque, m: Claim, s': State, d': Deque)
    requires OwnerRep(c, s, d, m)
    requires s' == s.(owner := s'.owner)
    requires d' == d.(owner := d'.owner)
    requires !OwnerPushing(s.owner) && !OwnerPopping(s.owner) && !s.owner.PopStoreFront?
    requires !OwnerPushing(s'.owner) && !OwnerPopping(s'.owner) && !s'.owner.PopStoreFront?
    requires OwnerOk(c, s'.front, s'.owner, d'.owner, m.f)
    ensures OwnerRep(c, s', d', m)
  {
    forall i | Base(s.remote, m) <= i < Base(s.remote, m) + c.k
      ensures CellOk(c, s', d', m, i)
    {
      assert CellOk(c, s, d, m, i);
    }
  }

  // ----- PushFront -----

  lemma PushFrontClaims(c: Config, s: State, d: Deque, m: Claim) returns (d': Deque, m': Claim)
    requires OwnerRep(c, s, d, m) && s.owner.PushCas?
    requires At(c, s, s.owner.front).st == Vacant
    ensures OwnerRep(c, PushFrontNext(c, s), d', m') && TakesEffect(c.k, Owner, d, d')
    ensures m' == Claim(m.b, m.f + 1)
  {
    var w, front := s.owner.w, s.owner.front;
    var s' := PushFrontNext(c, s);
    d' := d.(q := d.q + [w], owner := Done(PushFront(w), Stored(true)));
    m' := Claim(m.b, m.f + 1);
    FrontSlotVacant(c, s, d, m, front);
    CellsKept(c, s, d, m, s', d', m', m.f);
  }

  lemma PushFrontStoresIndex(c: Config, s: State, d: Deque, m: Claim)
    requires OwnerRep(c, s, d, m) && s.owner.PushStoreFront?
    ensures OwnerRep(c, PushFrontNext(c, s), d, m)
  {
    var s' := PushFrontNext(c, s);
    AdvancePos(c, s.front);
    SameShift(c, s.front, m.f - 1, 1);
    forall i | Base(s.remote, m) <= i < Base(s.remote, m) + c.k
      ensures CellOk(c, s', d, m, i)
    {
      assert CellOk(c, s, d, m, i);
    }
  }

  lemma PushFrontStoresElement(c: Config, s: State, d: Deque, m: Claim)
    requires OwnerRep(c, s, d, m)
    requires s.owner.PushMove? || s.owner.PushPublish?
    ensures OwnerRep(c, PushFrontNext(c, s), d, m)
  {
    var s' := PushFrontNext(c, s);
    SameSlot(c, s.owner.front, m.f - 1);
    assert CellOk(c, s, d, m, m.f - 1);
    CellsKept(c, s, d, m, s', d, m, m.f - 1);
  }

  // ----- PopFront -----

  lemma PopFrontClaims(c: Config, s: State, d: Deque, m: Claim) returns (d': Deque, m': Claim)
    requires OwnerRep(c, s, d, m) && s.owner.PopCas?
    requires At(c, s, s.owner.front - 1).st == Ready
    ensures OwnerRep(c, PopFrontNext(c, s), d', m') && TakesEffect(c.k, Owner, d, d')
    ensures m' == Claim(m.b, m.f - 1)
  {
    var s' := PopFrontNext(c, s);
    FrontElementReady(c, s, d, m, s.owner.front);
    var n := |d.q|;
    d' := d.(q := d.q[..n - 1], owner := Done(PopFront, Item(Some(d.q[n - 1]))));
    m' := Claim(m.b, m.f - 1);
    assert CellOk(c, s, d, m, m.f - 1);
    PopFrontExpected(c, s, d, m, s', d', m');
    CellsKept(c, s, d, m, s', d', m', m.f - 1);
  }

  lemma PopFrontExpected(c: Config, s: State, d: Deque, m: Claim, s': State, d': Deque, m': Claim)
    requires |d.q| == m.f - m.b > 0
    requires s.owner.PopCas? && s'.owner.PopMove? && s'.remote == s.remote
    requires !(m.f - 1 == m.b && RemotePushing(s.remote))
    requires m' == Claim(m.b, m.f - 1) && d'.q == d.q[..|d.q| - 1] && d'.remote == d.remote
    ensures forall i :: i != m.f - 1 ==> Expected(s', d', m', i) == Expected(s, d, m, i)
    ensures Expected(s', d', m', m.f - 1) == Content(Busy, Taken(d'.owner))
  {
  }

  lemma PopFrontReads(c: Config, s: State, d: Deque, m: Claim)
    requires OwnerRep(c, s, d, m) && s.owner.PopMove?
    ensures OwnerRep(c, PopFrontNext(c, s), d, m)
  {
    var s' := PopFrontNext(c, s);
    SameShift(c, s.front, m.f + 1, -1);
    SameSlot(c, s.front - 1, m.f);
    assert CellOk(c, s, d, m, m.f);
    forall i | Base(s.remote, m) <= i < Base(s.remote, m) + c.k
      ensures CellOk(c, s', d, m, i)
    {
      assert CellOk(c, s, d, m, i);
    }
  }

  lemma PopFrontEmpties(c: Config, s: State, d: Deque, m: Claim)
    requires OwnerRep(c, s, d, m) && s.owner.PopRelease?
    ensures OwnerRep(c, PopFrontNext(c, s), d, m)
  {
    var s' := PopFrontNext(c, s);
    SameShift(c, s.front, m.f + 1, -1);
    SameSlot(c, s.front - 1, m.f);
    CellsKept(c, s, d, m, s', d, m, m.f);
  }

  lemma PopFrontStoresIndex(c: Config, s: State, d: Deque, m: Claim)
    requires OwnerRep(c, s, d, m) && s.owner.PopStoreFront?
    ensures OwnerRep(c, PopFrontNext(c, s), d, m)
  {
    var s' := PopFrontNext(c, s);
    RetreatPos(c, s.front);
    SameShift(c, s.front, m.f + 1, -1);
    forall i | Base(s.remote, m) <= i < Base(s.remote, m) + c.k
      ensures CellOk(c, s', d, m, i)
    {
      assert CellOk(c, s, d, m, i);
    }
  }

  // ----- every step of the owner -----

  /** How a step moves the claimed range: only a successful CAS does. */
  function OwnerClaim(c: Config, s: State, m: Claim): Claim
    requires WellFormed(c, s)
  {
    if s.owner.PushCas? && At(c, s, s.owner.front).st == Vacant then m.(f := m.f + 1)
    else if s.owner.PopCas? && At(c, s, s.owner.front - 1).st == Ready then m.(f := m.f - 1)
    else m
  }

  lemma PushFrontInternal(c: Config, s: State, d: Deque, m: Claim) returns (d': Deque)
    requires OwnerRep(c, s, d, m) && RemotePhaseOk(s, d, m)
    requires s.owner.PushLoadState? || s.owner.PushCas?
    ensures OwnerRep(c, PushFrontNext(c, s), d', OwnerClaim(c, s, m))
    ensures DequeSpec.Step(c.k, d, Internal, d')
    ensures d'.remote == d.remote
  {
    var s' := PushFrontNext(c, s);
    FrontSlotVacant(c, s, d, m, s.owner.front);
    if s'.owner.OReturn? {
      d' := d.(owner := Done(PushFront(s.owner.w), Stored(false)));
      assert TakesEffect(c.k, Owner, d, d');
      OwnerQuiet(c, s, d, m, s', d');
    } else if s.owner.PushCas? {
      var m';
      d', m' := PushFrontClaims(c, s, d, m);
    } else {
      d' := d;
      OwnerQuiet(c, s, d, m, s', d');
    }
  }

  lemma PopFrontInternal(c: Config, s: State, d: Deque, m: Claim) returns (d': Deque)
    requires OwnerRep(c, s, d, m) && RemotePhaseOk(s, d, m)
    requires s.owner.PopLoadState? || s.owner.PopCas?
    ensures OwnerRep(c, PopFrontNext(c, s), d', OwnerClaim(c, s, m))
    ensures DequeSpec.Step(c.k, d, Internal, d')
    ensures d'.remote == d.remote
  {
    var s' := PopFrontNext(c, s);
    FrontElementReady(c, s, d, m, s.owner.front);
    if s'.owner.OReturn? {
      d' := d.(owner := Done(PopFront, Item(None)));
      assert TakesEffect(c.k, Owner, d, d');
      OwnerQuiet(c, s, d, m, s', d');
    } else if s.owner.PopCas? {
      var m';
      d', m' := PopFrontClaims(c, s, d, m);
    } else {
      d' := d;
      OwnerQuiet(c, s, d, m, s', d');
    }
  }

  lemma PushFrontStep(c: Config, s: State, d: Deque, m: Claim) returns (d': Deque)
    requires OwnerRep(c, s, d, m) && RemotePhaseOk(s, d, m) && InPushFront(s.owner)
    ensures OwnerRep(c, PushFrontNext(c, s), d', OwnerClaim(c, s, m))
    ensures DequeSpec.Step(c.k, d, Internal, d')
    ensures d'.remote == d.remote
  {
    d' := d;
    match s.owner
    case PushLoadFront(_) => OwnerQuiet(c, s, d, m, PushFrontNext(c, s), d);
    case PushLoadState(_, _) => d' := PushFrontInternal(c, s, d, m);
    case PushCas(_, _) => d' := PushFrontInternal(c, s, d, m);
    case PushStoreFront(_, _) => PushFrontStoresIndex(c, s, d, m);
    case PushMove(_, _) => PushFrontStoresElement(c, s, d, m);
    case PushPublish(_, _) => PushFrontStoresElement(c, s, d, m);
  }

  lemma PopFrontStep(c: Config, s: State, d: Deque, m: Claim) returns (d': Deque)
    requires OwnerRep(c, s, d, m) && RemotePhaseOk(s, d, m) && InPopFront(s.owner)
    ensures OwnerRep(c, PopFrontNext(c, s), d', OwnerClaim(c, s, m))
    ensures DequeSpec.Step(c.k, d, Internal, d')
    ensures d'.remote == d.remote
  {
    d' := d;
    match s.owner
    case PopLoadFront => OwnerQuiet(c, s, d, m, PopFrontNext(c, s), d);
    case PopLoadState(_) => d' := PopFrontInternal(c, s, d, m);
    case PopCas(_) => d' := PopFrontInternal(c, s, d, m);
    case PopMove(_) => PopFrontReads(c, s, d, m);
    case PopRelease(_, _) => PopFrontEmpties(c, s, d, m);
    case PopStoreFront(_, _) => PopFrontStoresIndex(c, s, d, m);
  }

  lemma OwnerInternal(c: Config, s: State, d: Deque, m: Claim) returns (d': Deque)
    requires OwnerRep(c, s, d, m) && RemotePhaseOk(s, d, m)
    requires !s.owner.OIdle? && !s.owner.OReturn?
    ensures OwnerRep(c, OwnerNext(c, s), d', OwnerClaim(c, s, m))
    ensures DequeSpec.Step(c.k, d, Internal, d')
    ensures d'.remote == d.remote
  {
    if InPushFront(s.owner) {
      d' := PushFrontStep(c, s, d, m);
    } else {
      d' := PopFrontStep(c, s, d, m);
    }
  }
}
