/** The remote's half of the simulation: PushBack, PopBack and PopBackHalf. */
module RunQueueRemote {
  import opened Prelude
  import opened DequeSpec
  import opened RunQueueProtocol
  import opened RunQueueSimulation
  import opened RunQueueCells

  /** The remote holds no slot and has no index to store. */
  predicate Plain(pc: RemotePc) {
    !RemotePushing(pc) && !RemotePopping(pc) && !HalfTaking(pc) && !pc.BackPopStoreBack? && !pc.HalfStoreBack?
  }

  // ----- what the remote sees in the array -----

  /** The slot behind the queue is vacant exactly when the occupied range leaves a place. */
  lemma BackSlotVacant(c: Config, s: State, d: Deque, m: Claim, back: nat)
    requires RemoteRep(c, s, d, m) && Same(c, back, m.b) && Plain(s.remote)
    ensures At(c, s, back - 1).st == Vacant <==> Top(s.owner, m) < m.b + c.k
    ensures Slot(c, back - 1) == Slot(c, m.b - 1) == Slot(c, m.b + c.k - 1)
  {
    SameShift(c, back, m.b, -1);
    SameSlot(c, back - 1, m.b - 1);
    WindowWrap(c, m.b);
    assert CellOk(c, s, d, m, m.b + c.k - 1);
  }

  /** The element at offset `at` can be taken exactly when it is there and not still being stored. */
  lemma BackElementReady(c: Config, s: State, d: Deque, m: Claim, back: nat, at: nat)
    requires RemoteRep(c, s, d, m) && Same(c, back, m.b) && Plain(s.remote) && at < c.k
    ensures Slot(c, back + at) == Slot(c, m.b + at)
    ensures At(c, s, back + at).st == Ready <==>
            m.b + at < m.f && !(m.f - 1 == m.b + at && OwnerPushing(s.owner))
  {
    SameShift(c, back, m.b, at);
    SameSlot(c, back + at, m.b + at);
    assert CellOk(c, s, d, m, m.b + at);
  }

  /** What the remote relies on about the owner's phase. */
  predicate OwnerPhaseOk(s: State, d: Deque) {
    && (OwnerPushing(s.owner) ==> Inserting(d.owner))
    && (OwnerPopping(s.owner) ==> Removing(d.owner) == 1)
  }

  lemma OwnerPhase(c: Config, s: State, d: Deque, m: Claim)
    requires OwnerRep(c, s, d, m)
    ensures OwnerPhaseOk(s, d)
  {
  }

  // ----- steps that touch no shared state -----

  lemma RemoteQuiet(c: Config, s: State, d: Deque, m: Claim, s': State, d': Deque)
    requires RemoteRep(c, s, d, m) && Plain(s.remote) && Plain(s'.remote)
    requires s' == s.(remote := s'.remote)
    requires d' == d.(remote := d'.remote)
    requires RemoteOk(c, s'.back, s'.remote, d'.remote, m.b)
    ensures RemoteRep(c, s', d', m)
  {
    forall i | m.b <= i < m.b + c.k
      ensures CellOk(c, s', d', m, i)
    {
      assert CellOk(c, s, d, m, i);
    }
  }

  // ----- PushBack -----

  lemma PushBackClaims(c: Config, s: State, d: Deque, m: Claim) returns (d': Deque, m': Claim)
    requires RemoteRep(c, s, d, m) && s.remote.BackPushCas?
    requires At(c, s, s.remote.back - 1).st == Vacant
    ensures RemoteRep(c, PushBackNext(c, s), d', m') && TakesEffect(c.k, Remote, d, d')
    ensures m' == Claim(m.b - 1, m.f)
  {
    var w := s.remote.w;
    var s' := PushBackNext(c, s);
    d' := d.(q := [w] + d.q, remote := Done(PushBack(w), Stored(true)));
    m' := Claim(m.b - 1, m.f);
    BackSlotVacant(c, s, d, m, s.remote.back);
    PushBackExpected(c, s, d, m, s', d', m');
    CellsKept(c, s, d, m, s', d', m', m.b - 1);
  }

  lemma PushBackExpected(c: Config, s: State, d: Deque, m: Claim, s': State, d': Deque, m': Claim)
    requires |d.q| == m.f - m.b
    requires s.remote.BackPushCas? && s'.remote.BackPushStoreBack? && s'.owner == s.owner
    requires m' == Claim(m.b - 1, m.f) && d'.q == [s.remote.w] + d.q && d'.owner == d.owner
    requires OwnerPushing(s.owner) ==> |d.q| > 0
    ensures forall i :: i >= m.b ==> Expected(s', d', m', i) == Expected(s, d, m, i)
    ensures Expected(s', d', m', m.b - 1) == Content(Busy, None)
  {
  }

  lemma PushBackStoresIndex(c: Config, s: State, d: Deque, m: Claim)
    requires RemoteRep(c, s, d, m) && s.remote.BackPushStoreBack?
    ensures RemoteRep(c, PushBackNext(c, s), d, m)
  {
    var s' := PushBackNext(c, s);
    RetreatPos(c, s.back);
    SameShift(c, s.back, m.b + 1, -1);
    forall i | m.b <= i < m.b + c.k
      ensures CellOk(c, s', d, m, i)
    {
      assert CellOk(c, s, d, m, i);
    }
  }

  lemma PushBackStoresElement(c: Config, s: State, d: Deque, m: Claim)
    requires RemoteRep(c, s, d, m)
    requires s.remote.BackPushMove? || s.remote.BackPushPublish?
    ensures RemoteRep(c, PushBackNext(c, s), d, m)
  {
    var s' := PushBackNext(c, s);
    SameSlot(c, s.remote.back - 1, m.b);
    assert CellOk(c, s, d, m, m.b);
    CellsKept(c, s, d, m, s', d, m, m.b);
  }

  // ----- PopBack -----

  lemma PopBackClaims(c: Config, s: State, d: Deque, m: Claim) returns (d': Deque, m': Claim)
    requires RemoteRep(c, s, d, m) && s.remote.BackPopCas?
    requires At(c, s, s.remote.back).st == Ready
    ensures RemoteRep(c, PopBackNext(c, s), d', m') && TakesEffect(c.k, Remote, d, d')
    ensures m' == Claim(m.b + 1, m.f)
  {
    var s' := PopBackNext(c, s);
    BackElementReady(c, s, d, m, s.remote.back, 0);
    d' := d.(q := d.q[1..], remote := Done(PopBack, Item(Some(d.q[0]))));
    m' := Claim(m.b + 1, m.f);
    assert CellOk(c, s, d, m, m.b);
    PopBackExpected(c, s, d, m, s', d', m');
    CellsKept(c, s, d, m, s', d', m', m.b);
  }

  lemma PopBackExpected(c: Config, s: State, d: Deque, m: Claim, s': State, d': Deque, m': Claim)
    requires |d.q| == m.f - m.b > 0
    requires s.remote.BackPopCas? && s'.remote.BackPopMove? && s'.owner == s.owner
    requires !(m.f - 1 == m.b && OwnerPushing(s.owner))
    requires m' == Claim(m.b + 1, m.f) && d'.q == d.q[1..] && d'.owner == d.owner
    ensures forall i :: i > m.b ==> Expected(s', d', m', i) == Expected(s, d, m, i)
    ensures Expected(s', d', m', m.b) == Content(Busy, Taken(d'.remote))
  {
  }

  lemma PopBackReads(c: Config, s: State, d: Deque, m: Claim)
    requires RemoteRep(c, s, d, m) && s.remote.BackPopMove?
    ensures RemoteRep(c, PopBackNext(c, s), d, m)
  {
    var s' := PopBackNext(c, s);
    SameSlot(c, s.back, m.b - 1);
    assert CellOk(c, s, d, m, m.b - 1);
    forall i | m.b - 1 <= i < m.b - 1 + c.k
      ensures CellOk(c, s', d, m, i)
    {
      assert CellOk(c, s, d, m, i);
    }
  }

  lemma PopBackEmpties(c: Config, s: State, d: Deque, m: Claim)
    requires RemoteRep(c, s, d, m) && s.remote.BackPopRelease?
    ensures RemoteRep(c, PopBackNext(c, s), d, m)
  {
    var s' := PopBackNext(c, s);
    SameSlot(c, s.back, m.b - 1);
    WindowWrap(c, m.b);
    CellsKept(c, s, d, m, s', d, m, m.b + c.k - 1);
  }

  lemma PopBackStoresIndex(c: Config, s: State, d: Deque, m: Claim)
    requires RemoteRep(c, s, d, m) && s.remote.BackPopStoreBack?
    ensures RemoteRep(c, PopBackNext(c, s), d, m)
  {
    var s' := PopBackNext(c, s);
    AdvancePos(c, s.back);
    SameShift(c, s.back, m.b - 1, 1);
    forall i | m.b <= i < m.b + c.k
      ensures CellOk(c, s', d, m, i)
    {
      assert CellOk(c, s, d, m, i);
    }
  }

  // ----- PopBackHalf -----

  /** One CAS on the middle element claims the whole back half: from then on no step of the owner
      reaches those slots. */
  lemma HalfClaims(c: Config, s: State, d: Deque, m: Claim) returns (d': Deque, m': Claim)
    requires RemoteRep(c, s, d, m) && s.remote.HalfCas?
    requires At(c, s, s.remote.back + s.remote.at).st == Ready
    ensures RemoteRep(c, PopBackHalfNext(c, s), d', m') && TakesEffect(c.k, Remote, d, d')
    ensures m' == Claim(m.b + s.remote.at + 1, m.f)
  {
    var at := s.remote.at;
    BackElementReady(c, s, d, m, s.remote.back, at);
    d' := d.(q := d.q[at + 1..], remote := Done(PopBackHalf, Items(Reverse(d.q[..at + 1]))));
    m' := Claim(m.b + at + 1, m.f);
    HalfTakesEffect(c, d, d', at);
    HalfClaimsRange(c, s, d, m, d', m');
    HalfClaimsCells(c, s, d, m, d', m');
  }

  lemma HalfClaimsRange(c: Config, s: State, d: Deque, m: Claim, d': Deque, m': Claim)
    requires RemoteRep(c, s, d, m) && s.remote.HalfCas?
    requires At(c, s, s.remote.back + s.remote.at).st == Ready
    requires m.b + s.remote.at < m.f && !(m.f - 1 == m.b + s.remote.at && OwnerPushing(s.owner))
    requires m' == Claim(m.b + s.remote.at + 1, m.f)
    requires d' == d.(q := d.q[s.remote.at + 1..], remote := Done(PopBackHalf, Items(Reverse(d.q[..s.remote.at + 1]))))
    ensures var s' := PopBackHalfNext(c, s);
            RangeOk(c, s', m') && EndsOk(s', d'.q) && RemoteOk(c, s'.back, s'.remote, d'.remote, m'.b)
  {
    var items := Reverse(d.q[..s.remote.at + 1]);
    assert items[..0] == [];
  }

  lemma HalfClaimsCells(c: Config, s: State, d: Deque, m: Claim, d': Deque, m': Claim)
    requires RemoteRep(c, s, d, m) && s.remote.HalfCas?
    requires At(c, s, s.remote.back + s.remote.at).st == Ready
    requires Slot(c, s.remote.back + s.remote.at) == Slot(c, m.b + s.remote.at)
    requires m.b + s.remote.at < m.f && !(m.f - 1 == m.b + s.remote.at && OwnerPushing(s.owner))
    requires m' == Claim(m.b + s.remote.at + 1, m.f)
    requires d' == d.(q := d.q[s.remote.at + 1..], remote := Done(PopBackHalf, Items(Reverse(d.q[..s.remote.at + 1]))))
    ensures CellsOk(c, PopBackHalfNext(c, s), d', m')
  {
    var s' := PopBackHalfNext(c, s);
    assert CellOk(c, s, d, m, m.b + s.remote.at);
    HalfExpected(c, s, d, m, s', d', m');
    CellsKept(c, s, d, m, s', d', m', m.b + s.remote.at);
  }

  lemma HalfTakesEffect(c: Config, d: Deque, d': Deque, at: nat)
    requires at < |d.q| && HalfOffset(c, at) && d.remote == Pending(PopBackHalf)
    requires d' == d.(q := d.q[at + 1..], remote := Done(PopBackHalf, Items(Reverse(d.q[..at + 1]))))
    ensures TakesEffect(c.k, Remote, d, d')
  {
  }

  lemma HalfExpected(c: Config, s: State, d: Deque, m: Claim, s': State, d': Deque, m': Claim)
    requires |d.q| == m.f - m.b
    requires s.remote.HalfCas? && s'.remote == HalfTake(s.remote.back, s.remote.at, s.remote.at, [])
    requires s'.owner == s.owner && d'.owner == d.owner
    requires m.b + s.remote.at < m.f && !(m.f - 1 == m.b + s.remote.at && OwnerPushing(s.owner))
    requires m' == Claim(m.b + s.remote.at + 1, m.f) && d'.q == d.q[s.remote.at + 1..]
    requires d'.remote == Done(PopBackHalf, Items(Reverse(d.q[..s.remote.at + 1])))
    ensures forall i :: i >= m.b && i != m.b + s.remote.at ==> Expected(s', d', m', i) == Expected(s, d, m, i)
    ensures Expected(s', d', m', m.b + s.remote.at) == Content(Busy, Some(d.q[s.remote.at]))
  {
  }

  /** The element read is the next one of the result. */
  lemma HalfReadsNext(c: Config, s: State, d: Deque, m: Claim)
    requires RemoteRep(c, s, d, m) && s.remote.HalfTake?
    ensures RemoteOk(c, s.back, PopBackHalfNext(c, s).remote, d.remote, m.b)
  {
    var start, at, got := s.remote.start, s.remote.at, s.remote.got;
    var base := m.b - start - 1;
    SameShift(c, s.back, base, at);
    SameSlot(c, s.back + at, base + at);
    assert CellOk(c, s, d, m, base + at);
    var got' := got + [At(c, s, s.back + at).w];
    assert got'[..|got'| - 1] == got;
  }

  lemma HalfReads(c: Config, s: State, d: Deque, m: Claim)
    requires RemoteRep(c, s, d, m) && s.remote.HalfTake?
    ensures RemoteRep(c, PopBackHalfNext(c, s), d, m)
  {
    HalfReadsNext(c, s, d, m);
    var base := m.b - s.remote.start - 1;
    forall i | base <= i < base + c.k
      ensures CellOk(c, PopBackHalfNext(c, s), d, m, i)
    {
      assert CellOk(c, s, d, m, i);
    }
  }

  lemma HalfEmptiesOne(c: Config, s: State, d: Deque, m: Claim)
    requires RemoteRep(c, s, d, m) && s.remote.HalfRelease? && s.remote.at > 0
    ensures RemoteRep(c, PopBackHalfNext(c, s), d, m)
  {
    var s' := PopBackHalfNext(c, s);
    var start, at, got := s.remote.start, s.remote.at, s.remote.got;
    var base := m.b - start - 1;
    SameShift(c, s.back, base, at);
    SameSlot(c, s.back + at, base + at);
    assert got == d.remote.ret.items[..start - at + 1];
    CellsKept(c, s, d, m, s', d, m, base + at);
  }

  lemma HalfEmptiesLast(c: Config, s: State, d: Deque, m: Claim)
    requires RemoteRep(c, s, d, m) && s.remote.HalfRelease? && s.remote.at == 0
    ensures RemoteRep(c, PopBackHalfNext(c, s), d, m)
  {
    var s' := PopBackHalfNext(c, s);
    var base := m.b - s.remote.start - 1;
    SameSlot(c, s.back, base);
    assert s.remote.got == d.remote.ret.items;
    WindowWrap(c, base);
    CellsKept(c, s, d, m, s', d, m, base + c.k);
  }

  /** The code's assertion that every further element is ready never fails. */
  lemma HalfNextIsReady(c: Config, s: State, d: Deque, m: Claim)
    requires RemoteRep(c, s, d, m) && s.remote.HalfNext?
    ensures At(c, s, s.remote.back + s.remote.at).st == Ready
  {
    var base := m.b - s.remote.start - 1;
    SameShift(c, s.back, base, s.remote.at);
    SameSlot(c, s.back + s.remote.at, base + s.remote.at);
    assert CellOk(c, s, d, m, base + s.remote.at);
  }

  lemma HalfGoesOn(c: Config, s: State, d: Deque, m: Claim)
    requires RemoteRep(c, s, d, m) && s.remote.HalfNext?
    ensures RemoteRep(c, PopBackHalfNext(c, s), d, m)
  {
    var s' := PopBackHalfNext(c, s);
    var base := m.b - s.remote.start - 1;
    forall i | base <= i < base + c.k
      ensures CellOk(c, s', d, m, i)
    {
      assert CellOk(c, s, d, m, i);
    }
  }

  lemma HalfStoresIndex(c: Config, s: State, d: Deque, m: Claim)
    requires RemoteRep(c, s, d, m) && s.remote.HalfStoreBack?
    ensures RemoteRep(c, PopBackHalfNext(c, s), d, m)
  {
    var s' := PopBackHalfNext(c, s);
    var start := s.remote.start;
    AdvancePos(c, s.back + start);
    SameShift(c, s.back, m.b - start - 1, start + 1);
    forall i | m.b <= i < m.b + c.k
      ensures CellOk(c, s', d, m, i)
    {
      assert CellOk(c, s, d, m, i);
    }
  }

  // ----- every step of the remote -----

  /** How a step moves the claimed range: only a successful CAS does. */
  function RemoteClaim(c: Config, s: State, m: Claim): Claim
    requires WellFormed(c, s)
  {
    if s.remote.BackPushCas? && At(c, s, s.remote.back - 1).st == Vacant then m.(b := m.b - 1)
    else if s.remote.BackPopCas? && At(c, s, s.remote.back).st == Ready then m.(b := m.b + 1)
    else if s.remote.HalfCas? && At(c, s, s.remote.back + s.remote.at).st == Ready then m.(b := m.b + s.remote.at + 1)
    else m
  }

  lemma PushBackInternal(c: Config, s: State, d: Deque, m: Claim) returns (d': Deque)
    requires RemoteRep(c, s, d, m) && OwnerPhaseOk(s, d)
    requires s.remote.BackPushLoadState? || s.remote.BackPushCas?
    ensures RemoteRep(c, PushBackNext(c, s), d', RemoteClaim(c, s, m))
    ensures DequeSpec.Step(c.k, d, Internal, d')
    ensures d'.owner == d.owner
  {
    var s' := PushBackNext(c, s);
    BackSlotVacant(c, s, d, m, s.remote.back);
    if s'.remote.RReturn? {
      d' := d.(remote := Done(PushBack(s.remote.w), Stored(false)));
      assert TakesEffect(c.k, Remote, d, d');
      RemoteQuiet(c, s, d, m, s', d');
    } else if s.remote.BackPushCas? {
      var m';
      d', m' := PushBackClaims(c, s, d, m);
    } else {
      d' := d;
      RemoteQuiet(c, s, d, m, s', d');
    }
  }

  lemma PopBackInternal(c: Config, s: State, d: Deque, m: Claim) returns (d': Deque)
    requires RemoteRep(c, s, d, m) && OwnerPhaseOk(s, d)
    requires s.remote.BackPopLoadState? || s.remote.BackPopCas?
    ensures RemoteRep(c, PopBackNext(c, s), d', RemoteClaim(c, s, m))
    ensures DequeSpec.Step(c.k, d, Internal, d')
    ensures d'.owner == d.owner
  {
    var s' := PopBackNext(c, s);
    BackElementReady(c, s, d, m, s.remote.back, 0);
    if s'.remote.RReturn? {
      d' := d.(remote := Done(PopBack, Item(None)));
      assert TakesEffect(c.k, Remote, d, d');
      RemoteQuiet(c, s, d, m, s', d');
    } else if s.remote.BackPopCas? {
      var m';
      d', m' := PopBackClaims(c, s, d, m);
    } else {
      d' := d;
      RemoteQuiet(c, s, d, m, s', d');
    }
  }

  /** The element looked at cannot be taken: the scan moves down, or the operation ends with nothing. */
  lemma HalfMisses(c: Config, s: State, d: Deque, m: Claim) returns (d': Deque)
    requires RemoteRep(c, s, d, m) && OwnerPhaseOk(s, d)
    requires s.remote.HalfLoadState? || s.remote.HalfCas?
    requires At(c, s, s.remote.back + s.remote.at).st != Ready
    ensures RemoteRep(c, s.(remote := HalfDown(s.remote.back, s.remote.at)), d', m)
    ensures DequeSpec.Step(c.k, d, Internal, d')
    ensures d'.owner == d.owner
  {
    var s' := s.(remote := HalfDown(s.remote.back, s.remote.at));
    d' := d;
    if s.remote.at == 0 {
      BackElementReady(c, s, d, m, s.remote.back, 0);
      d' := d.(remote := Done(PopBackHalf, Items([])));
      assert TakesEffect(c.k, Remote, d, d');
    }
    RemoteQuiet(c, s, d, m, s', d');
  }

  lemma PushBackStep(c: Config, s: State, d: Deque, m: Claim) returns (d': Deque)
    requires RemoteRep(c, s, d, m) && OwnerPhaseOk(s, d) && InPushBack(s.remote)
    ensures RemoteRep(c, PushBackNext(c, s), d', RemoteClaim(c, s, m))
    ensures DequeSpec.Step(c.k, d, Internal, d')
    ensures d'.owner == d.owner
  {
    d' := d;
    match s.remote
    case BackPushLoadBack(_) => RemoteQuiet(c, s, d, m, PushBackNext(c, s), d);
    case BackPushLoadState(_, _) => d' := PushBackInternal(c, s, d, m);
    case BackPushCas(_, _) => d' := PushBackInternal(c, s, d, m);
    case BackPushStoreBack(_, _) => PushBackStoresIndex(c, s, d, m);
    case BackPushMove(_, _) => PushBackStoresElement(c, s, d, m);
    case BackPushPublish(_, _) => PushBackStoresElement(c, s, d, m);
  }

  lemma PopBackStep(c: Config, s: State, d: Deque, m: Claim) returns (d': Deque)
    requires RemoteRep(c, s, d, m) && OwnerPhaseOk(s, d) && InPopBack(s.remote)
    ensures RemoteRep(c, PopBackNext(c, s), d', RemoteClaim(c, s, m))
    ensures DequeSpec.Step(c.k, d, Internal, d')
    ensures d'.owner == d.owner
  {
    d' := d;
    match s.remote
    case BackPopLoadBack => RemoteQuiet(c, s, d, m, PopBackNext(c, s), d);
    case BackPopLoadState(_) => d' := PopBackInternal(c, s, d, m);
    case BackPopCas(_) => d' := PopBackInternal(c, s, d, m);
    case BackPopMove(_) => PopBackReads(c, s, d, m);
    case BackPopRelease(_, _) => PopBackEmpties(c, s, d, m);
    case BackPopStoreBack(_, _) => PopBackStoresIndex(c, s, d, m);
  }

  lemma PopBackHalfLoads(c: Config, s: State, d: Deque, m: Claim) returns (d': Deque)
    requires RemoteRep(c, s, d, m) && OwnerPhaseOk(s, d) && s.remote.HalfLoadState?
    ensures RemoteRep(c, PopBackHalfNext(c, s), d', m)
    ensures DequeSpec.Step(c.k, d, Internal, d')
    ensures d'.owner == d.owner
  {
    if At(c, s, s.remote.back + s.remote.at).st != Ready {
      d' := HalfMisses(c, s, d, m);
    } else {
      d' := d;
      RemoteQuiet(c, s, d, m, PopBackHalfNext(c, s), d);
    }
  }

  lemma PopBackHalfCas(c: Config, s: State, d: Deque, m: Claim) returns (d': Deque)
    requires RemoteRep(c, s, d, m) && OwnerPhaseOk(s, d) && s.remote.HalfCas?
    ensures RemoteRep(c, PopBackHalfNext(c, s), d', RemoteClaim(c, s, m))
    ensures DequeSpec.Step(c.k, d, Internal, d')
    ensures d'.owner == d.owner
  {
    if At(c, s, s.remote.back + s.remote.at).st != Ready {
      d' := HalfMisses(c, s, d, m);
    } else {
      var m';
      d', m' := HalfClaims(c, s, d, m);
    }
  }

  lemma PopBackHalfMeasures(c: Config, s: State, d: Deque, m: Claim)
    requires RemoteRep(c, s, d, m)
    requires s.remote.HalfLoadBack? || s.remote.HalfSizeFront? || s.remote.HalfSizeBack? || s.remote.HalfSizeFront1?
    ensures RemoteRep(c, PopBackHalfNext(c, s), d, m)
  {
    RemoteQuiet(c, s, d, m, PopBackHalfNext(c, s), d);
  }

  lemma PopBackHalfStep(c: Config, s: State, d: Deque, m: Claim) returns (d': Deque)
    requires RemoteRep(c, s, d, m) && OwnerPhaseOk(s, d) && InPopBackHalf(s.remote)
    ensures RemoteRep(c, PopBackHalfNext(c, s), d', RemoteClaim(c, s, m))
    ensures DequeSpec.Step(c.k, d, Internal, d')
    ensures d'.owner == d.owner
  {
    d' := d;
    match s.remote
    case HalfLoadState(_, _) => d' := PopBackHalfLoads(c, s, d, m);
    case HalfCas(_, _) => d' := PopBackHalfCas(c, s, d, m);
    case HalfTake(_, _, _, _) => HalfReads(c, s, d, m);
    case HalfRelease(_, _, at, _) => if at == 0 { HalfEmptiesLast(c, s, d, m); } else { HalfEmptiesOne(c, s, d, m); }
    case HalfNext(_, _, _, _) => HalfGoesOn(c, s, d, m);
    case HalfStoreBack(_, _, _) => HalfStoresIndex(c, s, d, m);
    case _ => PopBackHalfMeasures(c, s, d, m);
  }

  lemma RemoteInternal(c: Config, s: State, d: Deque, m: Claim) returns (d': Deque)
    requires RemoteRep(c, s, d, m) && OwnerPhaseOk(s, d)
    requires !s.remote.RIdle? && !s.remote.RReturn?
    ensures RemoteRep(c, RemoteNext(c, s), d', RemoteClaim(c, s, m))
    ensures DequeSpec.Step(c.k, d, Internal, d')
    ensures d'.owner == d.owner
  {
    if InPushBack(s.remote) {
      d' := PushBackStep(c, s, d, m);
    } else if InPopBack(s.remote) {
      d' := PopBackStep(c, s, d, m);
    } else {
      d' := PopBackHalfStep(c, s, d, m);
    }
  }
}
