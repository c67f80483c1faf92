/** The intent of the deque in terms of its array alone: in every reachable state the claimed elements are
    one contiguous stretch of slots, every slot outside it is empty unless its element is being taken out,
    and a busy slot belongs to one thread. */
module RunQueueRange {
  import opened Prelude
  import opened DequeSpec
  import opened Modular
  import opened RunQueueProtocol
  import opened RunQueueSimulation
  import opened RunQueueCells
  import opened RunQueueRuns

  /** The slot the owner has claimed and is still writing or reading. */
  function OwnerHolds(c: Config, pc: OwnerPc): Option<nat>
    requires ValidConfig(c)
  {
    match pc
    case PushStoreFront(_, front) => Some(Slot(c, front))
    case PushMove(_, front) => Some(Slot(c, front))
    case PushPublish(_, front) => Some(Slot(c, front))
    case PopMove(front) => Some(Slot(c, front - 1))
    case PopRelease(front, _) => Some(Slot(c, front - 1))
    case _ => None
  }

  /** The slot the remote has claimed and is still writing or reading; in PopBackHalf the one it is at. */
  function RemoteHolds(c: Config, pc: RemotePc): Option<nat>
    requires ValidConfig(c)
  {
    match pc
    case BackPushStoreBack(_, back) => Some(Slot(c, back - 1))
    case BackPushMove(_, back) => Some(Slot(c, back - 1))
    case BackPushPublish(_, back) => Some(Slot(c, back - 1))
    case BackPopMove(back) => Some(Slot(c, back))
    case BackPopRelease(back, _) => Some(Slot(c, back))
    case HalfTake(back, _, at, _) => Some(Slot(c, back + at))
    case HalfRelease(back, _, at, _) => Some(Slot(c, back + at))
    case _ => None
  }

  /** The index `n` below the claimed elements is that of one the remote is taking out and has not emptied:
      its own for PopBack, and for PopBackHalf those from its present one down. */
  predicate RemoteTaking(pc: RemotePc, n: nat) {
    (RemotePopping(pc) && n == 1) || (HalfTaking(pc) && pc.start + 1 - pc.at <= n <= pc.start + 1)
  }

  /** The index of the window that shares a slot with `x`. */
  lemma WindowIndex(c: Config, s: State, d: Deque, m: Claim, x: int)
    requires Core(c, s, d, m) && m.b <= x < m.b + c.k
    ensures var y := if x < Base(s.remote, m) + c.k then x else x - c.k;
            && Slot(c, x) == Slot(c, y) && At(c, s, x) == At(c, s, y)
            && CellOk(c, s, d, m, y)
  {
    ShiftByOne(x - c.k, c.k);
  }

  lemma ClaimedRangeOf(c: Config, s: State, d: Deque, m: Claim)
    requires Core(c, s, d, m)
    ensures m.b <= m.f <= m.b + c.k
    ensures forall x :: m.b <= x < m.f ==>
              At(c, s, x).st == if (x == m.f - 1 && OwnerPushing(s.owner)) || (x == m.b && RemotePushing(s.remote)) then Busy else Ready
    ensures forall x :: m.f <= x < m.b + c.k ==>
              (At(c, s, x).st != Vacant <==> (x == m.f && OwnerPopping(s.owner)) || RemoteTaking(s.remote, m.b + c.k - x))
  {
    forall x | m.b <= x < m.f
      ensures At(c, s, x).st == if (x == m.f - 1 && OwnerPushing(s.owner)) || (x == m.b && RemotePushing(s.remote)) then Busy else Ready
    {
      WindowIndex(c, s, d, m, x);
    }
    forall x | m.f <= x < m.b + c.k
      ensures At(c, s, x).st != Vacant <==> (x == m.f && OwnerPopping(s.owner)) || RemoteTaking(s.remote, m.b + c.k - x)
    {
      WindowIndex(c, s, d, m, x);
    }
  }

  /** In every reachable state some stretch of at most k slots, from index b, holds exactly the elements
      claimed by pushes and not yet by pops: they are ready, but for one at either end that is still being
      stored. Every other slot is empty, unless an element is being taken out of it. */
  lemma ClaimedRange(c: Config, run: seq<State>, events: seq<Event>, i: nat) returns (b: int, n: nat)
    requires Execution(c, run, events) && i < |run|
    ensures WellFormed(c, run[i]) && n <= c.k
    ensures forall x :: b <= x < b + n ==>
              At(c, run[i], x).st == if (x == b + n - 1 && OwnerPushing(run[i].owner)) || (x == b && RemotePushing(run[i].remote))
                                     then Busy else Ready
    ensures forall x :: b + n <= x < b + c.k ==>
              (At(c, run[i], x).st != Vacant <==> (x == b + n && OwnerPopping(run[i].owner)) || RemoteTaking(run[i].remote, b + c.k - x))
  {
    var spec, claims := Linearizable(c, run, events);
    assert Rep(c, run[i], spec[i], claims[i]);
    ClaimedRangeOf(c, run[i], spec[i], claims[i]);
    b, n := claims[i].b, claims[i].f - claims[i].b;
  }

  lemma OwnerIndex(c: Config, s: State, d: Deque, m: Claim) returns (x: int)
    requires OwnerRep(c, s, d, m) && OwnerHolds(c, s.owner).Some?
    ensures OwnerHolds(c, s.owner) == Some(Slot(c, x))
    ensures x == if OwnerPushing(s.owner) then m.f - 1 else m.f
  {
    if OwnerPushing(s.owner) {
      x := m.f - 1;
      SameSlot(c, s.owner.front, x);
    } else {
      x := m.f;
      SameShift(c, s.owner.front, m.f + 1, -1);
      SameSlot(c, s.owner.front - 1, x);
    }
  }

  lemma RemoteIndex(c: Config, s: State, d: Deque, m: Claim) returns (x: int)
    requires RemoteRep(c, s, d, m) && RemoteHolds(c, s.remote).Some?
    ensures RemoteHolds(c, s.remote) == Some(Slot(c, x))
    ensures x == if RemotePushing(s.remote) then m.b else if RemotePopping(s.remote) then m.b - 1
                 else m.b - s.remote.start - 1 + s.remote.at
  {
    if s.remote.BackPushStoreBack? {
      x := m.b;
      SameShift(c, s.remote.back, m.b + 1, -1);
      SameSlot(c, s.remote.back - 1, x);
    } else if RemotePushing(s.remote) {
      x := m.b;
      SameSlot(c, s.remote.back - 1, x);
    } else if RemotePopping(s.remote) {
      x := m.b - 1;
      SameSlot(c, s.remote.back, x);
    } else {
      x := m.b - s.remote.start - 1 + s.remote.at;
      SameShift(c, s.remote.back, m.b - s.remote.start - 1, s.remote.at);
      SameSlot(c, s.remote.back + s.remote.at, x);
    }
  }

  /** No slot is ever claimed by the owner and the remote at once. */
  lemma NeverSameSlot(c: Config, run: seq<State>, events: seq<Event>, i: nat)
    requires Execution(c, run, events) && i < |run| && ValidConfig(c)
    requires OwnerHolds(c, run[i].owner).Some? && RemoteHolds(c, run[i].remote).Some?
    ensures OwnerHolds(c, run[i].owner) != RemoteHolds(c, run[i].remote)
  {
    var spec, claims := Linearizable(c, run, events);
    var s, d, m := run[i], spec[i], claims[i];
    assert Rep(c, s, d, m);
    HeldApart(c, s, d, m);
  }

  lemma HeldApart(c: Config, s: State, d: Deque, m: Claim)
    requires Rep(c, s, d, m)
    requires OwnerHolds(c, s.owner).Some? && RemoteHolds(c, s.remote).Some?
    ensures OwnerHolds(c, s.owner) != RemoteHolds(c, s.remote)
  {
    var x := OwnerIndex(c, s, d, m);
    var y := RemoteIndex(c, s, d, m);
    if Slot(c, x) == Slot(c, y) {
      RemainderInjective(x, y, c.k);
    }
  }

  lemma BusyHeld(c: Config, s: State, d: Deque, m: Claim, j: nat)
    requires Rep(c, s, d, m) && j < c.k && s.cells[j].st == Busy
    ensures OwnerHolds(c, s.owner) == Some(j) || RemoteHolds(c, s.remote) == Some(j)
  {
    var x := SlotIndex(c, Base(s.remote, m), j);
    assert CellOk(c, s, d, m, x);
    if OwnerHolds(c, s.owner).Some? {
      var y := OwnerIndex(c, s, d, m);
    }
    if RemoteHolds(c, s.remote).Some? {
      var z := RemoteIndex(c, s, d, m);
    }
  }

  /** Every busy slot is held by one of the two. */
  lemma BusyIsHeld(c: Config, run: seq<State>, events: seq<Event>, i: nat, j: nat)
    requires Execution(c, run, events) && i < |run| && ValidConfig(c) && j < |run[i].cells|
    requires run[i].cells[j].st == Busy
    ensures OwnerHolds(c, run[i].owner) == Some(j) || RemoteHolds(c, run[i].remote) == Some(j)
  {
    var spec, claims := Linearizable(c, run, events);
    assert Rep(c, run[i], spec[i], claims[i]);
    BusyHeld(c, run[i], spec[i], claims[i], j);
  }

  // ----- when the occupied slots are contiguous -----

  /** The n slots from slot b on, round the end of the array, are occupied and the others are empty. */
  predicate Stretch(c: Config, s: State, b: nat, n: nat)
    requires WellFormed(c, s)
  {
    && b < c.k && n <= c.k
    && forall j :: 0 <= j < c.k ==> (s.cells[j].st != Vacant <==> b <= j < b + n || j + c.k < b + n)
  }

  /** The occupied region is contiguous, with no stray occupied elements. */
  ghost predicate OneStretch(c: Config, s: State)
    requires WellFormed(c, s)
  {
    exists b: nat, n: nat :: Stretch(c, s, b, n)
  }

  /** Index lo + o in terms of the slot of lo. */
  lemma SlotFrom(c: Config, lo: int, o: nat)
    requires ValidConfig(c) && o < c.k
    ensures Slot(c, lo + o) == if Slot(c, lo) + o < c.k then Slot(c, lo) + o else Slot(c, lo) + o - c.k
  {
    var q, r := lo / c.k, lo % c.k;
    assert lo + o == q * c.k + (r + o);
    if r + o < c.k {
      RemainderUnique(lo + o, c.k, q, r + o);
    } else {
      assert (q + 1) * c.k == q * c.k + c.k;
      RemainderUnique(lo + o, c.k, q + 1, r + o - c.k);
    }
  }

  /** A run of occupied indices in a window of k is a stretch of slots. */
  lemma IndicesStretch(c: Config, s: State, lo: int, n: nat)
    requires WellFormed(c, s) && n <= c.k
    requires forall x :: lo <= x < lo + c.k ==> (At(c, s, x).st != Vacant <==> x < lo + n)
    ensures OneStretch(c, s)
  {
    var b := Slot(c, lo);
    forall j | 0 <= j < c.k
      ensures s.cells[j].st != Vacant <==> b <= j < b + n || j + c.k < b + n
    {
      var x := SlotIndex(c, lo, j);
      SlotFrom(c, lo, x - lo);
      assert At(c, s, x) == s.cells[j];
    }
    assert Stretch(c, s, b, n);
  }

  /** Occupied, empty, occupied, empty, in this order round the array: that is no one stretch. */
  lemma FourApart(c: Config, s: State, lo: int, o1: nat, o2: nat, o3: nat)
    requires WellFormed(c, s) && 0 < o1 < o2 < o3 < c.k
    requires At(c, s, lo).st != Vacant && At(c, s, lo + o1).st == Vacant
    requires At(c, s, lo + o2).st != Vacant && At(c, s, lo + o3).st == Vacant
    ensures !OneStretch(c, s)
  {
    SlotFrom(c, lo, o1);
    SlotFrom(c, lo, o2);
    SlotFrom(c, lo, o3);
    forall b: nat, n: nat
      ensures !Stretch(c, s, b, n)
    {
    }
  }

  /** PopBackHalf has emptied a slot and goes on below it, something is occupied above, and the slot below
      the back end is empty. */
  predicate Gap(c: Config, s: State)
    requires WellFormed(c, s)
  {
    && HalfTaking(s.remote) && s.remote.at < s.remote.start
    && At(c, s, s.back + s.remote.start + 1).st != Vacant
    && At(c, s, s.back - 1).st == Vacant
  }

  /** What is occupied while PopBackHalf works its way down. */
  lemma HalfOccupied(c: Config, s: State, d: Deque, m: Claim, x: int)
    requires Rep(c, s, d, m) && Base(s.remote, m) <= x < Base(s.remote, m) + c.k
    ensures At(c, s, x).st != Vacant <==>
            m.b <= x < Top(s.owner, m) || (RemotePopping(s.remote) && x == m.b - 1)
            || (HalfTaking(s.remote) && x <= m.b - s.remote.start - 1 + s.remote.at)
  {
    assert CellOk(c, s, d, m, x);
  }

  /** The two slots that Gap looks at are the one above the gap and the last one of the window. */
  lemma GapSlots(c: Config, s: State, d: Deque, m: Claim)
    requires Rep(c, s, d, m) && HalfTaking(s.remote)
    ensures var base := Base(s.remote, m);
            && s.remote.start + 1 < c.k
            && At(c, s, s.back + s.remote.start + 1) == At(c, s, m.b) && At(c, s, s.back - 1) == At(c, s, base + c.k - 1)
            && (At(c, s, m.b).st != Vacant <==> m.b < Top(s.owner, m))
            && (At(c, s, base + c.k - 1).st != Vacant <==> Top(s.owner, m) == base + c.k)
  {
    var base := Base(s.remote, m);
    SameShift(c, s.back, base, s.remote.start + 1);
    SameSlot(c, s.back + s.remote.start + 1, m.b);
    SameShift(c, s.back, base, -1);
    SameSlot(c, s.back - 1, base - 1);
    WindowWrap(c, base);
    HalfOccupied(c, s, d, m, m.b);
    HalfOccupied(c, s, d, m, base + c.k - 1);
  }

  lemma GapSplits(c: Config, s: State, d: Deque, m: Claim)
    requires Rep(c, s, d, m) && HalfTaking(s.remote) && s.remote.at < s.remote.start
    requires m.b < Top(s.owner, m) < Base(s.remote, m) + c.k
    ensures !OneStretch(c, s)
  {
    var base, at, start := Base(s.remote, m), s.remote.at, s.remote.start;
    GapSlots(c, s, d, m);
    HalfOccupied(c, s, d, m, base);
    HalfOccupied(c, s, d, m, base + at + 1);
    FourApart(c, s, base, at + 1, start + 1, c.k - 1);
  }

  /** PopBackHalf has emptied a slot, but nothing is occupied above, or all is up to the end of the window. */
  lemma HalfStretch(c: Config, s: State, d: Deque, m: Claim)
    requires Rep(c, s, d, m) && !Gap(c, s) && HalfTaking(s.remote) && s.remote.at < s.remote.start
    ensures OneStretch(c, s)
  {
    var base, top := Base(s.remote, m), Top(s.owner, m);
    GapSlots(c, s, d, m);
    if top == m.b {
      forall x | base <= x < base + c.k
        ensures At(c, s, x).st != Vacant <==> x < base + (s.remote.at + 1)
      {
        HalfOccupied(c, s, d, m, x);
      }
      IndicesStretch(c, s, base, s.remote.at + 1);
    } else {
      var n := top - m.b + s.remote.at + 1;
      forall x | m.b <= x < m.b + c.k
        ensures At(c, s, x).st != Vacant <==> x < m.b + n
      {
        ShiftByOne(x - c.k, c.k);
        HalfOccupied(c, s, d, m, if x < base + c.k then x else x - c.k);
      }
      IndicesStretch(c, s, m.b, n);
    }
  }

  lemma NoGapStretch(c: Config, s: State, d: Deque, m: Claim)
    requires Rep(c, s, d, m) && !Gap(c, s)
    ensures OneStretch(c, s)
  {
    if HalfTaking(s.remote) && s.remote.at < s.remote.start {
      HalfStretch(c, s, d, m);
    } else {
      var base, top := Base(s.remote, m), Top(s.owner, m);
      forall x | base <= x < base + c.k
        ensures At(c, s, x).st != Vacant <==> x < base + (top - base)
      {
        HalfOccupied(c, s, d, m, x);
      }
      IndicesStretch(c, s, base, top - base);
    }
  }

  /** In every reachable state the occupied slots are one stretch, exactly unless PopBackHalf has left a gap. */
  lemma ContiguousExact(c: Config, run: seq<State>, events: seq<Event>, i: nat)
    requires Execution(c, run, events) && i < |run|
    ensures WellFormed(c, run[i]) && (OneStretch(c, run[i]) <==> !Gap(c, run[i]))
  {
    var spec, claims := Linearizable(c, run, events);
    var s, d, m := run[i], spec[i], claims[i];
    assert Rep(c, s, d, m);
    if Gap(c, s) {
      GapSlots(c, s, d, m);
      GapSplits(c, s, d, m);
    } else {
      NoGapStretch(c, s, d, m);
    }
  }

  /** In runs that do not call PopBackHalf the occupied slots are always one stretch. */
  lemma ContiguousWithoutHalf(c: Config, run: seq<State>, events: seq<Event>, kinds: set<Kind>, i: nat)
    requires Execution(c, run, events) && CallsOnly(events, kinds) && PopsBackHalf !in kinds && i < |run|
    ensures WellFormed(c, run[i]) && OneStretch(c, run[i])
  {
    ContiguousExact(c, run, events, i);
    StaysInside(c, run, events, kinds, i);
  }
}
