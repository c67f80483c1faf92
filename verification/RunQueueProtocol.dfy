/** The work-stealing deque, one atomic memory access per step: an owner at the front, one mutex-holding
    remote at the back. Masks are remainders, because the capacity k is a power of two. */
module RunQueueProtocol {
  import opened Prelude
  import opened DequeSpec
  import opened Modular

  /** The capacity, and the modulus of the machine word that holds a packed index. */
  datatype Config = Config(k: nat, word: nat)

  predicate ValidConfig(c: Config) {
    c.k > 2 && c.word > 0 && c.word % (2 * c.k) == 0
  }

  datatype State_ = Vacant | Busy | Ready

  datatype Cell = Cell(st: State_, w: Work)

  /** A thread's program counter; each constructor names the access it performs next and carries the
      local variables that are live there. */
  datatype OwnerPc =
    | OIdle
    | PushLoadFront(w: Work)
    | PushLoadState(w: Work, front: nat)
    | PushCas(w: Work, front: nat)
    | PushStoreFront(w: Work, front: nat)
    | PushMove(w: Work, front: nat)
    | PushPublish(w: Work, front: nat)
    | PopLoadFront
    | PopLoadState(front: nat)
    | PopCas(front: nat)
    | PopMove(front: nat)
    | PopRelease(front: nat, w: Work)
    | PopStoreFront(front: nat, w: Work)
    | OReturn(op: Op, ret: Ret)

  /** `start` and `at` are the offsets of the code's `start` and `mid` from `back`. */
  datatype RemotePc =
    | RIdle
    | BackPushLoadBack(w: Work)
    | BackPushLoadState(w: Work, back: nat)
    | BackPushCas(w: Work, back: nat)
    | BackPushStoreBack(w: Work, back: nat)
    | BackPushMove(w: Work, back: nat)
    | BackPushPublish(w: Work, back: nat)
    | BackPopLoadBack
    | BackPopLoadState(back: nat)
    | BackPopCas(back: nat)
    | BackPopMove(back: nat)
    | BackPopRelease(back: nat, w: Work)
    | BackPopStoreBack(back: nat, w: Work)
    | HalfLoadBack
    | HalfSizeFront(back: nat)
    | HalfSizeBack(back: nat, front: nat)
    | HalfSizeFront1(back: nat, front: nat, back1: nat)
    | HalfLoadState(back: nat, at: nat)
    | HalfCas(back: nat, at: nat)
    | HalfTake(back: nat, start: nat, at: nat, got: seq<Work>)
    | HalfRelease(back: nat, start: nat, at: nat, got: seq<Work>)
    | HalfNext(back: nat, start: nat, at: nat, got: seq<Work>)
    | HalfStoreBack(back: nat, start: nat, got: seq<Work>)
    | RReturn(op: Op, ret: Ret)

  datatype State = State(front: nat, back: nat, cells: seq<Cell>, owner: OwnerPc, remote: RemotePc)

  // ----- packed indices -----

  /** The array slot an index selects: `index & kMask`. */
  function Slot(c: Config, i: int): (j: nat)
    requires ValidConfig(c)
    ensures j < c.k
  {
    i % c.k
  }

  /** The rolling position inside an index: `index & kMask2`. */
  function Pos(c: Config, i: int): (p: nat)
    requires ValidConfig(c)
    ensures p < 2 * c.k
  {
    i % (2 * c.k)
  }

  /** `index + 1 + (kSize << 1)` in machine words. */
  function Advance(c: Config, i: nat): nat
    requires ValidConfig(c)
  {
    (i + 1 + 2 * c.k) % c.word
  }

  /** `((index - 1) & kMask2) | (index & ~kMask2)`. */
  function Retreat(c: Config, i: nat): nat
    requires ValidConfig(c)
  {
    RemainderAtMost(i, 2 * c.k);
    Pos(c, i - 1) + (i - Pos(c, i))
  }

  /** The size estimate that the snapshot of two indices gives, clamped to the capacity. */
  function CalculateSize(c: Config, front: nat, back: nat): (n: nat)
    requires ValidConfig(c)
    ensures n <= c.k
    ensures n == 0 <==> Pos(c, front) == Pos(c, back)
  {
    var size: int := Pos(c, front) - Pos(c, back);
    var size1 := if size < 0 then size + 2 * c.k else size;
    if size1 > c.k then c.k else size1
  }

  // ----- steps -----

  predicate WellFormed(c: Config, s: State) {
    ValidConfig(c) && |s.cells| == c.k
  }

  function SetSt(c: Config, s: State, i: int, st: State_): (s': State)
    requires WellFormed(c, s)
    ensures WellFormed(c, s')
  {
    s.(cells := s.cells[Slot(c, i) := s.cells[Slot(c, i)].(st := st)])
  }

  function SetW(c: Config, s: State, i: int, w: Work): (s': State)
    requires WellFormed(c, s)
    ensures WellFormed(c, s')
  {
    s.(cells := s.cells[Slot(c, i) := s.cells[Slot(c, i)].(w := w)])
  }

  function At(c: Config, s: State, i: int): Cell
    requires WellFormed(c, s)
  {
    s.cells[Slot(c, i)]
  }

  predicate InPushFront(pc: OwnerPc) {
    pc.PushLoadFront? || pc.PushLoadState? || pc.PushCas? || pc.PushStoreFront? || pc.PushMove? || pc.PushPublish?
  }

  predicate InPopFront(pc: OwnerPc) {
    pc.PopLoadFront? || pc.PopLoadState? || pc.PopCas? || pc.PopMove? || pc.PopRelease? || pc.PopStoreFront?
  }

  predicate InPushBack(pc: RemotePc) {
    pc.BackPushLoadBack? || pc.BackPushLoadState? || pc.BackPushCas? || pc.BackPushStoreBack? || pc.BackPushMove? || pc.BackPushPublish?
  }

  predicate InPopBack(pc: RemotePc) {
    pc.BackPopLoadBack? || pc.BackPopLoadState? || pc.BackPopCas? || pc.BackPopMove? || pc.BackPopRelease? || pc.BackPopStoreBack?
  }

  predicate InPopBackHalf(pc: RemotePc) {
    pc.HalfLoadBack? || pc.HalfSizeFront? || pc.HalfSizeBack? || pc.HalfSizeFront1? || pc.HalfLoadState?
    || pc.HalfCas? || pc.HalfTake? || pc.HalfRelease? || pc.HalfNext? || pc.HalfStoreBack?
  }

  /** PushFront, one access at a time. */
  function PushFrontNext(c: Config, s: State): (s': State)
    requires WellFormed(c, s) && InPushFront(s.owner)
    ensures WellFormed(c, s')
  {
    match s.owner
    case PushLoadFront(w) => s.(owner := PushLoadState(w, s.front))
    case PushLoadState(w, front) =>
      if At(c, s, front).st != Vacant then s.(owner := OReturn(PushFront(w), Stored(false)))
      else s.(owner := PushCas(w, front))
    case PushCas(w, front) =>
      if At(c, s, front).st != Vacant then s.(owner := OReturn(PushFront(w), Stored(false)))
      else SetSt(c, s, front, Busy).(owner := PushStoreFront(w, front))
    case PushStoreFront(w, front) => s.(front := Advance(c, front), owner := PushMove(w, front))
    case PushMove(w, front) => SetW(c, s, front, w).(owner := PushPublish(w, front))
    case PushPublish(w, front) => SetSt(c, s, front, Ready).(owner := OReturn(PushFront(w), Stored(true)))
  }

  /** PopFront, one access at a time. */
  function PopFrontNext(c: Config, s: State): (s': State)
    requires WellFormed(c, s) && InPopFront(s.owner)
    ensures WellFormed(c, s')
  {
    match s.owner
    case PopLoadFront => s.(owner := PopLoadState(s.front))
    case PopLoadState(front) =>
      if At(c, s, front - 1).st != Ready then s.(owner := OReturn(PopFront, Item(None)))
      else s.(owner := PopCas(front))
    case PopCas(front) =>
      if At(c, s, front - 1).st != Ready then s.(owner := OReturn(PopFront, Item(None)))
      else SetSt(c, s, front - 1, Busy).(owner := PopMove(front))
    case PopMove(front) => s.(owner := PopRelease(front, At(c, s, front - 1).w))
    case PopRelease(front, w) => SetSt(c, s, front - 1, Vacant).(owner := PopStoreFront(front, w))
    case PopStoreFront(front, w) =>
      s.(front := Retreat(c, front), owner := OReturn(PopFront, Item(Some(w))))
  }

  /** PushBack, one access at a time. */
  function PushBackNext(c: Config, s: State): (s': State)
    requires WellFormed(c, s) && InPushBack(s.remote)
    ensures WellFormed(c, s')
  {
    match s.remote
    case BackPushLoadBack(w) => s.(remote := BackPushLoadState(w, s.back))
    case BackPushLoadState(w, back) =>
      if At(c, s, back - 1).st != Vacant then s.(remote := RReturn(PushBack(w), Stored(false)))
      else s.(remote := BackPushCas(w, back))
    case BackPushCas(w, back) =>
      if At(c, s, back - 1).st != Vacant then s.(remote := RReturn(PushBack(w), Stored(false)))
      else SetSt(c, s, back - 1, Busy).(remote := BackPushStoreBack(w, back))
    case BackPushStoreBack(w, back) => s.(back := Retreat(c, back), remote := BackPushMove(w, back))
    case BackPushMove(w, back) => SetW(c, s, back - 1, w).(remote := BackPushPublish(w, back))
    case BackPushPublish(w, back) => SetSt(c, s, back - 1, Ready).(remote := RReturn(PushBack(w), Stored(true)))
  }

  /** PopBack after its emptiness test, one access at a time. */
  function PopBackNext(c: Config, s: State): (s': State)
    requires WellFormed(c, s) && InPopBack(s.remote)
    ensures WellFormed(c, s')
  {
    match s.remote
    case BackPopLoadBack => s.(remote := BackPopLoadState(s.back))
    case BackPopLoadState(back) =>
      if At(c, s, back).st != Ready then s.(remote := RReturn(PopBack, Item(None)))
      else s.(remote := BackPopCas(back))
    case BackPopCas(back) =>
      if At(c, s, back).st != Ready then s.(remote := RReturn(PopBack, Item(None)))
      else SetSt(c, s, back, Busy).(remote := BackPopMove(back))
    case BackPopMove(back) => s.(remote := BackPopRelease(back, At(c, s, back).w))
    case BackPopRelease(back, w) => SetSt(c, s, back, Vacant).(remote := BackPopStoreBack(back, w))
    case BackPopStoreBack(back, w) =>
      s.(back := Advance(c, back), remote := RReturn(PopBack, Item(Some(w))))
  }

  /** The scan of PopBackHalf moves one element down, or ends with nothing taken. */
  function HalfDown(back: nat, at: nat): RemotePc {
    if at == 0 then RReturn(PopBackHalf, Items([])) else HalfLoadState(back, at - 1)
  }

  /** PopBackHalf after its emptiness test, with the snapshot loop of Size. */
  function PopBackHalfNext(c: Config, s: State): (s': State)
    requires WellFormed(c, s) && InPopBackHalf(s.remote)
    ensures WellFormed(c, s')
  {
    match s.remote
    case HalfLoadBack => s.(remote := HalfSizeFront(s.back))
    case HalfSizeFront(back) => s.(remote := HalfSizeBack(back, s.front))
    case HalfSizeBack(back, front) => s.(remote := HalfSizeFront1(back, front, s.back))
    case HalfSizeFront1(back, front, back1) =>
      if s.front != front then s.(remote := HalfSizeBack(back, s.front))
      else
        var size := CalculateSize(c, front, back1);
        s.(remote := HalfLoadState(back, if size > 1 then (size - 1) / 2 else 0))
    case HalfLoadState(back, at) =>
      if At(c, s, back + at).st != Ready then s.(remote := HalfDown(back, at))
      else s.(remote := HalfCas(back, at))
    case HalfCas(back, at) =>
      if At(c, s, back + at).st != Ready then s.(remote := HalfDown(back, at))
      else SetSt(c, s, back + at, Busy).(remote := HalfTake(back, at, at, []))
    case HalfTake(back, start, at, got) =>
      s.(remote := HalfRelease(back, start, at, got + [At(c, s, back + at).w]))
    case HalfRelease(back, start, at, got) =>
      SetSt(c, s, back + at, Vacant).(remote :=
        if at == 0 then HalfStoreBack(back, start, got) else HalfNext(back, start, at - 1, got))
    case HalfNext(back, start, at, got) => s.(remote := HalfTake(back, start, at, got))
    case HalfStoreBack(back, start, got) =>
      s.(back := Advance(c, back + start), remote := RReturn(PopBackHalf, Items(got)))
  }

  function OwnerNext(c: Config, s: State): (s': State)
    requires WellFormed(c, s)
    requires !s.owner.OIdle? && !s.owner.OReturn?
    ensures WellFormed(c, s')
  {
    if InPushFront(s.owner) then PushFrontNext(c, s) else PopFrontNext(c, s)
  }

  function RemoteNext(c: Config, s: State): (s': State)
    requires WellFormed(c, s)
    requires !s.remote.RIdle? && !s.remote.RReturn?
    ensures WellFormed(c, s')
  {
    if InPushBack(s.remote) then PushBackNext(c, s)
    else if InPopBack(s.remote) then PopBackNext(c, s)
    else PopBackHalfNext(c, s)
  }

  function OwnerEntry(op: Op): OwnerPc
    requires OwnerOp(op)
  {
    match op
    case PushFront(w) => PushLoadFront(w)
    case PopFront => PopLoadFront
  }

  function RemoteEntry(op: Op): RemotePc
    requires !OwnerOp(op)
  {
    match op
    case PushBack(w) => BackPushLoadBack(w)
    case PopBack => BackPopLoadBack
    case PopBackHalf => HalfLoadBack
  }

  predicate OwnerStep(c: Config, s: State, e: Event, s': State)
    requires WellFormed(c, s)
  {
    match s.owner
    case OIdle => e.Call? && e.t == Owner && OwnerOp(e.op) && s' == s.(owner := OwnerEntry(e.op))
    case OReturn(op, ret) => e == Return(Owner, op, ret) && s' == s.(owner := OIdle)
    case _ => e == Internal && s' == OwnerNext(c, s)
  }

  /** The call of a remote operation takes the mutex, which is why there is one remote counter. */
  predicate RemoteStep(c: Config, s: State, e: Event, s': State)
    requires WellFormed(c, s)
  {
    match s.remote
    case RIdle => e.Call? && e.t == Remote && !OwnerOp(e.op) && s' == s.(remote := RemoteEntry(e.op))
    case RReturn(op, ret) => e == Return(Remote, op, ret) && s' == s.(remote := RIdle)
    case _ => e == Internal && s' == RemoteNext(c, s)
  }

  predicate Init(c: Config, s: State) {
    && WellFormed(c, s)
    && s.front == 0 && s.back == 0 && s.owner == OIdle && s.remote == RIdle
    && forall j :: 0 <= j < c.k ==> s.cells[j].st == Vacant
  }

  /** A step of any other thread: Size and Empty only read. */
  predicate ReadsOnly(s: State, e: Event, s': State) {
    e == Internal && s' == s
  }

  predicate Next(c: Config, s: State, e: Event, s': State) {
    WellFormed(c, s) && (OwnerStep(c, s, e, s') || RemoteStep(c, s, e, s') || ReadsOnly(s, e, s'))
  }
}
