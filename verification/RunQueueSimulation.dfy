/** Every step of the protocol is a step of the atomic deque. The simulation relates the array to an
    unbounded index range [b, f): the elements claimed by pushes and not yet by pops. */
module RunQueueSimulation {
  import opened Prelude
  import opened DequeSpec
  import opened RunQueueProtocol

  /** The claimed range; index i lives in slot i % k. */
  datatype Claim = Claim(b: int, f: int)

  // ----- what a program counter says about the claimed range -----

  predicate OwnerPushing(pc: OwnerPc) {
    pc.PushStoreFront? || pc.PushMove? || pc.PushPublish?
  }

  predicate OwnerPopping(pc: OwnerPc) {
    pc.PopMove? || pc.PopRelease?
  }

  predicate RemotePushing(pc: RemotePc) {
    pc.BackPushStoreBack? || pc.BackPushMove? || pc.BackPushPublish?
  }

  predicate RemotePopping(pc: RemotePc) {
    pc.BackPopMove? || pc.BackPopRelease?
  }

  predicate HalfTaking(pc: RemotePc) {
    pc.HalfTake? || pc.HalfRelease? || pc.HalfNext?
  }

  /** The unbounded position whose low bits `front_` holds. */
  function StoredFront(pc: OwnerPc, m: Claim): int {
    if pc.PushStoreFront? then m.f - 1
    else if OwnerPopping(pc) || pc.PopStoreFront? then m.f + 1
    else m.f
  }

  /** The unbounded position whose low bits `back_` holds. */
  function StoredBack(pc: RemotePc, m: Claim): int {
    if pc.BackPushStoreBack? then m.b + 1
    else if RemotePopping(pc) || pc.BackPopStoreBack? then m.b - 1
    else if HalfTaking(pc) || pc.HalfStoreBack? then m.b - (pc.start + 1)
    else m.b
  }

  /** The lowest index that can be occupied: elements the remote has claimed but not yet emptied lie
      below b. */
  function Base(pc: RemotePc, m: Claim): int {
    if RemotePopping(pc) then m.b - 1
    else if HalfTaking(pc) then m.b - (pc.start + 1)
    else m.b
  }

  /** One past the highest index that can be occupied. */
  function Top(pc: OwnerPc, m: Claim): int {
    if OwnerPopping(pc) then m.f + 1 else m.f
  }

  datatype Content = Content(st: State_, w: Option<Work>)

  /** What slot i % k holds, for every index i of the window of k indices from Base. */
  function Expected(s: State, d: Deque, m: Claim, i: int): Content
    requires |d.q| == m.f - m.b
  {
    if m.b <= i < m.f then
      var w := d.q[i - m.b];
      if i == m.f - 1 && OwnerPushing(s.owner) then
        Content(Busy, if s.owner.PushPublish? then Some(w) else None)
      else if i == m.b && RemotePushing(s.remote) then
        Content(Busy, if s.remote.BackPushPublish? then Some(w) else None)
      else Content(Ready, Some(w))
    else if i == m.f && OwnerPopping(s.owner) then Content(Busy, Taken(d.owner))
    else if i == m.b - 1 && RemotePopping(s.remote) then Content(Busy, Taken(d.remote))
    else if HalfTaking(s.remote) && m.b - s.remote.start - 1 <= i <= m.b - s.remote.start - 1 + s.remote.at then
      Content(if s.remote.at == s.remote.start && i == m.b - 1 then Busy else Ready, HalfItem(d.remote, m.b - 1 - i))
    else Content(Vacant, None)
  }

  function Taken(p: Phase): Option<Work> {
    if p.Done? && p.ret.Item? then p.ret.item else None
  }

  function HalfItem(p: Phase, n: int): Option<Work> {
    if p.Done? && p.ret.Items? && 0 <= n < |p.ret.items| then Some(p.ret.items[n]) else None
  }

  predicate CellOk(c: Config, s: State, d: Deque, m: Claim, i: int)
    requires WellFormed(c, s) && |d.q| == m.f - m.b
  {
    var x := Expected(s, d, m, i);
    At(c, s, i).st == x.st && (x.w.Some? ==> At(c, s, i).w == x.w.value)
  }

  predicate Same(c: Config, i: int, j: int)
    requires ValidConfig(c)
  {
    Pos(c, i) == Pos(c, j)
  }

  /** The owner's local variables against the stored index and its phase; f is the claimed front end. */
  predicate OwnerOk(c: Config, front: nat, pc: OwnerPc, phase: Phase, f: int)
    requires ValidConfig(c)
  {
    match pc
    case OIdle => Same(c, front, f) && phase == Idle
    case OReturn(op, ret) => Same(c, front, f) && OwnerOp(op) && phase == Done(op, ret)
    case PushLoadFront(w) => Same(c, front, f) && phase == Pending(PushFront(w))
    case PushLoadState(w, front') => Same(c, front, f) && phase == Pending(PushFront(w)) && front' == front
    case PushCas(w, front') => Same(c, front, f) && phase == Pending(PushFront(w)) && front' == front
    case PushStoreFront(w, front') => Same(c, front, f - 1) && phase == Done(PushFront(w), Stored(true)) && front' == front
    case PushMove(w, front') => Same(c, front, f) && phase == Done(PushFront(w), Stored(true)) && Same(c, front', f - 1)
    case PushPublish(w, front') => Same(c, front, f) && phase == Done(PushFront(w), Stored(true)) && Same(c, front', f - 1)
    case PopLoadFront => Same(c, front, f) && phase == Pending(PopFront)
    case PopLoadState(front') => Same(c, front, f) && phase == Pending(PopFront) && front' == front
    case PopCas(front') => Same(c, front, f) && phase == Pending(PopFront) && front' == front
    case PopMove(front') =>
      Same(c, front, f + 1) && front' == front && Taken(phase).Some? && phase == Done(PopFront, Item(Taken(phase)))
    case PopRelease(front', w) => Same(c, front, f + 1) && front' == front && phase == Done(PopFront, Item(Some(w)))
    case PopStoreFront(front', w) => Same(c, front, f + 1) && front' == front && phase == Done(PopFront, Item(Some(w)))
  }

  /** The remote's local variables against the stored index and its phase; b is the claimed back end. */
  predicate RemoteOk(c: Config, back: nat, pc: RemotePc, phase: Phase, b: int)
    requires ValidConfig(c)
  {
    match pc
    case RIdle => Same(c, back, b) && phase == Idle
    case RReturn(op, ret) => Same(c, back, b) && !OwnerOp(op) && phase == Done(op, ret)
    case BackPushLoadBack(w) => Same(c, back, b) && phase == Pending(PushBack(w))
    case BackPushLoadState(w, back') => Same(c, back, b) && phase == Pending(PushBack(w)) && back' == back
    case BackPushCas(w, back') => Same(c, back, b) && phase == Pending(PushBack(w)) && back' == back
    case BackPushStoreBack(w, back') => Same(c, back, b + 1) && phase == Done(PushBack(w), Stored(true)) && back' == back
    case BackPushMove(w, back') => Same(c, back, b) && phase == Done(PushBack(w), Stored(true)) && Same(c, back' - 1, b)
    case BackPushPublish(w, back') => Same(c, back, b) && phase == Done(PushBack(w), Stored(true)) && Same(c, back' - 1, b)
    case BackPopLoadBack => Same(c, back, b) && phase == Pending(PopBack)
    case BackPopLoadState(back') => Same(c, back, b) && phase == Pending(PopBack) && back' == back
    case BackPopCas(back') => Same(c, back, b) && phase == Pending(PopBack) && back' == back
    case BackPopMove(back') =>
      Same(c, back, b - 1) && back' == back && Taken(phase).Some? && phase == Done(PopBack, Item(Taken(phase)))
    case BackPopRelease(back', w) => Same(c, back, b - 1) && back' == back && phase == Done(PopBack, Item(Some(w)))
    case BackPopStoreBack(back', w) => Same(c, back, b - 1) && back' == back && phase == Done(PopBack, Item(Some(w)))
    case HalfLoadBack => Same(c, back, b) && phase == Pending(PopBackHalf)
    case HalfSizeFront(back') => Same(c, back, b) && phase == Pending(PopBackHalf) && back' == back
    case HalfSizeBack(back', _) => Same(c, back, b) && phase == Pending(PopBackHalf) && back' == back
    case HalfSizeFront1(back', _, _) => Same(c, back, b) && phase == Pending(PopBackHalf) && back' == back
    case HalfLoadState(back', at) => Same(c, back, b) && phase == Pending(PopBackHalf) && back' == back && HalfOffset(c, at)
    case HalfCas(back', at) => Same(c, back, b) && phase == Pending(PopBackHalf) && back' == back && HalfOffset(c, at)
    case HalfTake(back', start, at, got) => Same(c, back, b - start - 1) && back' == back && HalfOk(c, phase, start, at, got)
    case HalfRelease(back', start, at, got) =>
      && Same(c, back, b - start - 1) && back' == back && |got| > 0
      && HalfOk(c, phase, start, at, got[..|got| - 1]) && phase.ret.items[start - at] == got[|got| - 1]
    case HalfNext(back', start, at, got) =>
      Same(c, back, b - start - 1) && back' == back && at < start && HalfOk(c, phase, start, at, got)
    case HalfStoreBack(back', start, got) =>
      && Same(c, back, b - start - 1) && back' == back && HalfOffset(c, start) && |got| == start + 1
      && phase == Done(PopBackHalf, Items(got))
  }

  /** A push that has claimed its slot owns the element at its end of the queue. */
  predicate EndsOk(s: State, q: seq<Work>) {
    && (OwnerPushing(s.owner) ==> |q| > 0 && q[|q| - 1] == s.owner.w)
    && (RemotePushing(s.remote) ==> |q| > 0 && q[0] == s.remote.w)
  }

  predicate HalfOffset(c: Config, at: nat) {
    2 * at <= c.k - 1
  }

  /** The elements taken so far are the first ones of the result. */
  predicate HalfOk(c: Config, phase: Phase, start: nat, at: nat, got: seq<Work>) {
    && HalfOffset(c, start) && at <= start && |got| == start - at
    && phase.Done? && phase.op == PopBackHalf && phase.ret.Items?
    && |phase.ret.items| == start + 1
    && got == phase.ret.items[..start - at]
  }

  /** The elements of the two sides never overlap and the occupied range fits the array. */
  predicate RangeOk(c: Config, s: State, m: Claim) {
    && m.b <= m.f
    && (HalfTaking(s.remote) ==> s.remote.at <= s.remote.start < c.k)
    && Top(s.owner, m) <= Base(s.remote, m) + c.k
    && (OwnerPushing(s.owner) && RemotePushing(s.remote) ==> m.f - m.b >= 2)
    && (s.owner.PopStoreFront? && (s.remote.BackPopStoreBack? || s.remote.HalfStoreBack?) ==> m.f - m.b < c.k)
  }

  ghost predicate CellsOk(c: Config, s: State, d: Deque, m: Claim)
    requires WellFormed(c, s) && |d.q| == m.f - m.b
  {
    forall i :: Base(s.remote, m) <= i < Base(s.remote, m) + c.k ==> CellOk(c, s, d, m, i)
  }

  /** The part of the simulation relation that is about shared state. */
  ghost predicate Core(c: Config, s: State, d: Deque, m: Claim) {
    && WellFormed(c, s)
    && |d.q| == m.f - m.b
    && RangeOk(c, s, m)
    && EndsOk(s, d.q)
    && CellsOk(c, s, d, m)
  }

  /** The simulation relation. */
  ghost predicate Rep(c: Config, s: State, d: Deque, m: Claim) {
    && Core(c, s, d, m)
    && OwnerOk(c, s.front, s.owner, d.owner, m.f)
    && RemoteOk(c, s.back, s.remote, d.remote, m.b)
  }

  ghost predicate OwnerRep(c: Config, s: State, d: Deque, m: Claim) {
    Core(c, s, d, m) && OwnerOk(c, s.front, s.owner, d.owner, m.f)
  }

  ghost predicate RemoteRep(c: Config, s: State, d: Deque, m: Claim) {
    Core(c, s, d, m) && RemoteOk(c, s.back, s.remote, d.remote, m.b)
  }
}
