/** The reference object with any number of remote callers: a bounded double-ended queue whose operations,
    those that come back with nothing at once included, take effect in one atomic step between call and
    return. */
module ManyDeque {
  import opened Prelude
  import opened DequeSpec

  datatype Who = TheOwner | Caller(p: nat)

  datatype Many = Many(q: seq<Work>, owner: Phase, callers: seq<Phase>)

  datatype ManyEvent = Enter(t: Who, op: Op) | Leave(t: Who, op: Op, ret: Ret) | Silent

  predicate Present(d: Many, t: Who) {
    t.Caller? ==> t.p < |d.callers|
  }

  function PhaseOf(d: Many, t: Who): Phase {
    match t
    case TheOwner => d.owner
    case Caller(p) => if p < |d.callers| then d.callers[p] else Idle
  }

  function SetPhase(d: Many, t: Who, phase: Phase): Many
    requires Present(d, t)
  {
    match t
    case TheOwner => d.(owner := phase)
    case Caller(p) => d.(callers := d.callers[p := phase])
  }

  /** What a pop returns when it finds nothing. */
  function Nothing(op: Op): Ret {
    if op.PopBackHalf? then Items([]) else Item(None)
  }

  predicate Pops(op: Op) {
    op.PopFront? || op.PopBack? || op.PopBackHalf?
  }

  /** Other threads than t are still putting n elements in. */
  ghost predicate InFlight(d: Many, t: Who, n: nat) {
    exists us: set<Who> :: AllInserting(d, us) && t !in us && |us| == n
  }

  ghost predicate AllInserting(d: Many, us: set<Who>) {
    forall u :: u in us ==> Inserting(PhaseOf(d, u))
  }

  /** A pop may come back with nothing only when every element is still being put in; everything else is as
      for one remote, with some other thread on the other side. */
  ghost predicate ManyEffect(k: nat, op: Op, ret: Ret, d: Many, t: Who, q': seq<Work>) {
    if Pops(op) && ret == Nothing(op) then q' == d.q && InFlight(d, t, |d.q|)
    else exists u: Who :: u != t && Effect(k, op, ret, d.q, q', PhaseOf(d, u))
  }

  ghost predicate ManyTakesEffect(k: nat, d: Many, t: Who, op: Op, ret: Ret, d': Many) {
    && Present(d, t) && PhaseOf(d, t) == Pending(op)
    && ManyEffect(k, op, ret, d, t, d'.q)
    && d' == SetPhase(d, t, Done(op, ret)).(q := d'.q)
  }

  ghost predicate ManyStep(k: nat, d: Many, e: ManyEvent, d': Many) {
    match e
    case Enter(t, op) => Present(d, t) && (t.TheOwner? <==> OwnerOp(op)) && PhaseOf(d, t) == Idle && d' == SetPhase(d, t, Pending(op))
    case Leave(t, op, ret) => Present(d, t) && PhaseOf(d, t) == Done(op, ret) && d' == SetPhase(d, t, Idle)
    case Silent => d' == d || exists t: Who, op: Op, ret: Ret :: ManyTakesEffect(k, d, t, op, ret, d')
  }

  ghost predicate IsManyRun(k: nat, run: seq<Many>, events: seq<ManyEvent>) {
    && |run| == |events| + 1
    && run[0].q == [] && run[0].owner == Idle && (forall p :: p in run[0].callers ==> p == Idle)
    && forall i :: 0 <= i < |events| ==> ManyStep(k, run[i], events[i], run[i + 1])
  }
}
