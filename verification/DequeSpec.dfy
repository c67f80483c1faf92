module Prelude {
  datatype Option<+T> = None | Some(value: T)

  /** An opaque payload: the queues only move it, as they do with a task pointer. */
  type Work = int

  function Reverse<T>(s: seq<T>): (r: seq<T>)
    ensures |r| == |s|
    ensures forall i :: 0 <= i < |s| ==> r[i] == s[|s| - 1 - i]
  {
    seq(|s|, i requires 0 <= i < |s| => s[|s| - 1 - i])
  }
}

/** The reference object: a bounded double-ended queue whose operations take effect in one atomic step
    somewhere between their call and their return. `q[0]` is the back end, the last element the front
    end. One thread, the owner, works at the front; one remote at a time works at the back. */
module DequeSpec {
  import opened Prelude

  datatype Thread = Owner | Remote

  datatype Op = PushFront(w: Work) | PopFront | PushBack(w: Work) | PopBack | PopBackHalf

  datatype Ret = Stored(ok: bool) | Item(item: Option<Work>) | Items(items: seq<Work>)

  datatype Phase = Idle | Pending(op: Op) | Done(op: Op, ret: Ret)

  datatype Deque = Deque(q: seq<Work>, owner: Phase, remote: Phase)

  datatype Event = Call(t: Thread, op: Op) | Return(t: Thread, op: Op, ret: Ret) | Internal

  predicate OwnerOp(op: Op) {
    op.PushFront? || op.PopFront?
  }

  /** How many elements an operation that has taken effect but not returned has taken out. */
  function Removing(p: Phase): nat {
    match p
    case Done(_, Item(Some(_))) => 1
    case Done(_, Items(items)) => |items|
    case _ => 0
  }

  /** The operation has put an element in and has not returned yet. */
  predicate Inserting(p: Phase) {
    p.Done? && p.ret == Stored(true)
  }

  /** What an operation does to the contents `q` at the instant it takes effect. A push may fail only
      when the elements in the queue, with those that the other side is still taking out, fill all k
      places; a pop may come back empty-handed only when the queue is empty or its one element is still
      being put in by the other side. */
  predicate Effect(k: nat, op: Op, ret: Ret, q: seq<Work>, q': seq<Work>, other: Phase) {
    match (op, ret)
    case (PushFront(w), Stored(true)) => |q| < k && q' == q + [w]
    case (PushBack(w), Stored(true)) => |q| < k && q' == [w] + q
    case (PushFront(_), Stored(false)) => q' == q && |q| + Removing(other) >= k
    case (PushBack(_), Stored(false)) => q' == q && |q| + Removing(other) >= k
    case (PopFront, Item(Some(w))) => |q| > 0 && w == q[|q| - 1] && q' == q[..|q| - 1]
    case (PopBack, Item(Some(w))) => |q| > 0 && w == q[0] && q' == q[1..]
    case (PopFront, Item(None)) => q' == q && Unavailable(q, other)
    case (PopBack, Item(None)) => q' == q && Unavailable(q, other)
    case (PopBackHalf, Items(items)) =>
      if items == [] then q' == q && Unavailable(q, other)
      else |items| <= |q| && |items| <= (k + 1) / 2 && items == Reverse(q[..|items|]) && q' == q[|items|..]
    case _ => false
  }

  predicate Unavailable(q: seq<Work>, other: Phase) {
    |q| == 0 || (|q| == 1 && Inserting(other))
  }

  predicate TakesEffect(k: nat, t: Thread, d: Deque, d': Deque) {
    match t
    case Owner =>
      && d.owner.Pending? && d'.owner.Done? && d'.owner.op == d.owner.op && d'.remote == d.remote
      && Effect(k, d.owner.op, d'.owner.ret, d.q, d'.q, d.remote)
    case Remote =>
      && d.remote.Pending? && d'.remote.Done? && d'.remote.op == d.remote.op && d'.owner == d.owner
      && Effect(k, d.remote.op, d'.remote.ret, d.q, d'.q, d.owner)
  }

  predicate Step(k: nat, d: Deque, e: Event, d': Deque) {
    match e
    case Call(Owner, op) => OwnerOp(op) && d.owner == Idle && d' == d.(owner := Pending(op))
    case Call(Remote, op) => !OwnerOp(op) && d.remote == Idle && d' == d.(remote := Pending(op))
    case Return(Owner, op, ret) => d.owner == Done(op, ret) && d' == d.(owner := Idle)
    case Return(Remote, op, ret) => d.remote == Done(op, ret) && d' == d.(remote := Idle)
    case Internal => d' == d || TakesEffect(k, Owner, d, d') || TakesEffect(k, Remote, d, d')
  }

  const EMPTY := Deque([], Idle, Idle)

  ghost predicate IsRun(k: nat, run: seq<Deque>, events: seq<Event>) {
    && |run| == |events| + 1
    && run[0] == EMPTY
    && forall i :: 0 <= i < |events| ==> Step(k, run[i], events[i], run[i + 1])
  }
}
