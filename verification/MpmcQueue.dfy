/** The ticket queue as a class, run by one thread at a time: try_emplace and try_pop behave like a bounded
    first-in first-out sequence. */
module MpmcQueueClass {
  import opened Prelude
  import opened Modular
  import opened TicketQueue

  /** The slot of ticket x when no operation is under way. */
  function AtRest(cap: nat, head: nat, tail: nat, contents: seq<Work>, x: nat): Slot
    requires cap > 0 && tail <= x && head == tail + |contents|
  {
    if x < head then Slot(2 * Turn(cap, x) + 1, Some(contents[x - tail])) else Slot(2 * Turn(cap, x), None)
  }

  /** Tickets less than a capacity apart use different slots. */
  lemma SlotsApart(cap: nat, x: nat, y: nat)
    requires cap > 0 && x != y && -(cap as int) < x - y < cap
    ensures Idx(cap, x) != Idx(cap, y)
  {
    if Idx(cap, x) == Idx(cap, y) {
      RemainderInjective(x, y, cap);
    }
  }

  lemma NextRound(cap: nat, x: nat)
    requires cap > 0
    ensures Idx(cap, x + cap) == Idx(cap, x) && Turn(cap, x + cap) == Turn(cap, x) + 1
  {
    PreviousTicket(cap, x + cap);
  }

  class MpmcQueue {
    const cap: nat
    var head: nat
    var tail: nat
    const slots: array<Slot>
    ghost var contents: seq<Work>

    ghost predicate Valid()
      reads this, slots
    {
      && cap > 0 && slots.Length == cap
      && head == tail + |contents| && |contents| <= cap
      && forall x: nat :: tail <= x < tail + cap ==> slots[Idx(cap, x)] == AtRest(cap, head, tail, contents, x)
    }

    constructor (capacity: nat)
      requires capacity >= 1
      ensures Valid() && cap == capacity && contents == [] && fresh(slots)
    {
      cap := capacity;
      head, tail := 0, 0;
      contents := [];
      slots := new Slot[capacity](_ => Slot(0, None));
      new;
      forall x: nat | x < cap
        ensures Turn(cap, x) == 0
      {
        FirstTurn(cap, x);
      }
    }

    method TryEmplace(w: Work) returns (ok: bool)
      requires Valid()
      modifies this, slots
      ensures Valid()
      ensures ok == (|old(contents)| < cap)
      ensures contents == if ok then old(contents) + [w] else old(contents)
    {
      var h := head;
      var j := Idx(cap, h);
      if |contents| == cap {
        NextRound(cap, tail);
        assert slots[Idx(cap, tail)] == AtRest(cap, head, tail, contents, tail);
      }
      if 2 * Turn(cap, h) != slots[j].turn {
        return false;
      }
      head := h + 1;
      slots[j] := slots[j].(item := Some(w));
      slots[j] := slots[j].(turn := 2 * Turn(cap, h) + 1);
      contents := contents + [w];
      forall x: nat | tail <= x < tail + cap
        ensures slots[Idx(cap, x)] == AtRest(cap, head, tail, contents, x)
      {
        if x != h {
          SlotsApart(cap, x, h);
        }
      }
      return true;
    }

    method TryPop() returns (item: Option<Work>)
      requires Valid()
      modifies this, slots
      ensures Valid()
      ensures item == if old(contents) == [] then None else Some(old(contents)[0])
      ensures contents == if old(contents) == [] then [] else old(contents)[1..]
    {
      var t := tail;
      var j := Idx(cap, t);
      assert slots[j] == AtRest(cap, head, tail, contents, t);
      if 2 * Turn(cap, t) + 1 != slots[j].turn {
        return None;
      }
      tail := t + 1;
      item := slots[j].item;
      slots[j] := slots[j].(item := None);
      slots[j] := slots[j].(turn := 2 * Turn(cap, t) + 2);
      ghost var before := contents;
      contents := contents[1..];
      forall x: nat | tail <= x < tail + cap
        ensures slots[Idx(cap, x)] == AtRest(cap, head, tail, contents, x)
      {
        if x == t + cap {
          NextRound(cap, t);
        } else {
          SlotsApart(cap, x, t);
        }
      }
    }
  }

  /** Constructs a queue, or reports a capacity below one where the source throws. */
  method Create(capacity: nat) returns (queue: Option<MpmcQueue>)
    ensures queue.None? <==> capacity < 1
    ensures queue.Some? ==> fresh(queue.value) && queue.value.Valid() && queue.value.cap == capacity && queue.value.contents == []
  {
    if capacity < 1 {
      return None;
    }
    var created := new MpmcQueue(capacity);
    return Some(created);
  }
}
