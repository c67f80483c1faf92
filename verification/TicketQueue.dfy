/** The multi-producer multi-consumer ticket queue (the mailbox), one atomic access per step, for any
    number of threads that mix blocking and try operations. */
module TicketQueue {
  import opened Prelude
  import opened Modular

  /** `item` is what the slot's storage holds, if an object is constructed there. */
  datatype Slot = Slot(turn: nat, item: Option<Work>)

  /** A thread's program counter, named after the access it performs next. */
  datatype Pc =
    | Idle
    | PushTicket(w: Work)
    | PushWait(w: Work, ticket: nat)
    | PushConstruct(w: Work, ticket: nat)
    | PushStoreTurn(w: Work, ticket: nat)
    | TryPushLoad(w: Work)
    | TryPushTurn(w: Work, ticket: nat)
    | TryPushCas(w: Work, ticket: nat)
    | TryPushReload(w: Work, ticket: nat)
    | PopTicket
    | PopWait(ticket: nat)
    | PopMove(ticket: nat)
    | PopDestroy(ticket: nat, w: Work)
    | PopStoreTurn(ticket: nat, w: Work)
    | TryPopLoad
    | TryPopTurn(ticket: nat)
    | TryPopCas(ticket: nat)
    | TryPopReload(ticket: nat)

  datatype State = State(head: nat, tail: nat, slots: seq<Slot>, pcs: seq<Pc>)

  datatype Event =
    | Call
    | TookPush(ticket: nat, w: Work)
    | TookPop(ticket: nat)
    | Pushed(ticket: nat)
    | Popped(ticket: nat, w: Work)
    | PushFailed(ticket: nat)
    | PopFailed(ticket: nat)
    | Internal

  function Idx(cap: nat, i: nat): (j: nat)
    requires cap > 0
    ensures j < cap
  {
    i % cap
  }

  function Turn(cap: nat, i: nat): nat
    requires cap > 0
  {
    i / cap
  }

  predicate WellFormed(cap: nat, s: State) {
    cap > 0 && |s.slots| == cap
  }

  function SlotOf(cap: nat, s: State, ticket: nat): Slot
    requires WellFormed(cap, s)
  {
    s.slots[Idx(cap, ticket)]
  }

  function Goto(s: State, p: nat, pc: Pc): State
    requires p < |s.pcs|
  {
    s.(pcs := s.pcs[p := pc])
  }

  function Write(cap: nat, s: State, ticket: nat, slot: Slot): State
    requires WellFormed(cap, s)
  {
    s.(slots := s.slots[Idx(cap, ticket) := slot])
  }

  predicate Entry(pc: Pc) {
    pc.PushTicket? || pc.TryPushLoad? || pc.PopTicket? || pc.TryPopLoad?
  }

  /** emplace and try_emplace. */
  function PushStep(cap: nat, s: State, p: nat): (State, Event)
    requires WellFormed(cap, s) && p < |s.pcs| && InPush(s.pcs[p])
  {
    match s.pcs[p]
    case PushTicket(w) => (Goto(s, p, PushWait(w, s.head)).(head := s.head + 1), TookPush(s.head, w))
    case PushWait(w, h) =>
      if 2 * Turn(cap, h) != SlotOf(cap, s, h).turn then (s, Internal)
      else (Goto(s, p, PushConstruct(w, h)), Internal)
    case PushConstruct(w, h) =>
      (Write(cap, Goto(s, p, PushStoreTurn(w, h)), h, SlotOf(cap, s, h).(item := Some(w))), Internal)
    case PushStoreTurn(w, h) =>
      (Write(cap, Goto(s, p, Idle), h, SlotOf(cap, s, h).(turn := 2 * Turn(cap, h) + 1)), Pushed(h))
    case TryPushLoad(w) => (Goto(s, p, TryPushTurn(w, s.head)), Internal)
    case TryPushTurn(w, h) =>
      if 2 * Turn(cap, h) == SlotOf(cap, s, h).turn then (Goto(s, p, TryPushCas(w, h)), Internal)
      else (Goto(s, p, TryPushReload(w, h)), Internal)
    case TryPushCas(w, h) =>
      if s.head == h then (Goto(s, p, PushConstruct(w, h)).(head := h + 1), TookPush(h, w))
      else (Goto(s, p, TryPushTurn(w, s.head)), Internal)
    case TryPushReload(w, h) =>
      if s.head == h then (Goto(s, p, Idle), PushFailed(h))
      else (Goto(s, p, TryPushTurn(w, s.head)), Internal)
  }

  /** pop and try_pop. */
  function PopStep(cap: nat, s: State, p: nat): (State, Event)
    requires WellFormed(cap, s) && p < |s.pcs| && InPop(s.pcs[p])
  {
    match s.pcs[p]
    case PopTicket => (Goto(s, p, PopWait(s.tail)).(tail := s.tail + 1), TookPop(s.tail))
    case PopWait(t) =>
      if 2 * Turn(cap, t) + 1 != SlotOf(cap, s, t).turn then (s, Internal)
      else (Goto(s, p, PopMove(t)), Internal)
    case PopMove(t) =>
      var item := SlotOf(cap, s, t).item;
      (Goto(s, p, PopDestroy(t, if item.Some? then item.value else 0)), Internal)
    case PopDestroy(t, w) =>
      (Write(cap, Goto(s, p, PopStoreTurn(t, w)), t, SlotOf(cap, s, t).(item := None)), Internal)
    case PopStoreTurn(t, w) =>
      (Write(cap, Goto(s, p, Idle), t, SlotOf(cap, s, t).(turn := 2 * Turn(cap, t) + 2)), Popped(t, w))
    case TryPopLoad => (Goto(s, p, TryPopTurn(s.tail)), Internal)
    case TryPopTurn(t) =>
      if 2 * Turn(cap, t) + 1 == SlotOf(cap, s, t).turn then (Goto(s, p, TryPopCas(t)), Internal)
      else (Goto(s, p, TryPopReload(t)), Internal)
    case TryPopCas(t) =>
      if s.tail == t then (Goto(s, p, PopMove(t)).(tail := t + 1), TookPop(t))
      else (Goto(s, p, TryPopTurn(s.tail)), Internal)
    case TryPopReload(t) =>
      if s.tail == t then (Goto(s, p, Idle), PopFailed(t))
      else (Goto(s, p, TryPopTurn(s.tail)), Internal)
  }

  predicate InPush(pc: Pc) {
    pc.PushTicket? || pc.PushWait? || pc.PushConstruct? || pc.PushStoreTurn?
    || pc.TryPushLoad? || pc.TryPushTurn? || pc.TryPushCas? || pc.TryPushReload?
  }

  predicate InPop(pc: Pc) {
    pc.PopTicket? || pc.PopWait? || pc.PopMove? || pc.PopDestroy? || pc.PopStoreTurn?
    || pc.TryPopLoad? || pc.TryPopTurn? || pc.TryPopCas? || pc.TryPopReload?
  }

  predicate Init(cap: nat, s: State) {
    && WellFormed(cap, s) && s.head == 0 && s.tail == 0
    && (forall j :: 0 <= j < cap ==> s.slots[j] == Slot(0, None))
    && (forall p :: 0 <= p < |s.pcs| ==> s.pcs[p] == Idle)
  }

  /** Thread p performs one step. */
  predicate Next(cap: nat, s: State, p: nat, e: Event, s': State) {
    && WellFormed(cap, s) && p < |s.pcs|
    && if s.pcs[p].Idle? then |s'.pcs| == |s.pcs| && e == Call && Entry(s'.pcs[p]) && s' == Goto(s, p, s'.pcs[p])
       else (s', e) == if InPush(s.pcs[p]) then PushStep(cap, s, p) else PopStep(cap, s, p)
  }

  // ----- tickets -----

  lemma TicketUnique(cap: nat, x: nat, y: nat)
    requires cap > 0 && Idx(cap, x) == Idx(cap, y) && Turn(cap, x) == Turn(cap, y)
    ensures x == y
  {
  }

  lemma PreviousTicket(cap: nat, x: nat)
    requires 0 < cap <= x
    ensures Idx(cap, x - cap) == Idx(cap, x) && Turn(cap, x - cap) == Turn(cap, x) - 1
  {
    assert x - cap == (x / cap - 1) * cap + x % cap;
    RemainderUnique(x - cap, cap, x / cap - 1, x % cap);
  }

  lemma FirstTurn(cap: nat, x: nat)
    requires cap > 0
    ensures Turn(cap, x) == 0 <==> x < cap
  {
    assert x == Turn(cap, x) * cap + x % cap;
    assert Turn(cap, x) >= 1 ==> Turn(cap, x) * cap >= cap;
  }

  // ----- the invariant -----

  /** The ticket a thread has taken and not yet finished with. */
  function HeldPush(pc: Pc): Option<nat> {
    match pc
    case PushWait(_, h) => Some(h)
    case PushConstruct(_, h) => Some(h)
    case PushStoreTurn(_, h) => Some(h)
    case _ => None
  }

  function HeldPop(pc: Pc): Option<nat> {
    match pc
    case PopWait(t) => Some(t)
    case PopMove(t) => Some(t)
    case PopDestroy(t, _) => Some(t)
    case PopStoreTurn(t, _) => Some(t)
    case _ => None
  }

  ghost predicate PushHeldBySome(s: State, ticket: nat) {
    exists p :: 0 <= p < |s.pcs| && HeldPush(s.pcs[p]) == Some(ticket)
  }

  ghost predicate PopHeldBySome(s: State, ticket: nat) {
    exists p :: 0 <= p < |s.pcs| && HeldPop(s.pcs[p]) == Some(ticket)
  }

  ghost predicate ConstructedBySome(s: State, ticket: nat) {
    exists p :: 0 <= p < |s.pcs| && s.pcs[p].PushStoreTurn? && s.pcs[p].ticket == ticket
  }

  ghost predicate DestroyedBySome(s: State, ticket: nat) {
    exists p :: 0 <= p < |s.pcs| && s.pcs[p].PopStoreTurn? && s.pcs[p].ticket == ticket
  }

  /** `log` lists the values pushed, by ticket. A ticket's slot has turn at most 2n before the push of the
      ticket is published and at least 2n + 1 after; at least 2n + 2 once it is popped. */
  ghost predicate TicketOk(cap: nat, s: State, log: seq<Work>, x: nat)
    requires WellFormed(cap, s)
  {
    var slot := SlotOf(cap, s, x);
    var n := Turn(cap, x);
    && (x < s.head && slot.turn <= 2 * n ==> PushHeldBySome(s, x))
    && (x < s.tail && slot.turn <= 2 * n + 1 ==> PopHeldBySome(s, x))
    && (x >= s.head ==> slot.turn <= 2 * n)
    && (x >= s.tail ==> slot.turn <= 2 * n + 1)
    && (slot.turn == 2 * n + 1 ==> x < |log| && (slot.item == Some(log[x]) || DestroyedBySome(s, x)))
    && (slot.turn == 2 * n ==> slot.item == None || ConstructedBySome(s, x))
  }

  predicate PushThreadOk(cap: nat, s: State, log: seq<Work>, pc: Pc)
    requires WellFormed(cap, s) && |log| == s.head
  {
    match pc
    case PushWait(w, h) => h < s.head && w == log[h] && SlotOf(cap, s, h).turn <= 2 * Turn(cap, h)
    case PushConstruct(w, h) => h < s.head && w == log[h] && SlotOf(cap, s, h) == Slot(2 * Turn(cap, h), None)
    case PushStoreTurn(w, h) => h < s.head && w == log[h] && SlotOf(cap, s, h) == Slot(2 * Turn(cap, h), Some(w))
    case TryPushTurn(_, h) => h <= s.head
    case TryPushCas(_, h) => h <= s.head && SlotOf(cap, s, h).turn >= 2 * Turn(cap, h)
    case TryPushReload(_, h) => h <= s.head
    case _ => true
  }

  predicate PopThreadOk(cap: nat, s: State, log: seq<Work>, pc: Pc)
    requires WellFormed(cap, s) && |log| == s.head
  {
    match pc
    case PopWait(t) => t < s.tail && SlotOf(cap, s, t).turn <= 2 * Turn(cap, t) + 1
    case PopMove(t) => t < s.tail && t < s.head && SlotOf(cap, s, t) == Slot(2 * Turn(cap, t) + 1, Some(log[t]))
    case PopDestroy(t, w) => t < s.tail && t < s.head && w == log[t] && SlotOf(cap, s, t) == Slot(2 * Turn(cap, t) + 1, Some(w))
    case PopStoreTurn(t, w) => t < s.tail && t < s.head && w == log[t] && SlotOf(cap, s, t) == Slot(2 * Turn(cap, t) + 1, None)
    case TryPopTurn(t) => t <= s.tail
    case TryPopCas(t) => t <= s.tail && SlotOf(cap, s, t).turn >= 2 * Turn(cap, t) + 1
    case TryPopReload(t) => t <= s.tail
    case _ => true
  }

  ghost predicate Unique(s: State) {
    && (forall p, q :: 0 <= p < |s.pcs| && 0 <= q < |s.pcs| && HeldPush(s.pcs[p]).Some? && HeldPush(s.pcs[p]) == HeldPush(s.pcs[q]) ==>
          p == q)
    && (forall p, q :: 0 <= p < |s.pcs| && 0 <= q < |s.pcs| && HeldPop(s.pcs[p]).Some? && HeldPop(s.pcs[p]) == HeldPop(s.pcs[q]) ==>
          p == q)
  }

  ghost predicate Inv(cap: nat, s: State, log: seq<Work>) {
    && WellFormed(cap, s) && |log| == s.head
    && (forall x: nat :: TicketOk(cap, s, log, x))
    && (forall p :: 0 <= p < |s.pcs| ==> PushThreadOk(cap, s, log, s.pcs[p]) && PopThreadOk(cap, s, log, s.pcs[p]))
    && Unique(s)
  }

  // ----- every step keeps the invariant -----

  lemma StartsOk(cap: nat, s: State)
    requires Init(cap, s)
    ensures Inv(cap, s, [])
  {
    forall x: nat
      ensures TicketOk(cap, s, [], x)
    {
      assert s.slots[Idx(cap, x)] == Slot(0, None);
    }
  }

  /** One thread moves: every other holder of ticket x is still there. */
  lemma OthersHold(s: State, p: nat, s': State, x: nat)
    requires p < |s.pcs| && |s'.pcs| == |s.pcs| && s'.pcs == s.pcs[p := s'.pcs[p]]
    ensures PushHeldBySome(s, x) && HeldPush(s.pcs[p]) != Some(x) ==> PushHeldBySome(s', x)
    ensures PopHeldBySome(s, x) && HeldPop(s.pcs[p]) != Some(x) ==> PopHeldBySome(s', x)
    ensures HeldPush(s'.pcs[p]) == Some(x) ==> PushHeldBySome(s', x)
    ensures HeldPop(s'.pcs[p]) == Some(x) ==> PopHeldBySome(s', x)
  {
    if PushHeldBySome(s, x) && HeldPush(s.pcs[p]) != Some(x) {
      var q :| 0 <= q < |s.pcs| && HeldPush(s.pcs[q]) == Some(x);
      assert s'.pcs[q] == s.pcs[q];
    }
    if PopHeldBySome(s, x) && HeldPop(s.pcs[p]) != Some(x) {
      var q :| 0 <= q < |s.pcs| && HeldPop(s.pcs[q]) == Some(x);
      assert s'.pcs[q] == s.pcs[q];
    }
  }

  lemma OthersInside(s: State, p: nat, s': State, x: nat)
    requires p < |s.pcs| && |s'.pcs| == |s.pcs| && s'.pcs == s.pcs[p := s'.pcs[p]]
    ensures ConstructedBySome(s, x) && !s.pcs[p].PushStoreTurn? ==> ConstructedBySome(s', x)
    ensures DestroyedBySome(s, x) && !s.pcs[p].PopStoreTurn? ==> DestroyedBySome(s', x)
    ensures s'.pcs[p].PushStoreTurn? && s'.pcs[p].ticket == x ==> ConstructedBySome(s', x)
    ensures s'.pcs[p].PopStoreTurn? && s'.pcs[p].ticket == x ==> DestroyedBySome(s', x)
  {
    if ConstructedBySome(s, x) && !s.pcs[p].PushStoreTurn? {
      var q :| 0 <= q < |s.pcs| && s.pcs[q].PushStoreTurn? && s.pcs[q].ticket == x;
      assert s'.pcs[q] == s.pcs[q];
    }
    if DestroyedBySome(s, x) && !s.pcs[p].PopStoreTurn? {
      var q :| 0 <= q < |s.pcs| && s.pcs[q].PopStoreTurn? && s.pcs[q].ticket == x;
      assert s'.pcs[q] == s.pcs[q];
    }
  }

  /** A step that writes nothing shared and keeps its tickets. */
  lemma QuietStep(cap: nat, s: State, log: seq<Work>, p: nat, s': State)
    requires Inv(cap, s, log) && p < |s.pcs| && |s'.pcs| == |s.pcs| && s' == Goto(s, p, s'.pcs[p])
    requires HeldPush(s'.pcs[p]) == HeldPush(s.pcs[p]) && HeldPop(s'.pcs[p]) == HeldPop(s.pcs[p])
    requires !s.pcs[p].PushStoreTurn? && !s.pcs[p].PopStoreTurn?
    requires PushThreadOk(cap, s, log, s'.pcs[p]) && PopThreadOk(cap, s, log, s'.pcs[p])
    ensures Inv(cap, s', log)
  {
    forall x: nat
      ensures TicketOk(cap, s', log, x)
    {
      OthersHold(s, p, s', x);
      OthersInside(s, p, s', x);
      assert TicketOk(cap, s, log, x);
    }
  }

  lemma TakePushTicketAt(cap: nat, s: State, log: seq<Work>, p: nat, w: Work, s': State, x: nat)
    requires Inv(cap, s, log) && p < |s.pcs| && |s'.pcs| == |s.pcs|
    requires s' == Goto(s, p, s'.pcs[p]).(head := s.head + 1)
    requires HeldPush(s.pcs[p]).None? && HeldPop(s.pcs[p]).None?
    requires s'.pcs[p] == PushWait(w, s.head) || s'.pcs[p] == PushConstruct(w, s.head)
    ensures TicketOk(cap, s', log + [w], x)
  {
    OthersHold(s, p, s', x);
    OthersInside(s, p, s', x);
    assert TicketOk(cap, s, log, x);
  }

  /** Taking the next push ticket, by fetch_add or by a successful CAS. */
  lemma TakePushTicket(cap: nat, s: State, log: seq<Work>, p: nat, w: Work, s': State)
    requires Inv(cap, s, log) && p < |s.pcs| && |s'.pcs| == |s.pcs|
    requires s' == Goto(s, p, s'.pcs[p]).(head := s.head + 1)
    requires HeldPush(s.pcs[p]).None? && HeldPop(s.pcs[p]).None?
    requires s'.pcs[p] == PushWait(w, s.head)
      || (s'.pcs[p] == PushConstruct(w, s.head) && SlotOf(cap, s, s.head).turn == 2 * Turn(cap, s.head))
    ensures Inv(cap, s', log + [w])
  {
    assert TicketOk(cap, s, log, s.head);
    forall x: nat
      ensures TicketOk(cap, s', log + [w], x)
    {
      TakePushTicketAt(cap, s, log, p, w, s', x);
    }
  }

  lemma TakePopTicketAt(cap: nat, s: State, log: seq<Work>, p: nat, s': State, x: nat)
    requires Inv(cap, s, log) && p < |s.pcs| && |s'.pcs| == |s.pcs|
    requires s' == Goto(s, p, s'.pcs[p]).(tail := s.tail + 1)
    requires HeldPush(s.pcs[p]).None? && HeldPop(s.pcs[p]).None?
    requires s'.pcs[p] == PopWait(s.tail) || s'.pcs[p] == PopMove(s.tail)
    ensures TicketOk(cap, s', log, x)
  {
    OthersHold(s, p, s', x);
    OthersInside(s, p, s', x);
    assert TicketOk(cap, s, log, x);
  }

  lemma TakePopTicket(cap: nat, s: State, log: seq<Work>, p: nat, s': State)
    requires Inv(cap, s, log) && p < |s.pcs| && |s'.pcs| == |s.pcs|
    requires s' == Goto(s, p, s'.pcs[p]).(tail := s.tail + 1)
    requires HeldPush(s.pcs[p]).None? && HeldPop(s.pcs[p]).None?
    requires s'.pcs[p] == PopWait(s.tail)
      || (s'.pcs[p] == PopMove(s.tail) && SlotOf(cap, s, s.tail).turn == 2 * Turn(cap, s.tail) + 1)
    ensures Inv(cap, s', log)
  {
    assert TicketOk(cap, s, log, s.tail);
    forall x: nat
      ensures TicketOk(cap, s', log, x)
    {
      TakePopTicketAt(cap, s, log, p, s', x);
    }
  }

  /** The slot of a ticket, seen from another ticket or thread: a written slot matters only to tickets that
      share it, and those have another turn. */
  lemma OtherTicket(cap: nat, s: State, h: nat, slot: Slot, x: nat)
    requires WellFormed(cap, s)
    ensures Idx(cap, x) != Idx(cap, h) ==> SlotOf(cap, Write(cap, s, h, slot), x) == SlotOf(cap, s, x)
    ensures Idx(cap, x) == Idx(cap, h) ==> SlotOf(cap, Write(cap, s, h, slot), x) == slot && SlotOf(cap, s, x) == SlotOf(cap, s, h)
    ensures Idx(cap, x) == Idx(cap, h) && x != h ==> Turn(cap, x) != Turn(cap, h)
  {
  }

  lemma PushWritesTickets(cap: nat, s: State, log: seq<Work>, p: nat, s': State)
    requires Inv(cap, s, log) && p < |s.pcs|
    requires s.pcs[p].PushConstruct? || s.pcs[p].PushStoreTurn?
    requires s' == PushStep(cap, s, p).0
    ensures forall x: nat :: TicketOk(cap, s', log, x)
  {
    var h := s.pcs[p].ticket;
    assert PushThreadOk(cap, s, log, s.pcs[p]) && PopThreadOk(cap, s, log, s.pcs[p]);
    forall x: nat
      ensures TicketOk(cap, s', log, x)
    {
      OthersHold(s, p, s', x);
      OthersInside(s, p, s', x);
      assert TicketOk(cap, s, log, x);
      OtherTicket(cap, s, h, SlotOf(cap, s', h), x);
    }
  }

  lemma PushWritesThread(cap: nat, s: State, log: seq<Work>, p: nat, s': State, q: nat)
    requires Inv(cap, s, log) && p < |s.pcs| && q < |s.pcs|
    requires s.pcs[p].PushConstruct? || s.pcs[p].PushStoreTurn?
    requires s' == PushStep(cap, s, p).0
    ensures WellFormed(cap, s') && PushThreadOk(cap, s', log, s'.pcs[q]) && PopThreadOk(cap, s', log, s'.pcs[q])
  {
    var h := s.pcs[p].ticket;
    assert PushThreadOk(cap, s, log, s.pcs[q]) && PopThreadOk(cap, s, log, s.pcs[q]);
    assert PushThreadOk(cap, s, log, s.pcs[p]) && PopThreadOk(cap, s, log, s.pcs[p]);
    if q != p && s.pcs[q] != Idle && !Entry(s.pcs[q]) {
      OtherTicket(cap, s, h, SlotOf(cap, s', h), s.pcs[q].ticket);
    }
  }

  lemma PushWrites(cap: nat, s: State, log: seq<Work>, p: nat, s': State)
    requires Inv(cap, s, log) && p < |s.pcs|
    requires s.pcs[p].PushConstruct? || s.pcs[p].PushStoreTurn?
    requires s' == PushStep(cap, s, p).0
    ensures Inv(cap, s', log)
  {
    PushWritesTickets(cap, s, log, p, s');
    forall q | 0 <= q < |s'.pcs|
      ensures PushThreadOk(cap, s', log, s'.pcs[q]) && PopThreadOk(cap, s', log, s'.pcs[q])
    {
      PushWritesThread(cap, s, log, p, s', q);
    }
  }

  lemma PopWritesTickets(cap: nat, s: State, log: seq<Work>, p: nat, s': State)
    requires Inv(cap, s, log) && p < |s.pcs|
    requires s.pcs[p].PopDestroy? || s.pcs[p].PopStoreTurn?
    requires s' == PopStep(cap, s, p).0
    ensures forall x: nat :: TicketOk(cap, s', log, x)
  {
    var t := s.pcs[p].ticket;
    assert PushThreadOk(cap, s, log, s.pcs[p]) && PopThreadOk(cap, s, log, s.pcs[p]);
    forall x: nat
      ensures TicketOk(cap, s', log, x)
    {
      OthersHold(s, p, s', x);
      OthersInside(s, p, s', x);
      assert TicketOk(cap, s, log, x);
      OtherTicket(cap, s, t, SlotOf(cap, s', t), x);
    }
  }

  lemma PopWritesThread(cap: nat, s: State, log: seq<Work>, p: nat, s': State, q: nat)
    requires Inv(cap, s, log) && p < |s.pcs| && q < |s.pcs|
    requires s.pcs[p].PopDestroy? || s.pcs[p].PopStoreTurn?
    requires s' == PopStep(cap, s, p).0
    ensures WellFormed(cap, s') && PushThreadOk(cap, s', log, s'.pcs[q]) && PopThreadOk(cap, s', log, s'.pcs[q])
  {
    var t := s.pcs[p].ticket;
    assert PushThreadOk(cap, s, log, s.pcs[q]) && PopThreadOk(cap, s, log, s.pcs[q]);
    assert PushThreadOk(cap, s, log, s.pcs[p]) && PopThreadOk(cap, s, log, s.pcs[p]);
    if q != p && s.pcs[q] != Idle && !Entry(s.pcs[q]) {
      OtherTicket(cap, s, t, SlotOf(cap, s', t), s.pcs[q].ticket);
    }
  }

  lemma PopWrites(cap: nat, s: State, log: seq<Work>, p: nat, s': State)
    requires Inv(cap, s, log) && p < |s.pcs|
    requires s.pcs[p].PopDestroy? || s.pcs[p].PopStoreTurn?
    requires s' == PopStep(cap, s, p).0
    ensures Inv(cap, s', log)
  {
    PopWritesTickets(cap, s, log, p, s');
    forall q | 0 <= q < |s'.pcs|
      ensures PushThreadOk(cap, s', log, s'.pcs[q]) && PopThreadOk(cap, s', log, s'.pcs[q])
    {
      PopWritesThread(cap, s, log, p, s', q);
    }
  }

  /** The log grows by the value of the ticket a step takes. */
  function Logged(log: seq<Work>, e: Event): seq<Work> {
    if e.TookPush? then log + [e.w] else log
  }

  lemma PushKeeps(cap: nat, s: State, log: seq<Work>, p: nat)
    requires Inv(cap, s, log) && p < |s.pcs| && InPush(s.pcs[p])
    ensures Inv(cap, PushStep(cap, s, p).0, Logged(log, PushStep(cap, s, p).1))
  {
    var s' := PushStep(cap, s, p).0;
    assert PushThreadOk(cap, s, log, s.pcs[p]);
    match s.pcs[p]
    case PushTicket(w) => TakePushTicket(cap, s, log, p, w, s');
    case PushWait(w, h) =>
      assert TicketOk(cap, s, log, h);
      if s' != s { QuietStep(cap, s, log, p, s'); }
    case PushConstruct(_, _) => PushWrites(cap, s, log, p, s');
    case PushStoreTurn(_, _) => PushWrites(cap, s, log, p, s');
    case TryPushCas(w, h) =>
      assert TicketOk(cap, s, log, h);
      if s.head == h { TakePushTicket(cap, s, log, p, w, s'); } else { QuietStep(cap, s, log, p, s'); }
    case _ => QuietStep(cap, s, log, p, s');
  }

  /** The steps of pop and try_pop that write nothing shared. */
  lemma PopQuietly(cap: nat, s: State, log: seq<Work>, p: nat)
    requires Inv(cap, s, log) && p < |s.pcs|
    requires var pc := s.pcs[p];
             pc.PopWait? || pc.PopMove? || pc.TryPopLoad? || pc.TryPopTurn? || pc.TryPopReload? || (pc.TryPopCas? && s.tail != pc.ticket)
    ensures Inv(cap, PopStep(cap, s, p).0, log)
  {
    var s' := PopStep(cap, s, p).0;
    assert PopThreadOk(cap, s, log, s.pcs[p]);
    if s.pcs[p].PopWait? {
      assert TicketOk(cap, s, log, s.pcs[p].ticket);
    }
    if s' != s {
      assert PopThreadOk(cap, s, log, s'.pcs[p]);
      QuietStep(cap, s, log, p, s');
    }
  }

  lemma PopKeeps(cap: nat, s: State, log: seq<Work>, p: nat)
    requires Inv(cap, s, log) && p < |s.pcs| && InPop(s.pcs[p])
    ensures Inv(cap, PopStep(cap, s, p).0, log)
  {
    var s' := PopStep(cap, s, p).0;
    match s.pcs[p]
    case PopTicket => TakePopTicket(cap, s, log, p, s');
    case PopDestroy(_, _) => PopWrites(cap, s, log, p, s');
    case PopStoreTurn(_, _) => PopWrites(cap, s, log, p, s');
    case TryPopCas(t) =>
      if s.tail == t {
        assert PopThreadOk(cap, s, log, s.pcs[p]);
        assert TicketOk(cap, s, log, t);
        TakePopTicket(cap, s, log, p, s');
      } else {
        PopQuietly(cap, s, log, p);
      }
    case _ => PopQuietly(cap, s, log, p);
  }

  lemma StepKeeps(cap: nat, s: State, log: seq<Work>, p: nat, e: Event, s': State)
    requires Inv(cap, s, log) && Next(cap, s, p, e, s')
    ensures Inv(cap, s', Logged(log, e))
  {
    if s.pcs[p].Idle? {
      QuietStep(cap, s, log, p, s');
    } else if InPush(s.pcs[p]) {
      PushKeeps(cap, s, log, p);
    } else {
      PopKeeps(cap, s, log, p);
    }
  }
}
