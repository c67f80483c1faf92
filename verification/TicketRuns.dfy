/** What holds over whole runs of the ticket queue. */
module TicketRuns {
  import opened Prelude
  import opened Modular
  import opened TicketQueue

  /** `who[i]` is the thread that performs step i. */
  ghost predicate Execution(cap: nat, run: seq<State>, who: seq<nat>, events: seq<Event>) {
    && |run| == |events| + 1 && |who| == |events|
    && Init(cap, run[0])
    && forall i :: 0 <= i < |events| ==> Next(cap, run[i], who[i], events[i], run[i + 1])
  }

  /** The values pushed in the first i steps, in ticket order. */
  function Log(events: seq<Event>, i: nat): seq<Work>
    requires i <= |events|
  {
    if i == 0 then [] else Logged(Log(events, i - 1), events[i - 1])
  }

  lemma {:induction false} Reached(cap: nat, run: seq<State>, who: seq<nat>, events: seq<Event>, i: nat)
    requires Execution(cap, run, who, events) && i < |run|
    ensures Inv(cap, run[i], Log(events, i))
  {
    if i == 0 {
      StartsOk(cap, run[0]);
    } else {
      Reached(cap, run, who, events, i - 1);
      StepKeeps(cap, run[i - 1], Log(events, i - 1), who[i - 1], events[i - 1], run[i - 1 + 1]);
    }
  }

  // ----- one step at a time -----

  lemma StepMonotone(cap: nat, s: State, log: seq<Work>, p: nat, e: Event, s': State, x: nat)
    requires Inv(cap, s, log) && Next(cap, s, p, e, s')
    ensures s.head <= s'.head && s.tail <= s'.tail
    ensures WellFormed(cap, s') && SlotOf(cap, s, x).turn <= SlotOf(cap, s', x).turn
  {
    assert PushThreadOk(cap, s, log, s.pcs[p]) && PopThreadOk(cap, s, log, s.pcs[p]);
    if s.pcs[p].PushConstruct? || s.pcs[p].PushStoreTurn? || s.pcs[p].PopDestroy? || s.pcs[p].PopStoreTurn? {
      var h := s.pcs[p].ticket;
      OtherTicket(cap, s, h, SlotOf(cap, s', h), x);
    }
  }

  lemma LastMonotone(cap: nat, run: seq<State>, who: seq<nat>, events: seq<Event>, j: nat, x: nat)
    requires Execution(cap, run, who, events) && 0 < j < |run|
    ensures run[j - 1].head <= run[j].head && run[j - 1].tail <= run[j].tail
    ensures WellFormed(cap, run[j - 1]) && WellFormed(cap, run[j])
    ensures SlotOf(cap, run[j - 1], x).turn <= SlotOf(cap, run[j], x).turn
  {
    Reached(cap, run, who, events, j - 1);
    StepMonotone(cap, run[j - 1], Log(events, j - 1), who[j - 1], events[j - 1], run[j - 1 + 1], x);
  }

  lemma {:induction false} RunMonotone(cap: nat, run: seq<State>, who: seq<nat>, events: seq<Event>, i: nat, j: nat, x: nat)
    requires Execution(cap, run, who, events) && i <= j < |run|
    ensures run[i].head <= run[j].head && run[i].tail <= run[j].tail
    ensures WellFormed(cap, run[i]) && WellFormed(cap, run[j])
    ensures SlotOf(cap, run[i], x).turn <= SlotOf(cap, run[j], x).turn
    decreases j - i
  {
    Reached(cap, run, who, events, i);
    if i < j {
      RunMonotone(cap, run, who, events, i, j - 1, x);
      LastMonotone(cap, run, who, events, j, x);
    }
  }

  lemma PoppedStep(cap: nat, s: State, log: seq<Work>, p: nat, e: Event, s': State)
    requires Inv(cap, s, log) && Next(cap, s, p, e, s') && e.Popped?
    ensures e.ticket < |log| && e.w == log[e.ticket]
    ensures WellFormed(cap, s') && SlotOf(cap, s, e.ticket).turn == 2 * Turn(cap, e.ticket) + 1
    ensures SlotOf(cap, s', e.ticket).turn == 2 * Turn(cap, e.ticket) + 2
  {
    assert PopThreadOk(cap, s, log, s.pcs[p]);
    OtherTicket(cap, s, e.ticket, SlotOf(cap, s', e.ticket), e.ticket);
  }

  // ----- FIFO -----

  /** Push tickets are handed out in order, one each: ticket t went to the t-th push. */
  lemma TicketsInOrder(cap: nat, run: seq<State>, who: seq<nat>, events: seq<Event>, i: nat)
    requires Execution(cap, run, who, events) && i < |events|
    ensures events[i].TookPush? ==> events[i].ticket == |Log(events, i)|
    ensures events[i].TookPop? ==> events[i].ticket == run[i].tail && run[i + 1].tail == run[i].tail + 1
  {
    Reached(cap, run, who, events, i);
    assert Next(cap, run[i], who[i], events[i], run[i + 1]);
    assert PushThreadOk(cap, run[i], Log(events, i), run[i].pcs[who[i]]);
  }

  /** The pop that holds ticket t delivers the value of the push that took ticket t, earlier in the run. */
  lemma PopDeliversItsTicket(cap: nat, run: seq<State>, who: seq<nat>, events: seq<Event>, j: nat) returns (i: nat)
    requires Execution(cap, run, who, events) && j < |events| && events[j].Popped?
    ensures i < j && events[i] == TookPush(events[j].ticket, events[j].w)
  {
    Reached(cap, run, who, events, j);
    PoppedStep(cap, run[j], Log(events, j), who[j], events[j], run[j + 1]);
    i := LogEntry(cap, run, who, events, j, events[j].ticket);
  }

  lemma {:induction false} LogEntry(cap: nat, run: seq<State>, who: seq<nat>, events: seq<Event>, j: nat, t: nat) returns (i: nat)
    requires Execution(cap, run, who, events) && j <= |events|
    requires t < |Log(events, j)|
    ensures i < j && events[i] == TookPush(t, Log(events, j)[t])
  {
    if t < |Log(events, j - 1)| {
      i := LogEntry(cap, run, who, events, j - 1, t);
    } else {
      TicketsInOrder(cap, run, who, events, j - 1);
      i := j - 1;
    }
  }

  /** No ticket is delivered twice. */
  lemma DeliveredOnce(cap: nat, run: seq<State>, who: seq<nat>, events: seq<Event>, i: nat, j: nat)
    requires Execution(cap, run, who, events) && i < |events| && j < |events|
    requires events[i].Popped? && events[j].Popped? && events[i].ticket == events[j].ticket
    ensures i == j
  {
    var a, b := if i < j then i else j, if i < j then j else i;
    Reached(cap, run, who, events, a);
    Reached(cap, run, who, events, b);
    PoppedStep(cap, run[a], Log(events, a), who[a], events[a], run[a + 1]);
    PoppedStep(cap, run[b], Log(events, b), who[b], events[b], run[b + 1]);
    if a < b {
      RunMonotone(cap, run, who, events, a + 1, b, events[i].ticket);
    }
  }

  // ----- exclusive use of a slot -----

  /** The thread constructs, moves or destroys the element of a slot, or is about to publish having done so. */
  predicate Inside(pc: Pc) {
    pc.PushConstruct? || pc.PushStoreTurn? || pc.PopMove? || pc.PopDestroy? || pc.PopStoreTurn?
  }

  /** No two threads are ever at work in the same slot. */
  lemma SlotExclusive(cap: nat, run: seq<State>, who: seq<nat>, events: seq<Event>, i: nat, p: nat, q: nat)
    requires Execution(cap, run, who, events) && i < |run|
    requires p < |run[i].pcs| && q < |run[i].pcs| && Inside(run[i].pcs[p]) && Inside(run[i].pcs[q])
    requires cap > 0 && Idx(cap, run[i].pcs[p].ticket) == Idx(cap, run[i].pcs[q].ticket)
    ensures p == q
  {
    var s, log := run[i], Log(events, i);
    Reached(cap, run, who, events, i);
    assert PushThreadOk(cap, s, log, s.pcs[p]) && PopThreadOk(cap, s, log, s.pcs[p]);
    assert PushThreadOk(cap, s, log, s.pcs[q]) && PopThreadOk(cap, s, log, s.pcs[q]);
    TicketUnique(cap, s.pcs[p].ticket, s.pcs[q].ticket);
  }

  lemma TicketOfTurn(cap: nat, j: nat, n: nat) returns (x: nat)
    requires j < cap
    ensures Idx(cap, x) == j && Turn(cap, x) == n
  {
    x := n * cap + j;
    RemainderUnique(x, cap, n, j);
  }

  /** An odd turn means that an element is constructed in the slot, an even one that none is, unless a
      thread is at work there: this is what the slot's destructor relies on. */
  lemma OddTurnConstructed(cap: nat, run: seq<State>, who: seq<nat>, events: seq<Event>, i: nat, j: nat)
    requires Execution(cap, run, who, events) && i < |run| && j < cap
    requires forall p :: 0 <= p < |run[i].pcs| && Inside(run[i].pcs[p]) ==> Idx(cap, run[i].pcs[p].ticket) != j
    ensures |run[i].slots| == cap && (run[i].slots[j].turn % 2 == 1 <==> run[i].slots[j].item.Some?)
  {
    var s, log := run[i], Log(events, i);
    Reached(cap, run, who, events, i);
    var x := TicketOfTurn(cap, j, s.slots[j].turn / 2);
    assert TicketOk(cap, s, log, x);
  }

  // ----- deadlock freedom -----

  predicate Waiting(pc: Pc) {
    pc.PushWait? || pc.PopWait?
  }

  /** The condition a waiting thread spins on. */
  predicate MayGo(cap: nat, s: State, pc: Pc)
    requires WellFormed(cap, s) && Waiting(pc)
  {
    SlotOf(cap, s, pc.ticket).turn == 2 * Turn(cap, pc.ticket) + if pc.PushWait? then 0 else 1
  }

  lemma {:induction false} LeastPush(s: State, n: nat) returns (p: nat)
    requires n <= |s.pcs|
    requires exists q :: 0 <= q < n && s.pcs[q].PushWait?
    ensures p < n && s.pcs[p].PushWait?
    ensures forall q :: 0 <= q < n && s.pcs[q].PushWait? ==> s.pcs[p].ticket <= s.pcs[q].ticket
  {
    p := n - 1;
    if exists q :: 0 <= q < n - 1 && s.pcs[q].PushWait? {
      var p0 := LeastPush(s, n - 1);
      if !s.pcs[p].PushWait? || s.pcs[p0].ticket <= s.pcs[p].ticket {
        p := p0;
      }
    }
  }

  lemma {:induction false} LeastPop(s: State, n: nat) returns (p: nat)
    requires n <= |s.pcs|
    requires exists q :: 0 <= q < n && s.pcs[q].PopWait?
    ensures p < n && s.pcs[p].PopWait?
    ensures forall q :: 0 <= q < n && s.pcs[q].PopWait? ==> s.pcs[p].ticket <= s.pcs[q].ticket
  {
    p := n - 1;
    if exists q :: 0 <= q < n - 1 && s.pcs[q].PopWait? {
      var p0 := LeastPop(s, n - 1);
      if !s.pcs[p].PopWait? || s.pcs[p0].ticket <= s.pcs[p].ticket {
        p := p0;
      }
    }
  }

  /** A push and a pop that wait never block each other for good: when nobody is inside a slot, the least
      waiting push ticket or the least waiting pop ticket can go. */
  lemma WaitersCanGo(cap: nat, s: State, log: seq<Work>, p: nat, q: nat)
    requires Inv(cap, s, log) && p < |s.pcs| && q < |s.pcs|
    requires forall r :: 0 <= r < |s.pcs| ==> !Inside(s.pcs[r])
    requires s.pcs[p].PushWait? && forall r :: 0 <= r < |s.pcs| && s.pcs[r].PushWait? ==> s.pcs[p].ticket <= s.pcs[r].ticket
    requires s.pcs[q].PopWait? && forall r :: 0 <= r < |s.pcs| && s.pcs[r].PopWait? ==> s.pcs[q].ticket <= s.pcs[r].ticket
    ensures if s.pcs[q].ticket < s.pcs[p].ticket then MayGo(cap, s, s.pcs[q]) else MayGo(cap, s, s.pcs[p])
  {
    var h, t := s.pcs[p].ticket, s.pcs[q].ticket;
    assert PushThreadOk(cap, s, log, s.pcs[p]) && PopThreadOk(cap, s, log, s.pcs[q]);
    if t < h {
      assert TicketOk(cap, s, log, t);
      assert !PushHeldBySome(s, t);
    } else if h >= cap {
      PreviousTicket(cap, h);
      assert TicketOk(cap, s, log, h - cap);
      assert !PopHeldBySome(s, h - cap);
    } else {
      FirstTurn(cap, h);
    }
  }

  lemma DeadlockFree(cap: nat, run: seq<State>, who: seq<nat>, events: seq<Event>, i: nat) returns (p: nat)
    requires Execution(cap, run, who, events) && i < |run|
    requires exists r :: 0 <= r < |run[i].pcs| && run[i].pcs[r].PushWait?
    requires exists r :: 0 <= r < |run[i].pcs| && run[i].pcs[r].PopWait?
    requires forall r :: 0 <= r < |run[i].pcs| ==> !Inside(run[i].pcs[r])
    ensures WellFormed(cap, run[i]) && p < |run[i].pcs| && Waiting(run[i].pcs[p]) && MayGo(cap, run[i], run[i].pcs[p])
  {
    var s := run[i];
    Reached(cap, run, who, events, i);
    var a := LeastPush(s, |s.pcs|);
    var b := LeastPop(s, |s.pcs|);
    WaitersCanGo(cap, s, Log(events, i), a, b);
    p := if s.pcs[b].ticket < s.pcs[a].ticket then b else a;
  }

  // ----- the try operations -----

  predicate TryOnly(pc: Pc) {
    !pc.PushTicket? && !pc.PushWait? && !pc.PopTicket? && !pc.PopWait?
  }

  ghost predicate TryOnlyRun(run: seq<State>) {
    forall i, p :: 0 <= i < |run| && 0 <= p < |run[i].pcs| ==> TryOnly(run[i].pcs[p])
  }

  lemma TryStepBounded(cap: nat, s: State, log: seq<Work>, p: nat, e: Event, s': State)
    requires Inv(cap, s, log) && Next(cap, s, p, e, s') && TryOnly(s.pcs[p])
    requires s.tail <= s.head <= s.tail + cap
    ensures s'.tail <= s'.head <= s'.tail + cap
  {
    assert PushThreadOk(cap, s, log, s.pcs[p]) && PopThreadOk(cap, s, log, s.pcs[p]);
    if s.pcs[p].TryPushCas? && s.head >= cap {
      PreviousTicket(cap, s.head);
      assert TicketOk(cap, s, log, s.head - cap);
    } else if s.pcs[p].TryPopCas? {
      assert TicketOk(cap, s, log, s.tail);
    }
  }

  /** With try operations only, the queue never holds a negative number of elements nor more than its
      capacity. */
  lemma {:induction false} TryOnlyBounded(cap: nat, run: seq<State>, who: seq<nat>, events: seq<Event>, i: nat)
    requires Execution(cap, run, who, events) && TryOnlyRun(run) && i < |run|
    ensures run[i].tail <= run[i].head <= run[i].tail + cap
  {
    if i > 0 {
      TryOnlyBounded(cap, run, who, events, i - 1);
      Reached(cap, run, who, events, i - 1);
      TryStepBounded(cap, run[i - 1], Log(events, i - 1), who[i - 1], events[i - 1], run[i - 1 + 1]);
    }
  }

  /** The thread is inside a try operation that has loaded its index. */
  predicate InTry(pc: Pc) {
    pc.TryPushTurn? || pc.TryPushCas? || pc.TryPushReload? || pc.TryPopTurn? || pc.TryPopCas? || pc.TryPopReload?
  }

  /** Thread p is inside one call of a try operation from moment m to moment j. */
  predicate InOneTry(run: seq<State>, p: nat, m: nat, j: nat)
    requires j < |run|
  {
    forall l :: m <= l <= j ==> p < |run[l].pcs| && InTry(run[l].pcs[p])
  }

  /** The last moment at which thread p loaded the turn before it went on to reload the index. */
  lemma {:induction false} LastTurnLoad(cap: nat, run: seq<State>, who: seq<nat>, events: seq<Event>, j: nat, p: nat) returns (m: nat)
    requires Execution(cap, run, who, events) && j < |run| && p < |run[j].pcs|
    requires run[j].pcs[p].TryPushReload? || run[j].pcs[p].TryPopReload?
    ensures m < j && p < |run[m].pcs| && who[m] == p && WellFormed(cap, run[m])
    ensures InOneTry(run, p, m, j)
    ensures run[j].pcs[p].TryPushReload? ==>
              run[m].pcs[p] == TryPushTurn(run[j].pcs[p].w, run[j].pcs[p].ticket)
              && SlotOf(cap, run[m], run[m].pcs[p].ticket).turn != 2 * Turn(cap, run[m].pcs[p].ticket)
    ensures run[j].pcs[p].TryPopReload? ==>
              run[m].pcs[p] == TryPopTurn(run[j].pcs[p].ticket)
              && SlotOf(cap, run[m], run[m].pcs[p].ticket).turn != 2 * Turn(cap, run[m].pcs[p].ticket) + 1
  {
    assert j > 0;
    assert Next(cap, run[j - 1], who[j - 1], events[j - 1], run[j - 1 + 1]);
    if run[j - 1].pcs[p] == run[j].pcs[p] {
      m := LastTurnLoad(cap, run, who, events, j - 1, p);
    } else {
      m := j - 1;
    }
  }

  /** A try_emplace that returns false: at some moment m of the call the head was h, and the element
      with ticket h - capacity had not been fully removed. */
  lemma FailedPushWasFull(cap: nat, run: seq<State>, who: seq<nat>, events: seq<Event>, j: nat) returns (m: nat)
    requires Execution(cap, run, who, events) && j < |events| && events[j].PushFailed?
    ensures var h := events[j].ticket;
            && m < j && who[m] == who[j] && InOneTry(run, who[j], m, j) && WellFormed(cap, run[m])
            && run[m].head == h && h >= cap
            && SlotOf(cap, run[m], h - cap).turn < 2 * Turn(cap, h - cap) + 2
  {
    var p := who[j];
    var h := events[j].ticket;
    assert Next(cap, run[j], p, events[j], run[j + 1]);
    m := LastTurnLoad(cap, run, who, events, j, p);
    RunMonotone(cap, run, who, events, m, j, h);
    Reached(cap, run, who, events, m);
    assert PushThreadOk(cap, run[m], Log(events, m), run[m].pcs[p]);
    assert TicketOk(cap, run[m], Log(events, m), h);
    FirstTurn(cap, h);
    if h >= cap {
      PreviousTicket(cap, h);
    }
  }

  /** A try_pop that returns false: at some moment m of the call the tail was t, and the push with
      ticket t had not been published. */
  lemma FailedPopWasEmpty(cap: nat, run: seq<State>, who: seq<nat>, events: seq<Event>, j: nat) returns (m: nat)
    requires Execution(cap, run, who, events) && j < |events| && events[j].PopFailed?
    ensures var t := events[j].ticket;
            && m < j && who[m] == who[j] && InOneTry(run, who[j], m, j) && WellFormed(cap, run[m])
            && run[m].tail == t
            && SlotOf(cap, run[m], t).turn < 2 * Turn(cap, t) + 1
  {
    var p := who[j];
    var t := events[j].ticket;
    assert Next(cap, run[j], p, events[j], run[j + 1]);
    m := LastTurnLoad(cap, run, who, events, j, p);
    RunMonotone(cap, run, who, events, m, j, t);
    Reached(cap, run, who, events, m);
    assert PopThreadOk(cap, run[m], Log(events, m), run[m].pcs[p]);
    assert TicketOk(cap, run[m], Log(events, m), t);
  }
}
