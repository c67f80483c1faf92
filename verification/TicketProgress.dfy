/** Operations of the ticket queue end: a try operation answers within a few of its own steps unless other
    threads keep taking tickets, a wait ends as soon as its condition holds, and nothing else goes on. */
module TicketProgress {
  import opened Prelude
  import opened TicketQueue
  import opened TicketRuns

  // ----- how many own steps are left -----

  function Rank(pc: Pc): nat {
    match pc
    case Idle => 0
    case PushStoreTurn(_, _) => 1
    case PopStoreTurn(_, _) => 1
    case PushConstruct(_, _) => 2
    case PopDestroy(_, _) => 2
    case PopMove(_) => 3
    case PushWait(_, _) => 4
    case PopWait(_) => 4
    case PushTicket(_) => 5
    case PopTicket => 5
    case TryPushCas(_, _) => 4
    case TryPushReload(_, _) => 4
    case TryPopCas(_) => 4
    case TryPopReload(_) => 4
    case TryPushTurn(_, _) => 5
    case TryPopTurn(_) => 5
    case TryPushLoad(_) => 6
    case TryPopLoad => 6
  }

  /** A try operation whose index another thread has moved will have to start a new round. */
  function Debt(s: State, pc: Pc): nat {
    if (pc.TryPushTurn? || pc.TryPushCas? || pc.TryPushReload?) && pc.ticket != s.head then 2
    else if (pc.TryPopTurn? || pc.TryPopCas? || pc.TryPopReload?) && pc.ticket != s.tail then 2
    else 0
  }

  /** The thread spins: its condition does not hold. */
  predicate Spins(cap: nat, s: State, pc: Pc)
    requires WellFormed(cap, s)
  {
    Waiting(pc) && !MayGo(cap, s, pc)
  }

  /** A step of thread p, other than a call and a spin, leaves it fewer steps to make. */
  lemma OwnStepLowers(cap: nat, s: State, log: seq<Work>, p: nat, e: Event, s': State)
    requires Inv(cap, s, log) && Next(cap, s, p, e, s') && !s.pcs[p].Idle? && !Spins(cap, s, s.pcs[p])
    ensures p < |s'.pcs| && Rank(s'.pcs[p]) + Debt(s', s'.pcs[p]) < Rank(s.pcs[p]) + Debt(s, s.pcs[p])
  {
  }

  /** A thread leaves its wait exactly when its condition holds; until then its step changes nothing. */
  lemma WaitEnds(cap: nat, s: State, p: nat, e: Event, s': State)
    requires Next(cap, s, p, e, s') && Waiting(s.pcs[p])
    ensures Inside(s'.pcs[p]) <==> MayGo(cap, s, s.pcs[p])
    ensures !MayGo(cap, s, s.pcs[p]) ==> s' == s
    ensures MayGo(cap, s, s.pcs[p]) ==> s'.pcs[p].ticket == s.pcs[p].ticket && (s'.pcs[p].PushConstruct? <==> s.pcs[p].PushWait?)
  {
  }

  /** A step of another thread costs at most one more round, and only if it takes a ticket. */
  lemma OtherStepCosts(cap: nat, s: State, p: nat, e: Event, s': State, q: nat)
    requires Next(cap, s, p, e, s') && q < |s.pcs| && q != p
    ensures q < |s'.pcs| && s'.pcs[q] == s.pcs[q]
    ensures Debt(s', s'.pcs[q]) <= Debt(s, s.pcs[q]) + if e.TookPush? || e.TookPop? then 2 else 0
  {
  }

  // ----- one operation in a run -----

  /** The steps of thread p from moment i to moment j, spins not counted. */
  function OwnSteps(cap: nat, run: seq<State>, who: seq<nat>, p: nat, i: nat, j: nat): nat
    requires i <= j < |run| && |run| == |who| + 1 && forall x :: 0 <= x < |run| ==> WellFormed(cap, run[x])
    decreases j - i
  {
    if i == j then 0
    else OwnSteps(cap, run, who, p, i, j - 1) +
         if who[j - 1] == p && p < |run[j - 1].pcs| && !Spins(cap, run[j - 1], run[j - 1].pcs[p]) then 1 else 0
  }

  /** The tickets that other threads take from moment i to moment j. */
  function Taken(who: seq<nat>, events: seq<Event>, p: nat, i: nat, j: nat): nat
    requires i <= j <= |events| == |who|
    decreases j - i
  {
    if i == j then 0
    else Taken(who, events, p, i, j - 1) + if who[j - 1] != p && (events[j - 1].TookPush? || events[j - 1].TookPop?) then 1 else 0
  }

  /** Thread p is busy with one operation from moment i until moment j. */
  predicate Busy(run: seq<State>, p: nat, i: nat, j: nat)
    requires j < |run|
  {
    forall x :: i <= x < j ==> p < |run[x].pcs| && !run[x].pcs[p].Idle?
  }

  lemma {:induction false} AllWellFormed(cap: nat, run: seq<State>, who: seq<nat>, events: seq<Event>)
    requires Execution(cap, run, who, events)
    ensures forall x :: 0 <= x < |run| ==> WellFormed(cap, run[x]) && |run[x].pcs| == |run[0].pcs|
  {
    forall x | 0 <= x < |run|
      ensures WellFormed(cap, run[x]) && |run[x].pcs| == |run[0].pcs|
    {
      SameThreads(cap, run, who, events, x);
    }
  }

  lemma {:induction false} SameThreads(cap: nat, run: seq<State>, who: seq<nat>, events: seq<Event>, x: nat)
    requires Execution(cap, run, who, events) && x < |run|
    ensures WellFormed(cap, run[x]) && |run[x].pcs| == |run[0].pcs|
  {
    if x > 0 {
      SameThreads(cap, run, who, events, x - 1);
      StepKeepsThreads(cap, run[x - 1], who[x - 1], events[x - 1], run[x - 1 + 1]);
    }
  }

  lemma StepKeepsThreads(cap: nat, s: State, p: nat, e: Event, s': State)
    requires Next(cap, s, p, e, s')
    ensures WellFormed(cap, s') && |s'.pcs| == |s.pcs|
  {
  }

  /** An operation makes at most six steps of its own, spins aside, and two more for every ticket that
      another thread takes meanwhile. */
  lemma {:induction false} OperationBounded(cap: nat, run: seq<State>, who: seq<nat>, events: seq<Event>, p: nat, i: nat, j: nat)
    requires Execution(cap, run, who, events) && i <= j < |run| && p < |run[0].pcs| && Busy(run, p, i, j)
    ensures forall x :: 0 <= x < |run| ==> WellFormed(cap, run[x]) && |run[x].pcs| == |run[0].pcs|
    ensures OwnSteps(cap, run, who, p, i, j) + Rank(run[j].pcs[p]) + Debt(run[j], run[j].pcs[p])
         <= Rank(run[i].pcs[p]) + Debt(run[i], run[i].pcs[p]) + 2 * Taken(who, events, p, i, j)
    decreases j - i
  {
    AllWellFormed(cap, run, who, events);
    if i < j {
      OperationBounded(cap, run, who, events, p, i, j - 1);
      OneStepBounded(cap, run, who, events, p, j - 1);
    }
  }

  lemma OneStepBounded(cap: nat, run: seq<State>, who: seq<nat>, events: seq<Event>, p: nat, x: nat)
    requires Execution(cap, run, who, events) && x < |events|
    requires WellFormed(cap, run[x]) && p < |run[x].pcs| == |run[x + 1].pcs| && !run[x].pcs[p].Idle?
    ensures (if who[x] == p && !Spins(cap, run[x], run[x].pcs[p]) then 1 else 0) + Rank(run[x + 1].pcs[p]) + Debt(run[x + 1], run[x + 1].pcs[p])
         <= Rank(run[x].pcs[p]) + Debt(run[x], run[x].pcs[p]) + if who[x] != p && (events[x].TookPush? || events[x].TookPop?) then 2 else 0
  {
    Reached(cap, run, who, events, x);
    assert Next(cap, run[x], who[x], events[x], run[x + 1]);
    if who[x] != p {
      OtherStepCosts(cap, run[x], who[x], events[x], run[x + 1], p);
    } else if Spins(cap, run[x], run[x].pcs[p]) {
      WaitEnds(cap, run[x], p, events[x], run[x + 1]);
    } else {
      OwnStepLowers(cap, run[x], Log(events, x), p, events[x], run[x + 1]);
    }
  }

  // ----- the answers of the try operations -----

  /** Thread p makes a step at m and its next one at n. */
  predicate NextOwnStep(who: seq<nat>, p: nat, m: nat, n: nat) {
    m < n < |who| && who[m] == p && who[n] == p && forall x :: m < x < n ==> who[x] != p
  }

  lemma {:induction false} Unmoved(cap: nat, run: seq<State>, who: seq<nat>, events: seq<Event>, p: nat, m: nat, n: nat)
    requires Execution(cap, run, who, events) && m < n < |run| && p < |run[m + 1].pcs|
    requires forall x :: m < x < n ==> who[x] != p
    ensures p < |run[n].pcs| && run[n].pcs[p] == run[m + 1].pcs[p]
  {
    if m + 1 < n {
      Unmoved(cap, run, who, events, p, m, n - 1);
      OtherStepCosts(cap, run[n - 1], who[n - 1], events[n - 1], run[n - 1 + 1], p);
    }
  }

  /** try_emplace looks at the turn at m and makes its next step at n. If the index is still the one it
      loaded, that step answers: it returns false when the turn was not right, and holds the ticket, with
      the slot to itself, when it was. Otherwise it starts over with the new index. */
  lemma TryPushAnswers(cap: nat, run: seq<State>, who: seq<nat>, events: seq<Event>, p: nat, m: nat, n: nat)
    requires Execution(cap, run, who, events) && NextOwnStep(who, p, m, n)
    requires p < |run[m].pcs| && run[m].pcs[p].TryPushTurn?
    ensures WellFormed(cap, run[m]) && p < |run[n + 1].pcs|
    ensures var h, w := run[m].pcs[p].ticket, run[m].pcs[p].w;
            if run[n].head != h then run[n + 1].pcs[p] == TryPushTurn(w, run[n].head)
            else if SlotOf(cap, run[m], h).turn != 2 * Turn(cap, h) then run[n + 1].pcs[p] == Idle && events[n] == PushFailed(h)
            else run[n + 1].pcs[p] == PushConstruct(w, h) && events[n] == TookPush(h, w)
  {
    assert Next(cap, run[m], p, events[m], run[m + 1]);
    Unmoved(cap, run, who, events, p, m, n);
    assert Next(cap, run[n], p, events[n], run[n + 1]);
  }

  lemma TryPopAnswers(cap: nat, run: seq<State>, who: seq<nat>, events: seq<Event>, p: nat, m: nat, n: nat)
    requires Execution(cap, run, who, events) && NextOwnStep(who, p, m, n)
    requires p < |run[m].pcs| && run[m].pcs[p].TryPopTurn?
    ensures WellFormed(cap, run[m]) && p < |run[n + 1].pcs|
    ensures var t := run[m].pcs[p].ticket;
            if run[n].tail != t then run[n + 1].pcs[p] == TryPopTurn(run[n].tail)
            else if SlotOf(cap, run[m], t).turn != 2 * Turn(cap, t) + 1 then run[n + 1].pcs[p] == Idle && events[n] == PopFailed(t)
            else run[n + 1].pcs[p] == PopMove(t) && events[n] == TookPop(t)
  {
    assert Next(cap, run[m], p, events[m], run[m + 1]);
    Unmoved(cap, run, who, events, p, m, n);
    assert Next(cap, run[n], p, events[n], run[n + 1]);
  }

  // ----- no thread is ever stuck -----

  /** Every thread inside an operation has a step, which is a spin exactly when it waits for its turn. */
  lemma StepPossible(cap: nat, s: State, log: seq<Work>, p: nat) returns (e: Event, s': State)
    requires Inv(cap, s, log) && p < |s.pcs| && !s.pcs[p].Idle?
    ensures Next(cap, s, p, e, s') && (s' == s <==> Spins(cap, s, s.pcs[p]))
  {
    var step := if InPush(s.pcs[p]) then PushStep(cap, s, p) else PopStep(cap, s, p);
    s', e := step.0, step.1;
    if !Spins(cap, s, s.pcs[p]) {
      OwnStepLowers(cap, s, log, p, e, s');
    } else {
      WaitEnds(cap, s, p, e, s');
    }
  }

  /** When a push and a pop wait and nobody is inside a slot, some waiting thread goes on with its next step
      and has at most three more to make. */
  lemma SomeWaiterGoes(cap: nat, run: seq<State>, who: seq<nat>, events: seq<Event>, i: nat) returns (p: nat, e: Event, s': State)
    requires Execution(cap, run, who, events) && i < |run|
    requires exists r :: 0 <= r < |run[i].pcs| && run[i].pcs[r].PushWait?
    requires exists r :: 0 <= r < |run[i].pcs| && run[i].pcs[r].PopWait?
    requires forall r :: 0 <= r < |run[i].pcs| ==> !Inside(run[i].pcs[r])
    ensures p < |run[i].pcs| && Waiting(run[i].pcs[p]) && Next(cap, run[i], p, e, s')
    ensures Inside(s'.pcs[p]) && Rank(s'.pcs[p]) <= 3
  {
    p := DeadlockFree(cap, run, who, events, i);
    Reached(cap, run, who, events, i);
    e, s' := StepPossible(cap, run[i], Log(events, i), p);
    WaitEnds(cap, run[i], p, e, s');
  }
}
