/** What Size and Empty can conclude from indices that other threads are moving. */
module RunQueueSnapshot {
  import opened DequeSpec
  import opened Modular
  import opened RunQueueProtocol
  import opened RunQueueSimulation
  import opened RunQueueCells
  import opened RunQueueRuns

  // ----- the distance between the stored indices -----

  /** How many elements PopBackHalf has claimed without having stored its index; 1 stands for the single
      element of the other operations. */
  function Lag(pc: RemotePc): nat {
    if HalfTaking(pc) || pc.HalfStoreBack? then pc.start + 1 else 1
  }

  lemma PositionsApart(c: Config, s: State, d: Deque, m: Claim)
    requires Rep(c, s, d, m)
    ensures 0 <= StoredFront(s.owner, m) - StoredBack(s.remote, m) <= c.k + Lag(s.remote) < 2 * c.k
  {
  }

  lemma PositionsStored(c: Config, s: State, d: Deque, m: Claim)
    requires Rep(c, s, d, m)
    ensures Same(c, s.front, StoredFront(s.owner, m)) && Same(c, s.back, StoredBack(s.remote, m))
  {
  }

  lemma PosDifference(c: Config, x: int, y: int, x': int, y': int)
    requires ValidConfig(c) && Same(c, x, x') && Same(c, y, y')
    requires 0 <= x' - y' < 2 * c.k
    ensures var n := Pos(c, x) - Pos(c, y); x' - y' == if n < 0 then n + 2 * c.k else n
  {
    var w := 2 * c.k;
    var n := Pos(c, x) - Pos(c, y);
    var n1 := if n < 0 then n + w else n;
    ShiftCongruent(y', Pos(c, y), n1, w) by {
      RemainderUnique(Pos(c, y), w, 0, Pos(c, y));
    }
    if n < 0 {
      ShiftByOne(Pos(c, x), w);
    }
    RemainderUnique(Pos(c, x), w, 0, Pos(c, x));
    assert (y' + n1) % w == x' % w;
    RemainderInjective(y' + n1, x', w);
  }

  /** The difference of the rolling positions, taken modulo 2k as CalculateSize takes it. */
  function Distance(c: Config, s: State): int
    requires ValidConfig(c)
  {
    var n := Pos(c, s.front) - Pos(c, s.back);
    if n < 0 then n + 2 * c.k else n
  }

  /** In every reachable state the stored indices are at most k + 1 apart, as the comment at the clamp
      says, except while PopBackHalf is between its CAS and its index store, where they can be as far
      apart as k plus the elements it removes; either way 2k is not reached, so nothing is ambiguous. */
  lemma DistanceBounded(c: Config, run: seq<State>, events: seq<Event>, i: nat)
    requires Execution(c, run, events) && i < |run|
    ensures ValidConfig(c) && 0 <= Distance(c, run[i]) <= c.k + Lag(run[i].remote) < 2 * c.k
    ensures Distance(c, run[i]) > c.k + 1 ==> (HalfTaking(run[i].remote) || run[i].remote.HalfStoreBack?) && run[i].remote.start >= 1
  {
    var spec, claims := Linearizable(c, run, events);
    var s, d, m := run[i], spec[i], claims[i];
    assert Rep(c, s, d, m);
    PositionsApart(c, s, d, m);
    PositionsStored(c, s, d, m);
    PosDifference(c, s.front, s.back, StoredFront(s.owner, m), StoredBack(s.remote, m));
  }

  // ----- counters -----

  /** The modification counter in the high bits of an index. */
  function Counter(c: Config, i: nat): int
    requires ValidConfig(c)
  {
    i / (2 * c.k)
  }

  /** How many different counter values fit a machine word. */
  function Counters(c: Config): (n: nat)
    requires ValidConfig(c)
    ensures n > 0 && n * (2 * c.k) == c.word
  {
    c.word / (2 * c.k)
  }

  lemma AdvanceCounts(c: Config, i: nat) returns (add: nat)
    requires ValidConfig(c)
    ensures 1 <= add <= 2
    ensures Counter(c, Advance(c, i)) == (Counter(c, i) + add) % Counters(c)
  {
    var n := 2 * c.k;
    add := if Pos(c, i) == n - 1 then 2 else 1;
    var y := i + 1 + n;
    QuotientOfRemainder(y, n, Counters(c));
    assert i == (i / n) * n + i % n;
    assert y == (i / n + add) * n + (if add == 2 then 0 else i % n + 1) by {
      assert (i / n + add) * n == (i / n) * n + add * n;
    }
    RemainderUnique(y, n, i / n + add, if add == 2 then 0 else i % n + 1);
  }

  lemma RetreatKeepsCounter(c: Config, i: nat)
    requires ValidConfig(c)
    ensures Counter(c, Retreat(c, i)) == Counter(c, i)
  {
    var n := 2 * c.k;
    assert i == (i / n) * n + i % n;
    assert Retreat(c, i) == (i / n) * n + Pos(c, i - 1);
    RemainderUnique(Retreat(c, i), n, i / n, Pos(c, i - 1));
  }

  /** How many PushFronts store their index in the steps from i to j. */
  function Pushes(run: seq<State>, i: nat, j: nat): nat
    requires i <= j < |run|
    decreases j - i
  {
    if i == j then 0
    else Pushes(run, i, j - 1) + if StoresPushedFront(run[j - 1], run[j]) then 1 else 0
  }

  lemma CounterStep(c: Config, s: State, m: Claim, s': State, m': Claim) returns (add: nat)
    requires ValidConfig(c) && FrontTracks(c, s, m, s', m')
    ensures if StoresPushedFront(s, s') then 1 <= add <= 2 else add == 0
    ensures Counter(c, s'.front) % Counters(c) == (Counter(c, s.front) + add) % Counters(c)
  {
    var n := Counters(c);
    if StoresPushedFront(s, s') {
      add := AdvanceCounts(c, s.front);
      var x := Counter(c, s.front) + add;
      RemainderUnique(x % n, n, 0, x % n);
    } else {
      add := 0;
      RetreatKeepsCounter(c, s.front);
    }
  }

  lemma {:induction false} CounterGrows(c: Config, run: seq<State>, claims: seq<Claim>, i: nat, j: nat)
    returns (gain: nat)
    requires Tracked(c, run, claims)
    requires i <= j < |run|
    ensures Pushes(run, i, j) <= gain <= 2 * Pushes(run, i, j)
    ensures Counter(c, run[j].front) % Counters(c) == (Counter(c, run[i].front) + gain) % Counters(c)
    decreases j - i
  {
    var n := Counters(c);
    if i == j {
      gain := 0;
    } else {
      var gain0 := CounterGrows(c, run, claims, i, j - 1);
      assert Tracks(c, run[j - 1], claims[j - 1], run[j - 1 + 1], claims[j - 1 + 1]);
      var add := CounterStep(c, run[j - 1], claims[j - 1], run[j], claims[j]);
      gain := gain0 + add;
      ShiftCongruent(Counter(c, run[j - 1].front), Counter(c, run[i].front) + gain0, add, n);
    }
  }

  // ----- which index can stand still -----

  /** Without PushBack the back index never moves down. */
  lemma {:induction false} BackOnlyGrows(c: Config, run: seq<State>, events: seq<Event>, claims: seq<Claim>, kinds: set<Kind>,
                                         i: nat, j: nat)
    requires Tracked(c, run, claims)
    requires Execution(c, run, events) && CallsOnly(events, kinds) && PushesBack !in kinds
    requires i <= j < |run|
    ensures StoredBack(run[i].remote, claims[i]) <= StoredBack(run[j].remote, claims[j])
    decreases j - i
  {
    if i < j {
      BackOnlyGrows(c, run, events, claims, kinds, i, j - 1);
      StaysInside(c, run, events, kinds, j - 1);
      assert Tracks(c, run[j - 1], claims[j - 1], run[j - 1 + 1], claims[j - 1 + 1]);
    }
  }

  lemma {:induction false} FrontOnlyShrinks(c: Config, run: seq<State>, claims: seq<Claim>, i: nat, j: nat)
    requires Tracked(c, run, claims)
    requires i <= j < |run| && Pushes(run, i, j) == 0
    ensures StoredFront(run[i].owner, claims[i]) >= StoredFront(run[j].owner, claims[j])
    decreases j - i
  {
    if i < j {
      FrontOnlyShrinks(c, run, claims, i, j - 1);
      assert Tracks(c, run[j - 1], claims[j - 1], run[j - 1 + 1], claims[j - 1 + 1]);
    }
  }

  /** Without PopFront the front index never moves down. */
  lemma {:induction false} FrontOnlyGrows(c: Config, run: seq<State>, events: seq<Event>, claims: seq<Claim>, kinds: set<Kind>,
                                          i: nat, j: nat)
    requires Tracked(c, run, claims)
    requires Execution(c, run, events) && CallsOnly(events, kinds) && PopsFront !in kinds
    requires i <= j < |run|
    ensures StoredFront(run[i].owner, claims[i]) <= StoredFront(run[j].owner, claims[j])
    decreases j - i
  {
    if i < j {
      FrontOnlyGrows(c, run, events, claims, kinds, i, j - 1);
      StaysInside(c, run, events, kinds, j - 1);
      assert Tracks(c, run[j - 1], claims[j - 1], run[j - 1 + 1], claims[j - 1 + 1]);
    }
  }

  lemma {:induction false} PushesSplit(run: seq<State>, i: nat, m: nat, j: nat)
    requires i <= m <= j < |run|
    ensures Pushes(run, i, j) == Pushes(run, i, m) + Pushes(run, m, j)
    decreases j - m
  {
    if m < j {
      PushesSplit(run, i, m, j - 1);
    }
  }

  /** Two equal loads of `front_` with fewer pushes between them than would wrap the counter: there was no
      push at all. */
  lemma EqualLoadsNoPush(c: Config, run: seq<State>, claims: seq<Claim>, i: nat, j: nat)
    requires Tracked(c, run, claims)
    requires i <= j < |run| && run[i].front == run[j].front
    requires 2 * Pushes(run, i, j) < Counters(c)
    ensures Pushes(run, i, j) == 0
  {
    var n := Counters(c);
    var gain := CounterGrows(c, run, claims, i, j);
    RemainderInjective(Counter(c, run[i].front) + gain, Counter(c, run[i].front), n);
  }

  /** PopFront moves the front index down and PushBack the back index, neither counts: a run that calls at
      most one of the two keeps the snapshot honest. */
  predicate Steady(kinds: set<Kind>) {
    !(PopsFront in kinds && PushesBack in kinds)
  }

  /** ... and the front did not move: it would have had to come full circle. */
  lemma EqualLoadsFrontStays(c: Config, run: seq<State>, events: seq<Event>, spec: seq<Deque>, claims: seq<Claim>, kinds: set<Kind>,
                             i: nat, m: nat, j: nat)
    requires Witness(c, run, events, spec, claims)
    requires Execution(c, run, events) && CallsOnly(events, kinds) && Steady(kinds)
    requires i <= m <= j < |run| && run[i].front == run[j].front
    requires Pushes(run, i, j) == 0
    ensures StoredFront(run[m].owner, claims[m]) == StoredFront(run[i].owner, claims[i])
  {
    PushesSplit(run, i, m, j);
    FrontOnlyShrinks(c, run, claims, i, m);
    if PopsFront !in kinds {
      FrontOnlyGrows(c, run, events, claims, kinds, i, m);
    } else {
      FrontOnlyShrinks(c, run, claims, m, j);
      BackOnlyGrows(c, run, events, claims, kinds, i, j);
      FullCircle(c, run, events, spec, claims, i, j);
    }
  }

  lemma FullCircle(c: Config, run: seq<State>, events: seq<Event>, spec: seq<Deque>, claims: seq<Claim>, i: nat, j: nat)
    requires Witness(c, run, events, spec, claims)
    requires i <= j < |run| && run[i].front == run[j].front
    requires StoredFront(run[i].owner, claims[i]) >= StoredFront(run[j].owner, claims[j])
    requires StoredBack(run[i].remote, claims[i]) <= StoredBack(run[j].remote, claims[j])
    ensures StoredFront(run[i].owner, claims[i]) == StoredFront(run[j].owner, claims[j])
  {
    assert Rep(c, run[i], spec[i], claims[i]) && Rep(c, run[j], spec[j], claims[j]);
    PositionsApart(c, run[i], spec[i], claims[i]);
    PositionsApart(c, run[j], spec[j], claims[j]);
    PositionsStored(c, run[i], spec[i], claims[i]);
    PositionsStored(c, run[j], spec[j], claims[j]);
    RemainderInjective(StoredFront(run[i].owner, claims[i]), StoredFront(run[j].owner, claims[j]), 2 * c.k);
  }

  /** The snapshot at the heart of Empty: `front_` loaded at i and again at j with the same value,
      `back_` loaded at m in between, equal positions. Then the two unbounded positions met at m. */
  lemma SnapshotMeets(c: Config, run: seq<State>, events: seq<Event>, spec: seq<Deque>, claims: seq<Claim>, kinds: set<Kind>,
                      i: nat, m: nat, j: nat)
    requires Witness(c, run, events, spec, claims)
    requires Execution(c, run, events) && CallsOnly(events, kinds) && Steady(kinds)
    requires i <= m <= j < |run| && run[i].front == run[j].front
    requires 2 * Pushes(run, i, j) < Counters(c)
    requires Same(c, run[i].front, run[m].back)
    ensures StoredFront(run[m].owner, claims[m]) == StoredBack(run[m].remote, claims[m])
  {
    EqualLoadsNoPush(c, run, claims, i, j);
    EqualLoadsFrontStays(c, run, events, spec, claims, kinds, i, m, j);
    assert Rep(c, run[i], spec[i], claims[i]) && Rep(c, run[m], spec[m], claims[m]);
    PositionsApart(c, run[m], spec[m], claims[m]);
    PositionsStored(c, run[i], spec[i], claims[i]);
    PositionsStored(c, run[m], spec[m], claims[m]);
    RemainderInjective(StoredFront(run[m].owner, claims[m]), StoredBack(run[m].remote, claims[m]), 2 * c.k);
  }

  /** Stored positions that meet leave no element but those still being put in. */
  lemma MeetingInFlight(c: Config, s: State, d: Deque, m: Claim)
    requires Rep(c, s, d, m)
    requires StoredFront(s.owner, m) == StoredBack(s.remote, m)
    ensures |d.q| == (if s.owner.PushStoreFront? then 1 else 0) + if s.remote.BackPushStoreBack? then 1 else 0
    ensures (s.owner.PushStoreFront? ==> Inserting(d.owner)) && (s.remote.BackPushStoreBack? ==> Inserting(d.remote))
    ensures !OwnerPopping(s.owner) && !RemotePopping(s.remote) && !HalfTaking(s.remote)
  {
  }

  /** ... and none that a pop could take. */
  lemma MeetingNotReady(c: Config, s: State, d: Deque, m: Claim, j: nat)
    requires Rep(c, s, d, m) && j < c.k
    requires StoredFront(s.owner, m) == StoredBack(s.remote, m)
    ensures s.cells[j].st != Ready
  {
    MeetingInFlight(c, s, d, m);
    var i := SlotIndex(c, Base(s.remote, m), j);
    assert CellOk(c, s, d, m, i);
  }

  /** No pop could take an element. */
  predicate NoneReady(s: State) {
    forall cell :: cell in s.cells ==> cell.st != Ready
  }

  lemma SnapshotSound(c: Config, run: seq<State>, events: seq<Event>, kinds: set<Kind>, i: nat, m: nat, j: nat)
    requires Execution(c, run, events) && CallsOnly(events, kinds) && Steady(kinds)
    requires i <= m <= j < |run| && run[i].front == run[j].front
    requires ValidConfig(c) && 2 * Pushes(run, i, j) < Counters(c)
    requires Same(c, run[i].front, run[m].back)
    ensures NoneReady(run[m])
  {
    var spec, claims := Linearizable(c, run, events);
    SnapshotMeets(c, run, events, spec, claims, kinds, i, m, j);
    var s := run[m];
    assert Rep(c, s, spec[m], claims[m]);
    forall cell | cell in s.cells
      ensures cell.st != Ready
    {
      var slot :| 0 <= slot < |s.cells| && s.cells[slot] == cell;
      MeetingNotReady(c, s, spec[m], claims[m], slot);
    }
  }

  // ----- the loop of Empty -----

  /** One call of Empty inside a run: `fronts` are the moments of its loads of `front_`, the first before
      the loop and one in each round; `backs` the moments of its loads of `back_`. Every round but the
      last sees `front_` changed. */
  ghost predicate EmptyCall(run: seq<State>, fronts: seq<nat>, backs: seq<nat>) {
    && |backs| > 0 && |fronts| == |backs| + 1
    && (forall r :: 0 <= r < |fronts| ==> fronts[r] < |run|)
    && (forall r :: 0 <= r < |backs| ==> fronts[r] <= backs[r] <= fronts[r + 1])
    && (forall r :: 0 <= r < |backs| - 1 ==> run[fronts[r]].front != run[fronts[r + 1]].front)
    && run[fronts[|backs| - 1]].front == run[fronts[|backs|]].front
  }

  /** `((front ^ back) & kMask2) == 0`. */
  predicate ReportsEmpty(c: Config, run: seq<State>, fronts: seq<nat>, backs: seq<nat>)
    requires ValidConfig(c) && |backs| > 0 && |fronts| == |backs| + 1
    requires fronts[|backs|] < |run| && backs[|backs| - 1] < |run|
  {
    Same(c, run[fronts[|backs|]].front, run[backs[|backs| - 1]].back)
  }

  /** In runs that call operations of the given kinds, whenever Empty returns true, and the counter did not
      wrap during its last round, no element was ready at the moment it loaded `back_`. */
  ghost predicate EmptyTruthful(c: Config, kinds: set<Kind>)
    requires ValidConfig(c)
  {
    forall run: seq<State>, events: seq<Event>, fronts: seq<nat>, backs: seq<nat> ::
      Execution(c, run, events) && CallsOnly(events, kinds) && EmptyCall(run, fronts, backs)
      && 2 * Pushes(run, fronts[|backs| - 1], fronts[|backs|]) < Counters(c) && ReportsEmpty(c, run, fronts, backs) ==>
        NoneReady(run[backs[|backs| - 1]])
  }

  lemma EmptyIsNeverWrong(c: Config, kinds: set<Kind>)
    requires ValidConfig(c) && Steady(kinds)
    ensures EmptyTruthful(c, kinds)
  {
    forall run: seq<State>, events: seq<Event>, fronts: seq<nat>, backs: seq<nat> |
      Execution(c, run, events) && CallsOnly(events, kinds) && EmptyCall(run, fronts, backs)
      && 2 * Pushes(run, fronts[|backs| - 1], fronts[|backs|]) < Counters(c) && ReportsEmpty(c, run, fronts, backs)
      ensures NoneReady(run[backs[|backs| - 1]])
    {
      var r := |backs| - 1;
      SnapshotSound(c, run, events, kinds, fronts[r], backs[r], fronts[r + 1]);
    }
  }
}
