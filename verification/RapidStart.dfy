/** The fork-join round of RapidStart: how a range is split over the slots of a mask, and the epoch/mask
    protocol between the caller and its registered workers (mode 2). A mask is the set of its bits. */
module RapidStart {
  import opened Modular

  const MASK_BITS: nat := 64

  // ----- splitting -----

  /** The number of bits of the mask from 1 to i - 1; bit 0, the caller's own, is not counted. */
  function Rank(mask: set<nat>, i: nat): nat {
    if i <= 1 then 0 else Rank(mask, i - 1) + if i - 1 in mask then 1 else 0
  }

  function Parts(mask: set<nat>): nat {
    1 + Rank(mask, MASK_BITS)
  }

  /** Which part a slot executes. */
  function PartOf(slot: nat, mask: set<nat>): nat {
    if 1 <= slot < MASK_BITS && slot in mask then 1 + Rank(mask, slot) else 0
  }

  method Run(slot: nat, mask: set<nat>) returns (part: nat, parts: nat)
    ensures part == PartOf(slot, mask) && parts == Parts(mask)
  {
    part, parts := 0, 1;
    var i := 1;
    while i < MASK_BITS
      invariant 1 <= i <= MASK_BITS
      invariant parts == 1 + Rank(mask, i)
      invariant part == if slot < i then PartOf(slot, mask) else 0
    {
      if i in mask {
        if i == slot {
          part := parts;
        }
        parts := parts + 1;
      }
      i := i + 1;
    }
  }

  lemma {:induction false} RankMonotone(mask: set<nat>, i: nat, j: nat)
    requires i <= j
    ensures Rank(mask, i) <= Rank(mask, j)
    decreases j - i
  {
    if i < j {
      RankMonotone(mask, i, j - 1);
    }
  }

  predicate InRound(slot: nat, mask: set<nat>) {
    slot == 0 || (slot < MASK_BITS && slot in mask)
  }

  /** Different slots of a round have different parts. */
  lemma PartsDistinct(mask: set<nat>, a: nat, b: nat)
    requires InRound(a, mask) && InRound(b, mask) && PartOf(a, mask) == PartOf(b, mask)
    ensures a == b
  {
    if 0 < a < b {
      RankMonotone(mask, a + 1, b);
    } else if 0 < b < a {
      RankMonotone(mask, b + 1, a);
    }
  }

  /** Every part has a slot. */
  lemma {:induction false} PartHasSlot(mask: set<nat>, part: nat, i: nat) returns (slot: nat)
    requires part <= Rank(mask, i) && i <= MASK_BITS
    ensures InRound(slot, mask) && PartOf(slot, mask) == part && (slot == 0 || slot < i)
  {
    if part == 0 {
      slot := 0;
    } else if part <= Rank(mask, i - 1) {
      slot := PartHasSlot(mask, part, i - 1);
    } else {
      slot := i - 1;
    }
  }

  lemma PartBelow(mask: set<nat>, slot: nat)
    requires InRound(slot, mask)
    ensures PartOf(slot, mask) < Parts(mask)
  {
    if slot > 0 {
      RankMonotone(mask, slot + 1, MASK_BITS);
    }
  }

  function Min(a: int, b: int): int {
    if a < b then a else b
  }

  /** Where a part starts; part + 1 gives where it ends. */
  function PartStart(start: int, end: int, part: nat, parts: nat): int
    requires start <= end && parts > 0
  {
    start + part * ((end - start) / parts) + Min((end - start) % parts, part)
  }

  /** The parts tile [start, end) in order; the first (end - start) % parts of them are one longer. */
  lemma PartsTile(start: int, end: int, part: nat, parts: nat)
    requires start <= end && part < parts
    ensures PartStart(start, end, 0, parts) == start
    ensures PartStart(start, end, parts, parts) == end
    ensures PartStart(start, end, part + 1, parts) - PartStart(start, end, part, parts) ==
            (end - start) / parts + if part < (end - start) % parts then 1 else 0
  {
    var step, rem := (end - start) / parts, (end - start) % parts;
    assert end - start == step * parts + rem;
    assert (part + 1) * step == part * step + step;
    assert 0 * step == 0;
    assert parts * step == step * parts;
  }

  lemma {:induction false} PartStartMonotone(start: int, end: int, p: nat, q: nat, parts: nat)
    requires start <= end && p <= q <= parts && parts > 0
    ensures PartStart(start, end, p, parts) <= PartStart(start, end, q, parts)
    decreases q - p
  {
    if p < q {
      PartStartMonotone(start, end, p, q - 1, parts);
      PartsTile(start, end, q - 1, parts);
      QuotientAtLeast(end - start, parts, 0);
    }
  }

  /** Iteration x belongs to the range that a slot executes. */
  predicate Covers(slot: nat, mask: set<nat>, start: int, end: int, x: int)
    requires start <= end
  {
    var part := PartOf(slot, mask);
    PartStart(start, end, part, Parts(mask)) <= x < PartStart(start, end, part + 1, Parts(mask))
  }

  lemma {:induction false} FindPart(start: int, end: int, parts: nat, n: nat, x: int) returns (part: nat)
    requires start <= end && n <= parts && parts > 0
    requires start <= x < PartStart(start, end, n, parts)
    ensures part < n && PartStart(start, end, part, parts) <= x < PartStart(start, end, part + 1, parts)
  {
    PartsTile(start, end, 0, parts);
    if x >= PartStart(start, end, n - 1, parts) {
      part := n - 1;
    } else {
      part := FindPart(start, end, parts, n - 1, x);
    }
  }

  /** Every iteration of the range is covered by exactly one slot of the round. */
  lemma CoveredOnce(mask: set<nat>, start: int, end: int, x: int) returns (slot: nat)
    requires start <= x < end
    ensures InRound(slot, mask) && Covers(slot, mask, start, end, x)
    ensures forall other :: InRound(other, mask) && Covers(other, mask, start, end, x) ==> other == slot
  {
    PartsTile(start, end, 0, Parts(mask));
    var part := FindPart(start, end, Parts(mask), Parts(mask), x);
    slot := PartHasSlot(mask, part, MASK_BITS);
    forall other | InRound(other, mask) && Covers(other, mask, start, end, x)
      ensures other == slot
    {
      var p := PartOf(other, mask);
      PartBelow(mask, other);
      if p < part {
        PartStartMonotone(start, end, p + 1, part, Parts(mask));
      } else if part < p {
        PartStartMonotone(start, end, part + 1, p, Parts(mask));
      }
      PartsDistinct(mask, other, slot);
    }
  }

  /** Nothing outside the range is covered. */
  lemma CoversInside(slot: nat, mask: set<nat>, start: int, end: int, x: int)
    requires start <= end && InRound(slot, mask) && Covers(slot, mask, start, end, x)
    ensures start <= x < end
  {
    var p, n := PartOf(slot, mask), Parts(mask);
    PartBelow(mask, slot);
    PartsTile(start, end, p, n);
    PartStartMonotone(start, end, 0, p, n);
    PartStartMonotone(start, end, p + 1, n, n);
  }

  /** Bit 0 does not change the split: the workers, who see it, agree with the caller, who does not. */
  lemma {:induction false} OwnBitIgnored(mask: set<nat>, i: nat)
    ensures Rank(mask + {0}, i) == Rank(mask, i)
  {
    if i > 1 {
      OwnBitIgnored(mask, i - 1);
    }
  }

  lemma SameCover(slot: nat, mask: set<nat>, start: int, end: int, x: int)
    requires start <= end
    ensures Covers(slot, mask + {0}, start, end, x) == Covers(slot, mask, start, end, x)
  {
    OwnBitIgnored(mask, MASK_BITS);
    OwnBitIgnored(mask, slot);
  }

  // ----- the protocol -----

  /** What a call executes: a body over [start, end). */
  datatype Func = Func(start: int, end: int)

  /** A completed execution of one slot's part. */
  datatype Ran = Ran(slot: nat, mask: set<nat>, func: Func)

  datatype CallerPc =
    | Ready
    | LoadEpoch(f: Func)
    | ClearRun(f: Func, e: nat)
    | StoreFunc(f: Func, e: nat)
    | StoreEpoch(f: Func, e: nat)
    | LoadStart(f: Func)
    | ClearFinish(f: Func, snapshot: set<nat>)
    | StoreRun(f: Func, snapshot: set<nat>)
    | RunOwn(f: Func, snapshot: set<nat>)
    | WaitFinish(f: Func, snapshot: set<nat>)

  datatype WorkerPc =
    | Check(e: nat, r: set<nat>)
    | LoadFunc(e: nat, r: set<nat>)
    | Running(e: nat, r: set<nat>, f: Func)
    | SetFinish(e: nat)
    | SpinEpoch(e: nat)
    | ReloadEpoch
    | SpinRun(e: nat)
    | LoadRun(e: nat)

  /** `ran` records the executions of the current call. */
  datatype State = State(epoch: nat, run: set<nat>, finish: set<nat>, start: set<nat>, func: Func,
                         caller: CallerPc, workers: map<nat, WorkerPc>, ran: multiset<Ran>)

  function CallerNext(s: State): State
    requires !s.caller.Ready? && (s.caller.WaitFinish? ==> s.finish == s.caller.snapshot)
  {
    match s.caller
    case LoadEpoch(f) => s.(caller := ClearRun(f, s.epoch))
    case ClearRun(f, e) => s.(run := {}, caller := StoreFunc(f, e))
    case StoreFunc(f, e) => s.(func := f, caller := StoreEpoch(f, e))
    case StoreEpoch(f, e) => s.(epoch := e + 1, caller := LoadStart(f))
    case LoadStart(f) => s.(caller := ClearFinish(f, s.start))
    case ClearFinish(f, m) => s.(finish := {}, caller := StoreRun(f, m))
    case StoreRun(f, m) => s.(run := m + {0}, caller := RunOwn(f, m))
    case RunOwn(f, m) => s.(ran := s.ran + multiset{Ran(0, m, f)}, caller := WaitFinish(f, m))
    case WaitFinish(_, _) => s.(caller := Ready)
  }

  predicate CallerStep(s: State, s': State) {
    match s.caller
    case Ready =>
      s'.caller.LoadEpoch? && s'.caller.f.start <= s'.caller.f.end && s' == s.(caller := s'.caller, ran := multiset{})
    case WaitFinish(_, m) => if s.finish == m then s' == CallerNext(s) else s' == s
    case _ => s' == CallerNext(s)
  }

  function Move(s: State, w: nat, pc: WorkerPc): State {
    s.(workers := s.workers[w := pc])
  }

  function WorkerNext(s: State, w: nat): (s': State)
    requires w in s.workers
    ensures s'.workers.Keys == s.workers.Keys && s'.start == s.start && s'.caller == s.caller
  {
    match s.workers[w]
    case Check(e, r) => Move(s, w, if w in r then LoadFunc(e, r) else SpinEpoch(e))
    case LoadFunc(e, r) => Move(s, w, Running(e, r, s.func))
    case Running(e, r, f) => Move(s, w, SetFinish(e)).(ran := s.ran + multiset{Ran(w, r, f)})
    case SetFinish(e) => Move(s, w, SpinEpoch(e)).(finish := s.finish + {w})
    case SpinEpoch(e) => if s.epoch == e then s else Move(s, w, ReloadEpoch)
    case ReloadEpoch => Move(s, w, SpinRun(s.epoch))
    case SpinRun(e) => if s.run == {} then s else Move(s, w, LoadRun(e))
    case LoadRun(e) => Move(s, w, Check(e, s.run))
  }

  predicate Next(s: State, s': State) {
    CallerStep(s, s') || exists w :: w in s.workers && s' == WorkerNext(s, w)
  }

  /** All workers have registered and read the empty mask; no call has been made. */
  predicate Init(s: State) {
    && s.run == {} && s.finish == {} && s.caller == Ready && s.ran == multiset{}
    && s.start == s.workers.Keys && 0 !in s.start && (forall w :: w in s.start ==> w < MASK_BITS)
    && (forall w :: w in s.workers ==> s.workers[w] == Check(s.epoch, {}))
  }

  // ----- the invariant -----

  /** The call has not yet announced itself by a new epoch. */
  predicate Before(pc: CallerPc) {
    pc.Ready? || pc.LoadEpoch? || pc.ClearRun? || pc.StoreFunc? || pc.StoreEpoch?
  }

  /** The new epoch is out but the run mask is still empty. */
  predicate Announced(pc: CallerPc) {
    pc.LoadStart? || pc.ClearFinish? || pc.StoreRun?
  }

  /** The worker has nothing left to do in epoch `e`. */
  predicate Resting(pc: WorkerPc, e: nat) {
    pc == SpinEpoch(e) || pc == Check(e, {})
  }

  function OwnRun(s: State, f: Func): Ran {
    Ran(0, s.start, f)
  }

  function WorkerRun(s: State, w: nat, f: Func): Ran {
    Ran(w, s.start + {0}, f)
  }

  /** Where a worker may be between the two stores that start a round. */
  predicate Notified(pc: WorkerPc, epoch: nat) {
    (epoch > 0 && Resting(pc, epoch - 1)) || pc.ReloadEpoch? || pc == SpinRun(epoch)
  }

  /** Where a worker may be once the run mask is out: it has run its part (`done` times) and said so
      (`finished`) exactly when it is past them. */
  predicate Engaged(pc: WorkerPc, epoch: nat, mask: set<nat>, f: Func, finished: bool, done: nat) {
    match pc
    case ReloadEpoch => !finished && done == 0
    case SpinRun(e) => e == epoch && !finished && done == 0
    case LoadRun(e) => e == epoch && !finished && done == 0
    case Check(e, r) => !finished && done == 0 && ((e == epoch && r == mask) || (e + 1 == epoch && r == {}))
    case LoadFunc(e, r) => e == epoch && r == mask && !finished && done == 0
    case Running(e, r, g) => e == epoch && r == mask && g == f && !finished && done == 0
    case SetFinish(e) => e == epoch && !finished && done == 1
    case SpinEpoch(e) => if e == epoch then finished && done == 1 else e + 1 == epoch && !finished && done == 0
  }

  predicate WorkerOk(s: State, w: nat)
    requires w in s.workers
  {
    if Before(s.caller) then Resting(s.workers[w], s.epoch)
    else if Announced(s.caller) then Notified(s.workers[w], s.epoch)
    else Engaged(s.workers[w], s.epoch, s.start + {0}, s.func, w in s.finish, s.ran[WorkerRun(s, w, s.func)])
  }

  predicate CallerOk(s: State) {
    match s.caller
    case Ready => true
    case LoadEpoch(f) => s.ran == multiset{} && f.start <= f.end
    case ClearRun(f, e) => s.ran == multiset{} && f.start <= f.end && e == s.epoch
    case StoreFunc(f, e) => s.ran == multiset{} && f.start <= f.end && e == s.epoch && s.run == {}
    case StoreEpoch(f, e) => s.ran == multiset{} && f.start <= f.end && e == s.epoch && s.run == {} && s.func == f
    case LoadStart(f) => s.ran == multiset{} && f.start <= f.end && s.run == {} && s.func == f
    case ClearFinish(f, m) => s.ran == multiset{} && f.start <= f.end && s.run == {} && s.func == f && m == s.start
    case StoreRun(f, m) => s.ran == multiset{} && f.start <= f.end && s.run == {} && s.func == f && m == s.start && s.finish == {}
    case RunOwn(f, m) =>
      f.start <= f.end && s.func == f && m == s.start && s.run == m + {0} && s.finish <= m && s.ran[OwnRun(s, f)] == 0
    case WaitFinish(f, m) =>
      f.start <= f.end && s.func == f && m == s.start && s.run == m + {0} && s.finish <= m && s.ran[OwnRun(s, f)] == 1
  }

  /** Every recorded execution is the caller's own or a worker's, of the current call. */
  ghost predicate RanOk(s: State) {
    forall r :: r in s.ran ==> r == OwnRun(s, s.func) || (r.slot in s.start && r == WorkerRun(s, r.slot, s.func))
  }

  ghost predicate Inv(s: State) {
    && s.start == s.workers.Keys && 0 !in s.start && (forall w :: w in s.start ==> w < MASK_BITS)
    && CallerOk(s)
    && (!s.caller.Ready? ==> RanOk(s))
    && (forall w :: w in s.workers ==> WorkerOk(s, w))
  }

  lemma StartOk(s: State)
    requires Init(s)
    ensures Inv(s)
  {
  }

  lemma CallerKeepsWorker(s: State, s': State, w: nat)
    requires Inv(s) && CallerStep(s, s') && w in s.workers
    ensures w in s'.workers && WorkerOk(s', w)
  {
    assert WorkerOk(s, w);
    if s.caller.StoreRun? {
      assert s.ran[WorkerRun(s, w, s.func)] == 0;
    } else if s.caller.RunOwn? {
      assert OwnRun(s, s.func) != WorkerRun(s, w, s.func);
    }
  }

  lemma CallerKeeps(s: State, s': State)
    requires Inv(s) && CallerStep(s, s')
    ensures Inv(s') && s'.start == s.start
  {
    forall w | w in s'.workers
      ensures WorkerOk(s', w)
    {
      CallerKeepsWorker(s, s', w);
    }
    assert CallerOk(s');
  }

  /** A worker's step does not disturb another worker. */
  lemma WorkerKeepsOther(s: State, w: nat, v: nat)
    requires w in s.workers && v in s.workers && v != w && WorkerOk(s, v)
    ensures WorkerOk(WorkerNext(s, w), v)
  {
    var s' := WorkerNext(s, w);
    assert s'.workers[v] == s.workers[v] && (v in s'.finish <==> v in s.finish);
    assert s'.ran[WorkerRun(s, v, s.func)] == s.ran[WorkerRun(s, v, s.func)];
  }

  lemma WorkerKeepsOwn(s: State, w: nat)
    requires Inv(s) && w in s.workers
    ensures WorkerOk(WorkerNext(s, w), w)
  {
    assert WorkerOk(s, w);
    assert w in s.start && w in s.start + {0};
  }

  /** A worker that records or announces its part does so in the round's last phase, for this call. */
  lemma WorkerInRound(s: State, w: nat)
    requires Inv(s) && w in s.workers && (s.workers[w].Running? || s.workers[w].SetFinish?)
    ensures (s.caller.RunOwn? || s.caller.WaitFinish?) && w in s.start
    ensures s.workers[w].Running? ==> Ran(w, s.workers[w].r, s.workers[w].f) == WorkerRun(s, w, s.func)
  {
    assert WorkerOk(s, w);
  }

  lemma WorkerKeepsCaller(s: State, w: nat)
    requires Inv(s) && w in s.workers
    ensures CallerOk(WorkerNext(s, w))
  {
    if s.workers[w].Running? || s.workers[w].SetFinish? {
      WorkerInRound(s, w);
      assert WorkerRun(s, w, s.func) != OwnRun(s, s.func);
    }
  }

  lemma WorkerKeepsRan(s: State, w: nat)
    requires Inv(s) && w in s.workers && !s.caller.Ready?
    ensures RanOk(WorkerNext(s, w))
  {
    var s' := WorkerNext(s, w);
    assert s'.func == s.func && OwnRun(s', s.func) == OwnRun(s, s.func);
    if s.workers[w].Running? {
      WorkerInRound(s, w);
      assert s'.ran == s.ran + multiset{WorkerRun(s, w, s.func)};
    } else {
      assert s'.ran == s.ran;
    }
  }

  lemma WorkerKeepsWorkers(s: State, w: nat)
    requires Inv(s) && w in s.workers
    ensures forall v :: v in s.workers ==> WorkerOk(WorkerNext(s, w), v)
  {
    forall v | v in s.workers
      ensures WorkerOk(WorkerNext(s, w), v)
    {
      if v == w {
        WorkerKeepsOwn(s, w);
      } else {
        assert WorkerOk(s, v);
        WorkerKeepsOther(s, w, v);
      }
    }
  }

  lemma WorkerKeeps(s: State, w: nat)
    requires Inv(s) && w in s.workers
    ensures Inv(WorkerNext(s, w))
  {
    WorkerKeepsWorkers(s, w);
    WorkerKeepsCaller(s, w);
    if !s.caller.Ready? {
      WorkerKeepsRan(s, w);
    }
  }

  lemma NextKeeps(s: State, s': State)
    requires Inv(s) && Next(s, s')
    ensures Inv(s') && s'.start == s.start
  {
    if CallerStep(s, s') {
      CallerKeeps(s, s');
    } else {
      var w :| w in s.workers && s' == WorkerNext(s, w);
      WorkerKeeps(s, w);
    }
  }

  ghost predicate Execution(run: seq<State>) {
    && |run| > 0 && Init(run[0])
    && forall i :: 0 <= i < |run| - 1 ==> Next(run[i], run[i + 1])
  }

  lemma {:induction false} Reached(run: seq<State>, i: nat)
    requires Execution(run) && i < |run|
    ensures Inv(run[i]) && run[i].start == run[0].start
  {
    if i == 0 {
      StartOk(run[0]);
    } else {
      Reached(run, i - 1);
      assert Next(run[i - 1], run[i - 1 + 1]);
      NextKeeps(run[i - 1], run[i]);
    }
  }

  // ----- what a call guarantees -----

  /** The step with which spread_work returns. */
  predicate Returns(s: State, s': State) {
    s.caller.WaitFinish? && s'.caller.Ready?
  }

  /** The caller and every registered worker have executed their part of the call exactly once, nothing else
      was executed, and every worker is back in its wait for the next epoch. */
  ghost predicate Complete(s: State, f: Func) {
    && s.ran[Ran(0, s.start, f)] == 1
    && (forall w :: w in s.start ==> s.ran[Ran(w, s.start + {0}, f)] == 1)
    && (forall r :: r in s.ran ==> r == Ran(0, s.start, f) || (r.slot in s.start && r == Ran(r.slot, s.start + {0}, f)))
    && s.start == s.workers.Keys
    && (forall w :: w in s.workers ==> s.workers[w] == SpinEpoch(s.epoch))
  }

  /** A worker whose bit is in the finish mask has run its part once and waits for the next epoch. */
  lemma WorkerFinished(s: State, w: nat)
    requires Inv(s) && s.caller.WaitFinish? && w in s.workers && w in s.finish
    ensures s.workers[w] == SpinEpoch(s.epoch) && s.ran[WorkerRun(s, w, s.func)] == 1
  {
    assert WorkerOk(s, w);
  }

  lemma ReturnIsComplete(s: State, s': State)
    requires Inv(s) && Next(s, s') && Returns(s, s')
    ensures s.caller.f.start <= s.caller.f.end && Complete(s', s.caller.f)
  {
    assert CallerStep(s, s') by {
      forall w | w in s.workers
        ensures s' != WorkerNext(s, w)
      {
      }
    }
    forall w | w in s.start
      ensures s.workers[w] == SpinEpoch(s.epoch) && s.ran[WorkerRun(s, w, s.func)] == 1
    {
      WorkerFinished(s, w);
    }
  }

  /** When spread_work returns, the caller and every registered worker have executed their part of this
      call exactly once, nothing else was executed, and no worker is still inside the function. */
  lemma RoundComplete(run: seq<State>, i: nat)
    requires Execution(run) && i + 1 < |run| && Returns(run[i], run[i + 1])
    ensures run[i].caller.f.start <= run[i].caller.f.end && Complete(run[i + 1], run[i].caller.f)
  {
    Reached(run, i);
    assert Next(run[i], run[i + 1]);
    ReturnIsComplete(run[i], run[i + 1]);
  }

  /** Hence every iteration of the call's range has been executed exactly once: exactly one of the recorded
      executions covers it. */
  lemma IterationsOnce(run: seq<State>, i: nat, x: int) returns (r: Ran)
    requires Execution(run) && i + 1 < |run| && Returns(run[i], run[i + 1])
    requires run[i].caller.f.start <= x < run[i].caller.f.end
    ensures r in run[i + 1].ran && run[i + 1].ran[r] == 1
    ensures r.func.start <= r.func.end && Covers(r.slot, r.mask, r.func.start, r.func.end, x)
    ensures forall q :: q in run[i + 1].ran && q.func.start <= q.func.end && Covers(q.slot, q.mask, q.func.start, q.func.end, x) ==> q == r
  {
    RoundComplete(run, i);
    Reached(run, i + 1);
    var s, f := run[i + 1], run[i].caller.f;
    var slot := CoveredOnce(s.start, f.start, f.end, x);
    forall v: nat
      ensures Covers(v, s.start + {0}, f.start, f.end, x) == Covers(v, s.start, f.start, f.end, x)
    {
      SameCover(v, s.start, f.start, f.end, x);
    }
    r := if slot == 0 then Ran(0, s.start, f) else Ran(slot, s.start + {0}, f);
  }
}
