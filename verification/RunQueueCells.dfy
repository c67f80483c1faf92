/** Facts about slots and packed indices, and the one lemma through which both halves of the simulation
    re-establish the array. */
module RunQueueCells {
  import opened DequeSpec
  import opened Modular
  import opened RunQueueProtocol
  import opened RunQueueSimulation

  // ----- indices -----

  lemma SameSlot(c: Config, i: int, j: int)
    requires ValidConfig(c) && Same(c, i, j)
    ensures Slot(c, i) == Slot(c, j)
  {
    ReduceTwice(i, c.k, 2);
    ReduceTwice(j, c.k, 2);
  }

  lemma SameShift(c: Config, i: int, j: int, d: int)
    requires ValidConfig(c) && Same(c, i, j)
    ensures Same(c, i + d, j + d)
  {
    ShiftCongruent(i, j, d, 2 * c.k);
  }

  lemma AdvancePos(c: Config, i: nat)
    requires ValidConfig(c)
    ensures Same(c, Advance(c, i), i + 1)
  {
    var n := 2 * c.k;
    assert c.word == (c.word / n) * n;
    assert c.word / n > 0;
    ReduceTwice(i + 1 + n, n, c.word / n);
    ShiftByOne(i + 1, n);
  }

  lemma RetreatPos(c: Config, i: nat)
    requires ValidConfig(c)
    ensures Same(c, Retreat(c, i), i - 1)
  {
    var n := 2 * c.k;
    assert i - Pos(c, i) == (i / n) * n;
    ShiftByMultiple(Pos(c, i - 1), n, i / n);
    RemainderUnique(Pos(c, i - 1), n, 0, Pos(c, i - 1));
  }

  /** Writing one slot leaves the cells of all other indices of the window alone. */
  lemma OneCell(c: Config, s: State, s': State, base: int, j: int, x: Cell)
    requires WellFormed(c, s) && WellFormed(c, s')
    requires base <= j < base + c.k
    requires s'.cells == s.cells[Slot(c, j) := x]
    ensures At(c, s', j) == x
    ensures forall i :: base <= i < base + c.k && i != j ==> At(c, s', i) == At(c, s, i)
  {
    forall i | base <= i < base + c.k && i != j
      ensures At(c, s', i) == At(c, s, i)
    {
      if Slot(c, i) == Slot(c, j) {
        RemainderInjective(i, j, c.k);
      }
    }
  }

  /** Every slot has an index in a window. */
  lemma SlotIndex(c: Config, base: int, j: nat) returns (i: int)
    requires ValidConfig(c) && j < c.k
    ensures base <= i < base + c.k && Slot(c, i) == j
  {
    i := base + (j - base) % c.k;
    var x := j - base;
    assert i == j + (-(x / c.k)) * c.k by {
      assert x == (x / c.k) * c.k + x % c.k;
      assert (-(x / c.k)) * c.k == -((x / c.k) * c.k);
    }
    ShiftByMultiple(j, c.k, -(x / c.k));
    RemainderUnique(j, c.k, 0, j);
  }

  /** The index one below the window and its last index share a slot. */
  lemma WindowWrap(c: Config, base: int)
    requires ValidConfig(c)
    ensures Slot(c, base - 1) == Slot(c, base + c.k - 1)
    ensures Slot(c, base + c.k) == Slot(c, base)
  {
    ShiftByOne(base - 1, c.k);
    ShiftByOne(base, c.k);
  }

  /** The index of the old window, from base, that shares a slot with index i. */
  function OldIndex(c: Config, base: int, i: int): int {
    if i < base then i + c.k else if i >= base + c.k then i - c.k else i
  }

  /** One written cell, and a window that may have moved; every other index expects what the index
      sharing its slot expected before. */
  lemma CellsKept(c: Config, s: State, d: Deque, m: Claim, s': State, d': Deque, m': Claim, j: int)
    requires Core(c, s, d, m) && WellFormed(c, s') && |d'.q| == m'.f - m'.b
    requires Base(s.remote, m) - c.k <= Base(s'.remote, m') <= Base(s.remote, m) + c.k
    requires Base(s'.remote, m') <= j < Base(s'.remote, m') + c.k
    requires s'.cells == s.cells[Slot(c, j) := At(c, s', j)]
    requires forall i :: Base(s'.remote, m') <= i < Base(s'.remote, m') + c.k && i != j ==>
                           Expected(s', d', m', i) == Expected(s, d, m, OldIndex(c, Base(s.remote, m), i))
    requires CellOk(c, s', d', m', j)
    ensures CellsOk(c, s', d', m')
  {
    var base := Base(s.remote, m);
    var base' := Base(s'.remote, m');
    OneCell(c, s, s', base', j, At(c, s', j));
    forall i | base' <= i < base' + c.k
      ensures CellOk(c, s', d', m', i)
    {
      var i0 := OldIndex(c, base, i);
      assert CellOk(c, s, d, m, i0);
      ShiftByOne(i, c.k);
      ShiftByOne(i - c.k, c.k);
    }
  }
}
