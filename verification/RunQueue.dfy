/** The deque as a class, run by one thread at a time: with its packed 32-bit indices, carries into the
    counter bits and wraparound it behaves like a bounded sequence. */
module RunQueueClass {
  import opened Prelude
  import opened Modular
  import opened RunQueueProtocol
  import opened RunQueueSimulation
  import opened RunQueueCells
  import opened RunQueueRuns
  import RunQueueSnapshot

  const WORD := 0x1_0000_0000

  predicate PowerOfTwo(n: nat) {
    n == 1 || (n > 1 && n % 2 == 0 && PowerOfTwo(n / 2))
  }

  /** What the constructor asserts of kSize. */
  predicate ValidSize(k: nat) {
    PowerOfTwo(k) && 2 < k <= 65536
  }

  /** A power of two divides every larger one. */
  lemma {:induction false} PowersDivide(n: nat, m: nat)
    requires PowerOfTwo(n) && PowerOfTwo(m) && n <= m
    ensures m % n == 0
  {
    if n > 1 {
      PowersDivide(n / 2, m / 2);
      var q := (m / 2) / (n / 2);
      assert m / 2 == q * (n / 2);
      assert q * n == 2 * (q * (n / 2));
      RemainderUnique(m, n, q, 0);
    }
  }

  lemma SizeFitsWord(k: nat)
    requires ValidSize(k)
    ensures ValidConfig(Config(k, WORD))
  {
    assert (2 * k) / 2 == k;
    assert PowerOfTwo(65536);
    assert PowerOfTwo(0x1_0000_0000);
    PowersDivide(2 * k, WORD);
  }

  // ----- the array at rest -----

  lemma HoldsSize(c: Config, s: State, q: seq<Work>)
    requires Holds(c, s, q)
    ensures CalculateSize(c, s.front, s.back) == |q|
  {
    RunQueueSnapshot.PosDifference(c, s.front, s.back, s.back + |q|, s.back);
  }

  /** Looking one slot past the front end. */
  lemma HoldsFrontSlot(c: Config, s: State, q: seq<Work>)
    requires Holds(c, s, q)
    ensures Slot(c, s.front) == Slot(c, s.back + |q|)
    ensures At(c, s, s.front).st == Vacant <==> |q| < c.k
  {
    SameSlot(c, s.back + |q|, s.front);
    if |q| < c.k {
      assert HoldsAt(c, s, q, |q|);
    } else {
      WindowWrap(c, s.back);
      assert HoldsAt(c, s, q, 0);
    }
  }

  /** Looking at the front element. */
  lemma HoldsFrontElement(c: Config, s: State, q: seq<Work>)
    requires Holds(c, s, q)
    ensures Slot(c, s.front - 1) == Slot(c, s.back + |q| - 1)
    ensures At(c, s, s.front - 1).st == Ready <==> |q| > 0
    ensures |q| > 0 ==> At(c, s, s.front - 1).w == q[|q| - 1]
  {
    SameShift(c, s.back + |q|, s.front, -1);
    SameSlot(c, s.back + |q| - 1, s.front - 1);
    if |q| > 0 {
      assert HoldsAt(c, s, q, |q| - 1);
    } else {
      WindowWrap(c, s.back);
      assert HoldsAt(c, s, q, c.k - 1);
    }
  }

  /** Looking one slot past the back end. */
  lemma HoldsBackSlot(c: Config, s: State, q: seq<Work>)
    requires Holds(c, s, q)
    ensures Slot(c, s.back - 1) == Slot(c, s.back + c.k - 1)
    ensures At(c, s, s.back - 1).st == Vacant <==> |q| < c.k
  {
    WindowWrap(c, s.back);
    assert HoldsAt(c, s, q, c.k - 1);
  }

  /** Moving the front end: the window stays where it is, one cell and one index change. */
  lemma HoldsFrontMoves(c: Config, s: State, q: seq<Work>, s': State, q': seq<Work>, j: nat)
    requires Holds(c, s, q) && WellFormed(c, s')
    requires s'.back == s.back && |q'| <= c.k && j < c.k
    requires s'.cells == s.cells[Slot(c, s.back + j) := At(c, s', s.back + j)]
    requires Same(c, s.back + |q'|, s'.front)
    requires HoldsAt(c, s', q', j)
    requires (q' == q + [At(c, s', s.back + j).w] && j == |q|) || (|q| > 0 && q' == q[..|q| - 1] && j == |q| - 1)
    ensures Holds(c, s', q')
  {
    OneCell(c, s, s', s.back, s.back + j, At(c, s', s.back + j));
    forall i: nat | i < c.k
      ensures HoldsAt(c, s', q', i)
    {
      assert HoldsAt(c, s, q, i);
    }
  }

  /** Moving the back end by `by`, at most k: index i of the new window is index i + by of the old one. */
  lemma HoldsBackMoves(c: Config, s: State, q: seq<Work>, s': State, q': seq<Work>, n: nat)
    requires Holds(c, s, q) && WellFormed(c, s')
    requires s'.front == s.front && n <= |q| && q' == q[n..]
    requires Same(c, s'.back, s.back + n)
    requires forall i :: s.back <= i < s.back + n ==> At(c, s', i).st == Vacant
    requires forall i :: s.back + n <= i < s.back + c.k ==> At(c, s', i) == At(c, s, i)
    ensures Holds(c, s', q')
  {
    SameShift(c, s'.back, s.back + n, |q'|);
    forall i: nat | i < c.k
      ensures HoldsAt(c, s', q', i)
    {
      var i0 := s.back + n + i;
      SameShift(c, s'.back, s.back + n, i);
      SameSlot(c, s'.back + i, i0);
      assert At(c, s', s'.back + i) == At(c, s', i0);
      if n + i < c.k {
        assert HoldsAt(c, s, q, n + i);
        assert At(c, s', i0) == At(c, s, i0);
      } else {
        ShiftByOne(i0 - c.k, c.k);
        assert At(c, s', i0) == At(c, s', i0 - c.k);
      }
    }
  }

  /** Moving the back end down by one. */
  lemma HoldsBackGrows(c: Config, s: State, q: seq<Work>, s': State, w: Work)
    requires Holds(c, s, q) && WellFormed(c, s') && |q| < c.k
    requires s'.front == s.front && Same(c, s'.back, s.back - 1)
    requires s'.cells == s.cells[Slot(c, s.back - 1) := Cell(Ready, w)]
    ensures Holds(c, s', [w] + q)
  {
    var q' := [w] + q;
    SameShift(c, s'.back, s.back - 1, |q'|);
    OneCell(c, s, s', s.back - 1, s.back - 1, Cell(Ready, w));
    forall i: nat | i < c.k
      ensures HoldsAt(c, s', q', i)
    {
      SameShift(c, s'.back, s.back - 1, i);
      SameSlot(c, s'.back + i, s.back - 1 + i);
      if i > 0 {
        assert HoldsAt(c, s, q, i - 1);
        assert At(c, s', s.back - 1 + i) == At(c, s, s.back - 1 + i);
      }
    }
  }

  /** The slots above mid up to hi are emptied, the others are as in s. */
  ghost predicate HalfEmptied(c: Config, s: State, t: State, mid: int, hi: int) {
    && WellFormed(c, s) && WellFormed(c, t)
    && t == s.(cells := t.cells)
    && forall i :: s.back <= i < s.back + c.k ==>
         if mid < i <= hi then At(c, t, i).st == Vacant else At(c, t, i) == At(c, s, i)
  }

  lemma HalfRound(c: Config, s: State, t: State, t': State, mid: int, hi: int)
    requires HalfEmptied(c, s, t, mid, hi) && WellFormed(c, t')
    requires s.back <= mid <= hi < s.back + c.k
    requires t' == t.(cells := t.cells[Slot(c, mid) := At(c, t', mid)]) && At(c, t', mid).st == Vacant
    ensures HalfEmptied(c, s, t', mid - 1, hi)
  {
    OneCell(c, t, t', s.back, mid, At(c, t', mid));
  }

  lemma HalfFinish(c: Config, s: State, q: seq<Work>, t: State, half: nat)
    requires Holds(c, s, q) && half < |q| && HalfEmptied(c, s, t, s.back - 1, s.back + half)
    ensures Holds(c, t.(back := Advance(c, s.back + half)), q[half + 1..])
  {
    var t' := t.(back := Advance(c, s.back + half));
    AdvancePos(c, s.back + half);
    forall i | s.back <= i < s.back + c.k
      ensures if i < s.back + half + 1 then At(c, t', i).st == Vacant else At(c, t', i) == At(c, s, i)
    {
      assert At(c, t', i) == At(c, t, i);
    }
    HoldsBackMoves(c, s, q, t', q[half + 1..], half + 1);
  }

  // ----- the class -----

  class RunQueue {
    const c: Config
    var front: nat
    var back: nat
    const cells: array<Cell>
    /** The queue from the back end to the front end. */
    ghost var contents: seq<Work>

    ghost function View(): State
      reads this, cells
    {
      State(front, back, cells[..], OIdle, RIdle)
    }

    ghost predicate Valid()
      reads this, cells
    {
      c.word == WORD && front < WORD && back < WORD && Holds(c, View(), contents)
    }

    constructor (k: nat)
      requires ValidSize(k)
      ensures Valid() && c.k == k && contents == [] && fresh(cells)
    {
      SizeFitsWord(k);
      c := Config(k, WORD);
      front, back := 0, 0;
      contents := [];
      cells := new Cell[k](_ => Cell(Vacant, 0));
      new;
      assert forall i: nat :: i < k ==> HoldsAt(c, View(), [], i);
    }

    method PushFront(w: Work) returns (ok: bool)
      requires Valid()
      modifies this, cells
      ensures Valid()
      ensures ok == (|old(contents)| < c.k)
      ensures contents == if ok then old(contents) + [w] else old(contents)
    {
      ghost var s := View();
      HoldsFrontSlot(c, s, contents);
      var f := front;
      var j := Slot(c, f);
      if cells[j].st != Vacant {
        return false;
      }
      cells[j] := cells[j].(st := Busy);
      front := Advance(c, f);
      cells[j] := cells[j].(w := w);
      cells[j] := cells[j].(st := Ready);
      AdvancePos(c, f);
      SameShift(c, s.back + |contents|, f, 1);
      HoldsFrontMoves(c, s, contents, View(), contents + [w], |contents|);
      contents := contents + [w];
      return true;
    }

    method PopFront() returns (item: Option<Work>)
      requires Valid()
      modifies this, cells
      ensures Valid()
      ensures item == if old(contents) == [] then None else Some(old(contents)[|old(contents)| - 1])
      ensures contents == if old(contents) == [] then [] else old(contents)[..|old(contents)| - 1]
    {
      ghost var s := View();
      ghost var n := |contents|;
      HoldsFrontElement(c, s, contents);
      var f: int := front;
      var j := Slot(c, f - 1);
      if cells[j].st != Ready {
        return None;
      }
      cells[j] := cells[j].(st := Busy);
      var w := cells[j].w;
      cells[j] := cells[j].(st := Vacant);
      front := Retreat(c, f);
      RetreatPos(c, f);
      RetreatFits(c, f);
      SameShift(c, s.back + n, f, -1);
      HoldsFrontMoves(c, s, contents, View(), contents[..n - 1], n - 1);
      contents := contents[..n - 1];
      return Some(w);
    }

    method PushBack(w: Work) returns (ok: bool)
      requires Valid()
      modifies this, cells
      ensures Valid()
      ensures ok == (|old(contents)| < c.k)
      ensures contents == if ok then [w] + old(contents) else old(contents)
    {
      ghost var s := View();
      HoldsBackSlot(c, s, contents);
      var b: int := back;
      var j := Slot(c, b - 1);
      if cells[j].st != Vacant {
        return false;
      }
      cells[j] := cells[j].(st := Busy);
      back := Retreat(c, b);
      cells[j] := cells[j].(w := w);
      cells[j] := cells[j].(st := Ready);
      RetreatPos(c, b);
      RetreatFits(c, b);
      HoldsBackGrows(c, s, contents, View(), w);
      contents := [w] + contents;
      return true;
    }

    method PopBack() returns (item: Option<Work>)
      requires Valid()
      modifies this, cells
      ensures Valid()
      ensures item == if old(contents) == [] then None else Some(old(contents)[0])
      ensures contents == if old(contents) == [] then [] else old(contents)[1..]
    {
      var empty := Empty();
      if empty {
        return None;
      }
      ghost var s := View();
      assert HoldsAt(c, s, contents, 0);
      var b := back;
      var j := Slot(c, b);
      if cells[j].st != Ready {
        return None;
      }
      cells[j] := cells[j].(st := Busy);
      var w := cells[j].w;
      cells[j] := cells[j].(st := Vacant);
      back := Advance(c, b);
      AdvancePos(c, b);
      OneCell(c, s, View(), s.back, s.back, View().cells[j]);
      HoldsBackMoves(c, s, contents, View(), contents[1..], 1);
      contents := contents[1..];
      return Some(w);
    }

    /** Removes the back half, rounded up; the result lists it from its front end to the back end. */
    method PopBackHalf() returns (result: seq<Work>)
      requires Valid()
      modifies this, cells
      ensures Valid()
      ensures |result| == (|old(contents)| + 1) / 2
      ensures result == Reverse(old(contents)[..|result|])
      ensures contents == old(contents)[|result|..]
    {
      result := [];
      var empty := Empty();
      if empty {
        return;
      }
      ghost var s := View();
      ghost var q := contents;
      var size := Size();
      var half := if size > 1 then (size - 1) / 2 else 0;
      var start;
      result, start := TakeDown(half);
      HalfFinish(c, s, q, View(), half);
      back := Advance(c, start);
      contents := contents[half + 1..];
    }

    /** The loop of PopBackHalf: empties the slots from offset `half` down to the back end. */
    method TakeDown(half: nat) returns (result: seq<Work>, start: nat)
      requires Valid() && half < |contents|
      modifies cells
      ensures HalfEmptied(c, old(View()), View(), back - 1, back + half)
      ensures result == Reverse(contents[..half + 1]) && start == back + half
    {
      result, start := [], 0;
      ghost var s := View();
      var b: int := back;
      var mid := b + half;
      while mid - b >= 0
        invariant b - 1 <= mid <= b + half
        invariant HalfEmptied(c, s, View(), mid, b + half)
        invariant |result| == half - (mid - b)
        invariant |result| > 0 ==> start == b + half
        invariant forall i: nat :: i < |result| ==> result[i] == contents[half - i]
      {
        ghost var t := View();
        assert HoldsAt(c, s, contents, mid - b);
        assert At(c, t, mid) == At(c, s, mid);
        var j := Slot(c, mid);
        if |result| == 0 {
          cells[j] := cells[j].(st := Busy);
          start := mid;
        }
        result := result + [cells[j].w];
        cells[j] := cells[j].(st := Vacant);
        HalfRound(c, s, t, View(), mid, b + half);
        mid := mid - 1;
      }
    }

    method Size() returns (n: nat)
      requires Valid()
      ensures n == |contents|
    {
      HoldsSize(c, View(), contents);
      n := CalculateSize(c, front, back);
    }

    method Empty() returns (empty: bool)
      requires Valid()
      ensures empty == (contents == [])
    {
      HoldsSize(c, View(), contents);
      empty := Pos(c, front) == Pos(c, back);
    }
  }

  lemma RetreatFits(c: Config, i: nat)
    requires ValidConfig(c) && i < c.word
    ensures Retreat(c, i) < c.word
  {
    var n := 2 * c.k;
    assert c.word == (c.word / n) * n;
    BlockFits(i, Pos(c, i - 1), n, c.word / n);
  }
}
