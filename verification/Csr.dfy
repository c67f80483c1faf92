/** Compressed sparse rows over integers: conversion from a dense matrix, assembly from sorted positions, and
    the products. A row of a compressed matrix denotes the dense row obtained by adding every stored value
    at its column. */
module Csr {
  import opened Modular

  datatype Dense = Dense(rows: nat, columns: nat, data: seq<seq<int>>) {
    predicate Valid() {
      |data| == rows && forall i :: 0 <= i < rows ==> |data[i]| == columns
    }
  }

  datatype Sparse = Sparse(rows: nat, columns: nat, values: seq<int>, columnIndex: seq<nat>, rowIndex: seq<nat>) {
    /** The row index is a nondecreasing cut of the stored elements, whose columns exist. */
    predicate Valid() {
      && |rowIndex| == rows + 1 && rowIndex[0] == 0
      && (forall i, j :: 0 <= i <= j <= rows ==> rowIndex[i] <= rowIndex[j])
      && rowIndex[rows] == |columnIndex| == |values|
      && (forall k :: 0 <= k < |columnIndex| ==> columnIndex[k] < columns)
    }

    function RowColumns(i: nat): (r: seq<nat>)
      requires Valid() && i < rows
      ensures |r| == rowIndex[i + 1] - rowIndex[i] && forall k :: 0 <= k < |r| ==> r[k] < columns
    {
      Slice(columnIndex, rowIndex[i], rowIndex[i + 1])
    }

    function RowValues(i: nat): (r: seq<int>)
      requires Valid() && i < rows
      ensures |r| == rowIndex[i + 1] - rowIndex[i]
    {
      Slice(values, rowIndex[i], rowIndex[i + 1])
    }

    /** The dense row that row i stands for. */
    function Row(i: nat): (r: seq<int>)
      requires Valid() && i < rows
      ensures |r| == columns
    {
      Scatter(RowValues(i), RowColumns(i), columns)
    }
  }

  function Slice<T>(s: seq<T>, lo: nat, hi: nat): (r: seq<T>)
    requires lo <= hi <= |s|
    ensures |r| == hi - lo && forall k :: 0 <= k < |r| ==> r[k] == s[lo + k]
  {
    s[lo..hi]
  }

  /** Later elements do not change an earlier slice. */
  lemma SliceOfLonger<T>(s: seq<T>, t: seq<T>, lo: nat, hi: nat)
    requires lo <= hi <= |s| && s <= t
    ensures Slice(t, lo, hi) == Slice(s, lo, hi)
  {
  }

  lemma SliceGrows<T>(s: seq<T>, lo: nat, hi: nat)
    requires lo <= hi < |s|
    ensures Slice(s, lo, hi + 1) == Slice(s, lo, hi) + [s[hi]]
  {
  }

  function Zeros(n: nat): seq<int> {
    seq(n, _ => 0)
  }

  function Scatter(values: seq<int>, cols: seq<nat>, n: nat): (r: seq<int>)
    requires |values| == |cols| && forall k :: 0 <= k < |cols| ==> cols[k] < n
    ensures |r| == n
  {
    if |cols| == 0 then Zeros(n)
    else
      var last := |cols| - 1;
      var r := Scatter(values[..last], cols[..last], n);
      r[cols[last] := r[cols[last]] + values[last]]
  }

  lemma ScatterGrows(values: seq<int>, cols: seq<nat>, n: nat, v: int, c: nat)
    requires |values| == |cols| && c < n && forall k :: 0 <= k < |cols| ==> cols[k] < n
    ensures Scatter(values + [v], cols + [c], n) == var r := Scatter(values, cols, n); r[c := r[c] + v]
  {
    assert (values + [v])[..|cols|] == values && (cols + [c])[..|cols|] == cols;
  }

  // ----- products -----

  function Dot(row: seq<int>, x: seq<int>, n: nat): int
    requires n <= |row| && n <= |x|
  {
    if n == 0 then 0 else Dot(row, x, n - 1) + row[n - 1] * x[n - 1]
  }

  function SparseDot(values: seq<int>, cols: seq<nat>, x: seq<int>): int
    requires |values| == |cols| && forall k :: 0 <= k < |cols| ==> cols[k] < |x|
  {
    if |cols| == 0 then 0
    else
      var last := |cols| - 1;
      SparseDot(values[..last], cols[..last], x) + values[last] * x[cols[last]]
  }

  lemma {:induction false} DotUpdate(row: seq<int>, x: seq<int>, n: nat, c: nat, v: int)
    requires n <= |row| && n <= |x| && c < |row|
    ensures Dot(row[c := row[c] + v], x, n) == Dot(row, x, n) + if c < n then v * x[c] else 0
  {
    if n > 0 {
      DotUpdate(row, x, n - 1, c, v);
      if c == n - 1 {
        assert (row[c] + v) * x[c] == row[c] * x[c] + v * x[c];
      }
    }
  }

  lemma {:induction false} DotZeros(x: seq<int>, n: nat, m: nat)
    requires n <= m && n <= |x|
    ensures Dot(Zeros(m), x, n) == 0
  {
    if n > 0 {
      DotZeros(x, n - 1, m);
    }
  }

  /** Summing over the stored elements is the dense product with the row they denote, repeated columns
      included. */
  lemma {:induction false} SparseDotIsDot(values: seq<int>, cols: seq<nat>, x: seq<int>)
    requires |values| == |cols| && forall k :: 0 <= k < |cols| ==> cols[k] < |x|
    ensures SparseDot(values, cols, x) == Dot(Scatter(values, cols, |x|), x, |x|)
  {
    if |cols| == 0 {
      DotZeros(x, |x|, |x|);
    } else {
      var last := |cols| - 1;
      SparseDotIsDot(values[..last], cols[..last], x);
      DotUpdate(Scatter(values[..last], cols[..last], |x|), x, |x|, cols[last], values[last]);
    }
  }

  lemma SparseDotGrows(values: seq<int>, cols: seq<nat>, x: seq<int>, v: int, c: nat)
    requires |values| == |cols| && c < |x| && forall k :: 0 <= k < |cols| ==> cols[k] < |x|
    ensures SparseDot(values + [v], cols + [c], x) == SparseDot(values, cols, x) + v * x[c]
  {
    assert (values + [v])[..|cols|] == values && (cols + [c])[..|cols|] == cols;
  }

  /** One more stored element of a row. */
  lemma SparseDotNext(a: Sparse, x: seq<int>, lo: nat, i: nat)
    requires a.Valid() && |x| == a.columns && lo <= i < |a.values|
    ensures SparseDot(Slice(a.values, lo, i + 1), Slice(a.columnIndex, lo, i + 1), x) ==
            SparseDot(Slice(a.values, lo, i), Slice(a.columnIndex, lo, i), x) + a.values[i] * x[a.columnIndex[i]]
  {
    SliceGrows(a.values, lo, i);
    SliceGrows(a.columnIndex, lo, i);
    SparseDotGrows(Slice(a.values, lo, i), Slice(a.columnIndex, lo, i), x, a.values[i], a.columnIndex[i]);
  }

  method MultiplyRow(a: Sparse, x: seq<int>, row: nat) returns (y: int)
    requires a.Valid() && row < a.rows && |x| == a.columns
    ensures y == Dot(a.Row(row), x, |x|)
  {
    y := 0;
    var i, lo := a.rowIndex[row], a.rowIndex[row];
    assert a.rowIndex[row] <= a.rowIndex[row + 1] <= a.rowIndex[a.rows];
    while i < a.rowIndex[row + 1]
      invariant lo <= i <= a.rowIndex[row + 1]
      invariant y == SparseDot(Slice(a.values, lo, i), Slice(a.columnIndex, lo, i), x)
    {
      SparseDotNext(a, x, lo, i);
      y := y + a.values[i] * x[a.columnIndex[i]];
      i := i + 1;
    }
    SparseDotIsDot(a.RowValues(row), a.RowColumns(row), x);
  }

  /** The rows are computed in an arbitrary order. */
  method MultiplyMatrix(a: Sparse, x: seq<int>, out: array<int>)
    requires a.Valid() && |x| == a.columns && out.Length >= a.rows
    modifies out
    ensures forall i: nat :: i < a.rows ==> out[i] == Dot(a.Row(i), x, |x|)
    ensures forall i :: a.rows <= i < out.Length ==> out[i] == old(out[i])
  {
    var todo := Below(a.rows);
    forall i: nat
      ensures i in todo <==> i < a.rows
    {
      InBelow(a.rows, i);
    }
    while todo != {}
      invariant forall i :: i in todo ==> 0 <= i < a.rows
      invariant forall i: nat :: i < a.rows && i !in todo ==> out[i] == Dot(a.Row(i), x, |x|)
      invariant forall i :: a.rows <= i < out.Length ==> out[i] == old(out[i])
    {
      var i :| i in todo;
      var y := MultiplyRow(a, x, i);
      out[i] := y;
      todo := todo - {i};
    }
  }

  method MultiplyDense(a: Dense, x: seq<int>, out: array<int>)
    requires a.Valid() && |x| >= a.columns && out.Length >= a.rows
    modifies out
    ensures forall i: nat :: i < a.rows ==> out[i] == Dot(a.data[i], x, a.columns)
    ensures forall i :: a.rows <= i < out.Length ==> out[i] == old(out[i])
  {
    var todo := Below(a.rows);
    forall i: nat
      ensures i in todo <==> i < a.rows
    {
      InBelow(a.rows, i);
    }
    while todo != {}
      invariant forall i :: i in todo ==> 0 <= i < a.rows
      invariant forall i: nat :: i < a.rows && i !in todo ==> out[i] == Dot(a.data[i], x, a.columns)
      invariant forall i :: a.rows <= i < out.Length ==> out[i] == old(out[i])
    {
      var i :| i in todo;
      out[i] := 0;
      var j := 0;
      while j != a.columns
        invariant 0 <= j <= a.columns
        invariant out[i] == Dot(a.data[i], x, j)
        invariant forall k: nat :: k < a.rows && k !in todo ==> out[k] == Dot(a.data[k], x, a.columns)
        invariant forall k :: a.rows <= k < out.Length ==> out[k] == old(out[k])
      {
        out[i] := out[i] + a.data[i][j] * x[j];
        j := j + 1;
      }
      todo := todo - {i};
    }
  }

  // ----- conversion -----

  /** No zero is stored and the columns increase. */
  predicate Compact(values: seq<int>, cols: seq<nat>) {
    && |values| == |cols|
    && (forall k :: 0 <= k < |values| ==> values[k] != 0)
    && (forall j, k :: 0 <= j < k < |cols| ==> cols[j] < cols[k])
  }

  /** The compressed form of a dense matrix. */
  ghost predicate Compresses(s: Sparse, d: Dense)
    requires d.Valid()
  {
    && s.Valid() && s.rows == d.rows && s.columns == d.columns
    && forall i :: 0 <= i < d.rows ==> Compact(s.RowValues(i), s.RowColumns(i)) && s.Row(i) == d.data[i]
  }

  /** The elements stored from position `lo` on are the compact form of the first `j` entries of a row. */
  ghost predicate HoldsPrefix(values: seq<int>, cols: seq<nat>, lo: nat, row: seq<int>, j: nat) {
    && |values| == |cols| && lo <= |cols| && j <= |row|
    && (forall k :: lo <= k < |cols| ==> cols[k] < j)
    && Compact(Slice(values, lo, |cols|), Slice(cols, lo, |cols|))
    && Scatter(Slice(values, lo, |cols|), Slice(cols, lo, |cols|), |row|) == row[..j] + Zeros(|row| - j)
  }

  lemma CompactGrows(values: seq<int>, cols: seq<nat>, v: int, c: nat)
    requires Compact(values, cols) && v != 0 && forall k :: 0 <= k < |cols| ==> cols[k] < c
    ensures Compact(values + [v], cols + [c])
  {
  }

  /** Setting entry j of a row whose first j entries are in place. */
  lemma PrefixGrows(row: seq<int>, j: nat)
    requires j < |row|
    ensures var before := row[..j] + Zeros(|row| - j);
            before[j := before[j] + row[j]] == row[..j + 1] + Zeros(|row| - (j + 1))
  {
  }

  lemma EntryStored(values: seq<int>, cols: seq<nat>, lo: nat, row: seq<int>, j: nat)
    requires HoldsPrefix(values, cols, lo, row, j) && j < |row| && row[j] != 0
    ensures HoldsPrefix(values + [row[j]], cols + [j], lo, row, j + 1)
  {
    var vs, cs := Slice(values, lo, |cols|), Slice(cols, lo, |cols|);
    var values', cols' := values + [row[j]], cols + [j];
    assert Slice(values', lo, |cols'|) == vs + [row[j]];
    assert Slice(cols', lo, |cols'|) == cs + [j];
    CompactGrows(vs, cs, row[j], j);
    ScatterGrows(vs, cs, |row|, row[j], j);
    PrefixGrows(row, j);
  }

  lemma ZeroSkipped(values: seq<int>, cols: seq<nat>, lo: nat, row: seq<int>, j: nat)
    requires HoldsPrefix(values, cols, lo, row, j) && j < |row| && row[j] == 0
    ensures HoldsPrefix(values, cols, lo, row, j + 1)
  {
    assert row[..j] + Zeros(|row| - j) == row[..j + 1] + Zeros(|row| - (j + 1));
  }

  /** The rows already finished, whatever is appended later. */
  ghost predicate RowsDone(d: Dense, values: seq<int>, cols: seq<nat>, rowIndex: seq<nat>)
    requires d.Valid()
  {
    && |values| == |cols| && 0 < |rowIndex| <= d.rows + 1 && rowIndex[0] == 0
    && (forall i, j :: 0 <= i <= j < |rowIndex| ==> rowIndex[i] <= rowIndex[j] <= |cols|)
    && (forall k :: 0 <= k < |cols| ==> cols[k] < d.columns)
    && forall i :: 0 <= i < |rowIndex| - 1 ==> RowDone(d.data[i], values, cols, rowIndex[i], rowIndex[i + 1])
  }

  ghost predicate RowDone(row: seq<int>, values: seq<int>, cols: seq<nat>, lo: nat, hi: nat) {
    && |values| == |cols| && lo <= hi <= |cols|
    && (forall k :: lo <= k < hi ==> cols[k] < |row|)
    && Compact(Slice(values, lo, hi), Slice(cols, lo, hi))
    && Scatter(Slice(values, lo, hi), Slice(cols, lo, hi), |row|) == row
  }

  lemma RowStaysDone(row: seq<int>, values: seq<int>, cols: seq<nat>, values': seq<int>, cols': seq<nat>, lo: nat, hi: nat)
    requires RowDone(row, values, cols, lo, hi) && values <= values' && cols <= cols' && |values'| == |cols'|
    ensures RowDone(row, values', cols', lo, hi)
  {
    SliceOfLonger(values, values', lo, hi);
    SliceOfLonger(cols, cols', lo, hi);
  }

  method DenseToSparse(d: Dense) returns (s: Sparse)
    requires d.Valid()
    ensures Compresses(s, d)
  {
    var values: seq<int>, cols: seq<nat>, rowIndex: seq<nat> := [], [], [0];
    var i := 0;
    while i < d.rows
      invariant 0 <= i <= d.rows && |rowIndex| == i + 1 && rowIndex[i] == |cols|
      invariant RowsDone(d, values, cols, rowIndex)
    {
      ghost var values0, cols0 := values, cols;
      var j := 0;
      assert HoldsPrefix(values, cols, |cols0|, d.data[i], 0) by {
        assert d.data[i][..0] + Zeros(d.columns) == Zeros(d.columns);
      }
      while j < d.columns
        invariant 0 <= j <= d.columns
        invariant values0 <= values && cols0 <= cols
        invariant HoldsPrefix(values, cols, |cols0|, d.data[i], j)
      {
        if d.data[i][j] != 0 {
          EntryStored(values, cols, |cols0|, d.data[i], j);
          values := values + [d.data[i][j]];
          cols := cols + [j];
        } else {
          ZeroSkipped(values, cols, |cols0|, d.data[i], j);
        }
        j := j + 1;
      }
      RowAdded(d, values0, cols0, values, cols, rowIndex);
      rowIndex := rowIndex + [|cols|];
      i := i + 1;
    }
    s := Sparse(d.rows, d.columns, values, cols, rowIndex);
  }

  /** Closing a row. */
  lemma RowAdded(d: Dense, values0: seq<int>, cols0: seq<nat>, values: seq<int>, cols: seq<nat>, rowIndex: seq<nat>)
    requires d.Valid() && RowsDone(d, values0, cols0, rowIndex) && |rowIndex| <= d.rows
    requires rowIndex[|rowIndex| - 1] == |cols0| && values0 <= values && cols0 <= cols
    requires HoldsPrefix(values, cols, |cols0|, d.data[|rowIndex| - 1], d.columns)
    ensures RowsDone(d, values, cols, rowIndex + [|cols|])
  {
    var rowIndex', last := rowIndex + [|cols|], |rowIndex| - 1;
    var row := d.data[last];
    assert row[..d.columns] + Zeros(|row| - d.columns) == row;
    forall i | 0 <= i < |rowIndex'| - 1
      ensures RowDone(d.data[i], values, cols, rowIndex'[i], rowIndex'[i + 1])
    {
      if i < last {
        RowStaysDone(d.data[i], values0, cols0, values, cols, rowIndex[i], rowIndex[i + 1]);
      }
    }
    forall k | 0 <= k < |cols|
      ensures cols[k] < d.columns
    {
      if k < |cols0| {
        assert cols[k] == cols0[k];
      }
    }
  }

  /** Multiplying the compressed matrix is multiplying the dense one. */
  lemma ProductsAgree(d: Dense, s: Sparse, x: seq<int>, i: nat)
    requires d.Valid() && Compresses(s, d) && |x| == d.columns && i < d.rows
    ensures SparseDot(s.RowValues(i), s.RowColumns(i), x) == Dot(d.data[i], x, d.columns)
  {
    SparseDotIsDot(s.RowValues(i), s.RowColumns(i), x);
  }

  // ----- the compressed form is unique -----

  lemma {:induction false} ScatterZeroOutside(values: seq<int>, cols: seq<nat>, n: nat, c: nat)
    requires |values| == |cols| && c < n && c !in cols && forall k :: 0 <= k < |cols| ==> cols[k] < n
    ensures Scatter(values, cols, n)[c] == 0
  {
    if |cols| > 0 {
      ScatterZeroOutside(values[..|cols| - 1], cols[..|cols| - 1], n, c);
    }
  }

  /** The last stored element of a compact row is the row's last nonzero entry. */
  lemma LastIsLastNonzero(values: seq<int>, cols: seq<nat>, n: nat, c: nat)
    requires Compact(values, cols) && |cols| > 0 && c < n && forall k :: 0 <= k < |cols| ==> cols[k] < n
    ensures var last := |cols| - 1;
            Scatter(values, cols, n)[cols[last]] == values[last] && (c > cols[last] ==> Scatter(values, cols, n)[c] == 0)
  {
    var last := |cols| - 1;
    ScatterZeroOutside(values[..last], cols[..last], n, cols[last]);
    if c > cols[last] {
      ScatterZeroOutside(values, cols, n, c);
    }
  }

  /** Without its last element, a compact row denotes the same row with that entry cleared. */
  lemma ScatterButLast(values: seq<int>, cols: seq<nat>, n: nat)
    requires Compact(values, cols) && |cols| > 0 && forall k :: 0 <= k < |cols| ==> cols[k] < n
    ensures var last := |cols| - 1;
            && Compact(values[..last], cols[..last])
            && Scatter(values[..last], cols[..last], n) == Scatter(values, cols, n)[cols[last] := 0]
  {
    var last := |cols| - 1;
    ScatterZeroOutside(values[..last], cols[..last], n, cols[last]);
  }

  lemma SameLast(v: seq<int>, c: seq<nat>, w: seq<int>, e: seq<nat>, n: nat)
    requires Compact(v, c) && Compact(w, e) && |c| > 0 && |e| > 0
    requires (forall k :: 0 <= k < |c| ==> c[k] < n) && (forall k :: 0 <= k < |e| ==> e[k] < n)
    requires Scatter(v, c, n) == Scatter(w, e, n)
    ensures c[|c| - 1] == e[|e| - 1] && v[|c| - 1] == w[|e| - 1]
  {
    LastIsLastNonzero(v, c, n, e[|e| - 1]);
    LastIsLastNonzero(w, e, n, c[|c| - 1]);
  }

  lemma {:induction false} CompactUnique(v: seq<int>, c: seq<nat>, w: seq<int>, e: seq<nat>, n: nat)
    requires Compact(v, c) && Compact(w, e)
    requires (forall k :: 0 <= k < |c| ==> c[k] < n) && (forall k :: 0 <= k < |e| ==> e[k] < n)
    requires Scatter(v, c, n) == Scatter(w, e, n)
    ensures v == w && c == e
    decreases |c|
  {
    var a, b := |c| - 1, |e| - 1;
    if |c| == 0 {
      if |e| > 0 {
        LastIsLastNonzero(w, e, n, e[b]);
        assert false;
      }
    } else if |e| == 0 {
      LastIsLastNonzero(v, c, n, c[a]);
      assert false;
    } else {
      SameLast(v, c, w, e, n);
      ScatterButLast(v, c, n);
      ScatterButLast(w, e, n);
      CompactUnique(v[..a], c[..a], w[..b], e[..b], n);
      assert v == v[..a] + [v[a]] && w == w[..b] + [w[b]] && c == c[..a] + [c[a]] && e == e[..b] + [e[b]];
    }
  }

  /** A dense matrix has only one compressed form, row by row. */
  lemma CompressedFormUnique(d: Dense, s: Sparse, t: Sparse, i: nat)
    requires d.Valid() && Compresses(s, d) && Compresses(t, d) && i < d.rows
    ensures s.RowValues(i) == t.RowValues(i) && s.RowColumns(i) == t.RowColumns(i)
  {
    CompactUnique(s.RowValues(i), s.RowColumns(i), t.RowValues(i), t.RowColumns(i), d.columns);
  }

  // ----- assembly from sorted positions -----

  datatype Position = Position(row: nat, column: nat)

  predicate Ordered(p: seq<Position>) {
    forall j, k :: 0 <= j < k < |p| ==> p[j].row < p[k].row || (p[j].row == p[k].row && p[j].column <= p[k].column)
  }

  /** The columns of one row, in the order in which they occur. */
  function ColumnsOf(p: seq<Position>, row: nat): seq<nat> {
    if |p| == 0 then []
    else
      var rest := ColumnsOf(p[..|p| - 1], row);
      if p[|p| - 1].row == row then rest + [p[|p| - 1].column] else rest
  }

  /** How many positions lie in rows before `row`. */
  function CountBefore(p: seq<Position>, row: nat): nat {
    if |p| == 0 then 0 else CountBefore(p[..|p| - 1], row) + if p[|p| - 1].row < row then 1 else 0
  }

  lemma {:induction false} CountAll(p: seq<Position>, row: nat)
    requires forall k :: 0 <= k < |p| ==> p[k].row < row
    ensures CountBefore(p, row) == |p|
  {
    if |p| > 0 {
      CountAll(p[..|p| - 1], row);
    }
  }

  lemma {:induction false} CountMonotone(p: seq<Position>, a: nat, b: nat)
    requires a <= b
    ensures CountBefore(p, a) <= CountBefore(p, b) <= |p|
  {
    if |p| > 0 {
      CountMonotone(p[..|p| - 1], a, b);
    }
  }

  lemma {:induction false} ColumnsOfNone(p: seq<Position>, row: nat)
    requires forall k :: 0 <= k < |p| ==> p[k].row != row
    ensures ColumnsOf(p, row) == []
  {
    if |p| > 0 {
      ColumnsOfNone(p[..|p| - 1], row);
    }
  }

  function AllColumns(p: seq<Position>): (r: seq<nat>)
    ensures |r| == |p|
  {
    seq(|p|, k requires 0 <= k < |p| => p[k].column)
  }

  /** In row order, a row's columns are the stretch between the two counts. */
  lemma {:induction false} RowIsStretch(p: seq<Position>, row: nat)
    requires Ordered(p)
    ensures CountBefore(p, row) <= CountBefore(p, row + 1) <= |p|
    ensures ColumnsOf(p, row) == Slice(AllColumns(p), CountBefore(p, row), CountBefore(p, row + 1))
  {
    CountMonotone(p, row, row + 1);
    if |p| > 0 {
      var q, last := p[..|p| - 1], p[|p| - 1];
      var lo, hi := CountBefore(q, row), CountBefore(q, row + 1);
      RowIsStretch(q, row);
      assert AllColumns(p) == AllColumns(q) + [last.column];
      if last.row == row {
        InRowsUpTo(p, row + 1);
        CountAll(q, row + 1);
        SliceOfLonger(AllColumns(q), AllColumns(p), lo, hi);
        SliceGrows(AllColumns(p), lo, hi);
      } else if last.row < row {
        InRowsUpTo(p, row);
        CountAll(p, row);
        CountAll(p, row + 1);
        ColumnsOfNone(p, row);
      } else {
        SliceOfLonger(AllColumns(q), AllColumns(p), lo, hi);
      }
    }
  }

  /** If the last position lies before a row, all do. */
  lemma InRowsUpTo(p: seq<Position>, row: nat)
    requires Ordered(p) && |p| > 0 && p[|p| - 1].row < row
    ensures forall k :: 0 <= k < |p| ==> p[k].row < row
    ensures var q := p[..|p| - 1]; forall k :: 0 <= k < |q| ==> q[k].row < row
  {
  }

  lemma {:induction false} CountSplit(p: seq<Position>, row: nat, at: nat)
    requires at <= |p|
    requires forall k :: 0 <= k < at ==> p[k].row < row
    requires forall k :: at <= k < |p| ==> p[k].row >= row
    ensures CountBefore(p, row) == at
  {
    if at == |p| {
      CountAll(p, row);
    } else {
      CountSplit(p[..|p| - 1], row, at);
    }
  }

  /** The assembly loop; `drawn` are the values drawn for the positions, in their order. */
  method Assemble(p: seq<Position>, drawn: seq<int>, rows: nat, columns: nat) returns (s: Sparse)
    requires Ordered(p) && |drawn| == |p|
    requires forall k :: 0 <= k < |p| ==> p[k].row < rows && p[k].column < columns
    ensures s.Valid() && s.rows == rows && s.columns == columns && s.values == drawn
    ensures forall i :: 0 <= i < rows ==> s.RowColumns(i) == ColumnsOf(p, i)
  {
    var values: seq<int>, cols: seq<nat>, rowIndex: seq<nat> := [], [], [0];
    CountSplit(p, 0, 0);
    var k := 0;
    while k < |p|
      invariant 0 <= k <= |p| && cols == AllColumns(p)[..k] && values == drawn[..k]
      invariant 0 < |rowIndex| && |rowIndex| - 1 <= rows
      invariant forall j :: 0 <= j < k ==> p[j].row < |rowIndex|
      invariant forall i :: 0 <= i < |rowIndex| ==> rowIndex[i] == CountBefore(p, i)
    {
      while p[k].row > |rowIndex| - 1
        invariant 0 < |rowIndex| && |rowIndex| - 1 <= rows
        invariant forall j :: 0 <= j < k ==> p[j].row < |rowIndex|
        invariant forall i :: 0 <= i < |rowIndex| ==> rowIndex[i] == CountBefore(p, i)
        decreases p[k].row - |rowIndex|
      {
        CountSplit(p, |rowIndex|, k);
        rowIndex := rowIndex + [|cols|];
      }
      values := values + [drawn[k]];
      cols := cols + [p[k].column];
      k := k + 1;
    }
    while |rowIndex| < rows + 1
      invariant 0 < |rowIndex| <= rows + 1
      invariant forall j :: 0 <= j < |p| ==> p[j].row < |rowIndex|
      invariant forall i :: 0 <= i < |rowIndex| ==> rowIndex[i] == CountBefore(p, i)
    {
      CountSplit(p, |rowIndex|, |p|);
      rowIndex := rowIndex + [|cols|];
    }
    CountAll(p, rows);
    forall i, j | 0 <= i <= j <= rows
      ensures rowIndex[i] <= rowIndex[j]
    {
      CountMonotone(p, i, j);
    }
    s := Sparse(rows, columns, values, cols, rowIndex);
    forall i | 0 <= i < rows
      ensures s.RowColumns(i) == ColumnsOf(p, i)
    {
      RowIsStretch(p, i);
    }
  }
}
