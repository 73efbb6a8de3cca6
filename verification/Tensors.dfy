/** Row-major tensors as the converters use them: a flat sequence of elements read through a
    shape. Reshape keeps the sequence; a transposition followed by Materialize rearranges it.
    Every transposition in the code exchanges two neighbouring axes. */
module Tensors {
  import opened Arithmetic

  function Size(shape: seq<nat>): nat {
    if shape == [] then 1 else shape[0] * Size(shape[1..])
  }

  predicate InShape(shape: seq<nat>, idx: seq<nat>) {
    |idx| == |shape| && forall i :: 0 <= i < |idx| ==> idx[i] < shape[i]
  }

  /** The place of a multi-index. */
  function Offset(shape: seq<nat>, idx: seq<nat>): (k: nat)
    requires InShape(shape, idx)
    ensures k < Size(shape)
  {
    if shape == [] then 0
    else
      assert InShape(shape[1..], idx[1..]);
      var rest := Offset(shape[1..], idx[1..]);
      RowBound(idx[0], shape[0], Size(shape[1..]), rest);
      idx[0] * Size(shape[1..]) + rest
  }

  /** Offsets in a three-axis shape, with the last two axes taken together or apart. */
  lemma Nest(x: nat, n: nat, w: nat, h: nat, c: nat)
    ensures (x * n + h) * w + c == x * (n * w) + (h * w + c)
  {
    assert (x * n + h) * w == x * n * w + h * w;
    assert x * n * w == x * (n * w);
  }

  lemma RowBound(i: nat, n: nat, w: nat, r: nat)
    requires i < n && r < w
    ensures 0 <= i * w + r < n * w
  {
    MulMono(i + 1, n, w);
    MulStep(i, w);
    MulSign(i, w);
  }

  lemma SplitRow(k: nat, n: nat, w: nat)
    requires k < n * w
    ensures 0 < w && k / w < n && k % w < w && k == (k / w) * w + k % w
  {
    if w != 0 && k / w >= n {
      MulMono(n, k / w, w);
    }
  }

  lemma JoinRow(i: nat, w: nat, r: nat)
    requires r < w
    ensures 0 <= i * w + r && (i * w + r) / w == i && (i * w + r) % w == r
  {
    MulSign(i, w);
    DivUnique(i * w + r, w, i, r);
  }

  /** The multi-index of a place. */
  function Index(shape: seq<nat>, k: nat): (idx: seq<nat>)
    requires k < Size(shape)
    ensures InShape(shape, idx)
  {
    if shape == [] then []
    else
      var w := Size(shape[1..]);
      SplitRow(k, shape[0], w);
      [k / w] + Index(shape[1..], k % w)
  }

  lemma {:induction false} OffsetOfIndex(shape: seq<nat>, k: nat)
    requires k < Size(shape)
    ensures Offset(shape, Index(shape, k)) == k
  {
    if shape != [] {
      var w := Size(shape[1..]);
      SplitRow(k, shape[0], w);
      OffsetOfIndex(shape[1..], k % w);
      assert Index(shape, k)[1..] == Index(shape[1..], k % w);
    }
  }

  lemma {:induction false} IndexOfOffset(shape: seq<nat>, idx: seq<nat>)
    requires InShape(shape, idx)
    ensures Index(shape, Offset(shape, idx)) == idx
  {
    if shape != [] {
      assert InShape(shape[1..], idx[1..]);
      IndexOfOffset(shape[1..], idx[1..]);
      JoinRow(idx[0], Size(shape[1..]), Offset(shape[1..], idx[1..]));
      assert idx == [idx[0]] + idx[1..];
    }
  }

  // ---------- exchanging two axes ----------

  /** Entries d and d + 1 exchanged. */
  function Swapped<T>(s: seq<T>, d: nat): (r: seq<T>)
    requires d + 1 < |s|
    ensures |r| == |s|
  {
    s[d := s[d + 1]][d + 1 := s[d]]
  }

  lemma SwappedTwice<T>(s: seq<T>, d: nat)
    requires d + 1 < |s|
    ensures Swapped(Swapped(s, d), d) == s
  {
  }

  lemma {:induction false} SizeSwapped(shape: seq<nat>, d: nat)
    requires d + 1 < |shape|
    ensures Size(Swapped(shape, d)) == Size(shape)
  {
    var s := Swapped(shape, d);
    if d == 0 {
      assert s[1..][1..] == shape[1..][1..];
      MulThree(shape[0], shape[1], Size(shape[1..][1..]));
    } else {
      assert s[1..] == Swapped(shape[1..], d - 1);
      SizeSwapped(shape[1..], d - 1);
    }
  }

  lemma MulThree(a: nat, b: nat, c: nat)
    ensures a * (b * c) == b * (a * c)
  {
    assert a * (b * c) == (a * b) * c == (b * a) * c == b * (a * c);
  }

  lemma SwappedInShape(shape: seq<nat>, d: nat, idx: seq<nat>)
    requires d + 1 < |shape| && InShape(Swapped(shape, d), idx)
    ensures InShape(shape, Swapped(idx, d))
  {
  }

  /** Transpose and Materialize: the axes d and d + 1 of data, of the given shape, exchanged. */
  function Transposed<T>(data: seq<T>, shape: seq<nat>, d: nat): (r: seq<T>)
    requires d + 1 < |shape| && |data| == Size(shape)
    ensures |r| == |data| == Size(Swapped(shape, d))
  {
    SizeSwapped(shape, d);
    seq(|data|, k requires 0 <= k < |data| =>
      var idx := Index(Swapped(shape, d), k);
      SwappedInShape(shape, d, idx);
      data[Offset(shape, Swapped(idx, d))])
  }

  /** The element with a given index is the one that had the index with the axes exchanged. */
  lemma TransposedAt<T>(data: seq<T>, shape: seq<nat>, d: nat, idx: seq<nat>)
    requires d + 1 < |shape| && |data| == Size(shape) && InShape(Swapped(shape, d), idx)
    ensures InShape(shape, Swapped(idx, d))
    ensures Transposed(data, shape, d)[Offset(Swapped(shape, d), idx)] == data[Offset(shape, Swapped(idx, d))]
  {
    SizeSwapped(shape, d);
    SwappedInShape(shape, d, idx);
    IndexOfOffset(Swapped(shape, d), idx);
  }

  /** Exchanging the same axes again gives the data back. */
  lemma TransposedTwice<T>(data: seq<T>, shape: seq<nat>, d: nat)
    requires d + 1 < |shape| && |data| == Size(shape)
    ensures Transposed(Transposed(data, shape, d), Swapped(shape, d), d) == data
  {
    SwappedTwice(shape, d);
    var once := Transposed(data, shape, d);
    var twice := Transposed(once, Swapped(shape, d), d);
    forall k | 0 <= k < |data| ensures twice[k] == data[k] {
      var idx := Index(shape, k);
      OffsetOfIndex(shape, k);
      TransposedAt(once, Swapped(shape, d), d, idx);
      SwappedInShape(Swapped(shape, d), d, idx);
      TransposedAt(data, shape, d, Swapped(idx, d));
      SwappedTwice(idx, d);
    }
  }

  // ---------- shapes glued together ----------

  lemma {:induction false} SizeAppend(a: seq<nat>, b: seq<nat>)
    ensures Size(a + b) == Size(a) * Size(b)
  {
    if a == [] {
      assert a + b == b;
    } else {
      assert (a + b)[1..] == a[1..] + b;
      SizeAppend(a[1..], b);
      assert a[0] * (Size(a[1..]) * Size(b)) == (a[0] * Size(a[1..])) * Size(b);
    }
  }

  lemma {:induction false} OffsetAppend(a: seq<nat>, b: seq<nat>, i: seq<nat>, j: seq<nat>)
    requires InShape(a, i) && InShape(b, j)
    ensures InShape(a + b, i + j) && Offset(a + b, i + j) == Offset(a, i) * Size(b) + Offset(b, j)
  {
    if a == [] {
      assert a + b == b && i + j == j;
    } else {
      assert (a + b)[1..] == a[1..] + b && (i + j)[1..] == i[1..] + j;
      assert InShape(a[1..], i[1..]);
      OffsetAppend(a[1..], b, i[1..], j);
      SizeAppend(a[1..], b);
      Distribute(i[0], Size(a[1..]), Size(b), Offset(a[1..], i[1..]));
    }
  }

  lemma Distribute(x: nat, y: nat, z: nat, w: nat)
    ensures x * (y * z) + w * z == (x * y + w) * z
  {
    assert x * (y * z) == (x * y) * z;
    assert (x * y + w) * z == (x * y) * z + w * z;
  }

  lemma OneSize(n: nat)
    ensures Size([n]) == n
  {
    assert [n][1..] == [];
  }

  /** A shape of one axis. */
  lemma OneAxis(n: nat, k: nat)
    requires k < n
    ensures Size([n]) == n && InShape([n], [k]) && Offset([n], [k]) == k
  {
    assert [n][1..] == [] && [k][1..] == [];
  }

  // ---------- matrices ----------

  /** Rows and columns exchanged. */
  function Flipped<T>(data: seq<T>, rows: nat, cols: nat): (r: seq<T>)
    requires |data| == rows * cols
    ensures |r| == cols * rows
  {
    TwoAxes(rows, cols);
    TwoAxes(cols, rows);
    Transposed(data, [rows, cols], 0)
  }

  lemma TwoAxes(rows: nat, cols: nat)
    ensures Size([rows, cols]) == rows * cols
  {
    OneSize(cols);
    assert [rows, cols][1..] == [cols];
  }

  lemma TwoIndices(rows: nat, cols: nat, r: nat, c: nat)
    requires r < rows && c < cols
    ensures InShape([rows, cols], [r, c]) && Offset([rows, cols], [r, c]) == r * cols + c
  {
    assert [rows, cols][1..] == [cols] && [cols][1..] == [] && [r, c][1..] == [c] && [c][1..] == [];
  }

  lemma FlippedAt<T>(data: seq<T>, rows: nat, cols: nat, r: nat, c: nat)
    requires |data| == rows * cols && r < rows && c < cols
    ensures 0 <= c * rows + r < cols * rows && 0 <= r * cols + c < rows * cols
    ensures Flipped(data, rows, cols)[c * rows + r] == data[r * cols + c]
  {
    RowBound(c, cols, rows, r);
    RowBound(r, rows, cols, c);
    TwoAxes(rows, cols);
    TwoIndices(rows, cols, r, c);
    TwoIndices(cols, rows, c, r);
    assert Swapped([rows, cols], 0) == [cols, rows] && Swapped([c, r], 0) == [r, c];
    TransposedAt(data, [rows, cols], 0, [c, r]);
  }
}
