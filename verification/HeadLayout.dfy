/** convert/convert_qwen3next.go: moving value heads from grouped to tiled order, and splitting
    the fused QKVZ projection. */
module HeadLayout {
  import opened Arithmetic
  import opened Tensors

  // ---------- reorderHeadLayout ----------

  /** The axis meant by dim, counted from the end when negative; None when there is no such axis. */
  datatype Axis = NoAxis | At(dim: nat)

  function AxisOf(shape: seq<nat>, dim: int): (a: Axis)
    ensures a.At? ==> a.dim < |shape|
  {
    var d := if dim < 0 then dim + |shape| else dim;
    if 0 <= d < |shape| then At(d) else NoAxis
  }

  /** reorderHeadLayout applies: there is such an axis, and it holds all heads. */
  predicate Applies(shape: seq<nat>, dim: int, numK: int, numV: int, headDim: int) {
    0 < numK && 0 < numV && 0 < headDim && AxisOf(shape, dim).At? && shape[AxisOf(shape, dim).dim] == numK * numV * headDim
  }

  /** The heads as axes of their own. */
  function HeadShape(shape: seq<nat>, dim: nat, numK: nat, numV: nat, headDim: nat): seq<nat>
    requires dim < |shape|
  {
    shape[..dim] + [numK, numV, headDim] + shape[dim + 1..]
  }

  lemma HeadShapeSize(shape: seq<nat>, dim: nat, numK: nat, numV: nat, headDim: nat)
    requires dim < |shape| && shape[dim] == numK * numV * headDim
    ensures Size(HeadShape(shape, dim, numK, numV, headDim)) == Size(shape)
    ensures Swapped(HeadShape(shape, dim, numK, numV, headDim), dim) == HeadShape(shape, dim, numV, numK, headDim)
  {
    hide Size;
    var a, b, heads := shape[..dim], shape[dim + 1..], [numK, numV, headDim];
    OneSize(shape[dim]);
    ThreeSize(numK, numV, headDim);
    SameSize([shape[dim]], heads, b);
    SameSize'(a, [shape[dim]] + b, heads + b);
    assert shape == a + ([shape[dim]] + b) && HeadShape(shape, dim, numK, numV, headDim) == a + (heads + b);
    HeadShapeSwapped(shape, dim, numK, numV, headDim);
  }

  lemma HeadShapeSwapped(shape: seq<nat>, dim: nat, numK: nat, numV: nat, headDim: nat)
    requires dim < |shape|
    ensures Swapped(HeadShape(shape, dim, numK, numV, headDim), dim) == HeadShape(shape, dim, numV, numK, headDim)
  {
  }

  lemma SameSize(x: seq<nat>, y: seq<nat>, b: seq<nat>)
    requires Size(x) == Size(y)
    ensures Size(x + b) == Size(y + b)
  {
    SizeAppend(x, b);
    SizeAppend(y, b);
  }

  lemma SameSize'(a: seq<nat>, x: seq<nat>, y: seq<nat>)
    requires Size(x) == Size(y)
    ensures Size(a + x) == Size(a + y)
  {
    SizeAppend(a, x);
    SizeAppend(a, y);
  }

  lemma ThreeSize(a: nat, b: nat, c: nat)
    ensures Size([a, b, c]) == a * b * c
  {
    assert [a, b, c][1..] == [b, c];
    TwoAxes(b, c);
    assert a * (b * c) == a * b * c;
  }

  /** reorderHeadLayout: the two head axes exchanged; shapes it does not fit stay as they are. */
  function Reordered<T>(data: seq<T>, shape: seq<nat>, dim: int, numK: int, numV: int, headDim: int): (r: seq<T>)
    requires |data| == Size(shape)
    ensures |r| == |data|
  {
    if Applies(shape, dim, numK, numV, headDim) then
      HeadShapeSize(shape, AxisOf(shape, dim).dim, numK, numV, headDim);
      Transposed(data, HeadShape(shape, AxisOf(shape, dim).dim, numK, numV, headDim), AxisOf(shape, dim).dim)
    else data
  }

  /** Reordering again with the two head factors exchanged is the identity, whatever the shape. */
  lemma ReorderedBack<T>(data: seq<T>, shape: seq<nat>, dim: int, numK: int, numV: int, headDim: int)
    requires |data| == Size(shape)
    ensures Reordered(Reordered(data, shape, dim, numK, numV, headDim), shape, dim, numV, numK, headDim) == data
  {
    if Applies(shape, dim, numK, numV, headDim) {
      var d := AxisOf(shape, dim).dim;
      assert numK * numV * headDim == numV * numK * headDim;
      HeadShapeSize(shape, d, numK, numV, headDim);
      HeadShapeSize(shape, d, numV, numK, headDim);
      TransposedTwice(data, HeadShape(shape, d, numK, numV, headDim), d);
    } else {
      Commute(numK, numV, headDim);
    }
  }

  lemma Commute(a: int, b: int, c: int)
    ensures a * b * c == b * a * c
  {
  }

  // ---------- along the first axis ----------

  /** The head position that tiled position x takes its element from. */
  function HeadSource(numK: nat, numV: nat, headDim: nat, x: nat): (y: nat)
    requires x < numK * numV * headDim
    ensures y < numK * numV * headDim
  {
    ThreeSize(numV, numK, headDim);
    ThreeSize(numK, numV, headDim);
    Commute(numK, numV, headDim);
    var idx := Index([numV, numK, headDim], x);
    assert Swapped([numK, numV, headDim], 0) == [numV, numK, headDim];
    SwappedInShape([numK, numV, headDim], 0, idx);
    Offset([numK, numV, headDim], Swapped(idx, 0))
  }

  /** The direction: value head v of key head k is taken from where the heads are grouped by key head
      to where they are tiled over the key heads. */
  lemma HeadSourceAt(numK: nat, numV: nat, headDim: nat, k: nat, v: nat, d: nat)
    requires k < numK && v < numV && d < headDim
    ensures 0 <= (v * numK + k) * headDim + d < numK * numV * headDim
    ensures HeadSource(numK, numV, headDim, (v * numK + k) * headDim + d) == (k * numV + v) * headDim + d
  {
    ThreeSize(numV, numK, headDim);
    ThreeSize(numK, numV, headDim);
    Commute(numK, numV, headDim);
    ThreeOffset(numV, numK, headDim, v, k, d);
    ThreeOffset(numK, numV, headDim, k, v, d);
    IndexOfOffset([numV, numK, headDim], [v, k, d]);
    assert Swapped([v, k, d], 0) == [k, v, d];
    hide Offset, Index, Size;
  }

  lemma ThreeOffset(a: nat, b: nat, c: nat, i: nat, j: nat, d: nat)
    requires i < a && j < b && d < c
    ensures InShape([a, b, c], [i, j, d]) && Offset([a, b, c], [i, j, d]) == (i * b + j) * c + d
  {
    hide Size, Offset;
    assert [a, b, c] == [a, b] + [c] && [i, j, d] == [i, j] + [d];
    OneAxis(c, d);
    TwoIndices(a, b, i, j);
    OffsetAppend([a, b], [c], [i, j], [d]);
  }

  /** So in the packed projection: value head v of key head k comes from the group of k. */
  lemma FeatureSourceAt(h: Heads, k: nat, v: nat, d: nat)
    requires 0 < h.numK && Grouped(h) && k < h.numK && v < h.numV / h.numK && d < h.headV
    ensures var x := (v * h.numK + k) * h.headV + d;
      0 <= x < VDim(h) && FeatureSource(h, QKDim(h) + x) == QKDim(h) + (k * (h.numV / h.numK) + v) * h.headV + d
  {
    HeadSourceAt(h.numK, h.numV / h.numK, h.headV, k, v, d);
    hide HeadSource;
  }

  /** Head positions are permuted: exchanging the factors undoes it. */
  lemma HeadSourceBack(numK: nat, numV: nat, headDim: nat, x: nat)
    requires x < numK * numV * headDim
    ensures HeadSource(numK, numV, headDim, x) < numV * numK * headDim
    ensures HeadSource(numV, numK, headDim, HeadSource(numK, numV, headDim, x)) == x
  {
    ThreeSize(numV, numK, headDim);
    ThreeSize(numK, numV, headDim);
    Commute(numK, numV, headDim);
    var idx := Index([numV, numK, headDim], x);
    assert Swapped([numK, numV, headDim], 0) == [numV, numK, headDim];
    SwappedInShape([numK, numV, headDim], 0, idx);
    IndexOfOffset([numK, numV, headDim], Swapped(idx, 0));
    SwappedTwice(idx, 0);
    OffsetOfIndex([numV, numK, headDim], x);
  }

  /** In a matrix whose rows are head positions, whole rows move. */
  lemma ReorderedRows<T>(data: seq<T>, rest: seq<nat>, numK: nat, numV: nat, headDim: nat, x: nat, j: nat)
    requires 0 < numK && 0 < numV && 0 < headDim && |data| == Size([numK * numV * headDim] + rest)
    requires x < numK * numV * headDim && j < Size(rest)
    ensures |data| == numK * numV * headDim * Size(rest)
    ensures 0 <= x * Size(rest) + j < |data| && 0 <= HeadSource(numK, numV, headDim, x) * Size(rest) + j < |data|
    ensures Reordered(data, [numK * numV * headDim] + rest, 0, numK, numV, headDim)[x * Size(rest) + j]
         == data[HeadSource(numK, numV, headDim, x) * Size(rest) + j]
  {
    hide Size, Offset, Index, Transposed, InShape;
    var n, w := numK * numV * headDim, Size(rest);
    SizeAppend([n], rest);
    OneSize(n);
    RowBound(x, n, w, j);
    RowBound(HeadSource(numK, numV, headDim, x), n, w, j);
    HeadShapeSize([n] + rest, 0, numK, numV, headDim);
    var grouped, tiled := [numK, numV, headDim], [numV, numK, headDim];
    assert HeadShape([n] + rest, 0, numK, numV, headDim) == grouped + rest && Swapped(grouped + rest, 0) == tiled + rest;
    ThreeSize(numV, numK, headDim);
    Commute(numK, numV, headDim);
    var idx, tail := Index(tiled, x), Index(rest, j);
    HeadIndex(numK, numV, headDim, rest, x, j);
    TransposedAt(data, grouped + rest, 0, idx + tail);
  }

  /** The offsets of head position x and remaining offset j, before and after the exchange. */
  lemma HeadIndex(numK: nat, numV: nat, headDim: nat, rest: seq<nat>, x: nat, j: nat)
    requires x < numK * numV * headDim && j < Size(rest)
    ensures x < Size([numV, numK, headDim])
    ensures
      var grouped, tiled := [numK, numV, headDim], [numV, numK, headDim];
      var idx, tail := Index(tiled, x), Index(rest, j);
      && InShape(tiled + rest, idx + tail) && Offset(tiled + rest, idx + tail) == x * Size(rest) + j
      && |idx| == 3 && Swapped(idx + tail, 0) == Swapped(idx, 0) + tail && InShape(grouped + rest, Swapped(idx, 0) + tail)
      && Offset(grouped + rest, Swapped(idx, 0) + tail) == HeadSource(numK, numV, headDim, x) * Size(rest) + j
  {
    hide Size, Offset, Index;
    ThreeSize(numV, numK, headDim);
    Commute(numK, numV, headDim);
    var grouped, tiled := [numK, numV, headDim], [numV, numK, headDim];
    var idx, tail := Index(tiled, x), Index(rest, j);
    OffsetOfIndex(tiled, x);
    OffsetOfIndex(rest, j);
    OffsetAppend(tiled, rest, idx, tail);
    assert Swapped(grouped, 0) == tiled;
    SwappedInShape(grouped, 0, idx);
    OffsetAppend(grouped, rest, Swapped(idx, 0), tail);
  }

  /** The same for a single row. */
  lemma ReorderedVector<T>(data: seq<T>, numK: nat, numV: nat, headDim: nat, x: nat)
    requires 0 < numK && 0 < numV && 0 < headDim && |data| == numK * numV * headDim && x < |data|
    ensures |data| == Size([numK * numV * headDim])
    ensures Reordered(data, [numK * numV * headDim], 0, numK, numV, headDim)[x] == data[HeadSource(numK, numV, headDim, x)]
  {
    hide Reordered, HeadSource, Offset;
    OneSize(|data|);
    assert [|data|] + [] == [|data|] && Size([]) == 1;
    ReorderedRows(data, [], numK, numV, headDim, x, 0);
  }

  // ---------- repackAttnQKV ----------

  datatype Heads = Heads(reorder: bool, numK: nat, numV: nat, headK: nat, headV: nat)

  function QKDim(h: Heads): nat {
    h.headK * h.numK + h.headK * h.numK
  }

  function VDim(h: Heads): nat {
    h.headV * h.numV
  }

  function QKVDim(h: Heads): nat {
    QKDim(h) + VDim(h)
  }

  /** Value heads come in whole groups, one for every key head. */
  predicate Grouped(h: Heads)
    requires 0 < h.numK
  {
    0 < h.headV && 0 < h.numV / h.numK && VDim(h) == h.numK * (h.numV / h.numK) * h.headV
  }

  /** The feature that feature x of the packed projection takes its weights from: Q and K stay,
      the heads of V are reordered. */
  function FeatureSource(h: Heads, x: nat): (y: nat)
    requires 0 < h.numK && x < QKVDim(h)
    ensures y < QKVDim(h) && (x < QKDim(h) ==> y == x) && (x >= QKDim(h) ==> y >= QKDim(h))
  {
    if x < QKDim(h) || !Grouped(h) then x
    else QKDim(h) + HeadSource(h.numK, h.numV / h.numK, h.headV, x - QKDim(h))
  }

  /** Every feature is used, and only once. */
  lemma FeatureSourceInjective(h: Heads, x: nat, y: nat)
    requires 0 < h.numK && x < QKVDim(h) && y < QKVDim(h) && FeatureSource(h, x) == FeatureSource(h, y)
    ensures x == y
  {
    hide HeadSource;
    if Grouped(h) {
      if x >= QKDim(h) {
        HeadSourceBack(h.numK, h.numV / h.numK, h.headV, x - QKDim(h));
      }
      if y >= QKDim(h) {
        HeadSourceBack(h.numK, h.numV / h.numK, h.headV, y - QKDim(h));
      }
    }
  }

  predicate Matrix<T>(data: seq<T>, rows: nat, cols: nat) {
    |data| == rows * cols
  }

  /** The features are the rows of the matrix. */
  function RowsTaken<T>(h: Heads, data: seq<T>, rows: nat, cols: nat): (r: seq<T>)
    requires 0 < h.numK && Matrix(data, rows, cols) && rows == QKVDim(h)
    ensures |r| == |data|
  {
    seq(|data|, k requires 0 <= k < |data| =>
      SplitRow(k, rows, cols);
      RowBound(FeatureSource(h, k / cols), rows, cols, k % cols);
      data[FeatureSource(h, k / cols) * cols + k % cols])
  }

  /** The features are the columns of the matrix. */
  function ColsTaken<T>(h: Heads, data: seq<T>, rows: nat, cols: nat): (r: seq<T>)
    requires 0 < h.numK && Matrix(data, rows, cols) && cols == QKVDim(h)
    ensures |r| == |data|
  {
    seq(|data|, k requires 0 <= k < |data| =>
      SplitRow(k, rows, cols);
      RowBound(k / cols, rows, cols, FeatureSource(h, k % cols));
      data[(k / cols) * cols + FeatureSource(h, k % cols)])
  }

  function RepackedQKV<T>(h: Heads, data: seq<T>, rows: nat, cols: nat): (r: seq<T>)
    requires 0 < h.numK && Matrix(data, rows, cols)
    ensures |r| == |data|
  {
    if !h.reorder then data
    else if rows == QKVDim(h) then RowsTaken(h, data, rows, cols)
    else if cols == QKVDim(h) then ColsTaken(h, data, rows, cols)
    else data
  }

  lemma RowsTakenAt<T>(h: Heads, data: seq<T>, rows: nat, cols: nat, r: nat, c: nat)
    requires 0 < h.numK && Matrix(data, rows, cols) && rows == QKVDim(h) && r < rows && c < cols
    ensures 0 <= r * cols + c < |data| && 0 <= FeatureSource(h, r) * cols + c < |data|
    ensures RowsTaken(h, data, rows, cols)[r * cols + c] == data[FeatureSource(h, r) * cols + c]
  {
    RowBound(r, rows, cols, c);
    RowBound(FeatureSource(h, r), rows, cols, c);
    JoinRow(r, cols, c);
  }

  lemma ColsTakenAt<T>(h: Heads, data: seq<T>, rows: nat, cols: nat, r: nat, c: nat)
    requires 0 < h.numK && Matrix(data, rows, cols) && cols == QKVDim(h) && r < rows && c < cols
    ensures 0 <= r * cols + c < |data| && 0 <= r * cols + FeatureSource(h, c) < |data|
    ensures ColsTaken(h, data, rows, cols)[r * cols + c] == data[r * cols + FeatureSource(h, c)]
  {
    RowBound(r, rows, cols, c);
    RowBound(r, rows, cols, FeatureSource(h, c));
    JoinRow(r, cols, c);
  }

  /** What a repacked matrix with the features as rows holds: the rows of Q and K where they were, and
      the rows of value head v of key head k, grouped by key head in the input, tiled over the key heads. */
  lemma RepackedRows<T>(h: Heads, data: seq<T>, cols: nat, k: nat, v: nat, d: nat, c: nat)
    requires 0 < h.numK && Matrix(data, QKVDim(h), cols) && h.reorder && Grouped(h)
    requires k < h.numK && v < h.numV / h.numK && d < h.headV && c < cols
    ensures var qk := h.headK * h.numK + h.headK * h.numK;
            var to, from := qk + ((v * h.numK + k) * h.headV + d), qk + ((k * (h.numV / h.numK) + v) * h.headV + d);
      && 0 <= to * cols + c < |data| && 0 <= from * cols + c < |data|
      && RepackedQKV(h, data, QKVDim(h), cols)[to * cols + c] == data[from * cols + c]
  {
    hide FeatureSource, Grouped, RowsTaken, Matrix;
    FeatureSourceAt(h, k, v, d);
    RowsTakenAt(h, data, QKVDim(h), cols, QKDim(h) + ((v * h.numK + k) * h.headV + d), c);
  }

  lemma RepackedKeeps<T>(h: Heads, data: seq<T>, cols: nat, x: nat, c: nat)
    requires 0 < h.numK && Matrix(data, QKVDim(h), cols) && h.reorder
    requires x < h.headK * h.numK + h.headK * h.numK && c < cols
    ensures 0 <= x * cols + c < |data| && RepackedQKV(h, data, QKVDim(h), cols)[x * cols + c] == data[x * cols + c]
  {
    RowsTakenAt(h, data, QKVDim(h), cols, x, c);
  }

  /** The two layouts agree: repacking the flipped matrix gives the repacked matrix flipped, as long
      as the shape says which axis holds the features. */
  lemma LayoutsAgree<T>(h: Heads, data: seq<T>, rows: nat, cols: nat)
    requires 0 < h.numK && Matrix(data, rows, cols) && !(rows == QKVDim(h) && cols == QKVDim(h))
    ensures RepackedQKV(h, Flipped(data, rows, cols), cols, rows) == Flipped(RepackedQKV(h, data, rows, cols), rows, cols)
  {
    var flipped, repacked := Flipped(data, rows, cols), RepackedQKV(h, data, rows, cols);
    var a, b := RepackedQKV(h, flipped, cols, rows), Flipped(repacked, rows, cols);
    hide Flipped, RowsTaken, ColsTaken;
    forall k | 0 <= k < |a| ensures a[k] == b[k] {
      SplitRow(k, cols, rows);
      LayoutsAgreeAt(h, data, rows, cols, k % rows, k / rows);
    }
  }

  lemma LayoutsAgreeAt<T>(h: Heads, data: seq<T>, rows: nat, cols: nat, r: nat, c: nat)
    requires 0 < h.numK && Matrix(data, rows, cols) && !(rows == QKVDim(h) && cols == QKVDim(h)) && r < rows && c < cols
    ensures 0 <= c * rows + r < cols * rows
    ensures RepackedQKV(h, Flipped(data, rows, cols), cols, rows)[c * rows + r]
         == Flipped(RepackedQKV(h, data, rows, cols), rows, cols)[c * rows + r]
  {
    hide Flipped, RowsTaken, ColsTaken, FeatureSource;
    var flipped, repacked := Flipped(data, rows, cols), RepackedQKV(h, data, rows, cols);
    FlippedAt(repacked, rows, cols, r, c);
    FlippedAt(data, rows, cols, r, c);
    if h.reorder && rows == QKVDim(h) {
      RowsTakenAt(h, data, rows, cols, r, c);
      ColsTakenAt(h, flipped, cols, rows, c, r);
      FlippedAt(data, rows, cols, FeatureSource(h, r), c);
    } else if h.reorder && cols == QKVDim(h) {
      ColsTakenAt(h, data, rows, cols, r, c);
      RowsTakenAt(h, flipped, cols, rows, c, r);
      FlippedAt(data, rows, cols, r, FeatureSource(h, c));
    }
  }

  /** Go's copy into part of a buffer. */
  method CopyInto<T>(out: array<T>, at: nat, src: seq<T>)
    requires at + |src| <= out.Length
    modifies out
    ensures forall k :: 0 <= k < out.Length ==> out[k] == if at <= k < at + |src| then src[k - at] else old(out[k])
  {
    for i := 0 to |src|
      invariant forall k :: 0 <= k < out.Length ==> out[k] == if at <= k < at + i then src[k - at] else old(out[k])
    {
      out[at + i] := src[i];
    }
  }

  /** The value rows of a matrix with the features as rows. */
  lemma ValueRowsAt<T>(h: Heads, data: seq<T>, rows: nat, cols: nat, k: nat)
    requires 0 < h.numK && Matrix(data, rows, cols) && rows == QKVDim(h) && QKDim(h) * cols <= k < |data|
    ensures QKDim(h) * cols <= |data| && |data[QKDim(h) * cols..]| == Size([VDim(h), cols])
    ensures RowsTaken(h, data, rows, cols)[k]
         == Reordered(data[QKDim(h) * cols..], [VDim(h), cols], 0, h.numK, h.numV / h.numK, h.headV)[k - QKDim(h) * cols]
  {
    var r, c, qk := k / cols, k % cols, QKDim(h);
    SplitRow(k, rows, cols);
    RowsTakenAt(h, data, rows, cols, r, c);
    ValueSize(h, data, rows, cols);
    BelowRow(r, qk, cols, c);
    MulLess(r, qk, cols);
    hide *;
    if Grouped(h) {
      ValueRowMoved(h, data, rows, cols, r, c);
    } else {
      NotReordered(h, data[qk * cols..], cols);
      NotMoved(h, r);
    }
  }

  lemma NotMoved(h: Heads, x: nat)
    requires 0 < h.numK && x < QKVDim(h) && !Grouped(h)
    ensures FeatureSource(h, x) == x
  {
  }

  lemma ValueRowMoved<T>(h: Heads, data: seq<T>, rows: nat, cols: nat, r: nat, c: nat)
    requires 0 < h.numK && Matrix(data, rows, cols) && rows == QKVDim(h) && QKDim(h) <= r < rows && c < cols && Grouped(h)
    ensures 0 <= QKDim(h) * cols <= |data| && |data[QKDim(h) * cols..]| == Size([VDim(h), cols])
    ensures 0 <= r * cols - QKDim(h) * cols + c < |data| - QKDim(h) * cols && 0 <= FeatureSource(h, r) * cols + c < |data|
    ensures Reordered(data[QKDim(h) * cols..], [VDim(h), cols], 0, h.numK, h.numV / h.numK, h.headV)[r * cols - QKDim(h) * cols + c]
         == data[FeatureSource(h, r) * cols + c]
  {
    hide Reordered, HeadSource, Size;
    var qk := QKDim(h);
    var y := HeadSource(h.numK, h.numV / h.numK, h.headV, r - qk);
    assert FeatureSource(h, r) == qk + y;
    ValueSize(h, data, rows, cols);
    OneSize(cols);
    assert [VDim(h)] + [cols] == [VDim(h), cols];
    RowBound(FeatureSource(h, r), rows, cols, c);
    ReorderedRows(data[qk * cols..], [cols], h.numK, h.numV / h.numK, h.headV, r - qk, c);
    MulLess(r, qk, cols);
    MulLess(qk + y, qk, cols);
  }

  lemma ValueSize<T>(h: Heads, data: seq<T>, rows: nat, cols: nat)
    requires Matrix(data, rows, cols) && rows == QKVDim(h)
    ensures 0 <= QKDim(h) * cols <= |data| && |data| - QKDim(h) * cols == VDim(h) * cols == Size([VDim(h), cols])
  {
    TwoAxes(VDim(h), cols);
    assert (QKDim(h) + VDim(h)) * cols == QKDim(h) * cols + VDim(h) * cols;
    MulSign(VDim(h), cols);
    MulSign(QKDim(h), cols);
  }

  lemma BelowRow(r: nat, n: nat, w: nat, c: nat)
    requires c < w && n * w <= r * w + c
    ensures n <= r
  {
    if r < n {
      MulMono(r + 1, n, w);
      MulStep(r, w);
    }
  }

  lemma MulLess(a: int, b: int, w: int)
    ensures (a - b) * w == a * w - b * w
  {
  }

  lemma NotReordered<T>(h: Heads, data: seq<T>, cols: nat)
    requires 0 < h.numK && |data| == Size([VDim(h), cols]) && !Grouped(h)
    ensures Reordered(data, [VDim(h), cols], 0, h.numK, h.numV / h.numK, h.headV) == data
  {
  }

  /** The value part of one row of a matrix with the features as columns. */
  lemma ValueColsAt<T>(h: Heads, data: seq<T>, rows: nat, cols: nat, r: nat, x: nat)
    requires 0 < h.numK && Matrix(data, rows, cols) && cols == QKVDim(h) && r < rows && x < VDim(h)
    ensures 0 <= r * cols + QKDim(h) && r * cols + cols <= |data| && Size([VDim(h)]) == VDim(h)
    ensures ColsTaken(h, data, rows, cols)[r * cols + QKDim(h) + x]
         == Reordered(data[r * cols + QKDim(h)..r * cols + cols], [VDim(h)], 0, h.numK, h.numV / h.numK, h.headV)[x]
  {
    hide Reordered, ColsTaken, HeadSource, Size;
    ColsTakenAt(h, data, rows, cols, r, QKDim(h) + x);
    OneSize(VDim(h));
    assert QKDim(h) <= cols;
    hide *;
    RowBound(r, rows, cols, cols - 1);
    MulSign(r, cols);
    var row := data[r * cols + QKDim(h)..r * cols + cols];
    if Grouped(h) {
      ValueMoved(h, x);
      ReorderedVector(row, h.numK, h.numV / h.numK, h.headV, x);
    } else {
      RowNotReordered(h, row);
      NotMoved(h, QKDim(h) + x);
    }
  }

  lemma ValueMoved(h: Heads, x: nat)
    requires 0 < h.numK && x < VDim(h) && Grouped(h)
    ensures QKDim(h) + x < QKVDim(h) && 0 < h.numV / h.numK && 0 < h.headV && VDim(h) == h.numK * (h.numV / h.numK) * h.headV
    ensures FeatureSource(h, QKDim(h) + x) == QKDim(h) + HeadSource(h.numK, h.numV / h.numK, h.headV, x)
  {
    hide HeadSource;
  }

  lemma RowNotReordered<T>(h: Heads, row: seq<T>)
    requires 0 < h.numK && |row| == Size([VDim(h)]) && !Grouped(h)
    ensures Reordered(row, [VDim(h)], 0, h.numK, h.numV / h.numK, h.headV) == row
  {
  }

  /** repackAttnQKV on a matrix with the features as rows: the Q and K rows copied, the rest
      reordered as one block. */
  method RepackRows<T(0)>(h: Heads, data: seq<T>, rows: nat, cols: nat) returns (result: seq<T>)
    requires 0 < h.numK && Matrix(data, rows, cols) && rows == QKVDim(h)
    ensures result == RowsTaken(h, data, rows, cols)
  {
    hide Reordered, Size, RowsTaken;
    ValueSize(h, data, rows, cols);
    var out := new T[|data|];
    var qkSize := QKDim(h) * cols;
    CopyInto(out, 0, data[..qkSize]);
    var reorderedV := Reordered(data[qkSize..], [VDim(h), cols], 0, h.numK, h.numV / h.numK, h.headV);
    CopyInto(out, qkSize, reorderedV);
    result := out[..];
    forall k | 0 <= k < |data| ensures result[k] == RowsTaken(h, data, rows, cols)[k] {
      if k < qkSize {
        KeptRowsAt(h, data, rows, cols, k);
      } else {
        ValueRowsAt(h, data, rows, cols, k);
      }
    }
  }

  lemma KeptRowsAt<T>(h: Heads, data: seq<T>, rows: nat, cols: nat, k: nat)
    requires 0 < h.numK && Matrix(data, rows, cols) && rows == QKVDim(h) && k < |data| && k < QKDim(h) * cols
    ensures RowsTaken(h, data, rows, cols)[k] == data[k]
  {
    SplitRow(k, QKDim(h), cols);
  }

  /** repackAttnQKV on a matrix with the features as columns: row by row, in a copy. */
  method RepackCols<T(0)>(h: Heads, data: seq<T>, rows: nat, cols: nat) returns (result: seq<T>)
    requires 0 < h.numK && Matrix(data, rows, cols) && cols == QKVDim(h)
    ensures result == ColsTaken(h, data, rows, cols)
  {
    hide ColsTaken;
    var out := new T[|data|];
    CopyInto(out, 0, data);
    ghost var goal := ColsTaken(h, data, rows, cols);
    for r := 0 to rows
      invariant 0 <= r * cols <= |data|
      invariant forall k :: 0 <= k < |data| ==> out[k] == if k < r * cols then goal[k] else data[k]
    {
      RepackRow(h, data, rows, cols, r, out);
    }
    result := out[..];
  }

  /** The loop's body. */
  method RepackRow<T>(h: Heads, ghost data: seq<T>, ghost rows: nat, cols: nat, r: nat, out: array<T>)
    requires 0 < h.numK && Matrix(data, rows, cols) && cols == QKVDim(h) && r < rows && out.Length == |data|
    requires 0 <= r * cols <= |data|
    requires forall k :: 0 <= k < |data| ==> out[k] == if k < r * cols then ColsTaken(h, data, rows, cols)[k] else data[k]
    modifies out
    ensures 0 <= (r + 1) * cols <= |data|
    ensures forall k :: 0 <= k < |data| ==> out[k] == if k < (r + 1) * cols then ColsTaken(h, data, rows, cols)[k] else data[k]
  {
    hide ColsTaken, Reordered;
    MulStep(r, cols);
    MulMono(r + 1, rows, cols);
    OneSize(VDim(h));
    var vStart, vEnd := r * cols + QKDim(h), r * cols + cols;
    assert out[vStart..vEnd] == data[vStart..vEnd];
    var reorderedV := Reordered(out[vStart..vEnd], [VDim(h)], 0, h.numK, h.numV / h.numK, h.headV);
    CopyInto(out, vStart, reorderedV);
    forall k | r * cols <= k < vEnd ensures out[k] == ColsTaken(h, data, rows, cols)[k] {
      if k < vStart {
        KeptColsAt(h, data, rows, cols, r, k - r * cols);
      } else {
        ValueColsAt(h, data, rows, cols, r, k - vStart);
      }
    }
  }

  lemma KeptColsAt<T>(h: Heads, data: seq<T>, rows: nat, cols: nat, r: nat, c: nat)
    requires 0 < h.numK && Matrix(data, rows, cols) && cols == QKVDim(h) && r < rows && c < QKDim(h)
    ensures 0 <= r * cols + c < |data| && ColsTaken(h, data, rows, cols)[r * cols + c] == data[r * cols + c]
  {
    ColsTakenAt(h, data, rows, cols, r, c);
  }

  /** repackAttnQKV. */
  method RepackAttnQKV<T(0)>(h: Heads, data: seq<T>, shape: seq<nat>) returns (result: seq<T>)
    requires 0 < h.numK && (|shape| == 2 ==> Matrix(data, shape[0], shape[1]))
    ensures result == if |shape| == 2 then RepackedQKV(h, data, shape[0], shape[1]) else data
  {
    if !h.reorder || |shape| != 2 {
      return data;
    }
    var rows, cols := shape[0], shape[1];
    if rows == QKVDim(h) {
      result := RepackRows(h, data, rows, cols);
    } else if cols == QKVDim(h) {
      result := RepackCols(h, data, rows, cols);
    } else {
      result := data;
    }
  }
}
