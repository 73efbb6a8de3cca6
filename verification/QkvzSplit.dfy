/** qkvzSpec and repackQKVZ (convert/convert_qwen3next.go): the rows of the fused projection, packed
    key head by key head as query, key, values and gates, dealt out to two tensors. */
module QkvzSplit {
  import opened Wrappers
  import opened Arithmetic
  import opened Tensors

  datatype Spec = Spec(hidden: nat, headK: nat, headV: nat, numK: nat, numV: nat, qkvzDim: nat, qkvOut: nat, gateOut: nat)

  /** qkvzSpec: a matrix whose rows are the queries, keys, values and gates of all heads, and no other. */
  function QkvzSpec(shape: seq<nat>, numK: nat, numV: nat, headK: nat, headV: nat): (r: Option<Spec>)
    ensures r.Some? <==> |shape| == 2 && 0 < numK && 0 < numV && 0 < headK && 0 < headV && numV % numK == 0
                         && shape[0] == 2 * (numK * headK) + 2 * (numV * headV)
    ensures r.Some? ==> |shape| == 2 && shape[0] == r.value.qkvzDim * r.value.numK && shape[1] == r.value.hidden && SpecOk(r.value)
  {
    if |shape| != 2 || numK == 0 || numV == 0 || headK == 0 || headV == 0 || numV % numK != 0 then None
    else
      var vPerHead := headV * (numV / numK);
      var qkvzDim := 2 * headK + 2 * vPerHead;
      PerHead(headV, numV, numK);
      AllRows(headK, vPerHead, numK);
      if shape[0] != qkvzDim * numK then None
      else
        Some(Spec(shape[1], headK, headV, numK, numV, qkvzDim, 2 * headK * numK + headV * numV, headV * numV))
  }

  lemma AllRows(headK: nat, vPerHead: nat, numK: nat)
    ensures (2 * headK + 2 * vPerHead) * numK == 2 * (numK * headK) + 2 * (numK * vPerHead)
  {
  }

  function VPerHead(s: Spec): nat
    requires 0 < s.numK
  {
    s.headV * (s.numV / s.numK)
  }

  /** The split accounts for every row. */
  predicate SpecOk(s: Spec) {
    && 0 < s.numK && 0 < s.headK && 0 < VPerHead(s) && s.qkvzDim == 2 * s.headK + 2 * VPerHead(s)
    && s.qkvOut == s.numK * s.headK + s.numK * s.headK + s.numK * VPerHead(s) && s.gateOut == s.numK * VPerHead(s)
    && s.qkvOut + s.gateOut == s.qkvzDim * s.numK
  }

  lemma PerHead(headV: nat, numV: nat, numK: nat)
    requires 0 < numK && 0 < numV && 0 < headV && numV % numK == 0
    ensures numK * (headV * (numV / numK)) == headV * numV && 0 < headV * (numV / numK)
  {
    var q := numV / numK;
    assert numV == q * numK;
    if q == 0 {
      assert false;
    }
    assert numK * (headV * q) == headV * (q * numK);
    MulMono(1, q, headV);
  }

  // ---------- the chain of tensor operations ----------

  /** Columns from..from + w of a matrix. */
  function Cols<T>(data: seq<T>, rows: nat, width: nat, from: nat, w: nat): (r: seq<T>)
    requires |data| == rows * width && from + w <= width
    ensures |r| == rows * w
  {
    MulSign(rows, w);
    seq(rows * w, k requires 0 <= k < rows * w =>
      SplitRow(k, rows, w);
      RowBound(k / w, rows, width, from + k % w);
      data[(k / w) * width + (from + k % w)])
  }

  lemma ColsAt<T>(data: seq<T>, rows: nat, width: nat, from: nat, w: nat, r: nat, c: nat)
    requires |data| == rows * width && from + w <= width && r < rows && c < w
    ensures 0 <= r * w + c < rows * w && 0 <= r * width + (from + c) < |data|
    ensures Cols(data, rows, width, from, w)[r * w + c] == data[r * width + (from + c)]
  {
    RowBound(r, rows, w, c);
    RowBound(r, rows, width, from + c);
    JoinRow(r, w, c);
  }

  function BesideElement<T>(a: seq<T>, b: seq<T>, rows: nat, wa: nat, wb: nat, r: nat, c: nat): T
    requires |a| == rows * wa && |b| == rows * wb && r < rows && c < wa + wb
  {
    if c < wa then
      RowBound(r, rows, wa, c);
      a[r * wa + c]
    else
      RowBound(r, rows, wb, c - wa);
      b[r * wb + (c - wa)]
  }

  /** Two matrices side by side, w wide together. */
  function Beside<T>(a: seq<T>, b: seq<T>, rows: nat, wa: nat, wb: nat, w: nat): (r: seq<T>)
    requires |a| == rows * wa && |b| == rows * wb && w == wa + wb
    ensures |r| == rows * w
  {
    MulSign(rows, w);
    seq(rows * w, k requires 0 <= k < rows * w =>
      SplitRow(k, rows, w);
      BesideElement(a, b, rows, wa, wb, k / w, k % w))
  }

  lemma BesideAt<T>(a: seq<T>, b: seq<T>, rows: nat, wa: nat, wb: nat, w: nat, r: nat, c: nat)
    requires |a| == rows * wa && |b| == rows * wb && w == wa + wb && r < rows && c < w
    ensures 0 <= r * w + c < rows * w
    ensures Beside(a, b, rows, wa, wb, w)[r * w + c] == BesideElement(a, b, rows, wa, wb, r, c)
  {
    hide BesideElement;
    RowBound(r, rows, w, c);
    JoinRow(r, w, c);
  }

  /** Slice number part of every head, from the transposed projection seen as [hidden, head, dim]
      and materialized as [hidden, head * width]. */
  function HeadSlice<T>(tt: seq<T>, s: Spec, from: nat, w: nat): (r: seq<T>)
    requires 0 < s.numK && |tt| == s.hidden * (s.qkvzDim * s.numK) && from + w <= s.qkvzDim
    ensures |r| == s.hidden * (s.numK * w)
  {
    Regroup(s.hidden, s.qkvzDim, s.numK);
    Regroup(s.hidden, w, s.numK);
    Cols(tt, s.hidden * s.numK, s.qkvzDim, from, w)
  }

  lemma Regroup(a: nat, b: nat, c: nat)
    ensures a * (b * c) == (a * c) * b && a * (c * b) == (a * c) * b
  {
  }

  /** repackQKVZ: transpose, slice head by head, put the parts side by side, transpose back. */
  function Repacked<T>(data: seq<T>, s: Spec, gate: bool): (r: seq<T>)
    requires SpecOk(s) && |data| == (s.qkvzDim * s.numK) * s.hidden
    ensures |r| == (if gate then s.gateOut else s.qkvOut) * s.hidden
  {
    var tt, v := Flipped(data, s.qkvzDim * s.numK, s.hidden), VPerHead(s);
    var q, k := HeadSlice(tt, s, 0, s.headK), HeadSlice(tt, s, s.headK, s.headK);
    var vMat, z := HeadSlice(tt, s, 2 * s.headK, v), HeadSlice(tt, s, 2 * s.headK + v, v);
    if gate then Flipped(z, s.hidden, s.gateOut)
    else
      var w := s.numK * s.headK;
      Flipped(Beside(Beside(q, k, s.hidden, w, w, w + w), vMat, s.hidden, w + w, s.numK * v, s.qkvOut), s.hidden, s.qkvOut)
  }

  // ---------- which row goes where ----------

  /** Part of a head: where it starts in the head, and its width. */
  datatype Part = Part(from: nat, width: nat)

  /** Row c of head h, in rows of w for each head. */
  function HeadRow(s: Spec, w: nat, h: nat, c: nat): (r: nat)
    requires h < s.numK && c < w
    ensures r < s.numK * w
  {
    RowBound(h, s.numK, w, c);
    h * w + c
  }

  lemma HeadRowOf(s: Spec, w: nat, r: nat)
    requires r < s.numK * w
    ensures 0 < w && r / w < s.numK && r % w < w && r == HeadRow(s, w, r / w, r % w)
  {
    SplitRow(r, s.numK, w);
  }

  lemma HeadRowParts(s: Spec, w: nat, h: nat, c: nat)
    requires h < s.numK && c < w
    ensures HeadRow(s, w, h, c) / w == h && HeadRow(s, w, h, c) % w == c
  {
    JoinRow(h, w, c);
  }

  predicate PartOk(s: Spec, part: Part) {
    0 < part.width && part.from + part.width <= s.qkvzDim
  }

  lemma PartFits(s: Spec, part: Part)
    requires PartOk(s, part)
    ensures 0 < part.width && part.from + part.width <= s.qkvzDim
  {
  }

  /** The row of the fused projection that row j of a part, taken head by head, comes from. */
  function PartRow(s: Spec, part: Part, j: nat): (y: nat)
    requires PartOk(s, part) && j < s.numK * part.width
    ensures y < s.numK * s.qkvzDim
  {
    HeadRowOf(s, part.width, j);
    HeadRow(s, s.qkvzDim, j / part.width, part.from + j % part.width)
  }

  function QueryPart(s: Spec): Part { Part(0, s.headK) }

  function KeyPart(s: Spec): Part { Part(s.headK, s.headK) }

  function ValuePart(s: Spec): Part
    requires 0 < s.numK
  {
    Part(2 * s.headK, VPerHead(s))
  }

  function GatePart(s: Spec): Part
    requires 0 < s.numK
  {
    Part(2 * s.headK + VPerHead(s), VPerHead(s))
  }

  /** The input row behind row r of an output: the queries of all heads, then the keys, then the
      values; or the gates. */
  function SourceRow(s: Spec, gate: bool, r: nat): (y: nat)
    requires SpecOk(s) && r < if gate then s.gateOut else s.qkvOut
    ensures y < s.numK * s.qkvzDim
  {
    var w := s.numK * s.headK;
    if gate then PartRow(s, GatePart(s), r)
    else if r < w then PartRow(s, QueryPart(s), r)
    else if r < w + w then PartRow(s, KeyPart(s), r - w)
    else PartRow(s, ValuePart(s), r - (w + w))
  }

  /** Element j of a slice, in the transposed projection. */
  lemma SliceElement<T>(tt: seq<T>, s: Spec, part: Part, j: nat, x: nat)
    requires PartOk(s, part) && |tt| == s.hidden * (s.qkvzDim * s.numK) && 0 < s.numK && j < s.numK * part.width && x < s.hidden
    ensures 0 <= x * (s.numK * part.width) + j < s.hidden * (s.numK * part.width)
    ensures 0 <= x * (s.qkvzDim * s.numK) + PartRow(s, part, j) < |tt|
    ensures HeadSlice(tt, s, part.from, part.width)[x * (s.numK * part.width) + j] == tt[x * (s.qkvzDim * s.numK) + PartRow(s, part, j)]
  {
    var head, c := j / part.width, j % part.width;
    SliceIndex(s, part, j, x);
    PartFits(s, part);
    Regroup(s.hidden, s.qkvzDim, s.numK);
    hide Cols, PartRow, PartOk;
    ColsAt(tt, s.hidden * s.numK, s.qkvzDim, part.from, part.width, x * s.numK + head, c);
    RowBound(x, s.hidden, s.numK * part.width, j);
  }

  lemma HeadSliceAt<T>(data: seq<T>, s: Spec, part: Part, j: nat, x: nat)
    requires SpecOk(s) && |data| == (s.qkvzDim * s.numK) * s.hidden && PartOk(s, part)
    requires j < s.numK * part.width && x < s.hidden
    ensures 0 <= x * (s.numK * part.width) + j < s.hidden * (s.numK * part.width)
    ensures 0 <= PartRow(s, part, j) * s.hidden + x < |data|
    ensures HeadSlice(Flipped(data, s.qkvzDim * s.numK, s.hidden), s, part.from, part.width)[x * (s.numK * part.width) + j]
         == data[PartRow(s, part, j) * s.hidden + x]
  {
    hide Flipped, HeadSlice, PartRow, PartOk, VPerHead;
    FlippedAt(data, s.qkvzDim * s.numK, s.hidden, PartRow(s, part, j), x);
    SliceElement(Flipped(data, s.qkvzDim * s.numK, s.hidden), s, part, j, x);
  }

  /** The same place, reached with head and dimension apart or together. */
  lemma SliceIndex(s: Spec, part: Part, j: nat, x: nat)
    requires PartOk(s, part) && j < s.numK * part.width && x < s.hidden
    ensures 0 <= x * s.numK + j / part.width < s.hidden * s.numK && j % part.width < part.width
    ensures (x * s.numK + j / part.width) * part.width + j % part.width == x * (s.numK * part.width) + j
    ensures (x * s.numK + j / part.width) * s.qkvzDim + (part.from + j % part.width) == x * (s.qkvzDim * s.numK) + PartRow(s, part, j)
  {
    var head, c := j / part.width, j % part.width;
    HeadRowOf(s, part.width, j);
    RowBound(x, s.hidden, s.numK, head);
    Nest(x, s.numK, part.width, head, c);
    Nest(x, s.numK, s.qkvzDim, head, part.from + c);
  }

  /** Every row of an output is, whole, the input row that SourceRow names. */
  lemma RepackedAt<T>(data: seq<T>, s: Spec, gate: bool, r: nat, x: nat)
    requires SpecOk(s) && |data| == (s.qkvzDim * s.numK) * s.hidden && x < s.hidden
    requires r < if gate then s.gateOut else s.qkvOut
    ensures 0 <= r * s.hidden + x < |Repacked(data, s, gate)| && 0 <= SourceRow(s, gate, r) * s.hidden + x < |data|
    ensures Repacked(data, s, gate)[r * s.hidden + x] == data[SourceRow(s, gate, r) * s.hidden + x]
  {
    hide Flipped, Cols, Beside, PartRow, HeadSlice;
    var tt, v, w := Flipped(data, s.qkvzDim * s.numK, s.hidden), VPerHead(s), s.numK * s.headK;
    if gate {
      FlippedAt(HeadSlice(tt, s, 2 * s.headK + v, v), s.hidden, s.gateOut, x, r);
      HeadSliceAt(data, s, GatePart(s), r, x);
    } else {
      var q, k, vMat := HeadSlice(tt, s, 0, s.headK), HeadSlice(tt, s, s.headK, s.headK), HeadSlice(tt, s, 2 * s.headK, v);
      var qk := Beside(q, k, s.hidden, w, w, w + w);
      FlippedAt(Beside(qk, vMat, s.hidden, w + w, s.numK * v, s.qkvOut), s.hidden, s.qkvOut, x, r);
      BesideAt(qk, vMat, s.hidden, w + w, s.numK * v, s.qkvOut, x, r);
      if r < w {
        BesideAt(q, k, s.hidden, w, w, w + w, x, r);
        HeadSliceAt(data, s, QueryPart(s), r, x);
      } else if r < w + w {
        BesideAt(q, k, s.hidden, w, w, w + w, x, r);
        HeadSliceAt(data, s, KeyPart(s), r - w, x);
      } else {
        HeadSliceAt(data, s, ValuePart(s), r - (w + w), x);
      }
    }
  }

  /** Row dst of an output is row src of the input. */
  ghost predicate RowFrom<T>(out: seq<T>, dst: int, data: seq<T>, src: int, width: nat) {
    && 0 <= dst * width <= dst * width + width <= |out| && 0 <= src * width <= src * width + width <= |data|
    && out[dst * width..dst * width + width] == data[src * width..src * width + width]
  }

  lemma RowIs<T>(data: seq<T>, s: Spec, gate: bool, r: nat, y: nat)
    requires SpecOk(s) && |data| == (s.qkvzDim * s.numK) * s.hidden
    requires r < (if gate then s.gateOut else s.qkvOut) && SourceRow(s, gate, r) == y
    ensures RowFrom(Repacked(data, s, gate), r, data, y, s.hidden)
  {
    hide SourceRow, SpecOk, Repacked;
    var out, w, a, b := Repacked(data, s, gate), s.hidden, r * s.hidden, y * s.hidden;
    MulSign(r, w);
    MulSign(y, w);
    RowEnd(r, if gate then s.gateOut else s.qkvOut, w);
    SourceRowBound(s, gate, r);
    RowEnd(y, s.qkvzDim * s.numK, w);
    var to, from := out[a..a + w], data[b..b + w];
    forall x | 0 <= x < w ensures to[x] == from[x] {
      RepackedAt(data, s, gate, r, x);
    }
  }

  lemma SourceRowBound(s: Spec, gate: bool, r: nat)
    requires SpecOk(s) && r < if gate then s.gateOut else s.qkvOut
    ensures SourceRow(s, gate, r) < s.qkvzDim * s.numK
  {
    hide SourceRow;
  }

  lemma RowEnd(r: nat, rows: nat, width: nat)
    requires r < rows
    ensures r * width + width <= rows * width
  {
    MulMono(r + 1, rows, width);
    MulStep(r, width);
  }

  /** Row c of head h of one part, in the output that has the part from row at on. */
  lemma PartDealt<T>(data: seq<T>, s: Spec, gate: bool, at: nat, part: Part, h: nat, c: nat)
    requires SpecOk(s) && |data| == (s.qkvzDim * s.numK) * s.hidden && PartOk(s, part) && h < s.numK && c < part.width
    requires at + HeadRow(s, part.width, h, c) < if gate then s.gateOut else s.qkvOut
    requires SourceRow(s, gate, at + HeadRow(s, part.width, h, c)) == PartRow(s, part, HeadRow(s, part.width, h, c))
    ensures RowFrom(Repacked(data, s, gate), at + (h * part.width + c), data, h * s.qkvzDim + (part.from + c), s.hidden)
  {
    hide Repacked, RowFrom, PartRow, SourceRow, SpecOk;
    PartRowOf(s, part, h, c);
    RowIs(data, s, gate, at + HeadRow(s, part.width, h, c), HeadRow(s, s.qkvzDim, h, part.from + c));
  }

  lemma PartsAt(s: Spec, h: nat, c: nat)
    requires SpecOk(s) && h < s.numK
    ensures PartOk(s, QueryPart(s)) && PartOk(s, KeyPart(s)) && PartOk(s, ValuePart(s)) && PartOk(s, GatePart(s))
    ensures var w, v := s.numK * s.headK, VPerHead(s);
      && (c < s.headK ==>
            && HeadRow(s, s.headK, h, c) < s.qkvOut && w + HeadRow(s, s.headK, h, c) < s.qkvOut
            && SourceRow(s, false, HeadRow(s, s.headK, h, c)) == PartRow(s, QueryPart(s), HeadRow(s, s.headK, h, c))
            && SourceRow(s, false, w + HeadRow(s, s.headK, h, c)) == PartRow(s, KeyPart(s), HeadRow(s, s.headK, h, c)))
      && (c < v ==>
            && (w + w) + HeadRow(s, v, h, c) < s.qkvOut && HeadRow(s, v, h, c) < s.gateOut
            && SourceRow(s, false, (w + w) + HeadRow(s, v, h, c)) == PartRow(s, ValuePart(s), HeadRow(s, v, h, c))
            && SourceRow(s, true, HeadRow(s, v, h, c)) == PartRow(s, GatePart(s), HeadRow(s, v, h, c)))
  {
    hide PartRow, HeadRow, VPerHead;
  }

  /** Row by row: head h of the input holds headK query rows, headK key rows, v value rows and v gate
      rows, v being the value rows of its value heads. The first output holds the query rows of all
      heads, then their key rows, then their value rows; the second their gate rows. */
  lemma RowsDealt<T>(data: seq<T>, s: Spec, h: nat, c: nat)
    requires SpecOk(s) && |data| == (s.qkvzDim * s.numK) * s.hidden && h < s.numK
    ensures s.qkvzDim == 2 * s.headK + 2 * VPerHead(s)
    ensures var v, from, all := VPerHead(s), h * s.qkvzDim, s.numK * s.headK;
      && (c < s.headK ==> RowFrom(Repacked(data, s, false), h * s.headK + c, data, from + c, s.hidden))
      && (c < s.headK ==> RowFrom(Repacked(data, s, false), all + (h * s.headK + c), data, from + (s.headK + c), s.hidden))
      && (c < v ==> RowFrom(Repacked(data, s, false), (all + all) + (h * v + c), data, from + (2 * s.headK + c), s.hidden))
      && (c < v ==> RowFrom(Repacked(data, s, true), h * v + c, data, from + (2 * s.headK + v + c), s.hidden))
  {
    PartsAt(s, h, c);
    var v, all := VPerHead(s), s.numK * s.headK;
    hide Repacked, RowFrom, PartRow, SourceRow, HeadRow, VPerHead;
    if c < s.headK {
      PartDealt(data, s, false, 0, QueryPart(s), h, c);
      PartDealt(data, s, false, all, KeyPart(s), h, c);
    }
    if c < v {
      PartDealt(data, s, false, all + all, ValuePart(s), h, c);
      PartDealt(data, s, true, 0, GatePart(s), h, c);
    }
  }

  /** A place in one of the two outputs. */
  datatype Place = Place(gate: bool, row: nat)

  predicate PlaceOk(s: Spec, p: Place) {
    p.row < if p.gate then s.gateOut else s.qkvOut
  }

  /** Where an input row ends up. */
  function PlaceOf(s: Spec, y: nat): (p: Place)
    requires SpecOk(s) && y < s.numK * s.qkvzDim
    ensures PlaceOk(s, p)
  {
    hide SpecOk, PlaceOk;
    HeadRowOf(s, s.qkvzDim, y);
    HeadPlace(s, y / s.qkvzDim, y % s.qkvzDim)
  }

  /** Where row c of head h ends up. */
  function HeadPlace(s: Spec, h: nat, c: nat): (p: Place)
    requires SpecOk(s) && h < s.numK && c < s.qkvzDim
    ensures PlaceOk(s, p)
  {
    var w, v := s.numK * s.headK, VPerHead(s);
    if c < s.headK then Place(false, HeadRow(s, s.headK, h, c))
    else if c < 2 * s.headK then Place(false, w + HeadRow(s, s.headK, h, c - s.headK))
    else if c < 2 * s.headK + v then Place(false, (w + w) + HeadRow(s, v, h, c - 2 * s.headK))
    else Place(true, HeadRow(s, v, h, c - 2 * s.headK - v))
  }

  lemma PartRowOf(s: Spec, part: Part, h: nat, c: nat)
    requires PartOk(s, part) && h < s.numK && c < part.width
    ensures PartRow(s, part, HeadRow(s, part.width, h, c)) == HeadRow(s, s.qkvzDim, h, part.from + c)
  {
    HeadRowParts(s, part.width, h, c);
  }

  lemma HeadPlaceHolds(s: Spec, h: nat, c: nat)
    requires SpecOk(s) && h < s.numK && c < s.qkvzDim
    ensures SourceRow(s, HeadPlace(s, h, c).gate, HeadPlace(s, h, c).row) == HeadRow(s, s.qkvzDim, h, c)
  {
    hide PartRow, HeadRow, VPerHead;
    var v := VPerHead(s);
    if c < s.headK {
      PartRowOf(s, QueryPart(s), h, c);
    } else if c < 2 * s.headK {
      PartRowOf(s, KeyPart(s), h, c - s.headK);
    } else if c < 2 * s.headK + v {
      PartRowOf(s, ValuePart(s), h, c - 2 * s.headK);
    } else {
      PartRowOf(s, GatePart(s), h, c - 2 * s.headK - v);
    }
  }

  /** Exactly once: the row found at the place of an input row is that row ... */
  lemma PlaceHolds(s: Spec, y: nat)
    requires SpecOk(s) && y < s.numK * s.qkvzDim
    ensures SourceRow(s, PlaceOf(s, y).gate, PlaceOf(s, y).row) == y
  {
    hide SourceRow, HeadPlace, SpecOk;
    HeadRowOf(s, s.qkvzDim, y);
    HeadPlaceHolds(s, y / s.qkvzDim, y % s.qkvzDim);
  }

  /** ... and no other place of either output holds it. */
  lemma PlaceUnique(s: Spec, p: Place)
    requires SpecOk(s) && PlaceOk(s, p)
    ensures PlaceOf(s, SourceRow(s, p.gate, p.row)) == p
  {
    hide PartRow, HeadRow, VPerHead;
    var w := s.numK * s.headK;
    if p.gate {
      var h, c := PartPlace(s, GatePart(s), p.row);
    } else if p.row < w {
      var h, c := PartPlace(s, QueryPart(s), p.row);
    } else if p.row < w + w {
      var h, c := PartPlace(s, KeyPart(s), p.row - w);
    } else {
      var h, c := PartPlace(s, ValuePart(s), p.row - (w + w));
    }
  }

  /** Where the rows of a part are found. */
  lemma PartPlace(s: Spec, part: Part, j: nat) returns (h: nat, c: nat)
    requires SpecOk(s) && PartOk(s, part) && j < s.numK * part.width
    ensures h < s.numK && c < part.width && j == HeadRow(s, part.width, h, c)
    ensures PlaceOf(s, PartRow(s, part, j)) == HeadPlace(s, h, part.from + c)
  {
    hide HeadRow, HeadPlace, PartRow, PlaceOf, SpecOk;
    HeadRowOf(s, part.width, j);
    h, c := j / part.width, j % part.width;
    PartRowOf(s, part, h, c);
    HeadRowPlace(s, h, part.from + c);
  }

  lemma HeadRowPlace(s: Spec, h: nat, c: nat)
    requires SpecOk(s) && h < s.numK && c < s.qkvzDim
    ensures PlaceOf(s, HeadRow(s, s.qkvzDim, h, c)) == HeadPlace(s, h, c)
  {
    hide HeadRow, HeadPlace, SpecOk;
    HeadRowParts(s, s.qkvzDim, h, c);
  }
}
