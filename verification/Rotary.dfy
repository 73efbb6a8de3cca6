/** The rotary layouts: llama's repack (convert/convert_llama.go) and the opposite permutation,
    normalToNeoXRepacker (convert/convert_glmocr.go). */
module Rotary {
  import opened Arithmetic
  import opened Tensors

  // ---------- rows within a head ----------

  /** The row that row d of a head takes its weights from in NeoX order: the even rotary rows,
      then the odd ones, then the rest. */
  function NeoXRow(half: nat, d: nat): nat {
    if d < half then 2 * d else if d < 2 * half then 2 * (d - half) + 1 else d
  }

  /** The opposite: the two rotary halves taken in turn, then the rest. Llama's repack is this
      for a head that is rotary throughout. */
  function PairedRow(half: nat, d: nat): nat {
    if d >= 2 * half then d else if d % 2 == 0 then d / 2 else half + d / 2
  }

  lemma RowsInverse(half: nat, headDim: nat, d: nat)
    requires d < headDim && 2 * half <= headDim
    ensures NeoXRow(half, d) < headDim && PairedRow(half, d) < headDim
    ensures NeoXRow(half, PairedRow(half, d)) == d && PairedRow(half, NeoXRow(half, d)) == d
  {
  }

  // ---------- places ----------

  /** Head, row and column of an element. */
  datatype Coord = Coord(head: nat, row: nat, col: nat)

  predicate CoordOk(c: Coord, headDim: nat, width: nat) {
    c.row < headDim && c.col < width
  }

  function PlaceOf(c: Coord, headDim: nat, width: nat): nat
    requires CoordOk(c, headDim, width)
  {
    MulSign(c.head, headDim);
    MulSign(c.head * headDim + c.row, width);
    (c.head * headDim + c.row) * width + c.col
  }

  function CoordOf(k: nat, headDim: nat, width: nat): (c: Coord) {
    if headDim == 0 || width == 0 then Coord(0, 0, 0)
    else Coord((k / width) / headDim, (k / width) % headDim, k % width)
  }

  lemma CoordPlace(k: nat, headDim: nat, width: nat)
    requires 0 < headDim && 0 < width
    ensures CoordOk(CoordOf(k, headDim, width), headDim, width) && PlaceOf(CoordOf(k, headDim, width), headDim, width) == k
  {
    assert k == (k / width) * width + k % width;
    var r := k / width;
    assert r == (r / headDim) * headDim + r % headDim;
  }

  lemma PlaceCoord(c: Coord, headDim: nat, width: nat)
    requires CoordOk(c, headDim, width)
    ensures CoordOf(PlaceOf(c, headDim, width), headDim, width) == c
  {
    MulSign(c.head, headDim);
    JoinRow(c.head * headDim + c.row, width, c.col);
    JoinRow(c.head, headDim, c.row);
  }

  /** The first n places are those of the whole heads among them. */
  lemma PlaceBound(c: Coord, headDim: nat, width: nat, heads: nat)
    requires CoordOk(c, headDim, width)
    ensures PlaceOf(c, headDim, width) < (heads * headDim) * width <==> c.head < heads
  {
    if c.head < heads {
      RowBound(c.head, heads, headDim, c.row);
      RowBound(c.head * headDim + c.row, heads * headDim, width, c.col);
    } else {
      MulMono(heads, c.head, headDim);
      MulMono(heads * headDim, c.head * headDim + c.row, width);
    }
  }

  /** The element that place k takes when rows move by a rule. */
  function NeoXSource(k: nat, headDim: nat, width: nat, half: nat): nat
    requires 0 < headDim && 0 < width && 2 * half <= headDim
  {
    CoordPlace(k, headDim, width);
    var c := CoordOf(k, headDim, width);
    RowsInverse(half, headDim, c.row);
    PlaceOf(c.(row := NeoXRow(half, c.row)), headDim, width)
  }

  function PairedSource(k: nat, headDim: nat, width: nat, half: nat): nat
    requires 0 < headDim && 0 < width && 2 * half <= headDim
  {
    CoordPlace(k, headDim, width);
    var c := CoordOf(k, headDim, width);
    RowsInverse(half, headDim, c.row);
    PlaceOf(c.(row := PairedRow(half, c.row)), headDim, width)
  }

  /** A permutation of the places of the whole heads that leaves the non-rotary rows alone. */
  lemma SourcesInverse(k: nat, headDim: nat, width: nat, half: nat, heads: nat)
    requires 0 < headDim && 0 < width && 2 * half <= headDim && k < (heads * headDim) * width
    ensures NeoXSource(k, headDim, width, half) < (heads * headDim) * width
    ensures PairedSource(k, headDim, width, half) < (heads * headDim) * width
    ensures NeoXSource(PairedSource(k, headDim, width, half), headDim, width, half) == k
    ensures PairedSource(NeoXSource(k, headDim, width, half), headDim, width, half) == k
    ensures CoordOf(k, headDim, width).row >= 2 * half ==> NeoXSource(k, headDim, width, half) == k
  {
    hide CoordOf, PlaceOf;
    var c := CoordOf(k, headDim, width);
    CoordPlace(k, headDim, width);
    RowsInverse(half, headDim, c.row);
    var a, b := c.(row := NeoXRow(half, c.row)), c.(row := PairedRow(half, c.row));
    PlaceCoord(a, headDim, width);
    PlaceCoord(b, headDim, width);
    PlaceBound(c, headDim, width, heads);
    PlaceBound(a, headDim, width, heads);
    PlaceBound(b, headDim, width, heads);
  }

  // ---------- normalToNeoXRepacker ----------

  /** What the repacker makes of place k: rows beyond the last whole head are left zero. */
  function NeoXElement<T>(data: seq<T>, headDim: nat, width: nat, half: nat, heads: nat, zero: T, k: nat): T
    requires 0 < headDim && 0 < width && 2 * half <= headDim && (heads * headDim) * width <= |data|
  {
    if CoordOf(k, headDim, width).head < heads then
      SourceBelow(k, headDim, width, half, heads);
      data[NeoXSource(k, headDim, width, half)]
    else zero
  }

  lemma SourceBelow(k: nat, headDim: nat, width: nat, half: nat, heads: nat)
    requires 0 < headDim && 0 < width && 2 * half <= headDim && CoordOf(k, headDim, width).head < heads
    ensures k < (heads * headDim) * width && NeoXSource(k, headDim, width, half) < (heads * headDim) * width
  {
    CoordPlace(k, headDim, width);
    PlaceBound(CoordOf(k, headDim, width), headDim, width, heads);
    SourcesInverse(k, headDim, width, half, heads);
  }

  /** What the repacker makes of the weights. */
  function NeoX<T>(data: seq<T>, headDim: nat, width: nat, half: nat, heads: nat, zero: T): (r: seq<T>)
    requires 0 < headDim && 2 * half <= headDim && (heads * headDim) * width <= |data| && (width == 0 ==> data == [])
    ensures |r| == |data|
  {
    seq(|data|, k requires 0 <= k < |data| => NeoXElement(data, headDim, width, half, heads, zero, k))
  }

  /** The place the code computes. */
  lemma PlaceIs(h: nat, d: nat, f: nat, headDim: nat, width: nat)
    requires d < headDim && f < width
    ensures h * headDim * width + d * width + f == PlaceOf(Coord(h, d, f), headDim, width)
  {
  }

  /** The part of column f of head h that has been filled after i rounds. */
  predicate Filled(half: nat, i: nat, d: nat) {
    d < i || half <= d < half + i
  }

  /** out is before with the rows of column f of head h that satisfy Filled, or all of them,
      permuted. */
  ghost predicate ColumnDone<T>(data: seq<T>, before: seq<T>, out: seq<T>, headDim: nat, width: nat, half: nat, heads: nat, zero: T,
                                h: nat, f: nat, i: nat, rest: nat)
    requires 0 < headDim && 0 < width && 2 * half <= headDim && (heads * headDim) * width <= |data| == |before| == |out|
  {
    forall k :: 0 <= k < |out| ==>
      out[k] == if InColumn(k, headDim, width, h, f) && RowDone(k, headDim, width, half, i, rest)
                then NeoXElement(data, headDim, width, half, heads, zero, k) else before[k]
  }

  predicate InColumn(k: nat, headDim: nat, width: nat, h: nat, f: nat) {
    CoordOf(k, headDim, width).head == h && CoordOf(k, headDim, width).col == f
  }

  predicate RowDone(k: nat, headDim: nat, width: nat, half: nat, i: nat, rest: nat) {
    Filled(half, i, CoordOf(k, headDim, width).row) || 2 * half <= CoordOf(k, headDim, width).row < rest
  }

  /** One element moved: row d of the column takes row NeoXRow(d). */
  lemma OneMoved(h: nat, f: nat, d: nat, headDim: nat, width: nat, half: nat, heads: nat, k: nat)
    requires d < headDim && f < width && 2 * half <= headDim && h < heads
    ensures NeoXRow(half, d) < headDim && PlaceOf(Coord(h, d, f), headDim, width) < (heads * headDim) * width
    ensures PlaceOf(Coord(h, NeoXRow(half, d), f), headDim, width) < (heads * headDim) * width
    ensures NeoXSource(PlaceOf(Coord(h, d, f), headDim, width), headDim, width, half)
         == PlaceOf(Coord(h, NeoXRow(half, d), f), headDim, width)
    ensures k == PlaceOf(Coord(h, d, f), headDim, width) <==>
              InColumn(k, headDim, width, h, f) && CoordOf(k, headDim, width).row == d
  {
    hide PlaceOf, CoordOf;
    RowsInverse(half, headDim, d);
    PlaceCoord(Coord(h, d, f), headDim, width);
    PlaceBound(Coord(h, d, f), headDim, width, heads);
    PlaceBound(Coord(h, NeoXRow(half, d), f), headDim, width, heads);
    CoordPlace(k, headDim, width);
  }

  /** result[dst] = reshaped[src], for row d of column f of head h. */
  method MoveRow<T>(data: seq<T>, result: array<T>, h: nat, f: nat, d: nat, src: nat, headDim: nat, width: nat,
                    ghost half: nat, ghost heads: nat, ghost zero: T)
    requires d < headDim && f < width && 2 * half <= headDim && h < heads && (heads * headDim) * width <= |data| == result.Length
    requires src == NeoXRow(half, d)
    modifies result
    ensures forall k :: 0 <= k < result.Length ==>
              result[k] == if InColumn(k, headDim, width, h, f) && CoordOf(k, headDim, width).row == d
                           then NeoXElement(data, headDim, width, half, heads, zero, k) else old(result[k])
  {
    OneMoved(h, f, d, headDim, width, half, heads, 0);
    PlaceIs(h, d, f, headDim, width);
    PlaceIs(h, src, f, headDim, width);
    hide PlaceOf, CoordOf, NeoXSource, NeoXRow;
    result[h * headDim * width + d * width + f] := data[h * headDim * width + src * width + f];
    forall k | 0 <= k < result.Length
      ensures result[k] == if InColumn(k, headDim, width, h, f) && CoordOf(k, headDim, width).row == d
                           then NeoXElement(data, headDim, width, half, heads, zero, k) else old(result[k])
    {
      OneMoved(h, f, d, headDim, width, half, heads, k);
    }
  }

  /** The innermost loops: one column of one head. */
  method PermuteColumn<T>(data: seq<T>, result: array<T>, h: nat, f: nat, headDim: nat, width: nat, rotaryDim: nat, half: nat,
                          ghost heads: nat, ghost zero: T)
    requires f < width && 0 < headDim && rotaryDim == 2 * half <= headDim
    requires h < heads && (heads * headDim) * width <= |data| == result.Length
    modifies result
    ensures forall k :: 0 <= k < result.Length ==>
              result[k] == if InColumn(k, headDim, width, h, f) then NeoXElement(data, headDim, width, half, heads, zero, k)
                           else old(result[k])
  {
    hide CoordOf, NeoXElement;
    ghost var before := result[..];
    for i := 0 to half
      invariant ColumnDone(data, before, result[..], headDim, width, half, heads, zero, h, f, i, 0)
    {
      MoveRow(data, result, h, f, i, 2 * i, headDim, width, half, heads, zero);
      MoveRow(data, result, h, f, half + i, 2 * i + 1, headDim, width, half, heads, zero);
    }
    for i := rotaryDim to headDim
      invariant ColumnDone(data, before, result[..], headDim, width, half, heads, zero, h, f, half, i)
    {
      MoveRow(data, result, h, f, i, i, headDim, width, half, heads, zero);
    }
    forall k | 0 <= k < result.Length
      ensures result[k] == if InColumn(k, headDim, width, h, f) then NeoXElement(data, headDim, width, half, heads, zero, k) else before[k]
    {
      CoordPlace(k, headDim, width);
      assert result[..][k] == result[k];
    }
  }

  /** What normalToNeoXRepacker makes of a tensor. */
  function NeoXOutput<T>(data: seq<T>, shape: seq<nat>, headDim: nat, rotary: nat, zero: T): (r: seq<T>)
    requires 1 <= |shape| <= 2 && 0 < headDim && rotary <= headDim
    requires |data| == shape[0] * if |shape| == 1 then 1 else shape[1]
    ensures |r| == |data|
  {
    var width := if |shape| == 1 then 1 else shape[1];
    WholeHeads(shape[0], headDim, width);
    NeoX(data, headDim, width, rotary / 2, shape[0] / headDim, zero)
  }

  /** normalToNeoXRepacker's function; rotary is the head size times the partial rotary factor,
      rounded towards zero, and zero what fresh buffers hold. */
  method NormalToNeoX<T>(data: seq<T>, shape: seq<nat>, headDim: nat, rotary: nat, zero: T) returns (repacked: seq<T>)
    requires 1 <= |shape| <= 2 && 0 < headDim && rotary <= headDim
    requires |data| == shape[0] * if |shape| == 1 then 1 else shape[1]
    ensures repacked == NeoXOutput(data, shape, headDim, rotary, zero)
  {
    hide CoordOf, NeoXElement;
    var rotaryDim := rotary;
    if rotaryDim % 2 != 0 {
      rotaryDim := (rotaryDim / 2) * 2;
    }
    var inFeatures := if |shape| == 1 then 1 else shape[1];
    var outFeatures := shape[0];
    var nEffectiveHeads := outFeatures / headDim;
    WholeHeads(outFeatures, headDim, inFeatures);
    var result := new T[|data|](_ => zero);
    var halfRotary := rotaryDim / 2;
    for h := 0 to nEffectiveHeads
      invariant forall k :: 0 <= k < |data| ==>
                  result[k] == if CoordOf(k, headDim, inFeatures).head < h
                               then NeoXElement(data, headDim, inFeatures, halfRotary, nEffectiveHeads, zero, k) else zero
    {
      for f := 0 to inFeatures
        invariant forall k :: 0 <= k < |data| ==>
                    result[k] == if CoordOf(k, headDim, inFeatures).head < h
                                    || (CoordOf(k, headDim, inFeatures).head == h && CoordOf(k, headDim, inFeatures).col < f)
                                 then NeoXElement(data, headDim, inFeatures, halfRotary, nEffectiveHeads, zero, k) else zero
      {
        PermuteColumn(data, result, h, f, headDim, inFeatures, rotaryDim, halfRotary, nEffectiveHeads, zero);
      }
      forall k | 0 <= k < |data| ensures CoordOf(k, headDim, inFeatures).col < inFeatures {
        CoordPlace(k, headDim, inFeatures);
      }
    }
    forall k | 0 <= k < |data| && CoordOf(k, headDim, inFeatures).head >= nEffectiveHeads
      ensures NeoXElement(data, headDim, inFeatures, halfRotary, nEffectiveHeads, zero, k) == zero
    {
      Leftover(data, headDim, inFeatures, halfRotary, nEffectiveHeads, zero, k);
    }
    repacked := result[..];
  }

  lemma Leftover<T>(data: seq<T>, headDim: nat, width: nat, half: nat, heads: nat, zero: T, k: nat)
    requires 0 < headDim && 0 < width && 2 * half <= headDim && (heads * headDim) * width <= |data|
    requires CoordOf(k, headDim, width).head >= heads
    ensures NeoXElement(data, headDim, width, half, heads, zero, k) == zero
  {
  }

  lemma WholeHeads(out: nat, headDim: nat, width: nat)
    requires 0 < headDim
    ensures 0 <= out / headDim * headDim <= out && (out / headDim * headDim) * width <= out * width
    ensures width == 0 ==> out * width == 0
  {
    assert out == out / headDim * headDim + out % headDim;
    MulMono(out / headDim * headDim, out, width);
  }

  // ---------- the tensor that llama's repack rearranges in place ----------

  /** A tensor object. T announces an exchange of axes, which Transpose, or a Reshape, carries out. */
  class Tensor<T> {
    var shape: seq<nat>
    var data: seq<T>
    /** The announced exchange, of this axis and the next; -1 when there is none. */
    var pending: int

    ghost predicate Valid()
      reads this
    {
      && -1 <= pending && (pending >= 0 ==> pending + 1 < |shape|) && |data| == Size(shape)
    }

    /** The elements in the order of the shape, announced exchange included. */
    ghost function Elements(): seq<T>
      requires Valid()
      reads this
    {
      if pending < 0 then data
      else
        SwappedTwice(shape, pending);
        SizeSwapped(shape, pending);
        Transposed(data, Swapped(shape, pending), pending)
    }

    constructor (shape: seq<nat>, data: seq<T>)
      requires |data| == Size(shape)
      ensures Valid() && this.shape == shape && Elements() == data && pending == -1
    {
      this.shape, this.data, pending := shape, data, -1;
    }

    /** T, for a permutation that exchanges axes d and d + 1. */
    method T(d: nat)
      requires Valid() && pending == -1 && d + 1 < |shape|
      modifies this
      ensures Valid() && shape == Swapped(old(shape), d) && Elements() == Transposed(old(Elements()), old(shape), d)
    {
      SizeSwapped(shape, d);
      SwappedTwice(shape, d);
      shape, pending := Swapped(shape, d), d;
    }

    method Transpose()
      requires Valid()
      modifies this
      ensures Valid() && shape == old(shape) && Elements() == old(Elements()) == data && pending == -1
    {
      if pending >= 0 {
        SwappedTwice(shape, pending);
        SizeSwapped(shape, pending);
        data := Transposed(data, Swapped(shape, pending), pending);
        pending := -1;
      }
    }

    /** Reshape fails when the sizes differ. */
    method Reshape(newShape: seq<nat>) returns (ok: bool)
      requires Valid()
      modifies this
      ensures Valid() && Elements() == old(Elements()) && ok == (Size(newShape) == Size(old(shape)))
      ensures if ok then shape == newShape && pending == -1 && data == Elements() else shape == old(shape) && pending == old(pending)
    {
      if Size(newShape) != Size(shape) {
        return false;
      }
      Transpose();
      shape := newShape;
      ok := true;
    }
  }

  // ---------- llama's repack ----------

  datatype Result<T> = Ok(value: T) | Err

  predicate HasSuffix(s: string, suffix: string) {
    |suffix| <= |s| && s[|s| - |suffix|..] == suffix
  }

  /** The number of heads a tensor is made of; 0 for tensors that are not repacked. */
  function HeadsOf(name: string, numHeads: nat, numKVHeads: nat): nat {
    if HasSuffix(name, "attn_q.weight") || HasSuffix(name, "attn_q_proj.weight") then numHeads
    else if HasSuffix(name, "attn_k.weight") || HasSuffix(name, "attn_k_proj.weight") then
      if numKVHeads != 0 then numKVHeads else numHeads
    else 0
  }

  /** Heads, halves and rows as axes of their own. */
  function HalvesShape(shape: seq<nat>, heads: nat): seq<nat>
    requires 0 < heads && shape != []
  {
    [heads, 2, shape[0] / heads / 2] + shape[1..]
  }

  /** What repack makes of a tensor. */
  function RepackOutput<T>(name: string, data: seq<T>, shape: seq<nat>, numHeads: nat, numKVHeads: nat): Result<seq<T>>
    requires 0 < numHeads && shape != [] && |data| == Size(shape)
  {
    var heads := HeadsOf(name, numHeads, numKVHeads);
    if heads == 0 || |shape| != 2 || Size(HalvesShape(shape, heads)) != Size(shape) then Err
    else Ok(Transposed(data, HalvesShape(shape, heads), 1))
  }

  /** repack: for a matrix of whole heads of even size, the halves and their rows exchanged; an
      error for other tensors. */
  method Repack<T>(name: string, data: seq<T>, shape: seq<nat>, numHeads: nat, numKVHeads: nat) returns (r: Result<seq<T>>)
    requires 0 < numHeads && shape != [] && |data| == Size(shape)
    ensures r == RepackOutput(name, data, shape, numHeads, numKVHeads)
  {
    hide Size, Transposed, HasSuffix;
    var heads := HeadsOf(name, numHeads, numKVHeads);
    if heads == 0 {
      return Err;
    }
    var n := new Tensor(shape, data);
    var ok := n.Reshape(HalvesShape(shape, heads));
    if !ok || |n.shape| != 4 {
      return Err;
    }
    SizeSwapped(n.shape, 1);
    n.T(1);
    ok := n.Reshape(shape);
    n.Transpose();
    var f32s := Appended(n.data);
    r := Ok(f32s);
  }

  /** The closing loop, which appends the slices of the tensor. */
  method Appended<T>(ts: seq<T>) returns (f32s: seq<T>)
    ensures f32s == ts
  {
    f32s := [];
    for i := 0 to |ts|
      invariant f32s == ts[..i]
    {
      f32s := f32s + [ts[i]];
    }
  }

  /** The repacked place of an element: the halves of each head taken in turn. */
  lemma RepackedAt<T>(data: seq<T>, heads: nat, half: nat, width: nat, c: Coord)
    requires 0 < half && CoordOk(c, 2 * half, width) && c.head < heads && |data| == (heads * (2 * half)) * width
    ensures Size([heads, 2, half, width]) == |data| && PairedRow(half, c.row) < 2 * half
    ensures PlaceOf(c, 2 * half, width) < |data| && PlaceOf(c.(row := PairedRow(half, c.row)), 2 * half, width) < |data|
    ensures Transposed(data, [heads, 2, half, width], 1)[PlaceOf(c, 2 * half, width)]
         == data[PlaceOf(c.(row := PairedRow(half, c.row)), 2 * half, width)]
  {
    hide Size, Offset, Index, Transposed;
    var d := c.row;
    PlaceBound(c, 2 * half, width, heads);
    PlaceBound(c.(row := PairedRow(half, d)), 2 * half, width, heads);
    FourSize(heads, half, width);
    FourOffset(heads, half, 2, width, c.head, d / 2, d % 2, c.col);
    FourOffset(heads, 2, half, width, c.head, d % 2, d / 2, c.col);
    assert Swapped([heads, 2, half, width], 1) == [heads, half, 2, width];
    assert Swapped([c.head, d / 2, d % 2, c.col], 1) == [c.head, d % 2, d / 2, c.col];
    TransposedAt(data, [heads, 2, half, width], 1, [c.head, d / 2, d % 2, c.col]);
    RowParts(half, d);
  }

  lemma RowParts(half: nat, d: nat)
    requires d < 2 * half
    ensures (d / 2) * 2 + d % 2 == d && (d % 2) * half + d / 2 == PairedRow(half, d)
  {
  }

  lemma FourSize(a: nat, c: nat, d: nat)
    ensures Size([a, 2, c, d]) == (a * (2 * c)) * d
  {
    hide Size;
    assert [a, 2, c, d] == [a, 2] + [c, d];
    SizeAppend([a, 2], [c, d]);
    TwoAxes(a, 2);
    TwoAxes(c, d);
    FourProduct(a, c, d);
  }

  lemma FourProduct(a: nat, c: nat, d: nat)
    ensures (a * 2) * (c * d) == (a * (2 * c)) * d
  {
    assert (a * 2) * (c * d) == ((a * 2) * c) * d;
    assert (a * 2) * c == a * (2 * c);
  }

  /** Four axes, the second and third of which make up a head. */
  lemma FourOffset(heads: nat, x: nat, y: nat, width: nat, h: nat, i: nat, j: nat, f: nat)
    requires h < heads && i < x && j < y && f < width
    ensures InShape([heads, x, y, width], [h, i, j, f])
    ensures Offset([heads, x, y, width], [h, i, j, f]) == (h * (x * y) + (i * y + j)) * width + f
  {
    hide Size, Offset;
    assert [heads, x, y, width] == [heads] + ([x, y] + [width]) && [h, i, j, f] == [h] + ([i, j] + [f]);
    OneAxis(heads, h);
    OneAxis(width, f);
    TwoIndices(x, y, i, j);
    OffsetAppend([x, y], [width], [i, j], [f]);
    OffsetAppend([heads], [x, y] + [width], [h], [i, j] + [f]);
    SizeAppend([x, y], [width]);
    TwoAxes(x, y);
    Nest(h, x * y, width, i * y + j, f);
  }

  // ---------- the layouts undo each other ----------

  /** Llama's repack of whole heads, as a sequence. */
  function Llama<T>(data: seq<T>, heads: nat, half: nat, width: nat): (r: seq<T>)
    requires |data| == (heads * (2 * half)) * width
    ensures |r| == |data|
  {
    FourSize(heads, half, width);
    Transposed(data, [heads, 2, half, width], 1)
  }

  /** It is what repack does to a matrix of that shape. */
  lemma LlamaIsRepack<T>(data: seq<T>, heads: nat, half: nat, width: nat)
    requires 0 < heads && |data| == (heads * (2 * half)) * width
    ensures HalvesShape([heads * (2 * half), width], heads) == [heads, 2, half, width]
    ensures Size([heads, 2, half, width]) == Size([heads * (2 * half), width]) == |data|
    ensures Transposed(data, HalvesShape([heads * (2 * half), width], heads), 1) == Llama(data, heads, half, width)
  {
    hide Transposed, Size;
    FourSize(heads, half, width);
    TwoAxes(heads * (2 * half), width);
    DivUnique(heads * (2 * half), heads, 2 * half, 0);
    assert [heads * (2 * half), width][1..] == [width];
  }

  lemma LlamaAt<T>(data: seq<T>, heads: nat, half: nat, width: nat, k: nat)
    requires 0 < half && 0 < width && |data| == (heads * (2 * half)) * width && k < |data|
    ensures PairedSource(k, 2 * half, width, half) < |data|
    ensures Llama(data, heads, half, width)[k] == data[PairedSource(k, 2 * half, width, half)]
  {
    hide CoordOf, PlaceOf, Transposed;
    CoordPlace(k, 2 * half, width);
    PlaceBound(CoordOf(k, 2 * half, width), 2 * half, width, heads);
    RepackedAt(data, heads, half, width, CoordOf(k, 2 * half, width));
  }

  lemma NeoXAt<T>(data: seq<T>, headDim: nat, width: nat, half: nat, heads: nat, zero: T, k: nat)
    requires 0 < headDim && 0 < width && 2 * half <= headDim && (heads * headDim) * width == |data| && k < |data|
    ensures NeoXSource(k, headDim, width, half) < |data|
    ensures NeoX(data, headDim, width, half, heads, zero)[k] == data[NeoXSource(k, headDim, width, half)]
  {
    hide CoordOf, PlaceOf, NeoXSource;
    CoordPlace(k, headDim, width);
    PlaceBound(CoordOf(k, headDim, width), headDim, width, heads);
    SourcesInverse(k, headDim, width, half, heads);
  }

  /** For whole heads of even size, rotary throughout, each layout undoes the other. */
  lemma LayoutsUndo<T>(data: seq<T>, heads: nat, half: nat, width: nat, zero: T)
    requires 0 < half && |data| == (heads * (2 * half)) * width && (width == 0 ==> data == [])
    ensures NeoX(Llama(data, heads, half, width), 2 * half, width, half, heads, zero) == data
    ensures Llama(NeoX(data, 2 * half, width, half, heads, zero), heads, half, width) == data
  {
    hide Llama, NeoX, NeoXSource, PairedSource;
    var a, b := Llama(data, heads, half, width), NeoX(data, 2 * half, width, half, heads, zero);
    forall k | 0 <= k < |data|
      ensures NeoX(a, 2 * half, width, half, heads, zero)[k] == data[k] && Llama(b, heads, half, width)[k] == data[k]
    {
      SourcesInverse(k, 2 * half, width, half, heads);
      NeoXAt(a, 2 * half, width, half, heads, zero, k);
      LlamaAt(data, heads, half, width, NeoXSource(k, 2 * half, width, half));
      LlamaAt(b, heads, half, width, k);
      NeoXAt(data, 2 * half, width, half, heads, zero, PairedSource(k, 2 * half, width, half));
    }
  }

  /** So of the two repackers: on a query or key matrix of whole heads of even size, what one puts out
      the other turns back into the weights it was given. */
  lemma RepackersUndo<T>(name: string, data: seq<T>, numHeads: nat, numKVHeads: nat, half: nat, width: nat, zero: T)
    requires 0 < numHeads && 0 < HeadsOf(name, numHeads, numKVHeads) && 0 < half
    requires |data| == (HeadsOf(name, numHeads, numKVHeads) * (2 * half)) * width
    ensures var shape := [HeadsOf(name, numHeads, numKVHeads) * (2 * half), width];
      && Size(shape) == |data| && (var r := RepackOutput(name, data, shape, numHeads, numKVHeads);
                                   r.Ok? && |r.value| == |data| && NeoXOutput(r.value, shape, 2 * half, 2 * half, zero) == data)
      && RepackOutput(name, NeoXOutput(data, shape, 2 * half, 2 * half, zero), shape, numHeads, numKVHeads) == Ok(data)
  {
    var heads := HeadsOf(name, numHeads, numKVHeads);
    var shape := [heads * (2 * half), width];
    LlamaIsRepack(data, heads, half, width);
    DivUnique(heads * (2 * half), 2 * half, heads, 0);
    if width == 0 {
      MulZero(heads * (2 * half));
    }
    hide Transposed, NeoX, Size, HalvesShape, HeadsOf;
    assert NeoXOutput(data, shape, 2 * half, 2 * half, zero) == NeoX(data, 2 * half, width, half, heads, zero);
    var back := NeoX(data, 2 * half, width, half, heads, zero);
    LlamaIsRepack(back, heads, half, width);
    LayoutsUndo(data, heads, half, width, zero);
  }

  lemma MulZero(a: nat)
    ensures a * 0 == 0
  {
  }

  /** For whole heads and any rotary size, the weights are permuted, every element going to one
      place and every place getting one, and the rows that are not rotary stay. */
  lemma NeoXPermutes<T>(data: seq<T>, headDim: nat, width: nat, half: nat, heads: nat, zero: T, k: nat)
    requires 0 < headDim && 0 < width && 2 * half <= headDim && (heads * headDim) * width == |data| && k < |data|
    ensures var to := PairedSource(k, headDim, width, half);
      to < |data| && NeoXSource(to, headDim, width, half) == k && NeoX(data, headDim, width, half, heads, zero)[to] == data[k]
    ensures CoordOf(k, headDim, width).row >= 2 * half ==> NeoX(data, headDim, width, half, heads, zero)[k] == data[k]
  {
    hide NeoX, NeoXSource, PairedSource, CoordOf;
    SourcesInverse(k, headDim, width, half, heads);
    NeoXAt(data, headDim, width, half, heads, zero, PairedSource(k, headDim, width, half));
    NeoXAt(data, headDim, width, half, heads, zero, k);
  }

  /** The place of row d of head h in column f. */
  function Cell(h: nat, d: nat, f: nat, headDim: nat, width: nat): nat {
    MulSign(h, headDim);
    MulSign(h * headDim + d, width);
    (h * headDim + d) * width + f
  }

  /** What llama's repack puts out, by its indices: query matrices are taken apart into as many heads as
      there are attention heads, key matrices into as many as there are key heads, when that number is given;
      and in every head row i of half p comes to row 2 * i + p. */
  lemma RepackOutputRows<T>(name: string, data: seq<T>, numHeads: nat, numKVHeads: nat, heads: nat, half: nat, width: nat,
                            h: nat, p: nat, i: nat, f: nat)
    requires 0 < numHeads && 0 < half && |data| == (heads * (2 * half)) * width && 0 < heads
    requires || (HasSuffix(name, "attn_q.weight") && heads == numHeads)
             || (HasSuffix(name, "attn_k.weight") && heads == if numKVHeads == 0 then numHeads else numKVHeads)
    requires h < heads && p < 2 && i < half && f < width
    ensures Size([heads * (2 * half), width]) == |data|
    ensures var r := RepackOutput(name, data, [heads * (2 * half), width], numHeads, numKVHeads);
      && r.Ok? && |r.value| == |data|
      && Cell(h, 2 * i + p, f, 2 * half, width) < |data| && Cell(h, p * half + i, f, 2 * half, width) < |data|
      && r.value[Cell(h, 2 * i + p, f, 2 * half, width)] == data[Cell(h, p * half + i, f, 2 * half, width)]
  {
    HeadsOfName(name, numHeads, numKVHeads);
    LlamaIsRepack(data, heads, half, width);
    hide Transposed, Size, HalvesShape, HeadsOf, HasSuffix;
    var c := Coord(h, 2 * i + p, f);
    assert PairedRow(half, 2 * i + p) == p * half + i by { PairOf(half, i, p); }
    RepackedAt(data, heads, half, width, c);
  }

  lemma PairOf(half: nat, i: nat, p: nat)
    requires p < 2 && i < half
    ensures PairedRow(half, 2 * i + p) == p * half + i
  {
    assert (2 * i + p) / 2 == i && (2 * i + p) % 2 == p;
  }

  lemma HeadsOfName(name: string, numHeads: nat, numKVHeads: nat)
    ensures HasSuffix(name, "attn_q.weight") ==> HeadsOf(name, numHeads, numKVHeads) == numHeads
    ensures HasSuffix(name, "attn_k.weight") ==>
              HeadsOf(name, numHeads, numKVHeads) == if numKVHeads == 0 then numHeads else numKVHeads
  {
    SuffixAt(name, "attn_k.weight", 5);
    SuffixAt(name, "attn_q.weight", 5);
    SuffixAt(name, "attn_q_proj.weight", 10);
  }

  lemma SuffixAt(s: string, suffix: string, k: nat)
    requires k < |suffix|
    ensures HasSuffix(s, suffix) ==> |suffix| <= |s| && s[|s| - |suffix| + k] == suffix[k]
  {
    if HasSuffix(s, suffix) {
      assert s[|s| - |suffix|..][k] == suffix[k];
    }
  }

  /** What the repacker puts out, by its indices: in every whole head the rotary rows come even ones
      first, then odd ones, and a last rotary row that has no partner stays, as do the rows behind. */
  lemma NeoXOutputRows<T>(data: seq<T>, shape: seq<nat>, headDim: nat, rotary: nat, zero: T, h: nat, i: nat, f: nat)
    requires 1 <= |shape| <= 2 && 0 < headDim && rotary <= headDim
    requires |data| == shape[0] * if |shape| == 1 then 1 else shape[1]
    requires h < shape[0] / headDim && f < if |shape| == 1 then 1 else shape[1]
    ensures var width, out := if |shape| == 1 then 1 else shape[1], NeoXOutput(data, shape, headDim, rotary, zero);
      && (i < headDim ==> Cell(h, i, f, headDim, width) < |data|)
      && (rotary - rotary % 2 <= i < headDim ==> out[Cell(h, i, f, headDim, width)] == data[Cell(h, i, f, headDim, width)])
      && (i < rotary / 2 ==>
            && Cell(h, 2 * i, f, headDim, width) < |data| && Cell(h, 2 * i + 1, f, headDim, width) < |data|
            && Cell(h, rotary / 2 + i, f, headDim, width) < |data|
            && out[Cell(h, i, f, headDim, width)] == data[Cell(h, 2 * i, f, headDim, width)]
            && out[Cell(h, rotary / 2 + i, f, headDim, width)] == data[Cell(h, 2 * i + 1, f, headDim, width)])
  {
    var width := if |shape| == 1 then 1 else shape[1];
    WholeHeads(shape[0], headDim, width);
    if i < headDim {
      NeoXRowAt(data, headDim, width, rotary / 2, shape[0] / headDim, zero, h, i, f);
    }
    if i < rotary / 2 {
      NeoXRowAt(data, headDim, width, rotary / 2, shape[0] / headDim, zero, h, rotary / 2 + i, f);
      NeoXRowAt(data, headDim, width, rotary / 2, shape[0] / headDim, zero, h, 2 * i, f);
      NeoXRowAt(data, headDim, width, rotary / 2, shape[0] / headDim, zero, h, 2 * i + 1, f);
    }
    hide NeoX, Cell;
  }

  lemma NeoXRowAt<T>(data: seq<T>, headDim: nat, width: nat, half: nat, heads: nat, zero: T, h: nat, d: nat, f: nat)
    requires 0 < headDim && 2 * half <= headDim && (heads * headDim) * width <= |data| && h < heads && d < headDim && f < width
    ensures Cell(h, d, f, headDim, width) < |data| && NeoXRow(half, d) < headDim
    ensures Cell(h, NeoXRow(half, d), f, headDim, width) < |data|
    ensures NeoX(data, headDim, width, half, heads, zero)[Cell(h, d, f, headDim, width)]
         == data[Cell(h, NeoXRow(half, d), f, headDim, width)]
  {
    var c := Coord(h, d, f);
    RowsInverse(half, headDim, d);
    PlaceCoord(c, headDim, width);
    PlaceBound(c, headDim, width, heads);
    PlaceBound(c.(row := NeoXRow(half, d)), headDim, width, heads);
    assert PlaceOf(c, headDim, width) == Cell(h, d, f, headDim, width);
    assert PlaceOf(c.(row := NeoXRow(half, d)), headDim, width) == Cell(h, NeoXRow(half, d), f, headDim, width);
    hide CoordOf, PlaceOf, Cell, NeoXRow;
  }

  /** A last head that is not whole is lost: its places are left zero. */
  lemma NeoXLeavesZero<T>(data: seq<T>, headDim: nat, width: nat, half: nat, heads: nat, zero: T, k: nat)
    requires 0 < headDim && 0 < width && 2 * half <= headDim && (heads * headDim) * width <= k < |data|
    ensures NeoX(data, headDim, width, half, heads, zero)[k] == zero
  {
    CoordPlace(k, headDim, width);
    PlaceBound(CoordOf(k, headDim, width), headDim, width, heads);
  }
}
