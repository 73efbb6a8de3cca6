/** The stored key rows against the cells, and the lemmas that carry a pass through the ranges. */
module Rows {
  import opened Tokens
  import opened CacheModel
  import opened Eviction
  import opened Wrappers
  import opened Forward
  import opened Attention
  import opened Ranges
  import opened Arithmetic

  /** A key row: zeros, or the token it was computed from and the rotary position it is turned to. */
  datatype Row = Zero | Key(token: Token, rot: int)

  ghost predicate RowOk(m: Model, keys: map<int, seq<Row>>, l: int, i: int)
    requires 0 <= i < |m.cells| == |m.content|
  {
    l in keys && i < |keys[l]| && keys[l][i] == Key(m.content[i], m.cells[i].pos)
  }

  /** In every layer, the row of every cell that a sound sequence stores is its token's key,
      rotated to the cell's position; only the batch's own cells may still wait for Put. */
  ghost predicate RowsOk(m: Model, keys: map<int, seq<Row>>, layers: set<int>, locs: seq<int>, unwritten: set<int>, broken: set<int>)
    requires |m.cells| == |m.content|
  {
    forall l, i, s :: l in layers && s !in broken && Stores(m.cells, i, s) && !(l in unwritten && i in locs) ==>
      RowOk(m, keys, l, i)
  }

  /** No cell is waiting for its row. */
  ghost predicate Settled(cells: seq<Cell>, locs: seq<int>, unwritten: set<int>) {
    unwritten == {} || forall i, s :: i in locs ==> !Stores(cells, i, s)
  }

  lemma SettledRow(
    m: Model, keys: map<int, seq<Row>>, layers: set<int>, locs: seq<int>, unwritten: set<int>,
    broken: set<int>, l: int, i: int, s: int)
    requires |m.cells| == |m.content|
    requires RowsOk(m, keys, layers, locs, unwritten, broken) && Settled(m.cells, locs, unwritten)
    requires l in layers && s !in broken && Stores(m.cells, i, s)
    ensures RowOk(m, keys, l, i)
  {
  }

  lemma EvictedFrame(cfg: Config, m: Model, b: Batch, i: int, s: int)
    requires ShapedBatch(b)
    ensures var e := Evicted(cfg, m, b);
      && |e.cells| == |m.cells| && e.content == m.content && e.hist == m.hist
      && (Stores(e.cells, i, s) ==> Stores(m.cells, i, s))
      && (0 <= i < |m.cells| ==> e.cells[i].pos == m.cells[i].pos)
  {
    if cfg.memory != MAX_INT32 {
      var known := StoredSequences(m.cells);
      EvictStores(m.cells, Thresholds(m.cells, known, b), known, cfg.memory, s);
    }
  }

  /** After a pass has been started every old row still fits; the new cells wait for Put. */
  lemma ForwardRows(cfg: Config, m: Model, b: Batch, keys: map<int, seq<Row>>, layers: set<int>,
                    locs: seq<int>, unwritten: set<int>, broken: set<int>, locs': seq<int>)
    requires ShapedBatch(b) && |m.cells| == |m.content|
    requires RowsOk(m, keys, layers, locs, unwritten, broken) && Settled(m.cells, locs, unwritten)
    requires FreshLocs(Evicted(cfg, m, b).cells, locs') && |locs'| == |b.positions|
    ensures RowsOk(Placed(Evicted(cfg, m, b), b, locs', |b.positions|), keys, layers, locs', layers, broken)
  {
    var e := Evicted(cfg, m, b);
    var p := Placed(e, b, locs', |b.positions|);
    forall l, i, s | l in layers && s !in broken && Stores(p.cells, i, s) && !(l in layers && i in locs')
      ensures RowOk(p, keys, l, i)
    {
      assert !Used(locs', |b.positions|, i);
      PlacedElsewhere(e, b, locs', |b.positions|, i);
      EvictedFrame(cfg, m, b, i, s);
      assert Stores(e.cells, i, s);
      SettledRow(m, keys, layers, locs, unwritten, broken, l, i, s);
    }
  }

  lemma EvictedRows(cfg: Config, m: Model, b: Batch, keys: map<int, seq<Row>>, layers: set<int>,
                    locs: seq<int>, unwritten: set<int>, broken: set<int>)
    requires ShapedBatch(b) && |m.cells| == |m.content|
    requires RowsOk(m, keys, layers, locs, unwritten, broken)
    ensures RowsOk(Evicted(cfg, m, b), keys, layers, locs, unwritten, broken)
    ensures Settled(m.cells, locs, unwritten) ==> Settled(Evicted(cfg, m, b).cells, locs, unwritten)
  {
    var e := Evicted(cfg, m, b);
    forall l, i, s | l in layers && s !in broken && Stores(e.cells, i, s) && !(l in unwritten && i in locs)
      ensures RowOk(e, keys, l, i)
    {
      EvictedFrame(cfg, m, b, i, s);
      assert RowOk(m, keys, l, i);
    }
    forall i, s | i in locs && Stores(e.cells, i, s) ensures Stores(m.cells, i, s) {
      EvictedFrame(cfg, m, b, i, s);
    }
  }

  /** Storing one entry in a free cell keeps the ranges covering. */
  lemma PlaceRange(cells: seq<Cell>, ranges: map<int, Range>, i: int, p: int, s: int)
    requires RangesOk(cells, ranges) && CellsOk(cells) && |cells| <= MAX_INT
    requires 0 <= i < |cells| && cells[i].sequences == [] && 0 <= p < MAX_INT32
    ensures var cells' := cells[i := Cell(p, [s])];
            var ranges' := ranges[s := Extend(if s in ranges then ranges[s] else NEW_RANGE, i)];
      RangesOk(cells', ranges') && CellsOk(cells')
  {
    var cells' := cells[i := Cell(p, [s])];
    var r := if s in ranges then ranges[s] else NEW_RANGE;
    var ranges' := ranges[s := Extend(r, i)];
    assert forall k, t :: Stores(cells', k, t) <==> Stores(cells, k, t) || (k == i && t == s);
    forall t | t in ranges' ensures InBounds(ranges'[t], |cells'|) && CoversSeq(cells', ranges'[t], t) {
      if t in ranges {
        RangeAt(cells, ranges, t);
      }
    }
    assert CellOk(Cell(p, [s]));
  }

  /** The current range, extended by the batch's locations, covers every batch token's window. */
  lemma PassCovers(cfg: Config, e: Model, b: Batch, locs: seq<int>, r: Range, k: int)
    requires Continues(e.hist, b) && |e.cells| == |e.content| && |locs| == |b.positions|
    requires FreshLocs(e.cells, locs) && BatchCovered(r, e.cells, b, cfg.window)
    requires forall j :: 0 <= j < |locs| ==> r.min <= locs[j] <= r.max
    requires 0 <= k < |b.positions|
    ensures Covers(cfg, Placed(e, b, locs, |b.positions|).cells, r, b.sequences[k], b.positions[k])
  {
    var p := Placed(e, b, locs, |b.positions|);
    var s := b.sequences[k];
    assert InBatch(b, |b.positions|, s);
    LowestInBatch(e.hist, b, |b.positions|, s);
    assert ContinuesAt(e.hist, b, k);
    AppendedGrows(e.hist, b, k, s);
    forall j | Stores(p.cells, j, s) && b.positions[k] - cfg.window <= p.cells[j].pos ensures r.min <= j <= r.max {
      if !Used(locs, |b.positions|, j) {
        PlacedElsewhere(e, b, locs, |b.positions|, j);
        assert InWindow(e.cells, j, s, Lowest(b, |b.positions|), cfg.window);
      }
    }
  }

  lemma GrowCovered(r: Range, q: Range, cells: seq<Cell>, b: Batch, window: int)
    requires ShapedBatch(b) && BatchCovered(r, cells, b, window)
    requires q.min <= r.min && r.max <= q.max
    ensures BatchCovered(q, cells, b, window)
  {
  }

  /** The bookkeeping half of the cache invariant, which even a failed removal keeps. */
  ghost predicate ShapeOk(cfg: Config, padding: int, maxBatch: int, m: Model, ranges: map<int, Range>) {
    && 0 < padding && 0 < maxBatch && ValidConfig(cfg)
    && |m.cells| <= MAX_INT && |m.cells| % padding == 0
    && |m.content| == |m.cells|
    && RangesOk(m.cells, ranges)
    && CellsOk(m.cells)
  }

  /** The other half: every sequence a failed removal has not left behind is stored as its
      history says, and every key row belongs to its cell. */
  ghost predicate StoreOk(m: Model, keys: map<int, seq<Row>>, layers: set<int>, locs: seq<int>, unwritten: set<int>, broken: set<int>) {
    && |m.content| == |m.cells| && HistOk(m.hist)
    && (forall s :: s !in broken ==> SeqOk(m, s))
    && RowsOk(m, keys, layers, locs, unwritten, broken)
    && (forall l :: l in keys ==> |keys[l]| == |m.cells|)
    && unwritten <= layers
  }

  lemma CarryEvicted(cfg: Config, m: Model, b: Batch, keys: map<int, seq<Row>>, layers: set<int>, locs: seq<int>,
                     unwritten: set<int>, broken: set<int>)
    requires Continues(m.hist, b)
    requires StoreOk(m, keys, layers, locs, unwritten, broken) && Settled(m.cells, locs, unwritten)
    ensures var e := Evicted(cfg, m, b);
      && StoreOk(e, keys, layers, locs, unwritten, broken) && Settled(e.cells, locs, unwritten)
      && e.hist == m.hist
  {
    EvictedRows(cfg, m, b, keys, layers, locs, unwritten, broken);
    EvictedFrame(cfg, m, b, 0, 0);
    forall s | s !in broken ensures SeqOk(Evicted(cfg, m, b), s) {
      EvictedKeeps(cfg, m, b, s);
    }
  }

  lemma CarryForward(cfg: Config, m: Model, b: Batch, keys: map<int, seq<Row>>, layers: set<int>, locs: seq<int>,
                     unwritten: set<int>, broken: set<int>, locs': seq<int>)
    requires Continues(m.hist, b) && Int32Positions(b)
    requires StoreOk(m, keys, layers, locs, unwritten, broken) && Settled(m.cells, locs, unwritten)
    requires FindLocs(Evicted(cfg, m, b).cells, |b.positions|) == Some(locs')
    ensures ForwardStep(cfg, m, b) == Some(Placed(Evicted(cfg, m, b), b, locs', |b.positions|))
    ensures StoreOk(ForwardStep(cfg, m, b).value, keys, layers, locs', layers, broken)
    ensures FreshLocs(Evicted(cfg, m, b).cells, locs') && |locs'| == |b.positions|
  {
    EvictedFrame(cfg, m, b, 0, 0);
    PlacedElsewhere(Evicted(cfg, m, b), b, locs', |b.positions|, 0);
    AppendedOk(m.hist, b, |b.positions|);
    ForwardRows(cfg, m, b, keys, layers, locs, unwritten, broken, locs');
    forall s | s !in broken ensures SeqOk(ForwardStep(cfg, m, b).value, s) {
      ForwardEffect(cfg, m, b, s);
    }
  }

  /** Where the batch went: entry k in cell locs[k], alone. */
  ghost predicate StoredAt(m: Model, b: Batch, locs: seq<int>) {
    && ShapedBatch(b) && |locs| == |b.positions| && |m.content| == |m.cells|
    && (forall k :: 0 <= k < |locs| ==>
          && 0 <= locs[k] < |m.cells|
          && m.cells[locs[k]] == Cell(b.positions[k], [b.sequences[k]]) && m.content[locs[k]] == b.tokens[k])
    && (forall i, j :: 0 <= i < j < |locs| ==> locs[i] != locs[j])
  }

  lemma PassStarted(cfg: Config, e: Model, b: Batch, locs: seq<int>, r: Range, q: Range)
    requires Continues(e.hist, b) && |e.cells| == |e.content| && |locs| == |b.positions|
    requires FreshLocs(e.cells, locs) && BatchCovered(r, e.cells, b, cfg.window)
    requires q.min <= r.min && r.max <= q.max
    requires forall j :: 0 <= j < |locs| ==> q.min <= locs[j] <= q.max
    ensures var p := Placed(e, b, locs, |b.positions|);
      && StoredAt(p, b, locs)
      && forall k :: 0 <= k < |b.positions| ==> Covers(cfg, p.cells, q, b.sequences[k], b.positions[k])
  {
    var p := Placed(e, b, locs, |b.positions|);
    GrowCovered(r, q, e.cells, b, cfg.window);
    forall k | 0 <= k < |b.positions|
      ensures Covers(cfg, p.cells, q, b.sequences[k], b.positions[k])
      ensures p.cells[locs[k]] == Cell(b.positions[k], [b.sequences[k]]) && p.content[locs[k]] == b.tokens[k]
    {
      PassCovers(cfg, e, b, locs, q, k);
      PlacedHere(e, b, locs, |b.positions|, k);
    }
  }

  // ---------- Put and Get ----------

  /** The rows a model computes for the batch: token by token, rotated to the batch's positions. */
  function BatchKeys(b: Batch): (r: seq<Row>)
    requires ShapedBatch(b)
    ensures |r| == |b.positions|
  {
    seq(|b.positions|, k requires 0 <= k < |b.positions| => Key(b.tokens[k], b.positions[k]))
  }

  /** Rows after the first k new ones have been set at their locations. */
  function SetRows<T>(rows: seq<T>, locs: seq<int>, new': seq<T>, k: nat): (r: seq<T>)
    requires k <= |locs| == |new'|
    requires forall j :: 0 <= j < |locs| ==> 0 <= locs[j] < |rows|
    ensures |r| == |rows|
  {
    if k == 0 then rows else SetRows(rows, locs, new', k - 1)[locs[k - 1] := new'[k - 1]]
  }

  lemma {:induction false} SetRowsAt<T>(rows: seq<T>, locs: seq<int>, new': seq<T>, k: nat, i: int)
    requires k <= |locs| == |new'| && 0 <= i < |rows|
    requires forall j :: 0 <= j < |locs| ==> 0 <= locs[j] < |rows|
    requires forall j, l :: 0 <= j < l < |locs| ==> locs[j] != locs[l]
    ensures forall j :: 0 <= j < k && locs[j] == i ==> SetRows(rows, locs, new', k)[i] == new'[j]
    ensures !Used(locs, k, i) ==> SetRows(rows, locs, new', k)[i] == rows[i]
  {
    if k > 0 {
      SetRowsAt(rows, locs, new', k - 1, i);
      assert Used(locs, k, i) <==> Used(locs, k - 1, i) || locs[k - 1] == i;
    }
  }

  /** A layer of zeros, created on its first Put, holds no row that anything relies on. */
  lemma AddLayer(m: Model, keys: map<int, seq<Row>>, layers: set<int>, locs: seq<int>, unwritten: set<int>,
                 broken: set<int>, layer: int, rows: seq<Row>)
    requires StoreOk(m, keys, layers, locs, unwritten, broken) && layer !in keys && |rows| == |m.cells|
    ensures StoreOk(m, keys[layer := rows], layers, locs, unwritten, broken)
  {
    hide SeqOk;
    forall l, i, s | l in layers && s !in broken && Stores(m.cells, i, s) && !(l in unwritten && i in locs)
      ensures RowOk(m, keys[layer := rows], l, i)
    {
      assert RowOk(m, keys, l, i);
    }
  }

  lemma LayerSize(m: Model, keys: map<int, seq<Row>>, layers: set<int>, locs: seq<int>, unwritten: set<int>,
                  broken: set<int>, layer: int)
    requires StoreOk(m, keys, layers, locs, unwritten, broken) && layer in keys
    ensures |keys[layer]| == |m.cells|
  {
  }

  lemma PutRow(m: Model, b: Batch, locs: seq<int>, rows: seq<Row>, i: int)
    requires StoredAt(m, b, locs) && |rows| == |m.cells| && 0 <= i < |rows|
    ensures SetRows(rows, locs, BatchKeys(b), |locs|)[i] ==
            if i in locs then Key(m.content[i], m.cells[i].pos) else rows[i]
  {
    SetRowsAt(rows, locs, BatchKeys(b), |locs|, i);
    if i in locs {
      var k :| 0 <= k < |locs| && locs[k] == i;
    }
  }

  lemma PutOne(m: Model, b: Batch, keys: map<int, seq<Row>>, locs: seq<int>, layer: int, rows: seq<Row>, l: int, i: int)
    requires StoredAt(m, b, locs) && |rows| == |m.cells| && 0 <= i < |m.cells|
    requires layer in keys ==> keys[layer] == rows
    requires (l == layer && i in locs) || RowOk(m, keys, l, i)
    ensures RowOk(m, keys[layer := SetRows(rows, locs, BatchKeys(b), |locs|)], l, i)
  {
    PutRow(m, b, locs, rows, i);
  }

  lemma PutRows(m: Model, b: Batch, keys: map<int, seq<Row>>, layers: set<int>, locs: seq<int>, unwritten: set<int>,
                broken: set<int>, layer: int, rows: seq<Row>)
    requires StoredAt(m, b, locs) && RowsOk(m, keys, layers, locs, unwritten, broken)
    requires |rows| == |m.cells| && (layer in keys ==> keys[layer] == rows)
    ensures RowsOk(m, keys[layer := SetRows(rows, locs, BatchKeys(b), |locs|)], layers, locs, unwritten - {layer}, broken)
  {
    hide SetRows, BatchKeys, RowOk;
    var keys' := keys[layer := SetRows(rows, locs, BatchKeys(b), |locs|)];
    forall l, i, s | l in layers && s !in broken && Stores(m.cells, i, s) && !(l in unwritten - {layer} && i in locs)
      ensures RowOk(m, keys', l, i)
    {
      PutOne(m, b, keys, locs, layer, rows, l, i);
    }
  }

  /** Put fills in the rows the layer was waiting for and leaves every other row alone. */
  lemma PutKeeps(m: Model, b: Batch, keys: map<int, seq<Row>>, layers: set<int>, locs: seq<int>, unwritten: set<int>,
                 broken: set<int>, layer: int, rows: seq<Row>)
    requires StoreOk(m, keys, layers, locs, unwritten, broken) && StoredAt(m, b, locs)
    requires |rows| == |m.cells| && (layer in keys ==> keys[layer] == rows)
    ensures StoreOk(m, keys[layer := SetRows(rows, locs, BatchKeys(b), |locs|)], layers, locs, unwritten - {layer}, broken)
  {
    hide SeqOk, SetRows, BatchKeys, RowsOk;
    PutRows(m, b, keys, layers, locs, unwritten, broken, layer, rows);
  }

  /** Column x of the view is open to batch token k. */
  ghost predicate Open(key: seq<Row>, mask: seq<bool>, k: int, x: int) {
    0 <= x < |key| && 0 <= Idx(k, |key|, x) < |mask| && !mask[Idx(k, |key|, x)]
  }

  /** What batch token k attends to through the view is exactly the visible part of the history
      h: every open row is the key of a visible token rotated to its own position, and every
      visible token has exactly one open row. */
  ghost predicate Attends(cfg: Config, key: seq<Row>, mask: seq<bool>, h: seq<Token>, b: Batch, except: seq<int>, k: int)
    requires ShapedBatch(b) && 0 <= k < |b.positions|
  {
    && (forall x :: Open(key, mask, k, x) ==>
          key[x].Key? && 0 <= key[x].rot < |h| && Visible(cfg, b, except, k, key[x].rot) && key[x].token == h[key[x].rot])
    && (forall q :: 0 <= q < |h| && Visible(cfg, b, except, k, q) ==> exists x :: Open(key, mask, k, x) && key[x] == Key(h[q], q))
    && (forall x, y :: Open(key, mask, k, x) && Open(key, mask, k, y) && key[x] == key[y] ==> x == y)
  }

  /** Attention through the view: refinement of the cells carried over to the key rows. */
  lemma ViewAttends(cfg: Config, m: Model, keys: seq<Row>, mask: seq<bool>, r: Range, b: Batch, except: seq<int>, k: int)
    requires ShapedBatch(b) && 0 <= k < |b.positions|
    requires 0 <= r.min <= r.max < |m.cells| == |m.content| == |keys|
    requires SeqOk(m, b.sequences[k])
    requires WindowStored(cfg, m, b.sequences[k], b.positions[k])
    requires Covers(cfg, m.cells, r, b.sequences[k], b.positions[k])
    requires forall i :: Stores(m.cells, i, b.sequences[k]) ==> keys[i] == Key(m.content[i], m.cells[i].pos)
    requires forall x :: 0 <= x <= r.max - r.min ==> MaskAt(mask, cfg, m.cells, b, except, r, k, x)
    ensures Attends(cfg, keys[r.min..r.max + 1], mask, Hist(m.hist, b.sequences[k]), b, except, k)
  {
    var s, h, view := b.sequences[k], Hist(m.hist, b.sequences[k]), keys[r.min..r.max + 1];
    AttentionRefinement(cfg, m, r, b, except, k);
    forall x | Open(view, mask, k, x)
      ensures Stores(m.cells, r.min + x, s) && view[x] == Key(m.content[r.min + x], m.cells[r.min + x].pos)
      ensures SeenOnce(cfg, m, r, b, except, k, m.cells[r.min + x].pos)
    {
      assert MaskAt(mask, cfg, m.cells, b, except, r, k, x);
    }
    forall q | 0 <= q < |h| && Visible(cfg, b, except, k, q) ensures exists x :: Open(view, mask, k, x) && view[x] == Key(h[q], q) {
      assert SeenOnce(cfg, m, r, b, except, k, q);
      var j :| Seen(cfg, m, r, b, except, k, j, q) && m.content[j] == h[q];
      assert MaskAt(mask, cfg, m.cells, b, except, r, k, j - r.min);
      assert Open(view, mask, k, j - r.min);
    }
  }

  ghost predicate MaskAt(mask: seq<bool>, cfg: Config, cells: seq<Cell>, b: Batch, except: seq<int>, r: Range, k: int, x: int)
    requires ShapedBatch(b) && 0 <= k < |b.positions| && 0 <= x <= r.max - r.min
    requires 0 <= r.min <= r.max < |cells|
  {
    var at := Idx(k, r.max - r.min + 1, x);
    0 <= at < |mask| && mask[at] == Masked(cfg, cells, b, except, k, r.min + x)
  }
}
