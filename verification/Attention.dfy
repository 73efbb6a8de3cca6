/** The mask over the narrowed cell range, against attention over the whole history. */
module Attention {
  import opened Tokens
  import opened CacheModel
  import opened Forward
  import opened Sharing

  /** What a cache that never evicts and never narrows its range lets batch token k attend to:
      position q of the token's own sequence. */
  predicate Visible(cfg: Config, b: Batch, except: seq<int>, k: int, q: int)
    requires ShapedBatch(b) && 0 <= k < |b.positions|
  {
    var p := b.positions[k];
    && (k !in except ==> q <= p)
    && (cfg.chunk > 0 ==> p - p % cfg.chunk <= q)
    && p - cfg.window <= q
  }

  /** The condition under which the mask entry of batch token k and cell j is minus infinity. */
  predicate Masked(cfg: Config, cells: seq<Cell>, b: Batch, except: seq<int>, k: int, j: int)
    requires ShapedBatch(b) && 0 <= k < |b.positions| && 0 <= j < |cells|
  {
    || b.sequences[k] !in cells[j].sequences
    || (k !in except && cells[j].pos > b.positions[k])
    || (cfg.chunk > 0 && cells[j].pos < b.positions[k] - b.positions[k] % cfg.chunk)
    || cells[j].pos < b.positions[k] - cfg.window
  }

  /** The range the mask is built over misses no cell that token k's window reaches. */
  ghost predicate Covers(cfg: Config, cells: seq<Cell>, r: Range, s: int, p: int) {
    forall j :: Stores(cells, j, s) && p - cfg.window <= cells[j].pos ==> r.min <= j <= r.max
  }

  /** Exactly one cell of the range is unmasked for position q, and it is backed by q's token. */
  ghost predicate SeenOnce(cfg: Config, m: Model, r: Range, b: Batch, except: seq<int>, k: int, q: int)
    requires ShapedBatch(b) && 0 <= k < |b.positions|
    requires 0 <= r.min && r.max < |m.cells| == |m.content|
  {
    && 0 <= q < |Hist(m.hist, b.sequences[k])|
    && exists j :: Seen(cfg, m, r, b, except, k, j, q)
         && m.content[j] == Hist(m.hist, b.sequences[k])[q]
         && forall i :: Seen(cfg, m, r, b, except, k, i, q) ==> i == j
  }

  ghost predicate Seen(cfg: Config, m: Model, r: Range, b: Batch, except: seq<int>, k: int, j: int, q: int)
    requires ShapedBatch(b) && 0 <= k < |b.positions|
    requires 0 <= r.min && r.max < |m.cells|
  {
    r.min <= j <= r.max && !Masked(cfg, m.cells, b, except, k, j) && m.cells[j].pos == q
  }

  /** Attention refinement, for one batch token of a pass whose window is stored: the unmasked
      cells of the narrowed range are, position by position and token by token, what attention
      over the whole history sees. */
  lemma AttentionRefinement(cfg: Config, m: Model, r: Range, b: Batch, except: seq<int>, k: int)
    requires ShapedBatch(b) && 0 <= k < |b.positions|
    requires 0 <= r.min && r.max < |m.cells|
    requires SeqOk(m, b.sequences[k])
    requires WindowStored(cfg, m, b.sequences[k], b.positions[k])
    requires Covers(cfg, m.cells, r, b.sequences[k], b.positions[k])
    ensures forall j :: r.min <= j <= r.max && !Masked(cfg, m.cells, b, except, k, j) ==>
              SeenOnce(cfg, m, r, b, except, k, m.cells[j].pos)
    ensures forall q :: 0 <= q < |Hist(m.hist, b.sequences[k])| ==>
              (SeenOnce(cfg, m, r, b, except, k, q) <==> Visible(cfg, b, except, k, q))
  {
    var s, p := b.sequences[k], b.positions[k];
    forall j | r.min <= j <= r.max && !Masked(cfg, m.cells, b, except, k, j)
      ensures SeenOnce(cfg, m, r, b, except, k, m.cells[j].pos)
    {
      assert Stores(m.cells, j, s);
      assert Seen(cfg, m, r, b, except, k, j, m.cells[j].pos);
      assert forall i :: Seen(cfg, m, r, b, except, k, i, m.cells[j].pos) ==> Stores(m.cells, i, s);
    }
    forall q | 0 <= q < |Hist(m.hist, s)| && Visible(cfg, b, except, k, q)
      ensures SeenOnce(cfg, m, r, b, except, k, q)
    {
      assert Holds(m.cells, s, q);
      var j :| Stores(m.cells, j, s) && m.cells[j].pos == q;
      assert !Masked(cfg, m.cells, b, except, k, j);
    }
  }

  /** The hypothesis of the refinement holds for every token of a batch whose sequences are new
      or could resume at their next position. */
  lemma PassWindowStored(cfg: Config, m: Model, b: Batch, k: nat)
    requires ValidConfig(cfg) && Continues(m.hist, b) && k < |b.positions|
    requires SeqOk(m, b.sequences[k])
    requires ForwardStep(cfg, m, b).Some?
    requires WindowStored(cfg, m, b.sequences[k], |Hist(m.hist, b.sequences[k])|)
    ensures WindowStored(cfg, ForwardStep(cfg, m, b).value, b.sequences[k], b.positions[k])
  {
    ForwardEffect(cfg, m, b, b.sequences[k]);
    assert ContinuesAt(m.hist, b, k);
    AppendedGrows(m.hist, b, k, b.sequences[k]);
  }

  // ---------- what a removal does to resuming ----------

  /** After a removal the sequence can resume at its new end exactly when the new window starts
      behind the cut or at a position that is still stored: the question the TODO in Remove
      leaves open, answered by a test the caller could make beforehand. */
  lemma ResumableAfterRemove(cfg: Config, m: Model, s: int, begin: int, end: int)
    requires ValidConfig(cfg) && SeqOk(m, s) && |Hist(m.hist, s)| <= MAX_INT32
    requires 0 <= begin <= end && (end == MAX_INT32 || end <= |Hist(m.hist, s)|)
    requires begin <= |Hist(m.hist, s)|
    requires WindowStored(cfg, m, s, |Hist(m.hist, s)|)
    ensures var m' := RemoveStep(m, s, begin, end);
            var n' := |Hist(m'.hist, s)|;
            var start := Max(0, n' - cfg.window);
      WindowStored(cfg, m', s, n') <==> n' == 0 || begin <= start || Holds(m.cells, s, start)
  {
    var m' := RemoveStep(m, s, begin, end);
    var n' := |Hist(m'.hist, s)|;
    var start := Max(0, n' - cfg.window);
    RemoveEffect(m, s, begin, end);
    if WindowStored(cfg, m', s, n') && n' > 0 {
      assert Holds(m'.cells, s, start);
    }
    if Holds(m.cells, s, start) && start < n' {
      var i :| Stores(m.cells, i, s) && m.cells[i].pos == start;
      assert forall q :: start <= q < |Hist(m.hist, s)| ==> Holds(m.cells, s, q);
    }
  }

  /** The TODO is not idle: window and memory 2, positions 4 and 5 of six stored, and cutting
      out position 4 leaves the next token's window reaching a position that is gone. */
  lemma MiddleRemovalLosesWindow(t: Token)
    ensures var cfg := Config(2, 2, 0);
            var m := Model([Cell(4, [0]), Cell(5, [0])], [t, t], map[0 := [t, t, t, t, t, t]]);
            var m' := RemoveStep(m, 0, 4, 5);
      && SeqOk(m, 0) && WindowStored(cfg, m, 0, 6)
      && !Blocked(m.cells, 2, 0, 4, 5)
      && SeqOk(m', 0) && !WindowStored(cfg, m', 0, 5)
  {
    var cfg := Config(2, 2, 0);
    var m := Model([Cell(4, [0]), Cell(5, [0])], [t, t], map[0 := [t, t, t, t, t, t]]);
    SixTokens(t);
    hide RemoveCells, SeqOk, Blocked;
    ResumableAfterRemove(cfg, m, 0, 4, 5);
    RemoveSound(m, 0, 4, 5);
    assert |Cut(Hist(m.hist, 0), 4, 5)| == 5;
  }

  lemma SixTokens(t: Token)
    ensures var m := Model([Cell(4, [0]), Cell(5, [0])], [t, t], map[0 := [t, t, t, t, t, t]]);
      && |Hist(m.hist, 0)| == 6 && SeqOk(m, 0) && !Blocked(m.cells, 2, 0, 4, 5)
      && WindowStored(Config(2, 2, 0), m, 0, 6) && !Holds(m.cells, 0, 3)
  {
    var m := Model([Cell(4, [0]), Cell(5, [0])], [t, t], map[0 := [t, t, t, t, t, t]]);
    assert Stores(m.cells, 0, 0) && Stores(m.cells, 1, 0);
    assert Holds(m.cells, 0, 4) && Holds(m.cells, 0, 5);
  }
}
