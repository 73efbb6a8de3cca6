/** What the methods of the causal cache rely on, as lemmas about values. */
module CausalFacts {
  import opened CacheModel
  import opened Eviction
  import opened Forward
  import opened Sharing
  import opened Capacity
  import opened Arithmetic
  import opened Padding
  import opened Attention
  import opened Ranges
  import opened Rows
  import opened Rotation

  /** The mask holds, row by row, the masking condition of every batch token and cell of r. */
  ghost predicate MaskIs(mask: seq<bool>, cfg: Config, cells: seq<Cell>, b: Batch, except: seq<int>, r: Range, rows: nat)
    requires ShapedBatch(b) && rows <= |b.positions| && 0 <= r.min <= r.max < |cells|
  {
    var length := r.max - r.min + 1;
    && |mask| == |b.positions| * length
    && forall k, x :: 0 <= k < rows && 0 <= x < length ==> MaskAt(mask, cfg, cells, b, except, r, k, x)
  }

  /** One more row of the mask filled in. */
  lemma KeepRows(before: seq<bool>, after: seq<bool>, cfg: Config, cells: seq<Cell>, b: Batch, except: seq<int>, r: Range,
                 rows: nat, start: nat)
    requires ShapedBatch(b) && rows < |b.positions| && 0 <= r.min <= r.max < |cells|
    requires MaskIs(before, cfg, cells, b, except, r, rows) && |after| == |before|
    requires start == Idx(rows, r.max - r.min + 1, 0) && start + (r.max - r.min) < |after|
    requires forall i :: 0 <= i < start ==> after[i] == before[i]
    requires forall i :: start <= i <= start + r.max - r.min ==>
               after[i] == Masked(cfg, cells, b, except, rows, r.min + (i - start))
    ensures MaskIs(after, cfg, cells, b, except, r, rows + 1)
  {
    hide Masked;
    var length := r.max - r.min + 1;
    forall k, x | 0 <= k < rows + 1 && 0 <= x < length ensures MaskAt(after, cfg, cells, b, except, r, k, x) {
      if k < rows {
        assert MaskAt(before, cfg, cells, b, except, r, k, x);
        IdxBefore(k, rows, length, x);
      } else {
        assert Idx(k, length, x) == start + x;
      }
    }
  }

  /** The thresholds, as far as the idle sequences have been visited. */
  ghost predicate Adding(all: map<int, int>, low: map<int, int>, cells: seq<Cell>, known: set<int>, todo: set<int>) {
    && all.Keys == low.Keys + (known - todo)
    && forall s :: s in all ==> all[s] == if s in low then low[s] else Last(cells, s, |cells|) + 1
  }

  lemma AddingNone(low: map<int, int>, cells: seq<Cell>, known: set<int>)
    ensures Adding(low, low, cells, known, known)
  {
  }

  lemma AddingStep(all: map<int, int>, low: map<int, int>, cells: seq<Cell>, known: set<int>, todo: set<int>, s: int)
    requires Adding(all, low, cells, known, todo) && s in todo && s in known
    ensures s in low ==> Adding(all, low, cells, known, todo - {s})
    ensures s !in low ==> Adding(all[s := Last(cells, s, |cells|) + 1], low, cells, known, todo - {s})
  {
    hide Last;
  }

  lemma AddingDone(all: map<int, int>, low: map<int, int>, cells: seq<Cell>, known: set<int>, b: Batch)
    requires ShapedBatch(b) && low == Lowest(b, |b.positions|) && Adding(all, low, cells, known, {})
    ensures all == Thresholds(cells, known, b) && all.Keys == low.Keys + known
  {
    hide Last, Lowest;
    var want := Thresholds(cells, known, b);
    assert all.Keys == want.Keys;
    assert forall s :: s in all ==> all[s] == want[s];
  }

  /** s is sound and could resume at its next position. */
  ghost predicate MayGoOn(cfg: Config, m: Model, broken: set<int>, s: int) {
    s !in broken && WindowStored(cfg, m, s, |Hist(m.hist, s)|)
  }

  /** After the step, the tokens of sequences that could resume have their windows stored. */
  lemma WindowsHere(cfg: Config, m: Model, b: Batch, padding: int, maxBatch: int, ranges: map<int, Range>, keys: map<int, seq<Row>>,
                    layers: set<int>, locs: seq<int>, unwritten: set<int>, broken: set<int>)
    requires ShapeOk(cfg, padding, maxBatch, m, ranges) && StoreOk(m, keys, layers, locs, unwritten, broken) && Continues(m.hist, b)
    ensures |m.cells| == |m.content|
    ensures ForwardStep(cfg, m, b).Some? ==>
              forall k :: 0 <= k < |b.positions| && MayGoOn(cfg, m, broken, b.sequences[k]) ==>
                WindowStored(cfg, ForwardStep(cfg, m, b).value, b.sequences[k], b.positions[k])
  {
    hide SeqOk, WindowStored, ForwardStep, ContinuesAt, RangesOk, CellsOk, RowsOk;
    if ForwardStep(cfg, m, b).Some? {
      forall k | 0 <= k < |b.positions| && MayGoOn(cfg, m, broken, b.sequences[k])
        ensures WindowStored(cfg, ForwardStep(cfg, m, b).value, b.sequences[k], b.positions[k])
      {
        PassWindowStored(cfg, m, b, k);
      }
    }
  }

  /** After the step nothing is held from further back than the memory reaches. */
  lemma MemoryOnly(cfg: Config, m: Model, b: Batch, padding: int, maxBatch: int, ranges: map<int, Range>, keys: map<int, seq<Row>>,
                   layers: set<int>, locs: seq<int>, unwritten: set<int>, broken: set<int>)
    requires ShapeOk(cfg, padding, maxBatch, m, ranges) && StoreOk(m, keys, layers, locs, unwritten, broken) && Continues(m.hist, b)
    ensures |m.cells| == |m.content|
    ensures ForwardStep(cfg, m, b).Some? && cfg.memory != MAX_INT32 ==>
              forall s, q :: s !in broken && Holds(ForwardStep(cfg, m, b).value.cells, s, q) ==> |Hist(m.hist, s)| - cfg.memory <= q
  {
    hide SeqOk, Holds, ForwardStep, ContinuesAt, RowsOk, RangesOk, CellsOk;
    if ForwardStep(cfg, m, b).Some? && cfg.memory != MAX_INT32 {
      forall s, q | s !in broken && Holds(ForwardStep(cfg, m, b).value.cells, s, q) ensures |Hist(m.hist, s)| - cfg.memory <= q {
        ForwardEffect(cfg, m, b, s);
      }
    }
  }

  lemma CopyCellStep(cells: seq<Cell>, src: int, dst: int, len: int, i: int)
    requires 0 <= i < |cells| && src != dst && CellsOk(cells)
    ensures CopyCells(cells, src, dst, len)[i] == CopyCell(cells[i], src, dst, len)
    ensures 0 <= CopyCell(cells[i], src, dst, len).pos
  {
    PosOk(cells, i);
  }

  /** first and last are the extreme positions of s among the first k cells. */
  ghost predicate Bounds(cells: seq<Cell>, s: int, k: int, first: int, last: int) {
    && (forall i :: Stores(cells, i, s) && i < k ==> first <= cells[i].pos <= last)
    && if last == -1 then first == MAX_INT32 else Holds(cells, s, first) && Holds(cells, s, last)
  }

  lemma NothingStored(cfg: Config, m: Model, s: int, pos: int, ranges: map<int, Range>)
    requires RangesOk(m.cells, ranges) && s !in ranges && ValidConfig(cfg) && 0 <= pos
    ensures !(0 < |Hist(m.hist, s)| && pos <= |Hist(m.hist, s)| && WindowStored(cfg, m, s, pos))
  {
    forall q ensures !Holds(m.cells, s, q) {}
    if 0 < |Hist(m.hist, s)| && pos <= |Hist(m.hist, s)| {
      assert !Holds(m.cells, s, Max(0, pos - cfg.window));
    }
  }

  lemma ResumeTest(cfg: Config, m: Model, s: int, pos: int, first: int, last: int)
    requires SeqOk(m, s) && ValidConfig(cfg) && 0 <= pos && Bounds(m.cells, s, |m.cells|, first, last)
    ensures 0 < |Hist(m.hist, s)| && pos <= |Hist(m.hist, s)| && WindowStored(cfg, m, s, pos) <==>
            last != -1 && first <= Max(0, pos - cfg.window) && pos <= last + 1
  {
    var n, start := |Hist(m.hist, s)|, Max(0, pos - cfg.window);
    if last != -1 {
      var i :| Stores(m.cells, i, s) && m.cells[i].pos == first;
      assert Holds(m.cells, s, n - 1);
      assert last == n - 1;
    }
    if 0 < n && pos <= n && WindowStored(cfg, m, s, pos) {
      assert Holds(m.cells, s, start);
    }
  }

  lemma HitsInRange(cells: seq<Cell>, r: Range, s: int, begin: int)
    requires InBounds(r, |cells|) && CoversSeq(cells, r, s)
    ensures forall i :: 0 <= i < |cells| && Hit(cells[i], s, begin) ==> r != NEW_RANGE && r.min <= i <= r.max
  {
    forall i | 0 <= i < |cells| && Hit(cells[i], s, begin) ensures r != NEW_RANGE && r.min <= i <= r.max {
      assert Stores(cells, i, s);
    }
  }

  lemma StoreSizes(m: Model, keys: map<int, seq<Row>>, layers: set<int>, locs: seq<int>, unwritten: set<int>, broken: set<int>)
    requires StoreOk(m, keys, layers, locs, unwritten, broken)
    ensures Sized(keys, |m.cells|)
  {
  }

  /** What Remove needs to know beforehand: a tail removal is never blocked. */
  lemma RemoveFacts(m: Model, s: int, begin: int, end: int)
    requires CellsOk(m.cells) && 0 <= begin
    ensures end == MAX_INT32 ==> !Blocked(m.cells, |m.cells|, s, begin, end)
  {
    if end == MAX_INT32 {
      forall i | 0 <= i < |m.cells| ensures m.cells[i].pos < MAX_INT32 {
        PosOk(m.cells, i);
      }
      RemoveTail(m, s, begin);
    }
  }

  lemma FailedFrames(m: Model, k: int, s: int, begin: int, end: int)
    requires |m.content| == |m.cells| && !Blocked(m.cells, k, s, begin, end)
    ensures forall t :: t != s ==> SameView(m, Model(RemoveCells(m.cells, k, s, begin, end), m.content, m.hist), t)
  {
    forall t | t != s ensures SameView(m, Model(RemoveCells(m.cells, k, s, begin, end), m.content, m.hist), t) {
      RemoveFrame(m, m.hist, k, s, begin, end, t);
    }
  }

  lemma RemoveFrames(m: Model, s: int, begin: int, end: int)
    requires |m.content| == |m.cells| && !Blocked(m.cells, |m.cells|, s, begin, end)
    ensures forall t :: t != s ==> SameView(m, RemoveStep(m, s, begin, end), t)
  {
    forall t | t != s ensures SameView(m, RemoveStep(m, s, begin, end), t) {
      RemoveFrame(m, RemoveStep(m, s, begin, end).hist, |m.cells|, s, begin, end, t);
    }
  }

  /** int32 addition, wrapping around. */
  function AddInt32(a: int, b: int): int {
    (a + b + 0x8000_0000) % 0x1_0000_0000 - 0x8000_0000
  }

  lemma CacheSizeIs(cfg: Config, maxSequences: nat, capacity: nat, batch: nat)
    ensures CacheSize(cfg, maxSequences, capacity, batch) ==
            if cfg.memory == MAX_INT32 then maxSequences * capacity else maxSequences * cfg.memory + batch
  {
  }

  lemma EmptyCache(cfg: Config, padding: int, maxBatch: int, m: Model, layers: set<int>)
    requires 0 < padding && 0 < maxBatch && ValidConfig(cfg)
    requires |m.cells| == |m.content| <= MAX_INT && |m.cells| % padding == 0 && m.hist == map[]
    requires forall i :: 0 <= i < |m.cells| ==> m.cells[i] == Cell(0, [])
    ensures ShapeOk(cfg, padding, maxBatch, m, map[]) && StoreOk(m, map[], layers, [], {}, {})
  {
    forall i, s ensures !Stores(m.cells, i, s) {}
    forall i | 0 <= i < |m.cells| ensures CellOk(m.cells[i]) {}
  }

  lemma InitSize(cfg: Config, maxSequences: nat, capacity: nat, batch: nat, padding: int)
    requires 0 < padding && 0 <= cfg.memory <= MAX_INT32
    requires maxSequences * capacity + maxSequences * MAX_INT32 + batch + padding <= MAX_INT
    ensures var size := CacheSize(cfg, maxSequences, capacity, batch);
      0 <= size <= RoundUp(size, padding) <= MAX_INT && RoundUp(size, padding) % padding == 0
  {
    var size := CacheSize(cfg, maxSequences, capacity, batch);
    MulSign(maxSequences, capacity);
    MulSign(maxSequences, cfg.memory);
    MulMono(cfg.memory, MAX_INT32, maxSequences);
    RoundUpFacts(size, padding);
    var up := (size + padding - 1) / padding;
    DivUnique(up * padding, padding, up, 0);
    assert up * padding == (up * padding) / padding * padding + (up * padding) % padding;
  }

  /** The step is possible just when enough cells are free after the eviction. */
  lemma StepFull(cfg: Config, m: Model, b: Batch)
    requires ShapedBatch(b) && |m.cells| == |m.content|
    ensures ForwardStep(cfg, m, b).None? <==> FindLocs(Evicted(cfg, m, b).cells, |b.positions|).None?
  {
  }

  lemma EvictedUnlimited(cfg: Config, m: Model, b: Batch)
    requires ShapedBatch(b) && cfg.memory == MAX_INT32
    ensures Evicted(cfg, m, b) == m
  {
  }

  lemma SpanCovers(r: Range, m: Model, b: Batch, window: int)
    requires Continues(m.hist, b)
    requires forall s, i :: InBatch(b, |b.positions|, s) && Stores(m.cells, i, s) ==> r.min <= i <= r.max
    ensures BatchCovered(r, m.cells, b, window)
  {
    forall i, s | s in Lowest(b, |b.positions|) && InWindow(m.cells, i, s, Lowest(b, |b.positions|), window)
      ensures r.min <= i <= r.max
    {
      LowestInBatch(m.hist, b, |b.positions|, s);
    }
  }

  lemma EvictedLimited(cfg: Config, m: Model, b: Batch, start: Scan, e: Scan)
    requires ShapedBatch(b) && cfg.memory != MAX_INT32
    requires start.cells == m.cells && RangesOk(start.cells, start.ranges)
    requires Visited(start, Thresholds(start.cells, start.ranges.Keys, b), Lowest(b, |b.positions|).Keys, start.ranges.Keys,
                     cfg.memory, cfg.window, e)
    ensures Evicted(cfg, m, b) == Model(e.cells, m.content, m.hist)
  {
    EvictKnown(m.cells, start.ranges.Keys, b, cfg.memory);
  }
}
