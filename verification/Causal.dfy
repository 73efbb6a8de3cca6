/** The causal cache of kvcache/causal.go: cells, cell ranges, key rows and mask, updated in
    place. Every method is proved against the functions of the value model. */
module Causal {
  import opened Tokens
  import opened CacheModel
  import opened Eviction
  import opened Wrappers
  import opened Forward
  import opened Sharing
  import opened Capacity
  import opened Arithmetic
  import opened Padding
  import opened Attention
  import opened Ranges
  import opened Rows
  import opened Rotation
  import opened CausalFacts

  datatype Error = CacheFull | NotSupported | SharedCells | ShiftFailed | InvalidShape

  datatype Status = Ok | Err(error: Error)

  /** Some element of s: the next key of a Go map iteration. */
  method Choose<T(==)>(s: set<T>) returns (x: T)
    requires s != {}
    ensures x in s
  {
    x :| x in s;
  }

  method LowestPositions(b: Batch) returns (low: map<int, int>)
    requires ShapedBatch(b)
    ensures low == Lowest(b, |b.positions|)
  {
    low := map[];
    for i := 0 to |b.positions|
      invariant low == Lowest(b, i)
    {
      var s, p := b.sequences[i], b.positions[i];
      if s !in low || p < low[s] {
        low := low[s := p];
      }
    }
  }

  class Causal {
    var windowSize: int
    var memorySize: int
    const chunkSize: int
    const canShift: bool
    /** The views, by layer and first location, that the backend's shift function refuses to turn. */
    var refuses: set<(int, int)>
    var padding: int
    var maxBatch: int

    var curBatch: Batch
    var except: seq<int>
    var curLocs: seq<int>
    var curCellRange: Range
    var curMask: seq<bool>
    var curLayer: int

    var cells: array<Cell>
    var cellRanges: map<int, Range>
    var keys: map<int, seq<Row>>

    ghost const layers: set<int>
    ghost var content: seq<Token>
    ghost var hist: map<int, seq<Token>>
    ghost var broken: set<int>
    ghost var unwritten: set<int>

    ghost function M(): Model
      reads this, cells
    {
      Model(cells[..], content, hist)
    }

    function Cfg(): Config
      reads this
    {
      Config(windowSize, memorySize, chunkSize)
    }

    ghost predicate Shaped()
      reads this, cells
    {
      ShapeOk(Cfg(), padding, maxBatch, M(), cellRanges)
    }

    ghost predicate Valid()
      reads this, cells
    {
      Shaped() && StoreOk(M(), keys, layers, curLocs, unwritten, broken)
    }

    /** The eviction loop's body: one cell of one sequence. */
    method EvictAt(i: int, s: int, lowest: int, inBatch: bool, newRange: Range) returns (r: Range)
      requires 0 <= i < cells.Length
      modifies this`curCellRange, cells
      ensures cells[i] == DropExpired(old(cells[i]), s, lowest - memorySize)
      ensures forall k :: 0 <= k < cells.Length && k != i ==> cells[k] == old(cells[k])
      ensures r == Step(newRange, old(cells[i]), s, lowest - memorySize, i)
      ensures curCellRange == if inBatch then Step(old(curCellRange), old(cells[i]), s, lowest - windowSize, i)
                              else old(curCellRange)
    {
      r := newRange;
      if s in cells[i].sequences {
        if cells[i].pos < lowest - memorySize {
          cells[i] := cells[i].(sequences := Without(cells[i].sequences, {s}));
        } else {
          r := Extend(r, i);
        }
        if inBatch && cells[i].pos >= lowest - windowSize {
          curCellRange := Extend(curCellRange, i);
        }
      }
    }

    /** One round of the eviction loop: s drops what lies beyond its memory, its range becomes
        the hull of what it keeps, and the current range takes in what its window needs. */
    method EvictSequence(s: int, low: map<int, int>, inBatch: bool)
      requires cells.Length <= MAX_INT && s in cellRanges && s in low
      requires InBounds(cellRanges[s], cells.Length) && CoversSeq(cells[..], cellRanges[s], s)
      requires InBounds(curCellRange, cells.Length)
      modifies this`cellRanges, this`curCellRange, cells
      ensures EvictionState() == Visit(old(EvictionState()), low, inBatch, s, memorySize, windowSize)
    {
      hide Join, Step, Hull, EvictCells, DropExpired;
      ghost var before, current := cells[..], curCellRange;
      ghost var after := EvictCells(before, low, {s}, memorySize);
      EvictStores(before, low, {s}, memorySize, s);
      JoinNew(curCellRange, cells.Length);
      assert Hull(before, s, low[s] - memorySize, 0) == NEW_RANGE == Hull(before, s, low[s] - windowSize, 0) by {
        HullNone(before, s, low[s] - memorySize);
        HullNone(before, s, low[s] - windowSize);
      }
      var oldRange, newRange := cellRanges[s], NEW_RANGE;
      var i := oldRange.min;
      ghost var seen := if i <= oldRange.max then i else 0;
      EvictElsewhere(before, low, s, memorySize);
      HullSkips(before, s, low[s] - memorySize, 0, seen);
      HullSkips(before, s, low[s] - windowSize, 0, seen);
      while i <= oldRange.max
        invariant oldRange.min <= i && 0 <= seen <= cells.Length
        invariant if oldRange.min <= oldRange.max then seen == i <= oldRange.max + 1 else seen == 0
        invariant forall k :: 0 <= k < cells.Length ==> cells[k] == if k < seen then after[k] else before[k]
        invariant newRange == Hull(before, s, low[s] - memorySize, seen)
        invariant curCellRange == if inBatch then Join(current, Hull(before, s, low[s] - windowSize, seen)) else current
        invariant cellRanges == old(cellRanges)
      {
        EvictOne(before, low, s, memorySize, i);
        HullStep(before, s, low[s] - memorySize, i);
        HullStep(before, s, low[s] - windowSize, i);
        JoinStep(current, Hull(before, s, low[s] - windowSize, i), before[i], s, low[s] - windowSize, i);
        newRange := EvictAt(i, s, low[s], inBatch, newRange);
        i, seen := i + 1, i + 1;
      }
      cellRanges := cellRanges[s := newRange];
      HullSkips(before, s, low[s] - memorySize, seen, cells.Length);
      HullSkips(before, s, low[s] - windowSize, seen, cells.Length);
      assert cells[..] == after;
    }

    method LastPosition(s: int) returns (last: int)
      requires s in cellRanges && InBounds(cellRanges[s], cells.Length) && CoversSeq(cells[..], cellRanges[s], s)
      ensures last == Last(cells[..], s, cells.Length)
    {
      hide Last;
      last := 0;
      var i, r := cellRanges[s].min, cellRanges[s];
      ghost var seen := if i <= r.max then i else 0;
      assert Last(cells[..], s, 0) == 0 by { LastNone(cells[..], s); }
      LastSkips(cells[..], s, 0, seen);
      while i <= r.max
        invariant r.min <= i && 0 <= seen <= cells.Length
        invariant if r.min <= r.max then seen == i <= r.max + 1 else seen == 0
        invariant last == Last(cells[..], s, seen)
      {
        LastStep(cells[..], s, i);
        if s in cells[i].sequences {
          last := Max(last, cells[i].pos);
        }
        i, seen := i + 1, i + 1;
      }
      LastSkips(cells[..], s, seen, cells.Length);
    }

    /** The sequences outside the batch join the map, in whatever order they are met. */
    method AddIdle(low: map<int, int>) returns (all: map<int, int>)
      requires ShapedBatch(curBatch) && low == Lowest(curBatch, |curBatch.positions|)
      requires RangesOk(cells[..], cellRanges)
      ensures all == Thresholds(cells[..], cellRanges.Keys, curBatch)
      ensures all.Keys == low.Keys + cellRanges.Keys
    {
      hide Last, Lowest, ShapedBatch, Adding, Thresholds;
      all := low;
      var todo := cellRanges.Keys;
      AddingNone(low, cells[..], cellRanges.Keys);
      while todo != {}
        invariant todo <= cellRanges.Keys && Adding(all, low, cells[..], cellRanges.Keys, todo)
        decreases |todo|
      {
        var s := Choose(todo);
        AddingStep(all, low, cells[..], cellRanges.Keys, todo, s);
        if s !in low {
          var last := LastPosition(s);
          all := all[s := last + 1];
        }
        todo := todo - {s};
      }
      AddingDone(all, low, cells[..], cellRanges.Keys, curBatch);
    }

    /** One round of the eviction loop within the whole of it. */
    method VisitSequence(s: int, low: map<int, int>, batchLow: map<int, int>, ghost start: Scan, ghost done: set<int>)
      requires start.ranges.Keys <= low.Keys && batchLow.Keys <= low.Keys
      requires RangesOk(start.cells, start.ranges) && |start.cells| == cells.Length <= MAX_INT
      requires Visited(start, low, batchLow.Keys, done, memorySize, windowSize, EvictionState())
      requires s in start.ranges && s !in done && s in cellRanges
      modifies this`cellRanges, this`curCellRange, cells
      ensures Visited(start, low, batchLow.Keys, done + {s}, memorySize, windowSize, EvictionState())
      ensures cellRanges.Keys == start.ranges.Keys
    {
      hide Visit, Visited, InBounds, RangesOk, CoversSeq;
      VisitNext(start, low, batchLow.Keys, done, memorySize, windowSize, EvictionState(), s);
      EvictSequence(s, low, s in batchLow);
    }

    /** The finite-memory half of updateSlidingWindow. */
    method EvictAll()
      requires cells.Length <= MAX_INT && RangesOk(cells[..], cellRanges)
      requires ShapedBatch(curBatch) && curCellRange == NEW_RANGE
      modifies this`cellRanges, this`curCellRange, cells
      ensures Visited(old(EvictionState()), Thresholds(old(cells[..]), old(cellRanges.Keys), curBatch),
                      Lowest(curBatch, |curBatch.positions|).Keys, old(cellRanges.Keys), memorySize, windowSize, EvictionState())
    {
      hide Visited, Thresholds, Lowest, RangesOk, ShapedBatch;
      var batchLow := LowestPositions(curBatch);
      var low := AddIdle(batchLow);
      ghost var start, known := EvictionState(), cellRanges.Keys;
      var todo := low.Keys;
      VisitFirst(start, low, batchLow.Keys, memorySize, windowSize);
      assert known - todo == {};
      while todo != {}
        invariant todo <= low.Keys && cellRanges.Keys == known
        invariant Visited(start, low, batchLow.Keys, known - todo, memorySize, windowSize, EvictionState())
        decreases |todo|
      {
        var s := Choose(todo);
        VisitedStep(known, todo, s);
        if s in cellRanges {
          VisitSequence(s, low, batchLow, start, known - todo);
        }
        todo := todo - {s};
      }
      assert known - todo == known;
    }

    ghost function EvictionState(): Scan
      reads this, cells
    {
      Scan(cells[..], cellRanges, curCellRange)
    }

    /** The unlimited-memory half: the hull of the ranges of the batch's sequences. */
    method SpanBatch()
      requires RangesOk(cells[..], cellRanges) && ShapedBatch(curBatch) && curCellRange == NEW_RANGE
      modifies this`curCellRange
      ensures InBounds(curCellRange, cells.Length)
      ensures forall s, i :: InBatch(curBatch, |curBatch.positions|, s) && Stores(cells[..], i, s) ==>
                curCellRange.min <= i <= curCellRange.max
    {
      for k := 0 to |curBatch.sequences|
        invariant InBounds(curCellRange, cells.Length)
        invariant forall s, i :: InBatch(curBatch, k, s) && Stores(cells[..], i, s) ==>
                    curCellRange.min <= i <= curCellRange.max
      {
        var s := curBatch.sequences[k];
        assert forall t :: InBatch(curBatch, k + 1, t) ==> t == s || InBatch(curBatch, k, t);
        if s in cellRanges {
          RangeAt(cells[..], cellRanges, s);
          curCellRange := Join(curCellRange, cellRanges[s]);
        }
      }
    }

    /** updateSlidingWindow: afterwards the cells are the evicted ones, the ranges cover them,
        and the current range covers what the batch's windows reach. */
    method UpdateSlidingWindow()
      requires Shaped() && Continues(hist, curBatch)
      modifies this`cellRanges, this`curCellRange, cells
      ensures M() == Evicted(Cfg(), old(M()), curBatch)
      ensures Shaped()
      ensures InBounds(curCellRange, cells.Length)
      ensures BatchCovered(curCellRange, cells[..], curBatch, windowSize)
      ensures memorySize != MAX_INT32 ==>
                Visited(old(Scan(cells[..], cellRanges, NEW_RANGE)), Thresholds(old(cells[..]), old(cellRanges.Keys), curBatch),
                        Lowest(curBatch, |curBatch.positions|).Keys, old(cellRanges.Keys), memorySize, windowSize, EvictionState())
    {
      hide Visited, Evicted, CellsOk, RangesOk, EvictCells;
      curCellRange := NEW_RANGE;
      if memorySize == MAX_INT32 {
        SpanBatch();
        assert M() == Evicted(Cfg(), old(M()), curBatch) by { EvictedUnlimited(Cfg(), M(), curBatch); }
        SpanCovers(curCellRange, M(), curBatch, windowSize);
        return;
      }
      ghost var start := EvictionState();
      EvictAll();
      VisitedAll(start, Thresholds(start.cells, start.ranges.Keys, curBatch), Lowest(curBatch, |curBatch.positions|).Keys,
                 memorySize, windowSize, EvictionState());
      VisitedCovers(start, start.ranges.Keys, curBatch, memorySize, windowSize, EvictionState());
      assert M() == Evicted(Cfg(), old(M()), curBatch) by { EvictedLimited(Cfg(), old(M()), curBatch, start, EvictionState()); }
    }

    method FindFree() returns (locs: Option<seq<int>>)
      requires ShapedBatch(curBatch)
      ensures locs == FindLocs(cells[..], |curBatch.positions|)
    {
      var loc := [];
      for i := 0 to cells.Length
        invariant loc == FreeLocs(cells[..], i) && |loc| < |curBatch.positions|
      {
        if cells[i].sequences == [] {
          loc := loc + [i];
          if |loc| >= |curBatch.positions| {
            FreeLocsPrefix(cells[..], i + 1, cells.Length);
            assert loc == FreeLocs(cells[..], cells.Length)[..|loc|];
            return Some(loc);
          }
        }
      }
      return None;
    }

    /** The body of StartForward's loop: one batch entry in one cell, with the ranges following. */
    method StoreOne(loc: int, p: int, s: int, t: Token)
      requires Shaped() && 0 <= loc < cells.Length && cells[loc].sequences == [] && 0 <= p < MAX_INT32
      modifies this`cellRanges, this`curCellRange, this`content, this`hist, cells
      ensures M() == WriteOne(old(M()), loc, p, s, t)
      ensures Shaped()
      ensures curCellRange == Extend(old(curCellRange), loc)
    {
      hide RangesOk, CellsOk;
      PlaceRange(cells[..], cellRanges, loc, p, s);
      cells[loc] := Cell(p, [s]);
      var seqRange := if s in cellRanges then cellRanges[s] else NEW_RANGE;
      curCellRange := Extend(curCellRange, loc);
      cellRanges := cellRanges[s := Extend(seqRange, loc)];
      content := content[loc := t];
      hist := SetHist(hist, s, Hist(hist, s) + [t]);
    }

    lemma ShapedSizes()
      requires Shaped()
      ensures |M().cells| == |M().content| == cells.Length
    {
    }

    method StoreBatch(locs: seq<int>)
      requires Shaped() && ShapedBatch(curBatch) && |locs| == |curBatch.positions|
      requires FreshLocs(cells[..], locs) && InBounds(curCellRange, cells.Length)
      requires Int32Positions(curBatch)
      modifies this`cellRanges, this`curCellRange, this`content, this`hist, cells
      ensures M() == Placed(old(M()), curBatch, locs, |locs|)
      ensures Shaped()
      ensures 0 <= curCellRange.min <= curCellRange.max < cells.Length
      ensures curCellRange.min <= old(curCellRange).min && old(curCellRange).max <= curCellRange.max
      ensures forall j :: 0 <= j < |locs| ==> curCellRange.min <= locs[j] <= curCellRange.max
    {
      hide Shaped, WriteOne;
      ghost var start, first, size := M(), curCellRange, cells.Length;
      assert |start.cells| == |start.content| by { ShapedSizes(); }
      for k := 0 to |locs|
        invariant M() == Placed(start, curBatch, locs, k)
        invariant Shaped()
        invariant InBounds(curCellRange, size) && (k > 0 ==> 0 <= curCellRange.min <= curCellRange.max < size)
        invariant curCellRange.min <= first.min && first.max <= curCellRange.max
        invariant forall j :: 0 <= j < k ==> curCellRange.min <= locs[j] <= curCellRange.max
      {
        PlacedElsewhere(start, curBatch, locs, k, locs[k]);
        StoreOne(locs[k], curBatch.positions[k], curBatch.sequences[k], curBatch.tokens[k]);
      }
    }

    /** Whether the mask hides cell j from batch token k. */
    method MaskEntry(k: int, j: int, enabled: bool) returns (masked: bool)
      requires ShapedBatch(curBatch) && 0 <= k < |curBatch.positions| && 0 <= j < cells.Length
      requires enabled == (k !in except)
      ensures masked == Masked(Cfg(), cells[..], curBatch, except, k, j)
    {
      masked :=
        || curBatch.sequences[k] !in cells[j].sequences
        || (enabled && cells[j].pos > curBatch.positions[k])
        || (chunkSize > 0 && cells[j].pos < curBatch.positions[k] - curBatch.positions[k] % chunkSize)
        || cells[j].pos < curBatch.positions[k] - windowSize;
    }

    /** One row of the mask, the entries from start on. */
    method MaskRow(mask: array<bool>, k: int, r: Range, ghost start: int)
      requires ShapedBatch(curBatch) && 0 <= k < |curBatch.positions| && 0 <= r.min <= r.max < cells.Length
      requires 0 <= start == k * (r.max - r.min + 1) && start + (r.max - r.min + 1) <= mask.Length
      requires forall i :: start <= i < mask.Length ==> !mask[i]
      modifies mask
      ensures forall i :: 0 <= i < start ==> mask[i] == old(mask[i])
      ensures forall i :: start <= i <= start + r.max - r.min ==>
                mask[i] == Masked(Cfg(), cells[..], curBatch, except, k, r.min + (i - start))
      ensures forall i :: start + (r.max - r.min + 1) <= i < mask.Length ==> !mask[i]
    {
      hide Masked;
      var enabled := k !in except;
      var j := r.min;
      while j <= r.max
        invariant r.min <= j <= r.max + 1
        invariant forall i :: 0 <= i < start ==> mask[i] == old(mask[i])
        invariant forall i :: start <= i < start + (j - r.min) ==>
                    mask[i] == Masked(Cfg(), cells[..], curBatch, except, k, r.min + (i - start))
        invariant forall i :: start + (j - r.min) <= i < mask.Length ==> !mask[i]
      {
        var masked := MaskEntry(k, j, enabled);
        if masked {
          mask[k * (r.max - r.min + 1) + (j - r.min)] := true;
        }
        j := j + 1;
      }
    }

    method FillMask(r: Range) returns (mask: array<bool>)
      requires ShapedBatch(curBatch) && 0 <= r.min <= r.max < cells.Length
      ensures fresh(mask)
      ensures MaskIs(mask[..], Cfg(), cells[..], curBatch, except, r, |curBatch.positions|)
    {
      hide MaskAt, Masked;
      var n := |curBatch.positions|;
      ghost var length := r.max - r.min + 1;
      MulSign(n, length);
      mask := new bool[n * (r.max - r.min + 1)](_ => false);
      for k := 0 to n
        invariant MaskIs(mask[..], Cfg(), cells[..], curBatch, except, r, k)
        invariant forall i :: k * length <= i < mask.Length ==> !mask[i]
      {
        ghost var before := mask[..];
        IdxBound(k, n, length, 0);
        MaskRow(mask, k, r, k * length);
        KeepRows(before, mask[..], Cfg(), cells[..], curBatch, except, r, k, k * length);
      }
    }

    method BuildMask()
      requires Shaped() && ShapedBatch(curBatch)
      requires 0 <= curCellRange.min <= curCellRange.max < cells.Length
      modifies this`curCellRange, this`curMask
      ensures curCellRange == PadRange(old(curCellRange), padding)
      ensures 0 <= curCellRange.min <= old(curCellRange).min && old(curCellRange).max <= curCellRange.max < cells.Length
      ensures PadRange(curCellRange, padding) == curCellRange
      ensures MaskIs(curMask, Cfg(), cells[..], curBatch, except, curCellRange, |curBatch.positions|)
    {
      hide RangesOk, CellsOk;
      PadRangeWithin(curCellRange, padding, cells.Length / padding);
      curCellRange := Range(RoundDown(curCellRange.min, padding), RoundUp(curCellRange.max + 1, padding) - 1);
      var mask := FillMask(curCellRange);
      curMask := mask[..];
    }

    /** A pass is under way: the mask is built over a padded range inside the cells that
        misses nothing the windows of the batch reach. */
    ghost predicate PassOpen()
      reads this, cells
    {
      && ShapedBatch(curBatch) && |curLocs| == |curBatch.positions|
      && 0 < padding && 0 <= curCellRange.min <= curCellRange.max < cells.Length
      && PadRange(curCellRange, padding) == curCellRange
      && MaskIs(curMask, Cfg(), cells[..], curBatch, except, curCellRange, |curBatch.positions|)
      && (forall k :: 0 <= k < |curBatch.positions| ==>
            Covers(Cfg(), cells[..], curCellRange, curBatch.sequences[k], curBatch.positions[k]))
    }

    /** The part of StartForward after the free cells are found: store the batch, build the mask. */
    method OpenPass(locs: seq<int>)
      requires Shaped() && Continues(hist, curBatch) && Int32Positions(curBatch)
      requires |locs| == |curBatch.positions| && FreshLocs(cells[..], locs) && InBounds(curCellRange, cells.Length)
      requires BatchCovered(curCellRange, cells[..], curBatch, windowSize)
      modifies this`curLocs, this`curCellRange, this`curMask, this`cellRanges, this`content, this`hist, this`unwritten, cells
      ensures Shaped() && M() == Placed(old(M()), curBatch, locs, |locs|)
      ensures curLocs == locs && unwritten == layers && PassOpen()
      ensures StoredAt(M(), curBatch, locs)
    {
      hide RangesOk, CellsOk, BatchCovered, Covers, MaskIs, StoredAt, ContinuesAt, Int32Positions, FreshLocs;
      ghost var e, covered := M(), curCellRange;
      StoreBatch(locs);
      curLocs, unwritten := locs, layers;
      BuildMask();
      PassStarted(Cfg(), e, curBatch, locs, covered, curCellRange);
    }

    /** The part of StartForward before the free cells are looked for. */
    method EvictFor(batch: Batch)
      requires Valid() && Continues(hist, batch) && Settled(cells[..], curLocs, unwritten)
      modifies this`curBatch, this`except, this`curCellRange, this`cellRanges, cells
      ensures Valid() && M() == Evicted(Cfg(), old(M()), batch) && Settled(cells[..], curLocs, unwritten)
      ensures curBatch == batch && except == []
      ensures InBounds(curCellRange, cells.Length) && BatchCovered(curCellRange, cells[..], batch, windowSize)
    {
      hide ShapeOk, StoreOk, Evicted, BatchCovered, Settled, ContinuesAt;
      ghost var before := M();
      curBatch := batch;
      except := [];
      UpdateSlidingWindow();
      CarryEvicted(Cfg(), before, batch, keys, layers, curLocs, unwritten, broken);
    }

    /** StartForward succeeds exactly when the model's step does, and then leaves the model's
        state behind; when the cache is full, only what had expired is gone. Every token of a
        sequence that could resume at its next position has its window stored, as Get asks. */
    method StartForward(batch: Batch) returns (status: Status)
      requires Valid() && Continues(hist, batch) && Int32Positions(batch) && Settled(cells[..], curLocs, unwritten)
      modifies this`curBatch, this`except, this`curLocs, this`curCellRange, this`curMask,
               this`cellRanges, this`content, this`hist, this`unwritten, cells
      ensures Valid()
      ensures ForwardOutcome(Cfg(), old(M()), batch, status.Ok?, M())
      ensures status == Ok || (status == Err(CacheFull) && Settled(cells[..], curLocs, unwritten))
      ensures status.Ok? ==> curBatch == batch && except == [] && unwritten == layers && PassOpen()
                             && StoredAt(M(), batch, curLocs)
      ensures status.Ok? ==>
                forall k :: 0 <= k < |batch.positions| && MayGoOn(Cfg(), old(M()), broken, batch.sequences[k]) ==> WindowHere(k)
      ensures status.Ok? && memorySize != MAX_INT32 ==>
                forall s, q :: s !in broken && Holds(cells[..], s, q) ==> |Hist(old(hist), s)| - memorySize <= q
    {
      hide ShapeOk, StoreOk, Evicted, FindLocs, BatchCovered, PassOpen, StoredAt, Settled, FreshLocs, Int32Positions, ContinuesAt,
           ForwardStep, WindowStored, Holds;
      ghost var before := M();
      ShapedSizes();
      StepFull(Cfg(), before, batch);
      WindowsHere(Cfg(), before, batch, padding, maxBatch, cellRanges, keys, layers, curLocs, unwritten, broken);
      MemoryOnly(Cfg(), before, batch, padding, maxBatch, cellRanges, keys, layers, curLocs, unwritten, broken);
      EvictFor(batch);
      var locs := FindFree();
      if locs.None? {
        return Err(CacheFull);
      }
      CarryForward(Cfg(), before, batch, keys, layers, curLocs, unwritten, broken, locs.value);
      OpenPass(locs.value);
      return Ok;
    }

    /** Put, the key half: the layer's rows for the batch are set at the batch's locations. */
    method Put(key: seq<Row>)
      requires Valid() && StoredAt(M(), curBatch, curLocs) && key == BatchKeys(curBatch)
      modifies this`keys, this`unwritten
      ensures Valid()
      ensures unwritten == old(unwritten) - {curLayer} && curLayer in keys
      ensures keys == old(keys)[curLayer := keys[curLayer]]
    {
      hide ShapeOk, StoreOk, BatchKeys;
      if curLayer !in keys {
        keys := keys[curLayer := seq(cells.Length, _ => Zero)];
        assert StoreOk(M(), keys, layers, curLocs, unwritten, broken) by {
          AddLayer(M(), old(keys), layers, curLocs, unwritten, broken, curLayer, keys[curLayer]);
        }
      }
      var rows := keys[curLayer];
      LayerSize(M(), keys, layers, curLocs, unwritten, broken, curLayer);
      ghost var before := rows;
      for k := 0 to |curLocs|
        invariant rows == SetRows(before, curLocs, key, k)
      {
        rows := rows[curLocs[k] := key[k]];
      }
      PutKeeps(M(), curBatch, keys, layers, curLocs, unwritten, broken, curLayer, before);
      keys := keys[curLayer := rows];
      unwritten := unwritten - {curLayer};
    }

    /** Batch token k belongs to a sound sequence that has its window stored. */
    ghost predicate WindowHere(k: int)
      reads this, cells
      requires ShapedBatch(curBatch) && 0 <= k < |curBatch.positions|
    {
      && curBatch.sequences[k] !in broken
      && WindowStored(Cfg(), M(), curBatch.sequences[k], curBatch.positions[k])
    }

    /** Get: the view of the active layer over the current range, and the mask. A batch token
        whose window is stored attends to exactly what it would see in its full history. */
    method Get() returns (key: seq<Row>, mask: seq<bool>)
      requires Valid() && PassOpen() && curLayer in layers - unwritten && curLayer in keys
      ensures forall k :: 0 <= k < |curBatch.positions| && WindowHere(k) ==>
                Attends(Cfg(), key, mask, Hist(hist, curBatch.sequences[k]), curBatch, except, k)
    {
      hide WindowStored, Attends, SeqOk, Covers, MaskAt, Masked, ShapeOk, PadRange;
      LayerSize(M(), keys, layers, curLocs, unwritten, broken, curLayer);
      key := keys[curLayer][curCellRange.min..curCellRange.max + 1];
      mask := curMask;
      forall k | 0 <= k < |curBatch.positions| && WindowHere(k)
        ensures Attends(Cfg(), key, mask, Hist(hist, curBatch.sequences[k]), curBatch, except, k)
      {
        assert forall i :: Stores(M().cells, i, curBatch.sequences[k]) ==> RowOk(M(), keys, curLayer, i);
        ViewAttends(Cfg(), M(), keys[curLayer], mask, curCellRange, curBatch, except, k);
      }
    }

    /** SetCausal rebuilds the mask over the same range. */
    method SetCausal(newExcept: seq<int>)
      requires Valid() && PassOpen()
      modifies this`except, this`curMask, this`curCellRange
      ensures Valid() && PassOpen() && except == newExcept && curCellRange == old(curCellRange)
    {
      hide ShapeOk, StoreOk, MaskIs, Covers, PadRange;
      if except != newExcept {
        except := newExcept;
        BuildMask();
      }
    }

    /** CopyPrefix: the model's step, with the copy's range the hull of its cells. */
    method CopyPrefix(src: int, dst: int, len: int)
      requires Valid() && src != dst
      modifies this`cellRanges, this`hist, this`broken, cells
      ensures Valid()
      ensures M() == CopyStep(old(M()), src, dst, len)
      ensures broken == if src in old(broken) then old(broken) + {dst} else old(broken) - {dst}
    {
      hide StoreOk, RangesOk, CellsOk, SetHist, CopyCell, Hull;
      ghost var m, after := M(), CopyCells(cells[..], src, dst, len);
      var seqRange := NEW_RANGE;
      assert seqRange == Hull(after, dst, 0, 0) by { HullNone(after, dst, 0); }
      CopyShape(m.cells, cellRanges, src, dst, len);
      for i := 0 to cells.Length
        invariant forall k :: 0 <= k < cells.Length ==> cells[k] == if k < i then after[k] else m.cells[k]
        invariant seqRange == Hull(after, dst, 0, i)
        invariant hist == m.hist && cellRanges == old(cellRanges) && broken == old(broken)
      {
        HullStep(after, dst, 0, i);
        CopyCellStep(m.cells, src, dst, len, i);
        var copied := CopyCellAt(i, src, dst, len);
        if copied {
          seqRange := Extend(seqRange, i);
        }
      }
      assert cells[..] == after;
      CopyKeeps(m, keys, layers, curLocs, unwritten, broken, src, dst, len);
      cellRanges := cellRanges[dst := seqRange];
      hist := SetHist(hist, dst, Prefix(Hist(hist, src), len));
      broken := if src in broken then broken + {dst} else broken - {dst};
    }

    /** The body of CopyPrefix's loop. */
    method CopyCellAt(i: int, src: int, dst: int, len: int) returns (copied: bool)
      requires 0 <= i < cells.Length && src != dst
      modifies cells
      ensures forall k :: 0 <= k < cells.Length && k != i ==> cells[k] == old(cells[k])
      ensures cells[i] == CopyCell(old(cells[i]), src, dst, len)
      ensures copied == (dst in cells[i].sequences)
    {
      if dst in cells[i].sequences {
        cells[i] := cells[i].(sequences := Without(cells[i].sequences, {dst}));
      }
      copied := src in cells[i].sequences && cells[i].pos < len;
      if copied {
        cells[i] := cells[i].(sequences := cells[i].sequences + [dst]);
      }
    }

    /** CanResume: with finite memory, true exactly when the sequence has stored every position
        from the start of the window at pos to its end, and pos does not lie beyond that end. */
    method CanResume(s: int, pos: int) returns (ok: bool)
      requires Valid() && s !in broken && 0 <= pos
      ensures ok <==> memorySize == MAX_INT32 ||
                      (0 < |Hist(hist, s)| && pos <= |Hist(hist, s)| && WindowStored(Cfg(), M(), s, pos))
    {
      if memorySize == MAX_INT32 {
        return true;
      }
      if s !in cellRanges {
        NothingStored(Cfg(), M(), s, pos, cellRanges);
        return false;
      }
      var first, last := FirstAndLast(s);
      ResumeTest(Cfg(), M(), s, pos, first, last);
      if last == -1 {
        return false;
      }
      var posWindowStart := Max(0, pos - windowSize);
      return posWindowStart >= first && pos <= last + 1;
    }

    /** CanResume's loop: the lowest and highest stored position of s. */
    method FirstAndLast(s: int) returns (first: int, last: int)
      requires Shaped() && s in cellRanges
      ensures Bounds(cells[..], s, cells.Length, first, last)
    {
      RangeAt(cells[..], cellRanges, s);
      hide RangesOk;
      first, last := MAX_INT32, -1;
      var i := cellRanges[s].min;
      while i <= cellRanges[s].max
        invariant cellRanges[s].min <= i && (cellRanges[s] != NEW_RANGE ==> i <= cellRanges[s].max + 1)
        invariant Bounds(cells[..], s, if cellRanges[s] == NEW_RANGE then 0 else i, first, last)
      {
        PosOk(cells[..], i);
        if s in cells[i].sequences {
          assert Stores(cells[..], i, s) && Holds(cells[..], s, cells[i].pos);
          first := Min(first, cells[i].pos);
          last := Max(last, cells[i].pos);
        }
        i := i + 1;
      }
    }

    /** The offsets of one chunk, from its first hit cell to its last: offset for a cell to turn,
        zero for one in between. No offsets when the chunk holds no hit. */
    method ChunkOffsets(s: int, begin: int, offset: int, start: int, size: int) returns (at: int, offsets: seq<int>)
      requires 0 <= start && 0 <= size && start + size <= cells.Length
      ensures offsets != [] ==> start <= at && at + |offsets| <= start + size && Hit(cells[at], s, begin)
      ensures forall i :: 0 <= i < |offsets| ==> offsets[i] == if Hit(cells[at + i], s, begin) then offset else 0
      ensures forall i :: start <= i < start + size && Hit(cells[i], s, begin) ==> at <= i < at + |offsets|
    {
      var all := [];
      var batchFirst, batchLast := -1, 0;
      for i := 0 to size
        invariant |all| == i
        invariant forall k :: 0 <= k < i ==> all[k] == if Hit(cells[start + k], s, begin) then offset else 0
        invariant -1 <= batchFirst && (batchFirst >= 0 ==> batchFirst <= batchLast < i && Hit(cells[start + batchFirst], s, begin))
        invariant forall k :: start <= k < start + i && Hit(cells[k], s, begin) ==> 0 <= batchFirst <= k - start <= batchLast
      {
        var cell := cells[start + i];
        var hit := s in cell.sequences && cell.pos >= begin;
        all := all + [if hit then offset else 0];
        if hit {
          if batchFirst < 0 {
            batchFirst := i;
          }
          batchLast := i;
        }
      }
      if batchFirst < 0 {
        return start, [];
      }
      return start + batchFirst, all[batchFirst..batchLast + 1];
    }

    /** One chunk of shift, over all layers in any order. The backend may refuse at any layer; its
        graph is computed only when every layer went through. */
    method ShiftChunk(at: int, offsets: seq<int>) returns (ok: bool)
      modifies this`keys
      ensures ok <==> forall l :: l in old(keys) ==> (l, at) !in refuses
      ensures ok ==> keys == map l | l in old(keys) :: ApplyOffsets(old(keys)[l], at, offsets)
      ensures !ok ==> keys == old(keys)
    {
      var turned: map<int, seq<Row>> := map[];
      var todo := keys.Keys;
      while todo != {}
        invariant todo <= keys.Keys && keys == old(keys)
        invariant turned == map l | l in keys && l !in todo :: ApplyOffsets(keys[l], at, offsets)
        invariant forall l :: l in keys && l !in todo ==> (l, at) !in refuses
        decreases |todo|
      {
        var l := Choose(todo);
        if (l, at) in refuses {
          return false;
        }
        turned := turned[l := ApplyOffsets(keys[l], at, offsets)];
        todo := todo - {l};
      }
      keys := turned;
      return true;
    }

    /** shift: every key row of s at or behind begin is turned by offset exactly once, chunk by
        chunk; a refusal leaves some of them, but no other row, turned. It is not supported just when
        the cache has no shift function, and fails just when the backend refuses a view it is shown. */
    method Shift(s: int, begin: int, offset: int) returns (status: Status)
      requires Shaped() && s in cellRanges && Sized(keys, cells.Length)
      modifies this`keys
      ensures status == Err(NotSupported) <==> !canShift
      ensures status == Err(ShiftFailed) <==>
              canShift && Refused(cells[..], cellRanges[s], maxBatch, keys.Keys, refuses, s, begin)
      ensures status == Ok || status == Err(NotSupported) || status == Err(ShiftFailed)
      ensures status.Ok? ==> keys == PartKeys(old(keys), cells[..], s, begin, offset, cells.Length)
      ensures status.Err? ==> OnlyHits(old(keys), keys, cells[..], s, begin) && keys.Keys == old(keys).Keys
    {
      hide PartKeys, RangesOk, CellsOk, OnlyHits, ApplyOffsets, Leads, Sized, CoversSeq, Hit;
      ghost var rows := keys;
      PartKeysNone(keys, cells[..], s, begin, offset);
      PartOnlyHits(keys, cells[..], s, begin, offset, 0);
      if !canShift {
        return Err(NotSupported);
      }
      RangeAt(cells[..], cellRanges, s);
      var seqRange := cellRanges[s];
      ghost var upto, chunks := if seqRange == NEW_RANGE then 0 else seqRange.min, 0;
      HitsInRange(cells[..], seqRange, s, begin);
      LeadsInRange(cells[..], seqRange, maxBatch, s, begin);
      PartKeysSkip(rows, cells[..], s, begin, offset, 0, upto);
      var start := seqRange.min;
      while start <= seqRange.max
        invariant seqRange != NEW_RANGE ==> upto == start && start == seqRange.min + chunks * maxBatch
        invariant 0 <= upto && (seqRange == NEW_RANGE ==> upto == 0) && seqRange.min <= start
        invariant keys == PartKeys(rows, cells[..], s, begin, offset, upto) && keys.Keys == rows.Keys
        invariant forall l, at :: l in keys && Leads(cells[..], seqRange, maxBatch, s, begin, at) && at < start ==> (l, at) !in refuses
        decreases seqRange.max - start
      {
        var size := Min(seqRange.max - start + 1, maxBatch);
        var ok := ShiftNext(s, begin, offset, seqRange, chunks, start, size, rows);
        if !ok {
          return Err(ShiftFailed);
        }
        PartKeysSkip(rows, cells[..], s, begin, offset, start + size, start + maxBatch);
        start, upto, chunks := start + maxBatch, start + maxBatch, chunks + 1;
      }
      if upto <= cells.Length {
        PartKeysSkip(rows, cells[..], s, begin, offset, upto, cells.Length);
      } else {
        PartKeysSkip(rows, cells[..], s, begin, offset, cells.Length, upto);
      }
      return Ok;
    }

    /** The loop's body: the next chunk is turned, unless it holds no hit. */
    method ShiftNext(s: int, begin: int, offset: int, r: Range, ghost chunks: nat, start: int, size: int, ghost rows: map<int, seq<Row>>)
      returns (ok: bool)
      requires Sized(rows, cells.Length) && 0 < maxBatch && 0 <= r.min && r.max < cells.Length
      requires r.min <= start <= r.max && start == r.min + chunks * maxBatch && size == Min(r.max - start + 1, maxBatch)
      requires forall i :: 0 <= i < cells.Length && Hit(cells[i], s, begin) ==> i <= r.max
      requires keys == PartKeys(rows, cells[..], s, begin, offset, start) && keys.Keys == rows.Keys
      modifies this`keys
      ensures keys.Keys == rows.Keys
      ensures ok ==> keys == PartKeys(rows, cells[..], s, begin, offset, start + size)
      ensures ok ==> forall l, at :: l in keys && Leads(cells[..], r, maxBatch, s, begin, at) && start <= at < start + maxBatch ==>
                (l, at) !in refuses
      ensures !ok ==> OnlyHits(rows, keys, cells[..], s, begin) && Refused(cells[..], r, maxBatch, keys.Keys, refuses, s, begin)
    {
      hide PartKeys, OnlyHits, ApplyOffsets, Leads;
      var at, offsets := ChunkOffsets(s, begin, offset, start, size);
      PartOnlyHits(rows, cells[..], s, begin, offset, start);
      ChunkLeads(cells[..], r, maxBatch, s, begin, chunks, start);
      forall l | Leads(cells[..], r, maxBatch, s, begin, l) && start <= l < start + maxBatch ensures offsets != [] && l == at {
        LeadsHit(cells[..], r, maxBatch, s, begin, l);
        assert start <= l < start + size && at <= l < at + |offsets|;
        assert Hit(cells[..][at], s, begin);
      }
      if offsets != [] {
        PartKeysChunk(rows, cells[..], s, begin, offset, start, size, at, offsets);
        ok := ShiftChunk(at, offsets);
        assert keys.Keys == rows.Keys;
      } else {
        PartKeysSkip(rows, cells[..], s, begin, offset, start, start + size);
        ok := true;
      }
    }

    /** Remove's loop: the cells are worked through in order; the first one that would have to
        move and is shared stops it. */
    method RemoveLoop(s: int, begin: int, end: int) returns (done: nat, seqRange: Range)
      requires 0 <= begin <= end && CellsOk(cells[..]) && cells.Length <= MAX_INT
      modifies cells
      ensures done <= cells.Length
      ensures cells[..] == RemoveCells(old(cells[..]), done, s, begin, end)
      ensures !Blocked(old(cells[..]), done, s, begin, end)
      ensures done < cells.Length ==> Blocked(old(cells[..]), cells.Length, s, begin, end)
      ensures done < cells.Length ==> Blocked(old(cells[..]), done + 1, s, begin, end)
      ensures done == cells.Length ==> seqRange == Hull(cells[..], s, 0, cells.Length)
    {
      hide CellsOk, Hull, RemoveCell;
      var offset := if end != MAX_INT32 then begin - end else 0;
      ghost var before, after := cells[..], RemoveCells(cells[..], cells.Length, s, begin, end);
      seqRange, done := NEW_RANGE, 0;
      HullNone(after, s, 0);
      while done < cells.Length
        invariant 0 <= done <= cells.Length
        invariant forall k :: 0 <= k < cells.Length ==> cells[k] == if k < done then after[k] else before[k]
        invariant !Blocked(before, done, s, begin, end)
        invariant seqRange == Hull(after, s, 0, done)
      {
        PosOk(before, done);
        HullStep(after, s, 0, done);
        var status, kept := RemoveAt(done, s, begin, end, offset);
        assert cells[done] == if status.Ok? then after[done] else before[done];
        if status.Err? {
          return done, seqRange;
        }
        if kept {
          seqRange := Extend(seqRange, done);
        }
        done := done + 1;
      }
    }

    /** The body of Remove's loop. */
    method RemoveAt(i: int, s: int, begin: int, end: int, offset: int) returns (status: Status, kept: bool)
      requires 0 <= i < cells.Length && offset == Offset(begin, end)
      modifies cells
      ensures forall k :: 0 <= k < cells.Length && k != i ==> cells[k] == old(cells[k])
      ensures status.Err? <==> Moves(old(cells[i]), s, begin, end) && SharedWithOthers(old(cells[i]), s)
      ensures cells[i] == if status.Ok? then RemoveCell(old(cells[i]), s, begin, end) else old(cells[i])
      ensures status.Ok? ==> kept == (s in cells[i].sequences)
      ensures old(cells[i]).pos >= 0 && 0 <= begin <= end ==> cells[i].pos >= 0
    {
      status, kept := Ok, false;
      if s in cells[i].sequences {
        if cells[i].pos >= begin && cells[i].pos < end {
          cells[i] := cells[i].(sequences := Without(cells[i].sequences, {s}));
        } else {
          if cells[i].pos >= end {
            var shared := exists t :: t in cells[i].sequences && t != s;
            if shared {
              return Err(SharedCells), false;
            }
            cells[i] := cells[i].(pos := cells[i].pos + offset);
          }
          kept := true;
        }
      }
    }

    /** What a removal that was not blocked answers: a middle removal that leaves something of s needs a
        shift function, and the backend's consent. */
    ghost predicate Answers(s: int, begin: int, end: int, status: Status)
      reads this`maxBatch, this`keys, this`refuses, this`cells, cells
      requires 0 < maxBatch
    {
      && (status == Err(NotSupported) <==> end != MAX_INT32 && !canShift && exists i :: Stores(cells[..], i, s))
      && (status == Err(ShiftFailed) <==>
            end != MAX_INT32 && canShift
            && Refused(cells[..], Hull(cells[..], s, 0, cells.Length), maxBatch, keys.Keys, refuses, s, begin))
      && (status == Ok || status == Err(NotSupported) || status == Err(ShiftFailed))
    }

    /** The rows of what a removal has moved are turned, if it has moved anything. */
    method TurnMoved(s: int, begin: int, end: int) returns (status: Status)
      requires Shaped() && Sized(keys, cells.Length) && 0 <= begin <= end
      requires s in cellRanges && cellRanges[s] == Hull(cells[..], s, 0, cells.Length) != NEW_RANGE
      modifies this`keys
      ensures Answers(s, begin, end, status)
      ensures status.Ok? ==> keys == PartKeys(old(keys), cells[..], s, begin, Offset(begin, end), cells.Length)
      ensures status.Err? ==> OnlyHits(old(keys), keys, cells[..], s, begin) && keys.Keys == old(keys).Keys
      ensures status.Err? ==> end != MAX_INT32 && status != Err(SharedCells)
    {
      hide RangesOk, CellsOk, Hull, PartKeys, OnlyHits, Refused;
      HullHolds(cells[..], s);
      if end != MAX_INT32 {
        status := Shift(s, end + (begin - end), begin - end);
      } else {
        NothingToTurn(keys, cells[..], s, begin, Offset(begin, end));
        status := Ok;
      }
    }

    lemma NothingMoved(s: int, begin: int, end: int)
      requires 0 < maxBatch && Sized(keys, cells.Length) && CellsOk(cells[..]) && cells.Length <= MAX_INT
      requires Hull(cells[..], s, 0, cells.Length) == NEW_RANGE
      ensures Answers(s, begin, end, Ok)
      ensures PartKeys(keys, cells[..], s, begin, Offset(begin, end), cells.Length) == keys
    {
      hide Hull, PartKeys, Refused;
      HullEmpty(cells[..], s);
      NothingRefused(cells[..], NEW_RANGE, maxBatch, keys.Keys, refuses, s, begin);
      NothingToTurn(keys, cells[..], s, begin, Offset(begin, end));
    }

    /** The rest of Remove once every cell was worked through: the range, and the rows. */
    method FinishRemove(s: int, begin: int, end: int, seqRange: Range, ghost m: Model)
      returns (status: Status)
      requires ShapeOk(Cfg(), padding, maxBatch, m, cellRanges) && 0 <= begin <= end
      requires StoreOk(m, keys, layers, curLocs, unwritten, broken) && !Blocked(m.cells, |m.cells|, s, begin, end)
      requires cells[..] == RemoveStep(m, s, begin, end).cells && content == m.content && hist == m.hist
      requires seqRange == Hull(cells[..], s, 0, cells.Length)
      modifies this`cellRanges, this`hist, this`broken, this`keys
      ensures Valid() && M() == RemoveStep(m, s, begin, end) && Answers(s, begin, end, status)
      ensures cellRanges == RemainingRanges(old(cellRanges), s, Hull(cells[..], s, 0, cells.Length))
      ensures status.Ok? ==> broken == if begin == 0 && end == MAX_INT32 then old(broken) - {s} else old(broken)
      ensures status.Err? ==> broken == old(broken) + {s} && end != MAX_INT32 && status != Err(SharedCells)
    {
      hide StoreOk, RangesOk, CellsOk, Hull, Blocked, PartKeys, OnlyHits, Refused, SetHist, Cut, HistOk, RemoveCell, Answers;
      StoreSizes(m, keys, layers, curLocs, unwritten, broken);
      RemoveShape(m.cells, cellRanges, cells.Length, s, begin, end);
      RemoveShapeDone(cells[..], cellRanges, s);
      RemoveKeeps(m, keys, layers, curLocs, unwritten, broken, s, begin, end);
      RemoveStepIs(m, s, begin, end);
      hide RemoveStep;
      hist := SetHist(hist, s, Cut(Hist(hist, s), begin, end));
      ghost var repaired := if begin == 0 && end == MAX_INT32 then broken - {s} else broken;
      if seqRange == NEW_RANGE {
        NothingMoved(s, begin, end);
        cellRanges := cellRanges - {s};
        broken := repaired;
        return Ok;
      }
      cellRanges := cellRanges[s := seqRange];
      ghost var rows := keys;
      status := TurnMoved(s, begin, end);
      if status.Err? {
        RemoveKeepsOthers(m, rows, keys, layers, curLocs, unwritten, broken, s, begin, end);
        broken := broken + {s};
        return;
      }
      broken := repaired;
    }

    /** Remove. It goes through as the model's step, rows included, or it fails having damaged
        s alone; with end at the sentinel it always goes through, and emptying a damaged
        sequence repairs the cache. It fails just when a shared cell would have to move, or keys
        would have to be turned that the cache or the backend cannot turn. */
    method Remove(s: int, begin: int, end: int) returns (status: Status)
      requires Valid() && 0 <= begin <= end
      modifies this`cellRanges, this`hist, this`broken, this`keys, cells
      ensures Valid()
      ensures status == Err(SharedCells) <==> Blocked(old(cells[..]), cells.Length, s, begin, end)
      ensures 0 < maxBatch && (!Blocked(old(cells[..]), cells.Length, s, begin, end) ==> Answers(s, begin, end, status))
      ensures cellRanges == if status == Err(SharedCells) then old(cellRanges)
                            else RemainingRanges(old(cellRanges), s, Hull(cells[..], s, 0, cells.Length))
      ensures RemoveOutcome(old(M()), s, begin, end, status.Ok?, M())
      ensures status.Ok? ==> M() == RemoveStep(old(M()), s, begin, end)
      ensures status.Ok? ==> broken == if begin == 0 && end == MAX_INT32 then old(broken) - {s} else old(broken)
      ensures status.Err? ==> broken == old(broken) + {s} && end != MAX_INT32
      ensures forall t :: t != s ==> SameView(old(M()), M(), t)
    {
      hide StoreOk, RangesOk, CellsOk, Hull, Blocked, SetHist, Cut, SameView, HistOk, RemoveCells, Answers;
      ghost var m := M();
      RemoveFacts(m, s, begin, end);
      var done, seqRange := RemoveLoop(s, begin, end);
      if done < cells.Length {
        RemoveShape(m.cells, cellRanges, done, s, begin, end);
        FailedRemoveKeeps(m, keys, layers, curLocs, unwritten, broken, done, s, begin, end);
        FailedFrames(m, done, s, begin, end);
        broken := broken + {s};
        assert StopsAt(m, s, begin, end, done, M());
        return Err(SharedCells);
      }
      RemoveFrames(m, s, begin, end);
      status := FinishRemove(s, begin, end, seqRange, m);
    }

    /** NewCausalCache, NewSWACache, NewSWAMemCache and NewChunkedAttentionCache: a zero window,
        memory or chunk size stands for one that was not given. */
    constructor (window: int, memory: int, chunk: int, shifts: bool, ghost layers: set<int>)
      ensures windowSize == window && memorySize == memory && chunkSize == chunk && canShift == shifts
      ensures this.layers == layers && keys == map[] && cells.Length == 0 && hist == map[] && curBatch == Batch([], [], [])
    {
      windowSize, memorySize, chunkSize, canShift := window, memory, chunk, shifts;
      padding, maxBatch, curLayer := 0, 0, 0;
      curBatch, except, curLocs, curCellRange, curMask := Batch([], [], []), [], [], NEW_RANGE, [];
      cells, cellRanges, keys := new Cell[0], map[], map[];
      this.layers, content, hist, broken, unwritten := layers, [], map[], {}, {};
    }

    /** The part of Init that settles window and memory, false where it panics. */
    method SettleSizes(maxSequences: nat, capacity: nat) returns (ok: bool)
      requires 0 <= windowSize <= MAX_INT32 && 0 <= memorySize <= MAX_INT32
      modifies this`windowSize, this`memorySize
      ensures windowSize == if old(windowSize) == 0 then MAX_INT32 else old(windowSize)
      ensures var given := if old(memorySize) == 0 then windowSize else old(memorySize);
              var wanted := if given != MAX_INT32 && 1 < maxSequences && windowSize != MAX_INT32
                            then Max(given, windowSize + 1) else given;
        && memorySize == (if wanted < capacity then wanted else MAX_INT32)
        && (ok <==> capacity <= wanted || windowSize <= wanted)
      ensures ok <==> windowSize <= memorySize
      ensures ok ==> ValidConfig(Cfg())
      ensures ok && memorySize != MAX_INT32 && 1 < maxSequences ==> windowSize < memorySize
      ensures memorySize == MAX_INT32 || memorySize < capacity
      ensures old(windowSize) == old(memorySize) == 0 ==> ok && memorySize == MAX_INT32
    {
      if windowSize == 0 {
        windowSize := MAX_INT32;
      }
      if memorySize == 0 {
        memorySize := windowSize;
      }
      if memorySize != MAX_INT32 && maxSequences > 1 {
        memorySize := Max(memorySize, AddInt32(windowSize, 1));
      }
      if memorySize >= capacity {
        memorySize := MAX_INT32;
      }
      ok := windowSize <= memorySize;
    }

    /** Init. The memory is the one given, or the window; with parallel sequences at least a token more
        than the window; and unlimited when the capacity does not exceed it. A memory short of the
        window is refused. There are cells for every sequence the caller may keep, and no more than
        padding asks for. */
    method Init(cachePadding: nat, maxSequences: nat, capacity: nat, batch: nat) returns (ok: bool)
      requires 0 <= windowSize <= MAX_INT32 && 0 <= memorySize <= MAX_INT32 && 0 < batch
      requires maxSequences * capacity + maxSequences * MAX_INT32 + batch + cachePadding < MAX_INT
      requires keys == map[]
      modifies this
      ensures windowSize == if old(windowSize) == 0 then MAX_INT32 else old(windowSize)
      ensures var given := if old(memorySize) == 0 then windowSize else old(memorySize);
              var wanted := if given != MAX_INT32 && 1 < maxSequences && windowSize != MAX_INT32
                            then Max(given, windowSize + 1) else given;
        && memorySize == (if wanted < capacity then wanted else MAX_INT32)
        && (ok <==> capacity <= wanted || windowSize <= wanted)
      ensures ok ==> windowSize <= memorySize
      ensures ok && memorySize != MAX_INT32 && 1 < maxSequences ==> windowSize < memorySize
      ensures old(windowSize) == old(memorySize) == 0 ==> ok && memorySize == MAX_INT32
      ensures padding == if cachePadding == 0 then 1 else cachePadding
      ensures ok ==>
        var size := if memorySize == MAX_INT32 then maxSequences * capacity else maxSequences * memorySize + batch;
        size <= cells.Length < size + padding && cells.Length % padding == 0
      ensures ok ==> Valid() && fresh(cells) && hist == map[] && broken == {} && unwritten == {} && maxBatch == batch
      ensures ok ==> CacheSize(Cfg(), maxSequences, capacity, batch) <= cells.Length
    {
      hide ShapeOk, StoreOk, RoundUp, CacheSize;
      padding := if cachePadding == 0 then 1 else cachePadding;
      ok := SettleSizes(maxSequences, capacity);
      if !ok {
        return;
      }
      CacheSizeIs(Cfg(), maxSequences, capacity, batch);
      InitSize(Cfg(), maxSequences, capacity, batch, padding);
      RoundUpFacts(CacheSize(Cfg(), maxSequences, capacity, batch), padding);
      var cacheSize := if memorySize == MAX_INT32 then maxSequences * capacity else maxSequences * memorySize + batch;
      maxBatch := batch;
      Allocate(RoundUp(cacheSize, padding));
    }

    /** The part of Init that makes the empty cells. */
    method Allocate(cacheSize: nat)
      requires 0 < padding && 0 < maxBatch && ValidConfig(Cfg()) && keys == map[]
      requires cacheSize <= MAX_INT && cacheSize % padding == 0
      modifies this`cells, this`content, this`hist, this`broken, this`unwritten, this`cellRanges, this`curLocs
      ensures Valid() && fresh(cells) && cells.Length == cacheSize && hist == map[] && broken == {} && unwritten == {}
    {
      hide ShapeOk, StoreOk;
      cells := new Cell[cacheSize](_ => Cell(0, []));
      ghost var anything: Token := *;
      content := seq(cacheSize, _ => anything);
      hist, broken, unwritten := map[], {}, {};
      cellRanges, curLocs := map[], [];
      EmptyCache(Cfg(), padding, maxBatch, M(), layers);
    }
  }
}
