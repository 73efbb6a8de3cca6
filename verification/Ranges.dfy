/** Cell ranges: the hull of a set of locations, grown as the cells are scanned. */
module Ranges {
  import opened CacheModel
  import opened Eviction

  function Extend(r: Range, i: int): Range {
    Range(Min(r.min, i), Max(r.max, i))
  }

  function Join(a: Range, b: Range): Range {
    Range(Min(a.min, b.min), Max(a.max, b.max))
  }

  /** The hull of the first k cells that hold s at a position not below from. */
  function Hull(cells: seq<Cell>, s: int, from: int, k: nat): Range
    requires k <= |cells|
  {
    if k == 0 then NEW_RANGE else Step(Hull(cells, s, from, k - 1), cells[k - 1], s, from, k - 1)
  }

  /** The hull after one more cell. */
  function Step(r: Range, c: Cell, s: int, from: int, i: int): Range {
    if s in c.sequences && from <= c.pos then Extend(r, i) else r
  }

  lemma HullStep(cells: seq<Cell>, s: int, from: int, k: nat)
    requires k < |cells|
    ensures Hull(cells, s, from, k + 1) == Step(Hull(cells, s, from, k), cells[k], s, from, k)
  {
  }

  lemma HullNone(cells: seq<Cell>, s: int, from: int)
    ensures Hull(cells, s, from, 0) == NEW_RANGE
  {
  }

  lemma JoinStep(a: Range, b: Range, c: Cell, s: int, from: int, i: int)
    ensures Step(Join(a, b), c, s, from, i) == Join(a, Step(b, c, s, from, i))
  {
  }

  lemma JoinNew(a: Range, n: int)
    requires InBounds(a, n) && n <= MAX_INT
    ensures Join(a, NEW_RANGE) == a
  {
  }

  ghost predicate Within(cells: seq<Cell>, i: int, s: int, from: int) {
    Stores(cells, i, s) && from <= cells[i].pos
  }

  /** The hull is NEW_RANGE when there is no such cell; otherwise it runs from one to another
      and leaves none out. That determines it. */
  lemma {:induction false} HullMeaning(cells: seq<Cell>, s: int, from: int, k: nat)
    requires k <= |cells| <= MAX_INT
    ensures forall i :: Within(cells, i, s, from) && i < k ==> Hull(cells, s, from, k).min <= i <= Hull(cells, s, from, k).max
    ensures var r := Hull(cells, s, from, k);
      r == NEW_RANGE || (Within(cells, r.min, s, from) && Within(cells, r.max, s, from) && r.max < k)
  {
    if k > 0 {
      HullMeaning(cells, s, from, k - 1);
    }
  }

  /** Cells that do not qualify leave the hull as it is. */
  lemma {:induction false} HullSkips(cells: seq<Cell>, s: int, from: int, k: nat, n: nat)
    requires k <= n <= |cells|
    requires forall i :: k <= i < n ==> !Within(cells, i, s, from)
    ensures Hull(cells, s, from, k) == Hull(cells, s, from, n)
    decreases n - k
  {
    if k < n {
      assert !Within(cells, n - 1, s, from);
      HullSkips(cells, s, from, k, n - 1);
    }
  }

  lemma {:induction false} HullSame(a: seq<Cell>, b: seq<Cell>, s: int, from: int, k: nat)
    requires k <= |a| == |b|
    requires forall i :: Within(a, i, s, from) <==> Within(b, i, s, from)
    ensures Hull(a, s, from, k) == Hull(b, s, from, k)
  {
    if k > 0 {
      HullSame(a, b, s, from, k - 1);
      assert Within(a, k - 1, s, from) <==> Within(b, k - 1, s, from);
    }
  }

  /** r runs exactly from the first to the last cell that holds one of the sequences seqs
      within the window of its threshold. */
  ghost predicate WindowHull(r: Range, cells: seq<Cell>, low: map<int, int>, seqs: set<int>, window: int)
    requires seqs <= low.Keys
  {
    && (forall i, s :: s in seqs && InWindow(cells, i, s, low, window) ==> r.min <= i <= r.max)
    && (r == NEW_RANGE || (HeldBySome(r.min, cells, low, seqs, window) && HeldBySome(r.max, cells, low, seqs, window)))
  }

  ghost predicate HeldBySome(i: int, cells: seq<Cell>, low: map<int, int>, seqs: set<int>, window: int)
    requires seqs <= low.Keys
  {
    exists s :: s in seqs && InWindow(cells, i, s, low, window)
  }

  ghost predicate InWindow(cells: seq<Cell>, i: int, s: int, low: map<int, int>, window: int)
    requires s in low
  {
    Within(cells, i, s, low[s] - window)
  }

  /** A window hull is determined by the cells and thresholds: two runs of the eviction loop in
      different orders leave the same one. */
  lemma WindowHullUnique(a: Range, b: Range, cells: seq<Cell>, low: map<int, int>, seqs: set<int>, window: int)
    requires seqs <= low.Keys && |cells| <= MAX_INT
    requires WindowHull(a, cells, low, seqs, window) && WindowHull(b, cells, low, seqs, window)
    ensures a == b
  {
  }

  lemma NoWindowHull(cells: seq<Cell>, low: map<int, int>, window: int)
    ensures WindowHull(NEW_RANGE, cells, low, {}, window) && InBounds(NEW_RANGE, |cells|)
  {
  }

  lemma GrowWindowHull(r: Range, cells: seq<Cell>, low: map<int, int>, seqs: set<int>, window: int, s: int)
    requires seqs + {s} <= low.Keys && |cells| <= MAX_INT && InBounds(r, |cells|)
    requires WindowHull(r, cells, low, seqs, window)
    ensures WindowHull(Join(r, Hull(cells, s, low[s] - window, |cells|)), cells, low, seqs + {s}, window)
    ensures InBounds(Join(r, Hull(cells, s, low[s] - window, |cells|)), |cells|)
  {
    HullMeaning(cells, s, low[s] - window, |cells|);
    var h := Hull(cells, s, low[s] - window, |cells|);
    var j := Join(r, h);
    assert j == NEW_RANGE || j.min == r.min != MAX_INT || j.min == h.min;
    assert forall i :: HeldBySome(i, cells, low, seqs, window) ==> HeldBySome(i, cells, low, seqs + {s}, window);
    assert h == NEW_RANGE || (InWindow(cells, h.min, s, low, window) && InWindow(cells, h.max, s, low, window));
    assert h == NEW_RANGE || (HeldBySome(h.min, cells, low, seqs + {s}, window) && HeldBySome(h.max, cells, low, seqs + {s}, window));
  }

  /** One more round of the eviction loop, seen from the cells it started with: a sequence not
      yet visited is stored as it was at the start. */
  lemma EvictRound(before: seq<Cell>, now: seq<Cell>, low: map<int, int>, done: set<int>, s: int, memory: int, window: int)
    requires s in low && s !in done && now == EvictCells(before, low, done, memory)
    ensures EvictCells(now, low, {s}, memory) == EvictCells(before, low, done + {s}, memory)
    ensures forall r :: CoversSeq(before, r, s) ==> CoversSeq(now, r, s)
    ensures Hull(now, s, low[s] - memory, |now|) == Hull(before, s, low[s] - memory, |before|)
    ensures Hull(now, s, low[s] - window, |now|) == Hull(before, s, low[s] - window, |before|)
  {
    EvictTwice(before, low, done, {s}, memory);
    EvictStores(before, low, done, memory, s);
    HullSame(now, before, s, low[s] - memory, |before|);
    HullSame(now, before, s, low[s] - window, |before|);
  }

  /** The ranges once the sequences of done have been through the eviction loop. */
  function VisitedRanges(ranges: map<int, Range>, done: set<int>, cells: seq<Cell>, low: map<int, int>, memory: int): map<int, Range>
    requires ranges.Keys <= low.Keys
  {
    map t | t in ranges :: if t in done then Hull(cells, t, low[t] - memory, |cells|) else ranges[t]
  }

  lemma VisitNone(ranges: map<int, Range>, cells: seq<Cell>, low: map<int, int>, memory: int)
    requires ranges.Keys <= low.Keys
    ensures VisitedRanges(ranges, {}, cells, low, memory) == ranges
  {
  }

  lemma VisitOne(ranges: map<int, Range>, done: set<int>, cells: seq<Cell>, low: map<int, int>, memory: int, s: int)
    requires ranges.Keys <= low.Keys && s in ranges && s !in done
    ensures VisitedRanges(ranges, done + {s}, cells, low, memory)
         == VisitedRanges(ranges, done, cells, low, memory)[s := Hull(cells, s, low[s] - memory, |cells|)]
    ensures VisitedRanges(ranges, done, cells, low, memory).Keys == ranges.Keys
    ensures VisitedRanges(ranges, done, cells, low, memory)[s] == ranges[s]
  {
  }

  lemma RangeOf(cells: seq<Cell>, ranges: map<int, Range>, i: int, s: int)
    requires RangesOk(cells, ranges) && Stores(cells, i, s)
    ensures s in ranges
  {
  }

  lemma RangeAt(cells: seq<Cell>, ranges: map<int, Range>, s: int)
    requires RangesOk(cells, ranges) && s in ranges
    ensures InBounds(ranges[s], |cells|) && CoversSeq(cells, ranges[s], s)
  {
  }

  ghost predicate InBounds(r: Range, n: int) {
    r == NEW_RANGE || 0 <= r.min <= r.max < n
  }

  ghost predicate CoversSeq(cells: seq<Cell>, r: Range, s: int) {
    forall i :: Stores(cells, i, s) ==> r.min <= i <= r.max
  }

  /** Every cell that holds a sequence lies inside the range recorded for it. */
  ghost predicate RangesOk(cells: seq<Cell>, ranges: map<int, Range>) {
    && (forall s :: s in ranges ==> InBounds(ranges[s], |cells|) && CoversSeq(cells, ranges[s], s))
    && (forall i, s :: Stores(cells, i, s) ==> s in ranges)
  }

  ghost predicate CellOk(c: Cell) {
    Distinct(c.sequences) && 0 <= c.pos < MAX_INT32
  }

  /** No cell lists a sequence twice, and positions are non-negative and below the sentinel. */
  ghost predicate CellsOk(cells: seq<Cell>) {
    forall i :: 0 <= i < |cells| ==> CellOk(cells[i])
  }

  // ---------- the eviction loop ----------

  /** The state the eviction loop works on. */
  datatype Scan = Scan(cells: seq<Cell>, ranges: map<int, Range>, cur: Range)

  /** What one round of the loop does for sequence s. */
  function Visit(e: Scan, low: map<int, int>, inBatch: bool, s: int, memory: int, window: int): Scan
    requires s in low
  {
    Scan(EvictCells(e.cells, low, {s}, memory),
         e.ranges[s := Hull(e.cells, s, low[s] - memory, |e.cells|)],
         if inBatch then Join(e.cur, Hull(e.cells, s, low[s] - window, |e.cells|)) else e.cur)
  }

  /** The loop has visited exactly the sequences of done. */
  ghost predicate Visited(start: Scan, low: map<int, int>, current: set<int>, done: set<int>, memory: int, window: int, e: Scan)
    requires start.ranges.Keys <= low.Keys && current <= low.Keys
  {
    && e.cells == EvictCells(start.cells, low, done, memory)
    && e.ranges == VisitedRanges(start.ranges, done, start.cells, low, memory)
    && InBounds(e.cur, |e.cells|)
    && WindowHull(e.cur, start.cells, low, current * done, window)
  }

  lemma VisitFirst(start: Scan, low: map<int, int>, current: set<int>, memory: int, window: int)
    requires start.ranges.Keys <= low.Keys && current <= low.Keys && start.cur == NEW_RANGE
    ensures Visited(start, low, current, {}, memory, window, start)
  {
    EvictNone(start.cells, low, memory);
    VisitNone(start.ranges, start.cells, low, memory);
    NoWindowHull(start.cells, low, window);
    assert current * {} == {};
  }

  lemma VisitNext(start: Scan, low: map<int, int>, current: set<int>, done: set<int>, memory: int, window: int, e: Scan, s: int)
    requires start.ranges.Keys <= low.Keys && current <= low.Keys
    requires RangesOk(start.cells, start.ranges) && |start.cells| <= MAX_INT
    requires Visited(start, low, current, done, memory, window, e)
    requires s in start.ranges && s !in done
    ensures Visited(start, low, current, done + {s}, memory, window, Visit(e, low, s in current, s, memory, window))
    ensures e.ranges.Keys == Visit(e, low, s in current, s, memory, window).ranges.Keys == start.ranges.Keys
    ensures InBounds(e.ranges[s], |e.cells|) && CoversSeq(e.cells, e.ranges[s], s) && InBounds(e.cur, |e.cells|)
  {
    hide EvictCells, Hull, Join, WindowHull, VisitedRanges, InBounds, RangesOk, CoversSeq;
    RangeAt(start.cells, start.ranges, s);
    VisitOne(start.ranges, done, start.cells, low, memory, s);
    EvictRound(start.cells, e.cells, low, done, s, memory, window);
    EvictStores(start.cells, low, done, memory, s);
    GrowWindowHull(e.cur, start.cells, low, current * done, window, s);
    EvictStores(e.cells, low, {s}, memory, s);
    assert current * (done + {s}) == if s in current then current * done + {s} else current * done;
  }

  /** Once every sequence has been visited, the ranges cover the evicted cells again. */
  lemma VisitedRange(start: Scan, low: map<int, int>, current: set<int>, memory: int, window: int, e: Scan, s: int)
    requires start.ranges.Keys <= low.Keys && current <= low.Keys && s in e.ranges && |start.cells| <= MAX_INT
    requires Visited(start, low, current, start.ranges.Keys, memory, window, e)
    ensures InBounds(e.ranges[s], |e.cells|) && CoversSeq(e.cells, e.ranges[s], s)
  {
    hide EvictCells, Hull;
    EvictStores(start.cells, low, start.ranges.Keys, memory, s);
    HullMeaning(start.cells, s, low[s] - memory, |start.cells|);
    assert forall i :: Stores(e.cells, i, s) ==> Within(start.cells, i, s, low[s] - memory);
  }

  lemma VisitedAll(start: Scan, low: map<int, int>, current: set<int>, memory: int, window: int, e: Scan)
    requires start.ranges.Keys <= low.Keys && current <= low.Keys
    requires RangesOk(start.cells, start.ranges) && CellsOk(start.cells) && |start.cells| <= MAX_INT
    requires Visited(start, low, current, start.ranges.Keys, memory, window, e)
    ensures RangesOk(e.cells, e.ranges) && CellsOk(e.cells)
  {
    hide CellsOk;
    forall s | s in e.ranges
      ensures InBounds(e.ranges[s], |e.cells|) && CoversSeq(e.cells, e.ranges[s], s)
    {
      VisitedRange(start, low, current, memory, window, e, s);
    }
    hide EvictCells;
    forall i, s | Stores(e.cells, i, s) ensures s in e.ranges {
      EvictStores(start.cells, low, start.ranges.Keys, memory, s);
      assert Stores(start.cells, i, s);
    }
    EvictCellsOk(start.cells, low, start.ranges.Keys, memory);
  }

  lemma EvictCellsOk(cells: seq<Cell>, low: map<int, int>, done: set<int>, memory: int)
    requires CellsOk(cells)
    ensures CellsOk(EvictCells(cells, low, done, memory))
  {
    var e := EvictCells(cells, low, done, memory);
    forall i | 0 <= i < |e| ensures CellOk(e[i]) {
      assert CellOk(cells[i]);
    }
  }

  /** The range misses no cell that the window of a batch sequence reaches. */
  ghost predicate BatchCovered(r: Range, cells: seq<Cell>, b: Batch, window: int)
    requires ShapedBatch(b)
  {
    forall i, s :: s in Lowest(b, |b.positions|) && InWindow(cells, i, s, Lowest(b, |b.positions|), window) ==> r.min <= i <= r.max
  }

  lemma VisitedCovers(start: Scan, known: set<int>, b: Batch, memory: int, window: int, e: Scan)
    requires ShapedBatch(b) && known == start.ranges.Keys && RangesOk(start.cells, start.ranges)
    requires Visited(start, Thresholds(start.cells, known, b), Lowest(b, |b.positions|).Keys, known, memory, window, e)
    ensures BatchCovered(e.cur, e.cells, b, window) && InBounds(e.cur, |start.cells|)
  {
    var low, all := Lowest(b, |b.positions|), Thresholds(start.cells, known, b);
    forall i, s | s in low && InWindow(e.cells, i, s, low, window) ensures e.cur.min <= i <= e.cur.max {
      EvictStores(start.cells, all, known, memory, s);
      assert Stores(start.cells, i, s);
      assert InWindow(start.cells, i, s, all, window);
    }
  }

  /** Evicting over the recorded ranges is evicting over the stored sequences. */
  lemma EvictKnown(cells: seq<Cell>, known: set<int>, b: Batch, memory: int)
    requires ShapedBatch(b)
    requires forall i, s :: Stores(cells, i, s) ==> s in known
    ensures var stored := set i, s | 0 <= i < |cells| && s in cells[i].sequences :: s;
      EvictCells(cells, Thresholds(cells, known, b), known, memory)
      == EvictCells(cells, Thresholds(cells, stored, b), stored, memory)
  {
    var stored := set i, s | 0 <= i < |cells| && s in cells[i].sequences :: s;
    var a, c := Thresholds(cells, known, b), Thresholds(cells, stored, b);
    forall i | 0 <= i < |cells| ensures EvictCell(cells[i], a, known, memory) == EvictCell(cells[i], c, stored, memory) {
      forall s | s in cells[i].sequences ensures s in known && s in stored {
        assert Stores(cells, i, s);
      }
      assert Expired(cells[i], a, known, memory) == Expired(cells[i], c, stored, memory);
    }
  }
}
