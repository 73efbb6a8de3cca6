/** Re-rotating the keys of a sequence whose middle was removed, chunk by chunk, and what the
    sharing operations do to the cache invariant. */
module Rotation {
  import opened CacheModel
  import opened Arithmetic
  import opened Sharing
  import opened Ranges
  import opened Rows

  function ShiftRow(row: Row, offset: int): Row {
    if row.Key? then Key(row.token, row.rot + offset) else Zero
  }

  /** The cells shift is meant for: those of s at or behind begin. */
  predicate Hit(c: Cell, s: int, begin: int) {
    s in c.sequences && begin <= c.pos
  }

  /** The rows once every hit cell before upto has been turned by offset, once. */
  function PartShifted(rows: seq<Row>, cells: seq<Cell>, s: int, begin: int, offset: int, upto: int): seq<Row>
    requires |rows| == |cells|
  {
    seq(|rows|, i requires 0 <= i < |rows| =>
      if i < upto && Hit(cells[i], s, begin) then ShiftRow(rows[i], offset) else rows[i])
  }

  /** What the backend writes back for one view: row i of it turned by offsets[i]. */
  function ApplyOffsets(rows: seq<Row>, at: int, offsets: seq<int>): seq<Row> {
    seq(|rows|, i requires 0 <= i < |rows| =>
      if at <= i < at + |offsets| then ShiftRow(rows[i], offsets[i - at]) else rows[i])
  }

  /** One chunk: turning the view by its offsets, zeros included, shifts exactly the hit cells
      of the chunk. */
  lemma ChunkStep(rows: seq<Row>, cells: seq<Cell>, s: int, begin: int, offset: int, start: int, size: nat, at: int, offsets: seq<int>)
    requires |rows| == |cells| && 0 <= start <= at && at + |offsets| <= start + size <= |rows|
    requires forall i :: 0 <= i < |offsets| ==> offsets[i] == if Hit(cells[at + i], s, begin) then offset else 0
    requires forall i :: start <= i < start + size && Hit(cells[i], s, begin) ==> at <= i < at + |offsets|
    ensures ApplyOffsets(PartShifted(rows, cells, s, begin, offset, start), at, offsets)
         == PartShifted(rows, cells, s, begin, offset, start + size)
  {
    var before := PartShifted(rows, cells, s, begin, offset, start);
    forall i | 0 <= i < |rows|
      ensures ApplyOffsets(before, at, offsets)[i] == PartShifted(rows, cells, s, begin, offset, start + size)[i]
    {
      if at <= i < at + |offsets| {
        assert cells[at + (i - at)] == cells[i];
        assert offsets[i - at] == if Hit(cells[i], s, begin) then offset else 0;
      }
    }
  }

  lemma NoHits(rows: seq<Row>, cells: seq<Cell>, s: int, begin: int, offset: int, a: int, b: int)
    requires |rows| == |cells| && a <= b
    requires forall i :: 0 <= i < |cells| && a <= i < b ==> !Hit(cells[i], s, begin)
    ensures PartShifted(rows, cells, s, begin, offset, a) == PartShifted(rows, cells, s, begin, offset, b)
  {
  }

  /** All layers, shifted up to a location. */
  function PartKeys(keys: map<int, seq<Row>>, cells: seq<Cell>, s: int, begin: int, offset: int, upto: int): map<int, seq<Row>>
    requires Sized(keys, |cells|)
  {
    map l | l in keys :: PartShifted(keys[l], cells, s, begin, offset, upto)
  }

  ghost predicate Sized(keys: map<int, seq<Row>>, n: int) {
    forall l :: l in keys ==> |keys[l]| == n
  }

  lemma PartKeysSkip(keys: map<int, seq<Row>>, cells: seq<Cell>, s: int, begin: int, offset: int, a: int, b: int)
    requires Sized(keys, |cells|) && a <= b
    requires forall i :: 0 <= i < |cells| && a <= i < b ==> !Hit(cells[i], s, begin)
    ensures PartKeys(keys, cells, s, begin, offset, a) == PartKeys(keys, cells, s, begin, offset, b)
  {
    forall l | l in keys
      ensures PartShifted(keys[l], cells, s, begin, offset, a) == PartShifted(keys[l], cells, s, begin, offset, b)
    {
      NoHits(keys[l], cells, s, begin, offset, a, b);
    }
  }

  lemma PartKeysNone(keys: map<int, seq<Row>>, cells: seq<Cell>, s: int, begin: int, offset: int)
    requires Sized(keys, |cells|)
    ensures PartKeys(keys, cells, s, begin, offset, 0) == keys
  {
    forall l | l in keys ensures PartShifted(keys[l], cells, s, begin, offset, 0) == keys[l] {}
  }

  lemma PartKeysChunk(
    keys: map<int, seq<Row>>, cells: seq<Cell>, s: int, begin: int, offset: int,
    start: int, size: nat, at: int, offsets: seq<int>)
    requires Sized(keys, |cells|) && 0 <= start <= at && at + |offsets| <= start + size <= |cells|
    requires forall i :: 0 <= i < |offsets| ==> offsets[i] == if Hit(cells[at + i], s, begin) then offset else 0
    requires forall i :: start <= i < start + size && Hit(cells[i], s, begin) ==> at <= i < at + |offsets|
    ensures var part := PartKeys(keys, cells, s, begin, offset, start);
      (map l | l in part :: ApplyOffsets(part[l], at, offsets)) == PartKeys(keys, cells, s, begin, offset, start + size)
  {
    forall l | l in keys
      ensures ApplyOffsets(PartShifted(keys[l], cells, s, begin, offset, start), at, offsets)
           == PartShifted(keys[l], cells, s, begin, offset, start + size)
    {
      ChunkStep(keys[l], cells, s, begin, offset, start, size, at, offsets);
    }
  }

  lemma PartOnlyHits(keys: map<int, seq<Row>>, cells: seq<Cell>, s: int, begin: int, offset: int, upto: int)
    requires Sized(keys, |cells|)
    ensures OnlyHits(keys, PartKeys(keys, cells, s, begin, offset, upto), cells, s, begin)
    ensures Sized(PartKeys(keys, cells, s, begin, offset, upto), |cells|)
  {
  }

  /** Rows that no hit cell owns are as they were. */
  ghost predicate OnlyHits(before: map<int, seq<Row>>, after: map<int, seq<Row>>, cells: seq<Cell>, s: int, begin: int) {
    && after.Keys == before.Keys
    && forall l :: l in before ==> SameRows(before[l], after[l], cells, s, begin)
  }

  ghost predicate SameRows(before: seq<Row>, after: seq<Row>, cells: seq<Cell>, s: int, begin: int) {
    && |before| == |after| == |cells|
    && forall i :: 0 <= i < |cells| && !Hit(cells[i], s, begin) ==> after[i] == before[i]
  }

  /** Location at is the first hit cell of its chunk, counting chunks of the given size from r.min:
      where the view begins that the backend is asked to turn. */
  ghost predicate Leads(cells: seq<Cell>, r: Range, size: int, s: int, begin: int, at: int)
    requires 0 < size
  {
    && 0 <= r.min <= at < |cells| && Hit(cells[at], s, begin)
    && forall i :: at - (at - r.min) % size <= i < at ==> 0 <= i && !Hit(cells[i], s, begin)
  }

  /** The backend refuses to turn some layer of some chunk. */
  ghost predicate Refused(cells: seq<Cell>, r: Range, size: int, layers: set<int>, refuses: set<(int, int)>, s: int, begin: int)
    requires 0 < size
  {
    exists l, at :: l in layers && Leads(cells, r, size, s, begin, at) && (l, at) in refuses
  }

  lemma ChunkLead(cells: seq<Cell>, r: Range, size: int, s: int, begin: int, chunks: nat, start: int, at: int)
    requires 0 < size && 0 <= r.min && start == r.min + chunks * size && start <= at < start + size && at < |cells|
    ensures r.min <= start
    ensures Leads(cells, r, size, s, begin, at) <==>
              Hit(cells[at], s, begin) && forall i :: start <= i < at ==> 0 <= i && !Hit(cells[i], s, begin)
  {
    MulSign(chunks, size);
    DivUnique(at - r.min, size, chunks, at - start);
  }

  /** Of one chunk, just the first hit cell leads. */
  lemma ChunkLeads(cells: seq<Cell>, r: Range, size: int, s: int, begin: int, chunks: nat, start: int)
    requires 0 < size && 0 <= r.min && start == r.min + chunks * size
    ensures r.min <= start
    ensures forall at :: start <= at < start + size && at < |cells| ==>
              (Leads(cells, r, size, s, begin, at) <==>
               Hit(cells[at], s, begin) && forall i :: start <= i < at ==> 0 <= i && !Hit(cells[i], s, begin))
  {
    MulSign(chunks, size);
    forall at | start <= at < start + size && at < |cells|
      ensures Leads(cells, r, size, s, begin, at) <==>
              Hit(cells[at], s, begin) && forall i :: start <= i < at ==> 0 <= i && !Hit(cells[i], s, begin)
    {
      ChunkLead(cells, r, size, s, begin, chunks, start, at);
    }
  }

  lemma LeadsHit(cells: seq<Cell>, r: Range, size: int, s: int, begin: int, at: int)
    requires 0 < size && Leads(cells, r, size, s, begin, at)
    ensures 0 <= at < |cells| && Hit(cells[at], s, begin)
  {
  }

  lemma LeadsInRange(cells: seq<Cell>, r: Range, size: int, s: int, begin: int)
    requires 0 < size && forall i :: 0 <= i < |cells| && Hit(cells[i], s, begin) ==> r != NEW_RANGE && r.min <= i <= r.max
    ensures forall at :: Leads(cells, r, size, s, begin, at) ==> r != NEW_RANGE && r.min <= at <= r.max
  {
  }

  // ---------- CopyPrefix and the invariant ----------

  lemma CopyShape(cells: seq<Cell>, ranges: map<int, Range>, src: int, dst: int, len: int)
    requires src != dst && RangesOk(cells, ranges) && CellsOk(cells) && |cells| <= MAX_INT
    ensures var c := CopyCells(cells, src, dst, len);
      && CellsOk(c) && RangesOk(c, ranges[dst := Hull(c, dst, 0, |c|)])
  {
    var c := CopyCells(cells, src, dst, len);
    var ranges' := ranges[dst := Hull(c, dst, 0, |c|)];
    hide RangesOk, CopyCells, CellOk, Hull;
    CopyCellsOk(cells, src, dst, len);
    forall i, s | Stores(c, i, s) ensures s in ranges' {
      CopyStores(cells, src, dst, len, s);
      RangeOf(cells, ranges, i, if s == dst then src else s);
    }
    HullMeaning(c, dst, 0, |c|);
    forall s | s in ranges' ensures InBounds(ranges'[s], |c|) && CoversSeq(c, ranges'[s], s) {
      if s != dst {
        CopyStores(cells, src, dst, len, s);
        RangeAt(cells, ranges, s);
      } else {
        forall i | Stores(c, i, dst) ensures Within(c, i, dst, 0) {
          assert 0 <= c[i].pos by { PosOk(c, i); }
        }
      }
    }
  }

  lemma CopyCellsOk(cells: seq<Cell>, src: int, dst: int, len: int)
    requires src != dst && CellsOk(cells)
    ensures CellsOk(CopyCells(cells, src, dst, len))
  {
    var c := CopyCells(cells, src, dst, len);
    forall i | 0 <= i < |c| ensures CellOk(c[i]) {
      assert CellOk(cells[i]);
    }
  }

  lemma PosOk(cells: seq<Cell>, i: int)
    requires CellsOk(cells) && 0 <= i < |cells|
    ensures 0 <= cells[i].pos < MAX_INT32
  {
    assert CellOk(cells[i]);
  }

  /** The copy inherits soundness from its source, and the damage of a failed removal too. */
  lemma CopyKeeps(m: Model, keys: map<int, seq<Row>>, layers: set<int>, locs: seq<int>, unwritten: set<int>, broken: set<int>,
                  src: int, dst: int, len: int)
    requires src != dst && StoreOk(m, keys, layers, locs, unwritten, broken)
    ensures StoreOk(CopyStep(m, src, dst, len), keys, layers, locs, unwritten, if src in broken then broken + {dst} else broken - {dst})
  {
    var c := CopyStep(m, src, dst, len);
    var broken' := if src in broken then broken + {dst} else broken - {dst};
    CopyHist(m, src, dst, len);
    forall s | s !in broken' ensures SeqOk(c, s) {
      if s == dst {
        CopyEffect(m, src, dst, len);
      } else {
        CopyOther(m, src, dst, len, s);
      }
    }
    forall l, i, s | l in layers && s !in broken' && Stores(c.cells, i, s) && !(l in unwritten && i in locs)
      ensures RowOk(c, keys, l, i)
    {
      CopyStores(m.cells, src, dst, len, s);
      assert Stores(m.cells, i, if s == dst then src else s);
      assert RowOk(m, keys, l, i);
    }
  }

  lemma CopyOther(m: Model, src: int, dst: int, len: int, s: int)
    requires src != dst && s != dst && SeqOk(m, s)
    ensures SeqOk(CopyStep(m, src, dst, len), s)
  {
    CopyStores(m.cells, src, dst, len, s);
    SameViewKeeps(m, CopyStep(m, src, dst, len), s);
  }

  lemma CopyHist(m: Model, src: int, dst: int, len: int)
    requires HistOk(m.hist)
    ensures HistOk(CopyStep(m, src, dst, len).hist)
  {
    forall s ensures |Hist(CopyStep(m, src, dst, len).hist, s)| <= MAX_INT32 {
      assert |Hist(m.hist, s)| <= MAX_INT32 && |Hist(m.hist, src)| <= MAX_INT32;
    }
  }

  // ---------- Remove and the invariant ----------

  lemma RemoveHist(m: Model, s: int, begin: int, end: int)
    requires HistOk(m.hist) && 0 <= begin <= end
    ensures HistOk(RemoveStep(m, s, begin, end).hist)
  {
    var h := Hist(m.hist, s);
    assert |h| <= MAX_INT32;
    assert |Cut(h, begin, end)| <= |h|;
    forall t ensures |Hist(RemoveStep(m, s, begin, end).hist, t)| <= MAX_INT32 {
      assert |Hist(m.hist, t)| <= MAX_INT32;
    }
  }

  lemma RemoveCellsOk(cells: seq<Cell>, k: int, s: int, begin: int, end: int)
    requires 0 <= begin <= end && CellsOk(cells)
    ensures CellsOk(RemoveCells(cells, k, s, begin, end))
  {
    var c := RemoveCells(cells, k, s, begin, end);
    forall i | 0 <= i < |c| ensures CellOk(c[i]) {
      assert CellOk(cells[i]);
    }
  }

  /** However far Remove got, the old ranges still cover what is left. */
  lemma RemoveShape(cells: seq<Cell>, ranges: map<int, Range>, k: int, s: int, begin: int, end: int)
    requires 0 <= begin <= end && RangesOk(cells, ranges) && CellsOk(cells)
    ensures var c := RemoveCells(cells, k, s, begin, end);
      CellsOk(c) && RangesOk(c, ranges)
  {
    var c := RemoveCells(cells, k, s, begin, end);
    RemoveCellsOk(cells, k, s, begin, end);
    assert forall i, t :: Stores(c, i, t) ==> Stores(cells, i, t);
    forall t | t in ranges ensures InBounds(ranges[t], |c|) && CoversSeq(c, ranges[t], t) {
      RangeAt(cells, ranges, t);
    }
  }

  /** The ranges Remove leaves: the hull of what is left of s, or no entry at all. */
  function RemainingRanges(ranges: map<int, Range>, s: int, r: Range): map<int, Range> {
    if r == NEW_RANGE then ranges - {s} else ranges[s := r]
  }

  lemma RemoveShapeDone(cells: seq<Cell>, ranges: map<int, Range>, s: int)
    requires RangesOk(cells, ranges) && CellsOk(cells) && |cells| <= MAX_INT
    ensures RangesOk(cells, RemainingRanges(ranges, s, Hull(cells, s, 0, |cells|)))
  {
    var h := Hull(cells, s, 0, |cells|);
    HullMeaning(cells, s, 0, |cells|);
    forall i | Stores(cells, i, s) ensures h.min <= i <= h.max && h != NEW_RANGE {
      PosOk(cells, i);
      assert Within(cells, i, s, 0);
    }
    hide Hull, CellsOk;
    var ranges' := RemainingRanges(ranges, s, h);
    forall i, t | Stores(cells, i, t) ensures t in ranges' {
      RangeOf(cells, ranges, i, t);
    }
  }

  /** The cells behind the cut belong to s alone, or Remove would have given up. */
  lemma HitUnshared(cells: seq<Cell>, s: int, begin: int, end: int, i: int, t: int)
    requires begin <= end && !Blocked(cells, |cells|, s, begin, end) && t != s
    requires Stores(RemoveCells(cells, |cells|, s, begin, end), i, t)
    ensures !Hit(RemoveCells(cells, |cells|, s, begin, end)[i], s, begin)
  {
    if Hit(RemoveCells(cells, |cells|, s, begin, end)[i], s, begin) {
      assert Moves(cells[i], s, begin, end) && SharedWithOthers(cells[i], s);
      assert false;
    }
  }

  /** A removal that stopped short, or whose re-rotation failed, damages s and nothing else. */
  lemma FailedRemoveKeeps(m: Model, keys: map<int, seq<Row>>, layers: set<int>, locs: seq<int>, unwritten: set<int>, broken: set<int>,
                          k: int, s: int, begin: int, end: int)
    requires StoreOk(m, keys, layers, locs, unwritten, broken)
    requires begin <= end && !Blocked(m.cells, k, s, begin, end)
    ensures StoreOk(Model(RemoveCells(m.cells, k, s, begin, end), m.content, m.hist), keys, layers, locs, unwritten, broken + {s})
  {
    var c := Model(RemoveCells(m.cells, k, s, begin, end), m.content, m.hist);
    forall t | t !in broken + {s} ensures SeqOk(c, t) {
      RemoveFrame(m, m.hist, k, s, begin, end, t);
      SameViewKeeps(m, c, t);
    }
    forall l, i, t | l in layers && t !in broken + {s} && Stores(c.cells, i, t) && !(l in unwritten && i in locs)
      ensures RowOk(c, keys, l, i)
    {
      RemoveFrame(m, m.hist, k, s, begin, end, t);
      assert Stores(m.cells, i, t) && RowOk(m, keys, l, i);
    }
  }

  /** Once the cells have been worked through: other sequences keep everything, whatever the
      re-rotation did to the rows of the moved cells. */
  lemma RemoveKeepsOthers(m: Model, keys: map<int, seq<Row>>, keys': map<int, seq<Row>>, layers: set<int>, locs: seq<int>,
                          unwritten: set<int>, broken: set<int>, s: int, begin: int, end: int)
    requires StoreOk(m, keys, layers, locs, unwritten, broken)
    requires 0 <= begin <= end && !Blocked(m.cells, |m.cells|, s, begin, end)
    requires OnlyHits(keys, keys', RemoveStep(m, s, begin, end).cells, s, begin)
    ensures StoreOk(RemoveStep(m, s, begin, end), keys', layers, locs, unwritten, broken + {s})
  {
    var c := RemoveStep(m, s, begin, end);
    RemoveHist(m, s, begin, end);
    forall t | t !in broken + {s} ensures SeqOk(c, t) {
      RemoveFrame(m, c.hist, |m.cells|, s, begin, end, t);
      SameViewKeeps(m, c, t);
    }
    forall l | l in keys' ensures |keys'[l]| == |c.cells| {
      assert SameRows(keys[l], keys'[l], c.cells, s, begin);
    }
    forall l, i, t | l in layers && t !in broken + {s} && Stores(c.cells, i, t) && !(l in unwritten && i in locs)
      ensures RowOk(c, keys', l, i)
    {
      RemoveFrame(m, c.hist, |m.cells|, s, begin, end, t);
      HitUnshared(m.cells, s, begin, end, i, t);
      assert Stores(m.cells, i, t) && RowOk(m, keys, l, i);
      assert SameRows(keys[l], keys'[l], c.cells, s, begin);
    }
  }

  /** Key-rotation agreement: in every layer the row of a cell that moved is turned, once, by the
      distance its cell moved, and every other row is what it was; so the rows of s belong to its
      cells again. */
  lemma RotationAgrees(m: Model, keys: map<int, seq<Row>>, l: int, i: int, s: int, begin: int, end: int)
    requires 0 <= begin <= end && |m.content| == |m.cells| && Sized(keys, |m.cells|)
    requires 0 <= i < |m.cells| && m.cells[i].pos < MAX_INT32
    ensures l in keys ==>
              var c := RemoveStep(m, s, begin, end).cells;
              var keys' := PartKeys(keys, c, s, begin, Offset(begin, end), |m.cells|);
              |keys'[l]| == |keys[l]| && keys'[l][i] ==
              if Moves(m.cells[i], s, begin, end) then ShiftRow(keys[l][i], c[i].pos - m.cells[i].pos) else keys[l][i]
    ensures Stores(RemoveStep(m, s, begin, end).cells, i, s) && RowOk(m, keys, l, i) ==>
              RowOk(RemoveStep(m, s, begin, end),
                    PartKeys(keys, RemoveStep(m, s, begin, end).cells, s, begin, Offset(begin, end), |m.cells|), l, i)
  {
    RemoveStores(m, s, begin, end);
  }

  /** A removal that went through keeps the whole invariant, and emptying a sequence restores
      it for one that a failed removal had damaged. */
  lemma RemoveKeeps(m: Model, keys: map<int, seq<Row>>, layers: set<int>, locs: seq<int>, unwritten: set<int>, broken: set<int>,
                    s: int, begin: int, end: int)
    requires StoreOk(m, keys, layers, locs, unwritten, broken) && CellsOk(m.cells)
    requires 0 <= begin <= end
    requires !Blocked(m.cells, |m.cells|, s, begin, end)
    ensures StoreOk(RemoveStep(m, s, begin, end),
                    PartKeys(keys, RemoveStep(m, s, begin, end).cells, s, begin, Offset(begin, end), |m.cells|),
                    layers, locs, unwritten, if begin == 0 && end == MAX_INT32 then broken - {s} else broken)
  {
    var c := RemoveStep(m, s, begin, end);
    var keys' := PartKeys(keys, c.cells, s, begin, Offset(begin, end), |m.cells|);
    var broken' := if begin == 0 && end == MAX_INT32 then broken - {s} else broken;
    PartOnlyHits(keys, c.cells, s, begin, Offset(begin, end), |m.cells|);
    RemoveKeepsOthers(m, keys, keys', layers, locs, unwritten, broken, s, begin, end);
    assert s !in broken' ==> SeqOk(c, s) by {
      RemoveSeq(m, broken, s, begin, end);
    }
    hide SeqOk, Blocked, CellsOk, OnlyHits, HistOk;
    forall t | t !in broken' ensures SeqOk(c, t) {}
    forall l, i, t | l in layers && t !in broken' && Stores(c.cells, i, t) && !(l in unwritten && i in locs)
      ensures RowOk(c, keys', l, i)
    {
      if t == s {
        RemoveStores(m, s, begin, end);
        PosOk(m.cells, i);
        if s in broken {
          assert false;
        }
        assert Stores(m.cells, i, s) && RowOk(m, keys, l, i);
        RotationAgrees(m, keys, l, i, s, begin, end);
      }
    }
  }

  lemma RemoveSeq(m: Model, broken: set<int>, s: int, begin: int, end: int)
    requires 0 <= begin <= end && |Hist(m.hist, s)| <= MAX_INT32 && CellsOk(m.cells) && |m.content| == |m.cells|
    requires s !in broken ==> SeqOk(m, s)
    ensures s !in broken || (begin == 0 && end == MAX_INT32) ==> SeqOk(RemoveStep(m, s, begin, end), s)
  {
    if s !in broken {
      RemoveEffect(m, s, begin, end);
    } else if begin == 0 && end == MAX_INT32 {
      RemoveStores(m, s, begin, end);
      forall i ensures !Stores(RemoveStep(m, s, begin, end).cells, i, s) {
        if 0 <= i < |m.cells| {
          PosOk(m.cells, i);
        }
      }
    }
  }

  /** A removal with nothing left behind the cut turns no rows, and one that reaches to the end
      turns them by nothing. */
  lemma NothingToTurn(keys: map<int, seq<Row>>, cells: seq<Cell>, s: int, begin: int, offset: int)
    requires Sized(keys, |cells|)
    requires offset == 0 || forall i :: !Stores(cells, i, s)
    ensures PartKeys(keys, cells, s, begin, offset, |cells|) == keys
  {
    forall l | l in keys ensures PartShifted(keys[l], cells, s, begin, offset, |cells|) == keys[l] {
      forall i | 0 <= i < |cells| && Hit(cells[i], s, begin) ensures offset == 0 {
        assert Stores(cells, i, s);
      }
    }
  }

  lemma NothingRefused(cells: seq<Cell>, r: Range, size: int, layers: set<int>, refuses: set<(int, int)>, s: int, begin: int)
    requires 0 < size && forall i :: !Stores(cells, i, s)
    ensures !Refused(cells, r, size, layers, refuses, s, begin)
  {
    forall l, at | l in layers && (l, at) in refuses ensures !Leads(cells, r, size, s, begin, at) {
      assert !Stores(cells, at, s);
    }
  }

  lemma HullHolds(cells: seq<Cell>, s: int)
    requires |cells| <= MAX_INT && Hull(cells, s, 0, |cells|) != NEW_RANGE
    ensures exists i :: Stores(cells, i, s)
  {
    HullMeaning(cells, s, 0, |cells|);
  }

  lemma HullEmpty(cells: seq<Cell>, s: int)
    requires CellsOk(cells) && |cells| <= MAX_INT && Hull(cells, s, 0, |cells|) == NEW_RANGE
    ensures forall i :: !Stores(cells, i, s)
  {
    HullMeaning(cells, s, 0, |cells|);
    forall i ensures !Stores(cells, i, s) {
      if Stores(cells, i, s) {
        PosOk(cells, i);
        assert Within(cells, i, s, 0);
      }
    }
  }
}
