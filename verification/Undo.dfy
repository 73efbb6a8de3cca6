/** What undoing a started pass by tail removals leaves of a cache. */
module Undo {
  import opened CacheModel
  import opened Forward
  import opened Sharing
  import opened Ranges
  import opened Rows
  import opened Rotation

  /** The removals WrapperCache issues for the first k batch entries. */
  function UndoSteps(m: Model, b: Batch, k: nat): Model
    requires ShapedBatch(b) && k <= |b.positions|
  {
    if k == 0 then m else RemoveStep(UndoSteps(m, b, k - 1), b.sequences[k - 1], b.positions[k - 1], MAX_INT32)
  }

  /** m holds what before held, less what before's own window rule has evicted for the batch, of every
      sequence that had not been damaged already. */
  ghost predicate OnlyEvicted(cfg: Config, before: Model, b: Batch, m: Model, damaged: set<int>) {
    && ShapedBatch(b)
    && forall s :: s !in damaged ==> SameButEvicted(cfg, before, b, m, s)
  }

  ghost predicate SameButEvicted(cfg: Config, before: Model, b: Batch, m: Model, s: int)
    requires ShapedBatch(b)
  {
    && Hist(m.hist, s) == Hist(before.hist, s)
    && forall q :: Holds(m.cells, s, q) <==> Holds(Evicted(cfg, before, b).cells, s, q)
  }

  /** Sequence s part of the way through the undoing. */
  ghost predicate Undone(before: Model, started: Model, b: Batch, k: nat, m: Model, s: int) {
    && SeqOk(m, s)
    && Hist(m.hist, s) == (if InBatch(b, k, s) then Hist(before.hist, s) else Hist(started.hist, s))
    && forall q :: Holds(m.cells, s, q) <==>
         Holds(started.cells, s, q) && (InBatch(b, k, s) ==> q < |Hist(before.hist, s)|)
  }

  lemma UndoOne(before: Model, started: Model, b: Batch, k: nat, m: Model, s: int)
    requires Continues(before.hist, b) && k < |b.positions| && HistOk(started.hist) && HistOk(before.hist) && Int32Positions(b)
    requires started.hist == Appended(before.hist, b, |b.positions|)
    requires Undone(before, started, b, k, m, s) && s == b.sequences[k]
    ensures Undone(before, started, b, k + 1, RemoveStep(m, s, b.positions[k], MAX_INT32), s)
  {
    var n := |Hist(before.hist, s)|;
    assert ContinuesAt(before.hist, b, k);
    AppendedGrows(before.hist, b, k, s);
    AppendedGrows(before.hist, b, |b.positions|, s);
    assert InBatch(b, k + 1, s) && InBatch(b, |b.positions|, s);
    assert |Hist(before.hist, s)| <= MAX_INT32 && |Hist(started.hist, s)| <= MAX_INT32;
    assert n <= b.positions[k] && (!InBatch(b, k, s) ==> b.positions[k] == n);
    RemoveEffect(m, s, b.positions[k], MAX_INT32);
    assert Cut(Hist(m.hist, s), b.positions[k], MAX_INT32) == Hist(before.hist, s);
  }

  lemma UndoOther(before: Model, started: Model, b: Batch, k: nat, m: Model, s: int)
    requires ShapedBatch(b) && Int32Positions(b) && k < |b.positions| && s != b.sequences[k]
    requires CellsOk(m.cells) && Undone(before, started, b, k, m, s)
    ensures Undone(before, started, b, k + 1, RemoveStep(m, b.sequences[k], b.positions[k], MAX_INT32), s)
  {
    var r, p := b.sequences[k], b.positions[k];
    var next := RemoveStep(m, r, p, MAX_INT32);
    forall i | 0 <= i < |m.cells| ensures !Moves(m.cells[i], r, p, MAX_INT32) {
      PosOk(m.cells, i);
    }
    RemoveFrame(m, next.hist, |m.cells|, r, p, MAX_INT32, s);
    SameViewKeeps(m, next, s);
    assert InBatch(b, k + 1, s) <==> InBatch(b, k, s);
  }

  lemma {:induction false} UndoKeeps(before: Model, started: Model, b: Batch, k: nat, s: int)
    requires Continues(before.hist, b) && Int32Positions(b) && k <= |b.positions|
    requires HistOk(before.hist) && HistOk(started.hist)
    requires started.hist == Appended(before.hist, b, |b.positions|)
    requires SeqOk(started, s) && CellsOk(started.cells)
    ensures Undone(before, started, b, k, UndoSteps(started, b, k), s)
    ensures CellsOk(UndoSteps(started, b, k).cells)
  {
    hide Undone, CellsOk, HistOk, RemoveStep, SeqOk;
    if k == 0 {
      UndoStart(before, started, b, s);
    } else {
      UndoKeeps(before, started, b, k - 1, s);
      var m := UndoSteps(started, b, k - 1);
      RemoveStepOk(m, b.sequences[k - 1], b.positions[k - 1]);
      if s == b.sequences[k - 1] {
        UndoOne(before, started, b, k - 1, m, s);
      } else {
        UndoOther(before, started, b, k - 1, m, s);
      }
    }
  }

  lemma UndoStart(before: Model, started: Model, b: Batch, s: int)
    requires SeqOk(started, s)
    ensures Undone(before, started, b, 0, started, s)
  {
  }

  lemma RemoveStepOk(m: Model, s: int, p: int)
    requires CellsOk(m.cells) && 0 <= p < MAX_INT32
    ensures CellsOk(RemoveStep(m, s, p, MAX_INT32).cells)
  {
    RemoveCellsOk(m.cells, |m.cells|, s, p, MAX_INT32);
  }

  /** Starting a pass and undoing it leaves every undamaged sequence with its history, and with the
      positions it held less the ones its memory let go. */
  lemma UndoRestores(cfg: Config, before: Model, b: Batch, damaged: set<int>)
    requires Continues(before.hist, b) && Int32Positions(b) && HistOk(before.hist)
    requires |before.cells| == |before.content|
    requires forall t :: t !in damaged ==> SeqOk(before, t)
    requires ForwardStep(cfg, before, b).Some? && CellsOk(ForwardStep(cfg, before, b).value.cells)
    ensures OnlyEvicted(cfg, before, b, UndoSteps(ForwardStep(cfg, before, b).value, b, |b.positions|), damaged)
  {
    var started := ForwardStep(cfg, before, b).value;
    AppendedOk(before.hist, b, |b.positions|);
    var m := UndoSteps(started, b, |b.positions|);
    forall s | s !in damaged ensures SameButEvicted(cfg, before, b, m, s) {
      assert SeqOk(before, s);
      ForwardEffect(cfg, before, b, s);
      UndoKeeps(before, started, b, |b.positions|, s);
      EvictedKeeps(cfg, before, b, s);
      AppendedGrows(before.hist, b, |b.positions|, s);
    }
  }

  /** The last position of a sequence survives: caches that agreed on it still do. */
  lemma LastPositionSurvives(cfg: Config, before: Model, b: Batch, m: Model, damaged: set<int>, s: int)
    requires ValidConfig(cfg) && Continues(before.hist, b) && SeqOk(before, s)
    requires OnlyEvicted(cfg, before, b, m, damaged) && s !in damaged
    ensures |Hist(m.hist, s)| == |Hist(before.hist, s)|
    ensures Holds(m.cells, s, |Hist(m.hist, s)| - 1) <==> Holds(before.cells, s, |Hist(before.hist, s)| - 1)
  {
    assert SameButEvicted(cfg, before, b, m, s);
    EvictedKeeps(cfg, before, b, s);
  }

  lemma TailShrinks(m: Model, s: int, p: int, i: int, t: int)
    requires Stores(RemoveStep(m, s, p, MAX_INT32).cells, i, t)
    ensures Stores(m.cells, i, t)
    ensures p <= MAX_INT32 ==> RemoveStep(m, s, p, MAX_INT32).cells[i].pos == m.cells[i].pos
  {
  }

  lemma {:induction false} UndoShrinks(m: Model, b: Batch, k: nat, i: int, s: int)
    requires ShapedBatch(b) && Int32Positions(b) && k <= |b.positions|
    requires Stores(UndoSteps(m, b, k).cells, i, s)
    ensures Stores(m.cells, i, s) && UndoSteps(m, b, k).cells[i].pos == m.cells[i].pos
  {
    hide RemoveStep;
    if k > 0 {
      TailShrinks(UndoSteps(m, b, k - 1), b.sequences[k - 1], b.positions[k - 1], i, s);
      UndoShrinks(m, b, k - 1, i, s);
    }
  }

  /** The undoing takes from each sequence of the batch every mark at or behind its positions. */
  lemma {:induction false} UndoGone(m: Model, b: Batch, k: nat, j: nat, i: int, s: int)
    requires ShapedBatch(b) && Int32Positions(b) && j < k <= |b.positions| && s == b.sequences[j]
    requires Stores(UndoSteps(m, b, k).cells, i, s)
    ensures UndoSteps(m, b, k).cells[i].pos < b.positions[j] || MAX_INT32 <= UndoSteps(m, b, k).cells[i].pos
  {
    hide RemoveStep;
    TailShrinks(UndoSteps(m, b, k - 1), b.sequences[k - 1], b.positions[k - 1], i, s);
    if j < k - 1 {
      UndoGone(m, b, k - 1, j, i, s);
    } else {
      TailGone(UndoSteps(m, b, k - 1), s, b.positions[j], i);
    }
  }

  lemma TailGone(m: Model, s: int, p: int, i: int)
    requires 0 <= p <= MAX_INT32 && Stores(RemoveStep(m, s, p, MAX_INT32).cells, i, s)
    ensures m.cells[i].pos < p || MAX_INT32 <= m.cells[i].pos
  {
  }

  /** The cells of the undone pass are free again, so no row is waiting to be written. */
  lemma UndoSettles(started: Model, b: Batch, locs: seq<int>, unwritten: set<int>)
    requires ShapedBatch(b) && Int32Positions(b) && StoredAt(started, b, locs)
    ensures Settled(UndoSteps(started, b, |b.positions|).cells, locs, unwritten)
  {
    hide RemoveStep, StoredAt;
    var m := UndoSteps(started, b, |b.positions|);
    forall i, s | i in locs ensures !Stores(m.cells, i, s) {
      if Stores(m.cells, i, s) {
        UndoShrinks(started, b, |b.positions|, i, s);
        PassCell(started, b, locs, i, s);
        var k :| 0 <= k < |b.positions| && s == b.sequences[k] && started.cells[i].pos == b.positions[k];
        UndoGone(started, b, |b.positions|, k, i, s);
      }
    }
  }

  /** A cell of a started pass is stored by its own entry only. */
  lemma PassCell(started: Model, b: Batch, locs: seq<int>, i: int, s: int)
    requires StoredAt(started, b, locs) && ShapedBatch(b) && i in locs && Stores(started.cells, i, s)
    ensures exists k :: 0 <= k < |b.positions| && s == b.sequences[k] && started.cells[i].pos == b.positions[k]
  {
    var k :| 0 <= k < |locs| && locs[k] == i;
    assert s == b.sequences[k];
  }
}
