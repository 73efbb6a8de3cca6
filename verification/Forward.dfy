/** What StartForward does to the model: evict beyond the window memory, find free cells,
    store the batch. The lemmas give its effect sequence by sequence. */
module Forward {
  import opened Wrappers
  import opened Tokens
  import opened CacheModel
  import opened Eviction

  /** window, memory and chunk as Init leaves them; memory MAX_INT32 means nothing is evicted. */
  datatype Config = Config(window: int, memory: int, chunk: int)

  predicate ValidConfig(cfg: Config) {
    0 < cfg.window <= cfg.memory <= MAX_INT32
  }

  // ---------- free cells ----------

  /** The free locations among the first k cells, in order. */
  function FreeLocs(cells: seq<Cell>, k: nat): (r: seq<int>)
    requires k <= |cells|
    ensures forall j :: 0 <= j < |r| ==> 0 <= r[j] < k && cells[r[j]].sequences == []
    ensures forall i, j :: 0 <= i < j < |r| ==> r[i] < r[j]
  {
    if k == 0 then []
    else if cells[k - 1].sequences == [] then FreeLocs(cells, k - 1) + [k - 1]
    else FreeLocs(cells, k - 1)
  }

  lemma {:induction false} FreeLocsPrefix(cells: seq<Cell>, k: nat, n: nat)
    requires k <= n <= |cells|
    ensures FreeLocs(cells, k) <= FreeLocs(cells, n)
  {
    if k < n {
      FreeLocsPrefix(cells, k, n - 1);
    }
  }

  ghost predicate FreshLocs(cells: seq<Cell>, locs: seq<int>) {
    && (forall j :: 0 <= j < |locs| ==> 0 <= locs[j] < |cells| && cells[locs[j]].sequences == [])
    && (forall i, j :: 0 <= i < j < |locs| ==> locs[i] != locs[j])
  }

  /** The first n free locations, or None when there are fewer. */
  function FindLocs(cells: seq<Cell>, n: nat): (r: Option<seq<int>>)
    ensures r.Some? ==> |r.value| == n && FreshLocs(cells, r.value)
  {
    var free := FreeLocs(cells, |cells|);
    if n <= |free| then Some(free[..n]) else None
  }

  lemma {:induction false} FreeLocsAll(cells: seq<Cell>, k: nat, i: nat)
    requires i < k <= |cells| && cells[i].sequences == []
    ensures i in FreeLocs(cells, k)
  {
    if i < k - 1 {
      FreeLocsAll(cells, k - 1, i);
    }
  }

  /** The cells found are the first free ones, from the lowest up: no free cell below one of them is
      passed over. None are found only when there are fewer free cells than asked for. */
  lemma FoundFirst(cells: seq<Cell>, n: nat)
    ensures FindLocs(cells, n).Some? ==>
              var locs := FindLocs(cells, n).value;
              && (forall i, j :: 0 <= i < j < n ==> locs[i] < locs[j])
              && forall i, j :: 0 <= j < n && 0 <= i < locs[j] && cells[i].sequences == [] ==> i in locs
    ensures FindLocs(cells, n).None? <==> |set i | 0 <= i < |cells| && cells[i].sequences == []| < n
  {
    var free := FreeLocs(cells, |cells|);
    if n <= |free| {
      forall i, j | 0 <= j < n && 0 <= i < free[..n][j] && cells[i].sequences == [] ensures i in free[..n] {
        FreeLocsAll(cells, |cells|, i);
        var x :| 0 <= x < |free| && free[x] == i;
        assert x < j && free[..n][x] == i;
      }
    }
    hide FreeLocs;
    FreeLocsSize(cells);
  }

  lemma FreeLocsSize(cells: seq<Cell>)
    ensures |set i | 0 <= i < |cells| && cells[i].sequences == []| == |FreeLocs(cells, |cells|)|
  {
    var free := FreeLocs(cells, |cells|);
    forall i | 0 <= i < |cells| && cells[i].sequences == [] ensures i in free {
      FreeLocsAll(cells, |cells|, i);
    }
    hide FreeLocs;
    assert (set i | 0 <= i < |cells| && cells[i].sequences == []) == set i | i in free;
    IncreasingSize(free);
  }

  lemma {:induction false} IncreasingSize(xs: seq<int>)
    requires forall i, j :: 0 <= i < j < |xs| ==> xs[i] < xs[j]
    ensures |set x | x in xs| == |xs|
  {
    if xs != [] {
      var n := |xs| - 1;
      IncreasingSize(xs[..n]);
      assert xs == xs[..n] + [xs[n]];
      assert (set x | x in xs) == (set x | x in xs[..n]) + {xs[n]};
    }
  }

  // ---------- storing a batch ----------

  function WriteOne(m: Model, i: int, p: int, s: int, t: Token): Model
    requires 0 <= i < |m.cells| == |m.content|
  {
    Model(m.cells[i := Cell(p, [s])], m.content[i := t], SetHist(m.hist, s, Hist(m.hist, s) + [t]))
  }

  function Placed(m: Model, b: Batch, locs: seq<int>, k: nat): (r: Model)
    requires ShapedBatch(b) && k <= |b.positions| == |locs|
    requires |m.cells| == |m.content|
    requires forall j :: 0 <= j < |locs| ==> 0 <= locs[j] < |m.cells|
    ensures |r.cells| == |r.content| == |m.cells|
  {
    if k == 0 then m
    else WriteOne(Placed(m, b, locs, k - 1), locs[k - 1], b.positions[k - 1], b.sequences[k - 1], b.tokens[k - 1])
  }

  lemma WriteOneKeeps(m: Model, i: int, s: int, t: Token, u: int)
    requires 0 <= i < |m.cells| == |m.content| && m.cells[i].sequences == []
    requires SeqOk(m, u)
    ensures SeqOk(WriteOne(m, i, |Hist(m.hist, s)|, s, t), u)
    ensures forall q :: Holds(WriteOne(m, i, |Hist(m.hist, s)|, s, t).cells, u, q) <==>
              Holds(m.cells, u, q) || (u == s && q == |Hist(m.hist, s)|)
  {
    var n := |Hist(m.hist, s)|;
    var w := WriteOne(m, i, n, s, t);
    assert forall j :: Stores(w.cells, j, u) <==> Stores(m.cells, j, u) || (j == i && u == s);
    WriteOneHolds(m, i, s, t, u);
  }

  lemma WriteOneHolds(m: Model, i: int, s: int, t: Token, u: int)
    requires 0 <= i < |m.cells| == |m.content| && m.cells[i].sequences == []
    ensures forall q :: Holds(WriteOne(m, i, |Hist(m.hist, s)|, s, t).cells, u, q) <==>
              Holds(m.cells, u, q) || (u == s && q == |Hist(m.hist, s)|)
  {
    var n := |Hist(m.hist, s)|;
    var w := WriteOne(m, i, n, s, t);
    assert forall j :: Stores(w.cells, j, u) <==> Stores(m.cells, j, u) || (j == i && u == s);
    forall q ensures Holds(w.cells, u, q) <==> Holds(m.cells, u, q) || (u == s && q == n) {
      if Holds(m.cells, u, q) {
        var j :| Stores(m.cells, j, u) && m.cells[j].pos == q;
        assert Stores(w.cells, j, u);
      }
      if u == s && q == n {
        assert Stores(w.cells, i, s);
      }
    }
  }

  /** Location i receives one of the first k batch entries. */
  ghost predicate Used(locs: seq<int>, k: nat, i: int) {
    exists j :: 0 <= j < k && j < |locs| && locs[j] == i
  }

  lemma {:induction false} PlacedElsewhere(m: Model, b: Batch, locs: seq<int>, k: nat, i: int)
    requires ShapedBatch(b) && k <= |b.positions| == |locs|
    requires |m.cells| == |m.content| && FreshLocs(m.cells, locs)
    ensures Placed(m, b, locs, k).hist == Appended(m.hist, b, k)
    ensures 0 <= i < |m.cells| && !Used(locs, k, i) ==>
              Placed(m, b, locs, k).cells[i] == m.cells[i] && Placed(m, b, locs, k).content[i] == m.content[i]
  {
    if k > 0 {
      PlacedElsewhere(m, b, locs, k - 1, i);
      assert !Used(locs, k, i) ==> !Used(locs, k - 1, i) && locs[k - 1] != i;
    }
  }

  lemma {:induction false} PlacedHere(m: Model, b: Batch, locs: seq<int>, k: nat, j: nat)
    requires ShapedBatch(b) && j < k <= |b.positions| == |locs|
    requires |m.cells| == |m.content| && FreshLocs(m.cells, locs)
    ensures Placed(m, b, locs, k).cells[locs[j]] == Cell(b.positions[j], [b.sequences[j]])
    ensures Placed(m, b, locs, k).content[locs[j]] == b.tokens[j]
  {
    if j < k - 1 {
      PlacedHere(m, b, locs, k - 1, j);
    }
  }

  /** The stored positions of s once k batch entries are in place. */
  ghost predicate HoldsPlaced(m: Model, b: Batch, locs: seq<int>, k: nat, s: int, q: int)
    requires ShapedBatch(b) && k <= |b.positions| == |locs|
    requires |m.cells| == |m.content| && FreshLocs(m.cells, locs)
  {
    Holds(Placed(m, b, locs, k).cells, s, q) <==>
      Holds(m.cells, s, q) || |Hist(m.hist, s)| <= q < |Hist(Appended(m.hist, b, k), s)|
  }

  lemma PlacedStep(m: Model, b: Batch, locs: seq<int>, k: nat, s: int)
    requires Continues(m.hist, b) && k < |b.positions| == |locs|
    requires |m.cells| == |m.content| && FreshLocs(m.cells, locs)
    requires SeqOk(Placed(m, b, locs, k), s)
    ensures SeqOk(Placed(m, b, locs, k + 1), s)
    ensures forall q :: Holds(Placed(m, b, locs, k + 1).cells, s, q) <==>
              || Holds(Placed(m, b, locs, k).cells, s, q)
              || (s == b.sequences[k] && q == |Hist(Appended(m.hist, b, k), s)|)
  {
    PlacedElsewhere(m, b, locs, k, locs[k]);
    assert ContinuesAt(m.hist, b, k);
    WriteOneKeeps(Placed(m, b, locs, k), locs[k], b.sequences[k], b.tokens[k], s);
  }

  lemma {:induction false} PlacedKeeps(m: Model, b: Batch, locs: seq<int>, k: nat, s: int)
    requires Continues(m.hist, b) && k <= |b.positions| == |locs|
    requires |m.cells| == |m.content| && SeqOk(m, s) && FreshLocs(m.cells, locs)
    ensures SeqOk(Placed(m, b, locs, k), s)
    ensures forall q :: HoldsPlaced(m, b, locs, k, s, q)
  {
    hide SeqOk, FreshLocs, ContinuesAt, Appended, HoldsPlaced, WriteOne;
    if k > 0 {
      PlacedKeeps(m, b, locs, k - 1, s);
      PlacedStep(m, b, locs, k - 1, s);
      forall q ensures HoldsPlaced(m, b, locs, k, s, q) {
        HoldsMore(m, b, locs, k - 1, s, q);
      }
    } else {
      forall q ensures HoldsPlaced(m, b, locs, k, s, q) {
        HoldsNone(m, b, locs, s, q);
      }
    }
  }

  lemma HoldsNone(m: Model, b: Batch, locs: seq<int>, s: int, q: int)
    requires ShapedBatch(b) && |b.positions| == |locs| && |m.cells| == |m.content| && FreshLocs(m.cells, locs)
    ensures HoldsPlaced(m, b, locs, 0, s, q)
  {
  }

  lemma HoldsMore(m: Model, b: Batch, locs: seq<int>, k: nat, s: int, q: int)
    requires ShapedBatch(b) && k < |b.positions| == |locs| && |m.cells| == |m.content| && FreshLocs(m.cells, locs)
    requires HoldsPlaced(m, b, locs, k, s, q)
    requires Holds(Placed(m, b, locs, k + 1).cells, s, q) <==>
               Holds(Placed(m, b, locs, k).cells, s, q)
               || (s == b.sequences[k] && q == |Hist(Appended(m.hist, b, k), s)|)
    ensures HoldsPlaced(m, b, locs, k + 1, s, q)
  {
    hide Holds, Placed, FreshLocs;
    AppendedStep(m.hist, b, k, s);
    AppendedGrows(m.hist, b, k, s);
  }

  // ---------- a whole forward pass ----------

  function StoredSequences(cells: seq<Cell>): set<int> {
    set i, s | 0 <= i < |cells| && s in cells[i].sequences :: s
  }

  function Evicted(cfg: Config, m: Model, b: Batch): Model
    requires ShapedBatch(b)
  {
    if cfg.memory == MAX_INT32 then m
    else
      var known := StoredSequences(m.cells);
      m.(cells := EvictCells(m.cells, Thresholds(m.cells, known, b), known, cfg.memory))
  }

  /** The model after a successful StartForward, None when the cache is full. */
  function ForwardStep(cfg: Config, m: Model, b: Batch): Option<Model>
    requires ShapedBatch(b) && |m.cells| == |m.content|
  {
    var e := Evicted(cfg, m, b);
    var locs := FindLocs(e.cells, |b.positions|);
    if locs.None? then None else Some(Placed(e, b, locs.value, |b.positions|))
  }

  /** StartForward may leave after behind: the stored batch, or a full cache in which only
      expired positions are gone. */
  ghost predicate ForwardOutcome(cfg: Config, before: Model, b: Batch, ok: bool, after: Model) {
    && ShapedBatch(b) && |before.cells| == |before.content|
    && match ForwardStep(cfg, before, b)
       case None => !ok && after == Evicted(cfg, before, b)
       case Some(m) => ok && after == m
  }

  lemma EvictedKeeps(cfg: Config, m: Model, b: Batch, s: int)
    requires Continues(m.hist, b) && SeqOk(m, s)
    ensures SeqOk(Evicted(cfg, m, b), s)
    ensures forall q :: Holds(Evicted(cfg, m, b).cells, s, q) <==>
              Holds(m.cells, s, q) && (cfg.memory != MAX_INT32 ==> |Hist(m.hist, s)| - cfg.memory <= q)
  {
    if cfg.memory != MAX_INT32 {
      var known := StoredSequences(m.cells);
      var low := Thresholds(m.cells, known, b);
      EvictKeeps(m, low, known, cfg.memory, s);
      if i :| Stores(m.cells, i, s) {
        assert s in m.cells[i].sequences;
        assert s in known;
        ThresholdIsLength(m, known, b, s);
      }
    }
  }

  /** The whole effect of a forward pass on one sequence, stated on positions: what the memory
      still covers stays, the batch's own tokens are added, and nothing else changes. */
  lemma ForwardEffect(cfg: Config, m: Model, b: Batch, s: int)
    requires Continues(m.hist, b) && SeqOk(m, s)
    requires ForwardStep(cfg, m, b).Some?
    ensures var m' := ForwardStep(cfg, m, b).value;
      && m'.hist == Appended(m.hist, b, |b.positions|)
      && SeqOk(m', s)
      && forall q :: Holds(m'.cells, s, q) <==>
           || (Holds(m.cells, s, q) && (cfg.memory != MAX_INT32 ==> |Hist(m.hist, s)| - cfg.memory <= q))
           || |Hist(m.hist, s)| <= q < |Hist(m'.hist, s)|
  {
    var e := Evicted(cfg, m, b);
    var locs := FindLocs(e.cells, |b.positions|).value;
    EvictedKeeps(cfg, m, b, s);
    PlacedElsewhere(e, b, locs, |b.positions|, 0);
    PlacedKeeps(e, b, locs, |b.positions|, s);
    forall q
      ensures Holds(ForwardStep(cfg, m, b).value.cells, s, q) <==>
           || (Holds(m.cells, s, q) && (cfg.memory != MAX_INT32 ==> |Hist(m.hist, s)| - cfg.memory <= q))
           || |Hist(m.hist, s)| <= q < |Hist(Appended(m.hist, b, |b.positions|), s)|
    {
      assert HoldsPlaced(e, b, locs, |b.positions|, s, q);
    }
  }

  // ---------- resuming ----------

  /** Every position from the start of p's window to the end of s is stored. */
  ghost predicate WindowStored(cfg: Config, m: Model, s: int, p: int) {
    forall q :: Max(0, p - cfg.window) <= q < |Hist(m.hist, s)| ==> Holds(m.cells, s, q)
  }

  /** Resumability is inductive: a sequence whose next window is stored, in or out of the
      batch, keeps its next window stored; and one step back too where Init promises it. */
  lemma ResumabilityInductive(cfg: Config, m: Model, b: Batch, s: int)
    requires ValidConfig(cfg) && Continues(m.hist, b) && SeqOk(m, s)
    requires ForwardStep(cfg, m, b).Some?
    ensures WindowStored(cfg, m, s, |Hist(m.hist, s)|) ==>
              var m' := ForwardStep(cfg, m, b).value; WindowStored(cfg, m', s, |Hist(m'.hist, s)|)
    ensures WindowStored(cfg, m, s, |Hist(m.hist, s)| - 1) &&
              (InBatch(b, |b.positions|, s) || cfg.window < cfg.memory) ==>
              var m' := ForwardStep(cfg, m, b).value; WindowStored(cfg, m', s, |Hist(m'.hist, s)| - 1)
  {
    ForwardEffect(cfg, m, b, s);
    AppendedGrows(m.hist, b, |b.positions|, s);
  }
}
