/** The cache Init allocates is large enough: the shared cells are counted by a union bound
    over what each sequence can still hold. */
module Capacity {
  import opened Tokens
  import opened CacheModel
  import opened Forward
  import opened Arithmetic

  /** The number of cells Init allocates, before padding. */
  function CacheSize(cfg: Config, maxSequences: nat, capacity: nat, maxBatch: nat): int {
    if cfg.memory == MAX_INT32 then maxSequences * capacity
    else maxSequences * cfg.memory + maxBatch
  }

  function CellsOf(cells: seq<Cell>, s: int): set<int> {
    set i | 0 <= i < |cells| && s in cells[i].sequences
  }

  function Occupied(cells: seq<Cell>, k: nat): set<int>
    requires k <= |cells|
  {
    set i | 0 <= i < k && cells[i].sequences != []
  }

  function Covered(cells: seq<Cell>, live: set<int>): set<int> {
    set i | 0 <= i < |cells| && exists s :: s in live && s in cells[i].sequences
  }

  lemma {:induction false} FreeCount(cells: seq<Cell>, k: nat)
    requires k <= |cells|
    ensures |FreeLocs(cells, k)| == k - |Occupied(cells, k)|
  {
    if k > 0 {
      FreeCount(cells, k - 1);
      if cells[k - 1].sequences == [] {
        assert Occupied(cells, k) == Occupied(cells, k - 1);
      } else {
        assert Occupied(cells, k) == Occupied(cells, k - 1) + {k - 1};
      }
    } else {
      assert Occupied(cells, k) == {};
    }
  }

  /** Cells with distinct positions from an interval are no more than the interval holds. */
  lemma {:induction false} DistinctPositions(cells: seq<Cell>, at: set<int>, lo: int, n: nat)
    requires forall i :: i in at ==> 0 <= i < |cells| && lo <= cells[i].pos < lo + n
    requires forall i, j :: i in at && j in at && cells[i].pos == cells[j].pos ==> i == j
    ensures |at| <= n
  {
    if n == 0 {
      forall i ensures i !in at {}
      assert at == {};
    } else if i :| i in at && cells[i].pos == lo + n - 1 {
      DistinctPositions(cells, at - {i}, lo, n - 1);
    } else {
      DistinctPositions(cells, at, lo, n - 1);
    }
  }

  lemma {:induction false} UnionBound(cells: seq<Cell>, live: set<int>, bound: nat)
    requires forall s :: s in live ==> |CellsOf(cells, s)| <= bound
    ensures |Covered(cells, live)| <= |live| * bound
  {
    if s :| s in live {
      var rest := live - {s};
      UnionBound(cells, rest, bound);
      assert Covered(cells, live) == Covered(cells, rest) + CellsOf(cells, s);
      assert live == rest + {s};
      MulStep(|rest|, bound);
    } else {
      assert Covered(cells, live) == {};
    }
  }

  /** If every live sequence stores positions from an interval of at most bound, at most
      live * bound cells are occupied, however they are shared. */
  lemma OccupiedBound(m: Model, lo: map<int, int>, bound: nat)
    requires forall s :: SeqOk(m, s)
    requires lo.Keys == m.hist.Keys
    requires forall s, q :: s in m.hist && Holds(m.cells, s, q) ==> lo[s] <= q < lo[s] + bound
    ensures |Occupied(m.cells, |m.cells|)| <= |m.hist| * bound
  {
    forall s | s in m.hist.Keys ensures |CellsOf(m.cells, s)| <= bound {
      assert SeqOk(m, s);
      forall i | i in CellsOf(m.cells, s) ensures lo[s] <= m.cells[i].pos < lo[s] + bound {
        assert Stores(m.cells, i, s);
        assert Holds(m.cells, s, m.cells[i].pos);
      }
      assert forall i, j :: i in CellsOf(m.cells, s) && j in CellsOf(m.cells, s) && m.cells[i].pos == m.cells[j].pos ==>
          Stores(m.cells, i, s) && Stores(m.cells, j, s);
      DistinctPositions(m.cells, CellsOf(m.cells, s), lo[s], bound);
    }
    UnionBound(m.cells, m.hist.Keys, bound);
    forall i | i in Occupied(m.cells, |m.cells|) ensures i in Covered(m.cells, m.hist.Keys) {
      var s := m.cells[i].sequences[0];
      assert SeqOk(m, s) && Stores(m.cells, i, s);
    }
    SubsetSize(Occupied(m.cells, |m.cells|), Covered(m.cells, m.hist.Keys));
  }

  lemma {:induction false} SubsetSize(a: set<int>, b: set<int>)
    requires a <= b
    ensures |a| <= |b|
  {
    if x :| x in a {
      SubsetSize(a - {x}, b - {x});
    } else {
      forall x ensures x !in a {}
      assert a == {};
    }
  }

  /** After eviction every sequence is left with positions its memory covers. */
  lemma EvictedBound(cfg: Config, m: Model, b: Batch)
    requires ValidConfig(cfg) && cfg.memory != MAX_INT32
    requires Continues(m.hist, b)
    requires forall s :: SeqOk(m, s)
    ensures |Occupied(Evicted(cfg, m, b).cells, |m.cells|)| <= |m.hist| * cfg.memory
  {
    var e := Evicted(cfg, m, b);
    var lo := map s | s in m.hist.Keys :: |Hist(m.hist, s)| - cfg.memory;
    forall s ensures SeqOk(e, s) {
      assert SeqOk(m, s);
      EvictedKeeps(cfg, m, b, s);
    }
    forall s, q | s in e.hist && Holds(e.cells, s, q) ensures lo[s] <= q < lo[s] + cfg.memory {
      assert SeqOk(m, s) && SeqOk(e, s);
      EvictedKeeps(cfg, m, b, s);
    }
    OccupiedBound(e, lo, cfg.memory);
  }

  lemma WindowedCapacity(cfg: Config, m: Model, b: Batch, maxSequences: nat, maxBatch: nat)
    requires ValidConfig(cfg) && cfg.memory != MAX_INT32
    requires Continues(m.hist, b) && |b.positions| <= maxBatch
    requires forall s :: SeqOk(m, s)
    requires |m.hist| <= maxSequences
    requires maxSequences * cfg.memory + maxBatch <= |m.cells|
    ensures ForwardStep(cfg, m, b).Some?
  {
    EvictedBound(cfg, m, b);
    FreeCount(Evicted(cfg, m, b).cells, |m.cells|);
    MulMono(|m.hist|, maxSequences, cfg.memory);
  }

  // ---------- unlimited memory ----------

  /** The model with n more free cells. */
  function Widened(m: Model, t: Token, n: nat): Model {
    Model(m.cells + seq(n, i => Cell(0, [])), m.content + seq(n, i => t), m.hist)
  }

  function NewLocs(m: Model, n: nat): seq<int> {
    seq(n, i => |m.cells| + i)
  }

  lemma WidenedKeeps(m: Model, t: Token, n: nat, s: int)
    requires SeqOk(m, s)
    ensures SeqOk(Widened(m, t, n), s)
    ensures FreshLocs(Widened(m, t, n).cells, NewLocs(m, n))
  {
    var w := Widened(m, t, n);
    assert forall i :: Stores(w.cells, i, s) <==> Stores(m.cells, i, s);
    forall i, q | Stores(w.cells, i, s) && w.cells[i].pos <= q < |Hist(m.hist, s)| ensures Holds(w.cells, s, q) {
      assert Holds(m.cells, s, q);
      var j :| Stores(m.cells, j, s) && m.cells[j].pos == q;
      assert Stores(w.cells, j, s);
    }
  }

  /** Storing the batch in new cells occupies as many more. */
  lemma WidenedOccupied(m: Model, b: Batch)
    requires Continues(m.hist, b) && |m.content| == |m.cells|
    requires FreshLocs(Widened(m, b.tokens[0], |b.positions|).cells, NewLocs(m, |b.positions|))
    ensures var n := |b.positions|;
            var w := Placed(Widened(m, b.tokens[0], n), b, NewLocs(m, n), n);
      |Occupied(m.cells, |m.cells|)| + n <= |Occupied(w.cells, |w.cells|)|
  {
    var n := |b.positions|;
    var d := Widened(m, b.tokens[0], n);
    var w := Placed(d, b, NewLocs(m, n), n);
    forall i | i in Occupied(m.cells, |m.cells|) ensures i in Occupied(w.cells, |w.cells|) {
      PlacedElsewhere(d, b, NewLocs(m, n), n, i);
    }
    var added := Interval(|m.cells|, n);
    forall i | i in added ensures i in Occupied(w.cells, |w.cells|) {
      PlacedHere(d, b, NewLocs(m, n), n, i - |m.cells|);
    }
    assert |Occupied(m.cells, |m.cells|) + added| == |Occupied(m.cells, |m.cells|)| + n by {
      assert Occupied(m.cells, |m.cells|) * added == {};
    }
    SubsetSize(Occupied(m.cells, |m.cells|) + added, Occupied(w.cells, |w.cells|));
  }

  function Interval(lo: int, n: nat): (r: set<int>)
    ensures forall i :: i in r <==> lo <= i < lo + n
    ensures |r| == n
  {
    if n == 0 then {} else Interval(lo, n - 1) + {lo + n - 1}
  }

  lemma UnlimitedCapacity(m: Model, b: Batch, maxSequences: nat, capacity: nat)
    requires Continues(m.hist, b)
    requires forall s :: SeqOk(m, s)
    requires |Appended(m.hist, b, |b.positions|)| <= maxSequences
    requires forall s :: |Hist(Appended(m.hist, b, |b.positions|), s)| <= capacity
    requires maxSequences * capacity <= |m.cells|
    ensures FindLocs(m.cells, |b.positions|).Some?
  {
    var n := |b.positions|;
    var d, locs := Widened(m, b.tokens[0], n), NewLocs(m, n);
    var w := Placed(d, b, locs, n);
    assert SeqOk(m, b.sequences[0]);
    WidenedKeeps(m, b.tokens[0], n, b.sequences[0]);
    PlacedElsewhere(d, b, locs, n, 0);
    forall s ensures SeqOk(w, s) {
      assert SeqOk(m, s);
      WidenedKeeps(m, b.tokens[0], n, s);
      PlacedKeeps(d, b, locs, n, s);
    }
    forall s, q | s in w.hist && Holds(w.cells, s, q) ensures 0 <= q < 0 + capacity {
      assert SeqOk(w, s);
    }
    OccupiedBound(w, map s | s in w.hist.Keys :: 0, capacity);
    WidenedOccupied(m, b);
    FreeCount(m.cells, |m.cells|);
    MulMono(|w.hist|, maxSequences, capacity);
  }

  /** StartForward never reports a full cache while the caller keeps to what it told Init:
      at most maxSequences sequences, batches of at most maxBatch and, when nothing is ever
      evicted, at most capacity tokens a sequence. */
  lemma CapacitySuffices(cfg: Config, m: Model, b: Batch, maxSequences: nat, capacity: nat, maxBatch: nat)
    requires ValidConfig(cfg) && Continues(m.hist, b) && |b.positions| <= maxBatch
    requires forall s :: SeqOk(m, s)
    requires |Appended(m.hist, b, |b.positions|)| <= maxSequences
    requires cfg.memory == MAX_INT32 ==> forall s :: |Hist(Appended(m.hist, b, |b.positions|), s)| <= capacity
    requires CacheSize(cfg, maxSequences, capacity, maxBatch) <= |m.cells|
    ensures ForwardStep(cfg, m, b).Some?
  {
    if cfg.memory == MAX_INT32 {
      UnlimitedCapacity(m, b, maxSequences, capacity);
    } else {
      AppendedKeys(m.hist, b, |b.positions|);
      SubsetSize(m.hist.Keys, Appended(m.hist, b, |b.positions|).Keys);
      WindowedCapacity(cfg, m, b, maxSequences, maxBatch);
    }
  }

  lemma {:induction false} AppendedKeys(hist: map<int, seq<Token>>, b: Batch, k: nat)
    requires ShapedBatch(b) && k <= |b.positions|
    ensures hist.Keys <= Appended(hist, b, k).Keys
  {
    if k > 0 {
      AppendedKeys(hist, b, k - 1);
    }
  }
}
