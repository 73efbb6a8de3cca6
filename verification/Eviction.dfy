/** Sliding-window eviction: which cells lose which sequences, and why neither the order of the
    visits nor sharing matters. */
module Eviction {
  import opened Tokens
  import opened CacheModel

  /** The lowest position each sequence has in the first k batch entries. */
  function Lowest(b: Batch, k: nat): map<int, int>
    requires ShapedBatch(b) && k <= |b.positions|
  {
    if k == 0 then map[]
    else
      var low := Lowest(b, k - 1);
      var s, p := b.sequences[k - 1], b.positions[k - 1];
      if s !in low || p < low[s] then low[s := p] else low
  }

  /** The highest position of s in the first k cells, 0 when there is none. */
  function Last(cells: seq<Cell>, s: int, k: nat): (r: int)
    requires k <= |cells|
    ensures 0 <= r
  {
    if k == 0 then 0
    else if s in cells[k - 1].sequences then Max(Last(cells, s, k - 1), cells[k - 1].pos)
    else Last(cells, s, k - 1)
  }

  lemma LastNone(cells: seq<Cell>, s: int)
    ensures Last(cells, s, 0) == 0
  {
  }

  lemma LastStep(cells: seq<Cell>, s: int, k: nat)
    requires k < |cells|
    ensures Last(cells, s, k + 1) == if s in cells[k].sequences then Max(Last(cells, s, k), cells[k].pos) else Last(cells, s, k)
  {
  }

  lemma {:induction false} LastSkips(cells: seq<Cell>, s: int, k: nat, n: nat)
    requires k <= n <= |cells|
    requires forall i :: k <= i < n ==> !Stores(cells, i, s)
    ensures Last(cells, s, k) == Last(cells, s, n)
    decreases n - k
  {
    if k < n {
      assert !Stores(cells, n - 1, s);
      LastSkips(cells, s, k, n - 1);
    }
  }

  /** For every sequence of the batch or of the cache, the position its next token is at. */
  function Thresholds(cells: seq<Cell>, known: set<int>, b: Batch): map<int, int>
    requires ShapedBatch(b)
  {
    var low := Lowest(b, |b.positions|);
    map s | s in low.Keys + known :: if s in low then low[s] else Last(cells, s, |cells|) + 1
  }

  function Expired(c: Cell, low: map<int, int>, done: set<int>, memory: int): set<int> {
    set s | s in c.sequences && s in done && s in low && c.pos < low[s] - memory
  }

  function EvictCell(c: Cell, low: map<int, int>, done: set<int>, memory: int): Cell {
    c.(sequences := Without(c.sequences, Expired(c, low, done, memory)))
  }

  /** Every cell, once the sequences of done have dropped what lies beyond their memory. */
  function EvictCells(cells: seq<Cell>, low: map<int, int>, done: set<int>, memory: int): seq<Cell> {
    seq(|cells|, i requires 0 <= i < |cells| => EvictCell(cells[i], low, done, memory))
  }

  lemma EvictStores(cells: seq<Cell>, low: map<int, int>, done: set<int>, memory: int, s: int)
    ensures var e := EvictCells(cells, low, done, memory);
      && |e| == |cells|
      && (forall i :: 0 <= i < |e| ==> e[i].pos == cells[i].pos)
      && forall i :: Stores(e, i, s) <==>
           Stores(cells, i, s) && !(s in done && s in low && cells[i].pos < low[s] - memory)
  {
  }

  /** What the eviction of s alone leaves of a cell. */
  function DropExpired(c: Cell, s: int, oldest: int): Cell {
    if s in c.sequences && c.pos < oldest then c.(sequences := Without(c.sequences, {s})) else c
  }

  lemma EvictOne(cells: seq<Cell>, low: map<int, int>, s: int, memory: int, i: int)
    requires s in low && 0 <= i < |cells|
    ensures EvictCells(cells, low, {s}, memory)[i] == DropExpired(cells[i], s, low[s] - memory)
  {
    var c := cells[i];
    assert Expired(c, low, {s}, memory) == if s in c.sequences && c.pos < low[s] - memory then {s} else {};
  }

  lemma EvictElsewhere(cells: seq<Cell>, low: map<int, int>, s: int, memory: int)
    requires s in low
    ensures forall i :: 0 <= i < |cells| && !Stores(cells, i, s) ==> EvictCells(cells, low, {s}, memory)[i] == cells[i]
  {
    forall i | 0 <= i < |cells| && !Stores(cells, i, s) ensures EvictCells(cells, low, {s}, memory)[i] == cells[i] {
      EvictOne(cells, low, s, memory, i);
    }
  }

  lemma EvictNone(cells: seq<Cell>, low: map<int, int>, memory: int)
    ensures EvictCells(cells, low, {}, memory) == cells
  {
    forall i | 0 <= i < |cells| ensures EvictCell(cells[i], low, {}, memory) == cells[i] {}
  }

  /** Evicting sequence by sequence, in the given order. */
  function EvictInOrder(cells: seq<Cell>, low: map<int, int>, order: seq<int>, memory: int): seq<Cell>
    decreases |order|
  {
    if order == [] then cells
    else EvictInOrder(EvictCells(cells, low, {order[0]}, memory), low, order[1..], memory)
  }

  lemma EvictTwice(cells: seq<Cell>, low: map<int, int>, a: set<int>, b: set<int>, memory: int)
    ensures EvictCells(EvictCells(cells, low, a, memory), low, b, memory)
         == EvictCells(cells, low, a + b, memory)
  {
    forall i | 0 <= i < |cells|
      ensures EvictCell(EvictCell(cells[i], low, a, memory), low, b, memory) == EvictCell(cells[i], low, a + b, memory)
    {
      var c := cells[i];
      var ea, eb := Expired(c, low, a, memory), Expired(EvictCell(c, low, a, memory), low, b, memory);
      WithoutTwice(c.sequences, ea, eb);
      assert ea + eb == Expired(c, low, a + b, memory);
    }
  }

  /** Go's map order does not matter: any order that visits the same sequences evicts the same cells. */
  lemma {:induction false} EvictionOrderIrrelevant(cells: seq<Cell>, low: map<int, int>, order: seq<int>, memory: int)
    ensures EvictInOrder(cells, low, order, memory) == EvictCells(cells, low, (set s | s in order), memory)
    decreases |order|
  {
    if order == [] {
      EvictNone(cells, low, memory);
    } else {
      EvictionOrderIrrelevant(EvictCells(cells, low, {order[0]}, memory), low, order[1..], memory);
      EvictTwice(cells, low, {order[0]}, (set s | s in order[1..]), memory);
      assert {order[0]} + (set s | s in order[1..]) == set s | s in order by {
        assert order == [order[0]] + order[1..];
      }
    }
  }

  /** Dropping everything of s below a threshold keeps the stored tail a stored tail. */
  lemma EvictKeeps(m: Model, low: map<int, int>, done: set<int>, memory: int, s: int)
    requires SeqOk(m, s)
    ensures SeqOk(m.(cells := EvictCells(m.cells, low, done, memory)), s)
    ensures forall q :: Holds(EvictCells(m.cells, low, done, memory), s, q) <==>
              Holds(m.cells, s, q) && !(s in done && s in low && q < low[s] - memory)
  {
    var e := EvictCells(m.cells, low, done, memory);
    EvictStores(m.cells, low, done, memory, s);
    forall q
      ensures Holds(e, s, q) <==> Holds(m.cells, s, q) && !(s in done && s in low && q < low[s] - memory)
    {
      if Holds(e, s, q) {
        var i :| Stores(e, i, s) && e[i].pos == q;
        assert Stores(m.cells, i, s);
      }
      if Holds(m.cells, s, q) && !(s in done && s in low && q < low[s] - memory) {
        var i :| Stores(m.cells, i, s) && m.cells[i].pos == q;
        assert Stores(e, i, s);
      }
    }
    forall i, j | Stores(e, i, s) && Stores(e, j, s) && e[i].pos == e[j].pos ensures i == j {
      assert Stores(m.cells, i, s) && Stores(m.cells, j, s);
    }
  }

  lemma {:induction false} LowestInBatch(hist: map<int, seq<Token>>, b: Batch, k: nat, s: int)
    requires Continues(hist, b) && k <= |b.positions|
    ensures s in Lowest(b, k) <==> InBatch(b, k, s)
    ensures s in Lowest(b, k) ==> Lowest(b, k)[s] == |Hist(hist, s)|
  {
    if k > 0 {
      LowestInBatch(hist, b, k - 1, s);
      AppendedGrows(hist, b, k - 1, s);
      assert ContinuesAt(hist, b, k - 1);
      assert InBatch(b, k, s) <==> InBatch(b, k - 1, s) || b.sequences[k - 1] == s;
    }
  }

  lemma {:induction false} LastIsHighest(cells: seq<Cell>, s: int, k: nat)
    requires k <= |cells|
    requires forall i :: Stores(cells, i, s) ==> 0 <= cells[i].pos
    ensures forall i :: Stores(cells, i, s) && i < k ==> cells[i].pos <= Last(cells, s, k)
    ensures Last(cells, s, k) == 0 || exists i :: Stores(cells, i, s) && i < k && cells[i].pos == Last(cells, s, k)
  {
    if k > 0 {
      LastIsHighest(cells, s, k - 1);
      assert s in cells[k - 1].sequences ==> Stores(cells, k - 1, s);
    }
  }

  /** The threshold of a sequence that stores anything or is in the batch is its length. */
  lemma ThresholdIsLength(m: Model, known: set<int>, b: Batch, s: int)
    requires Continues(m.hist, b) && SeqOk(m, s)
    requires InBatch(b, |b.sequences|, s) || (s in known && exists i :: Stores(m.cells, i, s))
    ensures s in Thresholds(m.cells, known, b)
    ensures Thresholds(m.cells, known, b)[s] == |Hist(m.hist, s)|
  {
    var n := |b.positions|;
    LowestInBatch(m.hist, b, n, s);
    if !InBatch(b, n, s) {
      LastIsHighest(m.cells, s, |m.cells|);
      var i :| Stores(m.cells, i, s);
      assert Holds(m.cells, s, |Hist(m.hist, s)| - 1);
    }
  }
}
