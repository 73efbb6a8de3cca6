/** The value-level model of the causal cache: cells tagged with a position and the sequences
    that share them, set against the thing the cache stands for, a full token history per
    sequence. The classes are proved against the functions here; the lemmas here say what
    those functions mean. */
module CacheModel {
  import opened Tokens

  const MAX_INT32: int := 0x7fff_ffff
  const MAX_INT: int := 0x7fff_ffff_ffff_ffff

  datatype Cell = Cell(pos: int, sequences: seq<int>)

  datatype Range = Range(min: int, max: int)

  datatype Batch = Batch(positions: seq<int>, sequences: seq<int>, tokens: seq<Token>)

  /** The cells, the token behind each cell, and the full history of every sequence that has one. */
  datatype Model = Model(cells: seq<Cell>, content: seq<Token>, hist: map<int, seq<Token>>)

  const NEW_RANGE := Range(MAX_INT, 0)

  function Min(a: int, b: int): int { if a < b then a else b }

  function Max(a: int, b: int): int { if a < b then b else a }

  /** The visited part of keys after one more round over todo. */
  lemma VisitedStep(keys: set<int>, todo: set<int>, s: int)
    requires s in todo
    ensures keys - (todo - {s}) == if s in keys then (keys - todo) + {s} else keys - todo
  {
  }

  // ---------- histories ----------

  function Hist(hist: map<int, seq<Token>>, s: int): seq<Token> {
    if s in hist then hist[s] else []
  }

  function SetHist(hist: map<int, seq<Token>>, s: int, h: seq<Token>): map<int, seq<Token>> {
    if h == [] then hist - {s} else hist[s := h]
  }

  predicate ShapedBatch(b: Batch) {
    0 < |b.positions| == |b.sequences| == |b.tokens|
  }

  /** Positions are int32 values below the sentinel. */
  ghost predicate Int32Positions(b: Batch) {
    forall k :: 0 <= k < |b.positions| ==> 0 <= b.positions[k] < MAX_INT32
  }

  /** No history is longer than int32 positions can number. */
  ghost predicate HistOk(hist: map<int, seq<Token>>) {
    forall s :: |Hist(hist, s)| <= MAX_INT32
  }

  /** The histories after the first k batch entries have been appended. */
  function Appended(hist: map<int, seq<Token>>, b: Batch, k: nat): map<int, seq<Token>>
    requires ShapedBatch(b) && k <= |b.positions|
  {
    if k == 0 then hist
    else
      var prev := Appended(hist, b, k - 1);
      SetHist(prev, b.sequences[k - 1], Hist(prev, b.sequences[k - 1]) + [b.tokens[k - 1]])
  }

  ghost predicate ContinuesAt(hist: map<int, seq<Token>>, b: Batch, k: nat)
    requires ShapedBatch(b) && k < |b.positions|
  {
    b.positions[k] == |Hist(Appended(hist, b, k), b.sequences[k])|
  }

  /** The caller's side of the contract: every new position continues its sequence. */
  ghost predicate Continues(hist: map<int, seq<Token>>, b: Batch) {
    && ShapedBatch(b)
    && forall k :: 0 <= k < |b.positions| ==> ContinuesAt(hist, b, k)
  }

  /** s is the sequence of one of the first k batch entries. */
  ghost predicate InBatch(b: Batch, k: nat, s: int) {
    exists j :: 0 <= j < k && j < |b.sequences| && b.sequences[j] == s
  }

  lemma AppendedStep(hist: map<int, seq<Token>>, b: Batch, k: nat, s: int)
    requires ShapedBatch(b) && k < |b.positions|
    ensures Hist(Appended(hist, b, k + 1), s)
         == Hist(Appended(hist, b, k), s) + if s == b.sequences[k] then [b.tokens[k]] else []
  {
  }

  lemma {:induction false} AppendedGrows(hist: map<int, seq<Token>>, b: Batch, k: nat, s: int)
    requires ShapedBatch(b) && k <= |b.positions|
    ensures Hist(hist, s) <= Hist(Appended(hist, b, k), s)
    ensures !InBatch(b, k, s) ==> Hist(Appended(hist, b, k), s) == Hist(hist, s)
    ensures InBatch(b, k, s) ==> |Hist(hist, s)| < |Hist(Appended(hist, b, k), s)|
    ensures |Hist(Appended(hist, b, k), s)| <= |Hist(hist, s)| + k
  {
    if k == 0 {
      return;
    }
    AppendedGrows(hist, b, k - 1, s);
    AppendedStep(hist, b, k - 1, s);
    InBatchStep(b, k - 1, s);
    hide *;
  }

  lemma InBatchStep(b: Batch, k: nat, s: int)
    requires k < |b.sequences|
    ensures InBatch(b, k + 1, s) <==> InBatch(b, k, s) || b.sequences[k] == s
  {
  }

  lemma {:induction false} AppendedOk(hist: map<int, seq<Token>>, b: Batch, k: nat)
    requires Continues(hist, b) && Int32Positions(b) && HistOk(hist) && k <= |b.positions|
    ensures HistOk(Appended(hist, b, k))
  {
    if k > 0 {
      AppendedOk(hist, b, k - 1);
      assert ContinuesAt(hist, b, k - 1);
      forall s ensures |Hist(Appended(hist, b, k), s)| <= MAX_INT32 {
        AppendedStep(hist, b, k - 1, s);
        assert |Hist(Appended(hist, b, k - 1), s)| <= MAX_INT32;
      }
    }
  }

  // ---------- cells ----------

  ghost predicate Stores(cells: seq<Cell>, i: int, s: int) {
    0 <= i < |cells| && s in cells[i].sequences
  }

  ghost predicate Holds(cells: seq<Cell>, s: int, p: int) {
    exists i :: Stores(cells, i, s) && cells[i].pos == p
  }

  ghost predicate Distinct(ss: seq<int>) {
    forall i, j :: 0 <= i < j < |ss| ==> ss[i] != ss[j]
  }

  /** What slices.DeleteFunc leaves when it deletes the members of gone. */
  function Without(ss: seq<int>, gone: set<int>): (r: seq<int>)
    ensures forall x :: x in r <==> x in ss && x !in gone
    ensures Distinct(ss) ==> Distinct(r)
    ensures (forall x :: x in gone ==> x !in ss) ==> r == ss
  {
    if ss == [] then []
    else
      var rest := Without(ss[1..], gone);
      assert ss == [ss[0]] + ss[1..];
      assert (forall x :: x in gone ==> x !in ss) ==> ss[0] !in gone && rest == ss[1..];
      if ss[0] in gone then rest else [ss[0]] + rest
  }

  lemma {:induction false} WithoutTwice(ss: seq<int>, a: set<int>, b: set<int>)
    ensures Without(Without(ss, a), b) == Without(ss, a + b)
  {
    if ss != [] {
      WithoutTwice(ss[1..], a, b);
    }
  }

  /** Sequence s, as stored, is a gap-free end piece of its history h: one cell per position,
      each cell backed by the right token, and nothing missing above the lowest stored one. */
  ghost predicate StoredTail(cells: seq<Cell>, content: seq<Token>, h: seq<Token>, s: int) {
    && |content| == |cells|
    && (forall i :: Stores(cells, i, s) ==> 0 <= cells[i].pos < |h| && content[i] == h[cells[i].pos])
    && (forall i, j :: Stores(cells, i, s) && Stores(cells, j, s) && cells[i].pos == cells[j].pos ==> i == j)
    && (forall i, q :: Stores(cells, i, s) && cells[i].pos <= q < |h| ==> Holds(cells, s, q))
  }

  ghost predicate SeqOk(m: Model, s: int) {
    StoredTail(m.cells, m.content, Hist(m.hist, s), s)
  }

  /** Nothing about sequence s differs between a and b. */
  ghost predicate SameView(a: Model, b: Model, s: int) {
    && |a.cells| == |b.cells| == |a.content| == |b.content|
    && Hist(a.hist, s) == Hist(b.hist, s)
    && (forall i :: Stores(a.cells, i, s) <==> Stores(b.cells, i, s))
    && (forall i :: Stores(a.cells, i, s) ==> a.cells[i].pos == b.cells[i].pos && a.content[i] == b.content[i])
  }

  lemma SameViewKeeps(a: Model, b: Model, s: int)
    requires SameView(a, b, s)
    ensures SeqOk(a, s) <==> SeqOk(b, s)
    ensures forall p :: Holds(a.cells, s, p) <==> Holds(b.cells, s, p)
  {
    forall p ensures Holds(a.cells, s, p) <==> Holds(b.cells, s, p) {
      if Holds(a.cells, s, p) {
        var i :| Stores(a.cells, i, s) && a.cells[i].pos == p;
        assert Stores(b.cells, i, s);
      }
      if Holds(b.cells, s, p) {
        var i :| Stores(b.cells, i, s) && b.cells[i].pos == p;
        assert Stores(a.cells, i, s);
      }
    }
  }
}
