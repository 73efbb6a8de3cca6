/** CopyPrefix and Remove on the model: sharing a prefix between sequences, cutting a tail,
    and cutting a middle with everything behind it moved down. */
module Sharing {
  import opened Tokens
  import opened CacheModel

  // ---------- CopyPrefix ----------

  function CopyCell(c: Cell, src: int, dst: int, len: int): Cell {
    var kept := Without(c.sequences, {dst});
    if src in kept && c.pos < len then c.(sequences := kept + [dst]) else c.(sequences := kept)
  }

  function CopyCells(cells: seq<Cell>, src: int, dst: int, len: int): seq<Cell> {
    seq(|cells|, i requires 0 <= i < |cells| => CopyCell(cells[i], src, dst, len))
  }

  function Prefix(h: seq<Token>, len: int): (r: seq<Token>)
    ensures r <= h && |r| == Max(0, Min(len, |h|))
  {
    h[..Max(0, Min(len, |h|))]
  }

  function CopyStep(m: Model, src: int, dst: int, len: int): Model {
    Model(CopyCells(m.cells, src, dst, len), m.content, SetHist(m.hist, dst, Prefix(Hist(m.hist, src), len)))
  }

  lemma CopyStores(cells: seq<Cell>, src: int, dst: int, len: int, s: int)
    requires src != dst
    ensures var c := CopyCells(cells, src, dst, len);
      && |c| == |cells|
      && (forall i :: 0 <= i < |c| ==> c[i].pos == cells[i].pos)
      && forall i :: Stores(c, i, s) <==>
           if s == dst then Stores(cells, i, src) && cells[i].pos < len else Stores(cells, i, s)
  {
  }

  /** The copy holds exactly the source's positions below len; no other sequence changes. */
  lemma CopyEffect(m: Model, src: int, dst: int, len: int)
    requires src != dst && SeqOk(m, src)
    ensures var c := CopyStep(m, src, dst, len);
      && SeqOk(c, dst)
      && (forall q :: Holds(c.cells, dst, q) <==> Holds(m.cells, src, q) && q < len)
      && (forall s :: s != dst && SeqOk(m, s) ==> SameView(m, c, s))
  {
    var c := CopyStep(m, src, dst, len);
    CopyStores(m.cells, src, dst, len, dst);
    forall q ensures Holds(c.cells, dst, q) <==> Holds(m.cells, src, q) && q < len {
      if Holds(m.cells, src, q) && q < len {
        var i :| Stores(m.cells, i, src) && m.cells[i].pos == q;
        assert Stores(c.cells, i, dst);
      }
    }
    forall s | s != dst && SeqOk(m, s) ensures SameView(m, c, s) {
      CopyStores(m.cells, src, dst, len, s);
    }
  }

  // ---------- Remove ----------

  /** The distance everything behind a removed middle moves; a tail removal moves nothing. */
  function Offset(begin: int, end: int): int {
    if end != MAX_INT32 then begin - end else 0
  }

  /** Remove reaches cell c and would have to move it. */
  predicate Moves(c: Cell, s: int, begin: int, end: int) {
    s in c.sequences && !(begin <= c.pos < end) && end <= c.pos
  }

  predicate SharedWithOthers(c: Cell, s: int) {
    exists t :: t in c.sequences && t != s
  }

  function RemoveCell(c: Cell, s: int, begin: int, end: int): Cell {
    if s !in c.sequences then c
    else if begin <= c.pos < end then c.(sequences := Without(c.sequences, {s}))
    else if end <= c.pos then c.(pos := c.pos + Offset(begin, end))
    else c
  }

  /** The cells once Remove has worked through the first k of them. */
  function RemoveCells(cells: seq<Cell>, k: int, s: int, begin: int, end: int): seq<Cell> {
    seq(|cells|, i requires 0 <= i < |cells| => if i < k then RemoveCell(cells[i], s, begin, end) else cells[i])
  }

  /** Remove gives up at the first cell it would have to move that others share. */
  predicate Blocked(cells: seq<Cell>, k: int, s: int, begin: int, end: int) {
    exists i :: 0 <= i < k && i < |cells| && Moves(cells[i], s, begin, end) && SharedWithOthers(cells[i], s)
  }

  function Cut(h: seq<Token>, begin: int, end: int): seq<Token> {
    Prefix(h, begin) + h[|h| - Max(0, Min(|h|, |h| - end))..]
  }

  function RemoveStep(m: Model, s: int, begin: int, end: int): Model {
    Model(RemoveCells(m.cells, |m.cells|, s, begin, end), m.content, SetHist(m.hist, s, Cut(Hist(m.hist, s), begin, end)))
  }

  lemma RemoveStepIs(m: Model, s: int, begin: int, end: int)
    ensures RemoveStep(m, s, begin, end) ==
            Model(RemoveStep(m, s, begin, end).cells, m.content, SetHist(m.hist, s, Cut(Hist(m.hist, s), begin, end)))
    ensures |RemoveStep(m, s, begin, end).cells| == |m.cells|
  {
  }

  /** Remove goes through, or it stops before the first cell it cannot move, or the backend cannot turn
      the keys of the cells it has moved. */
  ghost predicate RemoveOutcome(m: Model, s: int, begin: int, end: int, ok: bool, after: Model) {
    if Blocked(m.cells, |m.cells|, s, begin, end) then
      !ok && exists k: nat :: StopsAt(m, s, begin, end, k, after)
    else after == RemoveStep(m, s, begin, end) && (!ok ==> end != MAX_INT32)
  }

  ghost predicate StopsAt(m: Model, s: int, begin: int, end: int, k: nat, after: Model) {
    && k < |m.cells| && !Blocked(m.cells, k, s, begin, end) && Blocked(m.cells, k + 1, s, begin, end)
    && after == Model(RemoveCells(m.cells, k, s, begin, end), m.content, m.hist)
  }

  /** Whatever prefix of the cells Remove worked through, other sequences see no difference,
      so a failed removal leaves them alone. */
  lemma RemoveFrame(m: Model, hist: map<int, seq<Token>>, k: int, s: int, begin: int, end: int, t: int)
    requires |m.content| == |m.cells|
    requires t != s && !Blocked(m.cells, k, s, begin, end)
    requires Hist(hist, t) == Hist(m.hist, t)
    ensures SameView(m, Model(RemoveCells(m.cells, k, s, begin, end), m.content, hist), t)
  {
  }

  lemma RemoveStores(m: Model, s: int, begin: int, end: int)
    ensures var c := RemoveStep(m, s, begin, end).cells;
      && |c| == |m.cells|
      && (forall i :: Stores(c, i, s) <==> Stores(m.cells, i, s) && !(begin <= m.cells[i].pos < end))
      && (forall i :: Stores(c, i, s) ==>
            c[i].pos == if end <= m.cells[i].pos then m.cells[i].pos + Offset(begin, end) else m.cells[i].pos)
  {
  }

  /** A removal that goes through: what is left of the sequence is again a stored tail, of
      the history with [begin, end) cut out and everything behind it moved down. */
  lemma RemoveEffect(m: Model, s: int, begin: int, end: int)
    requires 0 <= begin <= end && SeqOk(m, s) && |Hist(m.hist, s)| <= MAX_INT32
    ensures var c := RemoveStep(m, s, begin, end);
      && SeqOk(c, s)
      && (forall q :: Holds(c.cells, s, q) <==>
            Holds(m.cells, s, if q < begin then q else q - Offset(begin, end)) && (end == MAX_INT32 ==> q < begin))
  {
    var c := RemoveStep(m, s, begin, end);
    var h := Hist(m.hist, s);
    RemoveStores(m, s, begin, end);
    forall q
      ensures Holds(c.cells, s, q) <==>
        Holds(m.cells, s, if q < begin then q else q - Offset(begin, end)) && (end == MAX_INT32 ==> q < begin)
    {
      if Holds(c.cells, s, q) {
        var i :| Stores(c.cells, i, s) && c.cells[i].pos == q;
        assert Stores(m.cells, i, s);
      }
      var p := if q < begin then q else q - Offset(begin, end);
      if Holds(m.cells, s, p) && (end == MAX_INT32 ==> q < begin) {
        var i :| Stores(m.cells, i, s) && m.cells[i].pos == p;
        assert Stores(c.cells, i, s);
      }
    }
    RemoveSound(m, s, begin, end);
  }

  lemma RemoveSound(m: Model, s: int, begin: int, end: int)
    requires 0 <= begin <= end && SeqOk(m, s) && |Hist(m.hist, s)| <= MAX_INT32
    ensures SeqOk(RemoveStep(m, s, begin, end), s)
  {
    var c := RemoveStep(m, s, begin, end);
    var h := Hist(m.hist, s);
    RemoveStores(m, s, begin, end);
    forall i, j | Stores(c.cells, i, s) && Stores(c.cells, j, s) && c.cells[i].pos == c.cells[j].pos ensures i == j {
      assert Stores(m.cells, i, s) && Stores(m.cells, j, s);
    }
    forall i | Stores(c.cells, i, s)
      ensures 0 <= c.cells[i].pos < |Hist(c.hist, s)| && c.content[i] == Hist(c.hist, s)[c.cells[i].pos]
    {
      assert Stores(m.cells, i, s);
    }
    forall i, q | Stores(c.cells, i, s) && c.cells[i].pos <= q < |Hist(c.hist, s)| ensures Holds(c.cells, s, q) {
      var p := if q < begin then q else q - Offset(begin, end);
      assert Stores(m.cells, i, s);
      assert Holds(m.cells, s, p);
      var j :| Stores(m.cells, j, s) && m.cells[j].pos == p;
      assert Stores(c.cells, j, s);
    }
  }

  /** A removal up to the sentinel is never blocked, and moves no cell. */
  lemma RemoveTail(m: Model, s: int, begin: int)
    requires 0 <= begin && forall i :: 0 <= i < |m.cells| ==> m.cells[i].pos < MAX_INT32
    ensures !Blocked(m.cells, |m.cells|, s, begin, MAX_INT32)
    ensures var c := RemoveStep(m, s, begin, MAX_INT32).cells;
      |c| == |m.cells| && forall i :: 0 <= i < |c| ==>
        c[i].pos == m.cells[i].pos
        && forall t :: t in c[i].sequences <==> t in m.cells[i].sequences && !(t == s && begin <= m.cells[i].pos)
  {
    var c := RemoveStep(m, s, begin, MAX_INT32).cells;
    forall i | 0 <= i < |c|
      ensures !Moves(m.cells[i], s, begin, MAX_INT32) && c[i] == RemoveCell(m.cells[i], s, begin, MAX_INT32)
    {
    }
  }
}
