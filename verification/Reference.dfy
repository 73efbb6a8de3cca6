/** What the recurrent cache stands for: every sequence has its own token history and its own private
    state. No slots, no sharing, no checkpoints. The reference also keeps account, from the calls
    alone, of the sequences for which a rollback can no longer be trusted. */
module Reference {
  import opened Tokens
  import opened CacheModel
  import opened Sharing
  import opened Checkpoints
  import opened Passes
  import opened RecurrentSteps
  import opened CleanSlots

  /** The token history of each sequence, the tokens its private state holds, the tokens the pass
      under way brings to each of its sequences, and the buffers it has yet to update. The sequences
      in lag have tokens their state does not hold; those in doubt have been cut in the middle, or
      taken through a pass out of step, or copied from one that was; leaky is set once a copy has
      left checkpoints behind. */
  datatype Ref = Ref(hist: map<int, seq<Token>>, state: map<int, State>, tokens: map<int, State>, todo: set<Buffer>,
                     lag: set<int>, doubt: set<int>, leaky: bool)

  const NOTHING := Ref(map[], map[], map[], {}, {}, {}, false)

  /** All that the reference is told of a step: whether the destination of a copy leaves checkpoints
      behind, which sequences are given a slot, and what states are found where a rollback in doubt or
      a lack of slots leaves them to chance. */
  datatype Seen = Seen(leaves: bool, joins: set<int>, found: map<int, State>)

  /** Every state moved on by the tokens of the pass. */
  function MovedOn(state: map<int, State>, tokens: map<int, State>): map<int, State> {
    map s | s in state.Keys + tokens.Keys :: Hist(state, s) + Hist(tokens, s)
  }

  predicate ShapedOp(op: Op) {
    (op.Begin? ==> ShapedBatch(op.batch)) && (op.Refuse? ==> ShapedBatch(op.uneven)) && (op.Starve? ==> ShapedBatch(op.crowd))
  }

  function Sequences(b: Batch): set<int> {
    set s | s in b.sequences
  }

  /** The sequences of the batch whose state does not hold exactly their tokens. */
  function Strays(f: Ref, b: Batch): set<int> {
    set s | s in b.sequences && Hist(f.hist, s) != Hist(f.state, s)
  }

  /** A removal [begin, end) leaves the state of a history with nothing behind the cut ahead of it. */
  predicate CutsOff(h: seq<Token>, begin: int, end: int) {
    |h| <= end || begin == end
  }

  function Inherit(marks: set<int>, src: int, dst: int): set<int> {
    if src in marks then marks + {dst} else marks - {dst}
  }

  function RefStep(f: Ref, op: Op, seen: Seen, buffers: set<Buffer>): Ref
    requires ShapedOp(op)
  {
    var joined := if f.leaky then f.doubt + seen.joins else f.doubt;
    match op
    case Begin(b) =>
      var after := Appended(f.hist, b, |b.positions|);
      f.(hist := after, tokens := PassTokens(f.hist, after, b.sequences), todo := buffers,
         lag := f.lag - Sequences(b) + Strays(f, b), doubt := joined + Strays(f, b))
    case Refuse(b) => f.(hist := Appended(f.hist, b, |b.positions|), lag := f.lag + Sequences(b))
    case Starve(b) =>
      f.(hist := Appended(f.hist, b, |b.positions|), state := f.state + seen.found, lag := f.lag + Sequences(b),
         doubt := f.doubt + seen.joins)
    case Own => f.(doubt := joined)
    case GiveUp => f.(tokens := map[], todo := {}, lag := f.lag + f.tokens.Keys, doubt := joined)
    case Fetch(_) => f
    case Update(c, _) =>
      if f.todo - {c} == {} then f.(state := MovedOn(f.state, f.tokens), tokens := map[], todo := {}) else f.(todo := f.todo - {c})
    case Copy(src, dst, len) =>
      f.(hist := SetHist(f.hist, dst, Prefix(Hist(f.hist, src), len)), state := SetHist(f.state, dst, Hist(f.state, src)),
         lag := Inherit(f.lag, src, dst), doubt := Inherit(f.doubt, src, dst), leaky := f.leaky || seen.leaves)
    case RollBack(s, _, kept) =>
      f.(hist := SetHist(f.hist, s, Cut(Hist(f.hist, s), kept, MAX_INT32)),
         state := SetHist(f.state, s, if s in f.doubt then Hist(seen.found, s) else Prefix(Hist(f.state, s), kept)),
         lag := if s in f.doubt then f.lag + {s} else f.lag)
    case RemoveStart(s, end) =>
      f.(hist := SetHist(f.hist, s, Cut(Hist(f.hist, s), 0, end)), state := SetHist(f.state, s, []),
         lag := if |Hist(f.hist, s)| <= end then f.lag - {s} else f.lag + {s}, doubt := f.doubt - {s})
    case RemoveMiddle(s, begin, end) =>
      f.(hist := SetHist(f.hist, s, Cut(Hist(f.hist, s), begin, end)),
         lag := if CutsOff(Hist(f.hist, s), begin, end) then f.lag else f.lag + {s}, doubt := f.doubt + {s})
    case FailRemove(s, begin, end, cut) =>
      f.(hist := if cut then SetHist(f.hist, s, Cut(Hist(f.hist, s), begin, end)) else f.hist, lag := f.lag + {s})
  }

  // ---------- what the accounts mean ----------

  /** The state of s holds its tokens: all of them and possibly more when it is idle, all but those of
      the pass when it is in one. */
  ghost predicate Ahead(f: Ref, s: int) {
    if s in f.tokens then Hist(f.hist, s) == Hist(f.state, s) + f.tokens[s] else Hist(f.hist, s) <= Hist(f.state, s)
  }

  /** Only sequences in lag have tokens their state does not hold, and a pass on one is in doubt. */
  ghost predicate RefOk(f: Ref) {
    && (f.todo == {} ==> f.tokens == map[]) && HistOk(f.hist)
    && (forall s :: s !in f.lag ==> Ahead(f, s))
    && (forall s :: s in f.tokens && s in f.lag ==> s in f.doubt)
  }

  /** What holds of the reference when a step is taken. */
  ghost predicate Timely(f: Ref, op: Op, buffers: set<Buffer>) {
    && ShapedOp(op)
    && match op
       case Begin(b) => f.todo == {} && buffers != {}
       case Refuse(_) => f.todo == {}
       case Starve(_) => f.todo == {}
       case Copy(src, dst, _) => f.todo == {} && src != dst
       case RollBack(_, _, kept) => f.todo == {} && 0 < kept
       case RemoveStart(_, end) => f.todo == {} && 0 <= end
       case RemoveMiddle(_, begin, end) => f.todo == {} && 0 < begin <= end
       case FailRemove(_, begin, end, _) => f.todo == {} && 0 <= begin <= end
       case _ => true
  }

  lemma HistSet(hist: map<int, seq<Token>>, s: int, h: seq<Token>)
    ensures forall q :: Hist(SetHist(hist, s, h), q) == if q == s then h else Hist(hist, q)
  {
  }

  lemma NotInBatch(hist: map<int, seq<Token>>, batch: Batch, s: int)
    requires ShapedBatch(batch)
    ensures s !in batch.sequences ==> Hist(Appended(hist, batch, |batch.positions|), s) == Hist(hist, s)
    ensures s in batch.sequences ==> Hist(hist, s) < Hist(Appended(hist, batch, |batch.positions|), s)
  {
    if s in batch.sequences {
      var j :| 0 <= j < |batch.sequences| && batch.sequences[j] == s;
      assert InBatch(batch, |batch.positions|, s);
    }
    AppendedGrows(hist, batch, |batch.positions|, s);
  }

  lemma NothingLeft(h: seq<Token>, end: int)
    ensures 0 <= end && |h| <= end ==> Cut(h, 0, end) == []
  {
  }

  /** A cut with nothing behind it leaves a prefix. */
  lemma CutIsPrefix(h: seq<Token>, begin: int, end: int)
    requires 0 <= begin <= end && CutsOff(h, begin, end)
    ensures Cut(h, begin, end) <= h
  {
    if begin == end {
      if begin < |h| {
        assert Cut(h, begin, end) == h[..begin] + h[begin..] == h;
      }
    }
  }

  lemma BeginParts(f: Ref, b: Batch, seen: Seen, buffers: set<Buffer>, s: int)
    requires ShapedBatch(b)
    ensures var g, after := RefStep(f, Begin(b), seen, buffers), Appended(f.hist, b, |b.positions|);
      && g.hist == after && g.state == f.state && (s in g.tokens <==> s in b.sequences)
      && (s in g.tokens && Hist(f.hist, s) <= Hist(after, s) ==> Hist(f.hist, s) + g.tokens[s] == Hist(after, s))
      && (s in g.lag <==> if s in b.sequences then Hist(f.hist, s) != Hist(f.state, s) else s in f.lag)
      && (s in b.sequences && s in g.lag ==> s in g.doubt)
  {
    hide Appended;
  }

  lemma BeginAhead(f: Ref, b: Batch, seen: Seen, buffers: set<Buffer>, s: int)
    requires RefOk(f) && Timely(f, Begin(b), buffers)
    ensures var g := RefStep(f, Begin(b), seen, buffers);
      (s !in g.lag ==> Ahead(g, s)) && (s in g.tokens && s in g.lag ==> s in g.doubt)
  {
    assert f.tokens == map[] && (s !in f.lag ==> Ahead(f, s));
    NotInBatch(f.hist, b, s);
    BeginParts(f, b, seen, buffers, s);
    hide Appended, RefOk, RefStep, PassTokens, Hist;
  }

  lemma StoredAhead(f: Ref, op: Op, seen: Seen, buffers: set<Buffer>, s: int)
    requires RefOk(f) && Timely(f, op, buffers) && (op.Refuse? || op.Starve?)
    requires op.Starve? ==> forall q :: q in seen.found ==> q in op.crowd.sequences
    ensures var g := RefStep(f, op, seen, buffers); g.tokens == map[] && (s !in g.lag ==> Ahead(g, s))
  {
    hide Appended, HistOk;
    NotInBatch(f.hist, if op.Refuse? then op.uneven else op.crowd, s);
    assert s !in f.lag ==> Ahead(f, s);
  }

  lemma CopyAhead(f: Ref, op: Op, seen: Seen, buffers: set<Buffer>, s: int)
    requires RefOk(f) && Timely(f, op, buffers) && op.Copy?
    ensures var g := RefStep(f, op, seen, buffers); s !in g.lag ==> Ahead(g, s)
  {
    hide HistOk;
    assert (op.src !in f.lag ==> Ahead(f, op.src)) && (s !in f.lag ==> Ahead(f, s));
    HistSet(f.hist, op.dst, Prefix(Hist(f.hist, op.src), op.len));
    HistSet(f.state, op.dst, Hist(f.state, op.src));
  }

  lemma RollBackAhead(f: Ref, op: Op, seen: Seen, buffers: set<Buffer>, s: int)
    requires RefOk(f) && Timely(f, op, buffers) && op.RollBack?
    ensures var g := RefStep(f, op, seen, buffers); s !in g.lag ==> Ahead(g, s)
  {
    hide HistOk;
    var h, held := Hist(f.hist, op.s), Hist(f.state, op.s);
    HistBound(f.hist, op.s);
    CutTail(h, op.kept);
    HistSet(f.hist, op.s, Prefix(h, op.kept));
    HistSet(f.state, op.s, if op.s in f.doubt then Hist(seen.found, op.s) else Prefix(held, op.kept));
    assert s !in f.lag ==> Ahead(f, s);
    PrefixMonotone(h, held, op.kept);
    hide Cut, Prefix, Hist, SetHist, RefOk;
  }

  lemma PrefixMonotone(h: seq<Token>, g: seq<Token>, k: int)
    ensures h <= g ==> Prefix(h, k) <= Prefix(g, k)
  {
  }

  lemma RemoveAhead(f: Ref, op: Op, seen: Seen, buffers: set<Buffer>, s: int)
    requires RefOk(f) && Timely(f, op, buffers) && (op.RemoveStart? || op.RemoveMiddle? || op.FailRemove?)
    ensures var g := RefStep(f, op, seen, buffers); s !in g.lag ==> Ahead(g, s)
  {
    hide Cut, HistOk;
    assert s !in f.lag ==> Ahead(f, s);
    match op
    case RemoveStart(r, end) =>
      NothingLeft(Hist(f.hist, r), end);
      HistSet(f.hist, r, Cut(Hist(f.hist, r), 0, end));
      HistSet(f.state, r, []);
    case RemoveMiddle(r, begin, end) =>
      HistSet(f.hist, r, Cut(Hist(f.hist, r), begin, end));
      if CutsOff(Hist(f.hist, r), begin, end) {
        CutIsPrefix(Hist(f.hist, r), begin, end);
      }
    case FailRemove(r, begin, end, _) =>
      HistSet(f.hist, r, Cut(Hist(f.hist, r), begin, end));
    case _ =>
  }

  /** The accounts stay right, step by step. */
  lemma RefStepOk(f: Ref, op: Op, seen: Seen, buffers: set<Buffer>)
    requires RefOk(f) && Timely(f, op, buffers) && HistOk(RefStep(f, op, seen, buffers).hist)
    requires op.Starve? ==> forall q :: q in seen.found ==> q in op.crowd.sequences
    ensures RefOk(RefStep(f, op, seen, buffers))
  {
    if op.Begin? {
      BeginRefOk(f, op, seen, buffers);
    } else if op.Refuse? || op.Starve? {
      StoredRefOk(f, op, seen, buffers);
    } else if op.Copy? || op.RollBack? || op.RemoveStart? || op.RemoveMiddle? || op.FailRemove? {
      IdleRefOk(f, op, seen, buffers);
    } else {
      forall s | s !in RefStep(f, op, seen, buffers).lag ensures Ahead(RefStep(f, op, seen, buffers), s) {
        assert Ahead(f, s);
      }
    }
  }

  lemma BeginRefOk(f: Ref, op: Op, seen: Seen, buffers: set<Buffer>)
    requires RefOk(f) && Timely(f, op, buffers) && op.Begin? && HistOk(RefStep(f, op, seen, buffers).hist)
    ensures RefOk(RefStep(f, op, seen, buffers))
  {
    var g := RefStep(f, op, seen, buffers);
    assert g.todo == buffers != {};
    hide Ahead, RefStep;
    forall s ensures (s !in g.lag ==> Ahead(g, s)) && (s in g.tokens && s in g.lag ==> s in g.doubt) {
      BeginAhead(f, op.batch, seen, buffers, s);
    }
  }

  lemma StoredRefOk(f: Ref, op: Op, seen: Seen, buffers: set<Buffer>)
    requires RefOk(f) && Timely(f, op, buffers) && (op.Refuse? || op.Starve?) && HistOk(RefStep(f, op, seen, buffers).hist)
    requires op.Starve? ==> forall q :: q in seen.found ==> q in op.crowd.sequences
    ensures RefOk(RefStep(f, op, seen, buffers))
  {
    var g := RefStep(f, op, seen, buffers);
    StoredAhead(f, op, seen, buffers, 0);
    hide Ahead, RefStep;
    forall s ensures s !in g.lag ==> Ahead(g, s) {
      StoredAhead(f, op, seen, buffers, s);
    }
  }

  lemma IdleRefOk(f: Ref, op: Op, seen: Seen, buffers: set<Buffer>)
    requires RefOk(f) && Timely(f, op, buffers) && HistOk(RefStep(f, op, seen, buffers).hist)
    requires op.Copy? || op.RollBack? || op.RemoveStart? || op.RemoveMiddle? || op.FailRemove?
    ensures RefOk(RefStep(f, op, seen, buffers))
  {
    var g := RefStep(f, op, seen, buffers);
    assert g.tokens == f.tokens == map[];
    hide Ahead, RefStep;
    forall s ensures s !in g.lag ==> Ahead(g, s) {
      if op.Copy? {
        CopyAhead(f, op, seen, buffers, s);
      } else if op.RollBack? {
        RollBackAhead(f, op, seen, buffers, s);
      } else {
        RemoveAhead(f, op, seen, buffers, s);
      }
    }
  }
}
