/** Runs of the causal cache that go on after a failure: a batch that finds the cache full, a removal
    that a shared cell stops, one whose keys the backend cannot turn. What fails damages at most the
    sequence it was asked for, and emptying that sequence repairs it. */
module Recovery {
  import opened Tokens
  import opened CacheModel
  import opened Eviction
  import opened Forward
  import opened Sharing
  import opened Ranges
  import opened Rotation
  import opened Runs

  /** What a step may lead to, gone through or failed. */
  ghost predicate Leads(cfg: Config, m: Model, step: Step, ok: bool, after: Model) {
    match step
    case Forward(b) => Continues(m.hist, b) && Int32Positions(b) && ForwardOutcome(cfg, m, b, ok, after)
    case CopyPrefix(src, dst, len) => ok && src != dst && after == CopyStep(m, src, dst, len)
    case Remove(s, begin, end) => 0 <= begin <= end && RemoveOutcome(m, s, begin, end, ok, after)
  }

  /** The reference: a step that failed changes no history, and emptying a sequence empties it. */
  ghost function Referred(hist: map<int, seq<Token>>, step: Step, ok: bool): map<int, seq<Token>>
    requires step.Forward? ==> ShapedBatch(step.batch)
  {
    if !ok then hist
    else if step.Remove? && step.begin == 0 && step.end == MAX_INT32 then SetHist(hist, step.s, [])
    else Reference(hist, step)
  }

  /** The sequences a failed removal has left behind and nothing has repaired. */
  function Damaged(damaged: set<int>, step: Step, ok: bool): set<int> {
    match step
    case Forward(_) => damaged
    case CopyPrefix(src, dst, _) => if src in damaged then damaged + {dst} else damaged - {dst}
    case Remove(s, begin, end) =>
      if !ok then damaged + {s} else if begin == 0 && end == MAX_INT32 then damaged - {s} else damaged
  }

  /** Everything that is not damaged is sound, and holds the history the reference gives it. */
  ghost predicate Healthy(cfg: Config, m: Model, hist: map<int, seq<Token>>, damaged: set<int>) {
    && |m.cells| == |m.content| && CellsOk(m.cells) && HistOk(m.hist)
    && forall s :: s !in damaged ==> Sane(cfg, m, hist, s)
  }

  ghost predicate Sane(cfg: Config, m: Model, hist: map<int, seq<Token>>, s: int) {
    && SeqOk(m, s) && Hist(m.hist, s) == Hist(hist, s)
    && (cfg.memory == MAX_INT32 ==> forall q :: 0 <= q < |Hist(m.hist, s)| ==> Holds(m.cells, s, q))
  }

  // ---------- one step ----------

  lemma {:induction false} SameAppended(a: map<int, seq<Token>>, c: map<int, seq<Token>>, b: Batch, k: nat, s: int)
    requires ShapedBatch(b) && k <= |b.positions| && Hist(a, s) == Hist(c, s)
    ensures Hist(Appended(a, b, k), s) == Hist(Appended(c, b, k), s)
  {
    hide Hist;
    if k > 0 {
      SameAppended(a, c, b, k - 1, s);
      SameAppendedStep(a, c, b, k - 1, s);
    }
  }

  lemma SameAppendedStep(a: map<int, seq<Token>>, c: map<int, seq<Token>>, b: Batch, k: nat, s: int)
    requires ShapedBatch(b) && k < |b.positions| && Hist(Appended(a, b, k), s) == Hist(Appended(c, b, k), s)
    ensures Hist(Appended(a, b, k + 1), s) == Hist(Appended(c, b, k + 1), s)
  {
    AppendedStep(a, b, k, s);
    AppendedStep(c, b, k, s);
  }

  lemma ForwardSane(cfg: Config, m: Model, hist: map<int, seq<Token>>, b: Batch, ok: bool, after: Model, s: int)
    requires |m.cells| == |m.content| && Sane(cfg, m, hist, s) && Leads(cfg, m, Forward(b), ok, after)
    ensures Sane(cfg, after, Referred(hist, Forward(b), ok), s)
  {
    hide SeqOk, Holds, Appended, Evicted, FindLocs, Continues, ContinuesAt;
    if ok {
      ForwardEffect(cfg, m, b, s);
      SameAppended(m.hist, hist, b, |b.positions|, s);
    } else {
      EvictedKeeps(cfg, m, b, s);
      EvictedHist(cfg, m, b);
    }
  }

  lemma EvictedHist(cfg: Config, m: Model, b: Batch)
    requires ShapedBatch(b)
    ensures Evicted(cfg, m, b).hist == m.hist && |Evicted(cfg, m, b).cells| == |m.cells| && Evicted(cfg, m, b).content == m.content
    ensures CellsOk(m.cells) ==> CellsOk(Evicted(cfg, m, b).cells)
  {
    if cfg.memory != MAX_INT32 && CellsOk(m.cells) {
      var known := StoredSequences(m.cells);
      EvictCellsOk(m.cells, Thresholds(m.cells, known, b), known, cfg.memory);
    }
  }

  lemma CopySane(cfg: Config, m: Model, hist: map<int, seq<Token>>, src: int, dst: int, len: int, s: int)
    requires src != dst && Sane(cfg, m, hist, if s == dst then src else s)
    ensures Sane(cfg, CopyStep(m, src, dst, len), Referred(hist, CopyPrefix(src, dst, len), true), s)
  {
    var c := CopyStep(m, src, dst, len);
    if s == dst {
      CopyEffect(m, src, dst, len);
    } else {
      CopyOther(m, src, dst, len, s);
      CopyStores(m.cells, src, dst, len, s);
      SameViewKeeps(m, c, s);
    }
    hide SeqOk, Holds;
  }

  lemma RemoveSane(cfg: Config, m: Model, hist: map<int, seq<Token>>, s: int, begin: int, end: int)
    requires |m.cells| == |m.content| && CellsOk(m.cells) && HistOk(m.hist) && 0 <= begin <= end
    requires Sane(cfg, m, hist, s) || (begin == 0 && end == MAX_INT32)
    ensures Sane(cfg, RemoveStep(m, s, begin, end), Referred(hist, Step.Remove(s, begin, end), true), s)
  {
    assert |Hist(m.hist, s)| <= MAX_INT32;
    RemoveSeq(m, if Sane(cfg, m, hist, s) then {} else {s}, s, begin, end);
    if !(begin == 0 && end == MAX_INT32) {
      RemoveEffect(m, s, begin, end);
    }
  }

  lemma OtherSane(cfg: Config, m: Model, hist: map<int, seq<Token>>, after: Model, hist': map<int, seq<Token>>, t: int)
    requires Sane(cfg, m, hist, t) && SameView(m, after, t) && Hist(hist', t) == Hist(hist, t)
    ensures Sane(cfg, after, hist', t)
  {
    SameViewKeeps(m, after, t);
    hide SeqOk, Holds;
  }

  lemma ReferredOthers(hist: map<int, seq<Token>>, s: int, begin: int, end: int, ok: bool, t: int)
    requires t != s
    ensures Hist(Referred(hist, Step.Remove(s, begin, end), ok), t) == Hist(hist, t)
  {
  }

  /** Whatever a removal came to, the other sequences are as they were. */
  lemma OutcomeFrames(m: Model, s: int, begin: int, end: int, ok: bool, after: Model, t: int)
    requires |m.cells| == |m.content| && RemoveOutcome(m, s, begin, end, ok, after) && t != s
    ensures SameView(m, after, t)
  {
    hide RemoveCells;
    if Blocked(m.cells, |m.cells|, s, begin, end) {
      var k: nat :| StopsAt(m, s, begin, end, k, after);
      RemoveFrame(m, m.hist, k, s, begin, end, t);
    } else {
      RemoveFrame(m, after.hist, |m.cells|, s, begin, end, t);
    }
  }

  lemma OutcomeShape(m: Model, s: int, begin: int, end: int, ok: bool, after: Model)
    requires |m.cells| == |m.content| && CellsOk(m.cells) && HistOk(m.hist) && 0 <= begin <= end
    requires RemoveOutcome(m, s, begin, end, ok, after)
    ensures |after.cells| == |after.content| && CellsOk(after.cells) && HistOk(after.hist)
  {
    if Blocked(m.cells, |m.cells|, s, begin, end) {
      var k: nat :| StopsAt(m, s, begin, end, k, after);
      RemoveCellsOk(m.cells, k, s, begin, end);
    } else {
      RemoveCellsOk(m.cells, |m.cells|, s, begin, end);
      RemoveHist(m, s, begin, end);
    }
  }

  lemma ForwardShape(cfg: Config, m: Model, b: Batch, ok: bool, after: Model)
    requires |m.cells| == |m.content| && CellsOk(m.cells) && HistOk(m.hist) && Leads(cfg, m, Forward(b), ok, after)
    ensures |after.cells| == |after.content| && CellsOk(after.cells) && HistOk(after.hist)
  {
    EvictedHist(cfg, m, b);
    if ok {
      var e := Evicted(cfg, m, b);
      var locs := FindLocs(e.cells, |b.positions|).value;
      AppendedOk(m.hist, b, |b.positions|);
      PlacedElsewhere(e, b, locs, |b.positions|, 0);
      forall i | 0 <= i < |after.cells| ensures CellOk(after.cells[i]) {
        if Used(locs, |b.positions|, i) {
          var j: nat :| j < |b.positions| && locs[j] == i;
          PlacedHere(e, b, locs, |b.positions|, j);
        } else {
          PlacedElsewhere(e, b, locs, |b.positions|, i);
          assert CellOk(e.cells[i]);
        }
      }
    }
  }

  /** One step, gone through or not: what was not damaged stays healthy, and what was repaired is. */
  lemma StepHealthy(cfg: Config, m: Model, hist: map<int, seq<Token>>, damaged: set<int>, step: Step, ok: bool, after: Model)
    requires Healthy(cfg, m, hist, damaged) && Leads(cfg, m, step, ok, after)
    ensures Healthy(cfg, after, Referred(hist, step, ok), Damaged(damaged, step, ok))
  {
    hide Sane, CellsOk, HistOk, Referred;
    match step
    case Forward(b) =>
      ForwardShape(cfg, m, b, ok, after);
      forall s | s !in damaged ensures Sane(cfg, after, Referred(hist, step, ok), s) {
        ForwardSane(cfg, m, hist, b, ok, after, s);
      }
    case CopyPrefix(src, dst, len) =>
      CopyCellsOk(m.cells, src, dst, len);
      CopyHist(m, src, dst, len);
      forall s | s !in Damaged(damaged, step, ok) ensures Sane(cfg, after, Referred(hist, step, ok), s) {
        CopySane(cfg, m, hist, src, dst, len, s);
      }
    case Remove(r, begin, end) =>
      OutcomeShape(m, r, begin, end, ok, after);
      forall s | s !in Damaged(damaged, step, ok) ensures Sane(cfg, after, Referred(hist, step, ok), s) {
        RemoveHealthy(cfg, m, hist, damaged, r, begin, end, ok, after, s);
      }
  }

  lemma RemoveHealthy(cfg: Config, m: Model, hist: map<int, seq<Token>>, damaged: set<int>, r: int, begin: int, end: int, ok: bool,
                      after: Model, s: int)
    requires Healthy(cfg, m, hist, damaged) && 0 <= begin <= end && RemoveOutcome(m, r, begin, end, ok, after)
    requires s !in Damaged(damaged, Step.Remove(r, begin, end), ok)
    ensures Sane(cfg, after, Referred(hist, Step.Remove(r, begin, end), ok), s)
  {
    hide Sane, CellsOk, HistOk, Referred, Blocked, RemoveStep;
    if s == r {
      assert after == RemoveStep(m, r, begin, end);
      RemoveSane(cfg, m, hist, r, begin, end);
    } else {
      OutcomeFrames(m, r, begin, end, ok, after, s);
      ReferredOthers(hist, r, begin, end, ok, s);
      OtherSane(cfg, m, hist, after, Referred(hist, Step.Remove(r, begin, end), ok), s);
    }
  }

  // ---------- runs ----------

  ghost predicate IsRun(cfg: Config, run: seq<Model>, steps: seq<Step>, oks: seq<bool>) {
    && |run| == |steps| + 1 == |oks| + 1
    && forall i :: 0 <= i < |steps| ==> Leads(cfg, run[i], steps[i], oks[i], run[i + 1])
  }

  ghost function ReferredRun(hist: map<int, seq<Token>>, steps: seq<Step>, oks: seq<bool>): map<int, seq<Token>>
    requires |steps| == |oks| && forall i :: 0 <= i < |steps| ==> steps[i].Forward? ==> ShapedBatch(steps[i].batch)
  {
    var n := |steps|;
    if n == 0 then hist else Referred(ReferredRun(hist, steps[..n - 1], oks[..n - 1]), steps[n - 1], oks[n - 1])
  }

  function DamagedRun(damaged: set<int>, steps: seq<Step>, oks: seq<bool>): set<int>
    requires |steps| == |oks|
  {
    var n := |steps|;
    if n == 0 then damaged else Damaged(DamagedRun(damaged, steps[..n - 1], oks[..n - 1]), steps[n - 1], oks[n - 1])
  }

  lemma RunShaped(cfg: Config, run: seq<Model>, steps: seq<Step>, oks: seq<bool>)
    requires IsRun(cfg, run, steps, oks)
    ensures forall i :: 0 <= i < |steps| ==> steps[i].Forward? ==> ShapedBatch(steps[i].batch)
  {
    forall i | 0 <= i < |steps| && steps[i].Forward? ensures ShapedBatch(steps[i].batch) {
      assert Leads(cfg, run[i], steps[i], oks[i], run[i + 1]);
    }
  }

  /** Safety over every run, failures included: whatever failed on the way, every sequence no failed
      removal has left behind is sound, has the history the reference computes without any cells, and
      with unlimited memory has lost nothing. */
  lemma {:induction false} RunHealthy(cfg: Config, run: seq<Model>, steps: seq<Step>, oks: seq<bool>,
                                      hist: map<int, seq<Token>>, damaged: set<int>)
    requires IsRun(cfg, run, steps, oks) && Healthy(cfg, run[0], hist, damaged)
    ensures forall i :: 0 <= i < |steps| ==> steps[i].Forward? ==> ShapedBatch(steps[i].batch)
    ensures Healthy(cfg, run[|steps|], ReferredRun(hist, steps, oks), DamagedRun(damaged, steps, oks))
  {
    RunShaped(cfg, run, steps, oks);
    hide Healthy, Leads, ShapedBatch, Referred, Damaged;
    var n := |steps|;
    if n > 0 {
      RunHealthy(cfg, run[..n], steps[..n - 1], oks[..n - 1], hist, damaged);
      StepHealthy(cfg, run[n - 1], ReferredRun(hist, steps[..n - 1], oks[..n - 1]), DamagedRun(damaged, steps[..n - 1], oks[..n - 1]),
                  steps[n - 1], oks[n - 1], run[n]);
    }
  }

  /** Recovery: at the end of any run, emptying a sequence cannot fail, and repairs it. */
  lemma EmptyingRepairs(cfg: Config, run: seq<Model>, steps: seq<Step>, oks: seq<bool>, hist: map<int, seq<Token>>, damaged: set<int>,
                        s: int, ok: bool, after: Model)
    requires IsRun(cfg, run, steps, oks) && Healthy(cfg, run[0], hist, damaged)
    requires Leads(cfg, run[|steps|], Step.Remove(s, 0, MAX_INT32), ok, after)
    ensures ok && SeqOk(after, s) && Hist(after.hist, s) == []
    ensures forall i :: 0 <= i < |steps| ==> steps[i].Forward? ==> ShapedBatch(steps[i].batch)
    ensures Healthy(cfg, after, SetHist(ReferredRun(hist, steps, oks), s, []), DamagedRun(damaged, steps, oks) - {s})
  {
    RunHealthy(cfg, run, steps, oks, hist, damaged);
    var m := run[|steps|];
    forall i | 0 <= i < |m.cells| ensures m.cells[i].pos < MAX_INT32 {
      PosOk(m.cells, i);
    }
    RemoveTail(m, s, 0);
    hide ReferredRun, DamagedRun, IsRun, CellsOk, HistOk, Blocked, RemoveStep, SeqOk;
    StepHealthy(cfg, m, ReferredRun(hist, steps, oks), DamagedRun(damaged, steps, oks), Step.Remove(s, 0, MAX_INT32), ok, after);
    assert Sane(cfg, after, SetHist(ReferredRun(hist, steps, oks), s, []), s);
  }
}
