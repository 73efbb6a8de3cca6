/** Whole runs of the causal cache: any list of successful operations, from any state in which
    every sequence is sound. */
module Runs {
  import opened Tokens
  import opened CacheModel
  import opened Wrappers
  import opened Forward
  import opened Sharing
  import opened Capacity

  datatype Step =
    | Forward(batch: Batch)
    | CopyPrefix(src: int, dst: int, len: int)
    | Remove(s: int, begin: int, end: int)

  /** The same step on the full histories alone: no cells, no eviction, no sharing. */
  ghost function Reference(hist: map<int, seq<Token>>, step: Step): map<int, seq<Token>>
    requires step.Forward? ==> ShapedBatch(step.batch)
  {
    match step
    case Forward(b) => Appended(hist, b, |b.positions|)
    case CopyPrefix(src, dst, len) => SetHist(hist, dst, Prefix(Hist(hist, src), len))
    case Remove(s, begin, end) => SetHist(hist, s, Cut(Hist(hist, s), begin, end))
  }

  /** What the Cache contract asks of a caller before each operation. */
  ghost predicate Allowed(hist: map<int, seq<Token>>, step: Step) {
    match step
    case Forward(b) => Continues(hist, b)
    case CopyPrefix(src, dst, _) => src != dst
    case Remove(s, begin, end) => 0 <= begin <= end && |Hist(hist, s)| <= MAX_INT32
  }

  /** The step on the cells: None when the cache is full or a shared cell would have to move. */
  ghost function Apply(cfg: Config, m: Model, step: Step): Option<Model>
    requires |m.cells| == |m.content|
    requires Allowed(m.hist, step)
  {
    match step
    case Forward(b) => ForwardStep(cfg, m, b)
    case CopyPrefix(src, dst, len) => Some(CopyStep(m, src, dst, len))
    case Remove(s, begin, end) =>
      if Blocked(m.cells, |m.cells|, s, begin, end) then None else Some(RemoveStep(m, s, begin, end))
  }

  ghost predicate Sound(m: Model) {
    |m.cells| == |m.content| && forall s :: SeqOk(m, s)
  }

  /** Every position of every history is stored. */
  ghost predicate Complete(m: Model) {
    forall s, q :: 0 <= q < |Hist(m.hist, s)| ==> Holds(m.cells, s, q)
  }

  /** Sequence s is sound after the step, and if it had all its positions stored it still has. */
  ghost predicate SafeAt(cfg: Config, m: Model, m': Model, s: int) {
    && SeqOk(m', s)
    && (cfg.memory == MAX_INT32 && Complete(m) ==> forall q :: 0 <= q < |Hist(m'.hist, s)| ==> Holds(m'.cells, s, q))
  }

  lemma ForwardSafe(cfg: Config, m: Model, b: Batch, s: int)
    requires Sound(m) && Continues(m.hist, b) && ForwardStep(cfg, m, b).Some?
    ensures var m' := ForwardStep(cfg, m, b).value; m'.hist == Appended(m.hist, b, |b.positions|) && SafeAt(cfg, m, m', s)
  {
    hide SeqOk, Holds;
    assert SeqOk(m, s);
    ForwardEffect(cfg, m, b, s);
  }

  lemma CopySafe(cfg: Config, m: Model, src: int, dst: int, len: int, s: int)
    requires Sound(m) && src != dst
    ensures SafeAt(cfg, m, CopyStep(m, src, dst, len), s)
  {
    hide SeqOk, Holds, SameView;
    assert SeqOk(m, s) && SeqOk(m, src);
    CopyEffect(m, src, dst, len);
    if s != dst {
      SameViewKeeps(m, CopyStep(m, src, dst, len), s);
      SameHist(m, CopyStep(m, src, dst, len), s);
    }
  }

  lemma SameHist(a: Model, b: Model, s: int)
    requires SameView(a, b, s)
    ensures Hist(a.hist, s) == Hist(b.hist, s)
  {
  }

  lemma RemoveSafe(cfg: Config, m: Model, r: int, begin: int, end: int, s: int)
    requires Sound(m) && 0 <= begin <= end && |Hist(m.hist, r)| <= MAX_INT32 && !Blocked(m.cells, |m.cells|, r, begin, end)
    ensures SafeAt(cfg, m, RemoveStep(m, r, begin, end), s)
  {
    hide SeqOk, Holds, SameView, RemoveCells, Blocked;
    assert SeqOk(m, s);
    if s == r {
      RemoveEffect(m, s, begin, end);
    } else {
      RemoveFrame(m, RemoveStep(m, r, begin, end).hist, |m.cells|, r, begin, end, s);
      SameViewKeeps(m, RemoveStep(m, r, begin, end), s);
      SameHist(m, RemoveStep(m, r, begin, end), s);
    }
  }

  /** One step keeps every sequence sound, moves the histories as the reference does and, when
      memory is unlimited, loses nothing. */
  lemma StepSafe(cfg: Config, m: Model, step: Step, s: int)
    requires Sound(m) && Allowed(m.hist, step)
    requires Apply(cfg, m, step).Some?
    ensures Apply(cfg, m, step).value.hist == Reference(m.hist, step) && SafeAt(cfg, m, Apply(cfg, m, step).value, s)
  {
    hide SafeAt, Sound;
    match step
    case Forward(b) => ForwardSafe(cfg, m, b, s);
    case CopyPrefix(src, dst, len) => CopySafe(cfg, m, src, dst, len, s);
    case Remove(r, begin, end) => RemoveSafe(cfg, m, r, begin, end, s);
  }

  lemma StepSize(cfg: Config, m: Model, step: Step)
    requires |m.cells| == |m.content| && Allowed(m.hist, step) && Apply(cfg, m, step).Some?
    ensures var m' := Apply(cfg, m, step).value; |m'.cells| == |m'.content| == |m.cells|
  {
    if step.Forward? {
      EvictedSize(cfg, m, step.batch);
    }
  }

  lemma EvictedSize(cfg: Config, m: Model, b: Batch)
    requires ShapedBatch(b) && |m.cells| == |m.content|
    ensures |Evicted(cfg, m, b).cells| == |m.cells| && |Evicted(cfg, m, b).content| == |m.content|
  {
  }

  lemma StepSound(cfg: Config, m: Model, step: Step)
    requires Sound(m) && Allowed(m.hist, step)
    requires Apply(cfg, m, step).Some?
    ensures var m' := Apply(cfg, m, step).value;
      && Sound(m') && |m'.cells| == |m.cells|
      && m'.hist == Reference(m.hist, step)
      && (cfg.memory == MAX_INT32 && Complete(m) ==> Complete(m'))
  {
    var m' := Apply(cfg, m, step).value;
    forall s ensures SeqOk(m', s) {
      StepSafe(cfg, m, step, s);
    }
    forall s, q | cfg.memory == MAX_INT32 && Complete(m) && 0 <= q < |Hist(m'.hist, s)| ensures Holds(m'.cells, s, q) {
      StepSafe(cfg, m, step, s);
    }
    StepSafe(cfg, m, step, 0);
    StepSize(cfg, m, step);
  }

  /** Where a run leads: None when some step is not allowed where it is taken or fails. */
  ghost function Run(cfg: Config, m: Model, steps: seq<Step>): Option<Model>
    decreases |steps|
  {
    if steps == [] then Some(m)
    else if |m.cells| != |m.content| || !Allowed(m.hist, steps[0]) then None
    else
      var next := Apply(cfg, m, steps[0]);
      if next.None? then None else Run(cfg, next.value, steps[1..])
  }

  /** The histories after a run, computed without any cells. */
  ghost function ReferenceRun(hist: map<int, seq<Token>>, steps: seq<Step>): map<int, seq<Token>>
    decreases |steps|
  {
    if steps == [] || !Allowed(hist, steps[0]) then hist
    else ReferenceRun(Reference(hist, steps[0]), steps[1..])
  }

  /** Safety over every run: all sequences stay sound, the cells keep agreeing with histories
      that the reference computes on its own, and unlimited memory never loses a token. */
  lemma {:induction false} RunSafe(cfg: Config, m: Model, steps: seq<Step>)
    requires Sound(m) && Run(cfg, m, steps).Some?
    ensures var m' := Run(cfg, m, steps).value;
      && Sound(m') && |m'.cells| == |m.cells|
      && m'.hist == ReferenceRun(m.hist, steps)
      && (cfg.memory == MAX_INT32 && Complete(m) ==> Complete(m'))
    decreases |steps|
  {
    if steps != [] {
      StepSound(cfg, m, steps[0]);
      RunSafe(cfg, Apply(cfg, m, steps[0]).value, steps[1..]);
    }
  }

  /** Never full: after any run, in a cache of the size Init gives it, a batch is stored as long as
      the caller keeps within the numbers Init was given. */
  lemma RunNeverFull(cfg: Config, m: Model, steps: seq<Step>, b: Batch, maxSequences: nat, capacity: nat, maxBatch: nat)
    requires ValidConfig(cfg) && Sound(m) && Run(cfg, m, steps).Some?
    requires CacheSize(cfg, maxSequences, capacity, maxBatch) <= |m.cells|
    requires Continues(ReferenceRun(m.hist, steps), b) && |b.positions| <= maxBatch
    requires |Appended(ReferenceRun(m.hist, steps), b, |b.positions|)| <= maxSequences
    requires cfg.memory == MAX_INT32 ==>
               forall s :: |Hist(Appended(ReferenceRun(m.hist, steps), b, |b.positions|), s)| <= capacity
    ensures |Run(cfg, m, steps).value.cells| == |Run(cfg, m, steps).value.content|
    ensures ForwardStep(cfg, Run(cfg, m, steps).value, b).Some?
  {
    RunSafe(cfg, m, steps);
    CapacitySuffices(cfg, Run(cfg, m, steps).value, b, maxSequences, capacity, maxBatch);
  }

  /** Over a run of forward passes alone, batches in any mix, a sequence that could resume at
      its next position can still do so at the end of the run. */
  lemma {:induction false} ResumableForever(cfg: Config, m: Model, steps: seq<Step>, s: int)
    requires ValidConfig(cfg) && Sound(m) && Run(cfg, m, steps).Some?
    requires forall i :: 0 <= i < |steps| ==> steps[i].Forward?
    requires WindowStored(cfg, m, s, |Hist(m.hist, s)|)
    ensures var m' := Run(cfg, m, steps).value; WindowStored(cfg, m', s, |Hist(m'.hist, s)|)
    decreases |steps|
  {
    if steps != [] {
      StepSound(cfg, m, steps[0]);
      assert SeqOk(m, s);
      ResumabilityInductive(cfg, m, steps[0].batch, s);
      ResumableForever(cfg, Apply(cfg, m, steps[0]).value, steps[1..], s);
    }
  }
}
