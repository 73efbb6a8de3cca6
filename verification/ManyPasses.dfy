/** Runs of several passes written out: the sequence of OnePass goes on, a pass at a time. */
module ManyPasses {
  import opened Tokens
  import opened CacheModel
  import opened Checkpoints
  import opened Slots
  import opened RecurrentModel
  import opened Passes
  import opened Order
  import opened RecurrentFacts
  import opened RecurrentSteps
  import opened CleanSlots
  import opened Reference
  import opened RecurrentRuns
  import opened OnePass
  import opened Spacing
  import opened SpacingRuns

  // ---------- one step more ----------

  lemma RunExtends(run: seq<Sys>, ops: seq<Op>, slots: nat, buffers: set<Buffer>, op: Op, b: Sys)
    requires IsRun(run, ops, slots, buffers) && ShapedOp(op) && Step(run[|ops|], op, b, buffers)
    ensures IsRun(run + [b], ops + [op], slots, buffers) && (run + [b])[|ops| + 1] == b
    ensures RefRun(run + [b], ops + [op], buffers) == RefAfter(RefRun(run, ops, buffers), run[|ops|], op, b, buffers)
    ensures RunMarks(run + [b], ops + [op], buffers) == MarkStep(RunMarks(run, ops, buffers), RefRun(run, ops, buffers), op)
  {
    hide Step, RefAfter, MarkStep, ShapedOp, EmptyRec;
    var run', ops', n := run + [b], ops + [op], |ops|;
    forall i | 0 <= i < n + 1 ensures ShapedOp(ops'[i]) && Step(run'[i], ops'[i], run'[i + 1], buffers) {
      if i == n {
        assert run'[n] == run[n];
      } else {
        assert ops'[i] == ops[i] && run'[i] == run[i] && run'[i + 1] == run[i + 1];
      }
    }
    assert run'[..n + 1] == run && ops'[..n] == ops;
  }

  // ---------- one pass more ----------

  /** Tokens of sequence 5 that go on from h. */
  function More(h: State, t: State): Batch {
    Batch(seq(|t|, i => |h| + i), seq(|t|, _ => 5), t)
  }

  lemma {:induction false} MoreAppended(h: State, t: State, k: nat)
    requires t != [] && k <= |t|
    ensures Appended(map[5 := h], More(h, t), k) == map[5 := h + t[..k]]
    ensures Highest(More(h, t), k) == if k == 0 then map[] else map[5 := |h| + k - 1]
  {
    if k > 0 {
      MoreAppended(h, t, k - 1);
      assert h + t[..k] == (h + t[..k - 1]) + [t[k - 1]];
    } else {
      assert h + t[..0] == h;
    }
  }

  lemma MoreContinues(h: State, t: State)
    requires t != [] && |h| + |t| <= MAX_INT32
    ensures Continues(map[5 := h], More(h, t)) && Int32Positions(More(h, t)) && SeqsOf(More(h, t), [5]) && Even(More(h, t), |t|)
  {
    forall k | 0 <= k < |t| ensures ContinuesAt(map[5 := h], More(h, t), k) {
      MoreAppended(h, t, k);
    }
    OneSequence(More(h, t), 5);
  }

  /** Sequence 5 alone, on slot 0, holds h and is nowhere in doubt. */
  ghost predicate Holding(run: seq<Sys>, ops: seq<Op>, h: State) {
    && IsRun(run, ops, 1, {CONV}) && RefRun(run, ops, {CONV}).doubt == {} && !RefRun(run, ops, {CONV}).leaky
    && run[|ops|].r.todo == {} && run[|ops|].hist == map[5 := h] && Folded(run[|ops|].r, 5) == h && run[|ops|].r.table == ONE_USER
  }

  ghost function SetOut(a: Sys, h: State, t: State): Sys {
    Sys(map[5 := h + t], Given(a.r, [5]).(todo := {CONV}, capture := map[]),
        Pass([5], [0], map[5 := t], [PlanAt(a.r.rings, 0, |h| + |t| - 1)], false))
  }

  lemma SetOpens(a: Sys, h: State, t: State)
    requires a.r.todo == {} && a.hist == map[5 := h] && a.r.table == ONE_USER && t != [] && |h| + |t| <= MAX_INT32
    ensures Opening(a.hist, More(h, t), a.r, SetOut(a, h, t).r, SetOut(a, h, t).p, {CONV}) && SetOut(a, h, t).r.table == ONE_USER
  {
    hide Given, Appended, Highest, Continues, Int32Positions, Even, PassTokens, SeqsOf, PlanAt, More;
    MoreContinues(h, t);
    MoreWhole(h, t);
    KeepsTable(a.r);
    GivenRings(a.r, [5]);
  }

  lemma MoreWhole(h: State, t: State)
    requires t != []
    ensures ShapedBatch(More(h, t)) && |More(h, t).positions| == |t| && Highest(More(h, t), |t|) == map[5 := |h| + |t| - 1]
    ensures Appended(map[5 := h], More(h, t), |t|) == map[5 := h + t]
    ensures PassTokens(map[5 := h], map[5 := h + t], [5]) == map[5 := t]
  {
    MoreAppended(h, t, |t|);
    hide Highest, Appended;
    assert t[..|t|] == t && (h + t)[|h|..] == t;
  }

  lemma KeepsTable(r: Rec)
    requires r.table == ONE_USER
    ensures Given(r, [5]).table == ONE_USER
  {
    assert TakeAll(ONE_USER, [5], 0) == ONE_USER && TakeAll(ONE_USER, [5], 1) == ONE_USER;
    hide TakeAll;
  }

  lemma SetStep(a: Sys, h: State, t: State)
    requires a.r.todo == {} && a.hist == map[5 := h] && a.r.table == ONE_USER && t != [] && |h| + |t| <= MAX_INT32
    ensures Step(a, Begin(More(h, t)), SetOut(a, h, t), {CONV})
  {
    MoreContinues(h, t);
    MoreWhole(h, t);
    SetOpens(a, h, t);
    hide Opening, Appended, Highest, Continues, Int32Positions, Even, SeqsOf, More;
  }

  /** Set out, the pass has sequence 5 and slot 0 to itself. */
  ghost predicate SettingOut(a: Sys, h: State, t: State) {
    && SysOk(a, {CONV}) && a.r.todo == {CONV} && a.r.table == ONE_USER && a.hist == map[5 := h + t] && Folded(a.r, 5) == h
    && a.p.seqs == [5] && a.p.slots == [0] && a.p.tokens == map[5 := t]
  }

  lemma OwnAlone(a: Sys, h: State, t: State) returns (b: Sys)
    requires SettingOut(a, h, t) && !a.p.writable
    ensures Step(a, Own, b, {CONV}) && SettingOut(b, h, t) && b.p.writable && b.p.planned == a.p.planned
  {
    OwningNone(a.r, [5], 1);
    assert SlotsFor(a.r.table, [5]) == [0] && a.p.(slots := [0]) == a.p;
    RecParts(a.r, {CONV});
    assert |a.r.slotHist| == 1;
    b := Sys(a.hist, Opened(a.hist, a.r, a.p), a.p.(writable := true));
    hide RecOk, PassInv, SyncOk, HistOk, Opened, OwningAll, TableOk, RowsHeld;
    assert b.p.(writable := false) == a.p;
    assert IsOpened(a.hist, a.r, a.p, b.r) && AllSole(a.r, [0]);
    StepKeeps(a, Own, b, {CONV});
    OwnKeeps(a, b, {CONV});
    assert Folded(b.r, 5) == Folded(a.r, 5);
    OpenedTable(a.hist, a.r, a.p);
  }

  lemma OpenedTable(hist: map<int, seq<Token>>, r: Rec, p: Pass)
    requires |p.seqs| == |p.slots| && forall i :: 0 <= i < |p.seqs| ==> 0 <= p.slots[i] < |r.slotHist| && p.seqs[i] in p.tokens
    ensures Opened(hist, r, p).table == r.table
  {
  }

  lemma UpdateAlone(a: Sys, h: State, t: State) returns (b: Sys)
    requires SettingOut(a, h, t) && a.p.writable
    ensures Step(a, Update(CONV, [h + t]), b, {CONV}) && SysOk(b, {CONV}) && b.r.todo == {}
    ensures b.hist == a.hist && b.r.table == ONE_USER && Folded(b.r, 5) == h + t
  {
    RecParts(a.r, {CONV});
    assert |a.r.slotHist| == 1 && |a.p.planned| == 1;
    assert Folding(a.r, a.p, 0, h + t);
    var r := Updated(a.r, a.p, CONV, [h + t]);
    b := Sys(a.hist, r, After(r, a.p));
    UpdatedIs(a.r, a.p, CONV, [h + t]);
    FinishFolds(a.r, a.p, {CONV}, CONV, [h + t], 5);
    hide RecOk, PassInv, SyncOk, HistOk, Updated, TableOk, RowsHeld;
    assert IsUpdated(a.r, a.p, CONV, [h + t], r);
    StepKeeps(a, Update(CONV, [h + t]), b, {CONV});
  }

  /** One more careful step of such a run. */
  lemma CarefulExtends(run: seq<Sys>, ops: seq<Op>, op: Op, b: Sys)
    requires IsRun(run, ops, 1, {CONV}) && RefRun(run, ops, {CONV}).doubt == {} && !RefRun(run, ops, {CONV}).leaky
    requires ShapedOp(op) && Step(run[|ops|], op, b, {CONV}) && Careful(RefRun(run, ops, {CONV}), run[|ops|].r, op)
    ensures IsRun(run + [b], ops + [op], 1, {CONV}) && (run + [b])[|ops| + 1] == b
    ensures RefRun(run + [b], ops + [op], {CONV}).doubt == {} && !RefRun(run + [b], ops + [op], {CONV}).leaky
    ensures RefRun(run + [b], ops + [op], {CONV}) == RefAfter(RefRun(run, ops, {CONV}), run[|ops|], op, b, {CONV})
    ensures RunMarks(run + [b], ops + [op], {CONV}) == MarkStep(RunMarks(run, ops, {CONV}), RefRun(run, ops, {CONV}), op)
    ensures SysOk(b, {CONV}) && Agree(b, RefRun(run + [b], ops + [op], {CONV}))
  {
    var f := RefRun(run, ops, {CONV});
    hide IsRun, Step, Careful, RefRun, RunMarks, MarkStep, SysOk, Agree, ShapedOp;
    RunExtends(run, ops, 1, {CONV}, op, b);
    CarefulStep(f, run[|ops|], op, b, {CONV});
    RunAgrees(run + [b], ops + [op], 1, {CONV});
  }

  /** Sequence 5 is being taken from h on by t. */
  ghost predicate Going(run: seq<Sys>, ops: seq<Op>, h: State, t: State) {
    && IsRun(run, ops, 1, {CONV}) && RefRun(run, ops, {CONV}).doubt == {} && !RefRun(run, ops, {CONV}).leaky
    && SettingOut(run[|ops|], h, t) && Agree(run[|ops|], RefRun(run, ops, {CONV}))
  }

  lemma BeginMore(run: seq<Sys>, ops: seq<Op>, h: State, t: State) returns (run': seq<Sys>, ops': seq<Op>)
    requires Holding(run, ops, h) && t != [] && |h| + |t| <= MAX_INT32
    ensures ops' == ops + [Begin(More(h, t))] && Going(run', ops', h, t) && !run'[|ops'|].p.writable
    ensures RunMarks(run', ops', {CONV}) == RunMarks(run, ops, {CONV})
  {
    var a, f, op := run[|ops|], RefRun(run, ops, {CONV}), Begin(More(h, t));
    RunAgrees(run, ops, 1, {CONV});
    SetStep(a, h, t);
    SetOpens(a, h, t);
    var b := SetOut(a, h, t);
    MoreContinues(h, t);
    assert a.hist == f.hist && Folded(a.r, 5) == Hist(f.state, 5);
    hide IsRun, Step, RefRun, RunMarks, SysOk, Agree, Trusts, RefOk, Folded, Given, PlanAt, Opening, Continues, Int32Positions,
         SeqsOf, Even, Appended, PassTokens, More, Blank;
    MoreIsCareful(f, a.r, h, t);
    CarefulExtends(run, ops, op, b);
    run', ops' := run + [b], ops + [op];
    assert Folded(b.r, 5) == h by { StatesStay(f, a, More(h, t), b); }
  }

  lemma MoreIsCareful(f: Ref, r: Rec, h: State, t: State)
    requires f.hist == map[5 := h] && Hist(f.state, 5) == h
    ensures Careful(f, r, Begin(More(h, t)))
  {
  }

  lemma StatesStay(f: Ref, a: Sys, batch: Batch, b: Sys)
    requires ShapedBatch(batch) && Agree(a, f) && Agree(b, RefAfter(f, a, Begin(batch), b, {CONV}))
    ensures Folded(b.r, 5) == Folded(a.r, 5)
  {
    hide Folded, Appended, PassTokens, Strays;
  }

  lemma OwnMore(run: seq<Sys>, ops: seq<Op>, h: State, t: State) returns (run': seq<Sys>, ops': seq<Op>)
    requires Going(run, ops, h, t) && !run[|ops|].p.writable
    ensures ops' == ops + [Own] && Going(run', ops', h, t) && run'[|ops'|].p.writable
    ensures RunMarks(run', ops', {CONV}) == RunMarks(run, ops, {CONV})
  {
    var b := OwnAlone(run[|ops|], h, t);
    hide IsRun, Step, RefRun, RunMarks, SettingOut, RefAfter, Agree;
    CarefulExtends(run, ops, Own, b);
    run', ops' := run + [b], ops + [Own];
  }

  lemma UpdateMore(run: seq<Sys>, ops: seq<Op>, h: State, t: State) returns (run': seq<Sys>, ops': seq<Op>)
    requires Going(run, ops, h, t) && run[|ops|].p.writable
    ensures ops' == ops + [Update(CONV, [h + t])] && Holding(run', ops', h + t)
    ensures Marks(RunMarks(run', ops', {CONV}), 5) == Marked(Marks(RunMarks(run, ops, {CONV}), 5), |h| + |t| - 1)
  {
    var op := Update(CONV, [h + t]);
    var b := UpdateAlone(run[|ops|], h, t);
    assert run[|ops|].hist == map[5 := h + t];
    hide IsRun, Step, RefRun, RunMarks, SettingOut, RefAfter, Agree, SysOk, Folded, MarkStep;
    CarefulExtends(run, ops, op, b);
    LastMark(RunMarks(run, ops, {CONV}), run[|ops|], RefRun(run, ops, {CONV}), h, t);
    run', ops' := run + [b], ops + [op];
  }

  /** Sequence 5 goes on by t: one more pass. */
  lemma GoOn(run: seq<Sys>, ops: seq<Op>, h: State, t: State) returns (run': seq<Sys>, ops': seq<Op>)
    requires Holding(run, ops, h) && t != [] && |h| + |t| <= MAX_INT32
    ensures ops' == ops + [Begin(More(h, t)), Own, Update(CONV, [h + t])] && Holding(run', ops', h + t)
    ensures Marks(RunMarks(run', ops', {CONV}), 5) == Marked(Marks(RunMarks(run, ops, {CONV}), 5), |h| + |t| - 1)
  {
    hide Holding, IsRun, RefRun, RunMarks, SettingOut, Agree;
    run', ops' := BeginMore(run, ops, h, t);
    run', ops' := OwnMore(run', ops', h, t);
    run', ops' := UpdateMore(run', ops', h, t);
  }

  lemma LastMark(ms: map<int, seq<int>>, a: Sys, f: Ref, h: State, t: State)
    requires SettingOut(a, h, t) && Agree(a, f)
    ensures Marks(MarkStep(ms, f, Update(CONV, [h + t])), 5) == Marked(Marks(ms, 5), |h| + |t| - 1)
  {
    hide SysOk, Folded;
  }

  /** The run of OnePass is one to go on from. */
  lemma FirstHolds(h: State)
    requires 0 < |h| <= MAX_INT32
    ensures Holding(PassOf(h), OpsOf(h), h)
    ensures Last(Marks(RunMarks(PassOf(h), OpsOf(h), {CONV}), 5)) == if Long(h) then |h| - 1 else -1
  {
    PassRuns(h);
    RunAccounts(PassOf(h), OpsOf(h), 1, {CONV});
    RunAgrees(PassOf(h), OpsOf(h), 1, {CONV});
    EndHolds(h);
    var a, f, ms := PassOf(h)[3], RefRun(PassOf(h), OpsOf(h), {CONV}), RunMarks(PassOf(h), OpsOf(h), {CONV});
    hide IsRun, RefRun, RunMarks, SysOk, Clean, PassOf, Folded, RingOf, Trusts;
    assert Shown(a, f, ms, {CONV}, 5) && f.todo == {};
  }

  lemma EndHolds(h: State)
    requires 0 < |h|
    ensures |OpsOf(h)| == 3
    ensures var a := PassOf(h)[3];
      && a.r.todo == {} && a.hist == map[5 := h] && Folded(a.r, 5) == h && a.r.table == ONE_USER
      && RingOf(a.r, 5).lastPos == if Long(h) then |h| - 1 else -1
  {
  }

  /** The run has left sequence 5 with tokens h, all folded in, and PrepareRestore(5, |h|) finds pos. */
  ghost predicate Finds(run: seq<Sys>, ops: seq<Op>, h: State, pos: int) {
    Holding(run, ops, h) && exists x: Restore :: BestRestore(run[|ops|].r, 5, |h|, x) && x.pos == pos
  }

  lemma FindsLast(run: seq<Sys>, ops: seq<Op>, h: State)
    requires Holding(run, ops, h) && Marks(RunMarks(run, ops, {CONV}), 5) != []
    ensures Finds(run, ops, h, Last(Marks(RunMarks(run, ops, {CONV}), 5)))
  {
    RunAccounts(run, ops, 1, {CONV});
    RunAgrees(run, ops, 1, {CONV});
    var a, f, ms := run[|ops|], RefRun(run, ops, {CONV}), RunMarks(run, ops, {CONV});
    hide IsRun, RefRun, RunMarks, SysOk, Trusts, BestRestore, RingOf;
    assert Shown(a, f, ms, {CONV}, 5) && Spread(Marks(ms, 5));
    var x := BestShown(a.r, 5, Marks(ms, 5), |h|);
  }

  function TwoOps(g: State, t: State): seq<Op>
    requires g != []
  {
    OpsOf(g) + [Begin(More(g, t)), Own, Update(CONV, [g + t])]
  }

  ghost predicate TwoPassesFind(g: State, t: State, pos: int)
    requires g != []
  {
    exists run :: Finds(run, TwoOps(g, t), g + t, pos)
  }

  /** Two passes written out. Ending at 1000 and then at 3000, say, the second leaves a checkpoint of its own, at
      3000; one that ends fewer than 1664 positions behind the first leaves none, and the first is found. */
  lemma TwoPasses(g: State, t: State)
    requires 17 <= |g| && t != [] && |g| + |t| <= MAX_INT32
    ensures TwoPassesFind(g, t, if 1664 <= |t| then |g| + |t| - 1 else |g| - 1)
  {
    FirstHolds(g);
    hide Holding, IsRun, RunMarks, PassOf, OpsOf, Finds, More;
    RunSpread(PassOf(g), OpsOf(g), g);
    var run, ops := GoOn(PassOf(g), OpsOf(g), g, t);
    FindsLast(run, ops, g + t);
    assert ops == TwoOps(g, t);
  }

  lemma RunSpread(run: seq<Sys>, ops: seq<Op>, h: State)
    requires Holding(run, ops, h)
    ensures Spread(Marks(RunMarks(run, ops, {CONV}), 5))
  {
    RunAccounts(run, ops, 1, {CONV});
    hide IsRun, RunMarks, RefRun, AllShown, PlansDue;
  }
}
