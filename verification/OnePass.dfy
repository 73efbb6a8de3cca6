/** A run of the recurrent cache written out: one slot, one sequence, all of its tokens in one pass. */
module OnePass {
  import opened CacheModel
  import opened Rows
  import opened Checkpoints
  import opened Slots
  import opened RecurrentModel
  import opened Passes
  import opened Order
  import opened RecurrentFacts
  import opened RecurrentSteps
  import opened CleanSlots
  import opened Reference
  import opened RecurrentRuns

  const CONV := Buffer.ConvState(0)

  function Whole(h: State): Batch {
    Batch(seq(|h|, i => i), seq(|h|, _ => 5), h)
  }

  /** Long enough for a checkpoint at its end. */
  predicate Long(h: State) {
    CHECKPOINT_MIN_POS < |h|
  }

  /** A ring with that one checkpoint. */
  function EndRing(h: State): Ring {
    var ring := Recorded(FreshRing(CHECKPOINT_COUNT), |h| - 1);
    ring.(entries := ring.entries[0 := ring.entries[0].(saved := map[CONV := h])])
  }

  const ONE_USER := Table(map[5 := 0], [1], [])

  function Starting(h: State): Pass {
    Pass([5], [0], map[5 := h], [if Long(h) then |h| - 1 else -1], false)
  }

  function AtStart(h: State): Rec {
    Rec(ONE_USER, map[], if Long(h) then map[0 := FreshRing(CHECKPOINT_COUNT)] else map[], [[]], [[]], {CONV}, map[], {})
  }

  function AtEnd(h: State): Rec {
    Rec(ONE_USER, map[CONV := [h]], if Long(h) then map[0 := EndRing(h)] else map[], [h], [h], {},
        if Long(h) then map[0 := 0] else map[], {})
  }

  function PassOf(h: State): seq<Sys> {
    [Sys(map[], EmptyRec(1), Pass([], [], map[], [], false)),
     Sys(map[5 := h], AtStart(h), Starting(h)),
     Sys(map[5 := h], AtStart(h).(target := [h]), Starting(h).(writable := true)),
     Sys(map[5 := h], AtEnd(h), Starting(h).(writable := true, tokens := map[]))]
  }

  function OpsOf(h: State): seq<Op> {
    [Begin(Whole(h)), Own, Update(CONV, [h])]
  }

  lemma {:induction false} WholeAppended(h: State, k: nat)
    requires 0 < |h| && k <= |h|
    ensures Appended(map[], Whole(h), k) == if k == 0 then map[] else map[5 := h[..k]]
    ensures Highest(Whole(h), k) == if k == 0 then map[] else map[5 := k - 1]
    ensures Hist(Appended(map[], Whole(h), k), 5) == h[..k]
  {
    if k > 0 {
      WholeAppended(h, k - 1);
      assert h[..k] == h[..k - 1] + [h[k - 1]];
    }
  }

  lemma WholeContinues(h: State)
    requires 0 < |h| <= MAX_INT32
    ensures Continues(map[], Whole(h)) && Int32Positions(Whole(h)) && SeqsOf(Whole(h), [5]) && Even(Whole(h), |h|)
  {
    forall k | 0 <= k < |h| ensures ContinuesAt(map[], Whole(h), k) {
      WholeAppended(h, k);
    }
    OneSequence(Whole(h), 5);
  }

  lemma OneSlot()
    ensures EmptyRec(1).table == Table(map[], [0], [0]) && EmptyRec(1).slotHist == [[]] == EmptyRec(1).target
    ensures TakeAll(EmptyRec(1).table, [5], 1) == ONE_USER
  {
    assert EmptyRec(1).table == Table(map[], [0], [0]);
    assert TakeAll(EmptyRec(1).table, [5], 0) == EmptyRec(1).table;
  }

  lemma GivenOne()
    ensures Given(EmptyRec(1), [5]) == Rec(ONE_USER, map[], map[], [[]], [[]], {}, map[], {})
  {
    OneSlot();
    assert Blank([[]], [0]) == [[]];
    assert Handed(EmptyRec(1).table, ONE_USER) == [0];
  }

  lemma PassBegins(h: State)
    requires 0 < |h| <= MAX_INT32
    ensures Step(PassOf(h)[0], Begin(Whole(h)), PassOf(h)[1], {CONV})
  {
    var a, b, batch := PassOf(h)[0], PassOf(h)[1], Whole(h);
    WholeContinues(h);
    WholeAppended(h, |h|);
    assert h[..|h|] == h;
    EmptyParts();
    hide Appended, Highest, Continues, Int32Positions, Even, EmptyRec, SeqsOf;
    PassOpens(h);
    hide Opening, Whole, AtStart, Starting;
    assert Stored(a, batch, b);
  }

  lemma PassTokensAre(h: State)
    requires 0 < |h|
    ensures PassTokens(map[], map[5 := h], [5]) == map[5 := h]
  {
  }

  lemma PassOpens(h: State)
    requires 0 < |h| <= MAX_INT32
    ensures Opening(map[], Whole(h), EmptyRec(1), AtStart(h), Starting(h), {CONV})
  {
    GivenOne();
    WholeContinues(h);
    WholeAppended(h, |h|);
    assert h[..|h|] == h;
    PassTokensAre(h);
    EmptyParts();
    hide Given, Appended, Highest, Continues, Int32Positions, Even, EmptyRec, PassTokens, SeqsOf;
  }

  lemma EmptyParts()
    ensures EmptyRec(1).rings == map[] && EmptyRec(1).todo == {}
  {
  }

  lemma PassOwns(h: State)
    requires 0 < |h| <= MAX_INT32
    ensures Step(PassOf(h)[1], Own, PassOf(h)[2], {CONV})
  {
    var a, p := PassOf(h)[1], PassOf(h)[1].p;
    OwningNone(a.r, p.seqs, 1);
    assert SlotsFor(a.r.table, p.seqs) == [0];
    assert InStep(a.hist, a.r, p, 5);
    assert Straying(a.hist, a.r, p) == {};
    assert Targets(a.r, p, 0) == [[]];
    assert Targets(a.r, p, 1) == [h];
    assert IsOpened(a.hist, a.r, p, PassOf(h)[2].r);
  }

  lemma PassCaptures(h: State)
    requires 0 < |h| <= MAX_INT32
    ensures var a := PassOf(h)[2];
      CaptureAll(a.r, a.p, CONV, [h], 1) == a.r.(rings := AtEnd(h).rings, capture := AtEnd(h).capture)
  {
    var a := PassOf(h)[2];
    assert CaptureAll(a.r, a.p, CONV, [h], 0) == a.r;
    if Long(h) {
      assert WithRing(a.r, 0) == a.r;
      assert Captured(a.r, 0, |h| - 1, CONV, h) == CaptureAt(a.r, 0, |h| - 1, CONV, h);
    }
  }

  lemma PassUpdates(h: State)
    requires 0 < |h| <= MAX_INT32
    ensures Step(PassOf(h)[2], Update(CONV, [h]), PassOf(h)[3], {CONV})
  {
    var a, p := PassOf(h)[2], PassOf(h)[2].p;
    PassCaptures(h);
    var zero: State := [];
    assert seq(1, _ => zero) == [zero];
    assert Created(a.r.states, CONV, 1) == map[CONV := [[]]];
    assert SetRows([[]], [0], [h], 0) == [[]];
    assert SetRows([[]], [0], [h], 1) == [h];
    assert Folding(a.r, p, 0, h);
    hide CaptureAll, EndRing;
    assert IsUpdated(a.r, p, CONV, [h], PassOf(h)[3].r);
    assert PassOf(h)[3].p == After(PassOf(h)[3].r, p);
  }

  /** It is a run, and leaves no sequence in doubt. */
  lemma PassRuns(h: State)
    requires 0 < |h| <= MAX_INT32
    ensures IsRun(PassOf(h), OpsOf(h), 1, {CONV}) && SysOk(PassOf(h)[3], {CONV}) && Clean(PassOf(h)[3].r)
    ensures RefRun(PassOf(h), OpsOf(h), {CONV}).doubt == RefRun(PassOf(h), OpsOf(h), {CONV}).lag == {}
    ensures !RefRun(PassOf(h), OpsOf(h), {CONV}).leaky
  {
    PassIsRun(h);
    PassAccounts(h);
    EndIsClean(h);
    hide IsRun, RefRun, Clean, SysOk;
    RunAgrees(PassOf(h), OpsOf(h), 1, {CONV});
  }

  lemma EndIsClean(h: State)
    ensures Clean(PassOf(h)[3].r)
  {
  }

  lemma PassIsRun(h: State)
    requires 0 < |h| <= MAX_INT32
    ensures IsRun(PassOf(h), OpsOf(h), 1, {CONV})
  {
    PassBegins(h);
    PassOwns(h);
    PassUpdates(h);
    PassShape(h);
    hide Step, EmptyRec, PassOf, OpsOf, ShapedOp;
    ThreeSteps(PassOf(h), OpsOf(h));
  }

  lemma ThreeSteps(run: seq<Sys>, ops: seq<Op>)
    requires |run| == 4 && |ops| == 3 && run[0].hist == map[] && run[0].r == EmptyRec(1) && run[0].p.tokens == map[]
    requires ShapedOp(ops[0]) && ShapedOp(ops[1]) && ShapedOp(ops[2])
    requires Step(run[0], ops[0], run[1], {CONV}) && Step(run[1], ops[1], run[2], {CONV}) && Step(run[2], ops[2], run[3], {CONV})
    ensures IsRun(run, ops, 1, {CONV})
  {
    hide Step, EmptyRec, ShapedOp;
    forall i | 0 <= i < 3 ensures ShapedOp(ops[i]) && Step(run[i], ops[i], run[i + 1], {CONV}) {
      assert i == 0 || i == 1 || i == 2;
    }
  }

  lemma PassShape(h: State)
    requires 0 < |h|
    ensures var run, ops := PassOf(h), OpsOf(h);
      && |run| == 4 && |ops| == 3 && run[0].hist == map[] && run[0].r == EmptyRec(1) && run[0].p.tokens == map[]
      && ops[0] == Begin(Whole(h)) && ops[1] == Own && ops[2] == Update(CONV, [h])
      && ShapedOp(ops[0]) && ShapedOp(ops[1]) && ShapedOp(ops[2])
  {
  }

  lemma PassAccounts(h: State)
    requires 0 < |h|
    ensures RefRun(PassOf(h), OpsOf(h), {CONV}).doubt == RefRun(PassOf(h), OpsOf(h), {CONV}).lag == {}
    ensures !RefRun(PassOf(h), OpsOf(h), {CONV}).leaky
  {
    var run, ops := PassOf(h), OpsOf(h);
    hide PassTokens, Appended, Shares, LeavesCheckpoints;
    var f0 := RefRun(run[..3][..2][..1], ops[..2][..1][..0], {CONV});
    var f1 := RefRun(run[..3][..2], ops[..2][..1], {CONV});
    var f2 := RefRun(run[..3], ops[..2], {CONV});
    assert f0 == NOTHING;
    assert f1.doubt == f1.lag == {} && !f1.leaky && f1.todo == {CONV};
    assert f2.doubt == f2.lag == {} && !f2.leaky && f2.todo == {CONV};
  }
}
