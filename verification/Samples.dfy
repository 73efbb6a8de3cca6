/** Runs from an empty cache in which the limits show. */
module Samples {
  import opened Tokens
  import opened CacheModel
  import opened Sharing
  import opened Checkpoints
  import opened Slots
  import opened RecurrentModel
  import opened Passes
  import opened RecurrentFacts
  import opened RecurrentSteps
  import opened CleanSlots
  import opened RecurrentRuns
  import opened OnePass
  import opened Limits

  /** Sequence 5 has come with two tokens in one pass. */
  function TwoTokens(t: Token, u: Token): Sys {
    PassOf([t, u])[3]
  }

  lemma TwoTokensAre(t: Token, u: Token)
    ensures TwoTokens(t, u) == Sys(map[5 := [t, u]], Rec(ONE_USER, map[CONV := [[t, u]]], map[], [[t, u]], [[t, u]], {}, map[], {}),
                                   Pass([5], [0], map[], [-1], true))
    ensures SysOk(TwoTokens(t, u), {CONV}) && Clean(TwoTokens(t, u).r) && Exact(TwoTokens(t, u), 5)
  {
    PassRuns([t, u]);
    hide IsRun, RefRun, SysOk, EndRing;
  }

  /** Sequence 5 holds two tokens, and its tail cannot be removed: there is nothing to restore. */
  lemma TailRefused(t: Token, u: Token, target: int, kept: int, b: Sys)
    ensures Hist(TwoTokens(t, u).hist, 5) == [t, u]
    ensures !HasCheckpoint(TwoTokens(t, u).r, 5, target) && !Step(TwoTokens(t, u), RollBack(5, target, kept), b, {CONV})
  {
    var run, ops, a := PassOf([t, u]), OpsOf([t, u]), TwoTokens(t, u);
    PassRuns([t, u]);
    ShortRunsKeepTails(run, ops, 1, {CONV}, 5, target);
    ShortRings(a);
    hide IsRun, RefRun, SysOk;
    if x: Restore :| BestRestore(a.r, 5, target, x) {
      NoneToRestore(a.r, 5, target, x);
    }
  }

  /** Its first token removed, it still has its second, and no state. */
  lemma RemoveStartLosesState(t: Token, u: Token)
    ensures exists b: Sys ::
      Step(TwoTokens(t, u), RemoveStart(5, 1), b, {CONV}) && Hist(b.hist, 5) == [u] && Folded(b.r, 5) == []
  {
    var a := TwoTokens(t, u);
    TwoTokensAre(t, u);
    var b := Sys(SetHist(a.hist, 5, Cut(Hist(a.hist, 5), 0, 1)), Released(a.r, 5, true), a.p);
    ReleasedKeeps(a.r, {CONV}, 5, true);
    assert Step(a, RemoveStart(5, 1), b, {CONV});
  }

  /** A copy of its first token comes with the state of both. */
  lemma ShortCopyRunsAhead(t: Token, u: Token)
    ensures exists b: Sys ::
      Step(TwoTokens(t, u), Copy(5, 6, 1), b, {CONV}) && Hist(b.hist, 6) == [t] && Folded(b.r, 6) == [t, u]
  {
    var a := TwoTokens(t, u);
    TwoTokensAre(t, u);
    var b := Sys(SetHist(a.hist, 6, Prefix(Hist(a.hist, 5), 1)), Copied(a.r, 5, 6), a.p);
    CopiedKeeps(a.r, {CONV}, 5, 6);
    assert Step(a, Copy(5, 6, 1), b, {CONV});
  }

  /** With 5 gone, 8 and 9 come in one batch, and one slot is not enough. 8 has it now, with the state
      of 5 in it. */
  lemma SlotsRunOut(t: Token, u: Token)
    ensures var a := TwoTokens(t, u);
      && TableOk(a.r.table) && IsReleased(a.r, 5, Released(a.r, 5, true))
    ensures var r := Released(TwoTokens(t, u).r, 5, true);
      && OutOfSlots(r, r.(table := TakeAll(r.table, [8, 9], 2)), [8, 9])
      && Folded(r, 8) == [] && Folded(r.(table := TakeAll(r.table, [8, 9], 2)), 8) == [t, u]
  {
    FreedState(t, u);
    FreedRunsOut();
    hide Released, TwoTokens, TakeAll, Unmapped, TableOk;
  }

  lemma FreedState(t: Token, u: Token)
    ensures TableOk(TwoTokens(t, u).r.table) && IsReleased(TwoTokens(t, u).r, 5, Released(TwoTokens(t, u).r, 5, true))
    ensures var r := Released(TwoTokens(t, u).r, 5, true); r.table == FREED && r.slotHist == [[t, u]]
  {
    TwoTokensAre(t, u);
    hide PassInv, SyncOk, HistOk, RowsHeld, RingClaim, Exact, TwoTokens;
  }

  const FREED := Table(map[], [0], [0])

  lemma FreedRunsOut()
    ensures TakeAll(FREED, [8, 9], 2) == Table(map[8 := 0], [1], []) && |Unmapped(FREED, [8, 9], 2)| == 2
    ensures |FREED.slotForSeq.Keys + (set s | s in [8, 9])| == 2
  {
    assert TakeAll(FREED, [8, 9], 0) == FREED;
    assert TakeAll(FREED, [8, 9], 1) == Table(map[8 := 0], [1], []);
    UnmappedStep(FREED, [8, 9], 0);
    UnmappedStep(FREED, [8, 9], 1);
    NobodyUnmapped(FREED, [8, 9]);
    assert 8 in [8, 9] && 9 in [8, 9];
    assert FREED.slotForSeq.Keys + (set s | s in [8, 9]) == {8, 9};
  }

  function Uneven(t: Token, u: Token): Batch {
    Batch([2, 3, 0], [5, 5, 6], [t, u, t])
  }

  /** Two more tokens of 5 and one of a new sequence 6 come in one batch: refused, and stored. */
  lemma UnevenRefused(t: Token, u: Token)
    ensures exists b: Sys ::
      Step(TwoTokens(t, u), Refuse(Uneven(t, u)), b, {CONV}) && Hist(b.hist, 6) == [t] && Folded(b.r, 6) == []
  {
    var a, batch := TwoTokens(t, u), Uneven(t, u);
    TwoTokensAre(t, u);
    UnevenCounts(t, u);
    UnevenContinues(t, u);
    var b := Sys(Appended(a.hist, batch, 3), a.r, a.p);
    hide TwoTokens, Uneven, Even, Step, SysOk, Appended, Continues, Int32Positions;
    RefuseIs(a, batch, b, {CONV});
  }

  lemma RefuseIs(a: Sys, batch: Batch, b: Sys, buffers: set<Buffer>)
    requires a.r.todo == {} && a.p.tokens == map[] && Continues(a.hist, batch) && Int32Positions(batch)
    requires !(exists c :: Even(batch, c)) && b == Sys(Appended(a.hist, batch, |batch.positions|), a.r, a.p)
    ensures Step(a, Refuse(batch), b, buffers)
  {
  }

  lemma UnevenContinues(t: Token, u: Token)
    ensures |Uneven(t, u).positions| == 3 && Continues(map[5 := [t, u]], Uneven(t, u)) && Int32Positions(Uneven(t, u))
    ensures Hist(Appended(map[5 := [t, u]], Uneven(t, u), 3), 6) == [t]
  {
    var hist, batch := map[5 := [t, u]], Uneven(t, u);
    UnevenAppended(t, u);
    assert ContinuesAt(hist, batch, 0) && ContinuesAt(hist, batch, 1) && ContinuesAt(hist, batch, 2);
  }

  lemma UnevenCounts(t: Token, u: Token)
    ensures !exists c :: Even(Uneven(t, u), c)
  {
    var batch, ss := Uneven(t, u), [5, 5, 6];
    assert Count(ss, 1, 5) == 1 && Count(ss, 2, 5) == 2;
    assert Count(ss, 1, 6) == 0 && Count(ss, 2, 6) == 0;
    assert batch.sequences[0] == 5 && batch.sequences[2] == 6;
    assert InBatch(batch, 3, 5) && InBatch(batch, 3, 6);
  }

  lemma UnevenAppended(t: Token, u: Token)
    ensures var hist, batch := map[5 := [t, u]], Uneven(t, u);
      && |Hist(Appended(hist, batch, 0), 5)| == 2 && |Hist(Appended(hist, batch, 1), 5)| == 3
      && Hist(Appended(hist, batch, 2), 6) == [] && Hist(Appended(hist, batch, 3), 6) == [t]
  {
    var hist, batch := map[5 := [t, u]], Uneven(t, u);
    AppendedStep(hist, batch, 0, 5);
    AppendedStep(hist, batch, 0, 6);
    AppendedStep(hist, batch, 1, 6);
    AppendedStep(hist, batch, 2, 6);
  }

  // ---------- a checkpoint moved with the tokens ----------

  /** The ring after [1, 2) was removed: the checkpoint has moved down with the last token. */
  function Moved(h: State): Ring
    requires Long(h)
  {
    Ring(EndRing(h).entries[0 := Entry(|h| - 2, map[CONV := h])], 1, 1, |h| - 2)
  }

  /** Sequence 5 with its second token cut out. */
  function Cutting(h: State): Sys
    requires Long(h)
  {
    Sys(map[5 := h[..1] + h[2..]], AtEnd(h).(rings := map[0 := Moved(h)], tainted := {0}), PassOf(h)[3].p)
  }

  lemma MovedIs(h: State)
    requires Long(h) && |h| <= MAX_INT32
    ensures |EndRing(h).entries| == |Moved(h).entries| == CHECKPOINT_COUNT
    ensures Moved(h).entries == ShiftEntries(EndRing(h).entries, 1, 2) == PruneEntries(Moved(h).entries, |h| - 2)
    ensures Rebuilt(Moved(h), |h| - 2) && IsGreatest(Moved(h).entries, CHECKPOINT_COUNT, |h| - 2)
    ensures IsBest(Moved(h).entries, |h| - 1, 0)
  {
    var none := FreshRing(CHECKPOINT_COUNT).entries;
    var e := Moved(h).entries;
    LiveBound(none, CHECKPOINT_COUNT);
    LiveUpdate(none, 0, Entry(|h| - 2, map[CONV := h]), CHECKPOINT_COUNT);
    assert e == none[0 := Entry(|h| - 2, map[CONV := h])];
    assert e[0].pos == |h| - 2 && forall i :: 0 < i < CHECKPOINT_COUNT ==> e[i].pos == -1;
  }

  lemma CuttingSteps(h: State)
    requires Long(h) && |h| <= MAX_INT32
    ensures Step(PassOf(h)[3], RemoveMiddle(5, 1, 2), Cutting(h), {CONV})
  {
    var a, b := PassOf(h)[3], Cutting(h);
    MovedIs(h);
    assert !Shares(a.r, 5) && Owning(a.r, 5) == a.r;
    hide Moved, EndRing, ShiftEntries, Rebuilt, IsGreatest;
    assert IsShifted(a.r, 0, 1, 2, b.r);
    assert CutsMiddle(a.r, 5, 1, 2, b.r);
    assert Cut(h, 1, 2) == h[..1] + h[2..];
  }

  /** Rolled back to all the tokens it has left, sequence 5 gets back the state that holds the cut token
      too: a checkpoint behind the cut is not one of the tokens that are kept. */
  lemma MovedCheckpointIsWrong(h: State)
    requires Long(h) && |h| <= MAX_INT32
    ensures IsRun(PassOf(h), OpsOf(h), 1, {CONV}) && Step(PassOf(h)[3], RemoveMiddle(5, 1, 2), Cutting(h), {CONV})
    ensures exists c: Sys ::
      Step(Cutting(h), RollBack(5, |h| - 1, |h| - 1), c, {CONV}) && Hist(c.hist, 5) == h[..1] + h[2..] && Folded(c.r, 5) == h
  {
    PassRuns(h);
    CuttingSteps(h);
    hide IsRun, RefRun, SysOk, Step, Cutting;
    var c := MovedStep(h);
  }

  lemma MovedStep(h: State) returns (c: Sys)
    requires Long(h) && |h| <= MAX_INT32
    ensures Step(Cutting(h), RollBack(5, |h| - 1, |h| - 1), c, {CONV}) && Hist(c.hist, 5) == h[..1] + h[2..] && Folded(c.r, 5) == h
  {
    var d := MovedRestored(h);
    var b, x := Cutting(h), Restore(0, 0, |h| - 2);
    CuttingIs(h);
    hide Cutting;
    var left := h[..1] + h[2..];
    assert |left| == |h| - 1;
    CutTail(left, |h| - 1);
    assert Prefix(left, |h| - 1) == left;
    hide IsRolledBack, Step, BestRestore, Cut, RollsBackTo, Prefix;
    c := Sys(SetHist(b.hist, 5, Cut(left, |h| - 1, MAX_INT32)), d, b.p);
    RollBackStep(b, 5, x, c, {CONV});
    RollsThere(b, 5, |h| - 1, x, c);
  }

  lemma RollsThere(b: Sys, s: int, target: int, x: Restore, c: Sys)
    requires RollsBackTo(b, s, x, c, {CONV}) && BestRestore(b.r, s, target, x)
    ensures Step(b, RollBack(s, target, x.pos + 1), c, {CONV})
  {
    hide Step, BestRestore;
  }

  lemma CuttingIs(h: State)
    requires Long(h)
    ensures Cutting(h).r.todo == {} && Hist(Cutting(h).hist, 5) == h[..1] + h[2..]
  {
  }

  /** The moved checkpoint is the best one below the end, and holds h. */
  lemma MovedRestored(h: State) returns (d: Rec)
    requires Long(h) && |h| <= MAX_INT32
    ensures BestRestore(Cutting(h).r, 5, |h| - 1, Restore(0, 0, |h| - 2))
    ensures IsRolledBack(Cutting(h).r, 5, Restore(0, 0, |h| - 2), {CONV}, d) && Folded(d, 5) == h
  {
    MovedIs(h);
    var r := Cutting(h).r;
    var e := r.rings[0].entries[0];
    assert e.saved == map[CONV := h] && EntryHas(e, {CONV}, h);
    SavedIs(e, {CONV}, h);
    d := Restored(r, {CONV}, 0, 0, Moved(h));
    RestoresMoved(h, d);
  }

  lemma RestoresMoved(h: State, d: Rec)
    requires Long(h) && |h| <= MAX_INT32 && EntryAny(Cutting(h).r.rings[0].entries[0], {CONV})
    requires SavedHist(Cutting(h).r.rings[0].entries[0], {CONV}) == h
    requires d == Restored(Cutting(h).r, {CONV}, 0, 0, Moved(h))
    ensures IsRolledBack(Cutting(h).r, 5, Restore(0, 0, |h| - 2), {CONV}, d) && Folded(d, 5) == h
  {
    MovedIs(h);
    var r := Cutting(h).r;
    assert !Shares(r, 5) && Owning(r, 5) == r;
    hide Moved, EndRing, PruneEntries, Rebuilt, RestoreRows;
    assert d.rings[0] == Moved(h);
  }
}
