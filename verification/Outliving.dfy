/** Checkpoints that outlive their sequence. CopyPrefix frees the slot of its destination without
    clearing the checkpoints there; this is what happens to whoever gets the slot next. */
module Outliving {
  import opened CacheModel
  import opened Checkpoints
  import opened Slots
  import opened RecurrentModel
  import opened Passes
  import opened RecurrentFacts
  import opened CleanSlots

  /** A sequence starting on slot k, as StartForward starts one. */
  ghost function Started(r: Rec, s: int): Rec
    requires TableOk(r.table) && r.table.free != []
  {
    Zeroed(Taken(r, s), [r.table.free[|r.table.free| - 1]])
  }

  /** A new sequence, though it has no token yet, is offered a checkpoint to go back to exactly
      when its slot was freed with checkpoints left in it. */
  lemma NewSequenceCheckpoints(r: Rec, buffers: set<Buffer>, s: int)
    requires RecOk(r, buffers) && r.todo == {} && r.table.free != [] && s !in r.table.slotForSeq
    ensures Folded(Started(r, s), s) == [] && forall b :: b in buffers ==> Read(Started(r, s), s, b) == []
    ensures (exists pos :: HasCheckpoint(Started(r, s), s, pos)) <==> Stale(r.rings, r.table.free[|r.table.free| - 1])
  {
    var k, d := r.table.free[|r.table.free| - 1], Started(r, s);
    TakenKeeps(r, buffers, s);
    ZeroedKeeps(Taken(r, s), buffers, [k]);
    forall b | b in buffers ensures Read(d, s, b) == [] {
      IdleReads(d, buffers, s, b);
    }
    if k in r.rings {
      RingInRange(r, buffers, k);
      var entries := r.rings[k].entries;
      LiveBound(entries, |entries|);
      if Stale(r.rings, k) {
        var i :| 0 <= i < |entries| && Live(entries[i]);
        assert HasCheckpoint(d, s, entries[i].pos + 1);
      }
    }
  }

  /** Remove never leaves checkpoints in a slot it frees. */
  lemma RemoveFreesClean(r: Rec, buffers: set<Buffer>, s: int)
    requires RecOk(r, buffers) && s in r.table.slotForSeq && r.table.refCount[r.table.slotForSeq[s]] == 1
    ensures !Stale(Released(r, s, true).rings, r.table.slotForSeq[s])
  {
    var k := r.table.slotForSeq[s];
    if k in r.rings {
      ResetEmpty(r.rings[k]);
    }
  }

  /** CopyPrefix leaves in the slot it frees whatever checkpoints were there. */
  lemma CopyFreesAsIs(r: Rec, buffers: set<Buffer>, src: int, dst: int)
    requires RecOk(r, buffers) && src != dst && dst in r.table.slotForSeq && r.table.refCount[r.table.slotForSeq[dst]] == 1
    ensures Stale(Copied(r, src, dst).rings, r.table.slotForSeq[dst]) <==> Stale(r.rings, r.table.slotForSeq[dst])
  {
  }

  // ---------- who is offered a stranger's checkpoint ----------

  /** A sequence moved off a shared slot is offered a checkpoint it did not have exactly when there
      were none to bring along and the slot it moves to was freed with checkpoints left in it. */
  lemma DetachedCheckpoints(r: Rec, buffers: set<Buffer>, s: int)
    requires RecOk(r, buffers) && CanDetach(r, s) && Shares(r, s)
    requires r.table.free[|r.table.free| - 1] != r.table.slotForSeq[s]
    ensures (exists pos :: HasCheckpoint(Detached(r, s), s, pos) && !HasCheckpoint(r, s, pos))
            <==> !Copies(r.rings, r.table.slotForSeq[s]) && Stale(r.rings, r.table.free[|r.table.free| - 1])
  {
    var k, src, d := r.table.free[|r.table.free| - 1], r.table.slotForSeq[s], Detached(r, s);
    if src in r.rings {
      RingInRange(r, buffers, src);
      LiveBound(r.rings[src].entries, |r.rings[src].entries|);
    }
    if k in r.rings {
      RingInRange(r, buffers, k);
      LiveBound(r.rings[k].entries, |r.rings[k].entries|);
    }
    hide RecOk, CopyRow, LiveCount, TableOk;
    if Copies(r.rings, src) {
      forall pos ensures HasCheckpoint(d, s, pos) <==> HasCheckpoint(r, s, pos) {
        SamePositions(r.rings[src], d.rings[k], pos);
      }
    } else if Stale(r.rings, k) {
      var i :| 0 <= i < |r.rings[k].entries| && Live(r.rings[k].entries[i]);
      assert d.rings == r.rings && 0 <= d.rings[k].entries[i].pos < r.rings[k].entries[i].pos + 1;
      assert HasCheckpoint(d, s, r.rings[k].entries[i].pos + 1);
    }
  }

  lemma SamePositions(a: Ring, b: Ring, pos: int)
    requires |a.entries| == |b.entries| && forall i :: 0 <= i < |a.entries| ==> a.entries[i].pos == b.entries[i].pos
    ensures (exists i :: 0 <= i < |a.entries| && 0 <= a.entries[i].pos < pos)
            <==> (exists i :: 0 <= i < |b.entries| && 0 <= b.entries[i].pos < pos)
  {
    if i :| 0 <= i < |a.entries| && 0 <= a.entries[i].pos < pos {
      assert b.entries[i].pos == a.entries[i].pos;
    }
    if i :| 0 <= i < |b.entries| && 0 <= b.entries[i].pos < pos {
      assert a.entries[i].pos == b.entries[i].pos;
    }
  }

  /** A copy in a clean cache leads to a stranger's checkpoint exactly when dst had a slot to itself
      in which PrepareRestore finds a checkpoint. The next new sequence is then offered it; */
  lemma CopyThenNew(r: Rec, buffers: set<Buffer>, src: int, dst: int, s: int)
    requires RecOk(r, buffers) && r.todo == {} && Clean(r) && src != dst
    requires Copied(r, src, dst).table.free != [] && s !in Copied(r, src, dst).table.slotForSeq
    ensures TableOk(Copied(r, src, dst).table)
    ensures (exists pos :: HasCheckpoint(Started(Copied(r, src, dst), s), s, pos)) <==> LeavesCheckpoints(r, dst)
  {
    CopiedKeeps(r, buffers, src, dst);
    var c := Copied(r, src, dst);
    RecParts(c, buffers);
    TopStale(r, buffers, src, dst);
    hide RecOk, Copied;
    NewSequenceCheckpoints(c, buffers, s);
  }

  /** and so is dst itself, when its next pass gives it a slot of its own and src had no checkpoint. */
  lemma CopyThenPass(r: Rec, buffers: set<Buffer>, src: int, dst: int)
    requires RecOk(r, buffers) && r.todo == {} && Clean(r) && src != dst
    requires Copied(r, src, dst).table.free != [] && src in r.table.slotForSeq
    ensures var c := Copied(r, src, dst);
      && CanDetach(c, dst) && Shares(c, dst)
      && ((exists pos :: HasCheckpoint(Detached(c, dst), dst, pos) && !HasCheckpoint(c, dst, pos))
          <==> LeavesCheckpoints(r, dst) && !HasCheckpoint(r, src, MAX_INT32))
  {
    CopiedKeeps(r, buffers, src, dst);
    var c := Copied(r, src, dst);
    RecParts(c, buffers);
    RecParts(r, buffers);
    TopStale(r, buffers, src, dst);
    CopySharing(r, buffers, src, dst);
    StaleIsFound(r, buffers, src);
    forall k | k in c.rings ensures |c.rings[k].entries| == CHECKPOINT_COUNT {
      RingInRange(c, buffers, k);
    }
    assert Copies(c.rings, c.table.slotForSeq[dst]) <==> Stale(r.rings, r.table.slotForSeq[src]) by {
      if r.table.slotForSeq[src] in r.rings {
        RingInRange(r, buffers, r.table.slotForSeq[src]);
      }
    }
    hide RecOk, Copied, HasCheckpoint;
    assert c.table.free[|c.table.free| - 1] in c.table.free;
    DetachedCheckpoints(c, buffers, dst);
  }

  lemma CopySharing(r: Rec, buffers: set<Buffer>, src: int, dst: int)
    requires RecOk(r, buffers) && r.todo == {} && src != dst && src in r.table.slotForSeq
    ensures var c := Copied(r, src, dst);
      && c.rings == r.rings && dst in c.table.slotForSeq && c.table.slotForSeq[dst] == r.table.slotForSeq[src] && Shares(c, dst)
  {
    RecParts(r, buffers);
    if dst in r.table.slotForSeq {
      ReleasedKeeps(r, buffers, dst, false);
      RecParts(Released(r, dst, false), buffers);
      SlotFacts(Released(r, dst, false), buffers, src);
    } else {
      SlotFacts(r, buffers, src);
    }
  }

  lemma TopStale(r: Rec, buffers: set<Buffer>, src: int, dst: int)
    requires RecOk(r, buffers) && r.todo == {} && Clean(r) && src != dst && Copied(r, src, dst).table.free != []
    ensures var c := Copied(r, src, dst);
      Stale(c.rings, c.table.free[|c.table.free| - 1]) <==> LeavesCheckpoints(r, dst)
  {
    CopiedTable(r, buffers, src, dst);
    if dst in r.table.slotForSeq {
      StaleIsFound(r, buffers, dst);
    }
    hide RecOk, Copied, HasCheckpoint, Stale;
    if dst !in r.table.slotForSeq || Shares(r, dst) {
      assert r.table.free[|r.table.free| - 1] in r.table.free;
    }
  }

  // ---------- a run in which it happens ----------

  /** Two slots: sequence 7 has folded in h and has a checkpoint at the last position of h, sequence 8
      has folded in g and has none. */
  function Two(h: State, g: State): Rec {
    var ring := Recorded(FreshRing(CHECKPOINT_COUNT), |h| - 1);
    Rec(Table(map[7 := 0, 8 := 1], [1, 1], []), map[ConvState(0) := [h, g]],
        map[0 := ring.(entries := ring.entries[0 := ring.entries[0].(saved := map[ConvState(0) := h])])],
        [h, g], [h, g], {}, map[], {})
  }

  /** 7 has been made a copy of 8: its old slot is free, with its checkpoint. */
  lemma TwoCopied(h: State, g: State)
    requires CHECKPOINT_MIN_POS < |h| <= MAX_INT32
    ensures var r, c, b := Two(h, g), Copied(Two(h, g), 8, 7), {ConvState(0)};
      && RecOk(r, b) && Clean(r) && LeavesCheckpoints(r, 7)
      && RecOk(c, b) && c == r.(table := Table(map[8 := 1, 7 := 1], [0, 2], [0]))
      && 0 in c.rings && 1 !in c.rings && |c.rings[0].entries| == CHECKPOINT_COUNT
      && c.rings[0].entries[0].pos == |h| - 1 && c.rings[0].entries[0].saved == map[ConvState(0) := h]
  {
    TwoOk(h, g);
    CopiedKeeps(Two(h, g), {ConvState(0)}, 8, 7);
    hide RecOk, Recorded, Clean, LeavesCheckpoints;
  }

  /** So a checkpoint can outlive its sequence: a new sequence on that slot is offered the state h as
      its own; */
  lemma CheckpointOutlivesSequence(h: State, g: State)
    requires CHECKPOINT_MIN_POS < |h| <= MAX_INT32
    ensures var c := Copied(Two(h, g), 8, 7); TableOk(c.table) && c.table.free == [0]
    ensures var d := Started(Copied(Two(h, g), 8, 7), 9);
      Folded(d, 9) == [] && HasCheckpoint(d, 9, |h|) && d.rings[0].entries[0].saved[ConvState(0)] == h
  {
    TwoCopied(h, g);
    var c, b := Copied(Two(h, g), 8, 7), {ConvState(0)};
    hide RecOk, Recorded, Two, Copied;
    RecParts(c, b);
    TakenKeeps(c, b, 9);
    ZeroedKeeps(Taken(c, 9), b, [0]);
    assert Started(c, 9).rings == c.rings;
    assert 0 <= c.rings[0].entries[0].pos < |h|;
  }

  /** and so is 7 itself, whose state is g, when its next pass gives it that slot. */
  lemma CheckpointOfAnotherState(h: State, g: State)
    requires CHECKPOINT_MIN_POS < |h| <= MAX_INT32
    ensures CanDetach(Copied(Two(h, g), 8, 7), 7) && Shares(Copied(Two(h, g), 8, 7), 7)
    ensures var d := Detached(Copied(Two(h, g), 8, 7), 7);
      Folded(d, 7) == g && HasCheckpoint(d, 7, |h|) && d.rings[0].entries[0].saved[ConvState(0)] == h
  {
    TwoCopied(h, g);
    var c, b := Copied(Two(h, g), 8, 7), {ConvState(0)};
    hide RecOk, Recorded, Two, Copied;
    RecParts(c, b);
    DetachedKeeps(c, b, 7);
    assert Folded(c, 7) == g by { TwoHist(h, g); }
    assert Detached(c, 7).rings == c.rings;
    assert 0 <= c.rings[0].entries[0].pos < |h|;
  }

  lemma TwoHist(h: State, g: State)
    ensures Two(h, g).slotHist == [h, g]
  {
  }

  lemma TwoOk(h: State, g: State)
    requires CHECKPOINT_MIN_POS < |h| <= MAX_INT32
    ensures var r := Two(h, g);
      && RecOk(r, {ConvState(0)}) && Clean(r) && LeavesCheckpoints(r, 7)
      && r.rings.Keys == {0} && |r.rings[0].entries| == CHECKPOINT_COUNT
      && r.rings[0].entries[0].pos == |h| - 1 && r.rings[0].entries[0].saved == map[ConvState(0) := h]
  {
    var r, b := Two(h, g), ConvState(0);
    TwoClaim(h, g);
    hide RingClaim, Recorded;
    assert Users(r.table.slotForSeq, 0) == {7} && Users(r.table.slotForSeq, 1) == {8};
    assert RowHeld(r, b, 0) && RowHeld(r, b, 1);
  }

  lemma TwoClaim(h: State, g: State)
    requires CHECKPOINT_MIN_POS < |h| <= MAX_INT32
    ensures var r := Two(h, g);
      && RingClaim(r, 0, {ConvState(0)}, {ConvState(0)}) && |r.rings[0].entries| == CHECKPOINT_COUNT
      && r.rings[0].entries[0].pos == |h| - 1 && r.rings[0].entries[0].saved == map[ConvState(0) := h]
  {
    var r, b := Two(h, g), ConvState(0);
    FreshRingEmpty(CHECKPOINT_COUNT);
    RecordKeeps(FreshRing(CHECKPOINT_COUNT), |h| - 1);
    SaveKeeps(Recorded(FreshRing(CHECKPOINT_COUNT), |h| - 1), 0, map[b := h]);
    hide RingShape, RingOk;
    assert h[..|h|] == h && EntryHas(r.rings[0].entries[0], {b}, h);
    forall i | 0 <= i < CHECKPOINT_COUNT ensures EntryClaim(r, 0, i, {b}) {}
  }
}
