/** Where the recurrent cache does less than a caller might hope: which removals, copies and refusals
    leave a sequence out of step, when slots run out, when a tail removal is refused. The exact
    conditions; Samples has runs in which each of them happens. */
module Limits {
  import opened Tokens
  import opened CacheModel
  import opened Sharing
  import opened Checkpoints
  import opened Slots
  import opened RecurrentModel
  import opened Passes
  import opened RecurrentFacts
  import opened RecurrentSteps
  import opened CleanSlots
  import opened Reference
  import opened RecurrentRuns

  /** The state of s holds exactly its tokens, so that a pass may go on with it. */
  ghost predicate Exact(a: Sys, s: int) {
    Hist(a.hist, s) == Folded(a.r, s)
  }

  // ---------- exact conditions ----------

  /** A removal from the start gives up the whole state: s can go on from it just when the removal
      reached the end. */
  lemma RemoveStartExact(a: Sys, s: int, end: int, b: Sys, buffers: set<Buffer>)
    requires SysOk(a, buffers) && Step(a, RemoveStart(s, end), b, buffers) && Exact(a, s)
    ensures Exact(b, s) <==> |Hist(a.hist, s)| <= end
  {
    ReleasedStates(a.r, buffers, s, b.r, a.p);
    HistSet(a.hist, s, Cut(Hist(a.hist, s), 0, end));
    hide RecOk, IsReleased, Folded;
  }

  /** A copy shares the whole state: dst can go on from it just when the copy was not cut short. */
  lemma CopyExact(a: Sys, src: int, dst: int, len: int, b: Sys, buffers: set<Buffer>)
    requires SysOk(a, buffers) && Step(a, Copy(src, dst, len), b, buffers) && Exact(a, src) && 0 <= len
    ensures Exact(b, dst) <==> |Hist(a.hist, src)| <= len
  {
    CopiedKeeps(a.r, buffers, src, dst);
    HistSet(a.hist, dst, Prefix(Hist(a.hist, src), len));
    hide RecOk, Copied, Folded;
  }

  lemma CutExact(h: seq<Token>, begin: int, end: int)
    requires 0 <= begin <= end
    ensures Cut(h, begin, end) == h <==> |h| <= begin || begin == end
  {
    if begin < |h| && begin == end {
      assert h[..begin] + h[begin..] == h;
    }
  }

  /** A middle removal leaves the state alone: s can go on from it just when nothing was cut. */
  lemma MiddleExact(a: Sys, s: int, begin: int, end: int, b: Sys, buffers: set<Buffer>)
    requires SysOk(a, buffers) && Step(a, RemoveMiddle(s, begin, end), b, buffers) && Exact(a, s)
    ensures Exact(b, s) <==> |Hist(a.hist, s)| <= begin || begin == end
  {
    MiddleKeeps(a.r, buffers, s, begin, end, b.r);
    HistSet(a.hist, s, Cut(Hist(a.hist, s), begin, end));
    CutExact(Hist(a.hist, s), begin, end);
    assert Folded(b.r, s) == Folded(a.r, s);
    hide RecOk, CutsMiddle, Folded, Cut;
  }

  /** Before the cut the checkpoints of s are what they were: each holds the fold of the tokens up to
      its position. */
  lemma MiddleKeepsEarlier(a: Sys, s: int, begin: int, end: int, b: Sys, buffers: set<Buffer>, i: int)
    requires SysOk(a, buffers) && Step(a, RemoveMiddle(s, begin, end), b, buffers) && Clean(a.r) && Exact(a, s)
    requires s in b.r.table.slotForSeq && b.r.table.slotForSeq[s] in b.r.rings
    requires 0 <= i < |b.r.rings[b.r.table.slotForSeq[s]].entries| && 0 <= b.r.rings[b.r.table.slotForSeq[s]].entries[i].pos < begin
    ensures EntryOk(b.r.rings[b.r.table.slotForSeq[s]].entries[i], buffers, Hist(b.hist, s))
  {
    OwningKeeps(a.r, buffers, s);
    OwningClean(a.r, buffers, s);
    var own := Owning(a.r, s);
    var k := own.table.slotForSeq[s];
    assert IsShifted(own, k, begin, end, b.r) && b.r.table == own.table && k !in own.tainted;
    MiddleParts(a, s, begin, end, b, buffers);
    hide Step, CutsMiddle, Clean, EntryOk, IsShifted;
    EarlierEntry(own, b.r, buffers, k, begin, end, i);
    assert own.slotHist[k] == Hist(a.hist, s) by {
      SlotFacts(own, buffers, s);
      RecParts(own, buffers);
      assert Folded(own, s) == Folded(a.r, s);
    }
    hide SysOk, RecOk, Owning;
    CutKeepsEntry(b.r.rings[k].entries[i], buffers, Hist(a.hist, s), begin, end);
  }

  lemma CutKeepsEntry(e: Entry, buffers: set<Buffer>, h: State, begin: int, end: int)
    requires EntryOk(e, buffers, h) && 0 < begin <= end && e.pos < begin
    ensures EntryOk(e, buffers, Cut(h, begin, end))
  {
    assert Cut(h, begin, end)[..e.pos + 1] == h[..e.pos + 1];
  }

  lemma EarlierEntry(r: Rec, d: Rec, buffers: set<Buffer>, k: int, begin: int, end: int, i: int)
    requires RecOk(r, buffers) && r.todo == {} && 0 < begin <= end && IsShifted(r, k, begin, end, d) && k !in r.tainted
    requires k in d.rings && 0 <= i < |d.rings[k].entries| && 0 <= d.rings[k].entries[i].pos < begin
    ensures 0 <= k < |r.slotHist| && EntryOk(d.rings[k].entries[i], buffers, r.slotHist[k])
  {
    RingInRange(r, buffers, k);
    ShiftEntryIs(r.rings[k].entries, begin, end, i);
    assert EntryClaim(r, k, i, buffers);
  }

  /** So a rollback to before the cut restores the fold of exactly the tokens it keeps, though s is in
      doubt. */
  lemma RollBackBeforeCut(a: Sys, s: int, begin: int, end: int, b: Sys, target: int, kept: int, c: Sys, buffers: set<Buffer>)
    requires SysOk(a, buffers) && Step(a, RemoveMiddle(s, begin, end), b, buffers) && Clean(a.r) && Exact(a, s)
    requires Step(b, RollBack(s, target, kept), c, buffers) && kept <= begin
    ensures Folded(c.r, s) == Hist(c.hist, s) == Prefix(Hist(a.hist, s), kept)
  {
    StepKeeps(a, RemoveMiddle(s, begin, end), b, buffers);
    MiddleParts(a, s, begin, end, b, buffers);
    var x: Restore :| BestRestore(b.r, s, target, x) && x.pos + 1 == kept && IsRolledBack(b.r, s, x, buffers, c.r);
    MiddleKeepsEarlier(a, s, begin, end, b, buffers, x.idx);
    var h, h' := Hist(a.hist, s), Hist(b.hist, s);
    assert RecOk(b.r, buffers) && b.r.todo == {} && HistOk(b.hist);
    assert c.hist == SetHist(b.hist, s, Cut(h', kept, MAX_INT32));
    hide SysOk, Step, IsRolledBack, Shares, EntryOk, HistOk, RecOk, Folded;
    RestoresEntry(b.r, buffers, s, x, c.r, h');
    HistBound(b.hist, s);
    CutTail(h', kept);
    HistSet(b.hist, s, Prefix(h', kept));
    PrefixOfCut(h, begin, end, kept);
  }

  lemma MiddleParts(a: Sys, s: int, begin: int, end: int, b: Sys, buffers: set<Buffer>)
    requires Step(a, RemoveMiddle(s, begin, end), b, buffers)
    ensures 0 < begin <= end && Hist(b.hist, s) == Cut(Hist(a.hist, s), begin, end)
    ensures s in b.r.table.slotForSeq ==> !Shares(b.r, s)
  {
    HistSet(a.hist, s, Cut(Hist(a.hist, s), begin, end));
    hide Cut, Owning;
  }

  lemma PrefixOfCut(h: seq<Token>, begin: int, end: int, kept: int)
    requires 0 <= kept <= begin <= end && kept <= |Cut(h, begin, end)|
    ensures Prefix(Cut(h, begin, end), kept) == Prefix(h, kept)
  {
  }

  /** Restoring a checkpoint of h at its position leaves that much of h. */
  lemma RestoresEntry(r: Rec, buffers: set<Buffer>, s: int, x: Restore, d: Rec, h: State)
    requires RecOk(r, buffers) && r.todo == {} && RestoreFresh(r, s, x) && IsRolledBack(r, s, x, buffers, d) && !Shares(r, s)
    requires EntryOk(r.rings[x.slot].entries[x.idx], buffers, h)
    ensures 0 <= x.pos < |h| && Folded(d, s) == h[..x.pos + 1]
  {
    assert Owning(r, s) == r && x.(slot := r.table.slotForSeq[s]) == x;
    SavedIs(r.rings[x.slot].entries[x.idx], buffers, h[..x.pos + 1]);
    hide RecOk, RestoreRows, PruneEntries, Rebuilt, EntryAny;
  }

  /** A refused batch has its tokens stored and not folded: none of its sequences can go on. */
  lemma RefuseExact(a: Sys, batch: Batch, b: Sys, buffers: set<Buffer>, s: int)
    requires SysOk(a, buffers) && Step(a, Refuse(batch), b, buffers) && Exact(a, s)
    ensures Exact(b, s) <==> s !in batch.sequences
  {
    if s in batch.sequences {
      var j :| 0 <= j < |batch.sequences| && batch.sequences[j] == s;
      assert InBatch(batch, |batch.positions|, s);
    }
    AppendedGrows(a.hist, batch, |batch.positions|, s);
  }

  /** The sequences of a batch all get slots just when no more of them lack one than are free. A
      sequence that does get a slot when others do not keeps the state it finds there, which is zero
      only if the slot's last user left it so. */
  lemma SlotsSuffice(r: Rec, buffers: set<Buffer>, seqs: seq<int>)
    requires RecOk(r, buffers) && Distinct(seqs)
    ensures (forall s :: s in seqs ==> s in TakeAll(r.table, seqs, |seqs|).slotForSeq)
            <==> |Unmapped(r.table, seqs, |seqs|)| <= |r.table.free|
  {
    RecParts(r, buffers);
    TakeAllFits(r.table, seqs, |seqs|);
    hide RecOk, TakeAll, Unmapped;
  }

  // ---------- no checkpoint below position 16 ----------

  /** No ring has a live entry, and no checkpoint is planned. */
  ghost predicate NoCheckpoints(a: Sys) {
    && (forall k :: k in a.r.rings ==> NoneLive(a.r.rings[k]))
    && (a.r.todo != {} ==> forall i :: 0 <= i < |a.p.planned| ==> a.p.planned[i] < 0)
  }

  ghost predicate NoneLive(r: Ring) {
    r.size == 0 && forall i :: 0 <= i < |r.entries| ==> !Live(r.entries[i])
  }

  /** Every pass of the run stays below the position from which checkpoints are taken. */
  ghost predicate Short(op: Op) {
    op.Begin? ==> forall i :: 0 <= i < |op.batch.positions| ==> op.batch.positions[i] < CHECKPOINT_MIN_POS
  }

  lemma {:induction false} HighestShort(b: Batch, k: nat, s: int)
    requires ShapedBatch(b) && k <= |b.positions| && forall i :: 0 <= i < |b.positions| ==> b.positions[i] < CHECKPOINT_MIN_POS
    ensures s in Highest(b, k) ==> Highest(b, k)[s] < CHECKPOINT_MIN_POS
  {
    if k > 0 {
      HighestShort(b, k - 1, s);
    }
  }

  lemma BeginShort(a: Sys, batch: Batch, b: Sys, buffers: set<Buffer>)
    requires SysOk(a, buffers) && Step(a, Begin(batch), b, buffers) && NoCheckpoints(a) && Short(Begin(batch))
    ensures NoCheckpoints(b)
  {
    OpeningParts(a.hist, batch, a.r, b.r, b.p, buffers);
    GivenRings(a.r, b.p.seqs);
    hide Given, SysOk, RingAt, Highest, Appended;
    forall i | 0 <= i < |b.p.planned| ensures b.p.planned[i] < 0 {
      HighestShort(batch, |batch.positions|, b.p.seqs[i]);
    }
  }

  lemma {:induction false} OwningAllShort(r: Rec, seqs: seq<int>, n: nat)
    requires n <= |seqs| && forall k :: k in r.rings ==> NoneLive(r.rings[k])
    ensures OwningAll(r, seqs, n).rings == r.rings
  {
    if n > 0 {
      OwningAllShort(r, seqs, n - 1);
    }
  }

  lemma {:induction false} CaptureNone(r: Rec, p: Pass, b: Buffer, rows: seq<State>, n: nat)
    requires n <= |p.slots| == |p.planned| == |rows| && forall i :: 0 <= i < |p.planned| ==> p.planned[i] < 0
    ensures CaptureAll(r, p, b, rows, n) == r
  {
    if n > 0 {
      CaptureNone(r, p, b, rows, n - 1);
    }
  }

  lemma NoneToRestore(r: Rec, s: int, target: int, x: Restore)
    requires forall k :: k in r.rings ==> NoneLive(r.rings[k])
    ensures !BestRestore(r, s, target, x) && !HasCheckpoint(r, s, target)
  {
  }

  lemma UpdateShort(a: Sys, op: Op, b: Sys, buffers: set<Buffer>)
    requires Step(a, op, b, buffers) && op.Update? && NoCheckpoints(a)
    ensures NoCheckpoints(b)
  {
    CaptureNone(a.r, a.p, op.to, op.rows, |op.rows|);
    UpdatedIs(a.r, a.p, op.to, op.rows);
    hide Updated, CaptureAll;
  }

  lemma MiddleShort(r: Rec, s: int, begin: int, end: int, d: Rec)
    requires CutsMiddle(r, s, begin, end, d) && 0 <= begin <= end && forall k :: k in r.rings ==> NoneLive(r.rings[k])
    ensures forall k :: k in d.rings ==> NoneLive(d.rings[k])
  {
    if s in r.table.slotForSeq {
      assert OwningAll(r, [s], 1).rings == r.rings by { OwningAllShort(r, [s], 1); }
      assert OwningAll(r, [s], 1) == Owning(OwningAll(r, [s], 0), [s][0]);
      var k := Owning(r, s).table.slotForSeq[s];
      if k in r.rings {
        LiveBound(d.rings[k].entries, |d.rings[k].entries|);
      }
    }
  }

  lemma ReleasedShort(r: Rec, s: int, d: Rec)
    requires IsReleased(r, s, d) && forall k :: k in r.rings ==> NoneLive(r.rings[k])
    ensures forall k :: k in d.rings ==> NoneLive(d.rings[k])
  {
  }

  lemma OwnShort(a: Sys, b: Sys, buffers: set<Buffer>)
    requires (Step(a, Own, b, buffers) || Step(a, GiveUp, b, buffers)) && NoCheckpoints(a)
    ensures NoCheckpoints(b)
  {
    hide AllSole, Targets;
    OwningAllShort(a.r, a.p.seqs, |a.p.seqs|);
  }

  lemma RollBackShort(a: Sys, op: Op, b: Sys, buffers: set<Buffer>)
    requires Step(a, op, b, buffers) && op.RollBack?
    ensures !NoCheckpoints(a)
  {
    hide IsRolledBack;
    var x: Restore :| BestRestore(a.r, op.s, op.target, x) && x.pos + 1 == op.kept && IsRolledBack(a.r, op.s, x, buffers, b.r);
    if NoCheckpoints(a) {
      NoneToRestore(a.r, op.s, op.target, x);
    }
  }

  lemma IdleShort(a: Sys, op: Op, b: Sys, buffers: set<Buffer>)
    requires SysOk(a, buffers) && Step(a, op, b, buffers) && NoCheckpoints(a) && (op.Copy? || op.RemoveStart? || op.RemoveMiddle?)
    ensures NoCheckpoints(b)
  {
    hide RecOk, PassInv, SyncOk, HistOk, NoneLive, IsReleased, CutsMiddle, Cut;
    match op
    case Copy(src, dst, _) => CopiedTable(a.r, buffers, src, dst);
    case RemoveStart(s, _) =>
      ReleasedShort(a.r, s, b.r);
      ReleasedStates(a.r, buffers, s, b.r, a.p);
    case RemoveMiddle(s, begin, end) =>
      MiddleShort(a.r, s, begin, end, b.r);
      MiddleKeeps(a.r, buffers, s, begin, end, b.r);
    case _ =>
  }

  lemma StepShort(a: Sys, op: Op, b: Sys, buffers: set<Buffer>)
    requires SysOk(a, buffers) && Step(a, op, b, buffers) && NoCheckpoints(a) && Short(op)
    ensures NoCheckpoints(b)
  {
    if op.Refuse? || op.Fetch? || op.FailRemove? || op.Starve? {
      hide SysOk, NoneLive, Opening, Cut, Appended, TakeAll, Unmapped;
      return;
    }
    hide SysOk, Step, NoCheckpoints, Short;
    if op.Begin? {
      BeginShort(a, op.batch, b, buffers);
    } else if op.Own? || op.GiveUp? {
      OwnShort(a, b, buffers);
    } else if op.Update? {
      UpdateShort(a, op, b, buffers);
    } else if op.RollBack? {
      RollBackShort(a, op, b, buffers);
    } else {
      IdleShort(a, op, b, buffers);
    }
  }

  /** Over every run whose passes stay below position 16, PrepareRestore finds nothing, so that a tail
      removal, which the KV cache alone would grant, is refused whatever it asks for. */
  lemma {:induction false} ShortRunsKeepTails(run: seq<Sys>, ops: seq<Op>, slots: nat, buffers: set<Buffer>, s: int, target: int)
    requires IsRun(run, ops, slots, buffers) && forall i :: 0 <= i < |ops| ==> Short(ops[i])
    ensures SysOk(run[|ops|], buffers) && NoCheckpoints(run[|ops|]) && !HasCheckpoint(run[|ops|].r, s, target)
  {
    hide SysOk, Step, Short;
    var n := |ops|;
    if n == 0 {
      StartAgrees(run[0], slots, buffers);
    } else {
      hide NoCheckpoints, HasCheckpoint;
      ShortRunsKeepTails(run[..n], ops[..n - 1], slots, buffers, s, target);
      StepKeeps(run[n - 1], ops[n - 1], run[n], buffers);
      StepShort(run[n - 1], ops[n - 1], run[n], buffers);
    }
    assert forall k :: k in run[n].r.rings ==> NoneLive(run[n].r.rings[k]) by { ShortRings(run[n]); }
    NoneToRestore(run[n].r, s, target, Restore(0, 0, 0));
  }

  lemma ShortRings(a: Sys)
    requires NoCheckpoints(a)
    ensures forall k :: k in a.r.rings ==> NoneLive(a.r.rings[k])
  {
  }
}
