/** When the checkpoints a slot offers are its own. A cache is clean when no free slot has live
    checkpoints and no slot is tainted; the lemmas say which operations keep it clean. */
module CleanSlots {
  import opened Tokens
  import opened CacheModel
  import opened Sharing
  import opened Checkpoints
  import opened Slots
  import opened RecurrentModel
  import opened Passes
  import opened RecurrentFacts
  import opened RecurrentSteps

  /** No free slot has a live checkpoint. */
  ghost predicate CleanFree(r: Rec) {
    forall k :: k in r.table.free ==> !Stale(r.rings, k)
  }

  ghost predicate Clean(r: Rec) {
    CleanFree(r) && r.tainted == {}
  }

  ghost predicate SysOk(a: Sys, buffers: set<Buffer>) {
    RecOk(a.r, buffers) && PassInv(a.r, a.p, buffers) && SyncOk(a.hist, a.r, a.p) && HistOk(a.hist)
  }

  // ---------- every step keeps the cache sound ----------

  lemma SetHistOk(hist: map<int, seq<Token>>, s: int, h: seq<Token>)
    requires HistOk(hist) && |h| <= MAX_INT32
    ensures HistOk(SetHist(hist, s, h))
  {
    forall t ensures |Hist(SetHist(hist, s, h), t)| <= MAX_INT32 {
      assert |Hist(hist, t)| <= MAX_INT32;
    }
  }

  lemma StepHistOk(a: Sys, op: Op, b: Sys, buffers: set<Buffer>)
    requires HistOk(a.hist) && Step(a, op, b, buffers)
    ensures HistOk(b.hist)
  {
    hide Opening, MadePrivate, IsUpdated, RollsBack, IsReleased, CutsMiddle, HistOk, OutOfSlots, OwningAll;
    match op
    case Begin(batch) => AppendedOk(a.hist, batch, |batch.positions|);
    case Refuse(batch) => AppendedOk(a.hist, batch, |batch.positions|);
    case Starve(batch) => AppendedOk(a.hist, batch, |batch.positions|);
    case GiveUp =>
    case Own =>
    case Fetch(_) =>
    case Update(_, _) =>
    case Copy(src, dst, len) =>
      HistBound(a.hist, src);
      SetHistOk(a.hist, dst, Prefix(Hist(a.hist, src), len));
    case RollBack(s, _, kept) =>
      HistBound(a.hist, s);
      KeptPositive(a.r, op, b.r, buffers);
      SetHistOk(a.hist, s, Cut(Hist(a.hist, s), kept, MAX_INT32));
    case RemoveStart(s, end) =>
      HistBound(a.hist, s);
      SetHistOk(a.hist, s, Cut(Hist(a.hist, s), 0, end));
    case RemoveMiddle(s, begin, end) =>
      HistBound(a.hist, s);
      SetHistOk(a.hist, s, Cut(Hist(a.hist, s), begin, end));
    case FailRemove(s, begin, end, _) =>
      HistBound(a.hist, s);
      SetHistOk(a.hist, s, Cut(Hist(a.hist, s), begin, end));
  }

  lemma HistBound(hist: map<int, seq<Token>>, s: int)
    requires HistOk(hist)
    ensures |Hist(hist, s)| <= MAX_INT32
  {
  }

  lemma KeptPositive(r: Rec, op: Op, d: Rec, buffers: set<Buffer>)
    requires op.RollBack? && RollsBack(r, op.s, op.target, op.kept, buffers, d)
    ensures 0 < op.kept <= op.target
  {
    hide IsRolledBack;
  }

  /** Making one slot private keeps a sound cache sound, with every private state as it was. */
  lemma OwningKeeps(r: Rec, buffers: set<Buffer>, s: int)
    requires RecOk(r, buffers) && (r.todo == {} || r.capture == map[])
    ensures RecOk(Owning(r, s), buffers) && SameStates(Owning(r, s), r) && Owning(r, s).todo == r.todo
    ensures Owning(r, s).table.slotForSeq.Keys == r.table.slotForSeq.Keys
  {
    if Shares(r, s) && CanDetach(r, s) {
      DetachedKeeps(r, buffers, s);
      hide RecOk, CopyRing, CopyRow;
    }
  }

  lemma OwnKeeps(a: Sys, b: Sys, buffers: set<Buffer>)
    requires SysOk(a, buffers) && Step(a, Own, b, buffers)
    ensures RecOk(b.r, buffers) && PassInv(b.r, b.p, buffers) && SyncOk(b.hist, b.r, b.p) && SameStates(b.r, a.r)
    ensures b.r.todo == a.r.todo && b.p.tokens == a.p.tokens
  {
    NotWritable(a.r, a.p, buffers);
    OwnRun(a.hist, a.r, a.p, buffers, |a.p.seqs|);
    var own := OwningAll(a.r, a.p.seqs, |a.p.seqs|);
    var q := a.p.(slots := SlotsFor(own.table, a.p.seqs));
    hide RecOk, PassInv, SyncOk, OwningAll, AllSole, Opened, HistOk;
    var d := MayWrite(a.hist, own, q, buffers);
    assert d == b.r;
    SameStatesChain(b.r, own, a.r);
  }

  /** A pass given up leaves every private state what it was. */
  lemma GiveUpKeeps(a: Sys, b: Sys, buffers: set<Buffer>)
    requires SysOk(a, buffers) && Step(a, GiveUp, b, buffers)
    ensures RecOk(b.r, buffers) && PassInv(b.r, b.p, buffers) && SyncOk(b.hist, b.r, b.p) && SameStates(b.r, a.r) && b.r.todo == {}
  {
    NotWritable(a.r, a.p, buffers);
    OwnRun(a.hist, a.r, a.p, buffers, |a.p.seqs|);
    var own := OwningAll(a.r, a.p.seqs, |a.p.seqs|);
    var q := a.p.(slots := SlotsFor(own.table, a.p.seqs));
    NotWritable(own, q, buffers);
    hide RecOk, OwningAll, HistOk, Folded;
    AbortKeeps(own, buffers);
    SameTable(b.r, own);
    hide SameStates;
    SameStatesChain(b.r, own, a.r);
    hide PassInv, SyncOk;
    Abandoned(b.hist, b.r, b.p, buffers);
  }

  lemma SameTable(d: Rec, r: Rec)
    requires d.table == r.table && d.slotHist == r.slotHist
    ensures SameStates(d, r)
  {
  }

  /** Slots handed out as they are keep the cache sound; whoever had a slot, and whoever gets none,
      has the state it had. */
  lemma {:induction false} TakeAllKeeps(r: Rec, buffers: set<Buffer>, seqs: seq<int>, n: nat)
    requires RecOk(r, buffers) && n <= |seqs|
    ensures var d := r.(table := TakeAll(r.table, seqs, n));
      && RecOk(d, buffers)
      && forall q :: q in r.table.slotForSeq || q !in seqs[..n] ==> Folded(d, q) == Folded(r, q)
  {
    if n > 0 {
      TakeAllKeeps(r, buffers, seqs, n - 1);
      var d, s := r.(table := TakeAll(r.table, seqs, n - 1)), seqs[n - 1];
      assert seqs[..n] == seqs[..n - 1] + [s];
      GiveIs(d, buffers, s);
      hide RecOk, Folded, TakeAll, Give, Taken;
      TakeAllMore(r.table, d.table, seqs, n - 1);
      TakeAllKnows(r.table, seqs, n - 1);
    }
  }

  lemma {:induction false} TakeAllKnows(t: Table, seqs: seq<int>, n: nat)
    requires n <= |seqs|
    ensures t.slotForSeq.Keys <= TakeAll(t, seqs, n).slotForSeq.Keys
  {
    if n > 0 {
      TakeAllKnows(t, seqs, n - 1);
    }
  }

  lemma GiveIs(r: Rec, buffers: set<Buffer>, s: int)
    requires RecOk(r, buffers)
    ensures RecOk(r.(table := Give(r.table, s)), buffers)
    ensures forall q :: q in r.table.slotForSeq || q != s ==> Folded(r.(table := Give(r.table, s)), q) == Folded(r, q)
  {
    RecParts(r, buffers);
    if s !in r.table.slotForSeq && r.table.free != [] {
      TakenKeeps(r, buffers, s);
      PopFree(r.table);
      assert r.(table := Give(r.table, s)) == Taken(r, s);
    } else {
      assert r.(table := Give(r.table, s)) == r;
    }
  }

  lemma RolledBackKeeps(hist: map<int, seq<Token>>, r: Rec, p: Pass, buffers: set<Buffer>, s: int, x: Restore, d: Rec)
    requires RecOk(r, buffers) && r.todo == {} && PassInv(r, p, buffers)
    requires RestoreFresh(r, s, x) && IsRolledBack(r, s, x, buffers, d)
    ensures RecOk(d, buffers) && d.todo == {} && PassInv(d, p, buffers) && RolledBack(hist, r, s, x.pos + 1, d)
  {
    OwnFacts(r, buffers, s, x);
    OwningKeeps(r, buffers, s);
    var own, x' := Owning(r, s), x.(slot := Owning(r, s).table.slotForSeq[s]);
    assert Owned(r, s, x, own, x') by {
      if Shares(r, s) {
        DetachedOwns(r, buffers, s, x, own);
      }
    }
    OwnedFresh(r, s, x, own, x');
    hide RecOk, Owning, Owned, PassInv, IsRolledBack, IsRestored, RestoreFresh, RolledBack;
    OwnedIdle(r, own, p, buffers, s, x, x');
    assert IsRestored(own, buffers, x', d) by { RestoredPart(r, s, x, buffers, d); }
    RollBackFacts(hist, r, own, d, p, buffers, s, x, x');
    RestoredOk(own, buffers, x', d);
  }

  lemma RestoredPart(r: Rec, s: int, x: Restore, buffers: set<Buffer>, d: Rec)
    requires IsRolledBack(r, s, x, buffers, d)
    ensures s in Owning(r, s).table.slotForSeq && IsRestored(Owning(r, s), buffers, x.(slot := Owning(r, s).table.slotForSeq[s]), d)
  {
  }

  lemma RestoredOk(r: Rec, buffers: set<Buffer>, x: Restore, d: Rec)
    requires RecOk(r, buffers) && r.todo == {} && IsRestored(r, buffers, x, d)
    requires Live(r.rings[x.slot].entries[x.idx]) && r.rings[x.slot].entries[x.idx].pos == x.pos
    ensures RecOk(d, buffers)
  {
    RestoredKeeps(r, buffers, x.slot, x.idx, d.rings[x.slot]);
  }

  lemma MiddleKeeps(r: Rec, buffers: set<Buffer>, s: int, begin: int, end: int, d: Rec)
    requires RecOk(r, buffers) && r.todo == {} && 0 < begin <= end && CutsMiddle(r, s, begin, end, d)
    ensures RecOk(d, buffers) && d.todo == {} && SameStates(d, r)
  {
    if s in r.table.slotForSeq {
      OwningKeeps(r, buffers, s);
      var own := Owning(r, s);
      var k := own.table.slotForSeq[s];
      hide RecOk, Owning, SameStates;
      ShiftedOk(own, buffers, k, begin, end, d);
      ShiftedStates(own, k, begin, end, d);
      SameStatesChain(d, own, r);
    } else {
      SameStatesNow(r);
    }
  }

  lemma UpdateKeeps(a: Sys, op: Op, b: Sys, buffers: set<Buffer>)
    requires SysOk(a, buffers) && Step(a, op, b, buffers) && op.Update?
    ensures RecOk(b.r, buffers) && PassInv(b.r, b.p, buffers) && SyncOk(b.hist, b.r, b.p)
  {
    hide RecOk, PassInv, SyncOk, Updated, Folding, HistOk;
    var d := UpdateFacts(a.hist, a.r, a.p, buffers, op.to, op.rows);
    assert d == b.r;
  }

  lemma IdleKeeps(a: Sys, op: Op, b: Sys, buffers: set<Buffer>)
    requires SysOk(a, buffers) && Step(a, op, b, buffers)
    requires op.Copy? || op.RemoveStart? || op.RemoveMiddle? || op.RollBack?
    ensures RecOk(b.r, buffers) && PassInv(b.r, b.p, buffers) && b.r.todo == {}
  {
    hide RecOk, PassInv, SyncOk, HistOk, Copied, CutsMiddle, IsReleased, IsRolledBack, BestRestore;
    match op
    case Copy(src, dst, _) =>
      CopiedKeeps(a.r, buffers, src, dst);
      IdleCopy(a.r, a.p, buffers, src, dst);
    case RemoveStart(s, _) =>
      ReleasedOk(a.r, buffers, s, b.r);
      ReleasedStates(a.r, buffers, s, b.r, a.p);
    case RemoveMiddle(s, begin, end) =>
      MiddleKeeps(a.r, buffers, s, begin, end, b.r);
      StillIdle(a.r, b.r, a.p, buffers);
    case RollBack(s, target, kept) =>
      var x: Restore :| BestRestore(a.r, s, target, x) && x.pos + 1 == kept && IsRolledBack(a.r, s, x, buffers, b.r);
      BestIsFresh(a.r, s, target, x);
      RolledBackKeeps(a.hist, a.r, a.p, buffers, s, x, b.r);
    case _ =>
  }

  lemma BestIsFresh(r: Rec, s: int, target: int, x: Restore)
    requires BestRestore(r, s, target, x)
    ensures RestoreFresh(r, s, x) && 0 <= x.pos < target
  {
  }

  lemma ReleasedOk(r: Rec, buffers: set<Buffer>, s: int, d: Rec)
    requires RecOk(r, buffers) && r.todo == {} && IsReleased(r, s, d)
    ensures RecOk(d, buffers)
  {
    if s in r.table.slotForSeq {
      ReleasedKeeps(r, buffers, s, true);
    }
  }

  lemma StoredKeeps(a: Sys, op: Op, b: Sys, buffers: set<Buffer>)
    requires SysOk(a, buffers) && Step(a, op, b, buffers) && (op.Begin? || op.Refuse? || op.Starve?)
    ensures RecOk(b.r, buffers) && PassInv(b.r, b.p, buffers) && SyncOk(b.hist, b.r, b.p)
  {
    hide RecOk, HistOk, ContinuesAt, Int32Positions, Opening, TakeAll, Unmapped, Appended;
    IdlePass(a.r, a.p, buffers);
    match op
    case Begin(batch) =>
      hide PassInv, SyncOk;
      OpeningKeeps(a.hist, batch, a.r, a.p, b.r, b.p, buffers);
    case Starve(_) =>
      TakeAllKeeps(a.r, buffers, b.p.seqs, |b.p.seqs|);
    case _ =>
  }

  lemma PassKeeps(a: Sys, op: Op, b: Sys, buffers: set<Buffer>)
    requires SysOk(a, buffers) && Step(a, op, b, buffers) && (op.Own? || op.GiveUp? || op.Fetch? || op.Update?)
    ensures RecOk(b.r, buffers) && PassInv(b.r, b.p, buffers) && SyncOk(b.hist, b.r, b.p)
  {
    hide RecOk, HistOk, MadePrivate, IsUpdated, Folding, PassInv, SyncOk, OwningAll;
    match op
    case Own => OwnKeeps(a, b, buffers);
    case GiveUp => GiveUpKeeps(a, b, buffers);
    case Fetch(c) => ReadFacts(a.hist, a.r, a.p, buffers, c);
    case Update(_, _) => UpdateKeeps(a, op, b, buffers);
    case _ =>
  }

  /** Every step of the cache, careful or not, gone through or failed, keeps it sound. */
  lemma StepKeeps(a: Sys, op: Op, b: Sys, buffers: set<Buffer>)
    requires SysOk(a, buffers) && Step(a, op, b, buffers)
    ensures SysOk(b, buffers)
  {
    StepHistOk(a, op, b, buffers);
    if op.FailRemove? {
      hide RecOk, HistOk, Cut;
      return;
    }
    hide RecOk, HistOk, PassInv, Step;
    if op.Begin? || op.Refuse? || op.Starve? {
      StoredKeeps(a, op, b, buffers);
    } else if op.Own? || op.GiveUp? || op.Fetch? || op.Update? {
      PassKeeps(a, op, b, buffers);
    } else {
      IdleKeeps(a, op, b, buffers);
    }
  }

  // ---------- which steps keep it clean ----------

  /** dst alone uses a slot, and PrepareRestore would find a checkpoint there. */
  ghost predicate LeavesCheckpoints(r: Rec, dst: int) {
    dst in r.table.slotForSeq && !Shares(r, dst) && HasCheckpoint(r, dst, MAX_INT32)
  }

  /** A slot has live checkpoints just when PrepareRestore up to the end finds one. */
  lemma StaleIsFound(r: Rec, buffers: set<Buffer>, s: int)
    requires RecOk(r, buffers) && s in r.table.slotForSeq
    ensures HasCheckpoint(r, s, MAX_INT32) <==> Stale(r.rings, r.table.slotForSeq[s])
  {
    var k := r.table.slotForSeq[s];
    if k in r.rings {
      RingInRange(r, buffers, k);
      LiveBound(r.rings[k].entries, |r.rings[k].entries|);
    }
  }

  /** What a clean cache is worth: every live checkpoint is complete, and holds the fold of its slot's
      own history up to its position. */
  lemma CleanMeans(r: Rec, buffers: set<Buffer>, k: int, i: int)
    requires RecOk(r, buffers) && r.todo == {} && Clean(r) && k in r.rings
    requires 0 <= i < |r.rings[k].entries| && Live(r.rings[k].entries[i])
    ensures 0 <= k < |r.slotHist| && EntryOk(r.rings[k].entries[i], buffers, r.slotHist[k])
  {
    RingInRange(r, buffers, k);
    assert EntryClaim(r, k, i, buffers);
  }

  lemma FreeUnused(r: Rec, buffers: set<Buffer>, k: int)
    requires RecOk(r, buffers) && 0 <= k < |r.table.refCount| && r.table.refCount[k] != 0
    ensures k !in r.table.free
  {
    RecParts(r, buffers);
  }

  /** Sequences joining on free slots find nothing there. */
  lemma GivenClean(r: Rec, buffers: set<Buffer>, seqs: seq<int>)
    requires RecOk(r, buffers) && CleanFree(r) && Distinct(seqs)
    ensures CleanFree(Given(r, seqs)) && (r.tainted == {} ==> Given(r, seqs).tainted == {}) && Given(r, seqs).rings == r.rings
  {
    RecParts(r, buffers);
    hide RecOk, TableOk, Stale;
    TakeAllPrefix(r.table, seqs, |seqs|);
  }

  lemma {:induction false} TakeAllPrefix(t: Table, seqs: seq<int>, n: nat)
    requires n <= |seqs|
    ensures TakeAll(t, seqs, n).free <= t.free
    ensures forall k :: k in Handed(t, TakeAll(t, seqs, n)) ==> k in t.free
    ensures forall k :: k in TakeAll(t, seqs, n).free ==> k in t.free
  {
    if n > 0 {
      TakeAllPrefix(t, seqs, n - 1);
    }
  }

  lemma GrownClean(r: Rec, d: Rec, slots: seq<int>)
    requires CleanFree(r) && Grown(r.rings, d.rings, slots) && d.table == r.table
    ensures CleanFree(d)
  {
    FreshRingEmpty(CHECKPOINT_COUNT);
    forall k | k in d.table.free ensures !Stale(d.rings, k) {
      assert !Stale(r.rings, k);
    }
  }

  lemma BeginClean(a: Sys, batch: Batch, b: Sys, buffers: set<Buffer>)
    requires RecOk(a.r, buffers) && CleanFree(a.r) && Opening(a.hist, batch, a.r, b.r, b.p, buffers)
    ensures CleanFree(b.r) && (a.r.tainted == {} ==> b.r.tainted == {})
  {
    hide RecOk, CleanFree, Given, Grown;
    GivenClean(a.r, buffers, b.p.seqs);
    GrownClean(Given(a.r, b.p.seqs), b.r, b.p.slots);
  }

  /** A detached sequence finds nothing of others on the slot it moves to. */
  lemma OwningClean(r: Rec, buffers: set<Buffer>, s: int)
    requires RecOk(r, buffers) && CleanFree(r) && (r.todo == {} || r.capture == map[])
    ensures CleanFree(Owning(r, s)) && (r.tainted == {} ==> Owning(r, s).tainted == {})
  {
    if Shares(r, s) && CanDetach(r, s) {
      PopFree(r.table);
      var k, d := r.table.free[|r.table.free| - 1], Owning(r, s);
      hide RecOk, CopyRing, CopyRow, TableOk;
      forall j | j in d.table.free ensures !Stale(d.rings, j) {
        assert j != k && !Stale(r.rings, j);
      }
    }
  }

  lemma {:induction false} OwningAllClean(hist: map<int, seq<Token>>, r: Rec, p: Pass, buffers: set<Buffer>, n: nat)
    requires RecOk(r, buffers) && r.todo == buffers && PassInv(r, p, buffers) && !p.writable && SyncOk(hist, r, p) && n <= |p.seqs|
    requires CleanFree(r)
    ensures CleanFree(OwningAll(r, p.seqs, n)) && (r.tainted == {} ==> OwningAll(r, p.seqs, n).tainted == {})
  {
    if n > 0 {
      OwningAllClean(hist, r, p, buffers, n - 1);
      OwnRun(hist, r, p, buffers, n - 1);
      var e := OwningAll(r, p.seqs, n - 1);
      var q := p.(slots := SlotsFor(e.table, p.seqs));
      RecParts(e, buffers);
      assert buffers != {};
      hide RecOk, SyncOk, CleanFree, Owning;
      NotWritable(e, q, buffers);
      OwningClean(e, buffers, p.seqs[n - 1]);
    }
  }

  /** Making a pass's slots private gives up the claim on the checkpoints of exactly those of its
      sequences that are out of step. */
  lemma OwnTaints(a: Sys, b: Sys, buffers: set<Buffer>)
    requires SysOk(a, buffers) && Step(a, Own, b, buffers) && CleanFree(a.r)
    ensures CleanFree(b.r)
    ensures a.r.tainted == {} ==> (b.r.tainted == {} <==> forall s :: s in a.p.seqs ==> InStep(a.hist, a.r, a.p, s))
  {
    NotWritable(a.r, a.p, buffers);
    OwnRun(a.hist, a.r, a.p, buffers, |a.p.seqs|);
    OwningAllClean(a.hist, a.r, a.p, buffers, |a.p.seqs|);
    var own := OwningAll(a.r, a.p.seqs, |a.p.seqs|);
    var q := a.p.(slots := SlotsFor(own.table, a.p.seqs));
    hide RecOk, PassInv, SyncOk, OwningAll, AllSole, Targets, HistOk;
    forall s ensures InStep(a.hist, own, q, s) <==> InStep(a.hist, a.r, a.p, s) {
      assert Folded(own, s) == Folded(a.r, s);
    }
    assert b.r.tainted == own.tainted + Straying(a.hist, own, q);
    forall i | 0 <= i < |q.seqs| && !InStep(a.hist, own, q, q.seqs[i]) ensures q.slots[i] in b.r.tainted {}
  }

  /** Checkpoints are taken only of slots of the pass, which are in use. */
  lemma {:induction false} CaptureOthers(r: Rec, p: Pass, b: Buffer, rows: seq<State>, n: nat, k: int)
    requires n <= |p.slots| == |p.planned| == |rows| && k !in p.slots
    ensures var c := CaptureAll(r, p, b, rows, n);
      (k in c.rings <==> k in r.rings) && (k in c.rings ==> c.rings[k] == r.rings[k])
  {
    if n > 0 {
      CaptureOthers(r, p, b, rows, n - 1, k);
      CapturedElsewhere(CaptureAll(r, p, b, rows, n - 1), p.slots[n - 1], p.planned[n - 1], b, rows[n - 1], k);
    }
  }

  lemma UpdateClean(a: Sys, op: Op, b: Sys, buffers: set<Buffer>)
    requires SysOk(a, buffers) && Step(a, op, b, buffers) && op.Update? && CleanFree(a.r)
    ensures CleanFree(b.r) && b.r.tainted == a.r.tainted && b.r.table == a.r.table
  {
    var p := a.p;
    UpdatedIs(a.r, p, op.to, op.rows);
    forall i | 0 <= i < |p.slots| ensures p.slots[i] !in a.r.table.free {
      assert Private(a.r, p, i);
      FreeUnused(a.r, buffers, p.slots[i]);
    }
    forall k | k in b.r.table.free ensures !Stale(b.r.rings, k) {
      CaptureOthers(a.r, p, op.to, op.rows, |op.rows|, k);
      assert !Stale(a.r.rings, k);
    }
  }

  /** A copy leaves a free slot with live checkpoints just when its destination does. */
  lemma CopyFree(r: Rec, buffers: set<Buffer>, src: int, dst: int)
    requires RecOk(r, buffers) && r.todo == {} && CleanFree(r) && src != dst
    ensures CleanFree(Copied(r, src, dst)) <==> !LeavesCheckpoints(r, dst)
  {
    var c := Copied(r, src, dst);
    CopiedTable(r, buffers, src, dst);
    if dst in r.table.slotForSeq {
      StaleIsFound(r, buffers, dst);
      assert LeavesCheckpoints(r, dst) <==> !Shares(r, dst) && Stale(r.rings, r.table.slotForSeq[dst]);
    }
    hide RecOk, Copied, Stale, HasCheckpoint;
    if !Shares(r, dst) && dst in r.table.slotForSeq {
      assert c.table.free[|c.table.free| - 1] == r.table.slotForSeq[dst];
      assert forall k :: k in c.table.free <==> k in r.table.free || k == r.table.slotForSeq[dst];
    }
  }

  /** CopyPrefix keeps a clean cache clean just when dst does not leave checkpoints behind, which a
      caller can find out before the call. */
  lemma CopyClean(r: Rec, buffers: set<Buffer>, src: int, dst: int)
    requires RecOk(r, buffers) && r.todo == {} && Clean(r) && src != dst
    ensures Clean(Copied(r, src, dst)) <==> !LeavesCheckpoints(r, dst)
  {
    CopiedTable(r, buffers, src, dst);
    CopyFree(r, buffers, src, dst);
    hide RecOk, Copied, LeavesCheckpoints, CleanFree;
  }

  lemma CopiedTable(r: Rec, buffers: set<Buffer>, src: int, dst: int)
    requires RecOk(r, buffers) && src != dst
    ensures var c := Copied(r, src, dst);
      && c.rings == r.rings && c.tainted == r.tainted
      && c.table.free == if dst in r.table.slotForSeq && !Shares(r, dst) then r.table.free + [r.table.slotForSeq[dst]] else r.table.free
  {
  }

  lemma ReleasedClean(r: Rec, buffers: set<Buffer>, s: int, d: Rec)
    requires RecOk(r, buffers) && CleanFree(r) && IsReleased(r, s, d)
    ensures CleanFree(d) && d.tainted == r.tainted
  {
    if s in r.table.slotForSeq {
      var k := r.table.slotForSeq[s];
      if k in r.rings {
        ResetEmpty(r.rings[k]);
      }
      hide RecOk, ResetRing;
      forall j | j in d.table.free ensures !Stale(d.rings, j) {
        assert j in r.table.free ==> !Stale(r.rings, j);
      }
    }
  }

  lemma RolledBackClean(r: Rec, buffers: set<Buffer>, s: int, x: Restore, d: Rec)
    requires RecOk(r, buffers) && r.todo == {} && CleanFree(r) && IsRolledBack(r, s, x, buffers, d)
    ensures CleanFree(d) && (r.tainted == {} ==> d.tainted == {})
  {
    OwningKeeps(r, buffers, s);
    OwningClean(r, buffers, s);
    var own := Owning(r, s);
    FreeUnused(own, buffers, own.table.slotForSeq[s]);
    hide RecOk, Owning, RestoreRows, Rebuilt, PruneEntries, EntryAny;
    forall j | j in d.table.free ensures !Stale(d.rings, j) {
      assert !Stale(own.rings, j);
    }
  }

  /** A middle removal taints its sequence's slot, and no other. */
  lemma MiddleTaints(r: Rec, buffers: set<Buffer>, s: int, begin: int, end: int, d: Rec)
    requires RecOk(r, buffers) && r.todo == {} && CleanFree(r) && CutsMiddle(r, s, begin, end, d)
    ensures CleanFree(d)
    ensures r.tainted == {} ==> d.tainted == if s in r.table.slotForSeq then {d.table.slotForSeq[s]} else {}
  {
    OwningKeeps(r, buffers, s);
    OwningClean(r, buffers, s);
    var own := Owning(r, s);
    if s in r.table.slotForSeq {
      SlotFacts(own, buffers, s);
      FreeUnused(own, buffers, own.table.slotForSeq[s]);
      hide RecOk, Owning;
      forall j | j in d.table.free ensures !Stale(d.rings, j) {
        assert !Stale(own.rings, j);
      }
    }
  }

  /** Slots handed out as they are leave no checkpoints in free ones. */
  lemma StarveClean(r: Rec, d: Rec, seqs: seq<int>)
    requires CleanFree(r) && OutOfSlots(r, d, seqs)
    ensures CleanFree(d) && d.tainted == r.tainted
  {
    TakeAllPrefix(r.table, seqs, |seqs|);
  }

  lemma GiveUpClean(a: Sys, b: Sys, buffers: set<Buffer>)
    requires SysOk(a, buffers) && Step(a, GiveUp, b, buffers) && CleanFree(a.r)
    ensures CleanFree(b.r) && (a.r.tainted == {} ==> b.r.tainted == {})
  {
    NotWritable(a.r, a.p, buffers);
    OwningAllClean(a.hist, a.r, a.p, buffers, |a.p.seqs|);
    hide SysOk, OwningAll, Stale;
  }

  /** A middle removal aside, no step leaves checkpoints in a free slot but a copy whose destination
      leaves some, and none taints a slot but a pass on a sequence out of step. */
  lemma StepClean(a: Sys, op: Op, b: Sys, buffers: set<Buffer>)
    requires SysOk(a, buffers) && Step(a, op, b, buffers) && Clean(a.r) && !op.RemoveMiddle?
    requires op.Own? ==> forall s :: s in a.p.seqs ==> InStep(a.hist, a.r, a.p, s)
    requires op.Copy? ==> !LeavesCheckpoints(a.r, op.dst)
    ensures Clean(b.r)
  {
    hide RecOk, PassInv, SyncOk, Opening, MadePrivate, Copied, IsReleased, IsUpdated, IsRolledBack, InStep, OutOfSlots, OwningAll;
    match op
    case Starve(_) => StarveClean(a.r, b.r, b.p.seqs);
    case GiveUp => GiveUpClean(a, b, buffers);
    case FailRemove(_, _, _, _) =>
    case Begin(batch) => BeginClean(a, batch, b, buffers);
    case Refuse(_) =>
    case Own => OwnTaints(a, b, buffers);
    case Fetch(_) =>
    case Update(_, _) => UpdateClean(a, op, b, buffers);
    case Copy(src, dst, _) => CopyClean(a.r, buffers, src, dst);
    case RemoveStart(s, _) => ReleasedClean(a.r, buffers, s, b.r);
    case RollBack(s, target, kept) =>
      var x: Restore :| BestRestore(a.r, s, target, x) && x.pos + 1 == kept && IsRolledBack(a.r, s, x, buffers, b.r);
      RolledBackClean(a.r, buffers, s, x, b.r);
  }
}
