/** Whole runs of the recurrent cache against the reference. */
module RecurrentRuns {
  import opened Tokens
  import opened CacheModel
  import opened Sharing
  import opened Checkpoints
  import opened Slots
  import opened RecurrentModel
  import opened Passes
  import opened Order
  import opened RecurrentFacts
  import opened RecurrentSteps
  import opened CleanSlots
  import opened Reference

  // ---------- what the reference is told ----------

  /** The sequences a step moves to a slot that was free. */
  ghost function Joining(a: Sys, op: Op): set<int> {
    match op
    case Begin(b) => set s | s in b.sequences && s !in a.r.table.slotForSeq
    case Starve(b) => set s | s in b.sequences && s !in a.r.table.slotForSeq
    case Own => set s | s in a.p.seqs && Shares(a.r, s)
    case GiveUp => set s | s in a.p.seqs && Shares(a.r, s)
    case _ => {}
  }

  ghost function Seeing(a: Sys, op: Op, b: Sys): Seen {
    Seen(op.Copy? && LeavesCheckpoints(a.r, op.dst), Joining(a, op),
         if op.Starve? then map s | s in Joining(a, op) :: Folded(b.r, s)
         else if op.RollBack? then map[op.s := Folded(b.r, op.s)] else map[])
  }

  ghost function RefAfter(f: Ref, a: Sys, op: Op, b: Sys, buffers: set<Buffer>): Ref
    requires ShapedOp(op)
  {
    RefStep(f, op, Seeing(a, op, b), buffers)
  }

  // ---------- runs ----------

  /** A run of the cache from the state Init leaves: any mix of calls, whatever comes of them. */
  ghost predicate IsRun(run: seq<Sys>, ops: seq<Op>, slots: nat, buffers: set<Buffer>) {
    && |run| == |ops| + 1 && buffers != {}
    && run[0].hist == map[] && run[0].r == EmptyRec(slots) && run[0].p.tokens == map[]
    && (forall i :: 0 <= i < |ops| ==> ShapedOp(ops[i]) && Step(run[i], ops[i], run[i + 1], buffers))
  }

  ghost function RefRun(run: seq<Sys>, ops: seq<Op>, buffers: set<Buffer>): Ref
    requires |run| == |ops| + 1 && forall i :: 0 <= i < |ops| ==> ShapedOp(ops[i])
    decreases |ops|
  {
    var n := |ops|;
    if n == 0 then NOTHING else RefAfter(RefRun(run[..n], ops[..n - 1], buffers), run[n - 1], ops[n - 1], run[n], buffers)
  }

  // ---------- the cache agrees with the reference ----------

  ghost predicate Agree(a: Sys, f: Ref) {
    && a.hist == f.hist && a.p.tokens == f.tokens && a.r.todo == f.todo
    && (forall s :: Folded(a.r, s) == Hist(f.state, s))
  }

  /** A slot whose checkpoints are not known to be its own is used by sequences in doubt only, and
      while no copy has left any behind, free slots have none. */
  ghost predicate Trusts(r: Rec, f: Ref) {
    DoubtOnly(r, f.doubt) && (!f.leaky ==> CleanFree(r))
  }

  ghost predicate DoubtOnly(r: Rec, doubt: set<int>) {
    forall s :: s in r.table.slotForSeq && r.table.slotForSeq[s] in r.tainted ==> s in doubt
  }

  lemma SameTokens(before: map<int, seq<Token>>, after: map<int, seq<Token>>, batch: Batch, seqs: seq<int>)
    requires ShapedBatch(batch) && SeqsOf(batch, seqs)
    ensures PassTokens(before, after, seqs) == PassTokens(before, after, batch.sequences)
    ensures forall s :: s in seqs <==> s in batch.sequences
  {
    forall s ensures s in seqs <==> s in batch.sequences {
      assert s in seqs <==> InBatch(batch, |batch.sequences|, s);
    }
  }

  lemma BeginAgrees(a: Sys, f: Ref, batch: Batch, b: Sys, buffers: set<Buffer>)
    requires SysOk(a, buffers) && Step(a, Begin(batch), b, buffers) && Agree(a, f)
    ensures Agree(b, RefAfter(f, a, Begin(batch), b, buffers))
  {
    IdlePass(a.r, a.p, buffers);
    hide RecOk, PassInv, SyncOk, Opening, Appended, Folded, ContinuesAt, Highest, PassTokens;
    OpeningKeeps(a.hist, batch, a.r, a.p, b.r, b.p, buffers);
    OpeningParts(a.hist, batch, a.r, b.r, b.p, buffers);
    SameTokens(a.hist, b.hist, batch, b.p.seqs);
    forall s ensures Folded(b.r, s) == Hist(f.state, s) {
      assert Folded(b.r, s) == Folded(a.r, s);
    }
  }

  lemma StarveAgrees(a: Sys, f: Ref, batch: Batch, b: Sys, buffers: set<Buffer>)
    requires SysOk(a, buffers) && Step(a, Starve(batch), b, buffers) && Agree(a, f) && ShapedBatch(batch)
    ensures Agree(b, RefAfter(f, a, Starve(batch), b, buffers))
  {
    IdlePass(a.r, a.p, buffers);
    StarveParts(a, batch, b, buffers);
    StarveIs(a.r, b.r, b.p.seqs);
    TakeAllKeeps(a.r, buffers, b.p.seqs, |b.p.seqs|);
    hide SysOk, Step, Appended, Folded, TakeAll, OutOfSlots;
    assert b.p.seqs[..|b.p.seqs|] == b.p.seqs;
    hide Joining;
    FoundStates(a.r, b.r, f.state, Joining(a, Starve(batch)));
  }

  lemma FoundStates(r: Rec, d: Rec, state: map<int, State>, joins: set<int>)
    requires forall s :: Folded(r, s) == Hist(state, s)
    requires forall s :: s !in joins ==> Folded(d, s) == Folded(r, s)
    ensures forall s :: Folded(d, s) == Hist(state + (map s | s in joins :: Folded(d, s)), s)
  {
    hide Folded;
  }

  lemma StarveIs(r: Rec, d: Rec, seqs: seq<int>)
    requires OutOfSlots(r, d, seqs)
    ensures d == r.(table := TakeAll(r.table, seqs, |seqs|))
  {
  }

  lemma UpdateAgrees(a: Sys, f: Ref, op: Op, b: Sys, buffers: set<Buffer>)
    requires SysOk(a, buffers) && Step(a, op, b, buffers) && op.Update? && Agree(a, f)
    ensures Agree(b, RefAfter(f, a, op, b, buffers))
  {
    UpdatedIs(a.r, a.p, op.to, op.rows);
    forall s ensures Folded(b.r, s) == Hist(RefAfter(f, a, op, b, buffers).state, s) {
      if f.todo - {op.to} == {} {
        FinishFolds(a.r, a.p, buffers, op.to, op.rows, s);
      }
    }
  }

  /** A rollback restores a prefix of the state, unless the sequence is in doubt. */
  lemma RollBackAgrees(a: Sys, f: Ref, op: Op, b: Sys, buffers: set<Buffer>)
    requires SysOk(a, buffers) && Step(a, op, b, buffers) && op.RollBack? && Agree(a, f) && Trusts(a.r, f)
    ensures Agree(b, RefAfter(f, a, op, b, buffers)) && 0 < op.kept <= op.target
    ensures op.s !in f.doubt ==> op.kept <= |Folded(a.r, op.s)|
  {
    hide RecOk, PassInv, SyncOk, IsRolledBack, BestRestore, Folded, Cut, CleanFree;
    var x: Restore :| BestRestore(a.r, op.s, op.target, x) && x.pos + 1 == op.kept && IsRolledBack(a.r, op.s, x, buffers, b.r);
    BestIsFresh(a.r, op.s, op.target, x);
    RolledBackKeeps(a.hist, a.r, a.p, buffers, op.s, x, b.r);
    assert RolledBack(a.hist, a.r, op.s, op.kept, b.r);
    HistSet(f.state, op.s, if op.s in f.doubt then Folded(b.r, op.s) else Prefix(Hist(f.state, op.s), op.kept));
  }

  lemma IdleAgrees(a: Sys, f: Ref, op: Op, b: Sys, buffers: set<Buffer>)
    requires SysOk(a, buffers) && Step(a, op, b, buffers) && Agree(a, f) && ShapedOp(op)
    requires op.Copy? || op.RemoveStart? || op.RemoveMiddle? || op.FailRemove? || op.Refuse?
    ensures Agree(b, RefAfter(f, a, op, b, buffers))
  {
    hide RecOk, SyncOk, Folded, Copied, Cut, Appended, IsReleased, CutsMiddle, LeavesCheckpoints;
    match op
    case Copy(src, dst, len) =>
      CopiedKeeps(a.r, buffers, src, dst);
      IdleCopy(a.r, a.p, buffers, src, dst);
      HistSet(f.state, dst, Hist(f.state, src));
    case RemoveStart(s, end) =>
      ReleasedStates(a.r, buffers, s, b.r, a.p);
      HistSet(f.state, s, []);
    case RemoveMiddle(s, begin, end) =>
      MiddleKeeps(a.r, buffers, s, begin, end, b.r);
    case _ =>
  }

  lemma PassAgrees(a: Sys, f: Ref, op: Op, b: Sys, buffers: set<Buffer>)
    requires SysOk(a, buffers) && Step(a, op, b, buffers) && (op.Own? || op.GiveUp? || op.Fetch?) && Agree(a, f)
    ensures Agree(b, RefAfter(f, a, op, b, buffers))
  {
    if op.Own? {
      OwnKeeps(a, b, buffers);
    } else if op.GiveUp? {
      GiveUpKeeps(a, b, buffers);
    }
  }

  /** One step, whatever it is: the cache and the reference go on agreeing. */
  lemma StepAgrees(a: Sys, f: Ref, op: Op, b: Sys, buffers: set<Buffer>)
    requires SysOk(a, buffers) && Step(a, op, b, buffers) && Agree(a, f) && Trusts(a.r, f) && ShapedOp(op)
    ensures Agree(b, RefAfter(f, a, op, b, buffers))
  {
    hide SysOk, Step, Agree, Trusts, RefAfter;
    if op.Begin? {
      BeginAgrees(a, f, op.batch, b, buffers);
    } else if op.Starve? {
      StarveAgrees(a, f, op.crowd, b, buffers);
    } else if op.Update? {
      UpdateAgrees(a, f, op, b, buffers);
    } else if op.RollBack? {
      RollBackAgrees(a, f, op, b, buffers);
    } else if op.Own? || op.GiveUp? || op.Fetch? {
      PassAgrees(a, f, op, b, buffers);
    } else {
      IdleAgrees(a, f, op, b, buffers);
    }
  }

  lemma StepTimely(a: Sys, f: Ref, op: Op, b: Sys, buffers: set<Buffer>)
    requires SysOk(a, buffers) && Step(a, op, b, buffers) && Agree(a, f) && ShapedOp(op)
    ensures Timely(f, op, buffers)
    ensures op.Starve? ==> forall q :: q in Seeing(a, op, b).found ==> q in op.crowd.sequences
  {
    assert buffers != {};
    if op.RollBack? {
      KeptPositive(a.r, op, b.r, buffers);
    }
    hide RecOk, PassInv, SyncOk, Opening, MadePrivate, RollsBack, IsReleased, CutsMiddle, IsUpdated, OutOfSlots, OwningAll;
  }

  // ---------- whom to trust ----------

  /** Of the sequences given slots, only new ones on slots freed with checkpoints have doubtful ones. */
  lemma GivenDoubt(r: Rec, buffers: set<Buffer>, seqs: seq<int>, slots: seq<int>, doubt: set<int>)
    requires RecOk(r, buffers) && r.todo == {} && Distinct(seqs) && Placing(Given(r, seqs).table, seqs, slots)
    requires DoubtOnly(r, doubt)
    ensures DoubtOnly(Given(r, seqs), doubt + set s | s in seqs && s !in r.table.slotForSeq)
    ensures CleanFree(r) ==> DoubtOnly(Given(r, seqs), doubt)
  {
    var slots', taken := TakeRun(r, buffers, seqs, |seqs|);
    var t, g := TakeAll(r.table, seqs, |seqs|), Given(r, seqs);
    assert seqs[..|seqs|] == seqs;
    TakeAllPrefix(r.table, seqs, |seqs|);
    hide RecOk, TakeAll, Stale;
    forall q | q in g.table.slotForSeq && g.table.slotForSeq[q] in g.tainted
      ensures q in doubt || (q in seqs && q !in r.table.slotForSeq && !CleanFree(r))
    {
      var k := g.table.slotForSeq[q];
      assert k in Handed(r.table, t) <==> q !in r.table.slotForSeq;
    }
  }

  lemma BeginTrusts(a: Sys, f: Ref, batch: Batch, b: Sys, buffers: set<Buffer>)
    requires SysOk(a, buffers) && Step(a, Begin(batch), b, buffers) && Trusts(a.r, f)
    ensures Trusts(b.r, RefAfter(f, a, Begin(batch), b, buffers))
  {
    hide RecOk, PassInv, SyncOk, Given, Grown, Appended, PassTokens, ContinuesAt, Stale, PlannedFor;
    SameTokens(a.hist, b.hist, batch, b.p.seqs);
    assert Placing(Given(a.r, b.p.seqs).table, b.p.seqs, b.p.slots);
    GivenDoubt(a.r, buffers, b.p.seqs, b.p.slots, f.doubt);
    if !f.leaky {
      BeginClean(a, batch, b, buffers);
    }
  }

  lemma StarveTrusts(a: Sys, f: Ref, batch: Batch, b: Sys, buffers: set<Buffer>)
    requires SysOk(a, buffers) && Step(a, Starve(batch), b, buffers) && Trusts(a.r, f) && ShapedBatch(batch)
    ensures Trusts(b.r, RefAfter(f, a, Starve(batch), b, buffers))
  {
    StarveParts(a, batch, b, buffers);
    hide SysOk, Step, OutOfSlots, DoubtOnly, CleanFree, Appended;
    if CleanFree(a.r) {
      StarveClean(a.r, b.r, b.p.seqs);
    }
    StarveDoubt(a.r, b.r, b.p.seqs, f.doubt);
  }

  lemma StarveParts(a: Sys, batch: Batch, b: Sys, buffers: set<Buffer>)
    requires Step(a, Starve(batch), b, buffers) && ShapedBatch(batch)
    ensures OutOfSlots(a.r, b.r, b.p.seqs) && b.hist == Appended(a.hist, batch, |batch.positions|) && b.p.tokens == map[]
    ensures a.r.todo == b.r.todo == {} && Joining(a, Starve(batch)) == set s | s in b.p.seqs && s !in a.r.table.slotForSeq
    ensures forall s :: s in b.p.seqs <==> s in batch.sequences
  {
    hide Appended, ContinuesAt, Unmapped, TakeAll, InOrder, Distinct, PassTokens;
    SameTokens(a.hist, b.hist, batch, b.p.seqs);
    hide SeqsOf, OutOfSlots;
    var joins := Joining(a, Starve(batch));
    forall s ensures s in joins <==> s in b.p.seqs && s !in a.r.table.slotForSeq {
      assert s in b.p.seqs <==> s in batch.sequences;
    }
    assert joins == set s | s in b.p.seqs && s !in a.r.table.slotForSeq;
  }

  lemma StarveDoubt(r: Rec, d: Rec, seqs: seq<int>, doubt: set<int>)
    requires OutOfSlots(r, d, seqs) && DoubtOnly(r, doubt)
    ensures DoubtOnly(d, doubt + set s | s in seqs && s !in r.table.slotForSeq)
  {
    StarveIs(r, d, seqs);
    hide OutOfSlots, TakeAll;
    TakeAllSame(r.table, seqs, |seqs|);
  }

  lemma {:induction false} TakeAllSame(t: Table, seqs: seq<int>, n: nat)
    requires n <= |seqs|
    ensures var d := TakeAll(t, seqs, n);
      && (forall q :: q in t.slotForSeq ==> q in d.slotForSeq && d.slotForSeq[q] == t.slotForSeq[q])
      && (forall q :: q in d.slotForSeq ==> q in t.slotForSeq || q in seqs)
  {
    if n > 0 {
      TakeAllSame(t, seqs, n - 1);
    }
  }

  /** Moving s off a shared slot: it brings its checkpoints, or finds some only where there were any. */
  lemma OwningDoubt(r: Rec, buffers: set<Buffer>, s: int, doubt: set<int>)
    requires RecOk(r, buffers) && (r.todo == {} || r.capture == map[]) && DoubtOnly(r, doubt)
    ensures DoubtOnly(Owning(r, s), if Shares(r, s) then doubt + {s} else doubt)
    ensures CleanFree(r) || Copies(r.rings, if s in r.table.slotForSeq then r.table.slotForSeq[s] else -1) ==>
              DoubtOnly(Owning(r, s), doubt)
    ensures forall q :: Shares(Owning(r, s), q) ==> Shares(r, q)
  {
    if Shares(r, s) && CanDetach(r, s) {
      DetachedKeeps(r, buffers, s);
      RecParts(r, buffers);
      PopFree(r.table);
      hide RecOk, CopyRing, CopyRow, TableOk, Stale;
    }
  }

  lemma {:induction false} OwningAllDoubt(hist: map<int, seq<Token>>, r: Rec, p: Pass, buffers: set<Buffer>, n: nat, doubt: set<int>)
    requires RecOk(r, buffers) && r.todo == buffers && PassInv(r, p, buffers) && !p.writable && SyncOk(hist, r, p) && n <= |p.seqs|
    requires DoubtOnly(r, doubt)
    ensures DoubtOnly(OwningAll(r, p.seqs, n), doubt + set s | s in p.seqs && Shares(r, s))
    ensures CleanFree(r) ==> DoubtOnly(OwningAll(r, p.seqs, n), doubt)
    ensures forall q :: Shares(OwningAll(r, p.seqs, n), q) ==> Shares(r, q)
  {
    if n == 0 {
      return;
    }
    OwningAllDoubt(hist, r, p, buffers, n - 1, doubt);
    OwnRun(hist, r, p, buffers, n - 1);
    var e, s := OwningAll(r, p.seqs, n - 1), p.seqs[n - 1];
    assert OwningAll(r, p.seqs, n) == Owning(e, s) && s in p.seqs;
    var q := p.(slots := SlotsFor(e.table, p.seqs));
    assert buffers != {};
    hide OwningAll, RecOk, SyncOk, CleanFree, Owning, Shares, DoubtOnly;
    NotWritable(e, q, buffers);
    if CleanFree(r) {
      OwningAllClean(hist, r, p, buffers, n - 1);
      OwningDoubt(e, buffers, s, doubt);
    }
    hide PassInv;
    var joins := set s | s in p.seqs && Shares(r, s);
    OwningDoubt(e, buffers, s, doubt + joins);
    assert Shares(e, s) ==> doubt + joins + {s} == doubt + joins;
  }

  lemma GiveUpTrusts(a: Sys, f: Ref, b: Sys, buffers: set<Buffer>)
    requires SysOk(a, buffers) && Step(a, GiveUp, b, buffers) && Trusts(a.r, f)
    ensures Trusts(b.r, RefAfter(f, a, GiveUp, b, buffers))
  {
    NotWritable(a.r, a.p, buffers);
    OwningAllDoubt(a.hist, a.r, a.p, buffers, |a.p.seqs|, f.doubt);
    if CleanFree(a.r) {
      GiveUpClean(a, b, buffers);
    }
    hide SysOk, OwningAll, Stale, Shares, CleanFree;
  }

  /** Opening a pass puts in question the slots of sequences out of step, which they alone use. */
  lemma OpenedDoubt(hist: map<int, seq<Token>>, r: Rec, p: Pass, d: Rec, buffers: set<Buffer>, doubt: set<int>)
    requires RecOk(r, buffers) && r.todo == buffers && PassInv(r, p, buffers) && !p.writable && AllSole(r, p.slots)
    requires IsOpened(hist, r, p, d)
    requires DoubtOnly(r, doubt) && forall s :: s in p.seqs && !InStep(hist, r, p, s) ==> s in doubt
    ensures DoubtOnly(d, doubt)
  {
    assert buffers != {};
    RecParts(r, buffers);
    hide RecOk, InStep, TableOk, Targets;
    forall q | q in d.table.slotForSeq && d.table.slotForSeq[q] in d.tainted ensures q in doubt {
      if d.table.slotForSeq[q] !in r.tainted {
        var i :| 0 <= i < |p.slots| && !InStep(hist, r, p, p.seqs[i]) && p.slots[i] == d.table.slotForSeq[q];
        assert InPass(r, p, i);
        if q != p.seqs[i] {
          SoleUser(r.table, p.seqs[i], q);
        }
      }
    }
  }

  lemma OwnTrusts(a: Sys, f: Ref, b: Sys, buffers: set<Buffer>)
    requires SysOk(a, buffers) && Step(a, Own, b, buffers) && Agree(a, f) && RefOk(f) && Trusts(a.r, f)
    ensures Trusts(b.r, RefAfter(f, a, Own, b, buffers))
  {
    NotWritable(a.r, a.p, buffers);
    OwnRun(a.hist, a.r, a.p, buffers, |a.p.seqs|);
    OwningAllDoubt(a.hist, a.r, a.p, buffers, |a.p.seqs|, f.doubt);
    if CleanFree(a.r) {
      OwnTaints(a, b, buffers);
    }
    var own := OwningAll(a.r, a.p.seqs, |a.p.seqs|);
    var q := a.p.(slots := SlotsFor(own.table, a.p.seqs));
    var doubt := RefAfter(f, a, Own, b, buffers).doubt;
    assert DoubtOnly(own, doubt);
    forall s | s in q.seqs && !InStep(a.hist, own, q, s) ensures s in doubt {
      PassTokensHere(a, buffers, s);
      assert Folded(own, s) == Folded(a.r, s);
      assert !Ahead(f, s);
    }
    hide RecOk, PassInv, SyncOk, OwningAll, AllSole, Targets, HistOk, InStep, CleanFree, DoubtOnly, Shares;
    OpenedDoubt(a.hist, own, q, b.r, buffers, doubt);
  }

  lemma PassTokensHere(a: Sys, buffers: set<Buffer>, s: int)
    requires PassInv(a.r, a.p, buffers) && a.r.todo != {} && s in a.p.seqs
    ensures s in a.p.tokens
  {
    var i :| 0 <= i < |a.p.seqs| && a.p.seqs[i] == s;
    assert InPass(a.r, a.p, i);
  }

  lemma CopyTrusts(a: Sys, f: Ref, op: Op, b: Sys, buffers: set<Buffer>)
    requires SysOk(a, buffers) && Step(a, op, b, buffers) && op.Copy? && Trusts(a.r, f)
    ensures Trusts(b.r, RefAfter(f, a, op, b, buffers))
  {
    CopiedTable(a.r, buffers, op.src, op.dst);
    if CleanFree(a.r) {
      CopyFree(a.r, buffers, op.src, op.dst);
    }
    CopiedSlots(a.r, buffers, op.src, op.dst);
    hide SysOk, Copied, LeavesCheckpoints, Stale;
  }

  lemma CopiedSlots(r: Rec, buffers: set<Buffer>, src: int, dst: int)
    requires RecOk(r, buffers) && src != dst
    ensures var t, d := r.table.slotForSeq, Copied(r, src, dst).table.slotForSeq;
      && (forall q :: q != dst ==> (q in d <==> q in t) && (q in d ==> d[q] == t[q]))
      && (dst in d <==> src in t) && (dst in d ==> d[dst] == t[src])
  {
  }

  lemma RollBackTrusts(a: Sys, f: Ref, op: Op, b: Sys, buffers: set<Buffer>)
    requires SysOk(a, buffers) && Step(a, op, b, buffers) && op.RollBack? && Trusts(a.r, f)
    ensures Trusts(b.r, RefAfter(f, a, op, b, buffers))
  {
    hide RecOk, PassInv, SyncOk, Cut, CleanFree, Owning, EntryAny, PruneEntries, Rebuilt, RestoreRows;
    var s := op.s;
    var x: Restore :| BestRestore(a.r, s, op.target, x) && x.pos + 1 == op.kept && IsRolledBack(a.r, s, x, buffers, b.r);
    LiveCopies(a.r, buffers, x.slot, x.idx);
    OwningDoubt(a.r, buffers, s, f.doubt);
    if CleanFree(a.r) {
      RolledBackClean(a.r, buffers, s, x, b.r);
    }
    assert b.r.table == Owning(a.r, s).table && b.r.tainted == Owning(a.r, s).tainted;
  }

  lemma LiveCopies(r: Rec, buffers: set<Buffer>, k: int, i: int)
    requires RecOk(r, buffers) && k in r.rings && 0 <= i < |r.rings[k].entries| && Live(r.rings[k].entries[i])
    ensures Copies(r.rings, k)
  {
    RingInRange(r, buffers, k);
    LiveBound(r.rings[k].entries, |r.rings[k].entries|);
  }

  lemma RemoveTrusts(a: Sys, f: Ref, op: Op, b: Sys, buffers: set<Buffer>)
    requires SysOk(a, buffers) && Step(a, op, b, buffers) && (op.RemoveStart? || op.RemoveMiddle?) && Trusts(a.r, f)
    ensures Trusts(b.r, RefAfter(f, a, op, b, buffers))
  {
    hide RecOk, PassInv, SyncOk, Cut, CleanFree, Owning;
    if op.RemoveStart? {
      if CleanFree(a.r) {
        ReleasedClean(a.r, buffers, op.s, b.r);
      }
    } else {
      if CleanFree(a.r) {
        MiddleTaints(a.r, buffers, op.s, op.begin, op.end, b.r);
      }
      OwningDoubt(a.r, buffers, op.s, f.doubt);
      OwningKeeps(a.r, buffers, op.s);
      if op.s in a.r.table.slotForSeq {
        MiddleDoubt(Owning(a.r, op.s), buffers, op.s, op.begin, op.end, b.r, f.doubt + {op.s});
      }
    }
  }

  lemma MiddleDoubt(r: Rec, buffers: set<Buffer>, s: int, begin: int, end: int, d: Rec, doubt: set<int>)
    requires RecOk(r, buffers) && s in r.table.slotForSeq && !Shares(r, s) && IsShifted(r, r.table.slotForSeq[s], begin, end, d)
    requires DoubtOnly(r, doubt) && s in doubt
    ensures DoubtOnly(d, doubt)
  {
    SlotFacts(r, buffers, s);
    RecParts(r, buffers);
    hide RecOk, TableOk;
    forall q | q in d.table.slotForSeq && d.table.slotForSeq[q] in d.tainted ensures q in doubt {
      if q != s {
        SoleUser(r.table, s, q);
      }
    }
  }

  /** One step, whatever it is: a slot whose checkpoints may not be its own has only users in doubt. */
  lemma StepTrusts(a: Sys, f: Ref, op: Op, b: Sys, buffers: set<Buffer>)
    requires SysOk(a, buffers) && Step(a, op, b, buffers) && Agree(a, f) && RefOk(f) && Trusts(a.r, f) && ShapedOp(op)
    ensures Trusts(b.r, RefAfter(f, a, op, b, buffers))
  {
    hide SysOk, Step, Agree, Trusts, RefAfter, RefOk;
    if op.Refuse? || op.FailRemove? || op.Fetch? {
      SameTrusts(a, f, op, b, buffers);
    } else if op.Update? {
      UpdateTrusts(a, f, op, b, buffers);
    } else if op.Begin? {
      BeginTrusts(a, f, op.batch, b, buffers);
    } else if op.Starve? {
      StarveTrusts(a, f, op.crowd, b, buffers);
    } else if op.Own? {
      OwnTrusts(a, f, b, buffers);
    } else if op.GiveUp? {
      GiveUpTrusts(a, f, b, buffers);
    } else if op.Copy? {
      CopyTrusts(a, f, op, b, buffers);
    } else if op.RollBack? {
      RollBackTrusts(a, f, op, b, buffers);
    } else {
      RemoveTrusts(a, f, op, b, buffers);
    }
  }

  lemma SameTrusts(a: Sys, f: Ref, op: Op, b: Sys, buffers: set<Buffer>)
    requires Step(a, op, b, buffers) && (op.Refuse? || op.FailRemove? || op.Fetch?) && Trusts(a.r, f) && ShapedOp(op)
    ensures Trusts(b.r, RefAfter(f, a, op, b, buffers))
  {
    hide Stale, Cut, Appended, ContinuesAt, Even;
  }

  lemma UpdateTrusts(a: Sys, f: Ref, op: Op, b: Sys, buffers: set<Buffer>)
    requires SysOk(a, buffers) && Step(a, op, b, buffers) && op.Update? && Trusts(a.r, f)
    ensures Trusts(b.r, RefAfter(f, a, op, b, buffers))
  {
    if CleanFree(a.r) {
      UpdateClean(a, op, b, buffers);
    }
    UpdateSlots(a, op, b, buffers);
    hide SysOk, Step, CleanFree;
  }

  lemma UpdateSlots(a: Sys, op: Op, b: Sys, buffers: set<Buffer>)
    requires SysOk(a, buffers) && Step(a, op, b, buffers) && op.Update?
    ensures b.r.table == a.r.table && b.r.tainted == a.r.tainted
  {
    UpdatedIs(a.r, a.p, op.to, op.rows);
  }

  // ---------- every run ----------

  lemma RunPrefix(run: seq<Sys>, ops: seq<Op>, slots: nat, buffers: set<Buffer>)
    requires IsRun(run, ops, slots, buffers) && ops != []
    ensures var n := |ops|;
      && |run| == n + 1 && IsRun(run[..n], ops[..n - 1], slots, buffers)
      && ShapedOp(ops[n - 1]) && Step(run[n - 1], ops[n - 1], run[n], buffers)
      && RefRun(run, ops, buffers) == RefAfter(RefRun(run[..n], ops[..n - 1], buffers), run[n - 1], ops[n - 1], run[n], buffers)
  {
    hide Step, RefAfter, EmptyRec;
  }

  /** The recurrent cache refines the reference over every run: whatever mix of passes, copies,
      rollbacks and removals, refused, failed or given up, after every call the histories are the
      reference's, and the private state of every sequence is the reference's. */
  lemma {:induction false} RunAgrees(run: seq<Sys>, ops: seq<Op>, slots: nat, buffers: set<Buffer>)
    requires IsRun(run, ops, slots, buffers)
    ensures SysOk(run[|ops|], buffers) && Agree(run[|ops|], RefRun(run, ops, buffers))
    ensures RefOk(RefRun(run, ops, buffers)) && Trusts(run[|ops|].r, RefRun(run, ops, buffers))
  {
    hide SysOk, Agree, RefOk, Step, RefAfter, ShapedOp, Trusts;
    var n := |ops|;
    if n == 0 {
      StartAgrees(run[0], slots, buffers);
      return;
    }
    RunPrefix(run, ops, slots, buffers);
    var before, earlier := run[..n], ops[..n - 1];
    RunAgrees(before, earlier, slots, buffers);
    assert before[|earlier|] == run[n - 1];
    var a, f, op, b := run[n - 1], RefRun(before, earlier, buffers), ops[n - 1], run[n];
    hide IsRun, RefRun;
    StepKeeps(a, op, b, buffers);
    StepAgrees(a, f, op, b, buffers);
    StepTrusts(a, f, op, b, buffers);
    StepTimely(a, f, op, b, buffers);
    AfterOk(a, f, op, b, buffers);
  }

  lemma AfterOk(a: Sys, f: Ref, op: Op, b: Sys, buffers: set<Buffer>)
    requires ShapedOp(op) && RefOk(f) && Timely(f, op, buffers) && SysOk(b, buffers) && Agree(b, RefAfter(f, a, op, b, buffers))
    requires op.Starve? ==> forall q :: q in Seeing(a, op, b).found ==> q in op.crowd.sequences
    ensures RefOk(RefAfter(f, a, op, b, buffers))
  {
    hide RefStep, RefOk, Timely, Seeing;
    RefStepOk(f, op, Seeing(a, op, b), buffers);
  }

  lemma StartAgrees(a: Sys, slots: nat, buffers: set<Buffer>)
    requires a.hist == map[] && a.r == EmptyRec(slots) && a.p.tokens == map[] && buffers != {}
    ensures SysOk(a, buffers) && Clean(a.r) && Agree(a, NOTHING) && RefOk(NOTHING) && Trusts(a.r, NOTHING)
  {
    EmptyOk(a.r, a.p, buffers, slots);
  }

  // ---------- what is read ----------

  /** At every point of every run, in a pass or between passes, each buffer, created or not, reads for
      each sequence the reference's state of that sequence, with the tokens of the pass in it once
      the buffer has been updated. A new sequence reads zero, and no sequence reads another's state. */
  lemma RunReads(run: seq<Sys>, ops: seq<Op>, slots: nat, buffers: set<Buffer>, s: int, b: Buffer)
    requires IsRun(run, ops, slots, buffers) && b in buffers
    ensures var f := RefRun(run, ops, buffers);
      Read(run[|ops|].r, s, b) == Hist(f.state, s) + if b in f.todo then [] else Hist(f.tokens, s)
  {
    RunAgrees(run, ops, slots, buffers);
    hide IsRun, RefRun;
    ReadsNow(run[|ops|], buffers, s, b);
  }

  lemma ReadsNow(a: Sys, buffers: set<Buffer>, s: int, b: Buffer)
    requires SysOk(a, buffers) && b in buffers
    ensures Read(a.r, s, b) == Folded(a.r, s) + if b in a.r.todo then [] else Hist(a.p.tokens, s)
  {
    hide SyncOk, RingClaim, HistOk;
    var r, p := a.r, a.p;
    if s in p.tokens {
      var i :| 0 <= i < |p.seqs| && p.seqs[i] == s;
      assert InPass(r, p, i) && (p.writable ==> Private(r, p, i));
    }
    if s in r.table.slotForSeq {
      var k := r.table.slotForSeq[s];
      assert RowHeld(r, b, k);
      if b !in r.todo && r.todo != {} && s !in p.tokens && k in p.slots {
        var i :| 0 <= i < |p.slots| && p.slots[i] == k;
        assert InPass(r, p, i) && Private(r, p, i);
        SoleUser(r.table, p.seqs[i], s);
      }
    }
  }

  // ---------- rollback ----------

  lemma RolledHist(a: Sys, f: Ref, s: int, target: int, kept: int, b: Sys, buffers: set<Buffer>)
    requires Step(a, RollBack(s, target, kept), b, buffers) && HistOk(a.hist) && a.hist == f.hist
    requires Ahead(f, s) && f.tokens == map[] && 0 < kept <= target <= |Hist(a.hist, s)|
    ensures Hist(b.hist, s) == Hist(a.hist, s)[..kept] == Prefix(Hist(f.state, s), kept)
    ensures forall q :: q != s ==> Hist(b.hist, q) == Hist(a.hist, q)
  {
    hide RollsBack, HistOk;
    HistBound(a.hist, s);
    CutTail(Hist(a.hist, s), kept);
    HistSet(a.hist, s, Cut(Hist(a.hist, s), kept, MAX_INT32));
  }

  /** Rollback agreement, over every run, for every sequence that the calls have left beyond doubt and
      without a lag, whatever has been done to others. Whenever PrepareRestore(s, target) has answered
      kept and Remove has cut there, then kept is at most target, the history of s is its first kept
      tokens, and the state of s, in every buffer, is the fold of exactly those tokens, wherever its
      slot came from and whoever shared it. Nobody else's history or state has changed. */
  lemma RollbackOverRuns(run: seq<Sys>, ops: seq<Op>, slots: nat, buffers: set<Buffer>, s: int, target: int, kept: int, b: Sys)
    requires IsRun(run, ops, slots, buffers) && Step(run[|ops|], RollBack(s, target, kept), b, buffers)
    requires s !in RefRun(run, ops, buffers).doubt && s !in RefRun(run, ops, buffers).lag
    requires target <= |Hist(run[|ops|].hist, s)|
    ensures 0 < kept <= target
    ensures Hist(b.hist, s) == Hist(run[|ops|].hist, s)[..kept]
    ensures forall c :: c in buffers ==> Read(b.r, s, c) == Hist(run[|ops|].hist, s)[..kept]
    ensures forall q :: q != s ==> Hist(b.hist, q) == Hist(run[|ops|].hist, q) && Folded(b.r, q) == Folded(run[|ops|].r, q)
  {
    RunAgrees(run, ops, slots, buffers);
    hide IsRun, RefRun;
    var a, f, op := run[|ops|], RefRun(run, ops, buffers), RollBack(s, target, kept);
    StepKeeps(a, op, b, buffers);
    RollBackAgrees(a, f, op, b, buffers);
    HistSet(f.state, s, Prefix(Hist(f.state, s), kept));
    assert Ahead(f, s) && f.tokens == map[];
    RolledHist(a, f, s, target, kept, b, buffers);
    hide SysOk, Step;
    forall c | c in buffers ensures Read(b.r, s, c) == Hist(a.hist, s)[..kept] {
      ReadsNow(b, buffers, s, c);
    }
  }

  /** What a careful caller heeds: it starts a pass only on sequences whose state holds exactly their
      tokens, does not copy onto a sequence that would leave checkpoints behind, does not cut out
      middles, and has slots enough. */
  ghost predicate Careful(f: Ref, r: Rec, op: Op) {
    match op
    case Begin(b) => forall s :: s in b.sequences ==> Hist(f.hist, s) == Hist(f.state, s)
    case Copy(_, dst, _) => !LeavesCheckpoints(r, dst)
    case RemoveMiddle(_, _, _) => false
    case Starve(_) => false
    case _ => true
  }

  /** Every call of the run is a careful one where it is made. */
  ghost predicate CarefulRun(run: seq<Sys>, ops: seq<Op>, buffers: set<Buffer>)
    requires |run| == |ops| + 1 && forall i :: 0 <= i < |ops| ==> ShapedOp(ops[i])
    decreases |ops|
  {
    var n := |ops|;
    n > 0 ==>
      CarefulRun(run[..n], ops[..n - 1], buffers) && Careful(RefRun(run[..n], ops[..n - 1], buffers), run[n - 1].r, ops[n - 1])
  }

  /** Over a run of careful calls no sequence is ever in doubt. */
  lemma {:induction false} CarefulRuns(run: seq<Sys>, ops: seq<Op>, slots: nat, buffers: set<Buffer>)
    requires IsRun(run, ops, slots, buffers) && CarefulRun(run, ops, buffers)
    ensures RefRun(run, ops, buffers).doubt == {} && !RefRun(run, ops, buffers).leaky
  {
    hide Careful, Step, ShapedOp;
    var n := |ops|;
    if n == 0 {
      return;
    }
    RunPrefix(run, ops, slots, buffers);
    hide IsRun, RefAfter, RefRun;
    CarefulRuns(run[..n], ops[..n - 1], slots, buffers);
    CarefulStep(RefRun(run[..n], ops[..n - 1], buffers), run[n - 1], ops[n - 1], run[n], buffers);
  }

  lemma CarefulStep(f: Ref, a: Sys, op: Op, b: Sys, buffers: set<Buffer>)
    requires ShapedOp(op) && Careful(f, a.r, op) && f.doubt == {} && !f.leaky
    ensures RefAfter(f, a, op, b, buffers).doubt == {} && !RefAfter(f, a, op, b, buffers).leaky
  {
  }
}
