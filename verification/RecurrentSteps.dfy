/** The operations of the recurrent cache, gone through or failed, as steps between values. The
    methods of the class are proved to take these steps whenever they change anything, and the
    theorems over runs are about them. */
module RecurrentSteps {
  import opened Tokens
  import opened CacheModel
  import opened Sharing
  import opened Checkpoints
  import opened RecurrentModel
  import opened Passes
  import opened Order
  import opened RecurrentFacts
  import opened Causal

  /** The token histories of the KV cache, the slots, and the pass under way. */
  datatype Sys = Sys(hist: map<int, seq<Token>>, r: Rec, p: Pass)

  datatype Op =
    | Begin(batch: Batch)
    | Refuse(uneven: Batch)
    | Starve(crowd: Batch)
    | Own
    | GiveUp
    | Fetch(from: Buffer)
    | Update(to: Buffer, rows: seq<State>)
    | Copy(src: int, dst: int, len: int)
    | RollBack(s: int, target: int, kept: int)
    | RemoveStart(s: int, end: int)
    | RemoveMiddle(s: int, begin: int, end: int)
    | FailRemove(s: int, begin: int, end: int, cut: bool)

  /** The KV cache has stored the batch. */
  ghost predicate Stored(a: Sys, b: Batch, c: Sys) {
    && a.r.todo == {} && Continues(a.hist, b) && Int32Positions(b)
    && c.hist == Appended(a.hist, b, |b.positions|)
  }

  /** The rollback of Remove, to the checkpoint PrepareRestore found below target. */
  ghost predicate RollsBack(r: Rec, s: int, target: int, kept: int, buffers: set<Buffer>, d: Rec) {
    exists x: Restore :: BestRestore(r, s, target, x) && x.pos + 1 == kept && IsRolledBack(r, s, x, buffers, d)
  }

  /** A middle removal: s has a slot to itself, and its checkpoints move with the tokens. */
  ghost predicate CutsMiddle(r: Rec, s: int, begin: int, end: int, d: Rec) {
    if s !in r.table.slotForSeq then d == r
    else
      && !Shares(Owning(r, s), s) && s in Owning(r, s).table.slotForSeq
      && IsShifted(Owning(r, s), Owning(r, s).table.slotForSeq[s], begin, end, d)
  }

  ghost predicate Step(a: Sys, op: Op, b: Sys, buffers: set<Buffer>) {
    match op
    case Begin(batch) => Stored(a, batch, b) && (exists c :: Even(batch, c)) && Opening(a.hist, batch, a.r, b.r, b.p, buffers)
    case Refuse(batch) => Stored(a, batch, b) && !(exists c :: Even(batch, c)) && b.r == a.r && b.p.tokens == map[]
    case Starve(batch) =>
      && Stored(a, batch, b) && SeqsOf(batch, b.p.seqs) && OutOfSlots(a.r, b.r, b.p.seqs) && b.p.tokens == map[]
    case GiveUp =>
      && a.r.todo != {} && !a.p.writable && b.hist == a.hist && b.p.tokens == map[]
      && b.r == OwningAll(a.r, a.p.seqs, |a.p.seqs|).(todo := {})
    case Own => a.r.todo != {} && !a.p.writable && b.hist == a.hist && MadePrivate(a.hist, a.r, a.p, b.r, b.p)
    case Fetch(c) =>
      && a.r.todo != {} && a.p.writable && c in buffers
      && b == a.(r := a.r.(states := Created(a.r.states, c, |a.r.slotHist|)))
    case Update(c, rows) =>
      && a.p.writable && c in a.r.todo && |rows| == |a.p.seqs| && (forall i :: 0 <= i < |rows| ==> Folding(a.r, a.p, i, rows[i]))
      && IsUpdated(a.r, a.p, c, rows, b.r) && b.p == After(b.r, a.p) && b.hist == a.hist
    case Copy(src, dst, len) =>
      a.r.todo == {} && src != dst && b == Sys(SetHist(a.hist, dst, Prefix(Hist(a.hist, src), len)), Copied(a.r, src, dst), a.p)
    case RollBack(s, target, kept) =>
      && a.r.todo == {} && RollsBack(a.r, s, target, kept, buffers, b.r)
      && b.hist == SetHist(a.hist, s, Cut(Hist(a.hist, s), kept, MAX_INT32)) && b.p == a.p
    case RemoveStart(s, end) =>
      && a.r.todo == {} && 0 <= end && IsReleased(a.r, s, b.r)
      && b.hist == SetHist(a.hist, s, Cut(Hist(a.hist, s), 0, end)) && b.p == a.p
    case RemoveMiddle(s, begin, end) =>
      && a.r.todo == {} && 0 < begin <= end && end != MAX_INT32 && CutsMiddle(a.r, s, begin, end, b.r)
      && b.hist == SetHist(a.hist, s, Cut(Hist(a.hist, s), begin, end)) && b.p == a.p
    case FailRemove(s, begin, end, cut) =>
      && a.r.todo == {} && 0 <= begin <= end && b.r == a.r && b.p == a.p
      && b.hist == if cut then SetHist(a.hist, s, Cut(Hist(a.hist, s), begin, end)) else a.hist
  }

  /** A removal that failed: the tokens are as they were, or cut and their keys not turned. */
  ghost predicate FailsRemove(a: Sys, s: int, begin: int, end: int, b: Sys, buffers: set<Buffer>) {
    exists cut :: Step(a, FailRemove(s, begin, end, cut), b, buffers)
  }

  /** Reading a state buffer: the first read of a pass makes its slots private. */
  ghost predicate Reads(a: Sys, c: Buffer, b: Sys, buffers: set<Buffer>) {
    if a.p.writable then Step(a, Fetch(c), b, buffers)
    else exists mid :: Step(a, Own, mid, buffers) && Step(mid, Fetch(c), b, buffers)
  }

  lemma OutcomeStep(status: Status, a: Sys, batch: Batch, b: Sys, buffers: set<Buffer>)
    requires a.r.todo == {} && Continues(a.hist, batch) && Int32Positions(batch)
    requires b.hist == Appended(a.hist, batch, |batch.positions|)
    requires PassOutcome(status, a.hist, batch, a.r, b.r, b.p, buffers)
    ensures status.Ok? ==> Step(a, Begin(batch), b, buffers)
    ensures status == Err(NotSupported) ==> Step(a, Refuse(batch), b, buffers)
    ensures status == Err(CacheFull) ==> Step(a, Starve(batch), b, buffers)
  {
    hide OutOfSlots, Opening;
  }

  lemma GiveUpStep(a: Sys, b: Sys, buffers: set<Buffer>)
    requires a.r.todo != {} && !a.p.writable && b.hist == a.hist && b.p.tokens == map[]
    requires b.r == OwningAll(a.r, a.p.seqs, |a.p.seqs|).(todo := {})
    ensures Step(a, GiveUp, b, buffers)
  {
  }

  lemma FailStep(a: Sys, s: int, begin: int, end: int, b: Sys, buffers: set<Buffer>)
    requires a.r.todo == {} && 0 <= begin <= end && b.r == a.r && b.p == a.p
    requires b.hist == a.hist || b.hist == SetHist(a.hist, s, Cut(Hist(a.hist, s), begin, end))
    ensures FailsRemove(a, s, begin, end, b, buffers)
  {
    if b.hist == a.hist {
      assert Step(a, FailRemove(s, begin, end, false), b, buffers);
    } else {
      assert Step(a, FailRemove(s, begin, end, true), b, buffers);
    }
  }

  lemma OwnStep(a: Sys, own: Rec, p: Pass, b: Sys, buffers: set<Buffer>)
    requires a.r.todo != {} && !a.p.writable && b.hist == a.hist
    requires own == OwningAll(a.r, a.p.seqs, |a.p.seqs|) && p == a.p.(slots := SlotsFor(own.table, a.p.seqs))
    requires AllSole(own, p.slots) && b.p == p.(writable := true) && IsOpened(a.hist, own, b.p.(writable := false), b.r)
    ensures Step(a, Own, b, buffers)
  {
    assert b.p.(writable := false) == p;
  }

  lemma UpdateStep(a: Sys, c: Buffer, rows: seq<State>, b: Sys, buffers: set<Buffer>)
    requires a.p.writable && c in a.r.todo && |rows| == |a.p.seqs| && forall i :: 0 <= i < |rows| ==> Folding(a.r, a.p, i, rows[i])
    requires IsUpdated(a.r, a.p, c, rows, b.r) && b.p == After(b.r, a.p) && b.hist == a.hist
    ensures Step(a, Update(c, rows), b, buffers)
  {
  }

  lemma CopyStepIs(a: Sys, src: int, dst: int, len: int, b: Sys, buffers: set<Buffer>)
    requires a.r.todo == {} && src != dst
    requires b == Sys(SetHist(a.hist, dst, Prefix(Hist(a.hist, src), len)), Copied(a.r, src, dst), a.p)
    ensures Step(a, Copy(src, dst, len), b, buffers)
  {
  }

  /** The rollback to checkpoint x is the one to any target x is the best checkpoint below. */
  ghost predicate RollsBackTo(a: Sys, s: int, x: Restore, b: Sys, buffers: set<Buffer>) {
    forall target :: BestRestore(a.r, s, target, x) ==> Step(a, RollBack(s, target, x.pos + 1), b, buffers)
  }

  lemma RollBackStep(a: Sys, s: int, x: Restore, b: Sys, buffers: set<Buffer>)
    requires a.r.todo == {} && IsRolledBack(a.r, s, x, buffers, b.r)
    requires b.hist == SetHist(a.hist, s, Cut(Hist(a.hist, s), x.pos + 1, MAX_INT32)) && b.p == a.p
    ensures RollsBackTo(a, s, x, b, buffers)
  {
    hide IsRolledBack, BestRestore, Cut;
  }

  lemma MiddleOutcome(a: Sys, s: int, begin: int, end: int, b: Sys, status: Status, buffers: set<Buffer>)
    requires a.r.todo == {} && 0 < begin <= end && end != MAX_INT32 && b.p == a.p
    requires b.hist == SetHist(a.hist, s, Cut(Hist(a.hist, s), begin, end))
    requires if status.Ok? then CutsMiddle(a.r, s, begin, end, b.r) else b.r == a.r
    ensures status.Ok? ==> Step(a, RemoveMiddle(s, begin, end), b, buffers)
    ensures status.Err? ==> FailsRemove(a, s, begin, end, b, buffers)
  {
    hide Cut, CutsMiddle, FailsRemove;
    if status.Ok? {
      MiddleStep(a, s, begin, end, b, buffers);
    } else {
      FailStep(a, s, begin, end, b, buffers);
    }
  }

  lemma MiddleStep(a: Sys, s: int, begin: int, end: int, b: Sys, buffers: set<Buffer>)
    requires a.r.todo == {} && 0 < begin <= end && end != MAX_INT32 && CutsMiddle(a.r, s, begin, end, b.r)
    requires b.hist == SetHist(a.hist, s, Cut(Hist(a.hist, s), begin, end)) && b.p == a.p
    ensures Step(a, RemoveMiddle(s, begin, end), b, buffers)
  {
  }
}
