/** The stores of the cache show the account of the reference, over every run. */
module SpacingRuns {
  import opened Tokens
  import opened CacheModel
  import opened Sharing
  import opened Checkpoints
  import opened Slots
  import opened RecurrentModel
  import opened Passes
  import opened Order
  import opened RecurrentFacts
  import opened RecurrentSteps
  import opened CleanSlots
  import opened Reference
  import opened RecurrentRuns
  import opened Spacing

  /** What the store of s shows by now: a pass under way has taken its checkpoints with the first
      buffer it updated. */
  function Now(f: Ref, ms: map<int, seq<int>>, buffers: set<Buffer>, s: int): seq<int> {
    if f.todo != {} && f.todo != buffers && s in f.tokens then Marked(Marks(ms, s), End(f, s)) else Marks(ms, s)
  }

  ghost predicate Shown(a: Sys, f: Ref, ms: map<int, seq<int>>, buffers: set<Buffer>, s: int) {
    Shows(RingOf(a.r, s), Now(f, ms, buffers, s)) && Near(Marks(ms, s), |Hist(f.state, s)|)
  }

  ghost predicate AllShown(a: Sys, f: Ref, ms: map<int, seq<int>>, buffers: set<Buffer>) {
    forall s :: s !in f.doubt ==> Shown(a, f, ms, buffers, s)
  }

  /** Sequence i of the pass has a checkpoint planned just when it is due one. */
  ghost predicate PlanAsDue(p: Pass, f: Ref, ms: map<int, seq<int>>, i: int)
    requires 0 <= i < |p.seqs| && i < |p.planned|
  {
    p.planned[i] == if Due(Marks(ms, p.seqs[i]), End(f, p.seqs[i])) then End(f, p.seqs[i]) else -1
  }

  ghost predicate PlansDue(p: Pass, f: Ref, ms: map<int, seq<int>>) {
    f.todo != {} ==> forall i :: 0 <= i < |p.seqs| && i < |p.planned| && p.seqs[i] !in f.doubt ==> PlanAsDue(p, f, ms, i)
  }

  ghost predicate Accounted(a: Sys, f: Ref, ms: map<int, seq<int>>, buffers: set<Buffer>) {
    AllSpread(ms) && AllShown(a, f, ms, buffers) && PlansDue(a.p, f, ms)
  }

  lemma ShowsNow(a: Sys, f: Ref, ms: map<int, seq<int>>, buffers: set<Buffer>, s: int)
    requires Accounted(a, f, ms, buffers) && s !in f.doubt
    ensures Spread(Marks(ms, s)) && Shows(RingOf(a.r, s), Now(f, ms, buffers, s))
    ensures f.todo == {} || s !in f.tokens ==> Now(f, ms, buffers, s) == Marks(ms, s)
  {
    hide Shows, RingOf, Spread, Near, Marked;
    assert Spread(Marks(ms, s)) && Shown(a, f, ms, buffers, s);
  }

  // ---------- moving between slots ----------

  /** The store of slot k, made or not. */
  lemma RingAtShape(r: Rec, buffers: set<Buffer>, k: int)
    requires RecOk(r, buffers)
    ensures RingShape(RingAt(r.rings, k)) && |RingAt(r.rings, k).entries| == CHECKPOINT_COUNT
    ensures !Stale(r.rings, k) ==> RingAt(r.rings, k).lastPos == -1
  {
    FreshRingEmpty(CHECKPOINT_COUNT);
    if k in r.rings {
      RingInRange(r, buffers, k);
    }
  }

  /** A slot that is not stale has an empty store. */
  lemma FreeEmpty(r: Rec, buffers: set<Buffer>, k: int)
    requires RecOk(r, buffers) && !Stale(r.rings, k)
    ensures Shows(RingAt(r.rings, k), [])
  {
    RingAtShape(r, buffers, k);
    EmptyShows(RingAt(r.rings, k));
  }

  /** Owning its slot, q finds the checkpoints it had: no copy has left any behind, or q does not move,
      or takes its own along. */
  ghost predicate Carries(r: Rec, q: int) {
    CleanFree(r) || !Shares(r, q) || Copies(r.rings, r.table.slotForSeq[q])
  }

  /** Making s own its slot changes nobody's positions. */
  lemma OwningSame(r: Rec, buffers: set<Buffer>, s: int, q: int)
    requires RecOk(r, buffers) && (r.todo == {} || r.capture == map[]) && (q == s ==> Carries(r, q))
    ensures SameAs(RingOf(r, q), RingOf(Owning(r, s), q))
  {
    if Shares(r, s) && CanDetach(r, s) {
      var k, src := r.table.free[|r.table.free| - 1], r.table.slotForSeq[s];
      DetachedKeeps(r, buffers, s);
      PopFree(r.table);
      if q == s && !Copies(r.rings, src) {
        RingAtShape(r, buffers, src);
        RingAtShape(r, buffers, k);
        EmptiesSame(RingAt(r.rings, src), RingAt(r.rings, k));
      }
    }
  }

  lemma OwningAllIdle(hist: map<int, seq<Token>>, r: Rec, p: Pass, buffers: set<Buffer>, n: nat)
    requires RecOk(r, buffers) && r.todo == buffers && PassInv(r, p, buffers) && !p.writable && SyncOk(hist, r, p) && n <= |p.seqs|
    ensures var e := OwningAll(r, p.seqs, n);
      && RecOk(e, buffers) && e.capture == map[] && (CleanFree(r) ==> CleanFree(e))
      && forall q :: Shares(e, q) ==> Shares(r, q)
  {
    hide OwningAll, CleanFree, Owning, Shares, SyncOk;
    OwningAllDoubt(hist, r, p, buffers, n, r.table.slotForSeq.Keys);
    OwnRun(hist, r, p, buffers, n);
    if CleanFree(r) {
      OwningAllClean(hist, r, p, buffers, n);
    }
    var e := OwningAll(r, p.seqs, n);
    assert buffers != {};
    hide RecOk, PassInv;
    NotWritable(e, p.(slots := SlotsFor(e.table, p.seqs)), buffers);
  }

  lemma {:induction false} OwningAllSame(hist: map<int, seq<Token>>, r: Rec, p: Pass, buffers: set<Buffer>, n: nat, q: int)
    requires RecOk(r, buffers) && r.todo == buffers && PassInv(r, p, buffers) && !p.writable && SyncOk(hist, r, p) && n <= |p.seqs|
    requires CleanFree(r) || !Shares(r, q) || q !in p.seqs
    ensures SameAs(RingOf(r, q), RingOf(OwningAll(r, p.seqs, n), q))
  {
    if n > 0 {
      hide RecOk, PassInv, SyncOk, CleanFree, Owning, Shares, RingOf;
      OwningAllSame(hist, r, p, buffers, n - 1, q);
      OwningAllIdle(hist, r, p, buffers, n - 1);
      OwningSame(OwningAll(r, p.seqs, n - 1), buffers, p.seqs[n - 1], q);
    }
  }

  // ---------- step by step ----------

  /** A new sequence is in doubt, or finds an empty store. */
  lemma JoinedShows(r: Rec, buffers: set<Buffer>, seqs: seq<int>, q: int, l: seq<int>)
    requires RecOk(r, buffers) && Distinct(seqs) && Shows(RingOf(r, q), l) && Spread(l)
    requires CleanFree(r) || q !in seqs || q in r.table.slotForSeq
    ensures Shows(RingOf(r.(table := TakeAll(r.table, seqs, |seqs|)), q), l)
  {
    TakeAllSame(r.table, seqs, |seqs|);
    TakeAllNew(r.table, seqs, |seqs|, q);
    hide TakeAll;
    if q !in r.table.slotForSeq {
      EmptyShown(RingOf(r, q), l);
      var t := TakeAll(r.table, seqs, |seqs|);
      if q in t.slotForSeq {
        FreeEmpty(r, buffers, t.slotForSeq[q]);
      }
    }
  }

  /** A slot handed out was free. */
  lemma {:induction false} TakeAllNew(t: Table, seqs: seq<int>, n: nat, q: int)
    requires n <= |seqs|
    ensures var d := TakeAll(t, seqs, n); q in d.slotForSeq && q !in t.slotForSeq ==> d.slotForSeq[q] in t.free
  {
    if n > 0 {
      TakeAllNew(t, seqs, n - 1, q);
      TakeAllPrefix(t, seqs, n - 1);
      var d := TakeAll(t, seqs, n - 1);
      if d.free != [] {
        assert d.free[|d.free| - 1] in d.free;
      }
    }
  }

  /** What StartForward plans: a checkpoint at the end of a sequence just when that lies at position 16
      or later and 1664 or more behind the last one of the store the sequence then uses. */
  lemma BeginPlans(a: Sys, batch: Batch, b: Sys, buffers: set<Buffer>, i: nat)
    requires Step(a, Begin(batch), b, buffers) && i < |b.p.seqs|
    ensures |b.p.planned| == |b.p.seqs|
    ensures var s := b.p.seqs[i];
      var p, last := |Hist(b.hist, s)| - 1, RingOf(b.r, s).lastPos;
      b.p.planned[i] == if 16 <= p && (last < 0 || 1664 <= p - last) then p else -1
  {
    var s := b.p.seqs[i];
    HighestIsLast(a.hist, batch, |batch.positions|, s);
    assert s in b.p.seqs;
    OpeningRing(a.hist, batch, a.r, b.r, b.p, buffers, s);
    hide Given, Grown, Appended, PassTokens, Highest, ContinuesAt, Even;
  }

  /** Setting up a pass changes no store. */
  lemma OpeningRing(hist: map<int, seq<Token>>, batch: Batch, r: Rec, d: Rec, p: Pass, buffers: set<Buffer>, s: int)
    requires Opening(hist, batch, r, d, p, buffers)
    ensures d.table == TakeAll(r.table, p.seqs, |p.seqs|) && forall k :: RingAt(d.rings, k) == RingAt(r.rings, k)
    ensures RingOf(d, s) == RingOf(r.(table := d.table), s)
  {
    hide PlannedFor, SeqsOf, Placing, TakeAll, Blank, Appended, PassTokens;
    forall k ensures RingAt(d.rings, k) == RingAt(r.rings, k) {}
  }

  lemma BeginShown(a: Sys, f: Ref, ms: map<int, seq<int>>, batch: Batch, b: Sys, buffers: set<Buffer>, s: int)
    requires SysOk(a, buffers) && Step(a, Begin(batch), b, buffers) && Agree(a, f) && Trusts(a.r, f)
    requires Accounted(a, f, ms, buffers) && s !in RefAfter(f, a, Begin(batch), b, buffers).doubt
    ensures s !in f.doubt && Shows(RingOf(b.r, s), Marks(ms, s))
  {
    assert Spread(Marks(ms, s)) && Shown(a, f, ms, buffers, s);
    OpeningRing(a.hist, batch, a.r, b.r, b.p, buffers, s);
    SameTokens(a.hist, b.hist, batch, b.p.seqs);
    assert CleanFree(a.r) || s !in b.p.seqs || s in a.r.table.slotForSeq;
    hide RecOk, PassInv, SyncOk, Opening, Appended, ContinuesAt, Shows, Spread, CleanFree, RingOf, TakeAll, InOrder;
    JoinedShows(a.r, buffers, b.p.seqs, s, Marks(ms, s));
  }

  lemma BeginPlansDue(a: Sys, f: Ref, ms: map<int, seq<int>>, batch: Batch, b: Sys, buffers: set<Buffer>)
    requires SysOk(a, buffers) && Step(a, Begin(batch), b, buffers) && Agree(a, f) && Trusts(a.r, f) && Accounted(a, f, ms, buffers)
    ensures PlansDue(b.p, RefAfter(f, a, Begin(batch), b, buffers), ms)
  {
    var g := RefAfter(f, a, Begin(batch), b, buffers);
    assert g.hist == b.hist;
    hide SysOk, Step, Agree, Trusts, RefAfter, RingOf;
    forall i | 0 <= i < |b.p.seqs| && i < |b.p.planned| && b.p.seqs[i] !in g.doubt ensures PlanAsDue(b.p, g, ms, i) {
      BeginPlans(a, batch, b, buffers, i);
      BeginShown(a, f, ms, batch, b, buffers, b.p.seqs[i]);
      assert Spread(Marks(ms, b.p.seqs[i]));
    }
  }

  /** Making the slots of a pass private, or failing to, changes no positions but those of a sequence that
      leaves an empty store for one left behind. */
  lemma OwnSame(a: Sys, op: Op, b: Sys, buffers: set<Buffer>, s: int)
    requires SysOk(a, buffers) && Step(a, op, b, buffers) && (op.Own? || op.GiveUp?)
    requires CleanFree(a.r) || !Shares(a.r, s) || s !in a.p.seqs
    ensures SameAs(RingOf(a.r, s), RingOf(b.r, s))
  {
    NotWritable(a.r, a.p, buffers);
    hide RecOk, PassInv, SyncOk, OwningAll, CleanFree, Shares, AllSole, Targets, Straying, SameAs;
    OwningAllSame(a.hist, a.r, a.p, buffers, |a.p.seqs|, s);
    assert RingOf(b.r, s) == RingOf(OwningAll(a.r, a.p.seqs, |a.p.seqs|), s);
  }

  lemma OwnShown(a: Sys, f: Ref, ms: map<int, seq<int>>, op: Op, b: Sys, buffers: set<Buffer>, s: int)
    requires SysOk(a, buffers) && Step(a, op, b, buffers) && (op.Own? || op.GiveUp?) && Agree(a, f) && Trusts(a.r, f)
    requires Accounted(a, f, ms, buffers) && s !in RefAfter(f, a, op, b, buffers).doubt
    ensures Shows(RingOf(b.r, s), Marks(ms, s))
  {
    NotWritable(a.r, a.p, buffers);
    assert Shown(a, f, ms, buffers, s);
    assert CleanFree(a.r) || !Shares(a.r, s) || s !in a.p.seqs;
    hide SysOk, Step, Shows, Trusts, RefAfter, CleanFree, Shares;
    OwnSame(a, op, b, buffers, s);
    SameShows(RingOf(a.r, s), RingOf(b.r, s), Marks(ms, s));
  }

  // ---------- updates ----------

  /** Sequences on other slots leave the store of slot k alone. */
  lemma {:induction false} CaptureAfter(r: Rec, p: Pass, b: Buffer, rows: seq<State>, m: nat, n: nat, k: int)
    requires m <= n <= |p.slots| == |p.planned| == |rows| && forall j :: m <= j < n ==> p.slots[j] != k
    ensures var c, d := CaptureAll(r, p, b, rows, m), CaptureAll(r, p, b, rows, n);
      && RingAt(d.rings, k) == RingAt(c.rings, k)
      && (k in d.capture <==> k in c.capture) && (k in d.capture ==> d.capture[k] == c.capture[k])
  {
    if m < n {
      CaptureAfter(r, p, b, rows, m, n - 1, k);
      CapturedElsewhere(CaptureAll(r, p, b, rows, n - 1), p.slots[n - 1], p.planned[n - 1], b, rows[n - 1], k);
    }
  }

  /** b is a with a checkpoint at p taken where p is a position. */
  ghost predicate MayTake(a: Ring, b: Ring, p: int) {
    if p < 0 then SameAs(a, b) else Takes(a, b, p)
  }

  /** A checkpoint's first part adds its position, later parts add none. */
  lemma CapturedTakes(r: Rec, k: int, pos: int, b: Buffer, row: State)
    requires 0 <= pos && |RingAt(r.rings, k).entries| == CHECKPOINT_COUNT
    requires 0 <= RingAt(r.rings, k).next < CHECKPOINT_COUNT && (k in r.capture ==> 0 <= r.capture[k] < CHECKPOINT_COUNT)
    ensures MayTake(RingAt(r.rings, k), RingAt(Captured(r, k, pos, b, row).rings, k), if k in r.capture then -1 else pos)
  {
    var ring, after := RingAt(r.rings, k), RingAt(Captured(r, k, pos, b, row).rings, k);
    if k !in r.capture {
      RecordedTakes(ring, pos);
      assert SameAs(Recorded(ring, pos), after);
      hide Takes, SameAs;
      TakesSame(ring, Recorded(ring, pos), after, pos);
    }
  }

  lemma CaptureTakes(r: Rec, p: Pass, b: Buffer, rows: seq<State>, i: nat)
    requires i < |p.slots| == |p.planned| == |rows| && SlotsWithin(p.slots, |r.slotHist|)
    requires var k := p.slots[i];
      && |RingAt(r.rings, k).entries| == CHECKPOINT_COUNT && 0 <= RingAt(r.rings, k).next < CHECKPOINT_COUNT
      && (k in r.capture ==> 0 <= r.capture[k] < CHECKPOINT_COUNT)
    ensures MayTake(RingAt(r.rings, p.slots[i]), RingAt(CaptureAll(r, p, b, rows, |rows|).rings, p.slots[i]),
                    if p.slots[i] in r.capture then -1 else p.planned[i])
  {
    var k := p.slots[i];
    CaptureAfter(r, p, b, rows, 0, i, k);
    CaptureAfter(r, p, b, rows, i + 1, |rows|, k);
    assert CaptureAll(r, p, b, rows, 0) == r;
    var c := CaptureAll(r, p, b, rows, i);
    hide Takes, Captured;
    if p.planned[i] >= 0 {
      CapturedTakes(c, k, p.planned[i], b, rows[i]);
      assert CaptureAll(r, p, b, rows, i + 1) == Captured(c, k, p.planned[i], b, rows[i]);
    } else {
      assert CaptureAll(r, p, b, rows, i + 1) == c;
    }
  }

  lemma RingReady(r: Rec, buffers: set<Buffer>, k: int)
    requires RecOk(r, buffers) && r.todo != {} && (k in r.capture ==> k in r.rings)
    ensures |RingAt(r.rings, k).entries| == CHECKPOINT_COUNT && 0 <= RingAt(r.rings, k).next < CHECKPOINT_COUNT
    ensures k in r.capture ==> 0 <= r.capture[k] < CHECKPOINT_COUNT
  {
    if k in r.rings {
      RingInRange(r, buffers, k);
    }
  }

  /** The account of s once buffer c is updated. */
  lemma UpdateNow(f: Ref, ms: map<int, seq<int>>, c: Buffer, rows: seq<State>, seen: Seen, buffers: set<Buffer>, s: int)
    requires c in f.todo && f.todo <= buffers
    ensures var g := RefStep(f, Update(c, rows), seen, buffers);
      Now(g, MarkStep(ms, f, Update(c, rows)), buffers, s) ==
      if s in f.tokens then Marked(Marks(ms, s), End(f, s)) else Marks(ms, s)
  {
  }

  /** What an update does to the store of sequence i of the pass: the first one takes the checkpoint, if one
      is planned, and later ones add no position. */
  lemma UpdateTakes(a: Sys, op: Op, b: Sys, buffers: set<Buffer>, i: nat)
    requires SysOk(a, buffers) && Step(a, op, b, buffers) && op.Update? && i < |a.p.seqs|
    ensures |a.p.planned| == |a.p.seqs|
    ensures MayTake(RingOf(a.r, a.p.seqs[i]), RingOf(b.r, a.p.seqs[i]), if a.r.todo == buffers then a.p.planned[i] else -1)
  {
    var r, p := a.r, a.p;
    UpdatedIs(r, p, op.to, op.rows);
    assert InPass(r, p, i);
    RingReady(r, buffers, p.slots[i]);
    if p.planned[i] >= 0 {
      assert Planned(p, p.slots[i]);
    }
    if p.slots[i] in r.capture {
      assert r.todo != buffers;
    }
    hide RecOk, SyncOk, Takes, SameAs, CaptureAll, Updated;
    CaptureTakes(r, p, op.to, op.rows, i);
    assert RingOf(b.r, p.seqs[i]) == RingAt(CaptureAll(r, p, op.to, op.rows, |op.rows|).rings, p.slots[i]);
  }

  lemma UpdateShown(a: Sys, f: Ref, ms: map<int, seq<int>>, op: Op, b: Sys, buffers: set<Buffer>, s: int)
    requires SysOk(a, buffers) && Step(a, op, b, buffers) && op.Update? && Agree(a, f)
    requires Accounted(a, f, ms, buffers) && s !in f.doubt
    ensures Shows(RingOf(b.r, s), Now(RefAfter(f, a, op, b, buffers), MarkStep(ms, f, op), buffers, s))
  {
    UpdateNow(f, ms, op.to, op.rows, Seeing(a, op, b), buffers, s);
    assert Shown(a, f, ms, buffers, s);
    if s in f.tokens {
      UpdateMember(a, f, ms, op, b, buffers, s);
    } else {
      UpdateOther(a, op, b, buffers, s);
    }
  }

  lemma UpdateMember(a: Sys, f: Ref, ms: map<int, seq<int>>, op: Op, b: Sys, buffers: set<Buffer>, s: int)
    requires SysOk(a, buffers) && Step(a, op, b, buffers) && op.Update? && Agree(a, f)
    requires Shown(a, f, ms, buffers, s) && PlansDue(a.p, f, ms) && s !in f.doubt && s in f.tokens
    ensures Shows(RingOf(b.r, s), Marked(Marks(ms, s), End(f, s)))
  {
    var i :| 0 <= i < |a.p.seqs| && a.p.seqs[i] == s;
    UpdateTakes(a, op, b, buffers, i);
    assert PlanAsDue(a.p, f, ms, i);
    var x, y, l := RingOf(a.r, s), RingOf(b.r, s), Now(f, ms, buffers, s);
    hide SysOk, Step, Shows, Takes, SameAs, RingOf;
    if a.r.todo == buffers && a.p.planned[i] >= 0 {
      TakesShows(x, y, l, a.p.planned[i]);
    } else {
      SameShows(x, y, l);
    }
  }

  lemma UpdateOther(a: Sys, op: Op, b: Sys, buffers: set<Buffer>, s: int)
    requires SysOk(a, buffers) && Step(a, op, b, buffers) && op.Update? && s !in a.p.tokens
    ensures RingOf(b.r, s) == RingOf(a.r, s)
  {
    var r, p := a.r, a.p;
    UpdatedIs(r, p, op.to, op.rows);
    if s in r.table.slotForSeq {
      var k := r.table.slotForSeq[s];
      if k in p.slots {
        var i :| 0 <= i < |p.slots| && p.slots[i] == k;
        assert InPass(r, p, i) && Private(r, p, i);
        SoleUser(r.table, p.seqs[i], s);
      }
      CaptureOthers(r, p, op.to, op.rows, |op.rows|, k);
    }
  }

  // ---------- between passes ----------

  lemma SameShown(a: Sys, f: Ref, ms: map<int, seq<int>>, op: Op, b: Sys, buffers: set<Buffer>, s: int)
    requires SysOk(a, buffers) && Step(a, op, b, buffers) && (op.Refuse? || op.FailRemove? || op.Fetch? || op.Starve?)
    requires Agree(a, f) && ShapedOp(op) && Accounted(a, f, ms, buffers) && s !in RefAfter(f, a, op, b, buffers).doubt
    ensures Shows(RingOf(b.r, s), Now(RefAfter(f, a, op, b, buffers), MarkStep(ms, f, op), buffers, s))
  {
    assert s !in f.doubt && Shown(a, f, ms, buffers, s);
    hide RecOk, PassInv, SyncOk, Shows, Cut, Appended, ContinuesAt, Even, HistOk;
    if op.Starve? {
      StarveParts(a, op.crowd, b, buffers);
      StarveIs(a.r, b.r, b.p.seqs);
      hide Step, OutOfSlots, TakeAll;
      TakeAllSame(a.r.table, b.p.seqs, |b.p.seqs|);
    }
  }

  lemma CopyShown(a: Sys, f: Ref, ms: map<int, seq<int>>, op: Op, b: Sys, buffers: set<Buffer>, s: int)
    requires SysOk(a, buffers) && Step(a, op, b, buffers) && op.Copy?
    requires Agree(a, f) && Accounted(a, f, ms, buffers) && s !in RefAfter(f, a, op, b, buffers).doubt
    ensures Shows(RingOf(b.r, s), Now(RefAfter(f, a, op, b, buffers), MarkStep(ms, f, op), buffers, s))
  {
    var q := if s == op.dst then op.src else s;
    assert q !in f.doubt && Shown(a, f, ms, buffers, q);
    CopiedTable(a.r, buffers, op.src, op.dst);
    CopiedSlots(a.r, buffers, op.src, op.dst);
    hide RecOk, PassInv, SyncOk, Shows, Copied, HistOk, LeavesCheckpoints;
    assert RingOf(b.r, s) == RingOf(a.r, q);
  }

  /** s takes its checkpoint along to a slot of its own. */
  lemma OwnedNow(r: Rec, buffers: set<Buffer>, s: int, x: Restore)
    requires RecOk(r, buffers) && r.todo == {} && RestoreFresh(r, s, x)
    requires s in Owning(r, s).table.slotForSeq && (Shares(r, s) ==> CanDetach(r, s))
    ensures Owned(r, s, x, Owning(r, s), x.(slot := Owning(r, s).table.slotForSeq[s]))
  {
    OwnFacts(r, buffers, s, x);
    if Shares(r, s) {
      DetachedOwns(r, buffers, s, x, Owning(r, s));
    }
  }

  lemma RollBackOf(a: Sys, op: Op, b: Sys, buffers: set<Buffer>) returns (x: Restore)
    requires Step(a, op, b, buffers) && op.RollBack?
    ensures a.r.todo == {} && RestoreFresh(a.r, op.s, x) && x.pos + 1 == op.kept && IsRolledBack(a.r, op.s, x, buffers, b.r)
  {
    hide IsRolledBack, BestRestore, Cut;
    x :| BestRestore(a.r, op.s, op.target, x) && x.pos + 1 == op.kept && IsRolledBack(a.r, op.s, x, buffers, b.r);
    BestIsFresh(a.r, op.s, op.target, x);
  }

  lemma RollBackShown(a: Sys, f: Ref, ms: map<int, seq<int>>, op: Op, b: Sys, buffers: set<Buffer>, s: int)
    requires SysOk(a, buffers) && Step(a, op, b, buffers) && op.RollBack?
    requires Agree(a, f) && Accounted(a, f, ms, buffers) && s !in f.doubt
    ensures Shows(RingOf(b.r, s), Marks(MarkStep(ms, f, op), s)) && (s == op.s ==> op.kept - 1 in Marks(ms, s))
  {
    hide Step, Accounted, RestoreFresh, IsRolledBack, PassInv, SyncOk, HistOk;
    var l := Marks(ms, s);
    var x := RollBackOf(a, op, b, buffers);
    ShowsNow(a, f, ms, buffers, s);
    hide RecOk, Shows, Spread, RingOf, UpTo;
    RolledBackShows(a.r, buffers, op.s, x, b.r, s, l);
  }

  lemma RolledBackShows(r: Rec, buffers: set<Buffer>, s: int, x: Restore, d: Rec, q: int, l: seq<int>)
    requires RecOk(r, buffers) && r.todo == {} && RestoreFresh(r, s, x) && IsRolledBack(r, s, x, buffers, d)
    requires Shows(RingOf(r, q), l) && Spread(l)
    ensures Shows(RingOf(d, q), if q == s then UpTo(l, x.pos) else l) && (q == s ==> x.pos in l)
  {
    LiveCopies(r, buffers, x.slot, x.idx);
    OwningSame(r, buffers, s, q);
    SameShows(RingOf(r, q), RingOf(Owning(r, s), q), l);
    OwningKeeps(r, buffers, s);
    var own := Owning(r, s);
    RecParts(own, buffers);
    hide RecOk, TableOk, Owning, Shows, Spread, PruneEntries, Rebuilt, RestoreRows, EntryAny, Copies;
    RolledBackFresh(r, buffers, s, x, d);
    var k := own.table.slotForSeq[s];
    if q == s {
      PrunedShows(own.rings[k], l, x.idx, x.pos, d.rings[k]);
    } else if q in own.table.slotForSeq {
      SoleUser(own.table, s, q);
    }
  }

  /** Rolled back, s has its slot to itself and the checkpoint along with it. */
  lemma RolledBackFresh(r: Rec, buffers: set<Buffer>, s: int, x: Restore, d: Rec)
    requires RecOk(r, buffers) && r.todo == {} && RestoreFresh(r, s, x) && IsRolledBack(r, s, x, buffers, d)
    ensures s in Owning(r, s).table.slotForSeq
    ensures RestoreFresh(Owning(r, s), s, x.(slot := Owning(r, s).table.slotForSeq[s]))
  {
    hide RecOk, IsRestored, Owned;
    OwnedNow(r, buffers, s, x);
    OwnedFresh(r, s, x, Owning(r, s), x.(slot := Owning(r, s).table.slotForSeq[s]));
  }

  lemma StartShown(a: Sys, f: Ref, ms: map<int, seq<int>>, op: Op, b: Sys, buffers: set<Buffer>, s: int)
    requires SysOk(a, buffers) && Step(a, op, b, buffers) && op.RemoveStart?
    requires Agree(a, f) && Accounted(a, f, ms, buffers) && s !in RefAfter(f, a, op, b, buffers).doubt
    ensures Shows(RingOf(b.r, s), Marks(MarkStep(ms, f, op), s))
  {
    hide Accounted, PassInv, SyncOk, HistOk, Cut, Shows, Released, RecOk;
    if s == op.s {
      ReleasedNone(op.s, a.r, b.r);
    } else {
      ShowsNow(a, f, ms, buffers, s);
      ReleasedOther(a.r, buffers, op.s, b.r, s);
    }
  }

  lemma ReleasedNone(s: int, r: Rec, d: Rec)
    requires IsReleased(r, s, d)
    ensures Shows(RingOf(d, s), [])
  {
    FreshRingEmpty(CHECKPOINT_COUNT);
    EmptyShows(FreshRing(CHECKPOINT_COUNT));
  }

  lemma ReleasedOther(r: Rec, buffers: set<Buffer>, s: int, d: Rec, q: int)
    requires RecOk(r, buffers) && IsReleased(r, s, d) && q != s
    ensures RingOf(d, q) == RingOf(r, q)
  {
    if s in r.table.slotForSeq {
      SlotFacts(r, buffers, s);
      RecParts(r, buffers);
      hide RecOk, TableOk, ResetRing;
      if q in r.table.slotForSeq && r.table.refCount[r.table.slotForSeq[s]] <= 1 {
        SoleUser(r.table, s, q);
      }
    }
  }

  lemma MiddleShown(a: Sys, f: Ref, ms: map<int, seq<int>>, op: Op, b: Sys, buffers: set<Buffer>, s: int)
    requires SysOk(a, buffers) && Step(a, op, b, buffers) && op.RemoveMiddle?
    requires Agree(a, f) && Accounted(a, f, ms, buffers) && s !in RefAfter(f, a, op, b, buffers).doubt
    ensures Shows(RingOf(b.r, s), Marks(ms, s))
  {
    assert s !in f.doubt && s != op.s && Spread(Marks(ms, s)) && Shown(a, f, ms, buffers, s);
    hide PassInv, SyncOk, Cut, HistOk, Shows, Spread, Near;
    if op.s in a.r.table.slotForSeq {
      OwningSame(a.r, buffers, op.s, s);
      SameShows(RingOf(a.r, s), RingOf(Owning(a.r, op.s), s), Marks(ms, s));
      OwningKeeps(a.r, buffers, op.s);
      ShiftedOther(Owning(a.r, op.s), buffers, op.s, op.begin, op.end, b.r, s);
    }
  }

  lemma ShiftedOther(r: Rec, buffers: set<Buffer>, s: int, begin: int, end: int, d: Rec, q: int)
    requires RecOk(r, buffers) && s in r.table.slotForSeq && !Shares(r, s) && IsShifted(r, r.table.slotForSeq[s], begin, end, d) && q != s
    ensures RingOf(d, q) == RingOf(r, q)
  {
    SlotFacts(r, buffers, s);
    RecParts(r, buffers);
    hide RecOk, TableOk, ShiftEntries, Rebuilt, IsGreatest;
    if q in r.table.slotForSeq {
      SoleUser(r.table, s, q);
    }
  }

  // ---------- every run ----------

  /** What NearStep starts from. */
  ghost predicate NearBefore(f: Ref, ms: map<int, seq<int>>, op: Op, seen: Seen, buffers: set<Buffer>, s: int) {
    && RefOk(f) && Timely(f, op, buffers) && AllSpread(ms)
    && (op.Starve? ==> forall q :: q in seen.found ==> q in seen.joins)
    && (forall q :: q !in f.doubt ==> Near(Marks(ms, q), |Hist(f.state, q)|))
    && (op.RollBack? && s == op.s && s !in f.doubt ==> op.kept - 1 in Marks(ms, s) && op.kept <= |Hist(f.state, s)|)
    && s !in RefStep(f, op, seen, buffers).doubt
  }

  /** The last mark stays near the end of the state. */
  lemma NearStep(f: Ref, ms: map<int, seq<int>>, op: Op, seen: Seen, buffers: set<Buffer>, s: int)
    requires NearBefore(f, ms, op, seen, buffers, s)
    ensures Near(Marks(MarkStep(ms, f, op), s), |Hist(RefStep(f, op, seen, buffers).state, s)|)
  {
    hide NearBefore, Near, Marks, MarkStep, RefStep;
    if op.Update? {
      UpdateNear(f, ms, op, seen, buffers, s);
    } else if op.Copy? {
      CopyNear(f, ms, op, seen, buffers, s);
    } else if op.RollBack? {
      RollBackNear(f, ms, op, seen, buffers, s);
    } else if op.RemoveStart? {
      StartNear(f, ms, op, seen, buffers, s);
    } else {
      SameNear(f, ms, op, seen, buffers, s);
    }
  }

  lemma SameNear(f: Ref, ms: map<int, seq<int>>, op: Op, seen: Seen, buffers: set<Buffer>, s: int)
    requires NearBefore(f, ms, op, seen, buffers, s) && !op.Update? && !op.Copy? && !op.RollBack? && !op.RemoveStart?
    ensures Near(Marks(MarkStep(ms, f, op), s), |Hist(RefStep(f, op, seen, buffers).state, s)|)
  {
    hide RefOk, Timely, AllSpread, Near, Cut, Appended, PassTokens, Strays;
    assert s !in f.doubt;
  }

  lemma UpdateNear(f: Ref, ms: map<int, seq<int>>, op: Op, seen: Seen, buffers: set<Buffer>, s: int)
    requires NearBefore(f, ms, op, seen, buffers, s) && op.Update?
    ensures Near(Marks(MarkStep(ms, f, op), s), |Hist(RefStep(f, op, seen, buffers).state, s)|)
  {
    assert Spread(Marks(ms, s));
    hide RefOk, Timely, AllSpread, Near, Spread;
    if f.todo - {op.to} == {} && s in f.tokens {
      PassNear(f, ms, s);
    }
  }

  lemma CopyNear(f: Ref, ms: map<int, seq<int>>, op: Op, seen: Seen, buffers: set<Buffer>, s: int)
    requires NearBefore(f, ms, op, seen, buffers, s) && op.Copy?
    ensures Near(Marks(MarkStep(ms, f, op), s), |Hist(RefStep(f, op, seen, buffers).state, s)|)
  {
    hide RefOk, Timely, AllSpread, Near, Prefix;
    HistSet(f.state, op.dst, Hist(f.state, op.src));
    hide SetHist;
    assert (if s == op.dst then op.src else s) !in f.doubt;
  }

  lemma RollBackNear(f: Ref, ms: map<int, seq<int>>, op: Op, seen: Seen, buffers: set<Buffer>, s: int)
    requires NearBefore(f, ms, op, seen, buffers, s) && op.RollBack?
    ensures Near(Marks(MarkStep(ms, f, op), s), |Hist(RefStep(f, op, seen, buffers).state, s)|)
  {
    assert s !in f.doubt && Spread(Marks(ms, s));
    hide RefOk, Timely, AllSpread, Near, Spread, Cut, Prefix;
    HistSet(f.state, op.s, if op.s in f.doubt then Hist(seen.found, op.s) else Prefix(Hist(f.state, op.s), op.kept));
    if s == op.s {
      BackNear(Marks(ms, s), Hist(f.state, s), op.kept);
    }
    hide SetHist, UpTo;
  }

  lemma StartNear(f: Ref, ms: map<int, seq<int>>, op: Op, seen: Seen, buffers: set<Buffer>, s: int)
    requires NearBefore(f, ms, op, seen, buffers, s) && op.RemoveStart?
    ensures Near(Marks(MarkStep(ms, f, op), s), |Hist(RefStep(f, op, seen, buffers).state, s)|)
  {
    hide RefOk, Timely, AllSpread, Near, Cut;
    HistSet(f.state, op.s, []);
    NothingNear();
    hide SetHist;
  }

  lemma NothingNear()
    ensures Near([], 0)
  {
  }

  lemma BackNear(l: seq<int>, h: State, kept: int)
    requires Spread(l) && kept - 1 in l && kept <= |h|
    ensures Near(UpTo(l, kept - 1), |Prefix(h, kept)|)
  {
    UpToIs(l, kept - 1);
  }

  lemma PassNear(f: Ref, ms: map<int, seq<int>>, s: int)
    requires RefOk(f) && s in f.tokens && s !in f.doubt && Spread(Marks(ms, s)) && Near(Marks(ms, s), |Hist(f.state, s)|)
    ensures Near(Marked(Marks(ms, s), End(f, s)), |Hist(MovedOn(f.state, f.tokens), s)|)
  {
    assert Reference.Ahead(f, s);
    MarkedNear(Marks(ms, s), |Hist(f.state, s)|, |Hist(f.hist, s)|);
  }

  lemma PlansStep(a: Sys, f: Ref, ms: map<int, seq<int>>, op: Op, b: Sys, buffers: set<Buffer>)
    requires SysOk(a, buffers) && Step(a, op, b, buffers) && Agree(a, f) && Trusts(a.r, f) && ShapedOp(op)
    requires Accounted(a, f, ms, buffers) && Timely(f, op, buffers)
    ensures PlansDue(b.p, RefAfter(f, a, op, b, buffers), MarkStep(ms, f, op))
  {
    if op.Begin? {
      hide SysOk, Step, Agree, Trusts, Accounted;
      BeginPlansDue(a, f, ms, op.batch, b, buffers);
    } else if op.Own? || op.Fetch? || op.Update? {
      PlansStay(a, f, ms, op, b, buffers);
    } else {
      hide SysOk, Step, Agree, Trusts, Accounted, Strays;
    }
  }

  lemma PassStays(a: Sys, op: Op, b: Sys, buffers: set<Buffer>)
    requires Step(a, op, b, buffers) && (op.Own? || op.Fetch? || op.Update?)
    ensures b.p.seqs == a.p.seqs && b.p.planned == a.p.planned && b.hist == a.hist
    ensures b.r.todo == if op.Update? then a.r.todo - {op.to} else a.r.todo
    ensures op.Own? ==> !a.p.writable
  {
    hide OwningAll, AllSole, Folding, Created, Targets, CaptureAll, SlotsWithin, SlotsFor;
    if op.Own? {
      OwningTodo(a.r, a.p.seqs, |a.p.seqs|);
    }
  }

  lemma {:induction false} OwningTodo(r: Rec, seqs: seq<int>, n: nat)
    requires n <= |seqs|
    ensures OwningAll(r, seqs, n).todo == r.todo
  {
    if n > 0 {
      OwningTodo(r, seqs, n - 1);
    }
  }

  lemma PlansStay(a: Sys, f: Ref, ms: map<int, seq<int>>, op: Op, b: Sys, buffers: set<Buffer>)
    requires Step(a, op, b, buffers) && Agree(a, f) && PlansDue(a.p, f, ms) && (op.Own? || op.Fetch? || op.Update?)
    ensures PlansDue(b.p, RefAfter(f, a, op, b, buffers), MarkStep(ms, f, op))
  {
    var g := RefAfter(f, a, op, b, buffers);
    PassStays(a, op, b, buffers);
    assert f.todo != {} by { hide IsUpdated, MadePrivate; }
    hide Step, Agree, Due, Shares;
    if g.todo != {} {
      forall i | 0 <= i < |b.p.seqs| && i < |b.p.planned| && b.p.seqs[i] !in g.doubt
        ensures PlanAsDue(b.p, g, MarkStep(ms, f, op), i)
      {
        assert PlanAsDue(a.p, f, ms, i);
      }
    }
  }

  lemma ShownStep(a: Sys, f: Ref, ms: map<int, seq<int>>, op: Op, b: Sys, buffers: set<Buffer>, s: int)
    requires SysOk(a, buffers) && Step(a, op, b, buffers) && Agree(a, f) && Trusts(a.r, f) && ShapedOp(op)
    requires Accounted(a, f, ms, buffers) && Timely(f, op, buffers) && s !in RefAfter(f, a, op, b, buffers).doubt
    ensures Shows(RingOf(b.r, s), Now(RefAfter(f, a, op, b, buffers), MarkStep(ms, f, op), buffers, s))
    ensures op.RollBack? && s == op.s && s !in f.doubt ==> op.kept - 1 in Marks(ms, s)
  {
    hide SysOk, Step, Agree, Trusts, Accounted, Shows, RingOf;
    if op.Begin? {
      BeginShown(a, f, ms, op.batch, b, buffers, s);
    } else if op.Own? || op.GiveUp? {
      OwnShown(a, f, ms, op, b, buffers, s);
      OwnNow(a, f, ms, op, b, buffers, s);
    } else if op.Update? {
      UpdateShown(a, f, ms, op, b, buffers, s);
    } else if op.Copy? {
      CopyShown(a, f, ms, op, b, buffers, s);
    } else if op.RollBack? {
      RollBackShown(a, f, ms, op, b, buffers, s);
    } else if op.RemoveStart? {
      StartShown(a, f, ms, op, b, buffers, s);
    } else if op.RemoveMiddle? {
      MiddleShown(a, f, ms, op, b, buffers, s);
    } else {
      SameShown(a, f, ms, op, b, buffers, s);
    }
  }

  lemma OwnNow(a: Sys, f: Ref, ms: map<int, seq<int>>, op: Op, b: Sys, buffers: set<Buffer>, s: int)
    requires SysOk(a, buffers) && Step(a, op, b, buffers) && Agree(a, f) && (op.Own? || op.GiveUp?)
    ensures Now(RefAfter(f, a, op, b, buffers), MarkStep(ms, f, op), buffers, s) == Marks(ms, s)
  {
    NotWritable(a.r, a.p, buffers);
    hide SysOk, Step, Marks, Marked;
  }

  /** One step, whatever it is: the stores go on showing the account. */
  lemma StepAccounts(a: Sys, f: Ref, ms: map<int, seq<int>>, op: Op, b: Sys, buffers: set<Buffer>)
    requires SysOk(a, buffers) && Step(a, op, b, buffers) && Agree(a, f) && RefOk(f) && Trusts(a.r, f) && ShapedOp(op)
    requires Accounted(a, f, ms, buffers)
    ensures Accounted(b, RefAfter(f, a, op, b, buffers), MarkStep(ms, f, op), buffers)
  {
    StepTimely(a, f, op, b, buffers);
    PlansStep(a, f, ms, op, b, buffers);
    SpreadStep(ms, f, op);
    var g, ns := RefAfter(f, a, op, b, buffers), MarkStep(ms, f, op);
    hide Agree, SysOk, Step, RefOk, Trusts, Timely, MarkStep, AllSpread, PlansDue, Shows, Near, RefStep, Seeing;
    forall s | s !in g.doubt ensures Shown(b, g, ns, buffers, s) {
      ShownStep(a, f, ms, op, b, buffers, s);
      NearAfter(a, f, ms, op, b, buffers, s);
    }
  }

  lemma NearAfter(a: Sys, f: Ref, ms: map<int, seq<int>>, op: Op, b: Sys, buffers: set<Buffer>, s: int)
    requires SysOk(a, buffers) && Step(a, op, b, buffers) && Agree(a, f) && RefOk(f) && Trusts(a.r, f) && ShapedOp(op)
    requires AllSpread(ms) && AllShown(a, f, ms, buffers) && s !in RefAfter(f, a, op, b, buffers).doubt
    requires op.RollBack? && s == op.s && s !in f.doubt ==> op.kept - 1 in Marks(ms, s)
    ensures Near(Marks(MarkStep(ms, f, op), s), |Hist(RefAfter(f, a, op, b, buffers).state, s)|)
  {
    StepTimely(a, f, op, b, buffers);
    hide Step, SysOk, Trusts, RefOk, Timely, Near, Shows, AllSpread, MarkStep, RefStep, RingOf;
    if op.RollBack? {
      RollBackAgrees(a, f, op, b, buffers);
    }
    forall q | q !in f.doubt ensures Near(Marks(ms, q), |Hist(f.state, q)|) {
      assert Shown(a, f, ms, buffers, q);
    }
    hide AllShown, Shown;
    assert NearBefore(f, ms, op, Seeing(a, op, b), buffers, s);
    hide NearBefore;
    NearStep(f, ms, op, Seeing(a, op, b), buffers, s);
  }

  /** The account of a run. */
  ghost function RunMarks(run: seq<Sys>, ops: seq<Op>, buffers: set<Buffer>): map<int, seq<int>>
    requires |run| == |ops| + 1 && forall i :: 0 <= i < |ops| ==> ShapedOp(ops[i])
    decreases |ops|
  {
    var n := |ops|;
    if n == 0 then map[]
    else MarkStep(RunMarks(run[..n], ops[..n - 1], buffers), RefRun(run[..n], ops[..n - 1], buffers), ops[n - 1])
  }

  /** Over every run, for every sequence not in doubt: the store of its slot, wherever that came from and
      whoever shared it, shows the account kept from the calls. */
  lemma {:induction false} RunAccounts(run: seq<Sys>, ops: seq<Op>, slots: nat, buffers: set<Buffer>)
    requires IsRun(run, ops, slots, buffers)
    ensures Accounted(run[|ops|], RefRun(run, ops, buffers), RunMarks(run, ops, buffers), buffers)
  {
    hide Accounted, Step, RefAfter, ShapedOp, MarkStep;
    var n := |ops|;
    if n == 0 {
      StartAccounts(run[0], slots, buffers);
      return;
    }
    RunPrefix(run, ops, slots, buffers);
    var before, earlier := run[..n], ops[..n - 1];
    RunAccounts(before, earlier, slots, buffers);
    RunAgrees(before, earlier, slots, buffers);
    assert before[|earlier|] == run[n - 1];
    var ms := RunMarks(before, earlier, buffers);
    assert RunMarks(run, ops, buffers) == MarkStep(ms, RefRun(before, earlier, buffers), ops[n - 1]);
    hide IsRun, RefRun, RunMarks, SysOk, Agree, RefOk, Trusts;
    StepAccounts(run[n - 1], RefRun(before, earlier, buffers), ms, ops[n - 1], run[n], buffers);
  }

  lemma StartAccounts(a: Sys, slots: nat, buffers: set<Buffer>)
    requires a.r == EmptyRec(slots)
    ensures Accounted(a, NOTHING, map[], buffers)
  {
    FreshRingEmpty(CHECKPOINT_COUNT);
    EmptyShows(FreshRing(CHECKPOINT_COUNT));
    hide FreshRing;
    forall s ensures Shown(a, NOTHING, map[], buffers, s) {}
  }

  // ---------- what that means for a caller ----------

  /** Over every run, for every sequence not in doubt: its live checkpoints lie at position 16 or later and
      1664 or more apart. */
  lemma CheckpointsApart(run: seq<Sys>, ops: seq<Op>, slots: nat, buffers: set<Buffer>, s: int, p: int, q: int)
    requires IsRun(run, ops, slots, buffers) && s !in RefRun(run, ops, buffers).doubt
    requires LiveAt(RingOf(run[|ops|].r, s), p) && LiveAt(RingOf(run[|ops|].r, s), q) && p < q
    ensures 16 <= p && p + 1664 <= q
  {
    hide Accounted, Step, LiveAt, RingOf, Spread, Shows;
    RunAccounts(run, ops, slots, buffers);
    var f, ms := RefRun(run, ops, buffers), RunMarks(run, ops, buffers);
    hide IsRun, RefRun, RunMarks;
    ShowsNow(run[|ops|], f, ms, buffers, s);
    MarkedSpread(Marks(ms, s), End(f, s));
    ShownApart(RingOf(run[|ops|].r, s), Now(f, ms, buffers, s), p, q);
  }

  lemma ShownApart(ring: Ring, l: seq<int>, p: int, q: int)
    requires Shows(ring, l) && Spread(l) && LiveAt(ring, p) && LiveAt(ring, q) && p < q
    ensures 16 <= p && p + 1664 <= q
  {
    assert p in l && q in l;
  }

  /** Over every run, for every sequence not in doubt, between passes: once its state holds 17 tokens, looking
      for a checkpoint anywhere below the end of the state finds one less than 1664 behind that end, whatever
      the passes that made it, and whatever was copied or rolled back meanwhile. */
  lemma CheckpointNear(run: seq<Sys>, ops: seq<Op>, slots: nat, buffers: set<Buffer>, s: int)
    requires IsRun(run, ops, slots, buffers) && run[|ops|].r.todo == {} && s !in RefRun(run, ops, buffers).doubt
    requires 17 <= |Folded(run[|ops|].r, s)|
    ensures exists x: Restore :: BestRestore(run[|ops|].r, s, |Folded(run[|ops|].r, s)|, x) && |Folded(run[|ops|].r, s)| - 1664 <= x.pos
  {
    RunAccounts(run, ops, slots, buffers);
    RunAgrees(run, ops, slots, buffers);
    var a, f, ms := run[|ops|], RefRun(run, ops, buffers), RunMarks(run, ops, buffers);
    hide IsRun, RefRun, RunMarks, SysOk, Trusts, BestRestore;
    var l := Marks(ms, s);
    assert Spread(l) && Shown(a, f, ms, buffers, s) && Folded(a.r, s) == Hist(f.state, s);
    var x := BestShown(a.r, s, l, |Folded(a.r, s)|);
  }

  /** The last of the account is what a rollback to beyond it finds. */
  lemma BestShown(r: Rec, s: int, l: seq<int>, target: int) returns (x: Restore)
    requires Shows(RingOf(r, s), l) && Spread(l) && l != [] && Last(l) < target
    ensures BestRestore(r, s, target, x) && x.pos == Last(l)
  {
    LastGreatest(l);
    var ring := RingOf(r, s);
    var i :| 0 <= i < |ring.entries| && ring.entries[i].pos == Last(l);
    x := Restore(if s in r.table.slotForSeq then r.table.slotForSeq[s] else -1, i, Last(l));
  }

  // ---------- what removals do ----------

  lemma SameLive(a: Ring, b: Ring, pos: int)
    requires SameAs(a, b)
    ensures LiveAt(a, pos) <==> LiveAt(b, pos)
  {
    if 0 <= pos {
      if i :| 0 <= i < |a.entries| && a.entries[i].pos == pos {
        assert b.entries[i].pos == pos;
      }
      if i :| 0 <= i < |b.entries| && b.entries[i].pos == pos {
        assert a.entries[i].pos == pos;
      }
    }
  }

  /** After a rollback the checkpoints below the place are the ones there were, and none lies behind it. */
  lemma RollBackKeepsEarlier(a: Sys, op: Op, b: Sys, buffers: set<Buffer>, pos: int)
    requires SysOk(a, buffers) && Step(a, op, b, buffers) && op.RollBack?
    ensures LiveAt(RingOf(b.r, op.s), pos) <==> LiveAt(RingOf(a.r, op.s), pos) && pos < op.kept
  {
    var s, own := op.s, Owning(a.r, op.s);
    var x := RollBackOf(a, op, b, buffers);
    LiveCopies(a.r, buffers, x.slot, x.idx);
    OwningSame(a.r, buffers, s, s);
    hide SysOk, Step, Owning, Rebuilt, RestoreRows, EntryAny, SameAs, LiveAt;
    SameLive(RingOf(a.r, s), RingOf(own, s), pos);
    RolledBackFresh(a.r, buffers, s, x, b.r);
    PrunedLive(own.rings[own.table.slotForSeq[s]], b.r.rings[own.table.slotForSeq[s]], x.pos, pos);
  }

  lemma PrunedLive(before: Ring, ring: Ring, p: int, pos: int)
    requires ring.entries == PruneEntries(before.entries, p)
    ensures LiveAt(ring, pos) <==> LiveAt(before, pos) && pos <= p
  {
    if 0 <= pos {
      if i :| 0 <= i < |before.entries| && before.entries[i].pos == pos {
        assert pos <= p ==> ring.entries[i].pos == pos;
      }
      if i :| 0 <= i < |ring.entries| && ring.entries[i].pos == pos {
        assert before.entries[i].pos == pos;
      }
    }
  }

  /** A middle removal moves the checkpoints behind the cut down by its length; those in it go, those before
      it stay. */
  lemma MiddleMoves(a: Sys, op: Op, b: Sys, buffers: set<Buffer>, pos: int)
    requires SysOk(a, buffers) && Step(a, op, b, buffers) && op.RemoveMiddle? && Carries(a.r, op.s) && 0 <= pos
    ensures LiveAt(RingOf(b.r, op.s), pos) <==> LiveAt(RingOf(a.r, op.s), if pos < op.begin then pos else pos + (op.end - op.begin))
  {
    var s, own := op.s, Owning(a.r, op.s);
    if s in a.r.table.slotForSeq {
      OwningSame(a.r, buffers, s, s);
      OwningKeeps(a.r, buffers, s);
      hide SysOk, Owning, Rebuilt, IsGreatest, SameAs, LiveAt, Carries, Cut, RingOf;
      var was := if pos < op.begin then pos else pos + (op.end - op.begin);
      SameLive(RingOf(a.r, s), RingOf(own, s), was);
      ShiftedAt(own, s, op.begin, op.end, b.r, pos);
    } else {
      assert RingOf(b.r, s) == RingOf(a.r, s) == FreshRing(CHECKPOINT_COUNT);
    }
  }

  lemma ShiftedAt(r: Rec, s: int, begin: int, end: int, d: Rec, pos: int)
    requires s in r.table.slotForSeq && IsShifted(r, r.table.slotForSeq[s], begin, end, d) && 0 <= begin <= end && 0 <= pos
    ensures LiveAt(RingOf(d, s), pos) <==> LiveAt(RingOf(r, s), if pos < begin then pos else pos + (end - begin))
  {
    hide Rebuilt, IsGreatest;
    var k := r.table.slotForSeq[s];
    if k in r.rings {
      ShiftedLive(r.rings[k], d.rings[k], begin, end, pos);
    }
  }

  lemma ShiftedLive(before: Ring, ring: Ring, begin: int, end: int, pos: int)
    requires ring.entries == ShiftEntries(before.entries, begin, end) && 0 <= begin <= end && 0 <= pos
    ensures LiveAt(ring, pos) <==> LiveAt(before, if pos < begin then pos else pos + (end - begin))
  {
    var was := if pos < begin then pos else pos + (end - begin);
    if i :| 0 <= i < |before.entries| && before.entries[i].pos == was {
      assert ring.entries[i].pos == pos;
    }
    if i :| 0 <= i < |ring.entries| && ring.entries[i].pos == pos {
      assert before.entries[i].pos == was;
    }
  }

  // ---------- one pass ----------

  /** A pass: StartForward, and then reads and updates of its buffers. */
  ghost predicate IsPass(run: seq<Sys>, ops: seq<Op>, buffers: set<Buffer>) {
    && |run| == |ops| + 1 && ops != [] && ops[0].Begin?
    && (forall i :: 0 < i < |ops| ==> ops[i].Own? || ops[i].Fetch? || ops[i].Update?)
    && (forall i :: 0 <= i < |ops| ==> Step(run[i], ops[i], run[i + 1], buffers))
  }

  /** Where a pass stands: x is the store of sequence i of the pass b when it was set up. */
  ghost predicate PassAt(b: Sys, x: Ring, a: Sys, buffers: set<Buffer>, i: nat)
    requires i < |b.p.seqs| == |b.p.planned|
  {
    && SysOk(a, buffers) && a.p.seqs == b.p.seqs && a.p.planned == b.p.planned && a.hist == b.hist && a.r.todo <= buffers
    && (!a.p.writable ==> a == b)
    && MayTake(x, RingOf(a.r, b.p.seqs[i]), if a.r.todo == buffers then -1 else b.p.planned[i])
  }

  lemma PassGoesOn(b: Sys, x: Ring, a: Sys, op: Op, c: Sys, buffers: set<Buffer>, i: nat)
    requires i < |b.p.seqs| == |b.p.planned| && PassAt(b, x, a, buffers, i)
    requires CleanFree(b.r) || !Shares(b.r, b.p.seqs[i])
    requires Step(a, op, c, buffers) && (op.Own? || op.Fetch? || op.Update?)
    ensures PassAt(b, x, c, buffers, i)
  {
    var s := b.p.seqs[i];
    StepKeeps(a, op, c, buffers);
    PassStays(a, op, c, buffers);
    PassWrites(a, op, c, buffers);
    if op.Own? {
      OwnSame(a, op, c, buffers, s);
    } else if op.Update? {
      UpdateTakes(a, op, c, buffers, i);
      assert op.to in a.r.todo by { hide IsUpdated; }
    } else {
      FetchSame(a, op, c, buffers, s);
    }
    hide SysOk, Step, SameAs, Takes, CleanFree, Shares, RingOf;
    MayChain(x, RingOf(a.r, s), RingOf(c.r, s));
  }

  lemma PassWrites(a: Sys, op: Op, b: Sys, buffers: set<Buffer>)
    requires Step(a, op, b, buffers) && (op.Own? || op.Fetch? || op.Update?)
    ensures b.p.writable && (op.Own? <==> !a.p.writable)
  {
    hide OwningAll, AllSole, Folding, Created, IsOpened, IsUpdated, SlotsFor;
  }

  lemma FetchSame(a: Sys, op: Op, b: Sys, buffers: set<Buffer>, s: int)
    requires Step(a, op, b, buffers) && op.Fetch?
    ensures SameAs(RingOf(a.r, s), RingOf(b.r, s))
  {
  }

  lemma MayChain(a: Ring, b: Ring, c: Ring)
    ensures SameAs(a, b) && SameAs(b, c) ==> SameAs(a, c)
    ensures forall p :: (SameAs(a, b) && Takes(b, c, p)) || (Takes(a, b, p) && SameAs(b, c)) ==> Takes(a, c, p)
  {
    forall p | (SameAs(a, b) && Takes(b, c, p)) || (Takes(a, b, p) && SameAs(b, c)) ensures Takes(a, c, p) {
      TakesSame(a, b, c, p);
    }
  }

  lemma PassStarts(a: Sys, batch: Batch, b: Sys, buffers: set<Buffer>, i: nat)
    requires SysOk(a, buffers) && Step(a, Begin(batch), b, buffers) && i < |b.p.seqs|
    ensures |b.p.planned| == |b.p.seqs| && PassAt(b, RingOf(b.r, b.p.seqs[i]), b, buffers, i)
  {
    BeginPlans(a, batch, b, buffers, i);
    StepKeeps(a, Begin(batch), b, buffers);
    assert b.r.todo == buffers by { hide SysOk, SeqsOf, Even, Given, PlannedFor, PassTokens, Grown; }
    hide SysOk, Step, RingOf;
  }

  lemma {:induction false} PassSoFar(run: seq<Sys>, ops: seq<Op>, buffers: set<Buffer>, i: nat)
    requires IsPass(run, ops, buffers) && SysOk(run[0], buffers) && i < |run[1].p.seqs|
    requires CleanFree(run[1].r) || !Shares(run[1].r, run[1].p.seqs[i])
    ensures |run[1].p.planned| == |run[1].p.seqs|
    ensures PassAt(run[1], RingOf(run[1].r, run[1].p.seqs[i]), run[|ops|], buffers, i)
  {
    hide Step, SysOk, RingOf, PassAt, CleanFree, Shares;
    var n, b := |ops|, run[1];
    PassStarts(run[0], ops[0].batch, b, buffers, i);
    if n > 1 {
      PassPrefix(run, ops, buffers);
      PassSoFar(run[..n], ops[..n - 1], buffers, i);
      assert run[..n][n - 1] == run[n - 1] && run[..n][1] == b;
      PassGoesOn(b, RingOf(b.r, b.p.seqs[i]), run[n - 1], ops[n - 1], run[n], buffers, i);
    }
  }

  lemma PassPrefix(run: seq<Sys>, ops: seq<Op>, buffers: set<Buffer>)
    requires IsPass(run, ops, buffers) && 1 < |ops|
    ensures IsPass(run[..|ops|], ops[..|ops| - 1], buffers)
    ensures Step(run[|ops| - 1], ops[|ops| - 1], run[|ops|], buffers)
    ensures ops[|ops| - 1].Own? || ops[|ops| - 1].Fetch? || ops[|ops| - 1].Update?
  {
    hide Step;
  }

  /** A pass gone through. Where sequence s ends at p, its store takes a checkpoint at p just when p is 16 or
      more and the last one lies 1664 or more behind; otherwise it takes none. Nothing else in it changes. That
      is so for every sequence but one that shares a slot without checkpoints, in a cache where a copy has left
      some behind. */
  lemma PassTakes(run: seq<Sys>, ops: seq<Op>, buffers: set<Buffer>, s: int)
    requires IsPass(run, ops, buffers) && SysOk(run[0], buffers) && run[|ops|].r.todo == {} && s in run[1].p.seqs
    requires CleanFree(run[1].r) || !Shares(run[1].r, s)
    ensures var x, y := RingOf(run[1].r, s), RingOf(run[|ops|].r, s);
      var p, last := |Hist(run[|ops|].hist, s)| - 1, x.lastPos;
      if 16 <= p && (last < 0 || 1664 <= p - last) then Takes(x, y, p) else SameAs(x, y)
  {
    var i :| 0 <= i < |run[1].p.seqs| && run[1].p.seqs[i] == s;
    PassSoFar(run, ops, buffers, i);
    BeginPlans(run[0], ops[0].batch, run[1], buffers, i);
    assert buffers != {};
    hide Step, SysOk, RingOf, Takes, SameAs;
  }
}
