/** What the methods of the recurrent cache rely on: the effect of each step on the value of the
    cache, field by field, and what it means for the pass and for the KV histories. */
module RecurrentFacts {
  import opened Tokens
  import opened CacheModel
  import opened Forward
  import opened Rows
  import opened Checkpoints
  import opened Slots
  import opened RecurrentModel
  import opened Passes
  import opened Order
  import opened Causal

  /** A checkpoint noted for a rollback: its slot, its place in the slot's ring, its position. */
  datatype Restore = Restore(slot: int, idx: int, pos: int)

  lemma Begun(before: map<int, seq<Token>>, b: Batch, r: Rec, e: Rec, p: Pass, buffers: set<Buffer>)
    requires RecOk(r, buffers) && r.todo == {} && Continues(before, b)
    requires SeqsOf(b, p.seqs) && Placing(Given(r, p.seqs).table, p.seqs, p.slots) && !p.writable
    requires GrownFrom(Given(r, p.seqs).(capture := map[]), e, p.slots)
    requires p.tokens == PassTokens(before, Appended(before, b, |b.positions|), p.seqs)
    requires PlannedFor(r.rings, b, p.seqs, p.slots, p.planned)
    ensures RecOk(e.(todo := buffers), buffers) && Opening(before, b, r, e.(todo := buffers), p, buffers)
  {
    hide RecOk, Grown, ContinuesAt, Highest, PlanAt, PassTokens, Appended, Given;
    GivenKeeps(r, buffers, p.seqs, p.slots);
    BeginKeeps(Given(r, p.seqs), buffers, e.rings, p.slots);
  }

  lemma GivenNow(r: Rec, d: Rec, buffers: set<Buffer>, seqs: seq<int>, slots: seq<int>, taken: seq<int>)
    requires Taking(r, d, seqs, |seqs|, slots, taken) && RecOk(d, buffers) && d.todo == {}
    ensures Placing(d.table, seqs, slots) && SlotsWithin(taken, |d.slotHist|) && d.table == Given(r, seqs).table
    ensures forall b :: b in d.states ==> |d.states[b]| == |d.slotHist|
    ensures Zeroed(d, taken) == Given(r, seqs) && RecOk(Given(r, seqs), buffers)
    ensures taken == [] ==> d == Given(r, seqs)
  {
    RecParts(d, buffers);
    TakingGiven(r, d, buffers, seqs, slots, taken);
    NothingZeroed(d);
  }

  lemma EvenNow(b: Batch, seqs: seq<int>, c: int)
    requires SeqsOf(b, seqs) && forall j :: 0 <= j < |seqs| ==> Count(b.sequences, |b.sequences|, seqs[j]) == c
    ensures Even(b, c)
  {
    forall s | InBatch(b, |b.sequences|, s) ensures Count(b.sequences, |b.sequences|, s) == c {
      assert s in seqs;
    }
  }

  ghost predicate GrownFrom(r: Rec, d: Rec, slots: seq<int>) {
    d == r.(rings := d.rings) && Grown(r.rings, d.rings, slots)
  }

  lemma GrownNone(r: Rec, slots: seq<int>)
    ensures GrownFrom(r, r, slots)
  {
  }

  /** More of the sequences lack a slot than are free: those that are free have been handed out. */
  ghost predicate OutOfSlots(r: Rec, d: Rec, seqs: seq<int>) {
    && |r.table.free| < |Unmapped(r.table, seqs, |seqs|)|
    && |r.table.refCount| < |r.table.slotForSeq.Keys + (set s | s in seqs)|
    && d == r.(table := TakeAll(r.table, seqs, |seqs|))
  }

  /** What StartForward makes of a batch the KV cache has stored. A pass is set up; or, if the batch
      is uneven, nothing changes; or, if more of its sequences lack a slot than are free, those slots
      are handed out, state and all, and no pass is set up. */
  ghost predicate PassOutcome(status: Status, before: map<int, seq<Token>>, b: Batch, r: Rec, d: Rec, p: Pass, buffers: set<Buffer>) {
    SeqsOf(b, p.seqs) &&
    match status
    case Ok =>
      && (exists c :: Even(b, c)) && |Unmapped(r.table, p.seqs, |p.seqs|)| <= |r.table.free|
      && Opening(before, b, r, d, p, buffers)
    case Err(NotSupported) => !(exists c :: Even(b, c)) && d == r && p.tokens == map[]
    case Err(CacheFull) =>
      (exists c :: Even(b, c)) && OutOfSlots(r, d, p.seqs) && p.tokens == map[]
    case Err(_) => false
  }

  lemma TakingRunsOut(r: Rec, d: Rec, buffers: set<Buffer>, seqs: seq<int>, n: nat, slots: seq<int>, taken: seq<int>)
    requires Taking(r, d, seqs, n, slots, taken) && n < |seqs| && seqs[n] !in d.table.slotForSeq && Distinct(seqs)
    requires RecOk(r, buffers) && RecOk(d, buffers) && d.table.free == []
    ensures OutOfSlots(r, d, seqs)
  {
    hide RecOk, Taking;
    TakingFails(r, d, buffers, seqs, n, slots, taken);
    TakingShort(r, d, buffers, seqs, n, slots, taken);
  }

  /** A checkpoint's place made, in two steps. */
  lemma IndexedParts(r: Rec, k: int, pos: int)
    requires Capturable(WithRing(r, k), k)
    ensures k in WithRing(r, k).rings && |WithRing(r, k).rings[k].entries| > 0
    ensures var e := WithRing(r, k);
      Indexed(r, k, pos) == if k in r.capture then e
                            else e.(rings := e.rings[k := Recorded(e.rings[k], pos)], capture := e.capture[k := e.rings[k].next])
  {
  }

  lemma Outcome(status: Status, before: map<int, seq<Token>>, b: Batch, r: Rec, d: Rec, p: Pass, buffers: set<Buffer>, c: int)
    requires SeqsOf(b, p.seqs) && Even(b, c)
    requires if status.Ok? then |Unmapped(r.table, p.seqs, |p.seqs|)| <= |r.table.free| && Opening(before, b, r, d, p, buffers)
             else status == Err(CacheFull) && OutOfSlots(r, d, p.seqs) && p.tokens == map[]
    ensures PassOutcome(status, before, b, r, d, p, buffers)
  {
  }

  lemma GivenRings(r: Rec, seqs: seq<int>)
    ensures Given(r, seqs).rings == r.rings
  {
  }

  lemma OutcomeKeeps(status: Status, before: map<int, seq<Token>>, b: Batch, r: Rec, p: Pass, d: Rec, q: Pass, buffers: set<Buffer>)
    requires RecOk(r, buffers) && r.todo == {} && p.tokens == map[] && Continues(before, b) && Int32Positions(b)
    requires PassOutcome(status, before, b, r, d, q, buffers)
    ensures PassInv(d, q, buffers) && SyncOk(Appended(before, b, |b.positions|), d, q)
    ensures status.Ok? ==> SameStates(d, r)
  {
    hide Opening, RecOk, Appended, ContinuesAt;
    if status.Ok? {
      hide PassInv, SyncOk;
      OpeningKeeps(before, b, r, p, d, q, buffers);
    }
  }

  lemma OutcomeSeqs(status: Status, before: map<int, seq<Token>>, b: Batch, r: Rec, d: Rec, p: Pass, buffers: set<Buffer>)
    requires PassOutcome(status, before, b, r, d, p, buffers)
    ensures SeqsOf(b, p.seqs) && (status.Err? ==> d.todo == r.todo)
  {
    hide Opening;
  }

  lemma SoleNone(r: Rec, p: Pass)
    ensures SoleBelow(r, p, 0) && SameStates(r, r)
  {
  }

  lemma AllBelow(r: Rec, p: Pass, buffers: set<Buffer>)
    requires PassInv(r, p, buffers) && r.todo != {} && SoleBelow(r, p, |p.seqs|)
    ensures AllSole(r, p.slots)
  {
  }

  lemma NotWritable(r: Rec, p: Pass, buffers: set<Buffer>)
    requires PassInv(r, p, buffers) && r.todo != {} && !p.writable
    ensures r.todo == buffers && r.capture == map[] && r.target == r.slotHist && |p.slots| == |p.seqs|
  {
  }

  lemma MayWrite(hist: map<int, seq<Token>>, r: Rec, p: Pass, buffers: set<Buffer>) returns (d: Rec)
    requires RecOk(r, buffers) && r.todo == buffers && PassInv(r, p, buffers) && !p.writable && AllSole(r, p.slots)
    requires SyncOk(hist, r, p)
    ensures d == r.(target := d.target, tainted := d.tainted) && SameStates(d, r) && IsOpened(hist, r, p, d)
    ensures RecOk(d, buffers) && PassInv(d, p.(writable := true), buffers) && SyncOk(hist, d, p.(writable := true))
  {
    OpenedKeeps(hist, r, p, buffers);
    NotWritable(r, p, buffers);
    hide RecOk, SyncOk;
    assert |p.seqs| == |p.slots| && r.todo != {};
    OpenedSync(hist, r, p);
    d := Opened(hist, r, p);
    hide PassInv, Targets;
  }

  /** d is r with the pass p let loose on its slots. */
  ghost predicate IsOpened(hist: map<int, seq<Token>>, r: Rec, p: Pass, d: Rec) {
    && |p.seqs| == |p.slots| && (forall i :: 0 <= i < |p.seqs| ==> 0 <= p.slots[i] < |r.slotHist| && p.seqs[i] in p.tokens)
    && d == Opened(hist, r, p)
  }

  /** d and q are what r and p become when the slots of the pass are made private and it may write. */
  ghost predicate MadePrivate(hist: map<int, seq<Token>>, r: Rec, p: Pass, d: Rec, q: Pass) {
    var own := OwningAll(r, p.seqs, |p.seqs|);
    var p' := p.(slots := SlotsFor(own.table, p.seqs));
    AllSole(own, p'.slots) && IsOpened(hist, own, p', d) && q == p'.(writable := true)
  }

  /** A pass given up asks for nothing more. */
  lemma Abandoned(hist: map<int, seq<Token>>, r: Rec, p: Pass, buffers: set<Buffer>)
    requires r.todo == {} && p.tokens == map[]
    ensures PassInv(r, p, buffers) && SyncOk(hist, r, p)
  {
  }

  lemma IdleSync(hist: map<int, seq<Token>>, r: Rec, p: Pass)
    requires r.todo == {}
    ensures SyncOk(hist, r, p)
  {
  }

  lemma ReleasedStates(r: Rec, buffers: set<Buffer>, s: int, d: Rec, p: Pass)
    requires RecOk(r, buffers) && r.todo == {} && IsReleased(r, s, d) && PassInv(r, p, buffers)
    ensures d.todo == {} && PassInv(d, p, buffers)
    ensures forall q :: Folded(d, q) == if q == s then [] else Folded(r, q)
  {
    if s in r.table.slotForSeq {
      ReleasedKeeps(r, buffers, s, true);
    }
  }

  lemma SameStatesNow(r: Rec)
    ensures SameStates(r, r)
  {
  }

  lemma ViewRows<T>(buf: seq<T>, slots: seq<int>, src: seq<T>, start: int)
    requires SlotsWithin(slots, |buf|) && |src| == |slots| > 0 && forall i :: 0 <= i < |slots| ==> slots[i] == start + i
    ensures start + |src| <= |buf| && 0 <= start
    ensures buf[..start] + src + buf[start + |src|..] == SetRows(buf, slots, src, |slots|)
  {
    assert slots[0] == start + 0 && slots[|slots| - 1] == start + |src| - 1;
    ViewIs(buf, slots, src, start);
  }

  lemma ViewIs<T>(buf: seq<T>, slots: seq<int>, src: seq<T>, start: int)
    requires SlotsWithin(slots, |buf|) && |src| == |slots| && forall i :: 0 <= i < |slots| ==> slots[i] == start + i
    requires 0 <= start && start + |src| <= |buf|
    ensures buf[..start] + src + buf[start + |src|..] == SetRows(buf, slots, src, |slots|)
  {
    hide *;
    var view, rows := buf[..start] + src + buf[start + |src|..], SetRows(buf, slots, src, |slots|);
    forall k | 0 <= k < |buf| ensures view[k] == rows[k] {
      ViewRow(buf, slots, src, start, k);
      ViewAt(buf, src, start, k);
    }
  }

  lemma ViewAt<T>(buf: seq<T>, src: seq<T>, start: int, k: int)
    requires 0 <= start && start + |src| <= |buf| && 0 <= k < |buf|
    ensures (buf[..start] + src + buf[start + |src|..])[k] == if start <= k < start + |src| then src[k - start] else buf[k]
  {
  }

  lemma ViewRow<T>(buf: seq<T>, slots: seq<int>, src: seq<T>, start: int, k: int)
    requires SlotsWithin(slots, |buf|) && |src| == |slots| && forall i :: 0 <= i < |slots| ==> slots[i] == start + i
    requires 0 <= k < |buf| && 0 <= start && start + |src| <= |buf|
    ensures SetRows(buf, slots, src, |slots|)[k] == if start <= k < start + |src| then src[k - start] else buf[k]
  {
    hide SetRows;
    SetRowsAt(buf, slots, src, |slots|, k);
    if start <= k < start + |src| {
      assert slots[k - start] == k;
    }
  }

  /** The first half of a capture: slot k has its place, made if need be. */
  function Indexed(r: Rec, k: int, pos: int): (d: Rec)
    requires Capturable(WithRing(r, k), k)
    ensures k in d.rings && k in d.capture && 0 <= d.capture[k] < |d.rings[k].entries|
  {
    var e := WithRing(r, k);
    if k in r.capture then e
    else e.(rings := e.rings[k := Recorded(e.rings[k], pos)], capture := e.capture[k := e.rings[k].next])
  }

  /** The second half: the row is put there. */
  function Saved(r: Rec, k: int, b: Buffer, row: State): Rec
    requires k in r.rings && k in r.capture && 0 <= r.capture[k] < |r.rings[k].entries|
  {
    var idx, ring := r.capture[k], r.rings[k];
    r.(rings := r.rings[k := ring.(entries := ring.entries[idx := ring.entries[idx].(saved := ring.entries[idx].saved[b := row])])])
  }

  lemma CapturedIs(r: Rec, k: int, pos: int, b: Buffer, row: State)
    requires Capturable(WithRing(r, k), k)
    ensures Captured(r, k, pos, b, row) == Saved(Indexed(r, k, pos), k, b, row)
  {
    if k in r.capture {
      assert r.capture[k := r.capture[k]] == r.capture;
    }
  }

  lemma CapturedCommutes(c: Rec, k: int, pos: int, b: Buffer, row: State, states: map<Buffer, seq<State>>)
    ensures Captured(c.(states := states), k, pos, b, row) == Captured(c, k, pos, b, row).(states := states)
    ensures WithRing(c.(states := states), k) == WithRing(c, k).(states := states)
    ensures Capturable(WithRing(c, k), k) ==> Capturable(WithRing(c.(states := states), k), k)
  {
  }

  /** The row to be written for sequence i is its state with the tokens of the pass folded in. */
  ghost predicate Folding(r: Rec, p: Pass, i: int, row: State) {
    0 <= i < |p.seqs| && p.seqs[i] in p.tokens && row == Folded(r, p.seqs[i]) + p.tokens[p.seqs[i]]
  }

  /** d is what an update makes of r. */
  ghost predicate IsUpdated(r: Rec, p: Pass, b: Buffer, rows: seq<State>, d: Rec) {
    && |rows| == |p.slots| == |p.planned| && SlotsWithin(p.slots, |r.slotHist|)
    && (b in r.states ==> |r.states[b]| == |r.slotHist|) && d == Updated(r, p, b, rows)
  }

  lemma UpdateFacts(hist: map<int, seq<Token>>, r: Rec, p: Pass, buffers: set<Buffer>, b: Buffer, rows: seq<State>)
    returns (d: Rec)
    requires RecOk(r, buffers) && PassInv(r, p, buffers) && p.writable && b in r.todo && SyncOk(hist, r, p)
    requires |rows| == |p.seqs| && forall i :: 0 <= i < |p.seqs| ==> Folding(r, p, i, rows[i])
    ensures b in buffers && |p.slots| == |p.planned| == |p.seqs| && SlotsWithin(p.slots, |r.slotHist|)
    ensures b in r.states ==> |r.states[b]| == |r.slotHist|
    ensures RowsFor(r, p, rows) && forall i :: 0 <= i < |p.slots| ==> PlanFits(r, p, i)
    ensures IsUpdated(r, p, b, rows, d) && RecOk(d, buffers) && PassInv(d, After(d, p), buffers) && SyncOk(hist, d, After(d, p))
    ensures var c := CaptureAll(r, p, b, rows, |rows|).(states := Written(r, b, p.slots, rows).states);
      d == c.(slotHist := d.slotHist, todo := d.todo)
  {
    RecParts(r, buffers);
    forall i | 0 <= i < |p.slots| ensures rows[i] == r.target[p.slots[i]] {
      assert InPass(r, p, i) && Private(r, p, i) && Folding(r, p, i, rows[i]);
    }
    PlansFit(hist, r, p, buffers);
    UpdatedKeeps(hist, r, p, buffers, b, rows);
    UpdatedPass(hist, r, p, buffers, b, rows);
    UpdatedSync(hist, r, p, buffers, b, rows);
    hide RecOk, PassInv, SyncOk, CaptureAll;
    d := Updated(r, p, b, rows);
  }

  function Product(dims: seq<int>, n: nat): int
    requires n <= |dims|
  {
    if n == 0 then 1 else Product(dims, n - 1) * dims[n - 1]
  }

  /** With three dimensions, what RecurrentState4D multiplies. */
  lemma ProductOfThree(a: int, b: int, c: int)
    ensures Product([a, b, c], 3) == a * b * c
  {
    assert Product([a, b, c], 1) == a && Product([a, b, c], 2) == a * b;
  }

  /** What sequence i of the pass reads in buffer b. */
  ghost predicate RowRead(r: Rec, p: Pass, i: int, b: Buffer, row: State) {
    && 0 <= i < |p.seqs| && p.seqs[i] in p.tokens
    && row == Folded(r, p.seqs[i]) + if b in r.todo then [] else p.tokens[p.seqs[i]]
  }

  ghost predicate RowsRead(r: Rec, p: Pass, b: Buffer, rows: seq<State>) {
    |rows| == |p.seqs| && forall i :: 0 <= i < |p.seqs| ==> RowRead(r, p, i, b, rows[i])
  }

  // ---------- rows by batch entry ----------

  /** What entry j of the batch reads in buffer c: the row of its sequence stands at the number of
      sequences that appear before it in the batch. */
  ghost predicate EntryRead(b: Batch, r: Rec, p: Pass, c: Buffer, rows: seq<State>, j: int)
    requires 0 <= j < |b.sequences|
  {
    var s, i := b.sequences[j], Rank(b.sequences, b.sequences[j]);
    i < |rows| && s in p.tokens && rows[i] == Folded(r, s) + if c in r.todo then [] else p.tokens[s]
  }

  /** One row for each sequence of the batch, and each entry reads its own. */
  ghost predicate BatchRead(b: Batch, r: Rec, p: Pass, c: Buffer, rows: seq<State>) {
    |rows| == |set s | s in b.sequences| && forall j :: 0 <= j < |b.sequences| ==> EntryRead(b, r, p, c, rows, j)
  }

  /** The row written for entry j is the state of its sequence with the tokens of the pass folded in. */
  ghost predicate EntryFolds(b: Batch, r: Rec, p: Pass, rows: seq<State>, j: int)
    requires 0 <= j < |b.sequences|
  {
    var s, i := b.sequences[j], Rank(b.sequences, b.sequences[j]);
    i < |rows| && s in p.tokens && rows[i] == Folded(r, s) + p.tokens[s]
  }

  ghost predicate BatchFolds(b: Batch, r: Rec, p: Pass, rows: seq<State>) {
    |rows| == |set s | s in b.sequences| && forall j :: 0 <= j < |b.sequences| ==> EntryFolds(b, r, p, rows, j)
  }

  lemma BatchSize(b: Batch, seqs: seq<int>)
    requires SeqsOf(b, seqs)
    ensures |set s | s in b.sequences| == |seqs|
  {
    hide InOrder;
    forall s ensures s in seqs <==> s in b.sequences {
      assert s in seqs <==> InBatch(b, |b.sequences|, s);
    }
    assert (set s | s in b.sequences) == (set s | s in seqs);
    DistinctSize(seqs);
  }

  lemma ReadByEntry(b: Batch, r: Rec, p: Pass, c: Buffer, rows: seq<State>)
    requires SeqsOf(b, p.seqs) && RowsRead(r, p, c, rows)
    ensures BatchRead(b, r, p, c, rows)
  {
    BatchSize(b, p.seqs);
    hide SeqsOf, Folded, Rank;
    forall j | 0 <= j < |b.sequences| ensures EntryRead(b, r, p, c, rows, j) {
      EntryRow(b, p.seqs, j);
      assert RowRead(r, p, Rank(b.sequences, b.sequences[j]), c, rows[Rank(b.sequences, b.sequences[j])]);
    }
  }

  lemma FoldedByEntry(b: Batch, r: Rec, p: Pass, rows: seq<State>)
    requires SeqsOf(b, p.seqs) && BatchFolds(b, r, p, rows)
    ensures |rows| == |p.seqs| && forall i :: 0 <= i < |p.seqs| ==> Folding(r, p, i, rows[i])
  {
    BatchSize(b, p.seqs);
    hide Folded, Rank, InOrder;
    forall i | 0 <= i < |p.seqs| ensures Folding(r, p, i, rows[i]) {
      assert p.seqs[i] in p.seqs;
      var j :| 0 <= j < |b.sequences| && b.sequences[j] == p.seqs[i];
      RowIsRank(b, p.seqs, i);
      assert EntryFolds(b, r, p, rows, j);
    }
  }

  lemma ReadFacts(hist: map<int, seq<Token>>, r: Rec, p: Pass, buffers: set<Buffer>, b: Buffer)
    requires RecOk(r, buffers) && PassInv(r, p, buffers) && p.writable && r.todo != {} && SyncOk(hist, r, p) && b in buffers
    ensures var d := r.(states := Created(r.states, b, |r.slotHist|));
      && RecOk(d, buffers) && PassInv(d, p, buffers) && SyncOk(hist, d, p) && SameStates(d, r)
      && |p.slots| == |p.seqs| && b in d.states && SlotsWithin(p.slots, |d.states[b]|)
      && forall i :: 0 <= i < |p.seqs| ==> p.slots[i] in p.slots && RowRead(d, p, i, b, d.states[b][p.slots[i]])
  {
    var d := r.(states := Created(r.states, b, |r.slotHist|));
    CreatedKeeps(r, buffers, b);
    RecParts(d, buffers);
    hide RecOk, TableOk, SyncOk, TargetFor, SlotsWithin, Planned;
    ReadPass(r, d, p, buffers);
    forall i | 0 <= i < |p.seqs|
      ensures p.slots[i] in p.slots && RowRead(d, p, i, b, d.states[b][p.slots[i]])
    {
      ReadRow(r, d, p, buffers, i, b);
    }
    hide PassInv, RowsHeld;
    ReadSync(hist, r, d, p);
  }

  lemma ReadRow(r: Rec, d: Rec, p: Pass, buffers: set<Buffer>, i: nat, b: Buffer)
    requires PassInv(r, p, buffers) && p.writable && r.todo != {} && RowsHeld(d, buffers) && b in buffers && b in d.states
    requires d == r.(states := d.states) && i < |p.seqs|
    ensures |p.slots| == |p.seqs| && p.slots[i] in p.slots && 0 <= p.slots[i] < |d.states[b]|
    ensures RowRead(d, p, i, b, d.states[b][p.slots[i]])
  {
    assert InPass(r, p, i) && Private(r, p, i) && RowHeld(d, b, p.slots[i]);
  }

  lemma ReadPass(r: Rec, d: Rec, p: Pass, buffers: set<Buffer>)
    requires PassInv(r, p, buffers) && p.writable && r.todo != {} && d == r.(states := d.states)
    ensures PassInv(d, p, buffers) && |p.slots| == |p.seqs| && SlotsWithin(p.slots, |r.slotHist|)
  {
    forall i | 0 <= i < |p.seqs| ensures InPass(d, p, i) && Private(d, p, i) {
      assert InPass(r, p, i) && Private(r, p, i);
    }
  }

  lemma ReadSync(hist: map<int, seq<Token>>, r: Rec, d: Rec, p: Pass)
    requires SyncOk(hist, r, p) && d == r.(states := d.states)
    ensures SyncOk(hist, d, p)
  {
    forall s | InStep(hist, r, p, s) ensures InStep(hist, d, p, s) {}
  }

  lemma TakenFacts(r: Rec, s: int) returns (d: Rec)
    requires TableOk(r.table)
    ensures r.table.free != [] ==>
              var t, k := r.table, r.table.free[|r.table.free| - 1];
              && 0 <= k < |t.refCount| && d == Taken(r, s)
              && d.table == Table(t.slotForSeq[s := k], t.refCount[k := 1], t.free[..|t.free| - 1])
              && d.states == r.states && d.capture == r.capture
  {
    d := r;
    if r.table.free != [] {
      PopFree(r.table);
      d := Taken(r, s);
    }
  }

  lemma ReleaseFacts(r: Rec, buffers: set<Buffer>, s: int, clear: bool) returns (d: Rec)
    requires RecOk(r, buffers) && r.todo == {} && s in r.table.slotForSeq
    ensures 0 <= r.table.slotForSeq[s] < |r.table.refCount| && 1 <= r.table.refCount[r.table.slotForSeq[s]]
    ensures d == Released(r, s, clear) && RecOk(d, buffers)
    ensures var t, k := r.table, r.table.slotForSeq[s];
      && d.table.slotForSeq == t.slotForSeq - {s} && d.table.refCount == t.refCount[k := t.refCount[k] - 1]
      && d.table.free == (if t.refCount[k] <= 1 then t.free + [k] else t.free)
      && d.states == r.states && d.capture == r.capture
      && d.rings == if clear && t.refCount[k] <= 1 && k in r.rings then r.rings[k := ResetRing(r.rings[k])] else r.rings
  {
    RecParts(r, buffers);
    ReleaseKeeps(r.table, s);
    ReleasedKeeps(r, buffers, s, clear);
    hide RecOk;
    d := Released(r, s, clear);
  }

  lemma CopyFacts(r: Rec, buffers: set<Buffer>, src: int, dst: int)
    requires RecOk(r, buffers) && r.todo == {} && src != dst
    ensures RecOk(Copied(r, src, dst), buffers)
    ensures var d := if dst in r.table.slotForSeq then Released(r, dst, false) else r;
      && (forall q :: q in d.table.slotForSeq ==> 0 <= d.table.slotForSeq[q] < |d.table.refCount| == |r.table.refCount|)
      && (src in d.table.slotForSeq <==> src in r.table.slotForSeq)
      && Copied(r, src, dst) == if src in d.table.slotForSeq then Shared(d, src, dst) else d
  {
    CopiedKeeps(r, buffers, src, dst);
    RecParts(r, buffers);
    if dst in r.table.slotForSeq {
      ReleasedKeeps(r, buffers, dst, false);
      RecParts(Released(r, dst, false), buffers);
    }
  }

  lemma IdleCopy(r: Rec, p: Pass, buffers: set<Buffer>, src: int, dst: int)
    requires r.todo == {} && PassInv(r, p, buffers)
    ensures Copied(r, src, dst).todo == {} && PassInv(Copied(r, src, dst), p, buffers)
  {
  }

  /** x names a live checkpoint of s. */
  ghost predicate RestoreFresh(r: Rec, s: int, x: Restore) {
    && s in r.table.slotForSeq && x.slot == r.table.slotForSeq[s] && x.slot in r.rings
    && 0 <= x.idx < |r.rings[x.slot].entries| && 0 <= x.pos == r.rings[x.slot].entries[x.idx].pos
  }

  /** x names the best checkpoint of s below target. */
  ghost predicate BestRestore(r: Rec, s: int, target: int, x: Restore) {
    RestoreFresh(r, s, x) && IsBest(r.rings[x.slot].entries, target, x.idx)
  }

  /** d is r with a checkpoint restored. */
  ghost predicate IsRestored(r: Rec, buffers: set<Buffer>, x: Restore, d: Rec) {
    && x.slot in r.rings && 0 <= x.idx < |r.rings[x.slot].entries| && 0 <= x.slot < |r.slotHist| == |r.target|
    && EntryAny(r.rings[x.slot].entries[x.idx], buffers) && x.slot in d.rings
    && d.rings[x.slot].entries == PruneEntries(r.rings[x.slot].entries, x.pos) && Rebuilt(d.rings[x.slot], x.pos)
    && d == Restored(r, buffers, x.slot, x.idx, d.rings[x.slot])
  }

  lemma RestoreFacts(r: Rec, buffers: set<Buffer>, x: Restore)
    requires RecOk(r, buffers) && r.todo == {} && x.slot in r.rings && 0 <= x.idx < |r.rings[x.slot].entries|
    requires Live(r.rings[x.slot].entries[x.idx])
    ensures 0 <= x.slot < |r.table.refCount| == |r.slotHist| == |r.target| && EntryAny(r.rings[x.slot].entries[x.idx], buffers)
    ensures r.states.Keys <= r.rings[x.slot].entries[x.idx].saved.Keys
    ensures forall b :: b in r.states ==> |r.states[b]| == |r.table.refCount|
    ensures RingShape(r.rings[x.slot]) && r.rings[x.slot].entries != [] && r.rings[x.slot].entries[x.idx].pos < MAX_INT32
  {
    RingInRange(r, buffers, x.slot);
    assert EntryClaim(r, x.slot, x.idx, buffers);
  }

  lemma BecomeRestored(r: Rec, buffers: set<Buffer>, x: Restore, ring: Ring) returns (d: Rec)
    requires RecOk(r, buffers) && r.todo == {} && x.slot in r.rings && 0 <= x.idx < |r.rings[x.slot].entries|
    requires Live(r.rings[x.slot].entries[x.idx]) && x.pos == r.rings[x.slot].entries[x.idx].pos
    requires ring.entries == PruneEntries(r.rings[x.slot].entries, x.pos) && Rebuilt(ring, x.pos)
    ensures RecOk(d, buffers) && IsRestored(r, buffers, x, d) && d.table == r.table && d.capture == r.capture
    ensures d.rings == r.rings[x.slot := ring]
    ensures d.states == RestoreRows(r.states, |r.table.refCount|, x.slot, r.rings[x.slot].entries[x.idx].saved)
  {
    RestoreFacts(r, buffers, x);
    RestoredKeeps(r, buffers, x.slot, x.idx, ring);
    hide RecOk, RestoreRows, Rebuilt, PruneEntries;
    d := Restored(r, buffers, x.slot, x.idx, ring);
  }

  /** The checkpoints of a slot have been shifted, which taints it; nothing else changes. */
  ghost predicate IsShifted(r: Rec, k: int, begin: int, end: int, d: Rec) {
    && d == r.(rings := d.rings, tainted := r.tainted + {k}) && d.rings.Keys == r.rings.Keys
    && (forall j :: j in r.rings && j != k ==> d.rings[j] == r.rings[j])
    && (k in r.rings ==>
          && d.rings[k].entries == ShiftEntries(r.rings[k].entries, begin, end) && Rebuilt(d.rings[k], d.rings[k].lastPos)
          && IsGreatest(d.rings[k].entries, |d.rings[k].entries|, d.rings[k].lastPos))
  }

  lemma ShiftedOk(r: Rec, buffers: set<Buffer>, k: int, begin: int, end: int, d: Rec)
    requires RecOk(r, buffers) && r.todo == {} && 0 <= begin <= end && IsShifted(r, k, begin, end, d)
    ensures RecOk(d, buffers)
  {
    var ring := if k in r.rings then d.rings[k] else FreshRing(0);
    assert d == ShiftedRing(r, k, ring) by {
      hide RecOk, ShiftEntries, Rebuilt, IsGreatest;
      assert forall j :: j in r.rings ==> d.rings[j] == ShiftedRing(r, k, ring).rings[j];
      assert d.rings == ShiftedRing(r, k, ring).rings;
    }
    hide RecOk, ShiftEntries, Rebuilt, IsGreatest;
    ShiftedKeeps(r, buffers, k, ring, begin, end);
  }

  lemma ShiftedFields(r: Rec, k: int, begin: int, end: int, d: Rec)
    requires IsShifted(r, k, begin, end, d)
    ensures d.table == r.table && d.states == r.states && d.capture == r.capture && d.todo == r.todo
  {
  }

  lemma RingSizes(r: Rec, buffers: set<Buffer>, k: int)
    requires RecOk(r, buffers) && k in r.rings
    ensures RingShape(r.rings[k]) && |r.rings[k].entries| == CHECKPOINT_COUNT
  {
    RingInRange(r, buffers, k);
  }

  /** s, if it had a slot, has given it up, checkpoints and all. */
  ghost predicate IsReleased(r: Rec, s: int, d: Rec) {
    if s in r.table.slotForSeq then 0 <= r.table.slotForSeq[s] < |r.table.refCount| && d == Released(r, s, true) else d == r
  }

  /** s has its slot to itself in d, the state and the checkpoint x of r having come along. */
  ghost predicate Owned(r: Rec, s: int, x: Restore, d: Rec, x': Restore) {
    && d == Owning(r, s) && RestoreFresh(r, s, x) && RestoreFresh(d, s, x') && x'.idx == x.idx && x'.pos == x.pos && SameStates(d, r)
    && 0 <= x'.slot < |d.table.refCount| && d.table.refCount[x'.slot] == 1 && d.todo == r.todo
    && (x'.slot in d.tainted <==> x.slot in r.tainted)
  }

  /** d is r with s, on a slot of its own, back at the checkpoint x. */
  ghost predicate IsRolledBack(r: Rec, s: int, x: Restore, buffers: set<Buffer>, d: Rec) {
    var own := Owning(r, s);
    && s in own.table.slotForSeq && 0 <= own.table.slotForSeq[s] < |own.table.refCount|
    && own.table.refCount[own.table.slotForSeq[s]] == 1 && IsRestored(own, buffers, x.(slot := own.table.slotForSeq[s]), d)
  }

  /** s has gone back to its first kept tokens, state included when the checkpoint was one of its
      own; nobody else has changed. */
  ghost predicate RolledBack(hist: map<int, seq<Token>>, r: Rec, s: int, kept: int, d: Rec) {
    && s in r.table.slotForSeq && (forall q :: q != s ==> Folded(d, q) == Folded(r, q))
    && (r.table.slotForSeq[s] !in r.tainted ==> 0 < kept <= |Folded(r, s)| && Folded(d, s) == Folded(r, s)[..kept])
    && (r.table.slotForSeq[s] !in r.tainted && Hist(hist, s) <= Folded(r, s) && kept <= |Hist(hist, s)| ==>
          Folded(d, s) == Hist(hist, s)[..kept])
  }

  /** A rollback is refused without a pending checkpoint at the place, and otherwise goes through
      unless there are more sequences than slots. */
  ghost predicate TailOutcome(status: Status, maxSequences: nat, pending: bool, d: Rec) {
    match status
    case Ok => pending
    case Err(NotSupported) => !pending
    case Err(e) => pending && e == CacheFull && maxSequences < |d.table.slotForSeq|
  }

  lemma OwnedPos(r: Rec, s: int, x: Restore, d: Rec, x': Restore)
    requires Owned(r, s, x, d, x')
    ensures x'.pos == x.pos
  {
  }

  lemma OwnFacts(r: Rec, buffers: set<Buffer>, s: int, x: Restore)
    requires RecOk(r, buffers) && r.todo == {} && RestoreFresh(r, s, x)
    ensures 0 <= x.slot < |r.table.refCount| && 1 <= r.table.refCount[x.slot]
    ensures r.table.refCount[x.slot] <= 1 ==> Owned(r, s, x, r, x)
    ensures 1 < r.table.refCount[x.slot] ==> Shares(r, s)
  {
    RecParts(r, buffers);
    assert s in Users(r.table.slotForSeq, x.slot);
  }

  lemma DetachedOwns(r: Rec, buffers: set<Buffer>, s: int, x: Restore, d: Rec)
    requires RecOk(r, buffers) && r.todo == {} && RestoreFresh(r, s, x) && IsDetached(r, s, d)
    requires 0 <= x.slot < |r.table.refCount| && 1 < r.table.refCount[x.slot]
    ensures d == Owning(r, s)
    ensures Owned(r, s, x, d, x.(slot := r.table.free[|r.table.free| - 1]))
  {
    DetachedKeeps(r, buffers, s);
    RingInRange(r, buffers, x.slot);
    LiveBound(r.rings[x.slot].entries, |r.rings[x.slot].entries|);
    assert Copies(r.rings, x.slot);
    DetachKeeps(r.table, s);
    hide RecOk, RingClaim, TableOk, CopyRow;
  }

  lemma OwnedFresh(r: Rec, s: int, x: Restore, d: Rec, x': Restore)
    requires Owned(r, s, x, d, x')
    ensures RestoreFresh(d, s, x') && x'.pos == x.pos && s in d.table.slotForSeq
    ensures 0 <= x'.slot < |d.table.refCount| && d.table.refCount[x'.slot] == 1 && d.todo == r.todo && d.table.slotForSeq[s] == x'.slot
    ensures x'.slot in d.rings && 0 <= x'.idx < |d.rings[x'.slot].entries| && Live(d.rings[x'.slot].entries[x'.idx])
    ensures d.rings[x'.slot].entries[x'.idx].pos == x.pos && s in d.table.slotForSeq
  {
  }

  lemma FreshComplete(r: Rec, buffers: set<Buffer>, s: int, x: Restore)
    requires RecOk(r, buffers) && r.todo == {} && RestoreFresh(r, s, x)
    ensures x.slot in r.rings && 0 <= x.idx < |r.rings[x.slot].entries| && Live(r.rings[x.slot].entries[x.idx])
    ensures r.states.Keys <= r.rings[x.slot].entries[x.idx].saved.Keys
  {
    RestoreFacts(r, buffers, x);
  }

  lemma OwnedIdle(r: Rec, d: Rec, p: Pass, buffers: set<Buffer>, s: int, x: Restore, x': Restore)
    requires Owned(r, s, x, d, x') && r.todo == {} && PassInv(r, p, buffers)
    ensures d.todo == {} && PassInv(d, p, buffers)
  {
  }

  lemma RollBackFacts(hist: map<int, seq<Token>>, r: Rec, d: Rec, e: Rec, p: Pass, buffers: set<Buffer>, s: int, x: Restore, x': Restore)
    requires Owned(r, s, x, d, x') && r.todo == {} && RecOk(d, buffers)
    requires PassInv(d, p, buffers) && IsRestored(d, buffers, x', e) && RecOk(r, buffers)
    ensures e.todo == {} && PassInv(e, p, buffers) && RolledBack(hist, r, s, x.pos + 1, e) && IsRolledBack(r, s, x, buffers, e)
  {
    OwnedClaim(r, buffers, s, x);
    OwnedFresh(r, s, x, d, x');
    RestoredFolds(d, e, buffers, s, x');
    OwnedOthers(r, d, e, buffers, s, x, x');
    assert x' == x.(slot := d.table.slotForSeq[s]);
    hide RecOk, IsRestored, Folded, Owning;
    assert Folded(d, s) == Folded(r, s);
  }

  lemma OwnedOthers(r: Rec, d: Rec, e: Rec, buffers: set<Buffer>, s: int, x: Restore, x': Restore)
    requires Owned(r, s, x, d, x') && RecOk(d, buffers) && IsRestored(d, buffers, x', e)
    ensures (forall q :: q != s ==> Folded(e, q) == Folded(r, q)) && d == Owning(r, s) && SameStates(d, r)
  {
    RecParts(d, buffers);
    RestoredOthers(d, e, s);
    hide RecOk, Folded;
  }

  lemma RestoredFolds(d: Rec, e: Rec, buffers: set<Buffer>, s: int, x: Restore)
    requires RecOk(d, buffers) && d.todo == {} && RestoreFresh(d, s, x) && IsRestored(d, buffers, x, e)
    ensures e.table == d.table && e.todo == {}
    ensures x.slot !in d.tainted ==> x.pos < |Folded(d, s)| && Folded(e, s) == Folded(d, s)[..x.pos + 1]
  {
    RestoredKeeps(d, buffers, x.slot, x.idx, e.rings[x.slot]);
    OwnedClaim(d, buffers, s, x);
    hide RecOk, Rebuilt, PruneEntries, EntryAny, RestoreRows;
  }

  lemma OwnedClaim(r: Rec, buffers: set<Buffer>, s: int, x: Restore)
    requires RecOk(r, buffers) && r.todo == {} && RestoreFresh(r, s, x)
    ensures x.slot !in r.tainted ==> x.pos < |Folded(r, s)|
  {
    RingInRange(r, buffers, x.slot);
    assert EntryClaim(r, x.slot, x.idx, buffers);
  }

  lemma SlotFacts(r: Rec, buffers: set<Buffer>, s: int)
    requires RecOk(r, buffers) && s in r.table.slotForSeq
    ensures 0 <= r.table.slotForSeq[s] < |r.table.refCount| && 1 <= r.table.refCount[r.table.slotForSeq[s]]
  {
    RecParts(r, buffers);
    assert s in Users(r.table.slotForSeq, r.table.slotForSeq[s]);
  }

  lemma DetachedSole(r: Rec, buffers: set<Buffer>, s: int, d: Rec)
    requires RecOk(r, buffers) && r.todo == {} && IsDetached(r, s, d)
    requires 0 <= r.table.slotForSeq[s] < |r.table.refCount| && 1 < r.table.refCount[r.table.slotForSeq[s]]
    ensures var k := r.table.free[|r.table.free| - 1];
      s in d.table.slotForSeq && d.table.slotForSeq[s] == k && 0 <= k < |d.table.refCount| && d.table.refCount[k] == 1
    ensures d.todo == {} && SameStates(d, r)
  {
    DetachedKeeps(r, buffers, s);
    PopFree(r.table);
    hide RecOk, CopyRow, CopyRing;
  }

  lemma ShiftedStates(r: Rec, k: int, begin: int, end: int, d: Rec)
    requires IsShifted(r, k, begin, end, d)
    ensures SameStates(d, r) && d.table == r.table && k in d.tainted && d.todo == r.todo
  {
  }

  lemma StillIdle(r: Rec, d: Rec, p: Pass, buffers: set<Buffer>)
    requires r.todo == d.todo == {} && PassInv(r, p, buffers)
    ensures PassInv(d, p, buffers)
  {
  }

  /** n - 1, n - 2, ...: the first k of them. */
  function Countdown(n: nat, k: nat): seq<int> {
    seq(k, i => n - 1 - i)
  }

  function Zeros(n: nat): (z: seq<int>)
    ensures |z| == n
  {
    seq(n, _ => 0)
  }

  function NoState(n: nat): seq<State> {
    seq(n, _ => [])
  }

  function EmptyTable(n: nat): Table {
    Table(map[], Zeros(n), Countdown(n, n))
  }

  /** Nothing mapped, everything free, no checkpoint, no state. */
  function EmptyRec(n: nat): Rec {
    Rec(EmptyTable(n), map[], map[], NoState(n), NoState(n), {}, map[], {})
  }

  lemma EmptyOk(r: Rec, p: Pass, buffers: set<Buffer>, n: nat)
    requires r == EmptyRec(n) && buffers != {} && p.tokens == map[]
    ensures RecOk(r, buffers) && PassInv(r, p, buffers) && SyncOk(map[], r, p)
  {
    forall k | 0 <= k < n ensures r.table.refCount[k] == |Users(r.table.slotForSeq, k)| {
      assert Users(r.table.slotForSeq, k) == {};
    }
    forall k ensures k in r.table.free <==> 0 <= k < n {
      if 0 <= k < n {
        assert r.table.free[n - 1 - k] == k;
      }
    }
    forall b, k | b in buffers && 0 <= k < n ensures RowHeld(r, b, k) {}
  }

  lemma DetachFacts(r: Rec, buffers: set<Buffer>, s: int) returns (d: Rec)
    requires RecOk(r, buffers) && (r.todo == {} || r.capture == map[]) && s in r.table.slotForSeq
    requires 0 <= r.table.slotForSeq[s] < |r.table.refCount| && 1 < r.table.refCount[r.table.slotForSeq[s]]
    ensures r.table.free == [] ==> |r.table.refCount| < |r.table.slotForSeq|
    ensures forall b :: b in r.states ==> |r.states[b]| == |r.table.refCount|
    ensures forall k :: k in r.rings ==> |r.rings[k].entries| == CHECKPOINT_COUNT
    ensures r.table.free != [] ==>
              var t, src, k := r.table, r.table.slotForSeq[s], r.table.free[|r.table.free| - 1];
              && IsDetached(r, s, d) && RecOk(d, buffers) && 0 <= k < |t.refCount| && k != src
              && d.table == Table(t.slotForSeq[s := k], t.refCount[src := t.refCount[src] - 1][k := 1], t.free[..|t.free| - 1])
              && d.states == CopyRow(r.states, src, k) && d.capture == r.capture
              && d.rings == if Copies(r.rings, src) then r.rings[k := CopyRing(r.rings[src], RingAt(r.rings, k))] else r.rings
  {
    d := r;
    RecParts(r, buffers);
    NoExhaustion(r.table, r.table.slotForSeq[s]);
    forall k | k in r.rings ensures |r.rings[k].entries| == CHECKPOINT_COUNT {
      RingInRange(r, buffers, k);
    }
    if r.table.free != [] {
      DetachedKeeps(r, buffers, s);
      PopFree(r.table);
      hide RecOk, CopyRing, CopyRow, RowsHeld;
      d := Detached(r, s);
    }
  }

  lemma IdlePass(r: Rec, p: Pass, buffers: set<Buffer>)
    requires PassInv(r, p, buffers) && r.todo == {}
    ensures p.tokens == map[]
  {
  }

  lemma ForwardHist(cfg: Config, k: Model, b: Batch, ok: bool, after: Model)
    requires ForwardOutcome(cfg, k, b, ok, after)
    ensures after.hist == if ok then Appended(k.hist, b, |b.positions|) else k.hist
    ensures !ForwardOutcome(cfg, k, b, !ok, after)
  {
    EvictedFrame(cfg, k, b, 0, 0);
    var e := Evicted(cfg, k, b);
    if ok {
      PlacedElsewhere(e, b, FindLocs(e.cells, |b.positions|).value, |b.positions|, 0);
    }
  }

  lemma SlotsInside(slots: seq<int>, n: nat)
    requires SlotsWithin(slots, n)
    ensures forall i :: 0 <= i < |slots| ==> 0 <= slots[i] < n
  {
  }

  lemma BlankRows(rows: seq<State>, slots: seq<int>)
    requires SlotsWithin(slots, |rows|)
    ensures SetRows(rows, slots, seq(|slots|, _ => []), |slots|) == Blank(rows, slots)
  {
    forall k | 0 <= k < |rows| ensures SetRows(rows, slots, seq(|slots|, _ => []), |slots|)[k] == Blank(rows, slots)[k] {
      SetRowsAt(rows, slots, seq(|slots|, _ => []), |slots|, k);
    }
  }
}
