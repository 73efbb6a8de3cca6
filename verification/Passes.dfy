/** Passes over the recurrent cache: how StartForward plans one, what making the slots private
    and writing the state buffers does to the private state of every sequence, and how those
    states keep up with the histories of the KV cache. */
module Passes {
  import opened Tokens
  import opened CacheModel
  import opened Sharing
  import opened Arithmetic
  import opened Checkpoints
  import opened Slots
  import opened Capacity
  import opened Order
  import opened RecurrentModel

  const CHECKPOINT_MIN_POS := 16
  const CHECKPOINT_INTERVAL := 1664

  /** The pass under way: its sequences and their slots, the tokens each brings, the position
      planned for a checkpoint of each (-1 for none), and whether the slots are private yet. */
  datatype Pass = Pass(seqs: seq<int>, slots: seq<int>, tokens: map<int, State>, planned: seq<int>, writable: bool)

  ghost predicate InPass(r: Rec, p: Pass, i: int)
    requires 0 <= i < |p.seqs| == |p.slots|
  {
    var s := p.seqs[i];
    s in r.table.slotForSeq && p.slots[i] == r.table.slotForSeq[s] && s in p.tokens && p.tokens[s] != []
  }

  /** Sequence i of the pass has its slot to itself, and the slot is to take on its tokens. */
  ghost predicate Private(r: Rec, p: Pass, i: int)
    requires 0 <= i < |p.seqs| == |p.slots|
    requires |r.slotHist| == |r.target| == |r.table.refCount|
  {
    && 0 <= p.slots[i] < |r.slotHist| && r.table.refCount[p.slots[i]] == 1 && p.seqs[i] in p.tokens
    && r.target[p.slots[i]] == r.slotHist[p.slots[i]] + p.tokens[p.seqs[i]]
  }

  /** A checkpoint of slot k is planned. */
  ghost predicate Planned(p: Pass, k: int) {
    exists i :: 0 <= i < |p.slots| && i < |p.planned| && p.slots[i] == k && p.planned[i] != -1
  }

  ghost predicate PassShape(r: Rec, p: Pass) {
    && |p.seqs| == |p.slots| == |p.planned| && Distinct(p.seqs)
    && (forall i :: 0 <= i < |p.seqs| ==> InPass(r, p, i))
    && (forall s :: s in p.tokens ==> s in p.seqs)
    && |r.slotHist| == |r.target| == |r.table.refCount|
  }

  ghost predicate PassInv(r: Rec, p: Pass, buffers: set<Buffer>) {
    if r.todo == {} then p.tokens == map[]
    else
      && PassShape(r, p)
      && if p.writable then
           && TargetFor(r, p.slots) && SlotsWithin(p.slots, |r.slotHist|)
           && (forall i :: 0 <= i < |p.seqs| ==> Private(r, p, i))
           && (forall k :: k in r.capture <==> r.todo != buffers && Planned(p, k))
           && (forall k :: k in r.capture ==> k in r.rings)
         else r.todo == buffers && r.capture == map[] && r.target == r.slotHist
  }

  /** The private state of s is what its KV history says: all of it folded in when s is idle
      (and possibly more, after a truncated copy), all but the pass's tokens when it is in one. */
  ghost predicate InStep(hist: map<int, seq<Token>>, r: Rec, p: Pass, s: int) {
    if s in p.tokens then Hist(hist, s) == Folded(r, s) + p.tokens[s] else Hist(hist, s) <= Folded(r, s)
  }

  ghost predicate PlannedOk(hist: map<int, seq<Token>>, p: Pass, i: int)
    requires 0 <= i < |p.planned| && i < |p.seqs|
  {
    p.planned[i] == -1 || (p.planned[i] == |Hist(hist, p.seqs[i])| - 1 && 0 <= p.planned[i] < MAX_INT32)
  }

  /** What the checkpoints a pass takes rest on: a slot of the pass keeps its claim only when its
      sequence is in step, and positions are planned where histories end. */
  ghost predicate SyncOk(hist: map<int, seq<Token>>, r: Rec, p: Pass) {
    r.todo != {} ==>
      && (p.writable ==>
            forall i :: 0 <= i < |p.slots| && i < |p.seqs| && p.slots[i] !in r.tainted ==> InStep(hist, r, p, p.seqs[i]))
      && forall i :: 0 <= i < |p.planned| && i < |p.seqs| ==> PlannedOk(hist, p, i)
  }

  // ---------- planning ----------

  /** The highest position each sequence has in the first k batch entries. */
  function Highest(b: Batch, k: nat): map<int, int>
    requires ShapedBatch(b) && k <= |b.positions|
  {
    if k == 0 then map[]
    else
      var prev, s := Highest(b, k - 1), b.sequences[k - 1];
      if s in prev && b.positions[k - 1] <= prev[s] then prev else prev[s := b.positions[k - 1]]
  }

  /** Positions continuing the histories, the highest of a sequence is where its history ends. */
  lemma {:induction false} HighestIsLast(hist: map<int, seq<Token>>, b: Batch, k: nat, s: int)
    requires Continues(hist, b) && k <= |b.positions|
    ensures s in Highest(b, k) <==> InBatch(b, k, s)
    ensures s in Highest(b, k) ==> Highest(b, k)[s] == |Hist(Appended(hist, b, k), s)| - 1
  {
    if k > 0 {
      HighestIsLast(hist, b, k - 1, s);
      AppendedStep(hist, b, k - 1, s);
      assert ContinuesAt(hist, b, k - 1);
      assert InBatch(b, k, s) <==> InBatch(b, k - 1, s) || b.sequences[k - 1] == s;
    }
  }

  /** Where the next checkpoint of a slot goes, given the last position of the pass. */
  function PlanAt(rings: map<int, Ring>, slot: int, pos: int): int {
    var last := RingAt(rings, slot).lastPos;
    if pos >= CHECKPOINT_MIN_POS && (last < 0 || pos - last >= CHECKPOINT_INTERVAL) then pos else -1
  }

  /** Every sequence of the batch has its checkpoint planned. */
  ghost predicate PlannedFor(rings: map<int, Ring>, b: Batch, seqs: seq<int>, slots: seq<int>, planned: seq<int>) {
    && ShapedBatch(b) && |planned| == |slots| == |seqs|
    && forall i :: 0 <= i < |seqs| && seqs[i] in Highest(b, |b.positions|) ==>
         planned[i] == PlanAt(rings, slots[i], Highest(b, |b.positions|)[seqs[i]])
  }

  /** Planning looks stores up, and makes those that are missing. */
  ghost predicate Grown(rings: map<int, Ring>, after: map<int, Ring>, slots: seq<int>) {
    && (forall k :: k in rings ==> k in after && after[k] == rings[k])
    && (forall k :: k in after && k !in rings ==> k in slots && after[k] == FreshRing(CHECKPOINT_COUNT))
  }

  lemma FreshRingEmpty(n: nat)
    ensures RingEmpty(FreshRing(n))
  {
    LiveBound(FreshRing(n).entries, n);
  }

  /** A pass begins with everything still to be updated and no checkpoint taken. */
  lemma BeginKeeps(r: Rec, buffers: set<Buffer>, rings: map<int, Ring>, slots: seq<int>)
    requires RecOk(r, buffers) && r.todo == {} && Grown(r.rings, rings, slots)
    requires forall k :: k in slots ==> 0 <= k < |r.slotHist|
    ensures RecOk(r.(todo := buffers, capture := map[], rings := rings), buffers)
  {
    hide TableOk;
    var d := r.(todo := buffers, capture := map[], rings := rings);
    FreshRingEmpty(CHECKPOINT_COUNT);
    forall b, j | b in buffers && 0 <= j < |d.slotHist| ensures RowHeld(d, b, j) {
      assert RowHeld(r, b, j);
    }
    forall k | k in rings ensures RingClaim(d, k, buffers, buffers - d.todo) {
      if k in r.rings {
        assert RingClaim(r, k, buffers, buffers - r.todo);
        forall i | 0 <= i < CHECKPOINT_COUNT ensures EntryClaim(d, k, i, buffers) {
          assert EntryClaim(r, k, i, buffers);
        }
      } else {
        EmptyClaim(d, buffers, k);
      }
    }
  }

  /** The tokens a pass brings to each of its sequences. */
  function PassTokens(before: map<int, seq<Token>>, after: map<int, seq<Token>>, seqs: seq<int>): map<int, State> {
    map s | s in seqs ::
      if |Hist(before, s)| <= |Hist(after, s)| then Hist(after, s)[|Hist(before, s)|..] else []
  }

  /** Once the KV cache has stored the batch, the histories are ahead of the private states by
      exactly the pass's tokens, for just those sequences whose state held exactly their history;
      and planned checkpoints are at the ends of histories. */
  lemma BeginSync(hist: map<int, seq<Token>>, b: Batch, r: Rec, p: Pass, d: Rec, q: Pass)
    requires p.tokens == map[] && Continues(hist, b) && Int32Positions(b)
    requires SeqsOf(b, q.seqs) && |q.planned| == |q.seqs| == |q.slots| && !q.writable
    requires q.tokens == PassTokens(hist, Appended(hist, b, |b.positions|), q.seqs)
    requires forall s :: Folded(d, s) == Folded(r, s)
    requires forall i :: 0 <= i < |q.seqs| ==>
               q.seqs[i] in Highest(b, |b.positions|) && (q.planned[i] == -1 || q.planned[i] == Highest(b, |b.positions|)[q.seqs[i]])
    ensures SyncOk(Appended(hist, b, |b.positions|), d, q)
    ensures forall s :: InStep(Appended(hist, b, |b.positions|), d, q, s) <==>
              if s in q.seqs then Hist(hist, s) == Folded(r, s) else InStep(hist, r, p, s)
    ensures forall s :: s in q.seqs ==> s in q.tokens && q.tokens[s] != []
  {
    hide InStep, PlannedOk, Appended, Highest, Folded, ContinuesAt;
    var after := Appended(hist, b, |b.positions|);
    forall s ensures InStep(after, d, q, s) <==> if s in q.seqs then Hist(hist, s) == Folded(r, s) else InStep(hist, r, p, s) {
      BeginInStep(hist, b, r, p, d, q, s);
    }
    forall s | s in q.seqs ensures q.tokens[s] != [] {
      AppendedGrows(hist, b, |b.positions|, s);
    }
    forall i | 0 <= i < |q.planned| ensures PlannedOk(after, q, i) {
      PlannedAtEnd(hist, b, q, i);
    }
  }

  lemma BeginInStep(hist: map<int, seq<Token>>, b: Batch, r: Rec, p: Pass, d: Rec, q: Pass, s: int)
    requires p.tokens == map[] && ShapedBatch(b) && SeqsOf(b, q.seqs)
    requires q.tokens == PassTokens(hist, Appended(hist, b, |b.positions|), q.seqs) && Folded(d, s) == Folded(r, s)
    ensures InStep(Appended(hist, b, |b.positions|), d, q, s) <==>
              if s in q.seqs then Hist(hist, s) == Folded(r, s) else InStep(hist, r, p, s)
  {
    hide Appended, Folded, InOrder, Distinct;
    AppendedGrows(hist, b, |b.positions|, s);
    if s in q.seqs {
      TailAfter(Hist(hist, s), Hist(Appended(hist, b, |b.positions|), s), Folded(r, s));
    }
    hide SeqsOf;
  }

  lemma TailAfter(h: State, h': State, f: State)
    requires h <= h'
    ensures h' == f + h'[|h|..] <==> h == f
  {
    assert h' == h + h'[|h|..];
    if h' == f + h'[|h|..] {
      assert |f| == |h|;
      assert f == h'[..|h|] == h;
    }
  }

  lemma PlannedAtEnd(hist: map<int, seq<Token>>, b: Batch, q: Pass, i: nat)
    requires Continues(hist, b) && Int32Positions(b) && i < |q.seqs| && i < |q.planned|
    requires q.seqs[i] in Highest(b, |b.positions|) && (q.planned[i] == -1 || q.planned[i] == Highest(b, |b.positions|)[q.seqs[i]])
    ensures PlannedOk(Appended(hist, b, |b.positions|), q, i)
  {
    HighestIsLast(hist, b, |b.positions|, q.seqs[i]);
    HighestRange(b, |b.positions|, q.seqs[i]);
  }

  lemma {:induction false} HighestRange(b: Batch, k: nat, s: int)
    requires ShapedBatch(b) && Int32Positions(b) && k <= |b.positions|
    ensures s in Highest(b, k) ==> 0 <= Highest(b, k)[s] < MAX_INT32
  {
    if k > 0 {
      HighestRange(b, k - 1, s);
    }
  }

  lemma AbortKeeps(r: Rec, buffers: set<Buffer>)
    requires RecOk(r, buffers) && r.todo == buffers && r.capture == map[] && r.target == r.slotHist
    ensures RecOk(r.(todo := {}), buffers)
  {
    hide TableOk;
    var d := r.(todo := {});
    forall b, j | b in buffers && 0 <= j < |d.slotHist| ensures RowHeld(d, b, j) {
      assert RowHeld(r, b, j);
    }
    forall k | k in r.rings ensures RingClaim(d, k, buffers, buffers - d.todo) {
      assert RingClaim(r, k, buffers, buffers - r.todo);
      forall i | 0 <= i < CHECKPOINT_COUNT ensures EntryClaim(d, k, i, buffers) {
        assert EntryClaim(r, k, i, buffers);
      }
    }
  }

  // ---------- slots for the sequences of a pass ----------

  /** d is r with slots handed, from the free list, to those of the first n sequences that had
      none; slots are the slots of those n, taken the ones handed out. */
  ghost predicate Taking(r: Rec, d: Rec, seqs: seq<int>, n: nat, slots: seq<int>, taken: seq<int>) {
    && d == r.(table := d.table) && |d.table.refCount| == |r.table.refCount| && n <= |seqs|
    && d.table == TakeAll(r.table, seqs, n)
    && MapsOnto(r.table.slotForSeq, d.table.slotForSeq, seqs[..n], slots, taken) && Took(r.table, d.table, taken)
  }

  /** The sequences have joined the old ones, those of them that are new on slots taken. */
  ghost predicate MapsOnto(m: map<int, int>, m': map<int, int>, seqs: seq<int>, slots: seq<int>, taken: seq<int>) {
    && |slots| == |seqs| && (forall j :: 0 <= j < |seqs| ==> seqs[j] in m' && slots[j] == m'[seqs[j]])
    && (forall q :: q in m' <==> q in m || q in seqs)
    && (forall q :: q in m ==> m'[q] == m[q])
    && (forall q :: q in m' ==> (m'[q] in taken <==> q !in m))
  }

  /** The slots taken are those that went from the stack. */
  ghost predicate Took(t: Table, d: Table, taken: seq<int>) {
    && SlotsWithin(taken, |t.refCount|) && d.free <= t.free
    && (forall k :: k in taken ==> k !in d.free)
    && (forall k :: k in taken <==> k in Handed(t, d))
  }

  lemma TakingNone(r: Rec, seqs: seq<int>)
    ensures Taking(r, r, seqs, 0, [], [])
  {
  }

  lemma TakingKnown(r: Rec, d: Rec, seqs: seq<int>, n: nat, slots: seq<int>, taken: seq<int>)
    requires Taking(r, d, seqs, n, slots, taken) && n < |seqs| && seqs[n] in d.table.slotForSeq
    ensures Taking(r, d, seqs, n + 1, slots + [d.table.slotForSeq[seqs[n]]], taken)
  {
    assert seqs[..n + 1] == seqs[..n] + [seqs[n]];
  }

  lemma TakingNew(r: Rec, d: Rec, buffers: set<Buffer>, seqs: seq<int>, n: nat, slots: seq<int>, taken: seq<int>)
    requires Taking(r, d, seqs, n, slots, taken) && n < |seqs| && seqs[n] !in d.table.slotForSeq
    requires RecOk(d, buffers) && d.table.free != []
    ensures var k := d.table.free[|d.table.free| - 1];
      Taking(r, Taken(d, seqs[n]), seqs, n + 1, slots + [k], taken + [k])
  {
    RecParts(d, buffers);
    hide RecOk, RowsHeld, TableOk, Took, MapsOnto, TakeAll, AllocNew;
    var t, s, k := d.table, seqs[n], d.table.free[|d.table.free| - 1];
    TookNew(r.table, t, s, taken);
    AllocNewKeeps(t, s);
    assert seqs[..n + 1] == seqs[..n] + [s];
    MapsOntoMore(r.table.slotForSeq, t.slotForSeq, seqs[..n], slots, taken, s, k);
    TakeAllMore(r.table, t, seqs, n);
    AllocNewParts(t, s);
    TakenIs(d, s);
    hide Taken;
    TakingTable(r, d, AllocNew(t, s));
  }

  lemma TakenIs(r: Rec, s: int)
    requires TableOk(r.table) && r.table.free != []
    ensures r.table.free[|r.table.free| - 1] in r.table.free && Taken(r, s) == r.(table := AllocNew(r.table, s))
  {
    PopFree(r.table);
  }

  lemma TakingTable(r: Rec, d: Rec, t: Table)
    requires d == r.(table := d.table)
    ensures d.(table := t) == r.(table := t)
  {
  }

  lemma TakeAllMore(t: Table, d: Table, seqs: seq<int>, n: nat)
    requires n < |seqs| && d == TakeAll(t, seqs, n)
    ensures TakeAll(t, seqs, n + 1) == Give(d, seqs[n])
  {
  }

  lemma AllocNewParts(t: Table, s: int)
    requires t.free != [] && 0 <= t.free[|t.free| - 1] < |t.refCount|
    ensures AllocNew(t, s).slotForSeq == t.slotForSeq[s := t.free[|t.free| - 1]] && |AllocNew(t, s).refCount| == |t.refCount|
  {
  }

  lemma MapsOntoMore(m: map<int, int>, m': map<int, int>, seqs: seq<int>, slots: seq<int>, taken: seq<int>, s: int, k: int)
    requires MapsOnto(m, m', seqs, slots, taken) && s !in m' && forall q :: q in m' ==> m'[q] != k
    ensures MapsOnto(m, m'[s := k], seqs + [s], slots + [k], taken + [k])
  {
  }

  lemma TookNew(t: Table, d: Table, s: int, taken: seq<int>)
    requires Took(t, d, taken) && TableOk(d) && d.free != [] && s !in d.slotForSeq && |d.refCount| == |t.refCount|
    ensures 0 <= d.free[|d.free| - 1] < |d.refCount|
    ensures Give(d, s) == AllocNew(d, s) && Took(t, AllocNew(d, s), taken + [d.free[|d.free| - 1]])
  {
    PopFree(d);
    hide TableOk;
    assert 0 <= d.free[|d.free| - 1] < |d.refCount|;
    HandedMore(t, d, AllocNew(d, s));
  }

  lemma HandedMore(t: Table, d: Table, e: Table)
    requires d.free <= t.free && d.free != [] && e.free == d.free[..|d.free| - 1]
    ensures Handed(t, e) == [d.free[|d.free| - 1]] + Handed(t, d) && e.free <= t.free
  {
  }

  /** The sequences have their slots, with nothing in those that are new. */
  ghost function Given(r: Rec, seqs: seq<int>): Rec {
    var t := TakeAll(r.table, seqs, |seqs|);
    Zeroed(r.(table := t), Handed(r.table, t))
  }

  /** Zeroing depends on which slots are named, not on their order. */
  lemma SameZeroed(r: Rec, a: seq<int>, b: seq<int>)
    requires forall k :: k in a <==> k in b
    ensures Zeroed(r, a) == Zeroed(r, b)
  {
    forall c | c in r.states ensures Blank(r.states[c], a) == Blank(r.states[c], b) {}
    assert Blank(r.slotHist, a) == Blank(r.slotHist, b) && Blank(r.target, a) == Blank(r.target, b);
  }

  lemma NothingZeroed(r: Rec)
    ensures Zeroed(r, []) == r
  {
    forall c | c in r.states ensures Blank(r.states[c], []) == r.states[c] {}
    assert Blank(r.slotHist, []) == r.slotHist && Blank(r.target, []) == r.target;
  }

  /** Zeroing the slots handed out, every sequence has the private state it had, a new one none. */
  lemma TakingGiven(r: Rec, d: Rec, buffers: set<Buffer>, seqs: seq<int>, slots: seq<int>, taken: seq<int>)
    requires Taking(r, d, seqs, |seqs|, slots, taken) && RecOk(d, buffers) && d.todo == {}
    ensures Zeroed(d, taken) == Given(r, seqs) && RecOk(Given(r, seqs), buffers) && SameStates(Given(r, seqs), r)
    ensures Placing(d.table, seqs, slots)
  {
    SameZeroed(d, taken, Handed(r.table, d.table));
    ZeroedKeeps(d, buffers, taken);
    RecParts(d, buffers);
    hide RecOk, Zeroed;
  }

  /** The slots run out only when there are more sequences than slots, */
  lemma TakingFails(r: Rec, d: Rec, buffers: set<Buffer>, seqs: seq<int>, n: nat, slots: seq<int>, taken: seq<int>)
    requires Taking(r, d, seqs, n, slots, taken) && n < |seqs| && seqs[n] !in d.table.slotForSeq
    requires RecOk(d, buffers) && d.table.free == []
    ensures |r.table.refCount| < |r.table.slotForSeq.Keys + (set s | s in seqs)|
  {
    RecParts(d, buffers);
    hide RecOk, TableOk, RowsHeld, SlotsWithin, TakeAll, Handed;
    NoExhaustion(d.table, -1);
    forall q | q in d.table.slotForSeq.Keys + {seqs[n]} ensures q in r.table.slotForSeq.Keys + (set s | s in seqs) {}
    SubsetSize(d.table.slotForSeq.Keys + {seqs[n]}, r.table.slotForSeq.Keys + (set s | s in seqs));
  }

  /** and more sequences lack one than are free. */
  lemma TakingShort(r: Rec, d: Rec, buffers: set<Buffer>, seqs: seq<int>, n: nat, slots: seq<int>, taken: seq<int>)
    requires Taking(r, d, seqs, n, slots, taken) && n < |seqs| && seqs[n] !in d.table.slotForSeq && Distinct(seqs)
    requires RecOk(r, buffers) && d.table.free == []
    ensures |r.table.free| < |Unmapped(r.table, seqs, |seqs|)|
    ensures d == r.(table := TakeAll(r.table, seqs, |seqs|))
  {
    RecParts(r, buffers);
    assert d.table == TakeAll(r.table, seqs, n) && d == r.(table := d.table);
    hide RecOk, TableOk, TakeAll, Taking, Unmapped;
    TakeAllNone(r.table, seqs, n, |seqs|);
    TakeAllFits(r.table, seqs, |seqs|);
  }

  lemma TakingFits(r: Rec, d: Rec, buffers: set<Buffer>, seqs: seq<int>, slots: seq<int>, taken: seq<int>)
    requires Taking(r, d, seqs, |seqs|, slots, taken) && RecOk(r, buffers) && Distinct(seqs)
    ensures |Unmapped(r.table, seqs, |seqs|)| <= |r.table.free|
  {
    RecParts(r, buffers);
    hide RecOk, TableOk;
    TakeAllFits(r.table, seqs, |seqs|);
  }

  /** The same for any batch whose sequences the free slots suffice for. */
  lemma {:induction false} TakeRun(r: Rec, buffers: set<Buffer>, seqs: seq<int>, n: nat) returns (slots: seq<int>, taken: seq<int>)
    requires RecOk(r, buffers) && r.todo == {} && Distinct(seqs) && n <= |seqs|
    requires forall j :: 0 <= j < n ==> seqs[j] in TakeAll(r.table, seqs, n).slotForSeq
    ensures var d := r.(table := TakeAll(r.table, seqs, n)); Taking(r, d, seqs, n, slots, taken) && RecOk(d, buffers)
  {
    hide RecOk, Taking, TableOk;
    if n == 0 {
      slots, taken := [], [];
      TakingNone(r, seqs);
    } else {
      var d, s := r.(table := TakeAll(r.table, seqs, n - 1)), seqs[n - 1];
      RecParts(r, buffers);
      TakenBefore(r.table, seqs, n);
      slots, taken := TakeRun(r, buffers, seqs, n - 1);
      RecParts(d, buffers);
      if s in d.table.slotForSeq {
        TakingKnown(r, d, seqs, n - 1, slots, taken);
        slots := slots + [d.table.slotForSeq[s]];
      } else {
        TakenKeeps(d, buffers, s);
        TakingNew(r, d, buffers, seqs, n - 1, slots, taken);
        PopFree(d.table);
        var k := d.table.free[|d.table.free| - 1];
        slots, taken := slots + [k], taken + [k];
      }
    }
  }

  lemma TakenBefore(t: Table, seqs: seq<int>, n: nat)
    requires TableOk(t) && Distinct(seqs) && 0 < n <= |seqs| && forall j :: 0 <= j < n ==> seqs[j] in TakeAll(t, seqs, n).slotForSeq
    ensures forall j :: 0 <= j < n - 1 ==> seqs[j] in TakeAll(t, seqs, n - 1).slotForSeq
    ensures seqs[n - 1] !in TakeAll(t, seqs, n - 1).slotForSeq ==> TakeAll(t, seqs, n - 1).free != []
  {
    TakeAllFits(t, seqs, n - 1);
    GiveKeeps(TakeAll(t, seqs, n - 1), seqs[n - 1]);
    hide TableOk, Give;
    forall j | 0 <= j < n - 1 ensures seqs[j] in TakeAll(t, seqs, n - 1).slotForSeq {
      assert seqs[j] != seqs[n - 1];
    }
  }

  // ---------- equal-length layouts ----------

  /** How many of the first k batch entries are of sequence s. */
  function Count(seqs: seq<int>, k: nat, s: int): nat
    requires k <= |seqs|
  {
    if k == 0 then 0 else Count(seqs, k - 1, s) + if seqs[k - 1] == s then 1 else 0
  }

  lemma {:induction false} CountNone(seqs: seq<int>, k: nat, s: int)
    requires k <= |seqs|
    ensures Count(seqs, k, s) == 0 <==> s !in seqs[..k]
  {
    if k > 0 {
      CountNone(seqs, k - 1, s);
      assert seqs[..k] == seqs[..k - 1] + [seqs[k - 1]];
    }
  }

  lemma NotCounted(ss: seq<int>, k: nat, s: int, seqs: seq<int>)
    requires k <= |ss| && FirstSeen(ss[..k], seqs)
    ensures s !in seqs ==> Count(ss, k, s) == 0
  {
    CountNone(ss, k, s);
  }

  function Total(seqs: seq<int>, k: nat, of: seq<int>): nat
    requires k <= |seqs|
  {
    if of == [] then 0 else Total(seqs, k, of[..|of| - 1]) + Count(seqs, k, of[|of| - 1])
  }

  lemma {:induction false} TotalStep(seqs: seq<int>, k: nat, of: seq<int>)
    requires k < |seqs| && Distinct(of)
    ensures Total(seqs, k + 1, of) == Total(seqs, k, of) + if seqs[k] in of then 1 else 0
  {
    if of != [] {
      TotalStep(seqs, k, of[..|of| - 1]);
      assert of == of[..|of| - 1] + [of[|of| - 1]];
    }
  }

  /** Every entry is counted under exactly one of its sequences. */
  lemma {:induction false} TotalIs(seqs: seq<int>, k: nat, of: seq<int>)
    requires k <= |seqs| && Distinct(of) && forall j :: 0 <= j < k ==> seqs[j] in of
    ensures Total(seqs, k, of) == k
  {
    if k == 0 {
      TotalZero(seqs, of);
    } else {
      TotalIs(seqs, k - 1, of);
      TotalStep(seqs, k - 1, of);
    }
  }

  lemma {:induction false} TotalZero(seqs: seq<int>, of: seq<int>)
    ensures Total(seqs, 0, of) == 0
  {
    if of != [] {
      TotalZero(seqs, of[..|of| - 1]);
    }
  }

  lemma {:induction false} TotalEqual(seqs: seq<int>, k: nat, of: seq<int>, c: nat)
    requires k <= |seqs| && forall s :: s in of ==> Count(seqs, k, s) == c
    ensures Total(seqs, k, of) == |of| * c
  {
    if of != [] {
      TotalEqual(seqs, k, of[..|of| - 1], c);
      MulStep(|of| - 1, c);
    }
  }

  /** The sequences of a batch bring equally many tokens just when each brings the number the
      source computes by division. */
  lemma EqualLengths(seqs: seq<int>, of: seq<int>, c: nat)
    requires 0 < |of| && Distinct(of) && forall j :: 0 <= j < |seqs| ==> seqs[j] in of
    requires forall s :: s in of ==> Count(seqs, |seqs|, s) == c
    ensures c == |seqs| / |of|
  {
    TotalIs(seqs, |seqs|, of);
    TotalEqual(seqs, |seqs|, of, c);
    DivUnique(|seqs|, |of|, c, 0);
  }

  /** Every sequence has the same private state in d as in r. */
  ghost predicate SameStates(d: Rec, r: Rec) {
    forall q :: Folded(d, q) == Folded(r, q)
  }

  /** The sequences of the batch bring c tokens each. */
  ghost predicate Even(b: Batch, c: int) {
    forall s :: InBatch(b, |b.sequences|, s) ==> Count(b.sequences, |b.sequences|, s) == c
  }

  /** The sequences of a pass and the slots they use. */
  ghost predicate Placing(t: Table, seqs: seq<int>, slots: seq<int>) {
    |slots| == |seqs| && forall i :: 0 <= i < |seqs| ==> seqs[i] in t.slotForSeq && slots[i] == t.slotForSeq[seqs[i]]
  }

  /** A pass over the batch has just been set up: d is the state and p the pass. Slots have been
      handed out and zeroed, stores made where they were missing, and a checkpoint is planned where
      the last one is far enough back. */
  ghost predicate Opening(before: map<int, seq<Token>>, b: Batch, r: Rec, d: Rec, p: Pass, buffers: set<Buffer>) {
    && ShapedBatch(b) && SeqsOf(b, p.seqs) && Placing(d.table, p.seqs, p.slots) && !p.writable
    && p.tokens == PassTokens(before, Appended(before, b, |b.positions|), p.seqs)
    && PlannedFor(r.rings, b, p.seqs, p.slots, p.planned)
    && Grown(r.rings, d.rings, p.slots)
    && d == Given(r, p.seqs).(rings := d.rings, todo := buffers, capture := map[])
  }

  lemma OneSequence(b: Batch, s: int)
    requires ShapedBatch(b) && forall j :: 0 <= j < |b.sequences| ==> b.sequences[j] == s
    ensures SeqsOf(b, [s]) && Even(b, |b.sequences|)
  {
    assert InBatch(b, |b.sequences|, b.sequences[0]);
    CountAll(b.sequences, |b.sequences|, s);
  }

  lemma {:induction false} CountAll(seqs: seq<int>, k: nat, s: int)
    requires k <= |seqs| && forall j :: 0 <= j < k ==> seqs[j] == s
    ensures Count(seqs, k, s) == k
  {
    if k > 0 {
      CountAll(seqs, k - 1, s);
    }
  }

  /** The division test of StartForward is exact: it fails just when the batch is uneven. */
  lemma EvenTest(b: Batch, seqs: seq<int>)
    requires ShapedBatch(b) && SeqsOf(b, seqs) && seqs != []
    ensures (forall s :: s in seqs ==> Count(b.sequences, |b.sequences|, s) == |b.sequences| / |seqs|) <==> exists c :: Even(b, c)
  {
    if forall s :: s in seqs ==> Count(b.sequences, |b.sequences|, s) == |b.sequences| / |seqs| {
      assert Even(b, |b.sequences| / |seqs|);
    }
    if c :| Even(b, c) {
      assert seqs[0] in seqs && Count(b.sequences, |b.sequences|, seqs[0]) == c;
      forall j | 0 <= j < |b.sequences| ensures b.sequences[j] in seqs {
        assert InBatch(b, |b.sequences|, b.sequences[j]);
      }
      EqualLengths(b.sequences, seqs, c);
    }
  }

  lemma UnevenAt(b: Batch, seqs: seq<int>, i: nat)
    requires ShapedBatch(b) && SeqsOf(b, seqs) && i < |seqs|
    requires Count(b.sequences, |b.sequences|, seqs[i]) != |b.sequences| / |seqs|
    ensures !exists c :: Even(b, c)
  {
    EvenTest(b, seqs);
    assert seqs[i] in seqs;
  }

  /** A pass begins from a sound state with every private state what it was; its sequences are in
      step from then on just when their states held exactly their histories. */
  lemma OpeningKeeps(hist: map<int, seq<Token>>, b: Batch, r: Rec, p: Pass, d: Rec, q: Pass, buffers: set<Buffer>)
    requires RecOk(r, buffers) && r.todo == {} && p.tokens == map[] && Continues(hist, b) && Int32Positions(b)
    requires Opening(hist, b, r, d, q, buffers)
    ensures RecOk(d, buffers) && SameStates(d, r) && d.target == d.slotHist && d.todo == buffers
    ensures SyncOk(Appended(hist, b, |b.positions|), d, q) && PassInv(d, q, buffers)
    ensures forall s :: InStep(Appended(hist, b, |b.positions|), d, q, s) <==>
              if s in q.seqs then Hist(hist, s) == Folded(r, s) else InStep(hist, r, p, s)
  {
    GivenKeeps(r, buffers, q.seqs, q.slots);
    var g := Given(r, q.seqs);
    BeginKeeps(g, buffers, d.rings, q.slots);
    SameFolded(d, g, r);
    hide RecOk, TableOk, SyncOk, Folded, ContinuesAt, RingAt, Given, Opening, InStep;
    assert Opening(hist, b, r, d, q, buffers);
    OpeningParts(hist, b, r, d, q, buffers);
    BeginSync(hist, b, r, p, d, q);
    forall i | 0 <= i < |q.seqs| ensures InPass(d, q, i) {}
  }

  lemma OpeningParts(hist: map<int, seq<Token>>, b: Batch, r: Rec, d: Rec, q: Pass, buffers: set<Buffer>)
    requires Opening(hist, b, r, d, q, buffers) && Continues(hist, b)
    ensures SeqsOf(b, q.seqs) && Placing(d.table, q.seqs, q.slots) && !q.writable && |q.planned| == |q.seqs|
    ensures q.tokens == PassTokens(hist, Appended(hist, b, |b.positions|), q.seqs)
    ensures forall i :: 0 <= i < |q.seqs| ==>
              q.seqs[i] in Highest(b, |b.positions|) && (q.planned[i] == -1 || q.planned[i] == Highest(b, |b.positions|)[q.seqs[i]])
    ensures d.capture == map[] && d.todo == buffers
  {
    hide Appended, Given, Grown, ContinuesAt, RingAt, Highest;
    forall i | 0 <= i < |q.seqs| ensures q.seqs[i] in Highest(b, |b.positions|) {
      HighestIsLast(hist, b, |b.positions|, q.seqs[i]);
    }
  }

  lemma SameFolded(e: Rec, d: Rec, r: Rec)
    requires e.table == d.table && e.slotHist == d.slotHist && SameStates(d, r)
    ensures SameStates(e, r)
  {
    forall q ensures Folded(e, q) == Folded(r, q) {
      assert Folded(d, q) == Folded(r, q);
    }
  }

  lemma GivenKeeps(r: Rec, buffers: set<Buffer>, seqs: seq<int>, slots: seq<int>)
    requires RecOk(r, buffers) && r.todo == {} && Distinct(seqs) && Placing(Given(r, seqs).table, seqs, slots)
    ensures RecOk(Given(r, seqs), buffers) && SameStates(Given(r, seqs), r) && Given(r, seqs).todo == {}
    ensures Given(r, seqs).target == Given(r, seqs).slotHist && Given(r, seqs).rings == r.rings
    ensures forall k :: k in slots ==> 0 <= k < |Given(r, seqs).slotHist|
  {
    var slots', taken := TakeRun(r, buffers, seqs, |seqs|);
    TakingGiven(r, r.(table := TakeAll(r.table, seqs, |seqs|)), buffers, seqs, slots', taken);
    RecParts(Given(r, seqs), buffers);
    hide RecOk, Taking;
    forall k | k in slots ensures 0 <= k < |Given(r, seqs).slotHist| {
      var i :| 0 <= i < |slots| && slots[i] == k;
      assert seqs[i] in Given(r, seqs).table.slotForSeq;
    }
  }

  // ---------- private slots ----------

  ghost function Targets(r: Rec, p: Pass, n: nat): (h: seq<State>)
    requires n <= |p.seqs| == |p.slots| && forall i :: 0 <= i < n ==> 0 <= p.slots[i] < |r.slotHist| && p.seqs[i] in p.tokens
    ensures |h| == |r.slotHist|
  {
    if n == 0 then r.slotHist
    else Targets(r, p, n - 1)[p.slots[n - 1] := r.slotHist[p.slots[n - 1]] + p.tokens[p.seqs[n - 1]]]
  }

  lemma {:induction false} TargetsAt(r: Rec, p: Pass, n: nat, k: nat)
    requires n <= |p.seqs| == |p.slots| && forall i :: 0 <= i < n ==> 0 <= p.slots[i] < |r.slotHist| && p.seqs[i] in p.tokens
    requires k < |r.slotHist| && SlotsWithin(p.slots, |r.slotHist|)
    ensures (forall i :: 0 <= i < n ==> p.slots[i] != k) ==> Targets(r, p, n)[k] == r.slotHist[k]
    ensures forall i :: 0 <= i < n && p.slots[i] == k ==> Targets(r, p, n)[k] == r.slotHist[k] + p.tokens[p.seqs[i]]
  {
    if n > 0 {
      TargetsAt(r, p, n - 1, k);
    }
  }

  /** The slots of those sequences of the pass that are not in step with their histories. */
  ghost function Straying(hist: map<int, seq<Token>>, r: Rec, p: Pass): set<int> {
    set i | 0 <= i < |p.slots| && i < |p.seqs| && !InStep(hist, r, p, p.seqs[i]) :: p.slots[i]
  }

  /** The pass may write: each of its slots is to take on its sequence's tokens. */
  ghost function Opened(hist: map<int, seq<Token>>, r: Rec, p: Pass): Rec
    requires |p.seqs| == |p.slots| && forall i :: 0 <= i < |p.seqs| ==> 0 <= p.slots[i] < |r.slotHist| && p.seqs[i] in p.tokens
  {
    r.(target := Targets(r, p, |p.seqs|), tainted := r.tainted + Straying(hist, r, p))
  }

  /** Every slot of the pass has one user. */
  ghost predicate AllSole(r: Rec, slots: seq<int>) {
    forall i :: 0 <= i < |slots| ==> 0 <= slots[i] < |r.table.refCount| && r.table.refCount[slots[i]] == 1
  }

  lemma SoleSlots(r: Rec, p: Pass)
    requires TableOk(r.table) && PassShape(r, p) && AllSole(r, p.slots)
    ensures SlotsWithin(p.slots, |r.slotHist|)
  {
    forall i, j | 0 <= i < j < |p.slots| ensures p.slots[i] != p.slots[j] {
      assert InPass(r, p, i) && InPass(r, p, j);
      SoleUser(r.table, p.seqs[i], p.seqs[j]);
    }
  }

  lemma OpenedKeeps(hist: map<int, seq<Token>>, r: Rec, p: Pass, buffers: set<Buffer>)
    requires RecOk(r, buffers) && r.todo == buffers && PassInv(r, p, buffers) && !p.writable && AllSole(r, p.slots)
    ensures forall i :: 0 <= i < |p.seqs| ==> 0 <= p.slots[i] < |r.slotHist| && p.seqs[i] in p.tokens
    ensures RecOk(Opened(hist, r, p), buffers)
    ensures PassInv(Opened(hist, r, p), p.(writable := true), buffers)
  {
    forall i | 0 <= i < |p.seqs| ensures 0 <= p.slots[i] < |r.slotHist| && p.seqs[i] in p.tokens {
      assert InPass(r, p, i);
    }
    SoleSlots(r, p);
    var d, q := Opened(hist, r, p), p.(writable := true);
    forall k | 0 <= k < |r.slotHist| ensures r.slotHist[k] <= d.target[k] && (k !in p.slots ==> d.target[k] == r.slotHist[k]) {
      TargetsAt(r, p, |p.seqs|, k);
      if k in p.slots {
        var i :| 0 <= i < |p.slots| && p.slots[i] == k;
      }
    }
    forall i | 0 <= i < |p.seqs| ensures InPass(d, q, i) && Private(d, q, i) {
      assert InPass(r, p, i);
      TargetsAt(r, p, |p.seqs|, p.slots[i]);
    }
    OpenedClaims(r, d, buffers);
  }

  lemma OpenedClaims(r: Rec, d: Rec, buffers: set<Buffer>)
    requires RecOk(r, buffers) && r.todo == buffers && r.capture == map[] && |d.target| == |r.target|
    requires d == r.(target := d.target, tainted := d.tainted) && r.tainted <= d.tainted
    ensures RecOk(d, buffers)
  {
    hide TableOk;
    forall b, j | b in buffers && 0 <= j < |d.slotHist| ensures RowHeld(d, b, j) {
      assert RowHeld(r, b, j);
    }
    forall k | k in r.rings ensures RingClaim(d, k, buffers, buffers - d.todo) {
      assert RingClaim(r, k, buffers, buffers - r.todo);
      forall i | 0 <= i < CHECKPOINT_COUNT ensures EntryClaim(d, k, i, buffers) {
        assert EntryClaim(r, k, i, buffers);
      }
    }
  }

  lemma OpenedSync(hist: map<int, seq<Token>>, r: Rec, p: Pass)
    requires SyncOk(hist, r, p) && r.todo != {}
    requires |p.seqs| == |p.slots| && forall i :: 0 <= i < |p.seqs| ==> 0 <= p.slots[i] < |r.slotHist| && p.seqs[i] in p.tokens
    ensures SyncOk(hist, Opened(hist, r, p), p.(writable := true))
  {
    var d, q := Opened(hist, r, p), p.(writable := true);
    forall i | 0 <= i < |q.slots| && i < |q.seqs| && q.slots[i] !in d.tainted ensures InStep(hist, d, q, q.seqs[i]) {
      assert InStep(hist, r, p, p.seqs[i]);
    }
    forall i | 0 <= i < |q.planned| && i < |q.seqs| ensures PlannedOk(hist, q, i) {
      assert PlannedOk(hist, p, i);
    }
  }

  /** One sequence of a pass detached: the pass goes on with its new slot. */
  lemma DetachedPass(hist: map<int, seq<Token>>, r: Rec, p: Pass, buffers: set<Buffer>, i: nat)
    requires RecOk(r, buffers) && r.todo == buffers && PassInv(r, p, buffers) && !p.writable && i < |p.seqs|
    requires SyncOk(hist, r, p) && r.table.free != []
    requires 0 <= p.slots[i] < |r.table.refCount| && 1 < r.table.refCount[p.slots[i]]
    ensures forall k :: k in r.rings ==> |r.rings[k].entries| == CHECKPOINT_COUNT
    ensures p.seqs[i] in r.table.slotForSeq && p.slots[i] == r.table.slotForSeq[p.seqs[i]]
    ensures var d, q := Detached(r, p.seqs[i]), p.(slots := p.slots[i := r.table.free[|r.table.free| - 1]]);
      RecOk(d, buffers) && PassInv(d, q, buffers) && SyncOk(hist, d, q)
  {
    assert InPass(r, p, i);
    DetachedKeeps(r, buffers, p.seqs[i]);
    hide RecOk, CopyRing, CopyRow, TableOk;
    var d, q := Detached(r, p.seqs[i]), p.(slots := p.slots[i := r.table.free[|r.table.free| - 1]]);
    forall j | 0 <= j < |p.seqs| ensures InPass(d, q, j) {
      assert InPass(r, p, j);
    }
    forall j | 0 <= j < |q.planned| && j < |q.seqs| ensures PlannedOk(hist, q, j) {
      assert PlannedOk(hist, p, j);
    }
  }

  /** A slot with one user has no other. */
  lemma SoleUser(t: Table, s: int, q: int)
    requires TableOk(t) && s in t.slotForSeq && q in t.slotForSeq && q != s
    requires t.refCount[t.slotForSeq[s]] == 1
    ensures t.slotForSeq[q] != t.slotForSeq[s]
  {
    if t.slotForSeq[q] == t.slotForSeq[s] {
      SubsetSize({s, q}, Users(t.slotForSeq, t.slotForSeq[s]));
    }
  }

  /** There is a slot for s to move to. */
  ghost predicate CanDetach(r: Rec, s: int) {
    && TableOk(r.table) && r.table.free != [] && |r.slotHist| == |r.target| == |r.table.refCount| && s in r.table.slotForSeq
    && (forall k :: k in r.rings ==> |r.rings[k].entries| == CHECKPOINT_COUNT)
  }

  /** d is what detaching s makes of r. */
  ghost predicate IsDetached(r: Rec, s: int, d: Rec) {
    CanDetach(r, s) && d == Detached(r, s)
  }

  predicate Shares(r: Rec, s: int) {
    s in r.table.slotForSeq && 0 <= r.table.slotForSeq[s] < |r.table.refCount| && 1 < r.table.refCount[r.table.slotForSeq[s]]
  }

  /** s with a slot to itself, if it shares one and another is free. */
  ghost function Owning(r: Rec, s: int): Rec {
    if Shares(r, s) && CanDetach(r, s) then Detached(r, s) else r
  }

  ghost function OwningAll(r: Rec, seqs: seq<int>, n: nat): Rec
    requires n <= |seqs|
  {
    if n == 0 then r else Owning(OwningAll(r, seqs, n - 1), seqs[n - 1])
  }

  lemma {:induction false} OwningShort(r: Rec, seqs: seq<int>, n: nat, k: nat)
    requires n <= k <= |seqs| && OwningAll(r, seqs, n).table.free == []
    ensures OwningAll(r, seqs, k) == OwningAll(r, seqs, n)
  {
    if n < k {
      OwningShort(r, seqs, n, k - 1);
    }
  }

  lemma {:induction false} OwningNone(r: Rec, seqs: seq<int>, n: nat)
    requires n <= |seqs| && forall j :: 0 <= j < n ==> !Shares(r, seqs[j])
    ensures OwningAll(r, seqs, n) == r
  {
    if n > 0 {
      OwningNone(r, seqs, n - 1);
    }
  }

  function SlotsFor(t: Table, seqs: seq<int>): (slots: seq<int>)
    ensures |slots| == |seqs|
  {
    seq(|seqs|, i requires 0 <= i < |seqs| => if seqs[i] in t.slotForSeq then t.slotForSeq[seqs[i]] else -1)
  }

  lemma PassSlots(r: Rec, p: Pass, buffers: set<Buffer>)
    requires PassInv(r, p, buffers) && r.todo != {}
    ensures p.slots == SlotsFor(r.table, p.seqs)
  {
    forall i | 0 <= i < |p.seqs| ensures p.slots[i] == SlotsFor(r.table, p.seqs)[i] {
      assert InPass(r, p, i);
    }
  }

  /** Making the slots of a pass private changes nobody's state. */
  lemma {:induction false} OwnRun(hist: map<int, seq<Token>>, r: Rec, p: Pass, buffers: set<Buffer>, n: nat)
    requires RecOk(r, buffers) && r.todo == buffers && PassInv(r, p, buffers) && !p.writable && SyncOk(hist, r, p) && n <= |p.seqs|
    ensures var d := OwningAll(r, p.seqs, n);
      var q := p.(slots := SlotsFor(d.table, p.seqs));
      && RecOk(d, buffers) && d.todo == buffers && PassInv(d, q, buffers) && SyncOk(hist, d, q) && SameStates(d, r)
  {
    if n == 0 {
      assert buffers != {};
      PassSlots(r, p, buffers);
    } else {
      OwnRun(hist, r, p, buffers, n - 1);
      var e := OwningAll(r, p.seqs, n - 1);
      var q := p.(slots := SlotsFor(e.table, p.seqs));
      hide RecOk, PassInv, SyncOk, Shares, CanDetach;
      OwnRunStep(hist, e, q, buffers, n - 1);
      SameStatesChain(Owning(e, p.seqs[n - 1]), e, r);
    }
  }

  lemma OwnRunStep(hist: map<int, seq<Token>>, r: Rec, p: Pass, buffers: set<Buffer>, i: nat)
    requires RecOk(r, buffers) && r.todo == buffers && PassInv(r, p, buffers) && !p.writable && SyncOk(hist, r, p) && i < |p.seqs|
    requires p.slots == SlotsFor(r.table, p.seqs)
    ensures var d := Owning(r, p.seqs[i]);
      var q := p.(slots := SlotsFor(d.table, p.seqs));
      && RecOk(d, buffers) && d.todo == buffers && PassInv(d, q, buffers) && SyncOk(hist, d, q) && SameStates(d, r)
  {
    if Shares(r, p.seqs[i]) && CanDetach(r, p.seqs[i]) {
      DetachedPass(hist, r, p, buffers, i);
      DetachedKeeps(r, buffers, p.seqs[i]);
      assert buffers != {};
      var d := Detached(r, p.seqs[i]);
      var q := p.(slots := p.slots[i := r.table.free[|r.table.free| - 1]]);
      PassSlots(d, q, buffers);
      hide RecOk, PassInv, SyncOk, CanDetach, Detached;
      assert d == Owning(r, p.seqs[i]);
    }
  }

  lemma SameStatesChain(e: Rec, d: Rec, r: Rec)
    requires SameStates(e, d) && SameStates(d, r)
    ensures SameStates(e, r)
  {
  }

  /** The first n sequences of the pass have their slots to themselves. */
  ghost predicate SoleBelow(r: Rec, p: Pass, n: nat) {
    forall j :: 0 <= j < n && j < |p.slots| ==> 0 <= p.slots[j] < |r.table.refCount| && r.table.refCount[p.slots[j]] == 1
  }

  /** Making slots private, one sequence at a time. */
  lemma DetachStep(hist: map<int, seq<Token>>, r: Rec, d: Rec, p: Pass, q: Pass, buffers: set<Buffer>, i: nat)
    requires RecOk(r, buffers) && r.todo == buffers && PassInv(r, p, buffers) && !p.writable && i < |p.seqs|
    requires SyncOk(hist, r, p) && SoleBelow(r, p, i)
    requires 0 <= p.slots[i] < |r.table.refCount| && 1 < r.table.refCount[p.slots[i]] && IsDetached(r, p.seqs[i], d)
    requires q == p.(slots := p.slots[i := r.table.free[|r.table.free| - 1]])
    ensures RecOk(d, buffers) && d.todo == buffers && PassInv(d, q, buffers) && SyncOk(hist, d, q)
    ensures SoleBelow(d, q, i + 1) && SameStates(d, r) && d.table.slotForSeq.Keys == r.table.slotForSeq.Keys
  {
    DetachedPass(hist, r, p, buffers, i);
    DetachedKeeps(r, buffers, p.seqs[i]);
    DetachKeeps(r.table, p.seqs[i]);
    assert r.table.refCount[r.table.free[|r.table.free| - 1]] == 0;
    hide RecOk, PassInv, SyncOk, TableOk, Folded, CopyRing, CopyRow;
  }

  lemma SoleNext(r: Rec, p: Pass, buffers: set<Buffer>, i: nat)
    requires RecOk(r, buffers) && r.todo == buffers && PassInv(r, p, buffers) && i < |p.seqs| && SoleBelow(r, p, i)
    ensures i < |p.slots| && p.seqs[i] in r.table.slotForSeq && r.table.slotForSeq[p.seqs[i]] == p.slots[i]
    ensures 0 <= p.slots[i] < |r.table.refCount|
    ensures r.table.refCount[p.slots[i]] <= 1 ==> SoleBelow(r, p, i + 1)
  {
    RecParts(r, buffers);
    assert InPass(r, p, i);
    assert p.seqs[i] in Users(r.table.slotForSeq, p.slots[i]);
  }

  // ---------- the writes of a pass ----------

  /** What captureConvCheckpoint and captureRecurrentCheckpoint do for the first n sequences. */
  function CaptureAll(r: Rec, p: Pass, b: Buffer, rows: seq<State>, n: nat): (c: Rec)
    requires n <= |p.slots| == |p.planned| == |rows|
    ensures c == r.(rings := c.rings, capture := c.capture)
  {
    if n == 0 then r
    else
      var prev, k := CaptureAll(r, p, b, rows, n - 1), p.slots[n - 1];
      if p.planned[n - 1] < 0 then prev else Captured(prev, k, p.planned[n - 1], b, rows[n - 1])
  }

  function WithRing(r: Rec, k: int): Rec {
    r.(rings := r.rings[k := RingAt(r.rings, k)])
  }

  /** CaptureAt, on a store made if need be. */
  function Captured(r: Rec, k: int, pos: int, b: Buffer, row: State): (c: Rec)
    ensures c == r.(rings := c.rings, capture := c.capture)
  {
    var d := WithRing(r, k);
    if Capturable(d, k) then CaptureAt(d, k, pos, b, row) else d
  }

  predicate Capturable(r: Rec, k: int) {
    && k in r.rings && |r.rings[k].entries| == CHECKPOINT_COUNT && 0 <= r.rings[k].next < CHECKPOINT_COUNT
    && (k in r.capture ==> 0 <= r.capture[k] < CHECKPOINT_COUNT)
  }

  /** A checkpoint of slot k is planned among the first n sequences. */
  ghost predicate PlannedBelow(p: Pass, n: nat, k: int) {
    exists i :: 0 <= i < n && i < |p.slots| && i < |p.planned| && p.slots[i] == k && p.planned[i] >= 0
  }

  /** What the i-th planned position needs to be for its checkpoint to be one of the slot. */
  ghost predicate PlanFits(r: Rec, p: Pass, i: int)
    requires 0 <= i < |p.slots| == |p.planned| && |r.target| == |r.slotHist|
  {
    && -1 <= p.planned[i] < MAX_INT32 && 0 <= p.slots[i] < |r.target|
    && (p.planned[i] >= 0 && p.slots[i] !in r.tainted ==>
          p.planned[i] == |r.target[p.slots[i]]| - 1 && |r.slotHist[p.slots[i]]| <= p.planned[i])
  }

  lemma CapturedKeeps(r: Rec, buffers: set<Buffer>, k: int, pos: int, b: Buffer)
    requires b in r.todo && r.todo <= buffers && 0 <= pos < MAX_INT32 && 0 <= k < |r.slotHist| == |r.target|
    requires k in r.rings ==> RingClaim(r, k, buffers, buffers - r.todo)
    requires k in r.capture ==> k in r.rings
    requires k in r.capture || r.todo == buffers
    requires k !in r.tainted ==> pos == |r.target[k]| - 1 && |r.slotHist[k]| <= pos
    ensures RingClaim(Captured(r, k, pos, b, r.target[k]), k, buffers, buffers - r.todo + {b})
    ensures var c := Captured(r, k, pos, b, r.target[k]);
      && k in c.capture && (forall j :: j != k ==> (j in c.capture <==> j in r.capture) && (j in c.rings <==> j in r.rings))
      && (forall j :: j != k && j in r.capture ==> c.capture[j] == r.capture[j])
      && (forall j :: j != k && j in r.rings ==> c.rings[j] == r.rings[j])
  {
    var d := WithRing(r, k);
    if k !in r.rings {
      FreshRingEmpty(CHECKPOINT_COUNT);
      EmptyClaimBusy(d, buffers, k);
    } else {
      assert d == r;
    }
    CaptureKeeps(d, buffers, k, pos, b);
  }

  lemma EmptyClaimBusy(r: Rec, buffers: set<Buffer>, k: int)
    requires k in r.rings && 0 <= k < |r.slotHist| == |r.target| && r.rings[k] == FreshRing(CHECKPOINT_COUNT)
    requires k !in r.capture
    ensures RingClaim(r, k, buffers, buffers - r.todo)
  {
    FreshRingEmpty(CHECKPOINT_COUNT);
  }

  /** Claims about slot k do not depend on the other slots' rings. */
  lemma OtherClaim(r: Rec, c: Rec, buffers: set<Buffer>, k: int, written: set<Buffer>)
    requires RingClaim(r, k, buffers, written) && c == r.(rings := c.rings, capture := c.capture)
    requires k in c.rings && c.rings[k] == r.rings[k] && (k in c.capture <==> k in r.capture)
    requires k in c.capture ==> c.capture[k] == r.capture[k]
    ensures RingClaim(c, k, buffers, written)
  {
    forall i | 0 <= i < CHECKPOINT_COUNT ensures EntryClaim(c, k, i, buffers) {
      assert EntryClaim(r, k, i, buffers);
    }
  }

  /** The claim a pass keeps about slot k while it works through the first n sequences. */
  ghost predicate CaptureClaim(r: Rec, c: Rec, p: Pass, buffers: set<Buffer>, b: Buffer, n: nat, k: int) {
    && (k in c.capture <==> k in r.capture || PlannedBelow(p, n, k)) && (k in c.capture ==> k in c.rings)
    && (k in c.rings <==> k in r.rings || PlannedBelow(p, n, k))
    && (k in c.rings ==> RingClaim(c, k, buffers, buffers - r.todo + if PlannedBelow(p, n, k) then {b} else {}))
  }

  lemma {:induction false} CaptureAllKeeps(r: Rec, p: Pass, buffers: set<Buffer>, b: Buffer, rows: seq<State>, n: nat, k: int)
    requires n <= |p.slots| == |p.planned| == |rows| && SlotsWithin(p.slots, |r.slotHist|)
    requires b in r.todo && r.todo <= buffers && |r.slotHist| == |r.target|
    requires k in r.rings ==> RingClaim(r, k, buffers, buffers - r.todo)
    requires k in r.capture ==> k in r.rings
    requires k in r.capture <==> r.todo != buffers && Planned(p, k)
    requires forall i :: 0 <= i < |p.slots| ==> rows[i] == r.target[p.slots[i]] && PlanFits(r, p, i)
    ensures CaptureClaim(r, CaptureAll(r, p, b, rows, n), p, buffers, b, n, k)
  {
    hide RingClaim;
    if n == 0 {
      assert buffers - r.todo + {} == buffers - r.todo;
    } else {
      CaptureAllKeeps(r, p, buffers, b, rows, n - 1, k);
      var prev, c, j := CaptureAll(r, p, b, rows, n - 1), CaptureAll(r, p, b, rows, n), p.slots[n - 1];
      assert PlanFits(r, p, n - 1);
      assert PlannedBelow(p, n, k) <==> PlannedBelow(p, n - 1, k) || (j == k && p.planned[n - 1] >= 0);
      if p.planned[n - 1] >= 0 {
        if j == k {
          assert !PlannedBelow(p, n - 1, k) && Planned(p, k);
          assert buffers - r.todo + {} == buffers - r.todo;
          CapturedKeeps(prev, buffers, k, p.planned[n - 1], b);
        } else {
          CapturedElsewhere(prev, j, p.planned[n - 1], b, rows[n - 1], k);
          if k in prev.rings {
            OtherClaim(prev, c, buffers, k, buffers - r.todo + if PlannedBelow(p, n - 1, k) then {b} else {});
          }
        }
      }
    }
  }

  lemma CapturedElsewhere(r: Rec, j: int, pos: int, b: Buffer, row: State, k: int)
    requires k != j
    ensures var c := Captured(r, j, pos, b, row);
      && (k in c.capture <==> k in r.capture) && (k in c.capture ==> c.capture[k] == r.capture[k])
      && (k in c.rings <==> k in r.rings) && (k in c.rings ==> c.rings[k] == r.rings[k])
  {
  }

  /** UpdateConvState and UpdateRecurrentState: the rows written, the planned checkpoints taken. */
  ghost function Updated(r: Rec, p: Pass, b: Buffer, rows: seq<State>): Rec
    requires |rows| == |p.slots| == |p.planned| && SlotsWithin(p.slots, |r.slotHist|)
    requires b in r.states ==> |r.states[b]| == |r.slotHist|
  {
    Written(CaptureAll(r, p, b, rows, |rows|), b, p.slots, rows)
  }

  /** The pass is over once nothing is left to update. */
  function After(r: Rec, p: Pass): Pass {
    if r.todo == {} then p.(tokens := map[]) else p
  }

  /** The rows hold what the pass is to fold into each of its slots. */
  ghost predicate RowsFor(r: Rec, p: Pass, rows: seq<State>) {
    && |r.target| == |r.slotHist| && |rows| == |p.slots| == |p.planned| && SlotsWithin(p.slots, |r.target|)
    && forall i :: 0 <= i < |p.slots| ==> rows[i] == r.target[p.slots[i]]
  }

  /** The planned positions fit because the histories of the KV cache are exactly the target. */
  lemma PlansFit(hist: map<int, seq<Token>>, r: Rec, p: Pass, buffers: set<Buffer>)
    requires TableOk(r.table) && r.todo != {} && PassInv(r, p, buffers) && p.writable && SyncOk(hist, r, p)
    ensures forall i :: 0 <= i < |p.slots| ==> PlanFits(r, p, i)
  {
    hide TableOk;
    forall i | 0 <= i < |p.slots| ensures PlanFits(r, p, i) {
      assert InPass(r, p, i) && Private(r, p, i) && PlannedOk(hist, p, i);
      if p.slots[i] !in r.tainted {
        assert InStep(hist, r, p, p.seqs[i]);
      }
    }
  }

  lemma ClaimGrows(r: Rec, c: Rec, p: Pass, buffers: set<Buffer>, b: Buffer, k: int)
    requires CaptureClaim(r, c, p, buffers, b, |p.slots|, k) && k in c.rings && c.todo == r.todo
    requires |p.slots| == |p.planned| && |r.target| == |r.slotHist| && forall i :: 0 <= i < |p.slots| ==> PlanFits(r, p, i)
    requires k in r.capture ==> Planned(p, k)
    ensures RingClaim(c, k, buffers, buffers - c.todo + {b})
  {
    hide EntryClaim;
    if Planned(p, k) {
      var i :| 0 <= i < |p.slots| && i < |p.planned| && p.slots[i] == k && p.planned[i] != -1;
      assert PlanFits(r, p, i) && PlannedBelow(p, |p.slots|, k);
    }
  }

  /** The state an update leaves is sound. */
  lemma UpdatedKeeps(hist: map<int, seq<Token>>, r: Rec, p: Pass, buffers: set<Buffer>, b: Buffer, rows: seq<State>)
    requires RecOk(r, buffers) && PassInv(r, p, buffers) && p.writable && b in r.todo && RowsFor(r, p, rows)
    requires SyncOk(hist, r, p)
    ensures b in r.states ==> |r.states[b]| == |r.slotHist|
    ensures RecOk(Updated(r, p, b, rows), buffers)
  {
    PlansFit(hist, r, p, buffers);
    var c := CaptureAll(r, p, b, rows, |rows|);
    hide RingClaim, TableOk, CaptureAll, PassShape, Private, InPass, CaptureClaim;
    forall k | k in c.rings ensures RingClaim(c, k, buffers, buffers - c.todo + {b}) {
      CaptureAllKeeps(r, p, buffers, b, rows, |rows|, k);
      ClaimGrows(r, c, p, buffers, b, k);
    }
    assert RowsHeld(c, buffers) by {
      forall b', k | b' in buffers && 0 <= k < |c.slotHist| ensures RowHeld(c, b', k) {
        assert RowHeld(r, b', k);
      }
    }
    WrittenKeeps(c, buffers, b, p.slots, rows);
  }

  lemma UpdatedIs(r: Rec, p: Pass, b: Buffer, rows: seq<State>)
    requires |rows| == |p.slots| == |p.planned| && SlotsWithin(p.slots, |r.slotHist|)
    requires b in r.states ==> |r.states[b]| == |r.slotHist|
    ensures var u, w := Updated(r, p, b, rows), Written(r, b, p.slots, rows);
      && u == w.(rings := u.rings, capture := u.capture)
      && u.rings == CaptureAll(r, p, b, rows, |rows|).rings && u.capture == CaptureAll(r, p, b, rows, |rows|).capture
  {
  }

  /** The pass an update leaves is sound: under way with one buffer fewer to go, or over. */
  lemma UpdatedPass(hist: map<int, seq<Token>>, r: Rec, p: Pass, buffers: set<Buffer>, b: Buffer, rows: seq<State>)
    requires RecOk(r, buffers) && PassInv(r, p, buffers) && p.writable && b in r.todo && RowsFor(r, p, rows)
    requires SyncOk(hist, r, p)
    ensures b in r.states ==> |r.states[b]| == |r.slotHist|
    ensures PassInv(Updated(r, p, b, rows), After(Updated(r, p, b, rows), p), buffers)
  {
    var u := Updated(r, p, b, rows);
    UpdatedIs(r, p, b, rows);
    if u.todo != {} {
      assert u.todo != buffers;
      PlansFit(hist, r, p, buffers);
      forall i | 0 <= i < |p.seqs| ensures InPass(u, p, i) && Private(u, p, i) {
        assert InPass(r, p, i) && Private(r, p, i);
      }
      forall k ensures (k in u.capture <==> Planned(p, k)) && (k in u.capture ==> k in u.rings) {
        UpdatedCapture(r, p, buffers, b, rows, k);
      }
    }
  }

  lemma UpdatedCapture(r: Rec, p: Pass, buffers: set<Buffer>, b: Buffer, rows: seq<State>, k: int)
    requires RecOk(r, buffers) && PassInv(r, p, buffers) && p.writable && b in r.todo && RowsFor(r, p, rows)
    requires forall i :: 0 <= i < |p.slots| ==> PlanFits(r, p, i)
    ensures var c := CaptureAll(r, p, b, rows, |rows|);
      (k in c.capture <==> Planned(p, k)) && (k in c.capture ==> k in c.rings)
  {
    hide RingClaim, CaptureAll;
    if k in r.rings {
      RingInRange(r, buffers, k);
    }
    CaptureAllKeeps(r, p, buffers, b, rows, |rows|, k);
    if Planned(p, k) {
      var i :| 0 <= i < |p.slots| && i < |p.planned| && p.slots[i] == k && p.planned[i] != -1;
      assert PlanFits(r, p, i) && PlannedBelow(p, |p.slots|, k);
    }
  }

  /** Copy-on-write refinement, at the write: with private slots, a pass's rows reach the
      sequences they are meant for and nobody else, in the pass or outside it. */
  lemma WriteIsPrivate(r: Rec, p: Pass, buffers: set<Buffer>, b: Buffer, rows: seq<State>, s: int, c: Buffer)
    requires RecOk(r, buffers) && PassInv(r, p, buffers) && p.writable && b in r.todo && |rows| == |p.slots|
    ensures b in r.states ==> |r.states[b]| == |r.slotHist|
    ensures forall i :: 0 <= i < |p.seqs| && p.seqs[i] == s ==> Read(Updated(r, p, b, rows), s, b) == rows[i]
    ensures c != b || s !in p.seqs ==> Read(Updated(r, p, b, rows), s, c) == Read(r, s, c)
  {
    UpdatedIs(r, p, b, rows);
    hide RecOk, Updated;
    if s in r.table.slotForSeq {
      var k := r.table.slotForSeq[s];
      assert TableOk(r.table) && RowsHeld(r, buffers) by { RecParts(r, buffers); }
      WrittenRow(r, b, p.slots, rows, k);
      forall i | 0 <= i < |p.seqs| && p.seqs[i] == s ensures p.slots[i] == k {
        assert InPass(r, p, i);
      }
      if k in p.slots && s !in p.seqs {
        var i :| 0 <= i < |p.slots| && p.slots[i] == k;
        assert InPass(r, p, i) && Private(r, p, i);
        SoleUser(r.table, p.seqs[i], s);
      }
    } else {
      forall i | 0 <= i < |p.seqs| ensures p.seqs[i] != s {
        assert InPass(r, p, i);
      }
    }
  }

  lemma RecParts(r: Rec, buffers: set<Buffer>)
    requires RecOk(r, buffers)
    ensures TableOk(r.table) && RowsHeld(r, buffers)
  {
  }

  /** When the last buffer is written, the private state of each sequence of the pass has moved
      on by its tokens and that of every other sequence is what it was. */
  lemma FinishFolds(r: Rec, p: Pass, buffers: set<Buffer>, b: Buffer, rows: seq<State>, s: int)
    requires RecOk(r, buffers) && PassInv(r, p, buffers) && p.writable && r.todo == {b} && |rows| == |p.slots|
    ensures b in r.states ==> |r.states[b]| == |r.slotHist|
    ensures Folded(Updated(r, p, b, rows), s) == Folded(r, s) + if s in p.tokens then p.tokens[s] else []
  {
    UpdatedIs(r, p, b, rows);
    hide Updated;
    if s in p.tokens {
      var i :| 0 <= i < |p.seqs| && p.seqs[i] == s;
      assert InPass(r, p, i) && Private(r, p, i);
    } else if s in r.table.slotForSeq {
      var k := r.table.slotForSeq[s];
      if k in p.slots {
        var i :| 0 <= i < |p.slots| && p.slots[i] == k;
        assert InPass(r, p, i) && Private(r, p, i);
        SoleUser(r.table, p.seqs[i], s);
      }
    }
  }

  /** An update keeps private states and KV histories in step. */
  lemma UpdatedSync(hist: map<int, seq<Token>>, r: Rec, p: Pass, buffers: set<Buffer>, b: Buffer, rows: seq<State>)
    requires RecOk(r, buffers) && PassInv(r, p, buffers) && p.writable && b in r.todo && |rows| == |p.slots|
    requires SyncOk(hist, r, p)
    ensures b in r.states ==> |r.states[b]| == |r.slotHist|
    ensures var u := Updated(r, p, b, rows);
      && SyncOk(hist, u, After(u, p)) && forall s :: InStep(hist, r, p, s) ==> InStep(hist, u, After(u, p), s)
  {
    UpdatedIs(r, p, b, rows);
    var u := Updated(r, p, b, rows);
    var q := After(u, p);
    forall s | InStep(hist, r, p, s) ensures InStep(hist, u, q, s) {
      if u.todo == {} {
        assert r.todo == {b};
        FinishFolds(r, p, buffers, b, rows, s);
      }
    }
    forall i | 0 <= i < |q.planned| && i < |q.seqs| && u.todo != {} ensures PlannedOk(hist, q, i) {
      assert PlannedOk(hist, p, i);
    }
  }

  lemma {:induction false} CaptureCommutes(r: Rec, p: Pass, b: Buffer, rows: seq<State>, n: nat, states: map<Buffer, seq<State>>)
    requires n <= |p.slots| == |p.planned| == |rows|
    ensures CaptureAll(r.(states := states), p, b, rows, n) == CaptureAll(r, p, b, rows, n).(states := states)
  {
    if n > 0 {
      CaptureCommutes(r, p, b, rows, n - 1, states);
    }
  }

  /** Every slot a checkpoint is planned for is ready to take it. */
  lemma CaptureReady(r: Rec, p: Pass, buffers: set<Buffer>, b: Buffer, rows: seq<State>, n: nat)
    requires RecOk(r, buffers) && PassInv(r, p, buffers) && p.writable && b in r.todo && RowsFor(r, p, rows) && n < |p.slots|
    requires forall i :: 0 <= i < |p.slots| ==> PlanFits(r, p, i)
    ensures var c, k := CaptureAll(r, p, b, rows, n), p.slots[n];
      RingShape(RingAt(c.rings, k)) && Capturable(WithRing(c, k), k)
  {
    var c, k := CaptureAll(r, p, b, rows, n), p.slots[n];
    if k in r.rings {
      RingInRange(r, buffers, k);
    }
    CaptureAllKeeps(r, p, buffers, b, rows, n, k);
    FreshRingEmpty(CHECKPOINT_COUNT);
    hide CaptureAll, EntryClaim, RecOk, PassInv;
  }

  /** Between passes every buffer, created or not, reads for a sequence exactly its private state. */
  lemma IdleReads(r: Rec, buffers: set<Buffer>, s: int, b: Buffer)
    requires RecOk(r, buffers) && r.todo == {} && b in buffers
    ensures Read(r, s, b) == Folded(r, s)
  {
    RecParts(r, buffers);
    if s in r.table.slotForSeq {
      assert RowHeld(r, b, r.table.slotForSeq[s]);
    }
  }

  // ---------- copies ----------

  /** CopyPrefix: dst gives up its slot, its checkpoints staying, and joins src in its. */
  function Copied(r: Rec, src: int, dst: int): Rec {
    var t := r.table;
    var d := if dst in t.slotForSeq && 0 <= t.slotForSeq[dst] < |t.refCount| then Released(r, dst, false) else r;
    if src in d.table.slotForSeq && 0 <= d.table.slotForSeq[src] < |t.refCount| then Shared(d, src, dst) else d
  }

  /** A copied sequence starts with the source's state, and no other sequence is affected. */
  lemma CopiedKeeps(r: Rec, buffers: set<Buffer>, src: int, dst: int)
    requires RecOk(r, buffers) && r.todo == {} && src != dst
    ensures RecOk(Copied(r, src, dst), buffers)
    ensures forall q :: Folded(Copied(r, src, dst), q) == Folded(r, if q == dst then src else q)
  {
    var d := r;
    if dst in r.table.slotForSeq {
      ReleasedKeeps(r, buffers, dst, false);
      d := Released(r, dst, false);
    }
    RecParts(r, buffers);
    RecParts(d, buffers);
    if src in d.table.slotForSeq {
      SharedKeeps(d, buffers, src, dst);
    }
  }

  // ---------- rollback ----------

  lemma CutTail(h: seq<Token>, begin: int)
    requires |h| <= MAX_INT32 && 0 <= begin
    ensures Cut(h, begin, MAX_INT32) == Prefix(h, begin)
  {
  }

  /** Rollback agreement. The best checkpoint below t of a sequence in step with its history,
      restored: it kept k <= t tokens, and the private state, in every buffer, is the fold of
      exactly the first k tokens of the KV history. */
  lemma RollbackAgrees(hist: map<int, seq<Token>>, r: Rec, p: Pass, buffers: set<Buffer>,
                       s: int, t: int, idx: int, ring: Ring, b: Buffer)
    requires RecOk(r, buffers) && r.todo == {} && p.tokens == map[] && HistOk(hist)
    requires s in r.table.slotForSeq && r.table.slotForSeq[s] in r.rings
    requires IsBest(r.rings[r.table.slotForSeq[s]].entries, t, idx)
    requires ring.entries == PruneEntries(r.rings[r.table.slotForSeq[s]].entries, r.rings[r.table.slotForSeq[s]].entries[idx].pos)
    requires Rebuilt(ring, r.rings[r.table.slotForSeq[s]].entries[idx].pos)
    requires InStep(hist, r, p, s) && r.table.slotForSeq[s] !in r.tainted && t <= |Hist(hist, s)| && b in buffers
    ensures 0 <= r.table.slotForSeq[s] < |r.slotHist| == |r.target|
    ensures EntryAny(r.rings[r.table.slotForSeq[s]].entries[idx], buffers)
    ensures var kept := r.rings[r.table.slotForSeq[s]].entries[idx].pos + 1;
      var d := Restored(r, buffers, r.table.slotForSeq[s], idx, ring);
      kept <= t && Folded(d, s) == Cut(Hist(hist, s), kept, MAX_INT32) == Hist(hist, s)[..kept] == Read(d, s, b)
  {
    var k := r.table.slotForSeq[s];
    RestoredKeeps(r, buffers, k, idx, ring);
    var d := Restored(r, buffers, k, idx, ring);
    assert EntryClaim(r, k, idx, buffers) by { RingInRange(r, buffers, k); }
    RecParts(d, buffers);
    assert d.table == r.table && d.todo == {};
    hide RecOk, Restored, Rebuilt, PruneEntries, RowOf;
    assert InStep(hist, r, p, s) && |Hist(hist, s)| <= MAX_INT32;
    CutTail(Hist(hist, s), r.rings[k].entries[idx].pos + 1);
    assert RowHeld(d, b, k);
  }

  lemma RestoredOthers(r: Rec, d: Rec, s: int)
    requires TableOk(r.table) && s in r.table.slotForSeq && r.table.refCount[r.table.slotForSeq[s]] == 1
    requires d.table == r.table && |d.slotHist| == |r.slotHist|
    requires forall j :: 0 <= j < |r.slotHist| && j != r.table.slotForSeq[s] ==> d.slotHist[j] == r.slotHist[j]
    ensures forall q :: q != s ==> Folded(d, q) == Folded(r, q)
  {
    forall q | q != s && q in r.table.slotForSeq ensures Folded(d, q) == Folded(r, q) {
      SoleUser(r.table, s, q);
    }
  }

  // ---------- checkpoints that outlive their sequence ----------

  /** CanResume, on the recurrent side: a live checkpoint below pos. */
  ghost predicate HasCheckpoint(r: Rec, s: int, pos: int) {
    s in r.table.slotForSeq && r.table.slotForSeq[s] in r.rings
    && exists i :: 0 <= i < |r.rings[r.table.slotForSeq[s]].entries| && 0 <= r.rings[r.table.slotForSeq[s]].entries[i].pos < pos
  }
}
