/** kvcache/recurrent.go and kvcache/recurrent_checkpoints.go: recurrent state in
    reference-counted slots with copy-on-write, next to a causal cache, with checkpoints to roll
    back to. Every method is proved against the functions of the value model. */
module Recurrent {
  import opened Tokens
  import opened CacheModel
  import opened Forward
  import opened Sharing
  import opened Rows
  import opened Checkpoints
  import opened Slots
  import opened RecurrentModel
  import opened Passes
  import opened Order
  import opened Causal
  import opened Capacity
  import opened RecurrentFacts
  import opened RecurrentSteps

  /** posMax of planCheckpoints. */
  method HighestPositions(batch: Batch) returns (posMax: map<int, int>)
    requires ShapedBatch(batch)
    ensures posMax == Highest(batch, |batch.positions|)
  {
    posMax := map[];
    for i := 0 to |batch.positions|
      invariant posMax == Highest(batch, i)
    {
      var s, pos := batch.sequences[i], batch.positions[i];
      if s !in posMax || pos > posMax[s] {
        posMax := posMax[s := pos];
      }
    }
  }

  class RecurrentCache {
    const kv: Causal
    var maxSequences: nat
    const recurrentStateSize: int

    var slotForSeq: map<int, int>
    var refCount: seq<int>
    var freeSlots: seq<int>
    var states: map<Buffer, seq<State>>

    var checkpoints: map<int, CheckpointStore>
    var pendingRestore: map<int, Restore>
    var curCheckpointPos: seq<int>
    var curCheckpointSlots: map<int, int>

    var curSeqs: seq<int>
    var curSlots: seq<int>
    var curSeqTokens: int
    var writableEnsured: bool
    var writableError: Status

    /** The state buffers the model uses, the checkpoint stores, the value of the cache, and the
        tokens of the pass under way. */
    ghost const buffers: set<Buffer>
    ghost var stores: set<CheckpointStore>
    ghost var m: Rec
    ghost var tokens: map<int, State>

    ghost function P(): Pass
      reads this`curSeqs, this`curSlots, this`tokens, this`curCheckpointPos, this`writableEnsured, this`writableError
    {
      Pass(curSeqs, curSlots, tokens, curCheckpointPos, writableEnsured && writableError == Ok)
    }

    /** What the theorems about runs see of the cache. */
    ghost function S(): Sys
      reads this`curSeqs, this`curSlots, this`tokens, this`curCheckpointPos, this`writableEnsured, this`writableError, this`m, kv`hist
    {
      Sys(kv.hist, m, P())
    }

    /** The slots and state buffers are those of the value. */
    ghost predicate Tied()
      reads this`slotForSeq, this`refCount, this`freeSlots, this`states, this`curCheckpointSlots, this`m,
            this`maxSequences
    {
      && m.table.slotForSeq == slotForSeq && m.table.refCount == refCount && m.table.free == freeSlots
      && m.states == states && m.capture == curCheckpointSlots && |refCount| == maxSequences
    }

    /** Every slot's store is its own object, and holds the slot's ring. */
    ghost predicate StoresKept()
      reads this`checkpoints, this`m, this`stores, stores
    {
      && checkpoints.Keys == m.rings.Keys && (forall k :: k in checkpoints ==> checkpoints[k] in stores)
      && (forall k :: k in checkpoints ==> checkpoints[k].Value() == m.rings[k])
      && (forall j, k :: j in checkpoints && k in checkpoints && j != k ==> checkpoints[j] != checkpoints[k])
    }

    /** The slots, the state and the checkpoints are sound. */
    ghost predicate Core()
      reads this`slotForSeq, this`refCount, this`freeSlots, this`states, this`curCheckpointSlots, this`m,
            this`checkpoints, this`stores, this`maxSequences, stores
    {
      Tied() && StoresKept() && RecOk(m, buffers)
    }

    lemma CoreParts()
      requires Core()
      ensures RecOk(m, buffers) && buffers != {} && |m.table.refCount| == maxSequences
    {
    }

    /** The sequences of a pass under way are those of the batch, in the order of first appearance. */
    ghost predicate Lined()
      reads this`m, this`curSeqs, kv`curBatch
    {
      m.todo != {} ==> SeqsOf(kv.curBatch, curSeqs)
    }

    /** The slots and the pass under way are sound, the KV cache is sound and keeps everything, and
        the checkpoints planned are at the ends of histories. */
    ghost predicate Valid()
      reads this, stores, kv, kv.cells
    {
      && Core() && PassInv(m, P(), buffers) && Lined()
      && kv.Valid() && kv.memorySize == MAX_INT32 && SyncOk(kv.hist, m, P())
    }

    /** NewRecurrentCache: no window, and nothing stored. */
    constructor (stateSize: int, shifts: bool, ghost layers: set<int>, ghost buffers: set<Buffer>)
      ensures this.buffers == buffers && recurrentStateSize == stateSize && kv.layers == layers && fresh(kv)
      ensures kv.windowSize == 0 && kv.memorySize == 0 && kv.keys == map[]
      ensures slotForSeq == map[] && states == map[] && checkpoints == map[] && tokens == map[]
      ensures curSeqs == [] && !writableEnsured && m.todo == {}
    {
      var causal := new Causal(0, 0, 0, shifts, layers);
      kv, maxSequences, recurrentStateSize := causal, 0, stateSize;
      slotForSeq, refCount, freeSlots, states := map[], [], [], map[];
      checkpoints, pendingRestore, curCheckpointPos, curCheckpointSlots := map[], map[], [], map[];
      curSeqs, curSlots, curSeqTokens, writableEnsured, writableError := [], [], 0, false, Ok;
      this.buffers, stores, tokens := buffers, {}, map[];
      m := Rec(Table(map[], [], []), map[], map[], [], [], {}, map[], {});
    }

    // ---------- the slot allocator ----------

    method AllocSlot() returns (slot: int, status: Status)
      modifies this`freeSlots
      ensures old(freeSlots) == [] ==> status == Err(CacheFull) && freeSlots == []
      ensures old(freeSlots) != [] ==> status == Ok && old(freeSlots) == freeSlots + [slot]
    {
      if |freeSlots| == 0 {
        return 0, Err(CacheFull);
      }
      slot := freeSlots[|freeSlots| - 1];
      freeSlots := freeSlots[..|freeSlots| - 1];
      status := Ok;
    }

    method FreeSlot(slot: int)
      modifies this`freeSlots
      ensures freeSlots == if 0 <= slot < maxSequences then old(freeSlots) + [slot] else old(freeSlots)
    {
      if slot >= 0 && slot < maxSequences {
        freeSlots := freeSlots + [slot];
      }
    }

    /** zeroSlots, over the created buffers in some order. */
    method ZeroSlots(slots: seq<int>)
      requires Core() && SlotsWithin(slots, |m.slotHist|)
      modifies this`states, this`m
      ensures m == Zeroed(old(m), slots) && Tied() && StoresKept()
    {
      hide Stale, Blank, RingClaim, TableOk, RowHeld;
      ZeroRows(slots);
      m := Zeroed(m, slots);
    }

    method ZeroRows(slots: seq<int>)
      requires forall b :: b in states ==> SlotsWithin(slots, |states[b]|)
      modifies this`states
      ensures states == map b | b in old(states) :: Blank(old(states)[b], slots)
    {
      hide Blank, SlotsWithin;
      ghost var before := states;
      var left := states.Keys;
      while left != {}
        invariant left <= states.Keys == before.Keys
        invariant forall b :: b in states ==> states[b] == if b in left then before[b] else Blank(before[b], slots)
        decreases left
      {
        var b := Choose(left);
        left := left - {b};
        SlotsInside(slots, |states[b]|);
        BlankRows(states[b], slots);
        states := states[b := SetRows(states[b], slots, seq(|slots|, _ => []), |slots|)];
      }
    }

    /** copyRecurrentState, over the created buffers in some order. */
    method CopyRecurrentState(srcSlot: int, dstSlot: int)
      requires forall b :: b in states ==> 0 <= srcSlot < |states[b]| && 0 <= dstSlot < |states[b]|
      modifies this`states
      ensures states == CopyRow(old(states), srcSlot, dstSlot)
    {
      ghost var before := states;
      var left := states.Keys;
      while left != {}
        invariant left <= states.Keys == before.Keys
        invariant forall b :: b in states ==>
                    states[b] == if b in left then before[b] else before[b][dstSlot := before[b][srcSlot]]
        decreases left
      {
        var b := Choose(left);
        left := left - {b};
        states := states[b := states[b][dstSlot := states[b][srcSlot]]];
      }
    }

    // ---------- checkpoint stores ----------

    /** checkpointStore: looked up, or made. */
    method CheckpointStoreFor(slot: int) returns (store: CheckpointStore)
      requires StoresKept()
      modifies this`checkpoints, this`m, this`stores
      ensures StoresKept() && slot in checkpoints && store == checkpoints[slot] && old(stores) <= stores
      ensures m == old(m).(rings := old(m).rings[slot := RingAt(old(m).rings, slot)])
      ensures fresh(stores - old(stores))
    {
      if slot in checkpoints {
        return checkpoints[slot];
      }
      store := new CheckpointStore(CHECKPOINT_COUNT);
      checkpoints := checkpoints[slot := store];
      stores := stores + {store};
      m := m.(rings := m.rings[slot := FreshRing(CHECKPOINT_COUNT)]);
    }

    /** copyCheckpoints: nothing to do when the source has none. */
    method CopyCheckpoints(srcSlot: int, dstSlot: int)
      requires StoresKept() && srcSlot != dstSlot
      requires forall k :: k in m.rings ==> |m.rings[k].entries| == CHECKPOINT_COUNT
      modifies this`checkpoints, this`m, this`stores, stores
      ensures StoresKept() && fresh(stores - old(stores)) && old(stores) <= stores
      ensures m == old(m).(rings := m.rings)
      ensures m.rings == if Copies(old(m).rings, srcSlot)
                         then old(m).rings[dstSlot := CopyRing(old(m).rings[srcSlot], RingAt(old(m).rings, dstSlot))]
                         else old(m).rings
    {
      hide CopyRing, StoresKept;
      var any := AnyCheckpoints(srcSlot);
      if !any {
        return;
      }
      var dst := CheckpointStoreFor(dstSlot);
      CopyStore(srcSlot, dstSlot);
    }

    method AnyCheckpoints(slot: int) returns (any: bool)
      requires StoresKept()
      ensures any == Copies(m.rings, slot)
    {
      if slot !in checkpoints {
        return false;
      }
      assert checkpoints[slot].Value() == m.rings[slot];
      any := checkpoints[slot].size != 0;
    }

    method CopyStore(src: int, dst: int)
      requires StoresKept() && src != dst && src in m.rings && dst in m.rings && |m.rings[src].entries| == |m.rings[dst].entries|
      modifies this`m, stores
      ensures StoresKept() && m == old(m).(rings := old(m).rings[dst := CopyRing(old(m).rings[src], old(m).rings[dst])])
    {
      hide CopyRing;
      checkpoints[dst].CopyFrom(checkpoints[src]);
      m := m.(rings := m.rings[dst := CopyRing(m.rings[src], m.rings[dst])]);
    }

    // ---------- StartForward ----------

    /** The slot of s, one off the free list when it has none. */
    method TakeSlot(s: int) returns (slot: int, isNew: bool, status: Status)
      requires Tied() && TableOk(m.table)
      modifies this`slotForSeq, this`refCount, this`freeSlots, this`m
      ensures Tied()
      ensures s in old(m).table.slotForSeq ==> status == Ok && !isNew && m == old(m) && slot == m.table.slotForSeq[s]
      ensures s !in old(m).table.slotForSeq && old(m).table.free == [] ==> status == Err(CacheFull) && m == old(m)
      ensures s !in old(m).table.slotForSeq && old(m).table.free != [] ==>
                status == Ok && isNew && m == Taken(old(m), s) && slot == old(m).table.free[|old(m).table.free| - 1]
    {
      hide TableOk, Taken;
      if s in slotForSeq {
        return slotForSeq[s], false, Ok;
      }
      ghost var d := TakenFacts(m, s);
      slot, status := AllocSlot();
      isNew := true;
      if status.Err? {
        return;
      }
      slotForSeq := slotForSeq[s := slot];
      refCount := refCount[slot := 1];
      m := d;
    }

    /** Slots for the sequences of the batch; the ones taken are still to be zeroed. */
    method TakeSlots() returns (taken: seq<int>, status: Status)
      requires Tied() && RecOk(m, buffers) && m.todo == {} && Distinct(curSeqs)
      modifies this`slotForSeq, this`refCount, this`freeSlots, this`curSlots, this`m
      ensures Tied() && RecOk(m, buffers) && m.rings == old(m).rings && m.todo == {}
      ensures status.Ok? ==> Taking(old(m), m, curSeqs, |curSeqs|, curSlots, taken)
      ensures status.Err? ==> status == Err(CacheFull) && OutOfSlots(old(m), m, curSeqs)
    {
      hide RecOk, Taking, Tied, OutOfSlots;
      curSlots, taken := [], [];
      TakingNone(m, curSeqs);
      ghost var r := m;
      for i := 0 to |curSeqs|
        invariant Tied() && RecOk(m, buffers) && m.rings == r.rings && m.todo == {} && Taking(r, m, curSeqs, i, curSlots, taken)
      {
        ghost var d := m;
        RecParts(d, buffers);
        var slot, isNew;
        slot, isNew, status := TakeSlot(curSeqs[i]);
        if status.Err? {
          TakingRunsOut(r, d, buffers, curSeqs, i, curSlots, taken);
          return;
        }
        if isNew {
          TakingNew(r, d, buffers, curSeqs, i, curSlots, taken);
          TakenKeeps(d, buffers, curSeqs[i]);
          taken := taken + [slot];
        } else {
          TakingKnown(r, d, curSeqs, i, curSlots, taken);
        }
        curSlots := curSlots + [slot];
      }
      status := Ok;
    }

    /** Slots for the sequences of the batch, with nothing in those that are new. */
    method GiveSlots() returns (status: Status)
      requires Core() && m.todo == {} && Distinct(curSeqs)
      modifies this`slotForSeq, this`refCount, this`freeSlots, this`curSlots, this`states, this`m
      ensures Core()
      ensures status.Ok? ==> m == Given(old(m), curSeqs) && Placing(m.table, curSeqs, curSlots)
                             && |Unmapped(old(m).table, curSeqs, |curSeqs|)| <= |old(m).table.free|
      ensures status.Err? ==> status == Err(CacheFull) && OutOfSlots(old(m), m, curSeqs)
    {
      hide RecOk, Taking, Zeroed, Given, OutOfSlots, Placing, SlotsWithin, Tied, Unmapped;
      ghost var r := m;
      var taken;
      taken, status := TakeSlots();
      if status.Err? {
        return;
      }
      ghost var d := m;
      TakingFits(r, d, buffers, curSeqs, curSlots, taken);
      GivenNow(r, d, buffers, curSeqs, curSlots, taken);
      if |taken| > 0 {
        ZeroSlots(taken);
      }
    }

    /** The order of first appearance, and how many tokens each sequence brings. */
    method BatchSequences(batch: Batch) returns (counts: map<int, int>)
      requires ShapedBatch(batch)
      modifies this`curSeqs
      ensures SeqsOf(batch, curSeqs) && curSeqs != []
      ensures forall i :: 0 <= i < |curSeqs| ==>
                curSeqs[i] in counts && counts[curSeqs[i]] == Count(batch.sequences, |batch.sequences|, curSeqs[i])
    {
      hide FirstSeen, SeqsOf;
      var ss := batch.sequences;
      curSeqs, counts := [], map[];
      SeenNone();
      for i := 0 to |ss|
        invariant FirstSeen(ss[..i], curSeqs) && (i > 0 ==> curSeqs != [])
        invariant forall s :: s in counts <==> s in curSeqs
        invariant forall s :: s in counts ==> counts[s] == Count(ss, i, s)
      {
        var s := ss[i];
        SeenMore(ss[..i], s, curSeqs);
        NotCounted(ss, i, s, curSeqs);
        assert ss[..i + 1] == ss[..i] + [s];
        if s !in counts {
          curSeqs := curSeqs + [s];
          counts := counts[s := 1];
        } else {
          counts := counts[s := counts[s] + 1];
        }
      }
      assert ss[..|ss|] == ss && forall i :: 0 <= i < |curSeqs| ==> curSeqs[i] in curSeqs;
      SeenAll(batch, curSeqs);
    }

    /** The body of planCheckpoints' second loop: the position planned for the i-th sequence. */
    method PlanOne(i: nat, pos: int, ghost before: Rec) returns (planned: int)
      requires StoresKept() && i < |curSlots| && GrownFrom(before, m, curSlots)
      modifies this`checkpoints, this`m, this`stores
      ensures StoresKept() && fresh(stores - old(stores)) && GrownFrom(before, m, curSlots)
      ensures planned == PlanAt(before.rings, curSlots[i], pos)
    {
      if pos < CHECKPOINT_MIN_POS {
        return -1;
      }
      var store := CheckpointStoreFor(curSlots[i]);
      var lastPos := store.lastPos;
      assert lastPos == m.rings[curSlots[i]].lastPos == RingAt(before.rings, curSlots[i]).lastPos;
      planned := if lastPos < 0 || pos - lastPos >= CHECKPOINT_INTERVAL then pos else -1;
    }

    /** planCheckpoints. */
    method PlanCheckpoints(batch: Batch)
      requires Tied() && StoresKept() && ShapedBatch(batch) && |curSlots| == |curSeqs|
      modifies this`checkpoints, this`m, this`stores, this`curCheckpointPos, this`curCheckpointSlots
      ensures Tied() && StoresKept() && fresh(stores - old(stores)) && GrownFrom(old(m).(capture := map[]), m, curSlots)
      ensures PlannedFor(old(m).rings, batch, curSeqs, curSlots, curCheckpointPos)
    {
      hide Grown, PlanAt, StoresKept;
      ClearCapture();
      ghost var before := m;
      GrownNone(before, curSlots);
      curCheckpointPos := seq(|curSeqs|, _ => -1);
      var posMax := HighestPositions(batch);
      for i := 0 to |curSeqs|
        invariant StoresKept() && fresh(stores - old(stores)) && curCheckpointSlots == map[]
        invariant GrownFrom(before, m, curSlots) && |curCheckpointPos| == |curSeqs|
        invariant forall j :: 0 <= j < i && curSeqs[j] in posMax ==>
                    curCheckpointPos[j] == PlanAt(before.rings, curSlots[j], posMax[curSeqs[j]])
      {
        if curSeqs[i] in posMax {
          var planned := PlanOne(i, posMax[curSeqs[i]], before);
          curCheckpointPos := curCheckpointPos[i := planned];
        }
      }
    }

    method ClearCapture()
      requires Tied() && StoresKept()
      modifies this`m, this`curCheckpointSlots
      ensures Tied() && StoresKept() && m == old(m).(capture := map[])
    {
      curCheckpointSlots := map[];
      m := m.(capture := map[]);
    }

    /** The value moves on where the fields have nothing to follow. */
    ghost method Proceed(d: Rec)
      requires Tied() && StoresKept() && d == m.(slotHist := d.slotHist, target := d.target, todo := d.todo, tainted := d.tainted)
      modifies this`m
      ensures Tied() && StoresKept() && m == d
    {
      m := d;
    }

    ghost method Become(d: Rec)
      requires StoresKept() && d.rings == m.rings
      modifies this`m
      ensures StoresKept() && m == d
    {
      m := d;
    }

    /** finalizeStartForward; before and r are the histories and the state the pass starts from. */
    method FinalizeStartForward(batch: Batch, ghost before: map<int, seq<Token>>, ghost r: Rec)
      requires Core() && RecOk(r, buffers) && r.todo == {} && m == Given(r, curSeqs) && m.rings == r.rings && Continues(before, batch)
      requires SeqsOf(batch, curSeqs) && Placing(m.table, curSeqs, curSlots)
      modifies this`checkpoints, this`m, this`stores, this`curCheckpointPos, this`curCheckpointSlots, this`writableEnsured,
               this`writableError, this`tokens
      ensures Core() && fresh(stores - old(stores)) && Opening(before, batch, r, m, P(), buffers)
    {
      hide RecOk, GrownFrom, ContinuesAt, SeqsOf, Given, PassTokens, Opening, Appended, PlannedFor, StoresKept, Tied;
      writableEnsured, writableError := false, Ok;
      PlanCheckpoints(batch);
      tokens := PassTokens(before, Appended(before, batch, |batch.positions|), curSeqs);
      Begun(before, batch, r, m, P(), buffers);
      Proceed(m.(todo := buffers));
    }

    /** startForwardSingleSeq. */
    method StartForwardSingleSeq(s: int, seqTokens: int, batch: Batch, ghost before: map<int, seq<Token>>) returns (status: Status)
      requires Core() && m.todo == {} && Continues(before, batch) && SeqsOf(batch, [s]) && Even(batch, seqTokens) && tokens == map[]
      modifies this`slotForSeq, this`refCount, this`freeSlots, this`curSlots, this`states, this`m, this`checkpoints, this`stores,
               this`curCheckpointPos, this`curCheckpointSlots, this`writableEnsured, this`writableError, this`tokens,
               this`curSeqs, this`curSeqTokens
      ensures Core() && fresh(stores - old(stores)) && curSeqs == [s] && (status.Ok? ==> curSeqTokens == seqTokens)
      ensures PassOutcome(status, before, batch, old(m), m, P(), buffers)
    {
      hide Core, Opening, Continues, Placing, SeqsOf, OutOfSlots, Given, Unmapped, Even;
      ghost var r := m;
      curSeqs, curSeqTokens := [s], seqTokens;
      CoreParts();
      status := GiveSlots();
      if status.Err? {
        Outcome(status, before, batch, r, m, P(), buffers, seqTokens);
        return;
      }
      GivenRings(r, curSeqs);
      FinalizeStartForward(batch, before, r);
      Outcome(status, before, batch, r, m, P(), buffers, seqTokens);
    }

    /** The rest of StartForward, for batches of several sequences: the recurrent layers need an
        equal number of tokens from each. */
    method StartForwardMultiSeq(batch: Batch, ghost before: map<int, seq<Token>>) returns (status: Status)
      requires Core() && m.todo == {} && Continues(before, batch) && tokens == map[]
      modifies this`slotForSeq, this`refCount, this`freeSlots, this`curSlots, this`states, this`m, this`checkpoints, this`stores,
               this`curCheckpointPos, this`curCheckpointSlots, this`writableEnsured, this`writableError, this`tokens,
               this`curSeqs, this`curSeqTokens
      ensures Core() && fresh(stores - old(stores)) && (status.Ok? ==> Even(batch, curSeqTokens))
      ensures PassOutcome(status, before, batch, old(m), m, P(), buffers)
    {
      hide Core, Opening, ContinuesAt, Placing, Even, OutOfSlots, Given, Unmapped;
      ghost var r := m;
      CoreParts();
      var counts := BatchSequences(batch);
      var want := |batch.sequences| / |curSeqs|;
      for i := 0 to |curSeqs|
        invariant forall j :: 0 <= j < i ==> counts[curSeqs[j]] == want
      {
        if counts[curSeqs[i]] != want {
          UnevenAt(batch, curSeqs, i);
          return Err(NotSupported);
        }
      }
      EvenNow(batch, curSeqs, want);
      curSeqTokens := want;
      status := GiveSlots();
      if status.Err? {
        Outcome(status, before, batch, r, m, P(), buffers, want);
        return;
      }
      GivenRings(r, curSeqs);
      FinalizeStartForward(batch, before, r);
      Outcome(status, before, batch, r, m, P(), buffers, want);
    }

    /** True when every entry of the batch is of the first one's sequence. */
    method SingleSequence(batch: Batch) returns (single: bool)
      requires ShapedBatch(batch)
      ensures single <==> forall j :: 0 <= j < |batch.sequences| ==> batch.sequences[j] == batch.sequences[0]
    {
      for i := 1 to |batch.sequences|
        invariant forall j :: 0 <= j < i ==> batch.sequences[j] == batch.sequences[0]
      {
        if batch.sequences[i] != batch.sequences[0] {
          return false;
        }
      }
      single := true;
    }

    /** The choice between the two paths. */
    method StartPass(batch: Batch, ghost before: map<int, seq<Token>>) returns (status: Status)
      requires Core() && m.todo == {} && Continues(before, batch) && tokens == map[]
      modifies this`slotForSeq, this`refCount, this`freeSlots, this`curSlots, this`states, this`m, this`checkpoints, this`stores,
               this`curCheckpointPos, this`curCheckpointSlots, this`writableEnsured, this`writableError, this`tokens,
               this`curSeqs, this`curSeqTokens
      ensures Core() && fresh(stores - old(stores)) && (status.Ok? ==> Even(batch, curSeqTokens))
      ensures PassOutcome(status, before, batch, old(m), m, P(), buffers)
    {
      hide Core, P, ContinuesAt, Even, SeqsOf, PassOutcome;
      var single := SingleSequence(batch);
      if single {
        OneSequence(batch, batch.sequences[0]);
        status := StartForwardSingleSeq(batch.sequences[0], |batch.sequences|, batch, before);
      } else {
        status := StartForwardMultiSeq(batch, before);
      }
    }

    /** StartForward after the KV cache has stored the batch. */
    method StartStored(batch: Batch, ghost before: map<int, seq<Token>>) returns (status: Status)
      requires Core() && m.todo == {} && tokens == map[] && Continues(before, batch) && Int32Positions(batch)
      modifies this
      ensures Core() && maxSequences == old(maxSequences) && pendingRestore == old(pendingRestore) && fresh(stores - old(stores))
      ensures PassInv(m, P(), buffers) && SyncOk(Appended(before, batch, |batch.positions|), m, P())
      ensures status.Ok? ==> Even(batch, curSeqTokens) && SameStates(m, old(m))
      ensures PassOutcome(status, before, batch, old(m), m, P(), buffers)
    {
      hide Core, ContinuesAt, Even, PassInv, SyncOk, Appended, Int32Positions, PassOutcome, SameStates;
      ghost var r, p := m, P();
      CoreParts();
      status := StartPass(batch, before);
      OutcomeKeeps(status, before, batch, r, p, m, P(), buffers);
    }

    /** StartForward: the KV cache stores the batch, and a pass over equally long sequences is set
        up, which leaves every private state what it was. */
    method StartForward(batch: Batch) returns (status: Status)
      requires Valid() && m.todo == {} && Continues(kv.hist, batch) && Int32Positions(batch)
      requires Settled(kv.cells[..], kv.curLocs, kv.unwritten)
      modifies this, kv, kv.cells
      ensures Valid() && kv.cells == old(kv.cells) && maxSequences == old(maxSequences) && pendingRestore == old(pendingRestore)
      ensures fresh(stores - old(stores))
      ensures if ForwardOutcome(kv.Cfg(), old(kv.M()), batch, false, kv.M()) then status == Err(CacheFull) && S() == old(S())
              else
                ForwardOutcome(kv.Cfg(), old(kv.M()), batch, true, kv.M()) && kv.PassOpen() &&
                PassOutcome(status, old(kv.hist), batch, old(m), m, P(), buffers)
      ensures status.Ok? ==> Step(old(S()), Op.Begin(batch), S(), buffers) && Even(batch, curSeqTokens) && SameStates(m, old(m))
      ensures status.Ok? ==> kv.curBatch == batch && SeqsOf(batch, curSeqs)
      ensures status == Err(NotSupported) ==> Step(old(S()), Op.Refuse(batch), S(), buffers)
      ensures status == Err(CacheFull) ==> S() == old(S()) || Step(old(S()), Op.Starve(batch), S(), buffers)
    {
      hide Core, ContinuesAt, ShapeOk, StoreOk, PassInv, SyncOk, ForwardOutcome, Settled, Causal.PassOpen, Int32Positions, StoredAt,
           PassOutcome, Appended, Even, SameStates, Step, SeqsOf;
      ghost var before, k, a := kv.hist, kv.M(), S();
      IdlePass(m, P(), buffers);
      status := kv.StartForward(batch);
      ForwardHist(kv.Cfg(), k, batch, status.Ok?, kv.M());
      if status.Ok? {
        status := StartStored(batch, before);
        OutcomeSeqs(status, before, batch, a.r, m, P(), buffers);
        OutcomeStep(status, a, batch, S(), buffers);
      }
    }

    // ---------- copy-on-write ----------

    /** s leaves the slot it shares for one with a copy of the state and checkpoints, as
        EnsureWritable and Remove make it do. */
    method Detach(s: int) returns (newSlot: int, status: Status)
      requires Core() && (m.todo == {} || m.capture == map[]) && s in m.table.slotForSeq
      requires 0 <= m.table.slotForSeq[s] < |m.table.refCount| && 1 < m.table.refCount[m.table.slotForSeq[s]]
      modifies this`slotForSeq, this`refCount, this`freeSlots, this`states, this`m, this`checkpoints, this`stores, stores
      ensures Core() && fresh(stores - old(stores))
      ensures status.Ok? ==> IsDetached(old(m), s, m) && newSlot == old(m).table.free[|old(m).table.free| - 1]
      ensures status.Err? ==> status == Err(CacheFull) && m == old(m) && m.table.free == [] && maxSequences < |m.table.slotForSeq|
    {
      hide RecOk, StoresKept, CopyRing, RingAt, CopyRow, Copies, TableOk, IsDetached, Tied;
      ghost var d := DetachFacts(m, buffers, s);
      TiedParts();
      var slot := slotForSeq[s];
      newSlot, status := AllocSlot();
      if status.Err? {
        return;
      }
      CopyRecurrentState(slot, newSlot);
      CopyCheckpoints(slot, newSlot);
      Become(d);
      Rewire(s, slot, newSlot);
      TieAgain();
    }

    /** The bookkeeping of a detached sequence. */
    method Rewire(s: int, slot: int, newSlot: int)
      requires 0 <= slot < |refCount| && 0 <= newSlot < |refCount|
      modifies this`refCount, this`slotForSeq
      ensures refCount == old(refCount)[slot := old(refCount)[slot] - 1][newSlot := 1]
      ensures slotForSeq == old(slotForSeq)[s := newSlot]
    {
      refCount := refCount[slot := refCount[slot] - 1];
      refCount := refCount[newSlot := 1];
      slotForSeq := slotForSeq[s := newSlot];
    }

    /** EnsureWritable: every sequence of the pass that shares its slot leaves it. */
    method EnsureWritable() returns (status: Status)
      requires Core() && m.todo == buffers && PassInv(m, P(), buffers) && !P().writable && SyncOk(kv.hist, m, P())
      modifies this`slotForSeq, this`refCount, this`freeSlots, this`states, this`m, this`checkpoints, this`stores, this`curSlots, stores
      ensures Core() && fresh(stores - old(stores)) && m.todo == buffers && SameStates(m, old(m))
      ensures PassInv(m, P(), buffers) && !P().writable && SyncOk(kv.hist, m, P())
      ensures m == OwningAll(old(m), curSeqs, |curSeqs|)
      ensures status.Ok? ==> AllSole(m, curSlots)
      ensures status.Err? ==> status == Err(CacheFull) && m.table.free == [] && maxSequences < |m.table.slotForSeq|
    {
      hide Core, PassInv, SyncOk, SoleBelow, AllSole, Owning;
      CoreParts();
      ghost var r := m;
      SoleNone(m, P());
      for i := 0 to |curSeqs|
        invariant Core() && fresh(stores - old(stores)) && m.todo == buffers && SameStates(m, r)
        invariant PassInv(m, P(), buffers) && !P().writable && SyncOk(kv.hist, m, P())
        invariant m == OwningAll(r, curSeqs, i) && SoleBelow(m, P(), i)
      {
        status := DetachAt(i);
        if status.Err? {
          OwningShort(r, curSeqs, i, |curSeqs|);
          return;
        }
      }
      AllBelow(m, P(), buffers);
      return Ok;
    }

    /** The loop's body. */
    method DetachAt(i: nat) returns (status: Status)
      requires Core() && m.todo == buffers && PassInv(m, P(), buffers) && !P().writable && SyncOk(kv.hist, m, P())
      requires i < |curSeqs| && SoleBelow(m, P(), i)
      modifies this`slotForSeq, this`refCount, this`freeSlots, this`states, this`m, this`checkpoints, this`stores, this`curSlots, stores
      ensures Core() && fresh(stores - old(stores)) && m.todo == buffers && SameStates(m, old(m))
      ensures PassInv(m, P(), buffers) && !P().writable && SyncOk(kv.hist, m, P())
      ensures status.Ok? ==> m == Owning(old(m), curSeqs[i]) && SoleBelow(m, P(), i + 1)
      ensures status.Err? ==> status == Err(CacheFull) && m == old(m) && m.table.free == [] && maxSequences < |m.table.slotForSeq|
    {
      hide PassInv, SyncOk, SoleBelow, CanDetach, RecOk, StoresKept, Tied;
      CoreParts();
      ghost var r, p := m, P();
      NotWritable(r, p, buffers);
      SoleNext(r, p, buffers, i);
      TiedParts();
      var s := curSeqs[i];
      if s !in slotForSeq || refCount[slotForSeq[s]] <= 1 {
        return Ok;
      }
      var newSlot;
      newSlot, status := Detach(s);
      if status.Ok? {
        curSlots := curSlots[i := newSlot];
        DetachStep(kv.hist, r, m, p, P(), buffers, i);
      }
    }

    /** needsWritable of ensureWritableOnce. */
    method NeedsWritable() returns (needs: bool)
      requires Core() && m.todo == buffers && PassInv(m, P(), buffers)
      ensures needs <==> !AllSole(m, curSlots)
      ensures !needs ==> forall j :: 0 <= j < |curSeqs| ==> !Shares(m, curSeqs[j])
    {
      hide TableOk, RowsHeld, RingClaim, StoresKept, Private, TargetFor;
      RecParts(m, buffers);
      for i := 0 to |curSeqs|
        invariant SoleBelow(m, P(), i) && forall j :: 0 <= j < i ==> !Shares(m, curSeqs[j])
      {
        SoleNext(m, P(), buffers, i);
        var s := curSeqs[i];
        if s in slotForSeq && refCount[slotForSeq[s]] > 1 {
          return true;
        }
      }
      return false;
    }

    /** The part of ensureWritableOnce that makes the slots of the pass private. */
    method OwnSlots() returns (status: Status)
      requires Core() && m.todo == buffers && PassInv(m, P(), buffers) && !P().writable && SyncOk(kv.hist, m, P())
      modifies this`slotForSeq, this`refCount, this`freeSlots, this`states, this`m, this`checkpoints, this`stores, this`curSlots, stores
      ensures Core() && fresh(stores - old(stores)) && m.todo == buffers && SameStates(m, old(m))
      ensures PassInv(m, P(), buffers) && !P().writable && SyncOk(kv.hist, m, P())
      ensures m == OwningAll(old(m), curSeqs, |curSeqs|)
      ensures status.Ok? ==> AllSole(m, curSlots)
      ensures status.Err? ==> status == Err(CacheFull) && m.table.free == [] && maxSequences < |m.table.slotForSeq|
    {
      hide Core, PassInv, SyncOk, AllSole;
      CoreParts();
      SoleNone(m, P());
      var needsWritable := NeedsWritable();
      if needsWritable {
        status := EnsureWritable();
      } else {
        OwningNone(m, curSeqs, |curSeqs|);
        status := Ok;
      }
    }

    /** ensureWritable: the first call of a pass makes its slots private, changing nobody's state;
        later calls repeat its verdict. When slots have run out the pass is given up. */
    method EnsureWritableOnce() returns (status: Status)
      requires Valid() && (writableEnsured || m.todo != {})
      modifies this`slotForSeq, this`refCount, this`freeSlots, this`states, this`m, this`checkpoints, this`stores, this`curSlots,
               this`writableEnsured, this`writableError, this`tokens, stores
      ensures Valid() && fresh(stores - old(stores)) && writableEnsured && status == writableError && SameStates(m, old(m))
      ensures old(writableEnsured) ==> S() == old(S()) && writableError == old(writableError)
      ensures !old(writableEnsured) && status.Ok? ==> m.todo == buffers && Step(old(S()), Op.Own, S(), buffers)
      ensures !old(writableEnsured) && status.Err? ==>
                && status == Err(CacheFull) && m.table.free == [] && maxSequences < |m.table.slotForSeq|
                && Step(old(S()), Op.GiveUp, S(), buffers)
    {
      hide Core, PassInv, SyncOk, SameStates, Causal.Valid, OwningAll, Step;
      SameStatesNow(m);
      if writableEnsured {
        return writableError;
      }
      status := EnsureFirst();
    }

    method EnsureFirst() returns (status: Status)
      requires Valid() && !writableEnsured && m.todo != {}
      modifies this`slotForSeq, this`refCount, this`freeSlots, this`states, this`m, this`checkpoints, this`stores, this`curSlots,
               this`writableEnsured, this`writableError, this`tokens, stores
      ensures Valid() && fresh(stores - old(stores)) && writableEnsured && status == writableError && SameStates(m, old(m))
      ensures status.Ok? ==> m.todo == buffers && Step(old(S()), Op.Own, S(), buffers)
      ensures status.Err? ==> && status == Err(CacheFull) && m.table.free == [] && maxSequences < |m.table.slotForSeq|
                              && Step(old(S()), Op.GiveUp, S(), buffers)
    {
      hide Core, PassInv, SyncOk, AllSole, SameStates, Causal.Valid, OwningAll, IsOpened, Step, SeqsOf, SlotsFor;
      CoreParts();
      ghost var a, r := S(), m;
      NotWritable(r, a.p, buffers);
      status := OwnSlots();
      ghost var mid, q := m, P();
      PassSlots(mid, q, buffers);
      writableEnsured, writableError := true, status;
      SettlePass(status);
      SameStatesChain(m, mid, r);
      if status.Ok? {
        OwnStep(a, mid, q, S(), buffers);
      } else {
        GiveUpStep(a, S(), buffers);
      }
    }

    /** The pass may write, or is given up. */
    ghost method SettlePass(status: Status)
      requires Core() && m.todo == buffers && PassInv(m, P().(writable := false), buffers)
      requires SyncOk(kv.hist, m, P().(writable := false)) && writableEnsured && writableError == status
      requires status.Ok? ==> AllSole(m, curSlots)
      modifies this`m, this`tokens
      ensures Core() && PassInv(m, P(), buffers) && SyncOk(kv.hist, m, P()) && SameStates(m, old(m))
      ensures status.Ok? ==> m.todo == buffers && tokens == old(tokens) && IsOpened(kv.hist, old(m), P().(writable := false), m)
      ensures status.Err? ==> m == old(m).(todo := {}) && tokens == map[]
    {
      hide RecOk, StoresKept, Tied, PassInv, SyncOk, AllSole, Opened;
      ghost var q := P().(writable := false);
      CoreParts();
      NotWritable(m, q, buffers);
      if status.Ok? {
        ghost var d := MayWrite(kv.hist, m, q, buffers);
        Proceed(d);
        assert P() == q.(writable := true);
      } else {
        AbortKeeps(m, buffers);
        tokens := map[];
        Proceed(m.(todo := {}));
        Abandoned(kv.hist, m, P(), buffers);
      }
    }

    lemma TieAgain()
      requires m.table.slotForSeq == slotForSeq && m.table.refCount == refCount && m.table.free == freeSlots
      requires m.states == states && m.capture == curCheckpointSlots && |refCount| == maxSequences
      ensures Tied()
    {
    }

    lemma TiedParts()
      requires Tied()
      ensures m.table.slotForSeq == slotForSeq && m.table.refCount == refCount && m.table.free == freeSlots && m.states == states
      ensures m.capture == curCheckpointSlots && |refCount| == maxSequences
    {
    }

    // ---------- reading and writing state ----------

    /** convBuffer and recurrentBuffer: made at first use. */
    method MakeBuffer(b: Buffer)
      requires Core() && b in buffers
      modifies this`states, this`m
      ensures Core() && m == old(m).(states := Created(old(m).states, b, |old(m).slotHist|)) && b in m.states
      ensures m.states[b] == states[b]
    {
      hide TableOk, RowHeld, RingClaim;
      CreatedKeeps(m, buffers, b);
      if b !in states {
        states := states[b := seq(maxSequences, _ => [])];
      }
      m := m.(states := Created(m.states, b, |m.slotHist|));
    }

    /** Where the current slots start, when they are consecutive and in order. */
    method ContiguousSlots() returns (start: int, ok: bool)
      ensures ok <==> curSlots != [] && forall i :: 0 <= i < |curSlots| ==> curSlots[i] == curSlots[0] + i
      ensures ok ==> start == curSlots[0]
    {
      if |curSlots| == 0 {
        return 0, false;
      }
      start := curSlots[0];
      for i := 0 to |curSlots|
        invariant forall j :: 0 <= j < i ==> curSlots[j] == start + j
      {
        if curSlots[i] != start + i {
          return 0, false;
        }
      }
      ok := true;
    }

    /** Reading through a view of consecutive rows gives the same as gathering the rows. */
    method CurrentSlotRows(b: Buffer) returns (rows: seq<State>)
      requires b in states && SlotsWithin(curSlots, |states[b]|)
      ensures |rows| == |curSlots| && forall i :: 0 <= i < |curSlots| ==> rows[i] == states[b][curSlots[i]]
    {
      var start, ok := ContiguousSlots();
      if ok {
        assert curSlots[0] == start + 0 && curSlots[|curSlots| - 1] == start + |curSlots| - 1;
        return states[b][start..start + |curSlots|];
      }
      var buf, slots := states[b], curSlots;
      return seq(|slots|, i requires 0 <= i < |slots| => buf[slots[i]]);
    }

    /** Writing through a view of consecutive rows does the same as scattering the rows. */
    method WriteCurrentSlotRows(b: Buffer, src: seq<State>)
      requires b in states && SlotsWithin(curSlots, |states[b]|) && |src| == |curSlots|
      modifies this`states
      ensures states == old(states)[b := SetRows(old(states)[b], curSlots, src, |curSlots|)]
    {
      var start, ok := ContiguousSlots();
      if ok {
        var buf := states[b];
        ViewRows(buf, curSlots, src, start);
        states := states[b := buf[..start] + src + buf[start + |src|..]];
      } else {
        states := states[b := SetRows(states[b], curSlots, src, |curSlots|)];
      }
    }

    /** checkpointIndexForSlot: recorded the first time, then looked up. */
    method CheckpointIndexForSlot(slot: int, pos: int) returns (idx: int)
      requires Tied() && StoresKept() && Capturable(WithRing(m, slot), slot)
      requires 0 <= pos < MAX_INT32 && RingShape(RingAt(m.rings, slot))
      modifies this`checkpoints, this`m, this`stores, this`curCheckpointSlots, stores
      ensures Tied() && StoresKept() && fresh(stores - old(stores)) && old(stores) <= stores && slot in checkpoints
      ensures m == Indexed(old(m), slot, pos) && idx == m.capture[slot]
    {
      hide RingShape, RingAt, Recorded, Capturable, Indexed, StoresKept, Tied;
      IndexedParts(m, slot, pos);
      TiedParts();
      var store := CheckpointStoreFor(slot);
      TieAgain();
      if slot in curCheckpointSlots {
        return curCheckpointSlots[slot];
      }
      idx := RecordIn(store, slot, pos);
      TieAgain();
      NoteCapture(slot, idx);
    }

    method NoteCapture(slot: int, idx: int)
      requires Tied() && StoresKept()
      modifies this`m, this`curCheckpointSlots
      ensures Tied() && StoresKept() && m == old(m).(capture := old(m).capture[slot := idx])
    {
      curCheckpointSlots := curCheckpointSlots[slot := idx];
      m := m.(capture := m.capture[slot := idx]);
    }

    method RecordIn(store: CheckpointStore, slot: int, pos: int) returns (idx: int)
      requires StoresKept() && slot in checkpoints && store == checkpoints[slot] && slot in m.rings && |m.rings[slot].entries| > 0
      requires 0 <= pos < MAX_INT32 && RingShape(m.rings[slot])
      modifies this`m, store
      ensures StoresKept() && m == old(m).(rings := old(m).rings[slot := Recorded(old(m).rings[slot], pos)])
      ensures idx == old(m).rings[slot].next
    {
      hide RingShape;
      ghost var d := m.(rings := m.rings[slot := Recorded(m.rings[slot], pos)]);
      idx := store.Record(pos);
      m := d;
    }

    /** One sequence's row copied into its checkpoint. */
    method CaptureOne(slot: int, pos: int, b: Buffer, row: State)
      requires Tied() && StoresKept() && Capturable(WithRing(m, slot), slot)
      requires 0 <= pos < MAX_INT32 && RingShape(RingAt(m.rings, slot))
      modifies this`checkpoints, this`m, this`stores, this`curCheckpointSlots, stores
      ensures Tied() && StoresKept() && fresh(stores - old(stores)) && m == Captured(old(m), slot, pos, b, row)
    {
      hide RingShape, Capturable, Captured, Indexed, RingAt;
      CapturedIs(m, slot, pos, b, row);
      hide Tied, StoresKept;
      var idx := CheckpointIndexForSlot(slot, pos);
      TiedParts();
      SaveRow(slot, idx, b, row);
      TieAgain();
    }

    method SaveRow(slot: int, idx: int, b: Buffer, row: State)
      requires StoresKept() && slot in m.rings && slot in m.capture && idx == m.capture[slot] && 0 <= idx < |m.rings[slot].entries|
      modifies this`m, stores
      ensures StoresKept() && m == Saved(old(m), slot, b, row)
    {
      assert checkpoints[slot].Value() == m.rings[slot];
      ghost var d := Saved(m, slot, b, row);
      checkpoints[slot].Save(idx, b, row);
      m := d;
    }

    /** The rows of the pass written to a buffer, made if need be. */
    method WriteRows(b: Buffer, src: seq<State>)
      requires Core() && b in buffers && SlotsWithin(curSlots, |m.slotHist|) && |src| == |curSlots|
      requires b in m.states ==> |m.states[b]| == |m.slotHist|
      modifies this`states, this`m
      ensures Tied() && StoresKept() && m == old(m).(states := Written(old(m), b, curSlots, src).states)
    {
      hide RecOk, StoresKept, SlotsWithin, SetRows;
      MakeBuffer(b);
      WriteCurrentSlotRows(b, src);
      Become(m.(states := states));
    }

    /** captureConvCheckpoint and captureRecurrentCheckpoint: every planned checkpoint takes its
        sequence's row; r is the state before the rows were written. */
    method CaptureCheckpoint(b: Buffer, src: seq<State>, ghost r: Rec)
      requires Tied() && StoresKept() && m == r.(states := m.states) && RowsFor(r, P(), src) && b in r.todo
      requires RecOk(r, buffers) && PassInv(r, P(), buffers) && P().writable
      requires forall i :: 0 <= i < |curSlots| ==> PlanFits(r, P(), i)
      modifies this`checkpoints, this`m, this`stores, this`curCheckpointSlots, stores
      ensures Tied() && StoresKept() && fresh(stores - old(stores))
      ensures m == CaptureAll(r, P(), b, src, |src|).(states := old(m).states)
    {
      hide RecOk, PassInv, Tied, StoresKept, Capturable, Captured, RingShape, RingAt;
      ghost var written := m.states;
      for i := 0 to |curCheckpointPos|
        invariant Tied() && StoresKept() && fresh(stores - old(stores))
        invariant m == CaptureAll(r, P(), b, src, i).(states := written)
      {
        ghost var p := P();
        assert PlanFits(r, p, i);
        if curCheckpointPos[i] >= 0 {
          CaptureReady(r, p, buffers, b, src, i);
          CapturedCommutes(CaptureAll(r, p, b, src, i), p.slots[i], p.planned[i], b, src[i], written);
          CaptureOne(curSlots[i], curCheckpointPos[i], b, src[i]);
        }
      }
    }

    /** The rows written, the checkpoints taken; d is what that makes of the value. */
    method WriteAndCapture(b: Buffer, newState: seq<State>, ghost d: Rec)
      requires Core() && PassInv(m, P(), buffers) && P().writable && b in m.todo && b in buffers && RowsFor(m, P(), newState)
      requires b in m.states ==> |m.states[b]| == |m.slotHist|
      requires forall i :: 0 <= i < |curSlots| ==> PlanFits(m, P(), i)
      requires SlotsWithin(curSlots, |m.slotHist|) && |newState| == |curSlots| && RecOk(d, buffers)
      requires var c := CaptureAll(m, P(), b, newState, |newState|).(states := Written(m, b, curSlots, newState).states);
        d == c.(slotHist := d.slotHist, todo := d.todo)
      modifies this`states, this`m, this`checkpoints, this`stores, this`curCheckpointSlots, stores
      ensures Core() && fresh(stores - old(stores)) && m == d
    {
      hide RecOk, PassInv, Tied, StoresKept, RowsFor, PlanFits, CaptureAll, Written, SlotsWithin;
      ghost var r := m;
      WriteRows(b, newState);
      CaptureCheckpoint(b, newState, r);
      Proceed(d);
    }

    /** UpdateConvState and UpdateRecurrentState: the new rows, numbered by the order in which the
        sequences appear in the batch, are what each sequence's state becomes with the tokens of the
        pass folded in. */
    method UpdateState(b: Buffer, newState: seq<State>)
      requires Valid() && P().writable && b in m.todo && BatchFolds(kv.curBatch, m, P(), newState)
      modifies this`states, this`m, this`checkpoints, this`stores, this`curCheckpointSlots, this`tokens, stores
      ensures Valid() && fresh(stores - old(stores)) && Step(old(S()), Op.Update(b, newState), S(), buffers)
    {
      hide Core, PassInv, SyncOk, RowsFor, PlanFits, Causal.Valid, CaptureAll, Folding, IsUpdated, Written, SlotsWithin,
           Step, SeqsOf, BatchFolds;
      ghost var a, p := S(), P();
      CoreParts();
      FoldedByEntry(kv.curBatch, m, p, newState);
      ghost var d := UpdateFacts(kv.hist, m, p, buffers, b, newState);
      WriteAndCapture(b, newState, d);
      tokens := After(d, p).tokens;
      UpdateStep(a, b, newState, S(), buffers);
    }

    /** What ConvState and RecurrentState return: for each entry of the batch, at the place of its
        sequence in the order of first appearance, the state of that sequence, with the tokens of
        the pass folded in once the buffer has been updated. */
    method StateRows(b: Buffer) returns (rows: seq<State>)
      requires Valid() && P().writable && m.todo != {} && b in buffers
      modifies this`states, this`m
      ensures Valid() && SameStates(m, old(m)) && Step(old(S()), Op.Fetch(b), S(), buffers)
      ensures BatchRead(kv.curBatch, m, P(), b, rows)
    {
      hide RecOk, PassInv, SyncOk, Tied, StoresKept, Causal.Valid, SlotsWithin, SameStates, SeqsOf, BatchRead;
      ghost var r, p := m, P();
      CoreParts();
      ReadFacts(kv.hist, r, p, buffers, b);
      MakeBuffer(b);
      TiedParts();
      rows := CurrentSlotRows(b);
      ReadByEntry(kv.curBatch, m, P(), b, rows);
    }

    /** Slots ran out while those of the pass were made private: the pass is given up. */
    ghost predicate OutOfRoom(a: Sys, status: Status)
      reads this`curSeqs, this`curSlots, this`tokens, this`curCheckpointPos, this`writableEnsured, this`writableError, this`m, kv`hist,
            this`maxSequences
    {
      && status == Err(CacheFull) && m.table.free == [] && maxSequences < |m.table.slotForSeq|
      && Step(a, Op.GiveUp, S(), buffers)
    }

    method ConvState(layer: int) returns (rows: seq<State>, status: Status)
      requires Valid() && Buffer.ConvState(layer) in buffers && (m.todo != {} || (writableEnsured && writableError.Err?))
      modifies this`slotForSeq, this`refCount, this`freeSlots, this`states, this`m, this`checkpoints, this`stores, this`curSlots,
               this`writableEnsured, this`writableError, this`tokens, stores
      ensures Valid() && fresh(stores - old(stores)) && writableEnsured && SameStates(m, old(m)) && status == writableError
      ensures old(writableEnsured) ==> writableError == old(writableError)
      ensures status.Ok? ==> Reads(old(S()), Buffer.ConvState(layer), S(), buffers)
                             && BatchRead(kv.curBatch, m, P(), Buffer.ConvState(layer), rows)
      ensures status.Err? ==> if old(writableEnsured) then S() == old(S()) else OutOfRoom(old(S()), status)
    {
      hide Core, PassInv, SyncOk, ShapeOk, StoreOk, SameStates, BatchRead, Step, OwningAll, SeqsOf;
      rows := [];
      ghost var a, r := S(), m;
      status := EnsureWritableOnce();
      if status.Err? {
        return;
      }
      ghost var mid := m;
      rows := StateRows(Buffer.ConvState(layer));
      SameStatesChain(m, mid, r);
    }

    /** RecurrentState: the dimensions asked for must multiply to the size of a row. */
    method RecurrentState(layer: int, dims: seq<int>) returns (rows: seq<State>, status: Status)
      requires Valid() && Buffer.RecurrentState(layer) in buffers && (m.todo != {} || (writableEnsured && writableError.Err?))
      modifies this`slotForSeq, this`refCount, this`freeSlots, this`states, this`m, this`checkpoints, this`stores, this`curSlots,
               this`writableEnsured, this`writableError, this`tokens, stores
      ensures Valid() && fresh(stores - old(stores)) && writableEnsured && SameStates(m, old(m))
      ensures status == if writableError.Err? then writableError
                        else if dims == [] || (exists d :: d in dims && d <= 0) || Product(dims, |dims|) != recurrentStateSize
                        then Err(InvalidShape) else Ok
      ensures status.Ok? ==> Reads(old(S()), Buffer.RecurrentState(layer), S(), buffers)
                             && BatchRead(kv.curBatch, m, P(), Buffer.RecurrentState(layer), rows)
      ensures writableError.Err? ==> if old(writableEnsured) then S() == old(S()) else OutOfRoom(old(S()), status)
      ensures status == Err(InvalidShape) && writableError.Ok? ==>
                S() == old(S()) || (!old(writableEnsured) && Step(old(S()), Op.Own, S(), buffers))
    {
      hide Core, PassInv, SyncOk, ShapeOk, StoreOk, SameStates, BatchRead, Step, OwningAll, SeqsOf;
      rows := [];
      ghost var a, r := S(), m;
      status := EnsureWritableOnce();
      if status.Err? {
        return;
      }
      var ok := ShapeFits(dims);
      if !ok {
        return rows, Err(InvalidShape);
      }
      ghost var mid := m;
      rows := StateRows(Buffer.RecurrentState(layer));
      SameStatesChain(m, mid, r);
    }

    method ShapeFits(dims: seq<int>) returns (ok: bool)
      ensures ok <==> dims != [] && (forall d :: d in dims ==> d > 0) && Product(dims, |dims|) == recurrentStateSize
    {
      if |dims| == 0 {
        return false;
      }
      var size := 1;
      for i := 0 to |dims|
        invariant size == Product(dims, i) && forall j :: 0 <= j < i ==> dims[j] > 0
      {
        if dims[i] <= 0 {
          assert dims[i] in dims;
          return false;
        }
        size := size * dims[i];
      }
      ok := size == recurrentStateSize;
    }

    // ---------- sharing, resuming, restoring ----------

    /** clearCheckpoints. */
    method ClearCheckpoints(slot: int)
      requires StoresKept()
      modifies this`m, stores
      ensures StoresKept()
      ensures m == old(m).(rings := if slot in old(m).rings then old(m).rings[slot := ResetRing(old(m).rings[slot])] else old(m).rings)
    {
      if slot in checkpoints {
        ghost var d := m.(rings := m.rings[slot := ResetRing(m.rings[slot])]);
        checkpoints[slot].Reset();
        m := d;
      }
    }

    /** s gives up its slot, as CopyPrefix and Remove make it do. */
    method ReleaseSlot(s: int, clear: bool)
      requires Core() && m.todo == {} && s in m.table.slotForSeq
      modifies this`slotForSeq, this`refCount, this`freeSlots, this`m, stores
      ensures Core() && 0 <= old(m).table.slotForSeq[s] < |old(m).table.refCount|
      ensures m == Released(old(m), s, clear)
    {
      hide RecOk, StoresKept, ResetRing, Released;
      ghost var d := ReleaseFacts(m, buffers, s, clear);
      var slot := slotForSeq[s];
      var freed := DropUser(s, slot);
      if freed && clear {
        ClearCheckpoints(slot);
      }
      Become(d);
    }

    /** The counting part. */
    method DropUser(s: int, slot: int) returns (freed: bool)
      requires 0 <= slot < |refCount| == maxSequences && 1 <= refCount[slot]
      modifies this`slotForSeq, this`refCount, this`freeSlots
      ensures slotForSeq == old(slotForSeq) - {s} && refCount == old(refCount)[slot := old(refCount)[slot] - 1]
      ensures freed == (old(refCount)[slot] <= 1) && freeSlots == if freed then old(freeSlots) + [slot] else old(freeSlots)
    {
      refCount := refCount[slot := refCount[slot] - 1];
      freed := refCount[slot] <= 0;
      if freed {
        refCount := refCount[slot := 0];
        FreeSlot(slot);
      }
      slotForSeq := slotForSeq - {s};
    }

    /** The slot half of CopyPrefix. */
    method CopySlot(src: int, dst: int)
      requires Core() && m.todo == {} && src != dst
      modifies this`slotForSeq, this`refCount, this`freeSlots, this`m, stores
      ensures Core() && m == Copied(old(m), src, dst)
    {
      hide RecOk, StoresKept, Released;
      CopyFacts(m, buffers, src, dst);
      if dst in slotForSeq {
        ReleaseSlot(dst, false);
      }
      if src in slotForSeq {
        var slot := slotForSeq[src];
        slotForSeq := slotForSeq[dst := slot];
        refCount := refCount[slot := refCount[slot] + 1];
        Become(Shared(m, src, dst));
      }
    }

    /** CopyPrefix: dst takes on a prefix of the tokens of src and all of its state, by sharing
        its slot. */
    method CopyPrefix(src: int, dst: int, prefixLen: int)
      requires Valid() && m.todo == {} && src != dst
      modifies this`slotForSeq, this`refCount, this`freeSlots, this`m, stores, kv, kv.cells
      ensures Valid() && m.todo == {} && kv.cells == old(kv.cells)
      ensures kv.M() == CopyStep(old(kv.M()), src, dst, prefixLen) && m == Copied(old(m), src, dst)
      ensures Step(old(S()), Op.Copy(src, dst, prefixLen), S(), buffers)
      ensures forall q :: Folded(m, q) == Folded(old(m), if q == dst then src else q)
    {
      hide Core, PassInv, ShapeOk, StoreOk, Copied, CopyCells, Step;
      ghost var a := S();
      CoreParts();
      CopiedKeeps(m, buffers, src, dst);
      IdleCopy(m, P(), buffers, src, dst);
      kv.CopyPrefix(src, dst, prefixLen);
      CopySlot(src, dst);
      CopyStepIs(a, src, dst, prefixLen, S(), buffers);
    }

    /** CanResume, hasCheckpoint included: from the start, or when some checkpoint lies below pos. */
    method CanResume(s: int, pos: int) returns (ok: bool)
      requires Valid() && s !in kv.broken && 0 <= pos
      ensures ok <==> pos == 0 || HasCheckpoint(m, s, pos)
    {
      hide PassInv, SyncOk, ShapeOk, StoreOk, Core, WindowStored, HasCheckpoint;
      ok := kv.CanResume(s, pos);
      if ok && pos != 0 {
        ok := HasCheckpointBelow(s, pos);
      }
    }

    /** hasCheckpoint. */
    method HasCheckpointBelow(s: int, pos: int) returns (ok: bool)
      requires Core()
      ensures ok == HasCheckpoint(m, s, pos)
    {
      hide RecOk;
      if pos <= 0 || s !in slotForSeq || slotForSeq[s] !in checkpoints {
        return false;
      }
      var slot := slotForSeq[s];
      var idx, best;
      idx, best, ok := checkpoints[slot].BestIndex(pos);
      assert checkpoints[slot].Value() == m.rings[slot];
    }

    /** PrepareRestore: the greatest checkpoint below targetPos is noted, and how many tokens it
        keeps returned. */
    method PrepareRestore(s: int, targetPos: int) returns (kept: int, ok: bool)
      requires Valid()
      modifies this`pendingRestore
      ensures Valid() && ok == HasCheckpoint(m, s, targetPos)
      ensures !ok ==> kept == 0 && pendingRestore == old(pendingRestore)
      ensures ok ==> 0 < kept <= targetPos && s in pendingRestore && pendingRestore == old(pendingRestore)[s := pendingRestore[s]]
                     && BestRestore(m, s, targetPos, pendingRestore[s]) && kept == pendingRestore[s].pos + 1
    {
      hide PassInv, SyncOk, Causal.Valid, RecOk;
      if targetPos <= 0 || s !in slotForSeq || slotForSeq[s] !in checkpoints {
        return 0, false;
      }
      var slot := slotForSeq[s];
      var idx, pos;
      idx, pos, ok := checkpoints[slot].BestIndex(targetPos);
      if !ok {
        return 0, false;
      }
      pendingRestore := pendingRestore[s := Restore(slot, idx, pos)];
      return pos + 1, true;
    }

    // ---------- Remove ----------

    /** restoreEntry: the entry must be live, and complete in every created buffer. */
    method RestoreComplete(x: Restore) returns (ok: bool)
      requires Core()
      ensures ok <==> x.slot in m.rings && 0 <= x.idx < |m.rings[x.slot].entries| && Live(m.rings[x.slot].entries[x.idx])
                      && m.states.Keys <= m.rings[x.slot].entries[x.idx].saved.Keys
    {
      hide RecOk;
      if x.slot !in checkpoints || x.idx < 0 || x.idx >= |checkpoints[x.slot].entries| {
        return false;
      }
      var slot := x.slot;
      var entry := checkpoints[slot].entries[x.idx];
      assert checkpoints[slot].Value() == m.rings[slot];
      if entry.pos < 0 {
        return false;
      }
      ok := states.Keys <= entry.saved.Keys;
    }

    /** The body of applyCheckpointRestore's loops. */
    method RestoreBuffer(b: Buffer, slot: int, row: State)
      requires 0 <= slot < maxSequences && (b in states ==> |states[b]| == maxSequences)
      modifies this`states
      ensures states == old(states)[b := RowsOf(old(states), maxSequences, b)[slot := row]]
    {
      if b !in states {
        states := states[b := seq(maxSequences, _ => [])];
      }
      states := states[b := states[b][slot := row]];
    }

    /** The loops of applyCheckpointRestore, over the saved rows in some order. */
    method RestoreSaved(slot: int, saved: map<Buffer, State>)
      requires 0 <= slot < maxSequences && forall b :: b in states ==> |states[b]| == maxSequences
      modifies this`states
      ensures states == RestoreRows(old(states), maxSequences, slot, saved)
    {
      ghost var before := states;
      var left := saved.Keys;
      while left != {}
        invariant left <= saved.Keys
        invariant forall b :: b in states <==> b in before || (b in saved && b !in left)
        invariant forall b :: b in states ==>
                    states[b] == if b in saved && b !in left then RowsOf(before, maxSequences, b)[slot := saved[b]] else before[b]
        decreases left
      {
        var b := Choose(left);
        left := left - {b};
        assert RowsOf(states, maxSequences, b) == RowsOf(before, maxSequences, b);
        RestoreBuffer(b, slot, saved[b]);
      }
      assert forall b :: b in states <==> b in before.Keys + saved.Keys;
    }

    /** applyCheckpointRestore; a complete checkpoint cannot fail to apply. */
    method ApplyCheckpointRestore(x: Restore) returns (status: Status)
      requires Core() && m.todo == {} && x.slot in m.rings && 0 <= x.idx < |m.rings[x.slot].entries|
      requires Live(m.rings[x.slot].entries[x.idx]) && m.rings[x.slot].entries[x.idx].pos == x.pos
      modifies this`states, this`m, stores
      ensures status == Ok && Core() && IsRestored(old(m), buffers, x, m)
    {
      hide RecOk, Rebuilt, PruneEntries, RestoreRows, IsRestored, RingShape, StoresKept, Tied;
      ghost var r := m;
      RestoreFacts(r, buffers, x);
      TiedParts();
      var ok := RestoreComplete(x);
      if !ok {
        return Err(NotSupported);
      }
      var slot := x.slot;
      var saved := SavedRows(x);
      RestoreSaved(slot, saved);
      PruneStore(slot, x.pos);
      ghost var d := BecomeRestored(r, buffers, x, m.rings[slot]);
      Become(d);
      TieAgain();
      status := Ok;
    }

    method SavedRows(x: Restore) returns (saved: map<Buffer, State>)
      requires StoresKept() && x.slot in m.rings && 0 <= x.idx < |m.rings[x.slot].entries|
      ensures x.slot in checkpoints && saved == m.rings[x.slot].entries[x.idx].saved
    {
      assert checkpoints[x.slot].Value() == m.rings[x.slot];
      saved := checkpoints[x.slot].entries[x.idx].saved;
    }

    method PruneStore(slot: int, pos: int)
      requires StoresKept() && slot in m.rings && RingShape(m.rings[slot]) && m.rings[slot].entries != [] && pos < MAX_INT32
      modifies this`m, stores
      ensures StoresKept() && m == old(m).(rings := old(m).rings[slot := m.rings[slot]]) && slot in m.rings
      ensures m.rings[slot].entries == PruneEntries(old(m).rings[slot].entries, pos) && Rebuilt(m.rings[slot], pos)
    {
      hide RingShape, Rebuilt, PruneEntries;
      ghost var d := m;
      checkpoints[slot].PruneAfter(pos);
      m := d.(rings := d.rings[slot := checkpoints[slot].Value()]);
    }

    /** shiftCheckpoints. */
    method ShiftCheckpoints(slot: int, begin: int, end: int)
      requires Core() && m.todo == {} && 0 <= begin <= end
      modifies this`m, stores
      ensures Core() && IsShifted(old(m), slot, begin, end, m)
    {
      hide RecOk, RingShape, IsShifted, StoresKept, Tied;
      ghost var r := m;
      TiedParts();
      if slot in m.rings {
        RingSizes(r, buffers, slot);
      }
      ShiftStore(slot, begin, end);
      ShiftedFields(r, slot, begin, end, m);
      ShiftedOk(r, buffers, slot, begin, end, m);
      TieAgain();
    }

    method ShiftStore(slot: int, begin: int, end: int)
      requires StoresKept() && 0 <= begin <= end
      requires slot in m.rings ==> RingShape(m.rings[slot]) && m.rings[slot].entries != []
      modifies this`m, stores
      ensures StoresKept() && IsShifted(old(m), slot, begin, end, m)
    {
      hide RingShape, Rebuilt, ShiftEntries, IsGreatest;
      ghost var r := m;
      if slot in checkpoints {
        assert checkpoints[slot].Value() == m.rings[slot];
        checkpoints[slot].ShiftRange(begin, end);
        m := r.(rings := r.rings[slot := checkpoints[slot].Value()], tainted := r.tainted + {slot});
      } else {
        m := r.(tainted := r.tainted + {slot});
      }
    }

    /** What became of the tokens decides the answer: a shared cell in the way, keys that cannot be
        turned, or neither. */
    ghost predicate TokensAnswer(blocked: bool, s: int, begin: int, end: int, status: Status)
      reads kv, kv.cells
    {
      && 0 < kv.maxBatch && (status == Err(SharedCells) <==> blocked)
      && (!blocked ==> kv.Answers(s, begin, end, status))
    }

    /** The removal from the KV cache, which other sequences do not notice. */
    method RemoveTokens(s: int, begin: int, end: int) returns (status: Status)
      requires Valid() && m.todo == {} && 0 <= begin <= end
      modifies kv, kv.cells
      ensures Valid() && kv.cells == old(kv.cells)
      ensures forall t :: t != s ==> SameView(old(kv.M()), kv.M(), t)
      ensures status.Ok? ==> kv.M() == RemoveStep(old(kv.M()), s, begin, end)
      ensures status.Err? ==> end != MAX_INT32 && FailsRemove(old(S()), s, begin, end, S(), buffers)
      ensures TokensAnswer(Blocked(old(kv.cells[..]), kv.cells.Length, s, begin, end), s, begin, end, status)
      ensures status != Err(CacheFull)
    {
      hide Causal.Answers, Core, PassInv, ShapeOk, SameView, Blocked, RowsOk, SeqOk, RemoveCells, FailsRemove, Cut;
      ghost var a := S();
      status := kv.Remove(s, begin, end);
      if status.Err? {
        FailStep(a, s, begin, end, S(), buffers);
      }
      AnswerKinds(Blocked(old(kv.cells[..]), kv.cells.Length, s, begin, end), s, begin, end, status);
    }

    lemma AnswerKinds(blocked: bool, s: int, begin: int, end: int, status: Status)
      requires TokensAnswer(blocked, s, begin, end, status)
      ensures status != Err(CacheFull)
    {
    }

    /** Remove from the start: the slot goes with the tokens, whatever end is. */
    method RemoveAll(s: int, end: int) returns (status: Status)
      requires Valid() && m.todo == {} && 0 <= end
      modifies this`slotForSeq, this`refCount, this`freeSlots, this`m, this`pendingRestore, stores, kv, kv.cells
      ensures Valid() && m.todo == {} && kv.cells == old(kv.cells) && (end == MAX_INT32 ==> status.Ok?)
      ensures forall t :: t != s ==> SameView(old(kv.M()), kv.M(), t)
      ensures status.Err? ==> m == old(m) && pendingRestore == old(pendingRestore) && FailsRemove(old(S()), s, 0, end, S(), buffers)
      ensures TokensAnswer(Blocked(old(kv.cells[..]), kv.cells.Length, s, 0, end), s, 0, end, status) && status != Err(CacheFull)
      ensures status.Ok? ==> kv.M() == RemoveStep(old(kv.M()), s, 0, end) && pendingRestore == old(pendingRestore) - {s}
                             && Step(old(S()), Op.RemoveStart(s, end), S(), buffers)
      ensures status.Ok? ==> forall q :: Folded(m, q) == if q == s then [] else Folded(old(m), q)
    {
      hide Core, PassInv, RemoveCells, SameView, IsReleased, Causal.Valid, FailsRemove, TokensAnswer, Blocked;
      status := RemoveTokens(s, 0, end);
      if status.Ok? {
        DropSlot(s);
      }
    }

    /** The slot half of a removal from the start. */
    method DropSlot(s: int)
      requires Core() && m.todo == {} && PassInv(m, P(), buffers)
      modifies this`slotForSeq, this`refCount, this`freeSlots, this`m, this`pendingRestore, stores
      ensures Core() && m.todo == {} && PassInv(m, P(), buffers) && IsReleased(old(m), s, m)
      ensures forall q :: Folded(m, q) == if q == s then [] else Folded(old(m), q)
      ensures pendingRestore == old(pendingRestore) - {s}
    {
      hide Core, PassInv, Folded;
      CoreParts();
      ghost var r := m;
      pendingRestore := pendingRestore - {s};
      GiveUpSlot(s);
      ReleasedStates(r, buffers, s, m, P());
    }

    method GiveUpSlot(s: int)
      requires Core() && m.todo == {}
      modifies this`slotForSeq, this`refCount, this`freeSlots, this`m, stores
      ensures Core() && IsReleased(old(m), s, m)
    {
      hide RecOk, StoresKept, Released;
      if s in slotForSeq {
        ReleaseSlot(s, true);
      }
    }

    /** Before a rollback: s leaves a shared slot, its pending checkpoint following it. */
    method OwnSlot(s: int, x: Restore) returns (x': Restore, status: Status)
      requires Core() && m.todo == {} && RestoreFresh(m, s, x)
      modifies this`slotForSeq, this`refCount, this`freeSlots, this`states, this`m, this`checkpoints, this`stores
      modifies this`pendingRestore, stores
      ensures Core() && fresh(stores - old(stores))
      ensures status.Ok? ==>
        Owned(old(m), s, x, m, x')
        && pendingRestore == if Shares(old(m), s) then old(pendingRestore)[s := x'] else old(pendingRestore)
      ensures status.Err? ==> status == Err(CacheFull) && maxSequences < |m.table.slotForSeq| && m == old(m)
                              && pendingRestore == old(pendingRestore)
    {
      hide RecOk, StoresKept, IsDetached, Owned;
      x' := x;
      ghost var r := m;
      OwnFacts(r, buffers, s, x);
      if refCount[slotForSeq[s]] > 1 {
        var newSlot;
        newSlot, status := Detach(s);
        if status.Err? {
          return;
        }
        x' := x.(slot := newSlot);
        pendingRestore := pendingRestore[s := x'];
        DetachedOwns(r, buffers, s, x, m);
      }
      status := Ok;
    }

    /** A rollback, the token half done: the state follows. */
    method RestoreSlot(s: int, x: Restore, ghost hist: map<int, seq<Token>>, ghost r: Rec, ghost x0: Restore)
      requires Core() && m.todo == {} && r.todo == {} && Owned(r, s, x0, m, x) && RecOk(r, buffers) && PassInv(m, P(), buffers)
      modifies this`states, this`m, stores
      ensures Core() && m.todo == {} && PassInv(m, P(), buffers)
      ensures RolledBack(hist, r, s, x0.pos + 1, m) && IsRolledBack(r, s, x0, buffers, m)
    {
      hide Core, PassInv, Owned, RolledBack, IsRestored, IsRolledBack;
      CoreParts();
      ghost var d := m;
      OwnedFresh(r, s, x0, d, x);
      var status := ApplyCheckpointRestore(x);
      RollBackFacts(hist, r, d, m, P(), buffers, s, x0, x);
    }

    /** The point of no return of a rollback: nothing after it can fail. */
    method CommitTail(s: int, x: Restore, ghost r: Rec, ghost x0: Restore)
      requires Valid() && m.todo == {} && r.todo == {} && Owned(r, s, x0, m, x) && RecOk(r, buffers)
      requires 0 <= x.pos < MAX_INT32
      modifies this`states, this`m, this`pendingRestore, stores, kv, kv.cells
      ensures Valid() && m.todo == {} && kv.cells == old(kv.cells)
      ensures forall t :: t != s ==> SameView(old(kv.M()), kv.M(), t)
      ensures kv.M() == RemoveStep(old(kv.M()), s, x.pos + 1, MAX_INT32) && pendingRestore == old(pendingRestore) - {s}
      ensures RolledBack(old(kv.hist), r, s, x.pos + 1, m) && IsRolledBack(r, s, x0, buffers, m)
    {
      hide Core, PassInv, RemoveCells, SameView, RestoreFresh, Owned, RolledBack, IsRolledBack, Causal.Valid, RecOk;
      ghost var hist := kv.hist;
      OwnedPos(r, s, x0, m, x);
      var status := RemoveTokens(s, x.pos + 1, MAX_INT32);
      pendingRestore := pendingRestore - {s};
      RestoreSlot(s, x, hist, r, x0);
    }

    /** A rollback to a complete checkpoint: all or nothing. */
    method RollBack(s: int, x: Restore) returns (status: Status)
      requires Valid() && m.todo == {} && RestoreFresh(m, s, x) && 0 <= x.pos < MAX_INT32
      modifies this`slotForSeq, this`refCount, this`freeSlots, this`states, this`m, this`checkpoints, this`stores, this`pendingRestore,
               stores, kv, kv.cells
      ensures Valid() && m.todo == {} && kv.cells == old(kv.cells) && fresh(stores - old(stores))
      ensures status.Err? ==> status == Err(CacheFull) && maxSequences < |m.table.slotForSeq| && m == old(m)
                              && kv.M() == old(kv.M()) && pendingRestore == old(pendingRestore)
      ensures status.Ok? ==> forall t :: t != s ==> SameView(old(kv.M()), kv.M(), t)
      ensures status.Ok? ==> kv.M() == RemoveStep(old(kv.M()), s, x.pos + 1, MAX_INT32)
      ensures status.Ok? ==> pendingRestore == old(pendingRestore) - {s}
                             && RolledBack(old(kv.hist), old(m), s, x.pos + 1, m) && IsRolledBack(old(m), s, x, buffers, m)
      ensures status.Ok? ==> RollsBackTo(old(S()), s, x, S(), buffers)
    {
      hide Core, PassInv, SyncOk, SameView, RestoreFresh, Owned, RolledBack, IsRolledBack, Causal.Valid, RemoveCells, RecOk,
           RollsBackTo, Cut;
      CoreParts();
      ghost var a, r := S(), m;
      var x';
      x', status := OwnSlot(s, x);
      if status.Err? {
        return;
      }
      OwnedIdle(r, m, P(), buffers, s, x, x');
      IdleSync(kv.hist, m, P());
      OwnedPos(r, s, x, m, x');
      CommitTail(s, x', r, x);
      RollBackStep(a, s, x, S(), buffers);
      status := Ok;
    }

    /** Remove up to the end: possible only to the checkpoint PrepareRestore has just noted. It is
        all or nothing: refused, or out of slots for the copy it needs, nothing has changed;
        otherwise the tokens are cut and the state is restored. */
    method RemoveTail(s: int, begin: int) returns (status: Status)
      requires Valid() && m.todo == {} && 0 < begin <= MAX_INT32
      requires s in pendingRestore && pendingRestore[s].pos + 1 == begin ==> RestoreFresh(m, s, pendingRestore[s])
      modifies this`slotForSeq, this`refCount, this`freeSlots, this`states, this`m, this`checkpoints, this`stores, this`pendingRestore,
               stores, kv, kv.cells
      ensures Valid() && m.todo == {} && kv.cells == old(kv.cells) && fresh(stores - old(stores))
      ensures TailOutcome(status, maxSequences, s in old(pendingRestore) && old(pendingRestore)[s].pos + 1 == begin, m)
      ensures status.Err? ==> S() == old(S()) && kv.M() == old(kv.M()) && pendingRestore == old(pendingRestore)
      ensures status.Ok? ==> forall t :: t != s ==> SameView(old(kv.M()), kv.M(), t)
      ensures status.Ok? ==> kv.M() == RemoveStep(old(kv.M()), s, begin, MAX_INT32) && pendingRestore == old(pendingRestore) - {s}
                             && RolledBack(old(kv.hist), old(m), s, begin, m)
                             && IsRolledBack(old(m), s, old(pendingRestore)[s], buffers, m)
      ensures status.Ok? ==> RollsBackTo(old(S()), s, old(pendingRestore)[s], S(), buffers)
    {
      hide Core, PassInv, SyncOk, SameView, RestoreFresh, RolledBack, IsRolledBack, RollsBackTo, Valid, RemoveStep;
      var pending := RestorePending(s, begin);
      if !pending {
        return Err(NotSupported);
      }
      status := RollBack(s, pendingRestore[s]);
    }

    /** The guard of a rollback: the checkpoint it needs was noted, and is complete. */
    method RestorePending(s: int, begin: int) returns (pending: bool)
      requires Valid() && m.todo == {} && 0 < begin <= MAX_INT32
      requires s in pendingRestore && pendingRestore[s].pos + 1 == begin ==> RestoreFresh(m, s, pendingRestore[s])
      ensures pending <==> s in pendingRestore && pendingRestore[s].pos + 1 == begin
    {
      hide RecOk, PassInv, SyncOk, RestoreFresh, Causal.Valid;
      if s !in pendingRestore || pendingRestore[s].pos + 1 != begin {
        return false;
      }
      CoreParts();
      FreshComplete(m, buffers, s, pendingRestore[s]);
      pending := RestoreComplete(pendingRestore[s]);
    }

    /** The checkpoint half of a middle removal. */
    method ShiftSlot(s: int, begin: int, end: int) returns (status: Status)
      requires Core() && m.todo == {} && 0 <= begin <= end
      modifies this`slotForSeq, this`refCount, this`freeSlots, this`states, this`m, this`checkpoints, this`stores, stores
      ensures Core() && fresh(stores - old(stores)) && m.todo == {} && SameStates(m, old(m))
      ensures status.Err? ==> status == Err(CacheFull) && m == old(m) && maxSequences < |m.table.slotForSeq|
      ensures status.Ok? ==> CutsMiddle(old(m), s, begin, end, m)
    {
      hide RecOk, StoresKept, IsShifted, CanDetach;
      SameStatesNow(m);
      if s !in slotForSeq {
        return Ok;
      }
      var slot := slotForSeq[s];
      ghost var r := m;
      SlotFacts(r, buffers, s);
      if refCount[slot] > 1 {
        slot, status := Detach(s);
        if status.Err? {
          return;
        }
        DetachedSole(r, buffers, s, m);
      }
      ghost var d := m;
      ShiftCheckpoints(slot, begin, end);
      ShiftedStates(d, slot, begin, end, m);
      SameStatesChain(m, d, r);
      status := Ok;
    }

    /** Remove from the middle. The tokens behind it move down; the checkpoints move with them, but
        the state they and the slot hold does not, so the slot is tainted. Nobody else's tokens or
        state change, whether it succeeds or fails. */
    method RemoveMiddle(s: int, begin: int, end: int) returns (status: Status)
      requires Valid() && m.todo == {} && 0 < begin <= end && end != MAX_INT32
      modifies this`slotForSeq, this`refCount, this`freeSlots, this`states, this`m, this`checkpoints, this`stores, this`pendingRestore,
               stores, kv, kv.cells
      ensures Valid() && m.todo == {} && kv.cells == old(kv.cells) && fresh(stores - old(stores)) && SameStates(m, old(m))
      ensures forall t :: t != s ==> SameView(old(kv.M()), kv.M(), t)
      ensures status.Ok? ==> kv.M() == RemoveStep(old(kv.M()), s, begin, end)
                             && Step(old(S()), Op.RemoveMiddle(s, begin, end), S(), buffers)
      ensures status.Err? ==> m == old(m) && FailsRemove(old(S()), s, begin, end, S(), buffers)
      ensures TokensAnswer(Blocked(old(kv.cells[..]), kv.cells.Length, s, begin, end), s, begin, end,
                           if status == Err(CacheFull) then Ok else status)
      ensures status == Err(CacheFull) ==> maxSequences < |m.table.slotForSeq|
      ensures pendingRestore == if status.Ok? || status == Err(CacheFull) then old(pendingRestore) - {s} else old(pendingRestore)
    {
      hide Core, PassInv, SameView, Causal.Valid, RemoveCells, SameStates, CutsMiddle, Step, Cut, FailsRemove, TokensAnswer, Blocked;
      ghost var a := S();
      status := RemoveTokens(s, begin, end);
      SameStatesNow(m);
      if status.Err? {
        return;
      }
      pendingRestore := pendingRestore - {s};
      ghost var r := m;
      status := ShiftSlot(s, begin, end);
      StillIdle(r, m, P(), buffers);
      MiddleOutcome(a, s, begin, end, S(), status, buffers);
    }

    /** Remove. */
    method Remove(s: int, begin: int, end: int) returns (status: Status)
      requires Valid() && m.todo == {} && 0 <= begin <= end <= MAX_INT32
      requires 0 < begin && end == MAX_INT32 && s in pendingRestore && pendingRestore[s].pos + 1 == begin ==>
                 RestoreFresh(m, s, pendingRestore[s])
      modifies this`slotForSeq, this`refCount, this`freeSlots, this`states, this`m, this`checkpoints, this`stores, this`pendingRestore,
               stores, kv, kv.cells
      ensures Valid() && m.todo == {} && kv.cells == old(kv.cells) && fresh(stores - old(stores))
      ensures status.Ok? ==> kv.M() == RemoveStep(old(kv.M()), s, begin, end)
      ensures 0 < begin && end == MAX_INT32 ==>
                TailOutcome(status, maxSequences, s in old(pendingRestore) && old(pendingRestore)[s].pos + 1 == begin, m)
      ensures 0 < begin && end == MAX_INT32 && status.Err? ==> S() == old(S()) && kv.M() == old(kv.M())
      ensures 0 < begin && end == MAX_INT32 && status.Ok? ==>
                RolledBack(old(kv.hist), old(m), s, begin, m) && IsRolledBack(old(m), s, old(pendingRestore)[s], buffers, m)
      ensures 0 < begin && end == MAX_INT32 && status.Ok? ==>
                RollsBackTo(old(S()), s, old(pendingRestore)[s], S(), buffers)
      ensures 0 < begin && end != MAX_INT32 ==>
                SameStates(m, old(m)) && if status.Ok? then Step(old(S()), Op.RemoveMiddle(s, begin, end), S(), buffers)
                                         else m == old(m) && FailsRemove(old(S()), s, begin, end, S(), buffers)
      ensures 0 == begin || end != MAX_INT32 ==>
                TokensAnswer(Blocked(old(kv.cells[..]), kv.cells.Length, s, begin, end), s, begin, end,
                             if status == Err(CacheFull) then Ok else status)
                && pendingRestore == if status.Ok? || status == Err(CacheFull) then old(pendingRestore) - {s} else old(pendingRestore)
      ensures begin == 0 ==> if status.Ok? then Step(old(S()), Op.RemoveStart(s, end), S(), buffers)
                               else m == old(m) && FailsRemove(old(S()), s, 0, end, S(), buffers)
      ensures begin == 0 && end == MAX_INT32 ==> status.Ok?
    {
      hide Valid, SameView, RestoreFresh, RolledBack, IsRolledBack, RemoveStep, SameStates, TailOutcome, Step, RollsBackTo, FailsRemove,
           TokensAnswer, Blocked;
      if begin > 0 && end != MAX_INT32 {
        status := RemoveMiddle(s, begin, end);
      } else if begin > 0 {
        status := RemoveTail(s, begin);
      } else {
        status := RemoveAll(s, end);
      }
    }

    /** Init, on a cache just made. */
    method Init(cachePadding: nat, sequences: nat, capacity: nat, batch: nat)
      requires slotForSeq == map[] && states == map[] && checkpoints == map[] && tokens == map[]
      requires buffers != {} && 0 < batch
      requires kv.windowSize == 0 && kv.memorySize == 0 && kv.keys == map[]
      requires sequences * capacity + sequences * MAX_INT32 + batch + cachePadding < MAX_INT
      modifies this, kv
      ensures Valid() && m.todo == {} && tokens == map[] && maxSequences == sequences && pendingRestore == map[]
      ensures m == EmptyRec(sequences) && kv.hist == map[] && fresh(kv.cells)
    {
      hide ShapeOk, StoreOk, CacheSize, Causal.Valid, RecOk, PassInv, SyncOk, Tied, StoresKept;
      InitSlots(sequences);
      EmptyOk(m, P(), buffers, sequences);
      var ok := kv.Init(cachePadding, sequences, capacity, batch);
    }

    method FreeAll(sequences: nat)
      modifies this`freeSlots
      ensures freeSlots == Countdown(sequences, sequences)
    {
      freeSlots := [];
      var i := sequences - 1;
      while i >= 0
        invariant -1 <= i < sequences && freeSlots == Countdown(sequences, sequences - 1 - i)
      {
        freeSlots := freeSlots + [i];
        i := i - 1;
      }
    }

    /** The slot half of Init: the free list counts down, so slot 0 is handed out first. */
    method InitSlots(sequences: nat)
      requires slotForSeq == map[] && states == map[] && checkpoints == map[] && tokens == map[]
      modifies this
      ensures Tied() && StoresKept() && maxSequences == sequences && pendingRestore == map[] && tokens == map[]
      ensures m == EmptyRec(sequences)
    {
      hide Zeros, Countdown, NoState;
      maxSequences := sequences;
      pendingRestore, curCheckpointPos, curCheckpointSlots := map[], [], map[];
      refCount := Zeros(sequences);
      FreeAll(sequences);
      m := EmptyRec(sequences);
    }
  }
}
