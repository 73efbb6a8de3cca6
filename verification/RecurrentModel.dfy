/** The recurrent cache as values: state buffers, checkpoint rings and slots, against the token
    history folded into every slot. */
module RecurrentModel {
  import opened CacheModel
  import opened Rows
  import opened Checkpoints
  import opened Slots

  const CHECKPOINT_COUNT := 24

  /** slotHist is the history folded into each slot, in use or not; target what it becomes by
      the end of the pass under way; todo the buffers the pass has yet to update; capture the
      place of the checkpoint the pass is taking, by slot; tainted the slots whose checkpoints
      are not known to belong to their state. */
  datatype Rec = Rec(table: Table, states: map<Buffer, seq<State>>, rings: map<int, Ring>,
                     slotHist: seq<State>, target: seq<State>, todo: set<Buffer>,
                     capture: map<int, int>, tainted: set<int>)

  // ---------- state rows ----------

  /** A row; a buffer not created yet reads zero. */
  function RowOf(states: map<Buffer, seq<State>>, b: Buffer, k: int): State {
    if b in states && 0 <= k < |states[b]| then states[b][k] else []
  }

  ghost predicate RowHeld(r: Rec, b: Buffer, k: int)
    requires 0 <= k < |r.slotHist| == |r.target|
  {
    RowOf(r.states, b, k) == if b in r.todo then r.slotHist[k] else r.target[k]
  }

  /** Every buffer holds, for every slot, the history folded into that slot: as of before the
      pass where it is still to be updated, as of after it elsewhere. */
  ghost predicate RowsHeld(r: Rec, buffers: set<Buffer>) {
    && |r.slotHist| == |r.target| == |r.table.refCount| && r.todo <= buffers
    && (forall b :: b in r.states ==> b in buffers && |r.states[b]| == |r.slotHist|)
    && (forall b, k :: b in buffers && 0 <= k < |r.slotHist| ==> RowHeld(r, b, k))
    && (r.todo == {} ==> r.slotHist == r.target)
  }

  // ---------- rings ----------

  ghost predicate EntryHas(e: Entry, buffers: set<Buffer>, h: State) {
    forall b :: b in buffers ==> b in e.saved && e.saved[b] == h
  }

  /** A complete checkpoint, of some history. */
  ghost predicate EntryAny(e: Entry, buffers: set<Buffer>) {
    exists h :: EntryHas(e, buffers, h)
  }

  /** A checkpoint of h up to and including its position. */
  ghost predicate EntryOk(e: Entry, buffers: set<Buffer>, h: State) {
    0 <= e.pos < |h| && EntryHas(e, buffers, h[..e.pos + 1])
  }

  ghost predicate InCapture(r: Rec, k: int, i: int) {
    r.todo != {} && k in r.capture && r.capture[k] == i
  }

  /** The checkpoint being taken of slot k: complete in the buffers of written. */
  ghost predicate Capturing(r: Rec, k: int, written: set<Buffer>)
    requires k in r.rings && 0 <= k < |r.target|
  {
    r.todo != {} && k in r.capture ==>
      && 0 <= r.capture[k] < |r.rings[k].entries|
      && EntryHas(r.rings[k].entries[r.capture[k]], written, r.target[k])
      && (k !in r.tainted ==> r.rings[k].entries[r.capture[k]].pos == |r.target[k]| - 1)
  }

  /** Live checkpoints are complete; those of an untainted slot are checkpoints of its history. */
  ghost predicate EntryClaim(r: Rec, k: int, i: int, buffers: set<Buffer>)
    requires k in r.rings && 0 <= i < |r.rings[k].entries| && 0 <= k < |r.slotHist|
  {
    var e := r.rings[k].entries[i];
    Live(e) && !InCapture(r, k, i) ==> EntryAny(e, buffers) && (k !in r.tainted ==> EntryOk(e, buffers, r.slotHist[k]))
  }

  ghost predicate SavedWithin(r: Ring, buffers: set<Buffer>) {
    forall i :: 0 <= i < |r.entries| ==> r.entries[i].saved.Keys <= buffers
  }

  lemma SameSaved(e: Entry, f: Entry, buffers: set<Buffer>)
    requires e.saved == f.saved
    ensures EntryAny(e, buffers) ==> EntryAny(f, buffers)
  {
    if EntryAny(e, buffers) {
      var h :| EntryHas(e, buffers, h);
      assert EntryHas(f, buffers, h);
    }
  }

  /** No planned position of slot k comes at or below this. */
  function Horizon(r: Rec, k: int): int
    requires 0 <= k < |r.slotHist| == |r.target|
  {
    if r.todo != {} && k in r.capture then |r.target[k]| else |r.slotHist[k]|
  }

  ghost predicate RingClaim(r: Rec, k: int, buffers: set<Buffer>, written: set<Buffer>) {
    && k in r.rings && 0 <= k < |r.slotHist| == |r.target|
    && RingShape(r.rings[k]) && |r.rings[k].entries| == CHECKPOINT_COUNT
    && SavedWithin(r.rings[k], buffers) && (forall i :: 0 <= i < CHECKPOINT_COUNT ==> EntryClaim(r, k, i, buffers))
    && Capturing(r, k, written)
    && (k !in r.tainted ==> RingOk(r.rings[k]) && r.rings[k].lastPos < Horizon(r, k))
  }

  ghost predicate RecOk(r: Rec, buffers: set<Buffer>) {
    && buffers != {} && TableOk(r.table) && RowsHeld(r, buffers)
    && (forall k :: k in r.rings ==> RingClaim(r, k, buffers, buffers - r.todo))
  }

  // ---------- histories by sequence ----------

  /** The private state of a sequence, as the reference has it. */
  function Folded(r: Rec, s: int): State {
    if s in r.table.slotForSeq && 0 <= r.table.slotForSeq[s] < |r.slotHist| then r.slotHist[r.table.slotForSeq[s]] else []
  }

  /** Read access to one buffer by sequence. */
  function Read(r: Rec, s: int, b: Buffer): State {
    if s in r.table.slotForSeq then RowOf(r.states, b, r.table.slotForSeq[s]) else []
  }

  // ---------- giving a slot a fresh or a copied state ----------

  /** Row src copied to row dst in every created buffer. */
  function CopyRow(states: map<Buffer, seq<State>>, src: int, dst: int): map<Buffer, seq<State>> {
    map b | b in states ::
      if 0 <= src < |states[b]| && 0 <= dst < |states[b]| then states[b][dst := states[b][src]] else states[b]
  }

  ghost function Retaint(r: Rec, k: int, taint: bool): set<int> {
    if taint then r.tainted + {k} else r.tainted - {k}
  }

  ghost predicate Stale(rings: map<int, Ring>, k: int) {
    k in rings && !RingEmpty(rings[k])
  }

  /** A slot keeps its claim while nothing the claim mentions changes. */
  lemma SameClaim(r: Rec, d: Rec, buffers: set<Buffer>, k: int)
    requires RingClaim(r, k, buffers, buffers - r.todo)
    requires d.todo == r.todo && d.capture == r.capture && |d.slotHist| == |d.target| == |r.slotHist|
    requires k in d.rings && d.rings[k] == r.rings[k]
    requires d.slotHist[k] == r.slotHist[k] && d.target[k] == r.target[k] && (k in r.tainted ==> k in d.tainted)
    ensures RingClaim(d, k, buffers, buffers - d.todo)
  {
    forall i | 0 <= i < CHECKPOINT_COUNT ensures EntryClaim(d, k, i, buffers) {
      assert EntryClaim(r, k, i, buffers);
    }
  }

  /** An empty ring claims nothing. */
  lemma EmptyClaim(r: Rec, buffers: set<Buffer>, k: int)
    requires k in r.rings && 0 <= k < |r.slotHist| == |r.target| && RingEmpty(r.rings[k])
    requires |r.rings[k].entries| == CHECKPOINT_COUNT && (r.todo == {} || k !in r.capture) && SavedWithin(r.rings[k], buffers)
    ensures RingClaim(r, k, buffers, buffers - r.todo)
  {
    LiveBound(r.rings[k].entries, CHECKPOINT_COUNT);
  }

  /** A tainted ring claims only that its live entries are complete. */
  lemma TaintedClaim(r: Rec, d: Rec, buffers: set<Buffer>, k: int)
    requires RingClaim(r, k, buffers, buffers - r.todo)
    requires d.todo == r.todo && (d.todo == {} || d.capture == r.capture == map[]) && |d.slotHist| == |d.target| == |r.slotHist|
    requires k in d.rings && d.rings[k] == r.rings[k] && k in d.tainted
    ensures RingClaim(d, k, buffers, buffers - d.todo)
  {
    forall i | 0 <= i < CHECKPOINT_COUNT ensures EntryClaim(d, k, i, buffers) {
      assert EntryClaim(r, k, i, buffers);
    }
  }

  /** Slot k was handed out again: its ring is claimed for only where it was empty. */
  lemma Reused(r: Rec, d: Rec, buffers: set<Buffer>, k: int, j: int)
    requires RingClaim(r, j, buffers, buffers - r.todo) && d.todo == r.todo
    requires d.capture == r.capture && (d.todo == {} || d.capture == map[])
    requires |d.slotHist| == |d.target| == |r.slotHist| && j in d.rings && d.rings[j] == r.rings[j]
    requires j != k ==> d.slotHist[j] == r.slotHist[j] && d.target[j] == r.target[j] && (j in r.tainted ==> j in d.tainted)
    requires j == k && Stale(r.rings, k) ==> k in d.tainted
    ensures RingClaim(d, j, buffers, buffers - d.todo)
  {
    if j != k {
      SameClaim(r, d, buffers, j);
    } else if Stale(r.rings, k) {
      TaintedClaim(r, d, buffers, k);
    } else {
      EmptyClaim(d, buffers, k);
    }
  }

  /** A new sequence takes the slot on top of the free list, whatever state that holds. */
  ghost function Taken(r: Rec, s: int): Rec
    requires TableOk(r.table) && r.table.free != []
  {
    PopFree(r.table);
    r.(table := AllocNew(r.table, s))
  }

  lemma TakenKeeps(r: Rec, buffers: set<Buffer>, s: int)
    requires RecOk(r, buffers) && r.table.free != [] && s !in r.table.slotForSeq
    ensures RecOk(Taken(r, s), buffers) && r.table.free[|r.table.free| - 1] in r.table.free
    ensures forall q :: q != s ==> Folded(Taken(r, s), q) == Folded(r, q)
    ensures forall q :: q in r.table.slotForSeq ==> r.table.slotForSeq[q] != r.table.free[|r.table.free| - 1]
  {
    var d := Taken(r, s);
    AllocNewKeeps(r.table, s);
    hide RingClaim, TableOk;
    forall b, j | b in buffers && 0 <= j < |d.slotHist| ensures RowHeld(d, b, j) {
      assert RowHeld(r, b, j);
    }
    forall j | j in d.rings ensures RingClaim(d, j, buffers, buffers - d.todo) {
      RingInRange(r, buffers, j);
      SameClaim(r, d, buffers, j);
    }
  }

  /** Rows with those of the slots zeroed. */
  function Blank(rows: seq<State>, slots: seq<int>): (z: seq<State>)
    ensures |z| == |rows|
  {
    seq(|rows|, k requires 0 <= k < |rows| => if k in slots then [] else rows[k])
  }

  /** zeroSlots, in every created buffer. What checkpoints the slots still have is not theirs. */
  ghost function Zeroed(r: Rec, slots: seq<int>): Rec {
    r.(states := map b | b in r.states :: Blank(r.states[b], slots),
       slotHist := Blank(r.slotHist, slots), target := Blank(r.target, slots),
       tainted := r.tainted - (set k | k in slots) + (set k | k in slots && Stale(r.rings, k)))
  }

  lemma ZeroedKeeps(r: Rec, buffers: set<Buffer>, slots: seq<int>)
    requires RecOk(r, buffers) && r.todo == {}
    ensures RecOk(Zeroed(r, slots), buffers)
    ensures forall q :: Folded(Zeroed(r, slots), q) ==
              if q in r.table.slotForSeq && r.table.slotForSeq[q] in slots then [] else Folded(r, q)
  {
    var d := Zeroed(r, slots);
    assert TableOk(d.table);
    hide RingClaim, Stale, TableOk;
    forall b, j | b in buffers && 0 <= j < |d.slotHist| ensures RowHeld(d, b, j) {
      assert RowHeld(r, b, j);
    }
    forall j | j in d.rings ensures RingClaim(d, j, buffers, buffers - d.todo) {
      RingInRange(r, buffers, j);
      Reused(r, d, buffers, if j in slots then j else j + 1, j);
    }
  }

  // ---------- copy-on-write ----------

  function RingAt(rings: map<int, Ring>, k: int): Ring {
    if k in rings then rings[k] else FreshRing(CHECKPOINT_COUNT)
  }

  predicate Copies(rings: map<int, Ring>, src: int) {
    src in rings && rings[src].size != 0
  }

  /** s moves to slot k with a copy of the state and the checkpoints it shared. */
  ghost function Detached(r: Rec, s: int): Rec
    requires TableOk(r.table) && r.table.free != [] && |r.slotHist| == |r.target| == |r.table.refCount|
    requires s in r.table.slotForSeq
    requires forall k :: k in r.rings ==> |r.rings[k].entries| == CHECKPOINT_COUNT
  {
    PopFree(r.table);
    var k, src := r.table.free[|r.table.free| - 1], r.table.slotForSeq[s];
    r.(table := Detach(r.table, s), states := CopyRow(r.states, src, k),
       slotHist := r.slotHist[k := r.slotHist[src]], target := r.target[k := r.target[src]],
       rings := if Copies(r.rings, src) then r.rings[k := CopyRing(r.rings[src], RingAt(r.rings, k))] else r.rings,
       tainted := Retaint(r, k, if Copies(r.rings, src) then src in r.tainted else Stale(r.rings, k)))
  }

  lemma CopyEntry(src: Entry, dst: Entry, buffers: set<Buffer>, h: State)
    requires EntryHas(src, buffers, h)
    ensures EntryHas(Entry(src.pos, dst.saved + src.saved), buffers, h)
  {
  }

  lemma CopiedClaim(r: Rec, d: Rec, buffers: set<Buffer>, src: int, k: int)
    requires RingClaim(r, src, buffers, buffers - r.todo) && 0 <= k < |r.slotHist|
    requires k in r.rings ==> |r.rings[k].entries| == CHECKPOINT_COUNT && SavedWithin(r.rings[k], buffers)
    requires d.todo == r.todo && (r.todo == {} || r.capture == d.capture == map[])
    requires d.slotHist == r.slotHist[k := r.slotHist[src]] && |d.target| == |r.target|
    requires d.rings == r.rings[k := CopyRing(r.rings[src], RingAt(r.rings, k))]
    requires k !in d.tainted ==> src !in r.tainted
    ensures RingClaim(d, k, buffers, buffers - d.todo)
  {
    CopyRingKeeps(r.rings[src], RingAt(r.rings, k));
    forall i | 0 <= i < CHECKPOINT_COUNT ensures EntryClaim(d, k, i, buffers) {
      assert EntryClaim(r, src, i, buffers);
      var e, f := r.rings[src].entries[i], RingAt(r.rings, k).entries[i];
      if Live(e) {
        var h :| EntryHas(e, buffers, h);
        CopyEntry(e, f, buffers, h);
        if src !in r.tainted {
          CopyEntry(e, f, buffers, r.slotHist[src][..e.pos + 1]);
        }
      }
    }
  }

  lemma DetachedHeld(r: Rec, buffers: set<Buffer>, src: int, k: int, d: Rec)
    requires RowsHeld(r, buffers) && 0 <= src < |r.slotHist| && 0 <= k < |r.slotHist|
    requires d.states == CopyRow(r.states, src, k) && d.todo == r.todo && |d.table.refCount| == |r.table.refCount|
    requires d.slotHist == r.slotHist[k := r.slotHist[src]] && d.target == r.target[k := r.target[src]]
    ensures RowsHeld(d, buffers)
  {
    forall b, j | b in buffers && 0 <= j < |d.slotHist| ensures RowHeld(d, b, j) {
      assert RowHeld(r, b, j) && RowHeld(r, b, src);
    }
  }

  /** Copy-on-write gives s a slot of its own and leaves every private state what it was. */
  lemma DetachedKeeps(r: Rec, buffers: set<Buffer>, s: int)
    requires RecOk(r, buffers) && r.table.free != [] && (r.todo == {} || r.capture == map[])
    requires s in r.table.slotForSeq && 1 < r.table.refCount[r.table.slotForSeq[s]]
    ensures forall k :: k in r.rings ==> |r.rings[k].entries| == CHECKPOINT_COUNT
    ensures RecOk(Detached(r, s), buffers)
    ensures forall q :: Folded(Detached(r, s), q) == Folded(r, q)
    ensures forall q :: q in r.table.slotForSeq ==> r.table.slotForSeq[q] != r.table.free[|r.table.free| - 1]
  {
    forall k | k in r.rings ensures |r.rings[k].entries| == CHECKPOINT_COUNT {
      assert RingClaim(r, k, buffers, buffers - r.todo);
    }
    hide RingClaim, Stale, CopyRing;
    var k, src, d := r.table.free[|r.table.free| - 1], r.table.slotForSeq[s], Detached(r, s);
    DetachKeeps(r.table, s);
    DetachedHeld(r, buffers, src, k, d);
    hide RowsHeld, CopyRow, TableOk;
    forall j | j in d.rings ensures RingClaim(d, j, buffers, buffers - d.todo) {
      if j == k && Copies(r.rings, src) {
        assert RingClaim(r, src, buffers, buffers - r.todo);
        if k in r.rings {
          RingInRange(r, buffers, k);
        }
        CopiedClaim(r, d, buffers, src, k);
      } else {
        RingInRange(r, buffers, j);
        Reused(r, d, buffers, k, j);
      }
    }
  }

  // ---------- sharing and releasing ----------

  /** dst takes on the state of src by sharing its slot. */
  function Shared(r: Rec, src: int, dst: int): Rec
    requires src in r.table.slotForSeq && 0 <= r.table.slotForSeq[src] < |r.table.refCount|
  {
    r.(table := Share(r.table, src, dst))
  }

  /** s gives up its slot; when that frees it, Remove also clears its checkpoints. */
  function Released(r: Rec, s: int, clear: bool): Rec
    requires s in r.table.slotForSeq && 0 <= r.table.slotForSeq[s] < |r.table.refCount|
  {
    var k := r.table.slotForSeq[s];
    r.(table := Release(r.table, s),
       rings := if clear && r.table.refCount[k] <= 1 && k in r.rings then r.rings[k := ResetRing(r.rings[k])] else r.rings)
  }

  lemma SharedKeeps(r: Rec, buffers: set<Buffer>, src: int, dst: int)
    requires RecOk(r, buffers) && src in r.table.slotForSeq && dst !in r.table.slotForSeq
    ensures RecOk(Shared(r, src, dst), buffers)
    ensures forall q :: Folded(Shared(r, src, dst), q) == if q == dst then Folded(r, src) else Folded(r, q)
  {
    var d := Shared(r, src, dst);
    ShareKeeps(r.table, src, dst);
    hide RingClaim, TableOk;
    forall b, j | b in buffers && 0 <= j < |d.slotHist| ensures RowHeld(d, b, j) {
      assert RowHeld(r, b, j);
    }
    forall j | j in d.rings ensures RingClaim(d, j, buffers, buffers - d.todo) {
      RingInRange(r, buffers, j);
      SameClaim(r, d, buffers, j);
    }
  }

  lemma RingInRange(r: Rec, buffers: set<Buffer>, k: int)
    requires RecOk(r, buffers) && k in r.rings
    ensures 0 <= k < |r.slotHist| == |r.target| && RingShape(r.rings[k]) && |r.rings[k].entries| == CHECKPOINT_COUNT
    ensures SavedWithin(r.rings[k], buffers)
    ensures RingClaim(r, k, buffers, buffers - r.todo)
  {
  }

  lemma ReleasedKeeps(r: Rec, buffers: set<Buffer>, s: int, clear: bool)
    requires RecOk(r, buffers) && r.todo == {} && s in r.table.slotForSeq
    ensures RecOk(Released(r, s, clear), buffers)
    ensures forall q :: Folded(Released(r, s, clear), q) == if q == s then [] else Folded(r, q)
  {
    var d, k := Released(r, s, clear), r.table.slotForSeq[s];
    ReleaseKeeps(r.table, s);
    hide RingClaim, TableOk, RingEmpty;
    forall b, j | b in buffers && 0 <= j < |d.slotHist| ensures RowHeld(d, b, j) {
      assert RowHeld(r, b, j);
    }
    forall j | j in d.rings ensures RingClaim(d, j, buffers, buffers - d.todo) {
      RingInRange(r, buffers, j);
      if d.rings[j] != r.rings[j] {
        ResetEmpty(r.rings[j]);
        assert SavedWithin(ResetRing(r.rings[j]), buffers);
        EmptyClaim(d, buffers, j);
      } else {
        SameClaim(r, d, buffers, j);
      }
    }
  }

  // ---------- a pass: writing rows, taking checkpoints ----------

  /** The row of buffer b for slot k saved in the checkpoint being taken of the slot, which is
      recorded at position pos the first time. */
  function CaptureAt(r: Rec, k: int, pos: int, b: Buffer, row: State): Rec
    requires k in r.rings && |r.rings[k].entries| == CHECKPOINT_COUNT && 0 <= r.rings[k].next < CHECKPOINT_COUNT
    requires k in r.capture ==> 0 <= r.capture[k] < CHECKPOINT_COUNT
  {
    var ring := if k in r.capture then r.rings[k] else Recorded(r.rings[k], pos);
    var idx := if k in r.capture then r.capture[k] else r.rings[k].next;
    var e := ring.entries[idx];
    r.(rings := r.rings[k := ring.(entries := ring.entries[idx := e.(saved := e.saved[b := row])])], capture := r.capture[k := idx])
  }

  lemma {:induction false} SavedLive(entries: seq<Entry>, idx: nat, saved: map<Buffer, State>, k: nat)
    requires idx < |entries| && k <= |entries|
    ensures LiveCount(entries[idx := entries[idx].(saved := saved)], k) == LiveCount(entries, k)
  {
    SameLive(entries, entries[idx := entries[idx].(saved := saved)], k);
  }

  lemma SaveKeeps(r: Ring, idx: nat, saved: map<Buffer, State>)
    requires RingShape(r) && idx < |r.entries|
    ensures var s := r.(entries := r.entries[idx := r.entries[idx].(saved := saved)]);
      RingShape(s) && (RingOk(r) ==> RingOk(s))
  {
    SavedLive(r.entries, idx, saved, |r.entries|);
  }

  /** Taking part of a checkpoint of slot k keeps every claim about it, the new part included. */
  lemma CaptureKeeps(r: Rec, buffers: set<Buffer>, k: int, pos: int, b: Buffer)
    requires RingClaim(r, k, buffers, buffers - r.todo) && b in r.todo && r.todo <= buffers && 0 <= pos < MAX_INT32
    requires k in r.capture || r.todo == buffers
    requires k !in r.tainted ==> pos == |r.target[k]| - 1 && |r.slotHist[k]| <= pos
    ensures RingClaim(CaptureAt(r, k, pos, b, r.target[k]), k, buffers, buffers - r.todo + {b})
  {
    var c := CaptureAt(r, k, pos, b, r.target[k]);
    var ring := if k in r.capture then r.rings[k] else Recorded(r.rings[k], pos);
    var idx := c.capture[k];
    if k !in r.capture {
      RecordKeeps(r.rings[k], pos);
    }
    SaveKeeps(ring, idx, ring.entries[idx].saved[b := r.target[k]]);
    forall i | 0 <= i < CHECKPOINT_COUNT ensures EntryClaim(c, k, i, buffers) {
      assert EntryClaim(r, k, i, buffers);
    }
  }

  function Created(states: map<Buffer, seq<State>>, b: Buffer, n: nat): map<Buffer, seq<State>> {
    if b in states then states else states[b := seq(n, _ => [])]
  }

  /** A buffer comes into being all zero, which is what it read as before. */
  lemma CreatedKeeps(r: Rec, buffers: set<Buffer>, b: Buffer)
    requires RecOk(r, buffers) && b in buffers
    ensures RecOk(r.(states := Created(r.states, b, |r.slotHist|)), buffers)
  {
    var d := r.(states := Created(r.states, b, |r.slotHist|));
    hide RingClaim, TableOk;
    forall c, k | c in buffers && 0 <= k < |d.slotHist| ensures RowHeld(d, c, k) {
      assert RowHeld(r, c, k);
    }
    forall k | k in d.rings ensures RingClaim(d, k, buffers, buffers - d.todo) {
      RingInRange(r, buffers, k);
      SameClaim(r, d, buffers, k);
    }
  }

  ghost predicate SlotsWithin(slots: seq<int>, n: nat) {
    && (forall i :: 0 <= i < |slots| ==> 0 <= slots[i] < n)
    && (forall i, j :: 0 <= i < j < |slots| ==> slots[i] != slots[j])
  }

  /** The rows of the pass written to buffer b; with the last buffer the pass is over. */
  ghost function Written(r: Rec, b: Buffer, slots: seq<int>, rows: seq<State>): Rec
    requires |slots| == |rows| && SlotsWithin(slots, |r.slotHist|)
    requires b in r.states ==> |r.states[b]| == |r.slotHist|
  {
    var states := Created(r.states, b, |r.slotHist|);
    r.(states := states[b := SetRows(states[b], slots, rows, |slots|)], todo := r.todo - {b},
       slotHist := if r.todo - {b} == {} then r.target else r.slotHist)
  }

  /** target is what slotHist becomes: extended for the slots of the pass, and them only. */
  ghost predicate TargetFor(r: Rec, slots: seq<int>) {
    && |r.slotHist| == |r.target|
    && forall k :: 0 <= k < |r.slotHist| ==> r.slotHist[k] <= r.target[k] && (k !in slots ==> r.target[k] == r.slotHist[k])
  }

  lemma WrittenRow(r: Rec, b: Buffer, slots: seq<int>, rows: seq<State>, k: int)
    requires |slots| == |rows| && SlotsWithin(slots, |r.slotHist|) && 0 <= k < |r.slotHist|
    requires b in r.states ==> |r.states[b]| == |r.slotHist|
    ensures RowOf(Written(r, b, slots, rows).states, b, k) == RowOf(r.states, b, k) || k in slots
    ensures forall i :: 0 <= i < |slots| && slots[i] == k ==> RowOf(Written(r, b, slots, rows).states, b, k) == rows[i]
  {
    var states := Created(r.states, b, |r.slotHist|);
    SetRowsAt(states[b], slots, rows, |slots|, k);
  }

  lemma WrittenHeld(r: Rec, buffers: set<Buffer>, b: Buffer, slots: seq<int>, rows: seq<State>)
    requires RowsHeld(r, buffers) && b in r.todo && |slots| == |rows| && SlotsWithin(slots, |r.slotHist|)
    requires forall i :: 0 <= i < |slots| ==> rows[i] == r.target[slots[i]]
    requires TargetFor(r, slots)
    ensures RowsHeld(Written(r, b, slots, rows), buffers)
  {
    var w := Written(r, b, slots, rows);
    forall c, k | c in buffers && 0 <= k < |r.slotHist| ensures RowHeld(w, c, k) {
      assert RowHeld(r, c, k);
      if c == b {
        WrittenRow(r, b, slots, rows, k);
      }
    }
  }

  lemma WrittenClaim(r: Rec, w: Rec, buffers: set<Buffer>, b: Buffer, k: int)
    requires b in r.todo && r.todo <= buffers && RingClaim(r, k, buffers, buffers - r.todo + {b})
    requires w.rings == r.rings && w.capture == r.capture && w.tainted == r.tainted && w.target == r.target
    requires w.todo == r.todo - {b} && w.slotHist == if w.todo == {} then r.target else r.slotHist
    requires r.slotHist[k] <= r.target[k]
    ensures RingClaim(w, k, buffers, buffers - w.todo)
  {
    assert buffers - w.todo == buffers - r.todo + {b};
    forall i | 0 <= i < CHECKPOINT_COUNT ensures EntryClaim(w, k, i, buffers) {
      assert EntryClaim(r, k, i, buffers);
      var e := r.rings[k].entries[i];
      if Live(e) && w.todo == {} {
        if InCapture(r, k, i) {
          assert EntryHas(e, buffers, r.target[k]);
          assert r.target[k][..|r.target[k]|] == r.target[k];
        } else if k !in r.tainted {
          assert r.target[k][..e.pos + 1] == r.slotHist[k][..e.pos + 1];
        }
      }
    }
  }

  /** A pass writes the target rows of one more buffer: every claim is kept, and when it was the
      last buffer the histories have moved on to the target. */
  lemma WrittenKeeps(r: Rec, buffers: set<Buffer>, b: Buffer, slots: seq<int>, rows: seq<State>)
    requires TableOk(r.table) && RowsHeld(r, buffers) && b in r.todo
    requires |slots| == |rows| && SlotsWithin(slots, |r.slotHist|) && TargetFor(r, slots)
    requires forall i :: 0 <= i < |slots| ==> rows[i] == r.target[slots[i]]
    requires forall k :: k in r.rings ==> RingClaim(r, k, buffers, buffers - r.todo + {b})
    ensures RecOk(Written(r, b, slots, rows), buffers)
  {
    WrittenHeld(r, buffers, b, slots, rows);
    var w := Written(r, b, slots, rows);
    forall k | k in w.rings ensures RingClaim(w, k, buffers, buffers - w.todo) {
      assert RingClaim(r, k, buffers, buffers - r.todo + {b});
      WrittenClaim(r, w, buffers, b, k);
    }
  }

  // ---------- restoring a checkpoint ----------

  /** The rows of a buffer, zero when it is not created yet. */
  function RowsOf(states: map<Buffer, seq<State>>, n: nat, b: Buffer): seq<State> {
    if b in states then states[b] else seq(n, _ => [])
  }

  /** Row k of every buffer a checkpoint has saved, created where need be. */
  function RestoreRows(states: map<Buffer, seq<State>>, n: nat, k: int, saved: map<Buffer, State>): map<Buffer, seq<State>> {
    map b | b in states.Keys + saved.Keys ::
      var rows := RowsOf(states, n, b);
      if b in saved && 0 <= k < |rows| then rows[k := saved[b]] else rows
  }

  /** The history a complete checkpoint holds. */
  ghost function SavedHist(e: Entry, buffers: set<Buffer>): State
    requires EntryAny(e, buffers)
  {
    var h :| EntryHas(e, buffers, h);
    h
  }

  /** Slot k back at checkpoint idx, its ring pruned. */
  ghost function Restored(r: Rec, buffers: set<Buffer>, k: int, idx: int, ring: Ring): Rec
    requires k in r.rings && 0 <= idx < |r.rings[k].entries| && 0 <= k < |r.slotHist| == |r.target|
    requires EntryAny(r.rings[k].entries[idx], buffers)
  {
    var e := r.rings[k].entries[idx];
    r.(states := RestoreRows(r.states, |r.slotHist|, k, e.saved), rings := r.rings[k := ring],
       slotHist := r.slotHist[k := SavedHist(e, buffers)], target := r.target[k := SavedHist(e, buffers)])
  }

  lemma SavedIs(e: Entry, buffers: set<Buffer>, h: State)
    requires buffers != {} && EntryHas(e, buffers, h)
    ensures EntryAny(e, buffers) && SavedHist(e, buffers) == h
  {
    assert EntryHas(e, buffers, SavedHist(e, buffers));
    assert exists b :: b in buffers;
  }

  lemma RestoredClaim(r: Rec, d: Rec, buffers: set<Buffer>, k: int, idx: int)
    requires RingClaim(r, k, buffers, buffers) && r.todo == {} && buffers != {} && 0 <= idx < CHECKPOINT_COUNT
    requires Live(r.rings[k].entries[idx]) && EntryAny(r.rings[k].entries[idx], buffers)
    requires k in d.rings && d.rings[k].entries == PruneEntries(r.rings[k].entries, r.rings[k].entries[idx].pos)
    requires Rebuilt(d.rings[k], r.rings[k].entries[idx].pos)
    requires d.todo == {} && d.tainted == r.tainted && |d.slotHist| == |d.target| == |r.slotHist|
    requires d.slotHist[k] == SavedHist(r.rings[k].entries[idx], buffers)
    ensures RingClaim(d, k, buffers, buffers)
    ensures k !in r.tainted ==> d.slotHist[k] == r.slotHist[k][..r.rings[k].entries[idx].pos + 1]
  {
    var e := r.rings[k].entries[idx];
    assert EntryClaim(r, k, idx, buffers);
    PruneKeeps(r.rings[k], e.pos, d.rings[k]);
    if k !in r.tainted {
      SavedIs(e, buffers, r.slotHist[k][..e.pos + 1]);
    }
    forall i | 0 <= i < CHECKPOINT_COUNT ensures EntryClaim(d, k, i, buffers) {
      assert EntryClaim(r, k, i, buffers);
      SameSaved(r.rings[k].entries[i], d.rings[k].entries[i], buffers);
      var p := r.rings[k].entries[i].pos;
      if 0 <= p <= e.pos && k !in r.tainted {
        assert r.slotHist[k][..e.pos + 1][..p + 1] == r.slotHist[k][..p + 1];
      }
    }
    LiveBound(d.rings[k].entries, CHECKPOINT_COUNT);
    assert Live(d.rings[k].entries[idx]);
  }

  lemma RestoredHeld(r: Rec, buffers: set<Buffer>, k: int, saved: map<Buffer, State>, h: State, d: Rec)
    requires RowsHeld(r, buffers) && r.todo == {} && 0 <= k < |r.slotHist| && saved.Keys <= buffers
    requires forall b :: b in buffers ==> b in saved && saved[b] == h
    requires d == r.(states := RestoreRows(r.states, |r.slotHist|, k, saved), rings := d.rings, slotHist := r.slotHist[k := h],
                     target := r.target[k := h])
    ensures RowsHeld(d, buffers)
  {
    forall b, j | b in buffers && 0 <= j < |d.slotHist| ensures RowHeld(d, b, j) {
      assert RowHeld(r, b, j);
    }
  }

  /** Restoring leaves a sound cache; an untainted slot is back at the first pos + 1 tokens of
      its own history, and no other slot changes. */
  lemma RestoredKeeps(r: Rec, buffers: set<Buffer>, k: int, idx: int, ring: Ring)
    requires RecOk(r, buffers) && r.todo == {} && k in r.rings && 0 <= idx < |r.rings[k].entries|
    requires Live(r.rings[k].entries[idx])
    requires ring.entries == PruneEntries(r.rings[k].entries, r.rings[k].entries[idx].pos)
    requires Rebuilt(ring, r.rings[k].entries[idx].pos)
    ensures 0 <= k < |r.slotHist| == |r.target| && EntryAny(r.rings[k].entries[idx], buffers)
    ensures RecOk(Restored(r, buffers, k, idx, ring), buffers)
    ensures k !in r.tainted ==>
              Restored(r, buffers, k, idx, ring).slotHist[k] == r.slotHist[k][..r.rings[k].entries[idx].pos + 1]
  {
    assert RingClaim(r, k, buffers, buffers - r.todo) && EntryClaim(r, k, idx, buffers);
    assert buffers - r.todo == buffers;
    var e, d := r.rings[k].entries[idx], Restored(r, buffers, k, idx, ring);
    assert EntryHas(e, buffers, SavedHist(e, buffers));
    RestoredClaim(r, d, buffers, k, idx);
    RestoredHeld(r, buffers, k, e.saved, SavedHist(e, buffers), d);
    hide RowsHeld, EntryAny, EntryHas, Rebuilt, PruneEntries, RestoreRows;
    forall j | j in d.rings ensures RingClaim(d, j, buffers, buffers - d.todo) {
      if j != k {
        RingInRange(r, buffers, j);
        SameClaim(r, d, buffers, j);
      }
    }
  }

  // ---------- shifting checkpoints ----------

  /** A middle removal moves the checkpoints of slot k but not its state. */
  function ShiftedRing(r: Rec, k: int, ring: Ring): Rec {
    r.(rings := if k in r.rings then r.rings[k := ring] else r.rings, tainted := r.tainted + {k})
  }

  lemma ShiftedKeeps(r: Rec, buffers: set<Buffer>, k: int, ring: Ring, begin: int, end: int)
    requires RecOk(r, buffers) && r.todo == {} && 0 <= begin <= end
    requires k in r.rings ==> ring.entries == ShiftEntries(r.rings[k].entries, begin, end)
                              && Rebuilt(ring, ring.lastPos) && IsGreatest(ring.entries, |ring.entries|, ring.lastPos)
    ensures RecOk(ShiftedRing(r, k, ring), buffers)
  {
    var d := ShiftedRing(r, k, ring);
    forall b, j | b in buffers && 0 <= j < |d.slotHist| ensures RowHeld(d, b, j) {
      assert RowHeld(r, b, j);
    }
    forall j | j in d.rings ensures RingClaim(d, j, buffers, buffers - d.todo) {
      RingInRange(r, buffers, j);
      if j == k {
        ShiftKeeps(r.rings[k], begin, end, ring);
        forall i | 0 <= i < CHECKPOINT_COUNT ensures EntryClaim(d, k, i, buffers) {
          assert EntryClaim(r, k, i, buffers);
          SameSaved(r.rings[k].entries[i], d.rings[k].entries[i], buffers);
        }
      } else {
        SameClaim(r, d, buffers, j);
      }
    }
  }
}
