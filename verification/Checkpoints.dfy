/** kvcache/recurrent_checkpoints.go: the bounded ring of checkpoints a slot keeps. */
module Checkpoints {
  import opened Tokens
  import opened CacheModel
  import opened Arithmetic

  /** A state buffer of the recurrent cache: the conv or the recurrent state of a layer. */
  datatype Buffer = ConvState(layer: int) | RecurrentState(layer: int)

  /** A state row, as the tokens folded into it: equal rows are equal under every step function. */
  type State = seq<Token>

  datatype Entry = Entry(pos: int, saved: map<Buffer, State>)

  /** The value of a store. */
  datatype Ring = Ring(entries: seq<Entry>, size: int, next: int, lastPos: int)

  predicate Live(e: Entry) {
    0 <= e.pos
  }

  function LiveCount(entries: seq<Entry>, k: nat): nat
    requires k <= |entries|
  {
    if k == 0 then 0 else LiveCount(entries, k - 1) + if Live(entries[k - 1]) then 1 else 0
  }

  /** What holds of every store, even one whose positions have lost their meaning: live <= size
      <= n, size 0 just when nothing is live, and next a valid place. */
  ghost predicate RingShape(r: Ring) {
    && LiveCount(r.entries, |r.entries|) <= r.size <= |r.entries|
    && (r.size == 0 <==> LiveCount(r.entries, |r.entries|) == 0)
    && (r.size == 0 <==> r.lastPos == -1) && -1 <= r.lastPos < MAX_INT32
    && (if |r.entries| == 0 then r.next == 0 else 0 <= r.next < |r.entries|)
    && forall i :: 0 <= i < |r.entries| ==> -1 <= r.entries[i].pos < MAX_INT32
  }

  /** The live positions are distinct, and none is beyond lastPos. */
  ghost predicate RingOk(r: Ring) {
    && RingShape(r)
    && (forall i :: 0 <= i < |r.entries| ==> r.entries[i].pos <= r.lastPos)
    && (forall i, j :: 0 <= i < j < |r.entries| && Live(r.entries[i]) ==> r.entries[i].pos != r.entries[j].pos)
  }

  ghost predicate RingEmpty(r: Ring) {
    RingShape(r) && r.size == 0
  }

  lemma {:induction false} LiveBound(entries: seq<Entry>, k: nat)
    requires k <= |entries|
    ensures LiveCount(entries, k) <= k
    ensures LiveCount(entries, k) == 0 <==> forall i :: 0 <= i < k ==> !Live(entries[i])
  {
    if k > 0 {
      LiveBound(entries, k - 1);
    }
  }

  /** One entry replaced by a live one: the count grows just when the old one was dead. */
  lemma {:induction false} LiveUpdate(entries: seq<Entry>, i: nat, e: Entry, k: nat)
    requires i < |entries| && k <= |entries| && Live(e)
    ensures LiveCount(entries[i := e], k) == LiveCount(entries, k) + if i < k && !Live(entries[i]) then 1 else 0
  {
    if k > 0 {
      LiveUpdate(entries, i, e, k - 1);
    }
  }

  // ---------- record ----------

  /** The ring after a record: the next entry takes the position, tensors and all staying. */
  function Recorded(r: Ring, pos: int): Ring {
    if |r.entries| == 0 || !(0 <= r.next < |r.entries|) then r
    else
      Ring(r.entries[r.next := Entry(pos, r.entries[r.next].saved)],
           if r.size < |r.entries| then r.size + 1 else r.size, (r.next + 1) % |r.entries|, pos)
  }

  /** A planned position, beyond everything recorded, keeps the ring sound. */
  lemma RecordKeeps(r: Ring, pos: int)
    requires RingShape(r) && 0 <= pos < MAX_INT32
    ensures RingShape(Recorded(r, pos)) && |Recorded(r, pos).entries| == |r.entries|
    ensures RingOk(r) && r.lastPos < pos ==> RingOk(Recorded(r, pos))
  {
    if |r.entries| > 0 {
      LiveUpdate(r.entries, r.next, Entry(pos, r.entries[r.next].saved), |r.entries|);
      LiveBound(Recorded(r, pos).entries, |r.entries|);
      assert Live(Recorded(r, pos).entries[r.next]);
    }
  }

  function FreshRing(n: nat): Ring {
    Ring(seq(n, _ => Entry(-1, map[])), 0, 0, -1)
  }

  function RecordAll(r: Ring, ps: seq<int>): Ring {
    if ps == [] then r else Recorded(RecordAll(r, ps[..|ps| - 1]), ps[|ps| - 1])
  }

  lemma ModDistinct(a: nat, b: nat, n: nat)
    requires a < b < a + n
    ensures a % n != b % n
  {
    if a % n == b % n {
      var x, y := a / n, b / n;
      assert a == x * n + a % n && b == y * n + b % n;
      assert (y - x) * n == b - a;
      if y - x >= 1 {
        MulMono(1, y - x, n);
      } else {
        MulMono(y - x, 0, n);
      }
      assert false;
    }
  }

  lemma ModNext(m: nat, n: nat)
    requires 0 < n
    ensures (m + 1) % n == (m % n + 1) % n
    ensures m < n ==> m % n == m
  {
    var q := m / n;
    assert m == q * n + m % n;
    if m % n + 1 == n {
      MulStep(q, n);
      DivUnique(m + 1, n, q + 1, 0);
    } else {
      DivUnique(m + 1, n, q, m % n + 1);
      DivUnique(m % n + 1, n, 0, m % n + 1);
    }
    if m < n {
      DivUnique(m, n, 0, m);
    }
  }

  /** Position number j is still in its place. */
  ghost predicate Kept(r: Ring, ps: seq<int>, j: nat)
    requires j < |ps| && |r.entries| > 0
  {
    r.entries[j % |r.entries|].pos == ps[j]
  }

  /** The ring after recording ps from fresh: the last min(m, n) positions are in their places
      and a ring not yet filled is empty behind them. */
  lemma {:induction false} RecordAllPlaces(n: nat, ps: seq<int>)
    requires 0 < n
    ensures var r := RecordAll(FreshRing(n), ps);
      && |r.entries| == n && r.next == |ps| % n && r.size == Min(|ps|, n)
      && (forall j :: Max(0, |ps| - n) <= j < |ps| ==> Kept(r, ps, j))
      && (forall i :: |ps| <= i < n ==> r.entries[i].pos == -1)
    decreases |ps|
  {
    if ps != [] {
      var m := |ps| - 1;
      var before, r := RecordAll(FreshRing(n), ps[..m]), RecordAll(FreshRing(n), ps);
      RecordAllPlaces(n, ps[..m]);
      ModNext(m, n);
      forall j | Max(0, |ps| - n) <= j < |ps| ensures Kept(r, ps, j) {
        if j < m {
          ModDistinct(j, m, n);
          assert Kept(before, ps[..m], j);
        }
      }
    }
  }

  /** Oldest-first eviction: from a fresh store, recording positions leaves live exactly the
      last min(m, n) of them. */
  lemma RecordAllLeavesLast(n: nat, ps: seq<int>, p: int)
    requires 0 < n && forall j :: 0 <= j < |ps| ==> 0 <= ps[j]
    ensures var r := RecordAll(FreshRing(n), ps);
      0 <= p ==> ((exists i :: 0 <= i < |r.entries| && r.entries[i].pos == p) <==> p in ps[Max(0, |ps| - n)..])
  {
    var r, lo := RecordAll(FreshRing(n), ps), Max(0, |ps| - n);
    RecordAllPlaces(n, ps);
    if i :| 0 <= p && 0 <= i < |r.entries| && r.entries[i].pos == p {
      var j := OwnerOf(i, |ps|, n);
      assert Kept(r, ps, j);
      assert ps[lo..][j - lo] == p;
    }
    if p in ps[lo..] {
      var j :| lo <= j < |ps| && ps[j] == p;
      assert Kept(r, ps, j);
    }
  }

  /** The newest of m records that went to place i. */
  lemma OwnerOf(i: nat, m: nat, n: nat) returns (j: nat)
    requires i < n && i < m
    ensures Max(0, m - n) <= j < m && j % n == i
  {
    if m <= n {
      j := i;
      DivUnique(i, n, 0, i);
    } else {
      var q, s := m / n, m % n;
      assert m == q * n + s;
      if i < s {
        j := q * n + i;
        DivUnique(j, n, q, i);
      } else {
        MulStep(q - 1, n);
        j := (q - 1) * n + i;
        DivUnique(j, n, q - 1, i);
      }
      MulMono(1, q, n);
    }
  }

  // ---------- prune and shift ----------

  /** The place the next record goes to: the first dead entry, the oldest one when all live. */
  ghost predicate IsNext(entries: seq<Entry>, next: int) {
    && 0 <= next < |entries|
    && if !Live(entries[next]) then forall i :: 0 <= i < next ==> Live(entries[i])
       else (forall i :: 0 <= i < |entries| ==> Live(entries[i]) && entries[next].pos <= entries[i].pos)
  }

  /** The bookkeeping prune and shift rebuild from the entries alone. */
  ghost predicate Rebuilt(r: Ring, lastPos: int) {
    && r.size == LiveCount(r.entries, |r.entries|)
    && if r.size == 0 then r.next == 0 && r.lastPos == -1 else IsNext(r.entries, r.next) && r.lastPos == lastPos
  }

  function PruneEntry(e: Entry, pos: int): Entry {
    if e.pos > pos then e.(pos := -1) else e
  }

  function PruneEntries(entries: seq<Entry>, pos: int): (r: seq<Entry>)
    ensures |r| == |entries|
  {
    seq(|entries|, i requires 0 <= i < |entries| => PruneEntry(entries[i], pos))
  }

  function ShiftEntry(e: Entry, begin: int, end: int): Entry {
    if begin <= e.pos < end then e.(pos := -1)
    else if end <= e.pos then e.(pos := e.pos + (begin - end))
    else e
  }

  function ShiftEntries(entries: seq<Entry>, begin: int, end: int): (r: seq<Entry>)
    ensures |r| == |entries|
  {
    seq(|entries|, i requires 0 <= i < |entries| => ShiftEntry(entries[i], begin, end))
  }

  lemma RebuiltOk(r: Ring, before: seq<Entry>, lastPos: int)
    requires Rebuilt(r, lastPos) && |r.entries| == |before| && lastPos < MAX_INT32
    requires before == [] ==> r.next == 0
    requires forall i :: 0 <= i < |before| ==> -1 <= r.entries[i].pos <= Max(lastPos, -1)
    requires forall i, j :: 0 <= i < j < |before| && Live(r.entries[i]) ==> r.entries[i].pos != r.entries[j].pos
    ensures RingOk(r)
  {
    LiveBound(r.entries, |r.entries|);
  }

  lemma PruneKeeps(before: Ring, pos: int, r: Ring)
    requires RingShape(before) && before.entries != []
    requires r.entries == PruneEntries(before.entries, pos) && Rebuilt(r, pos) && pos < MAX_INT32
    ensures RingShape(r) && (RingOk(before) ==> RingOk(r))
  {
    hide LiveCount;
    LiveBound(r.entries, |r.entries|);
    if RingOk(before) {
      RebuiltOk(r, before.entries, pos);
    }
  }

  lemma ShiftKeeps(before: Ring, begin: int, end: int, r: Ring)
    requires RingShape(before) && before.entries != []
    requires 0 <= begin <= end && r.entries == ShiftEntries(before.entries, begin, end)
    requires Rebuilt(r, r.lastPos) && IsGreatest(r.entries, |r.entries|, r.lastPos)
    ensures RingShape(r) && (RingOk(before) ==> RingOk(r))
  {
    hide LiveCount, ShiftEntries;
    LiveBound(r.entries, |r.entries|);
    ShiftBounds(before, begin, end);
    if RingOk(before) {
      ShiftDistinct(before, begin, end);
      RebuiltOk(r, before.entries, r.lastPos);
    }
  }

  lemma ShiftDistinct(r: Ring, begin: int, end: int)
    requires RingOk(r) && 0 <= begin <= end
    ensures var e := ShiftEntries(r.entries, begin, end);
      forall i, j :: 0 <= i < j < |e| && Live(e[i]) ==> e[i].pos != e[j].pos
  {
  }

  // ---------- reset ----------

  function ResetRing(r: Ring): Ring {
    Ring(seq(|r.entries|, i requires 0 <= i < |r.entries| => r.entries[i].(pos := -1)), 0, 0, -1)
  }

  lemma ResetEmpty(r: Ring)
    ensures RingEmpty(ResetRing(r)) && |ResetRing(r).entries| == |r.entries|
  {
    LiveBound(ResetRing(r).entries, |r.entries|);
  }

  // ---------- copying ----------

  /** copyCheckpoints, entry by entry: positions are taken over and saved rows written on top. */
  function CopyRing(src: Ring, dst: Ring): Ring
    requires |src.entries| == |dst.entries|
  {
    Ring(seq(|src.entries|, i requires 0 <= i < |src.entries| =>
           Entry(src.entries[i].pos, dst.entries[i].saved + src.entries[i].saved)),
         src.size, src.next, src.lastPos)
  }

  lemma {:induction false} SameLive(a: seq<Entry>, b: seq<Entry>, k: nat)
    requires k <= |a| == |b| && forall i :: 0 <= i < k ==> a[i].pos == b[i].pos
    ensures LiveCount(a, k) == LiveCount(b, k)
  {
    if k > 0 {
      SameLive(a, b, k - 1);
    }
  }

  lemma CopyRingKeeps(src: Ring, dst: Ring)
    requires |src.entries| == |dst.entries| && RingShape(src)
    ensures RingShape(CopyRing(src, dst)) && (RingOk(src) ==> RingOk(CopyRing(src, dst)))
  {
    SameLive(src.entries, CopyRing(src, dst).entries, |src.entries|);
  }

  // ---------- what is recorded next ----------

  /** The stores have the same positions in the same places, and will put further ones in the same places. */
  ghost predicate Alike(a: Ring, b: Ring) {
    && |a.entries| == |b.entries| && a.size == b.size && a.next == b.next && a.lastPos == b.lastPos
    && forall i :: 0 <= i < |a.entries| ==> a.entries[i].pos == b.entries[i].pos
  }

  lemma {:induction false} AlikeGoOn(a: Ring, b: Ring, ps: seq<int>)
    requires Alike(a, b)
    ensures Alike(RecordAll(a, ps), RecordAll(b, ps))
  {
    if ps != [] {
      AlikeGoOn(a, b, ps[..|ps| - 1]);
    }
  }

  /** A copied store goes on like its source. */
  lemma CopyGoesOn(src: Ring, dst: Ring, ps: seq<int>)
    requires |src.entries| == |dst.entries|
    ensures Alike(RecordAll(CopyRing(src, dst), ps), RecordAll(src, ps))
  {
    AlikeGoOn(CopyRing(src, dst), src, ps);
  }

  /** A cleared store goes on like a fresh one. */
  lemma ResetGoesOn(r: Ring, ps: seq<int>)
    ensures Alike(RecordAll(ResetRing(r), ps), RecordAll(FreshRing(|r.entries|), ps))
  {
    AlikeGoOn(ResetRing(r), FreshRing(|r.entries|), ps);
  }

  /** Pruned or shifted, a store gives up nothing for the next position while it has a dead entry, the
      first of which it takes, and otherwise its lowest one. */
  lemma RebuiltRecords(r: Ring, lastPos: int, p: int)
    requires Rebuilt(r, lastPos) && r.entries != [] && 0 <= p
    ensures var after := Recorded(r, p).entries;
      && |after| == |r.entries| && after[r.next].pos == p && (forall i :: 0 <= i < |after| && i != r.next ==> after[i] == r.entries[i])
      && (if exists i :: 0 <= i < |after| && r.entries[i].pos < 0
          then r.entries[r.next].pos < 0 && forall i :: 0 <= i < r.next ==> 0 <= r.entries[i].pos
          else forall i :: 0 <= i < |after| ==> r.entries[r.next].pos <= r.entries[i].pos)
  {
    LiveBound(r.entries, |r.entries|);
  }

  // ---------- runs ----------

  /** One operation on the stores of a cache: at, src and dst say which. */
  datatype RingOp =
    | RecordOp(at: nat, pos: int)
    | PruneOp(at: nat, pos: int)
    | ShiftOp(at: nat, begin: int, end: int)
    | ResetOp(at: nat)
    | CopyOp(src: nat, dst: nat)

  /** What the operation makes of the store it is for; a recorded position lies beyond the last one,
      and a source without checkpoints is not copied. */
  ghost predicate RingStep(rings: seq<Ring>, op: RingOp, b: Ring) {
    match op
    case RecordOp(k, pos) => k < |rings| && rings[k].lastPos < pos < MAX_INT32 && 0 <= pos && b == Recorded(rings[k], pos)
    case PruneOp(k, pos) => k < |rings| && pos < MAX_INT32 && b.entries == PruneEntries(rings[k].entries, pos) && Rebuilt(b, pos)
    case ShiftOp(k, begin, end) =>
      && k < |rings| && 0 <= begin <= end && b.entries == ShiftEntries(rings[k].entries, begin, end)
      && Rebuilt(b, b.lastPos) && IsGreatest(b.entries, |b.entries|, b.lastPos)
    case ResetOp(k) => k < |rings| && b == ResetRing(rings[k])
    case CopyOp(src, dst) =>
      && src < |rings| && dst < |rings| && |rings[src].entries| == |rings[dst].entries|
      && b == if rings[src].size == 0 then rings[dst] else CopyRing(rings[src], rings[dst])
  }

  function Target(op: RingOp): nat {
    if op.CopyOp? then op.dst else op.at
  }

  ghost predicate StoresStep(a: seq<Ring>, op: RingOp, b: seq<Ring>) {
    Target(op) < |a| == |b| && RingStep(a, op, b[Target(op)]) && b == a[Target(op) := b[Target(op)]]
  }

  ghost predicate StoresOk(rings: seq<Ring>, n: nat) {
    forall k :: 0 <= k < |rings| ==> RingOk(rings[k]) && |rings[k].entries| == n
  }

  /** The store invariant holds through every mix of records, prunes, shifts, resets and copies
      between stores, fresh or used. */
  lemma {:induction false} RingRunSafe(run: seq<seq<Ring>>, ops: seq<RingOp>, n: nat)
    requires |run| == |ops| + 1 && 0 < n && forall k :: 0 <= k < |run[0]| ==> run[0][k] == FreshRing(n)
    requires forall i :: 0 <= i < |ops| ==> StoresStep(run[i], ops[i], run[i + 1])
    ensures StoresOk(run[|ops|], n) && |run[|ops|]| == |run[0]|
  {
    hide RingOk, RingStep, FreshRing;
    var m := |ops|;
    if m == 0 {
      forall k | 0 <= k < |run[0]| ensures RingOk(run[0][k]) && |run[0][k].entries| == n {
        FreshRingOk(n);
      }
    } else {
      RingRunSafe(run[..m], ops[..m - 1], n);
      RingStepSafe(run[m - 1], ops[m - 1], run[m][Target(ops[m - 1])], n);
    }
  }

  lemma FreshRingOk(n: nat)
    ensures RingOk(FreshRing(n)) && |FreshRing(n).entries| == n
  {
    LiveBound(FreshRing(n).entries, n);
  }

  lemma RingStepSafe(rings: seq<Ring>, op: RingOp, b: Ring, n: nat)
    requires StoresOk(rings, n) && 0 < n && RingStep(rings, op, b) && Target(op) < |rings|
    ensures RingOk(b) && |b.entries| == n
  {
    var a := rings[Target(op)];
    hide RingOk, LiveCount, Rebuilt, IsGreatest;
    assert RingOk(a) && RingShape(a) by { RingOkShape(a); }
    match op
    case RecordOp(_, pos) => RecordKeeps(a, pos);
    case PruneOp(_, pos) => PruneKeeps(a, pos, b);
    case ShiftOp(_, begin, end) => ShiftKeeps(a, begin, end, b);
    case ResetOp(_) =>
      ResetEmpty(a);
      ResetOk(a);
    case CopyOp(src, dst) =>
      RingOkShape(rings[src]);
      CopyRingKeeps(rings[src], rings[dst]);
  }

  lemma ResetOk(r: Ring)
    ensures RingOk(ResetRing(r)) && |ResetRing(r).entries| == |r.entries|
  {
    ResetEmpty(r);
  }

  lemma RingOkShape(r: Ring)
    requires RingOk(r)
    ensures RingShape(r)
  {
  }

  // ---------- bestIndex ----------

  /** idx holds the greatest live position below target. */
  ghost predicate IsBest(entries: seq<Entry>, target: int, idx: int) {
    && 0 <= idx < |entries| && 0 <= entries[idx].pos < target
    && forall i :: 0 <= i < |entries| && entries[i].pos < target ==> entries[i].pos <= entries[idx].pos
  }

  lemma PruneEntryIs(entries: seq<Entry>, pos: int, i: nat)
    requires i < |entries|
    ensures PruneEntries(entries, pos)[i] == if entries[i].pos > pos then entries[i].(pos := -1) else entries[i]
  {
  }

  lemma ShiftEntryIs(entries: seq<Entry>, begin: int, end: int, i: nat)
    requires 0 <= begin <= end && i < |entries|
    ensures ShiftEntries(entries, begin, end)[i] ==
            if entries[i].pos < begin then entries[i]
            else if entries[i].pos < end then entries[i].(pos := -1)
            else entries[i].(pos := entries[i].pos + (begin - end))
  {
  }

  lemma PruneBounds(r: Ring, pos: int)
    requires RingShape(r)
    ensures |PruneEntries(r.entries, pos)| == |r.entries|
    ensures forall i :: 0 <= i < |r.entries| ==> -1 <= PruneEntries(r.entries, pos)[i].pos < MAX_INT32
  {
  }

  lemma ShiftBounds(r: Ring, begin: int, end: int)
    requires RingShape(r) && 0 <= begin <= end
    ensures |ShiftEntries(r.entries, begin, end)| == |r.entries|
    ensures forall i :: 0 <= i < |r.entries| ==> -1 <= ShiftEntries(r.entries, begin, end)[i].pos < MAX_INT32
  {
  }

  /** m is the greatest position among the first k entries, -1 when none is live. */
  ghost predicate IsGreatest(entries: seq<Entry>, k: nat, m: int)
    requires k <= |entries|
  {
    && -1 <= m && (forall i :: 0 <= i < k ==> entries[i].pos <= m)
    && (m == -1 || exists i :: 0 <= i < k && entries[i].pos == m)
  }

  lemma GreatestNone(entries: seq<Entry>)
    ensures IsGreatest(entries, 0, -1)
  {
  }

  lemma GreatestStep(entries: seq<Entry>, k: nat, m: int)
    requires k < |entries| && IsGreatest(entries, k, m) && -1 <= entries[k].pos
    ensures IsGreatest(entries, k + 1, Max(m, entries[k].pos))
  {
  }

  lemma GreatestDead(entries: seq<Entry>, m: int)
    requires IsGreatest(entries, |entries|, m)
    ensures forall i :: 0 <= i < |entries| ==> entries[i].pos <= m
    ensures LiveCount(entries, |entries|) == 0 <==> m == -1
    ensures (exists i :: 0 <= i < |entries| && entries[i].pos >= MAX_INT32) || m < MAX_INT32
  {
    LiveBound(entries, |entries|);
  }

  /** What the scans of prune and shift have seen of the first k entries: how many are live, the
      first dead one and the lowest live position. */
  ghost predicate Scanned(entries: seq<Entry>, k: nat, count: int, free: int, minPos: int, minIdx: int)
    requires k <= |entries|
  {
    && count == LiveCount(entries, k)
    && (if free == -1 then forall i :: 0 <= i < k ==> Live(entries[i])
        else 0 <= free < k && !Live(entries[free]) && forall i :: 0 <= i < free ==> Live(entries[i]))
    && (forall i :: 0 <= i < k && Live(entries[i]) ==> minPos <= entries[i].pos)
    && (minPos == MAX_INT32 || (0 <= minIdx < k && entries[minIdx].pos == minPos))
  }

  lemma ScanNone(entries: seq<Entry>)
    ensures Scanned(entries, 0, 0, -1, MAX_INT32, 0)
  {
  }

  lemma ScanStep(entries: seq<Entry>, k: nat, count: int, free: int, minPos: int, minIdx: int)
    requires k < |entries| && Scanned(entries, k, count, free, minPos, minIdx)
    ensures var live, lower := Live(entries[k]), Live(entries[k]) && entries[k].pos < minPos;
      Scanned(entries, k + 1, if live then count + 1 else count, if !live && free == -1 then k else free,
              if lower then entries[k].pos else minPos, if lower then k else minIdx)
  {
  }

  lemma ScanDone(r: Ring, free: int, minPos: int, minIdx: int, lastPos: int)
    requires Scanned(r.entries, |r.entries|, r.size, free, minPos, minIdx)
    requires forall i :: 0 <= i < |r.entries| ==> r.entries[i].pos < MAX_INT32
    requires if r.size == 0 then r.next == 0 && r.lastPos == -1
             else r.next == (if free != -1 then free else minIdx) && r.lastPos == lastPos
    ensures Rebuilt(r, lastPos)
  {
    LiveBound(r.entries, |r.entries|);
    if r.size > 0 && free == -1 {
      assert Live(r.entries[0]);
    }
  }

  // ---------- the store ----------

  class CheckpointStore {
    var entries: seq<Entry>
    var size: int
    var next: int
    var lastPos: int

    function Value(): Ring
      reads this
    {
      Ring(entries, size, next, lastPos)
    }

    constructor (n: nat)
      ensures Value() == FreshRing(n) && RingEmpty(Value())
    {
      entries, size, next, lastPos := seq(n, _ => Entry(-1, map[])), 0, 0, -1;
      new;
      LiveBound(entries, n);
    }

    method Reset()
      modifies this
      ensures Value() == ResetRing(old(Value())) && RingEmpty(Value())
    {
      size, next, lastPos := 0, 0, -1;
      for i := 0 to |entries|
        invariant |entries| == old(|entries|) && size == next == 0 && lastPos == -1
        invariant forall k :: 0 <= k < |entries| ==> entries[k] == if k < i then old(entries)[k].(pos := -1) else old(entries)[k]
      {
        entries := entries[i := entries[i].(pos := -1)];
      }
      LiveBound(entries, |entries|);
    }

    /** The loop of copyCheckpoints, on a store of the same size. */
    method CopyFrom(src: CheckpointStore)
      requires src != this && |src.entries| == |entries|
      modifies this
      ensures Value() == CopyRing(src.Value(), old(Value()))
    {
      ghost var before := entries;
      size, next, lastPos := src.size, src.next, src.lastPos;
      for i := 0 to |src.entries|
        invariant |entries| == |src.entries| && size == src.size && next == src.next && lastPos == src.lastPos
        invariant forall k :: 0 <= k < |entries| ==>
                    entries[k] == if k < i then Entry(src.entries[k].pos, before[k].saved + src.entries[k].saved) else before[k]
      {
        entries := entries[i := Entry(src.entries[i].pos, entries[i].saved + src.entries[i].saved)];
      }
    }

    /** Saving one buffer's row in entry idx. */
    method Save(idx: int, b: Buffer, row: State)
      requires 0 <= idx < |entries|
      modifies this`entries
      ensures entries == old(entries)[idx := old(entries)[idx].(saved := old(entries)[idx].saved[b := row])]
    {
      entries := entries[idx := entries[idx].(saved := entries[idx].saved[b := row])];
    }

    method Record(pos: int) returns (idx: int)
      requires RingShape(Value()) && 0 <= pos < MAX_INT32
      modifies this
      ensures Value() == Recorded(old(Value()), pos)
      ensures idx == if entries == [] then -1 else old(next)
    {
      if |entries| == 0 {
        return -1;
      }
      idx := next;
      next := (next + 1) % |entries|;
      if size < |entries| {
        size := size + 1;
      }
      entries := entries[idx := entries[idx].(pos := pos)];
      lastPos := pos;
    }

    /** The greatest live position below target, or none. */
    method BestIndex(target: int) returns (bestIdx: int, bestPos: int, ok: bool)
      ensures ok ==> IsBest(entries, target, bestIdx) && bestPos == entries[bestIdx].pos
      ensures !ok ==> forall i :: 0 <= i < |entries| ==> !(0 <= entries[i].pos < target)
    {
      bestIdx, bestPos := -1, -1;
      for i := 0 to |entries|
        invariant -1 <= bestIdx < i && (bestIdx < 0 ==> bestPos == -1)
        invariant bestIdx >= 0 ==> bestPos == entries[bestIdx].pos && 0 <= bestPos < target
        invariant forall k :: 0 <= k < i && 0 <= entries[k].pos < target ==> entries[k].pos <= bestPos
      {
        var pos := entries[i].pos;
        if pos < 0 || pos >= target {
          continue;
        }
        if pos > bestPos {
          bestPos, bestIdx := pos, i;
        }
      }
      if bestIdx < 0 {
        return -1, -1, false;
      }
      return bestIdx, bestPos, true;
    }

    /** The counting half of the two loops below. */
    method ScanEntry(i: nat, count: int, free: int, minPos: int, minIdx: int, ghost seen: seq<Entry>)
      returns (count': int, free': int, minPos': int, minIdx': int)
      requires i < |entries| == |seen| && entries[i] == seen[i] && Scanned(seen, i, count, free, minPos, minIdx)
      ensures Scanned(seen, i + 1, count', free', minPos', minIdx')
    {
      ScanStep(seen, i, count, free, minPos, minIdx);
      count', free', minPos', minIdx' := count, free, minPos, minIdx;
      if entries[i].pos >= 0 {
        count' := count + 1;
        if entries[i].pos < minPos {
          minPos', minIdx' := entries[i].pos, i;
        }
      } else if free == -1 {
        free' := i;
      }
    }

    /** The end of the two methods below. */
    method Rebuild(count: int, free: int, minPos: int, minIdx: int, last: int)
      requires Scanned(entries, |entries|, count, free, minPos, minIdx)
      requires forall i :: 0 <= i < |entries| ==> entries[i].pos < MAX_INT32
      modifies this`size, this`next, this`lastPos
      ensures Rebuilt(Value(), last)
    {
      size := count;
      if count == 0 {
        next, lastPos := 0, -1;
      } else {
        next, lastPos := if free != -1 then free else minIdx, last;
      }
      ScanDone(Value(), free, minPos, minIdx, last);
    }

    /** pruneAfter's loop. */
    method PruneScan(pos: int) returns (count: int, free: int, minPos: int, minIdx: int)
      modifies this`entries
      ensures entries == PruneEntries(old(entries), pos)
      ensures Scanned(entries, |entries|, count, free, minPos, minIdx)
    {
      hide Scanned, PruneEntry, PruneEntries;
      ghost var before, after := entries, PruneEntries(entries, pos);
      ScanNone(after);
      count, free, minPos, minIdx := 0, -1, MAX_INT32, 0;
      for i := 0 to |entries|
        invariant |entries| == |after|
        invariant forall k :: 0 <= k < |entries| ==> entries[k] == if k < i then after[k] else before[k]
        invariant Scanned(after, i, count, free, minPos, minIdx)
      {
        PruneEntryIs(before, pos, i);
        if entries[i].pos > pos {
          entries := entries[i := entries[i].(pos := -1)];
        }
        count, free, minPos, minIdx := ScanEntry(i, count, free, minPos, minIdx, after);
      }
      assert entries == after;
    }

    /** Everything beyond pos dies; the rest is rebuilt from what is left, lastPos being pos. */
    method PruneAfter(pos: int)
      requires RingShape(Value()) && pos < MAX_INT32
      modifies this
      ensures entries == PruneEntries(old(entries), pos)
      ensures if entries == [] then Value() == FreshRing(0) else Rebuilt(Value(), pos)
    {
      if |entries| == 0 {
        size, next, lastPos := 0, 0, -1;
        return;
      }
      hide Scanned, Rebuilt, PruneEntries;
      PruneBounds(Value(), pos);
      var count, free, minPos, minIdx := PruneScan(pos);
      Rebuild(count, free, minPos, minIdx, pos);
    }

    /** shiftRange's loop. */
    method ShiftScan(begin: int, end: int) returns (count: int, free: int, minPos: int, minIdx: int, maxPos: int)
      requires 0 <= begin <= end && forall i :: 0 <= i < |entries| ==> -1 <= ShiftEntries(entries, begin, end)[i].pos
      modifies this`entries
      ensures entries == ShiftEntries(old(entries), begin, end)
      ensures Scanned(entries, |entries|, count, free, minPos, minIdx) && IsGreatest(entries, |entries|, maxPos)
    {
      hide Scanned, ShiftEntry, ShiftEntries, IsGreatest;
      ghost var before, after := entries, ShiftEntries(entries, begin, end);
      ScanNone(after);
      GreatestNone(after);
      count, free, minPos, minIdx, maxPos := 0, -1, MAX_INT32, 0, -1;
      for i := 0 to |entries|
        invariant |entries| == |after|
        invariant forall k :: 0 <= k < |entries| ==> entries[k] == if k < i then after[k] else before[k]
        invariant Scanned(after, i, count, free, minPos, minIdx) && IsGreatest(after, i, maxPos)
      {
        ShiftEntryIs(before, begin, end, i);
        var pos := entries[i].pos;
        if pos >= 0 {
          if pos >= begin && pos < end {
            entries := entries[i := entries[i].(pos := -1)];
          } else if pos >= end {
            entries := entries[i := entries[i].(pos := pos + (begin - end))];
          }
        }
        count, free, minPos, minIdx := ScanEntry(i, count, free, minPos, minIdx, after);
        GreatestStep(after, i, maxPos);
        maxPos := Max(maxPos, entries[i].pos);
      }
      assert entries == after;
    }

    /** The entries of [begin, end) die, the later ones move down; the rest is rebuilt from what
        is left, lastPos being its greatest position. */
    method ShiftRange(begin: int, end: int)
      requires RingShape(Value()) && 0 <= begin <= end
      modifies this
      ensures entries == ShiftEntries(old(entries), begin, end)
      ensures if entries == [] then Value() == FreshRing(0) else Rebuilt(Value(), lastPos) && IsGreatest(entries, |entries|, lastPos)
    {
      if |entries| == 0 {
        size, next, lastPos := 0, 0, -1;
        return;
      }
      hide Scanned, ShiftEntries, IsGreatest;
      ShiftBounds(Value(), begin, end);
      var count, free, minPos, minIdx, maxPos := ShiftScan(begin, end);
      Rebuild(count, free, minPos, minIdx, maxPos);
      GreatestDead(entries, maxPos);
    }
  }
}
