/** Where the checkpoints of a sequence lie, over whole runs. The reference keeps, from the calls
    alone, the positions at which each sequence has had a checkpoint taken, and the stores of the
    cache are held against that account. */
module Spacing {
  import opened CacheModel
  import opened Checkpoints
  import opened RecurrentModel
  import opened RecurrentSteps
  import opened Reference

  /** The positions of s, oldest first. */
  function Marks(ms: map<int, seq<int>>, s: int): seq<int> {
    if s in ms then ms[s] else []
  }

  function Last(l: seq<int>): int {
    if l == [] then -1 else l[|l| - 1]
  }

  /** A pass ending at p is due a checkpoint: the first from position 16 on, and then at least 1664
      positions behind the one before. */
  predicate Due(l: seq<int>, p: int) {
    16 <= p && (l == [] || 1664 <= p - Last(l))
  }

  function Marked(l: seq<int>, p: int): seq<int> {
    if Due(l, p) then l + [p] else l
  }

  function UpTo(l: seq<int>, p: int): seq<int> {
    if l == [] || Last(l) <= p then l else UpTo(l[..|l| - 1], p)
  }

  /** The position the tokens of s end at. */
  function End(f: Ref, s: int): int {
    |Hist(f.hist, s)| - 1
  }

  /** A pass marks its sequences when its last buffer is updated; a copy takes the marks along, a
      rollback those up to where it goes back to. */
  function MarkStep(ms: map<int, seq<int>>, f: Ref, op: Op): map<int, seq<int>> {
    match op
    case Update(c, _) =>
      if f.todo - {c} == {} then
        map s | s in ms.Keys + f.tokens.Keys :: if s in f.tokens then Marked(Marks(ms, s), End(f, s)) else Marks(ms, s)
      else ms
    case Copy(src, dst, _) => ms[dst := Marks(ms, src)]
    case RollBack(s, _, kept) => ms[s := UpTo(Marks(ms, s), kept - 1)]
    case RemoveStart(s, _) => ms[s := []]
    case _ => ms
  }

  // ---------- the account alone ----------

  /** Never before 16, never closer than 1664. */
  ghost predicate Spread(l: seq<int>) {
    && (forall i :: 0 <= i < |l| ==> 16 <= l[i])
    && (forall i, j :: 0 <= i < j < |l| ==> l[i] + 1664 <= l[j])
  }

  ghost predicate AllSpread(ms: map<int, seq<int>>) {
    forall s :: Spread(Marks(ms, s))
  }

  lemma MarkedSpread(l: seq<int>, p: int)
    requires Spread(l)
    ensures Spread(Marked(l, p))
  {
  }

  lemma {:induction false} UpToIs(l: seq<int>, p: int)
    requires Spread(l)
    ensures Spread(UpTo(l, p)) && UpTo(l, p) <= l
    ensures forall q :: q in UpTo(l, p) <==> q in l && q <= p
    ensures p in l ==> UpTo(l, p) != [] && Last(UpTo(l, p)) == p
  {
    if l != [] && Last(l) > p {
      UpToIs(l[..|l| - 1], p);
      assert l == l[..|l| - 1] + [Last(l)];
    } else {
      LastGreatest(l);
    }
  }

  lemma LastGreatest(l: seq<int>)
    requires Spread(l)
    ensures forall q :: q in l ==> q <= Last(l)
    ensures l != [] ==> Last(l) in l
  {
    forall q | q in l ensures q <= Last(l) {
      var i :| 0 <= i < |l| && l[i] == q;
    }
  }

  lemma SpreadStep(ms: map<int, seq<int>>, f: Ref, op: Op)
    requires AllSpread(ms)
    ensures AllSpread(MarkStep(ms, f, op))
  {
    forall s ensures Spread(Marks(MarkStep(ms, f, op), s)) {
      assert Spread(Marks(ms, s));
      match op
      case Update(_, _) => MarkedSpread(Marks(ms, s), End(f, s));
      case Copy(src, _, _) => assert Spread(Marks(ms, src));
      case RollBack(_, _, kept) => UpToIs(Marks(ms, s), kept - 1);
      case _ =>
    }
  }

  /** The last mark lies inside the state, and less than 1664 below its end once that is 16 or more. */
  ghost predicate Near(l: seq<int>, n: nat) {
    (l != [] ==> Last(l) < n) && (17 <= n ==> l != [] && n - 1 - Last(l) < 1664)
  }

  lemma MarkedNear(l: seq<int>, m: nat, n: nat)
    requires Spread(l) && Near(l, m) && m <= n
    ensures Near(Marked(l, n - 1), n)
  {
    LastGreatest(l);
  }

  // ---------- a store and its account ----------

  /** The store s would be rolled back from. */
  function RingOf(r: Rec, s: int): Ring {
    if s in r.table.slotForSeq then RingAt(r.rings, r.table.slotForSeq[s]) else FreshRing(CHECKPOINT_COUNT)
  }

  /** Every live checkpoint is accounted for; the last of the account is live, and is the last of the store. */
  ghost predicate Shows(ring: Ring, l: seq<int>) {
    && ring.lastPos == Last(l) && (l != [] ==> LiveAt(ring, Last(l)))
    && forall i :: 0 <= i < |ring.entries| && Live(ring.entries[i]) ==> ring.entries[i].pos in l
  }

  ghost predicate LiveAt(ring: Ring, pos: int) {
    0 <= pos && exists i :: 0 <= i < |ring.entries| && ring.entries[i].pos == pos
  }

  lemma EmptyShows(ring: Ring)
    requires RingShape(ring) && ring.lastPos == -1
    ensures Shows(ring, [])
  {
    LiveBound(ring.entries, |ring.entries|);
  }

  lemma EmptyShown(ring: Ring, l: seq<int>)
    requires Shows(ring, l) && ring.lastPos == -1 && Spread(l)
    ensures l == []
  {
  }

  /** The stores have the same positions, place by place. */
  ghost predicate SameAs(a: Ring, b: Ring) {
    && |a.entries| == |b.entries| && a.lastPos == b.lastPos
    && forall i :: 0 <= i < |a.entries| ==> a.entries[i].pos == b.entries[i].pos
  }

  /** b is a with a checkpoint at p taken, in one of its places. */
  ghost predicate Takes(a: Ring, b: Ring, p: int) {
    && |a.entries| == |b.entries| && b.lastPos == p && 0 <= p
    && exists k :: 0 <= k < |a.entries| && b.entries[k].pos == p
                   && forall i :: 0 <= i < |a.entries| && i != k ==> b.entries[i].pos == a.entries[i].pos
  }

  lemma SameShows(a: Ring, b: Ring, l: seq<int>)
    requires Shows(a, l) && SameAs(a, b)
    ensures Shows(b, l)
  {
    if l != [] {
      var i :| 0 <= i < |a.entries| && a.entries[i].pos == Last(l);
      assert b.entries[i].pos == Last(l);
    }
  }

  lemma TakesShows(a: Ring, b: Ring, l: seq<int>, p: int)
    requires Shows(a, l) && Takes(a, b, p)
    ensures Shows(b, l + [p])
  {
  }

  lemma TakesSame(a: Ring, b: Ring, c: Ring, p: int)
    requires (SameAs(a, b) && Takes(b, c, p)) || (Takes(a, b, p) && SameAs(b, c))
    ensures Takes(a, c, p)
  {
    if SameAs(a, b) && Takes(b, c, p) {
      var k :| 0 <= k < |b.entries| && c.entries[k].pos == p
               && forall i :: 0 <= i < |b.entries| && i != k ==> c.entries[i].pos == b.entries[i].pos;
    } else {
      var k :| 0 <= k < |a.entries| && b.entries[k].pos == p
               && forall i :: 0 <= i < |a.entries| && i != k ==> b.entries[i].pos == a.entries[i].pos;
      assert c.entries[k].pos == p;
    }
  }

  lemma RecordedTakes(ring: Ring, p: int)
    requires 0 <= p && 0 <= ring.next < |ring.entries|
    ensures Takes(ring, Recorded(ring, p), p)
  {
    assert Recorded(ring, p).entries[ring.next].pos == p;
  }

  /** Empty stores are alike. */
  lemma EmptiesSame(a: Ring, b: Ring)
    requires RingShape(a) && RingShape(b) && a.lastPos == b.lastPos == -1 && |a.entries| == |b.entries|
    ensures SameAs(a, b)
  {
    LiveBound(a.entries, |a.entries|);
    LiveBound(b.entries, |b.entries|);
  }

  lemma PrunedShows(before: Ring, l: seq<int>, idx: int, p: int, ring: Ring)
    requires Shows(before, l) && Spread(l) && 0 <= idx < |before.entries| && before.entries[idx].pos == p && 0 <= p
    requires ring.entries == PruneEntries(before.entries, p) && Rebuilt(ring, p)
    ensures p in l && Shows(ring, UpTo(l, p))
  {
    UpToIs(l, p);
    assert ring.entries[idx].pos == p;
    LiveBound(ring.entries, |ring.entries|);
  }
}
