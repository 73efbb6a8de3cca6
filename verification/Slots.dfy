/** The reference-counted slots of the recurrent cache, as values: which slot each sequence
    uses, how many use each slot, and the stack of free slots. */
module Slots {
  import opened CacheModel
  import opened Capacity

  datatype Table = Table(slotForSeq: map<int, int>, refCount: seq<int>, free: seq<int>)

  function Users(slotForSeq: map<int, int>, k: int): set<int> {
    set s | s in slotForSeq && slotForSeq[s] == k
  }

  /** Slot conservation: every count is the number of its users, and the free list is exactly
      the slots nobody uses, each once. */
  ghost predicate TableOk(t: Table) {
    && (forall s :: s in t.slotForSeq ==> 0 <= t.slotForSeq[s] < |t.refCount|)
    && (forall k :: 0 <= k < |t.refCount| ==> t.refCount[k] == |Users(t.slotForSeq, k)|)
    && Distinct(t.free)
    && (forall k :: k in t.free <==> 0 <= k < |t.refCount| && t.refCount[k] == 0)
  }

  // ---------- operations ----------

  /** First use of s: it takes the slot on top of the stack. */
  function AllocNew(t: Table, s: int): Table
    requires t.free != [] && 0 <= t.free[|t.free| - 1] < |t.refCount|
  {
    var k := t.free[|t.free| - 1];
    Table(t.slotForSeq[s := k], t.refCount[k := 1], t.free[..|t.free| - 1])
  }

  /** Copy-on-write: s leaves a slot it shares for the one on top of the stack. */
  function Detach(t: Table, s: int): Table
    requires t.free != [] && 0 <= t.free[|t.free| - 1] < |t.refCount|
    requires s in t.slotForSeq && 0 <= t.slotForSeq[s] < |t.refCount|
  {
    var k, old' := t.free[|t.free| - 1], t.slotForSeq[s];
    Table(t.slotForSeq[s := k], t.refCount[old' := t.refCount[old'] - 1][k := 1], t.free[..|t.free| - 1])
  }

  /** s gives up its slot, which becomes free when nobody else uses it. */
  function Release(t: Table, s: int): Table
    requires s in t.slotForSeq && 0 <= t.slotForSeq[s] < |t.refCount|
  {
    var k := t.slotForSeq[s];
    Table(t.slotForSeq - {s}, t.refCount[k := t.refCount[k] - 1], if t.refCount[k] <= 1 then t.free + [k] else t.free)
  }

  /** dst, which has no slot, joins src in its slot. */
  function Share(t: Table, src: int, dst: int): Table
    requires src in t.slotForSeq && 0 <= t.slotForSeq[src] < |t.refCount|
  {
    var k := t.slotForSeq[src];
    Table(t.slotForSeq[dst := k], t.refCount[k := t.refCount[k] + 1], t.free)
  }

  // ---------- conservation ----------

  lemma UsersAdd(m: map<int, int>, s: int, k: int, j: int)
    requires s !in m
    ensures |Users(m[s := k], j)| == |Users(m, j)| + if j == k then 1 else 0
  {
    if j == k {
      assert Users(m[s := k], j) == Users(m, j) + {s};
    } else {
      assert Users(m[s := k], j) == Users(m, j);
    }
  }

  lemma UsersDrop(m: map<int, int>, s: int, j: int)
    requires s in m
    ensures |Users(m - {s}, j)| == |Users(m, j)| - if j == m[s] then 1 else 0
  {
    if j == m[s] {
      assert Users(m, j) == Users(m - {s}, j) + {s};
    } else {
      assert Users(m, j) == Users(m - {s}, j);
    }
  }

  lemma NoUsers(m: map<int, int>, k: int)
    requires |Users(m, k)| == 0
    ensures forall s :: s in m ==> m[s] != k
  {
    assert Users(m, k) == {};
    assert forall s :: s in m ==> s !in Users(m, k);
  }

  lemma AllocNewKeeps(t: Table, s: int)
    requires TableOk(t) && t.free != [] && s !in t.slotForSeq
    ensures t.free[|t.free| - 1] in t.free && TableOk(AllocNew(t, s))
    ensures forall q :: q in t.slotForSeq ==> t.slotForSeq[q] != t.free[|t.free| - 1]
  {
    PopFree(t);
    var k, t' := t.free[|t.free| - 1], AllocNew(t, s);
    NoUsers(t.slotForSeq, k);
    forall j | 0 <= j < |t.refCount| ensures t'.refCount[j] == |Users(t'.slotForSeq, j)| {
      UsersAdd(t.slotForSeq, s, k, j);
    }
  }

  lemma PopFree(t: Table)
    requires TableOk(t) && t.free != []
    ensures t.free[|t.free| - 1] in t.free
    ensures var rest := t.free[..|t.free| - 1];
      Distinct(rest) && forall k :: k in rest <==> k in t.free && k != t.free[|t.free| - 1]
  {
    assert t.free == t.free[..|t.free| - 1] + [t.free[|t.free| - 1]];
  }

  lemma DetachKeeps(t: Table, s: int)
    requires TableOk(t) && t.free != [] && s in t.slotForSeq && 1 < t.refCount[t.slotForSeq[s]]
    ensures t.free[|t.free| - 1] in t.free && TableOk(Detach(t, s))
    ensures forall q :: q in t.slotForSeq ==> t.slotForSeq[q] != t.free[|t.free| - 1]
  {
    PopFree(t);
    var k, t' := t.free[|t.free| - 1], Detach(t, s);
    NoUsers(t.slotForSeq, k);
    assert t.slotForSeq[s := k] == (t.slotForSeq - {s})[s := k];
    forall j | 0 <= j < |t.refCount| ensures t'.refCount[j] == |Users(t'.slotForSeq, j)| {
      UsersDrop(t.slotForSeq, s, j);
      UsersAdd(t.slotForSeq - {s}, s, k, j);
    }
  }

  lemma ReleaseKeeps(t: Table, s: int)
    requires TableOk(t) && s in t.slotForSeq
    ensures TableOk(Release(t, s)) && 1 <= t.refCount[t.slotForSeq[s]]
  {
    var k, t' := t.slotForSeq[s], Release(t, s);
    assert s in Users(t.slotForSeq, k);
    forall j | 0 <= j < |t.refCount| ensures t'.refCount[j] == |Users(t'.slotForSeq, j)| {
      UsersDrop(t.slotForSeq, s, j);
    }
  }

  lemma ShareKeeps(t: Table, src: int, dst: int)
    requires TableOk(t) && src in t.slotForSeq && dst !in t.slotForSeq
    ensures TableOk(Share(t, src, dst))
  {
    var k, t' := t.slotForSeq[src], Share(t, src, dst);
    assert src in Users(t.slotForSeq, k);
    forall j | 0 <= j < |t.refCount| ensures t'.refCount[j] == |Users(t'.slotForSeq, j)| {
      UsersAdd(t.slotForSeq, dst, k, j);
    }
  }

  // ---------- slots for several sequences ----------

  /** s keeps its slot, or takes the one on top of the stack while there is one. */
  function Give(t: Table, s: int): Table {
    if s in t.slotForSeq || t.free == [] || !(0 <= t.free[|t.free| - 1] < |t.refCount|) then t else AllocNew(t, s)
  }

  function TakeAll(t: Table, seqs: seq<int>, n: nat): Table
    requires n <= |seqs|
  {
    if n == 0 then t else Give(TakeAll(t, seqs, n - 1), seqs[n - 1])
  }

  /** The slots that went from the stack of t to sequences of t'. */
  function Handed(t: Table, t': Table): seq<int> {
    if |t'.free| <= |t.free| then t.free[|t'.free|..] else []
  }

  /** Those of the first n sequences that have no slot. */
  function Unmapped(t: Table, seqs: seq<int>, n: nat): set<int>
    requires n <= |seqs|
  {
    set j | 0 <= j < n && seqs[j] !in t.slotForSeq :: seqs[j]
  }

  lemma GiveKeeps(t: Table, s: int)
    requires TableOk(t)
    ensures var d := Give(t, s);
      && TableOk(d) && |d.refCount| == |t.refCount|
      && d.slotForSeq.Keys == (if t.free == [] then t.slotForSeq.Keys else t.slotForSeq.Keys + {s})
      && |d.free| == if s in t.slotForSeq || t.free == [] then |t.free| else |t.free| - 1
  {
    if s !in t.slotForSeq && t.free != [] {
      AllocNewKeeps(t, s);
      hide TableOk;
      assert Give(t, s) == if 0 <= t.free[|t.free| - 1] < |t.refCount| then AllocNew(t, s) else t;
    }
  }

  /** All of the sequences get a slot just when no more of them lack one than are free; otherwise
      the free ones are used up. */
  lemma {:induction false} TakeAllFits(t: Table, seqs: seq<int>, n: nat)
    requires TableOk(t) && n <= |seqs| && Distinct(seqs)
    ensures var d := TakeAll(t, seqs, n);
      && TableOk(d) && |d.refCount| == |t.refCount| && |d.free| == Max(0, |t.free| - |Unmapped(t, seqs, n)|)
      && t.slotForSeq.Keys <= d.slotForSeq.Keys && (forall q :: q in d.slotForSeq ==> q in t.slotForSeq || q in seqs[..n])
      && ((forall j :: 0 <= j < n ==> seqs[j] in d.slotForSeq) <==> |Unmapped(t, seqs, n)| <= |t.free|)
  {
    hide TableOk, Give, Unmapped;
    if n == 0 {
      NobodyUnmapped(t, seqs);
      return;
    }
    TakeAllFits(t, seqs, n - 1);
    assert seqs[..n] == seqs[..n - 1] + [seqs[n - 1]];
    UnmappedStep(t, seqs, n - 1);
    GiveKeeps(TakeAll(t, seqs, n - 1), seqs[n - 1]);
    assert TakeAll(t, seqs, n) == Give(TakeAll(t, seqs, n - 1), seqs[n - 1]);
    hide TakeAll;
  }

  lemma NobodyUnmapped(t: Table, seqs: seq<int>)
    ensures Unmapped(t, seqs, 0) == {}
  {
  }

  lemma UnmappedStep(t: Table, seqs: seq<int>, n: nat)
    requires n < |seqs| && Distinct(seqs)
    ensures |Unmapped(t, seqs, n + 1)| == |Unmapped(t, seqs, n)| + if seqs[n] in t.slotForSeq then 0 else 1
  {
    if seqs[n] in t.slotForSeq {
      assert Unmapped(t, seqs, n + 1) == Unmapped(t, seqs, n);
    } else {
      assert seqs[n] !in Unmapped(t, seqs, n);
      assert Unmapped(t, seqs, n + 1) == Unmapped(t, seqs, n) + {seqs[n]};
    }
  }

  /** An empty stack has nothing to give. */
  lemma {:induction false} TakeAllNone(t: Table, seqs: seq<int>, n: nat, k: nat)
    requires n <= k <= |seqs| && TakeAll(t, seqs, n).free == []
    ensures TakeAll(t, seqs, k) == TakeAll(t, seqs, n)
  {
    if n < k {
      TakeAllNone(t, seqs, n, k - 1);
    }
  }

  // ---------- no exhaustion ----------

  function UsersBelow(m: map<int, int>, k: int): set<int> {
    set s | s in m && 0 <= m[s] < k
  }

  /** Slots none of the first k of which is free are used by at least k sequences, and by more
      if one of them is shared. */
  lemma {:induction false} Pigeonhole(t: Table, k: nat, shared: int)
    requires TableOk(t) && k <= |t.refCount|
    requires forall j :: 0 <= j < k ==> t.refCount[j] != 0
    ensures k <= |UsersBelow(t.slotForSeq, k)|
    ensures 0 <= shared < k && 1 < t.refCount[shared] ==> k < |UsersBelow(t.slotForSeq, k)|
  {
    if k > 0 {
      Pigeonhole(t, k - 1, shared);
      assert UsersBelow(t.slotForSeq, k) == UsersBelow(t.slotForSeq, k - 1) + Users(t.slotForSeq, k - 1);
      assert UsersBelow(t.slotForSeq, k - 1) * Users(t.slotForSeq, k - 1) == {};
    }
  }

  /** First use never fails while fewer sequences than slots are mapped, and copy-on-write never
      while no more are. */
  lemma NoExhaustion(t: Table, shared: int)
    requires TableOk(t)
    ensures |t.slotForSeq| < |t.refCount| ==> t.free != []
    ensures |t.slotForSeq| <= |t.refCount| && 0 <= shared < |t.refCount| && 1 < t.refCount[shared] ==> t.free != []
  {
    if t.free == [] {
      forall j | 0 <= j < |t.refCount| ensures t.refCount[j] != 0 {
        assert j !in t.free;
      }
      Pigeonhole(t, |t.refCount|, shared);
      SubsetSize(UsersBelow(t.slotForSeq, |t.refCount|), t.slotForSeq.Keys);
    }
  }
}
