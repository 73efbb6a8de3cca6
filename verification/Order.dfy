/** The order in which the sequences of a batch first appear, which numbers the rows of a pass. */
module Order {
  import opened CacheModel

  /** Some entry of s comes before every entry of t. */
  ghost predicate Before(ss: seq<int>, s: int, t: int) {
    exists x :: 0 <= x < |ss| && ss[x] == s && forall y :: 0 <= y < |ss| && ss[y] == t ==> x < y
  }

  ghost predicate InOrder(ss: seq<int>, seqs: seq<int>) {
    forall i, j :: 0 <= i < j < |seqs| ==> Before(ss, seqs[i], seqs[j])
  }

  /** The members of ss, each once, in the order of first appearance. */
  ghost predicate FirstSeen(ss: seq<int>, seqs: seq<int>) {
    Distinct(seqs) && (forall s :: s in seqs <==> s in ss) && InOrder(ss, seqs)
  }

  /** The sequences of the batch, each once, in the order of first appearance. */
  ghost predicate SeqsOf(b: Batch, seqs: seq<int>) {
    && Distinct(seqs) && (forall s :: s in seqs <==> InBatch(b, |b.sequences|, s))
    && InOrder(b.sequences, seqs)
  }

  lemma SeenAll(b: Batch, seqs: seq<int>)
    requires FirstSeen(b.sequences, seqs)
    ensures SeqsOf(b, seqs)
  {
    hide InOrder;
    forall s ensures s in seqs <==> InBatch(b, |b.sequences|, s) {
      assert s in b.sequences <==> InBatch(b, |b.sequences|, s);
    }
  }

  lemma SeenNone()
    ensures FirstSeen([], [])
  {
  }

  /** One more entry: a sequence not seen so far comes last. */
  lemma SeenMore(ss: seq<int>, e: int, seqs: seq<int>)
    requires FirstSeen(ss, seqs)
    ensures FirstSeen(ss + [e], if e in seqs then seqs else seqs + [e])
  {
    OrderMore(ss, e, seqs);
    if e !in seqs {
      OrderNew(ss, e, seqs);
    }
    hide InOrder;
  }

  lemma BeforeMore(ss: seq<int>, e: int, s: int, t: int)
    requires Before(ss, s, t)
    ensures Before(ss + [e], s, t)
  {
    var x :| 0 <= x < |ss| && ss[x] == s && forall y :: 0 <= y < |ss| && ss[y] == t ==> x < y;
    assert (ss + [e])[x] == s;
  }

  /** One more entry keeps the order; */
  lemma OrderMore(ss: seq<int>, e: int, seqs: seq<int>)
    requires InOrder(ss, seqs)
    ensures InOrder(ss + [e], seqs)
  {
    forall i, j | 0 <= i < j < |seqs| ensures Before(ss + [e], seqs[i], seqs[j]) {
      BeforeMore(ss, e, seqs[i], seqs[j]);
    }
  }

  /** a sequence not seen so far comes last. */
  lemma OrderNew(ss: seq<int>, e: int, seqs: seq<int>)
    requires InOrder(ss, seqs) && e !in ss && forall s :: s in seqs ==> s in ss
    ensures InOrder(ss + [e], seqs + [e])
  {
    OrderMore(ss, e, seqs);
    var more := seqs + [e];
    forall i, j | 0 <= i < j < |more| ensures Before(ss + [e], more[i], more[j]) {
      if j == |seqs| {
        assert more[i] == seqs[i] && seqs[i] in ss;
        var x :| 0 <= x < |ss| && ss[x] == seqs[i];
        assert (ss + [e])[x] == seqs[i];
      } else {
        assert more[i] == seqs[i] && more[j] == seqs[j];
      }
    }
  }

  /** The sequences of the batch that appear before s does. */
  ghost function Earlier(ss: seq<int>, s: int): set<int> {
    set t | t in ss && Before(ss, t, s)
  }

  /** The number of sequences that appear before s does: its row. */
  ghost function Rank(ss: seq<int>, s: int): nat {
    |Earlier(ss, s)|
  }

  lemma NotBoth(ss: seq<int>, s: int, t: int)
    requires Before(ss, s, t)
    ensures !Before(ss, t, s)
  {
    var x :| 0 <= x < |ss| && ss[x] == s && forall y :: 0 <= y < |ss| && ss[y] == t ==> x < y;
  }

  /** Row i belongs to the sequence that i others appear before, whatever the batch. */
  lemma RowIsRank(b: Batch, seqs: seq<int>, i: nat)
    requires SeqsOf(b, seqs) && i < |seqs|
    ensures Rank(b.sequences, seqs[i]) == i
  {
    var ss := b.sequences;
    forall t ensures t in Earlier(ss, seqs[i]) <==> t in seqs[..i] {
      if t in seqs[..i] {
        var j :| 0 <= j < i && seqs[j] == t;
        assert t in seqs;
      }
      if t in Earlier(ss, seqs[i]) {
        assert InBatch(b, |ss|, t);
        var j :| 0 <= j < |seqs| && seqs[j] == t;
        NotBoth(ss, t, seqs[i]);
        assert j < i;
      }
    }
    assert Earlier(ss, seqs[i]) == set t | t in seqs[..i];
    DistinctSize(seqs[..i]);
  }

  lemma {:induction false} DistinctSize(seqs: seq<int>)
    requires Distinct(seqs)
    ensures |set t | t in seqs| == |seqs|
  {
    if seqs != [] {
      var n := |seqs| - 1;
      DistinctSize(seqs[..n]);
      assert seqs == seqs[..n] + [seqs[n]];
      assert (set t | t in seqs) == (set t | t in seqs[..n]) + {seqs[n]};
    }
  }

  /** Every entry of the batch has its row. */
  lemma EntryRow(b: Batch, seqs: seq<int>, j: nat)
    requires SeqsOf(b, seqs) && j < |b.sequences|
    ensures Rank(b.sequences, b.sequences[j]) < |seqs| && seqs[Rank(b.sequences, b.sequences[j])] == b.sequences[j]
  {
    var s := b.sequences[j];
    assert InBatch(b, |b.sequences|, s);
    var i :| 0 <= i < |seqs| && seqs[i] == s;
    RowIsRank(b, seqs, i);
  }
}
