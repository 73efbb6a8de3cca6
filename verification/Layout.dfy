/** The equal-length layout StartForward derives: how many tokens each sequence of the batch brings.
    A layer that takes entry j of the batch for token j % c of row j / c relies on more. */
module Layout {
  import opened Tokens
  import opened CacheModel
  import opened Arithmetic
  import opened Order
  import opened Passes

  /** The entries of a sequence stand next to each other. */
  ghost predicate Grouped(ss: seq<int>) {
    forall i, j, k :: 0 <= i <= j <= k < |ss| && ss[i] == ss[k] ==> ss[j] == ss[i]
  }

  /** The first k entries are c of the first sequence, c of the second, and so on. */
  ghost predicate Blocks(ss: seq<int>, seqs: seq<int>, c: nat, k: nat)
    requires 0 < c && k <= |ss|
  {
    forall j :: 0 <= j < k ==> InBlock(ss, seqs, c, j)
  }

  ghost predicate InBlock(ss: seq<int>, seqs: seq<int>, c: nat, j: nat)
    requires 0 < c && j < |ss|
  {
    j / c < |seqs| && ss[j] == seqs[j / c]
  }

  lemma {:induction false} CountMore(ss: seq<int>, a: nat, b: nat, s: int)
    requires a <= b <= |ss|
    ensures Count(ss, a, s) <= Count(ss, b, s)
    ensures (forall j :: a <= j < b ==> ss[j] != s) ==> Count(ss, b, s) == Count(ss, a, s)
    ensures (forall j :: a <= j < b ==> ss[j] == s) ==> Count(ss, b, s) == Count(ss, a, s) + (b - a)
  {
    if a < b {
      CountMore(ss, a, b - 1, s);
    }
  }

  /** Sequence i has k - i * c of the first k entries, k being inside its block or at its end. */
  lemma BlockCount(ss: seq<int>, seqs: seq<int>, c: nat, k: nat, i: nat)
    requires 0 < c && k <= |ss| && Distinct(seqs) && i < |seqs| && Blocks(ss, seqs, c, k) && i * c <= k <= i * c + c
    ensures Count(ss, k, seqs[i]) == k - i * c
  {
    var s, lo := seqs[i], i * c;
    forall j | 0 <= j < lo ensures ss[j] != s {
      assert InBlock(ss, seqs, c, j);
      if j / c >= i {
        MulMono(i, j / c, c);
      }
    }
    CountMore(ss, 0, lo, s);
    forall j | lo <= j < k ensures ss[j] == s {
      assert InBlock(ss, seqs, c, j);
      DivUnique(j, c, i, j - lo);
    }
    CountMore(ss, lo, k, s);
  }

  /** Whichever comes after full blocks is the next of the sequences. */
  lemma NotSkipped(b: Batch, seqs: seq<int>, c: nat, k: nat, i: nat, r: nat)
    requires ShapedBatch(b) && SeqsOf(b, seqs) && 0 < c && k < |b.sequences| && Blocks(b.sequences, seqs, c, k)
    requires k <= i * c && r < |seqs| && b.sequences[k] == seqs[r]
    ensures r <= i
  {
    var ss := b.sequences;
    if i < r {
      assert Before(ss, seqs[i], seqs[r]);
      var x :| 0 <= x < |ss| && ss[x] == seqs[i] && forall y :: 0 <= y < |ss| && ss[y] == seqs[r] ==> x < y;
      assert InBlock(ss, seqs, c, x);
      QuotientBelow(x, i, c);
    }
  }

  lemma QuotientBelow(x: nat, i: nat, c: nat)
    requires 0 < c && x < i * c
    ensures x / c < i
  {
    assert x == x / c * c + x % c;
    if x / c >= i {
      MulMono(i, x / c, c);
    }
  }

  /** The next entry goes on with its block, or starts the next one. */
  lemma NextInBlock(b: Batch, seqs: seq<int>, c: nat, k: nat)
    requires ShapedBatch(b) && SeqsOf(b, seqs) && Even(b, c) && 0 < c && Grouped(b.sequences)
    requires k < |b.sequences| && Blocks(b.sequences, seqs, c, k)
    ensures InBlock(b.sequences, seqs, c, k)
  {
    assert InBatch(b, |b.sequences|, b.sequences[k]);
    var r :| 0 <= r < |seqs| && seqs[r] == b.sequences[k];
    hide SeqsOf, Even, Grouped, Blocks;
    var i := k / c;
    assert k == i * c + k % c;
    if k % c != 0 {
      SameBlock(b, seqs, c, k, i);
    } else {
      NotSkipped(b, seqs, c, k, i, r);
      if r < i {
        MulMono(r + 1, i, c);
        Overfull(b, seqs, c, k, r);
      }
    }
  }

  lemma SameBlock(b: Batch, seqs: seq<int>, c: nat, k: nat, i: nat)
    requires ShapedBatch(b) && SeqsOf(b, seqs) && Even(b, c) && 0 < c && Grouped(b.sequences)
    requires k < |b.sequences| && Blocks(b.sequences, seqs, c, k) && i == k / c && i * c < k < i * c + c
    ensures i < |seqs| && b.sequences[k] == seqs[i]
  {
    var ss := b.sequences;
    assert InBlock(ss, seqs, c, k - 1);
    DivUnique(k - 1, c, i, k - 1 - i * c);
    assert ss[k - 1] == seqs[i] && InBatch(b, |ss|, ss[k - 1]);
    BlockCount(ss, seqs, c, k, i);
    if ss[k] != seqs[i] {
      CountMore(ss, k, |ss|, seqs[i]);
    }
  }

  /** A sequence that has had its c entries has no other. */
  lemma Overfull(b: Batch, seqs: seq<int>, c: nat, k: nat, r: nat)
    requires ShapedBatch(b) && SeqsOf(b, seqs) && Even(b, c) && 0 < c
    requires k < |b.sequences| && Blocks(b.sequences, seqs, c, k) && r < |seqs| && (r + 1) * c <= k
    ensures b.sequences[k] != seqs[r]
  {
    var ss, hi := b.sequences, r * c + c;
    BlockCount(ss, seqs, c, hi, r);
    assert InBatch(b, |ss|, seqs[r]) by { assert seqs[r] in seqs; }
    CountMore(ss, hi, k, seqs[r]);
    CountMore(ss, k + 1, |ss|, seqs[r]);
  }

  lemma {:induction false} GroupedBlocks(b: Batch, seqs: seq<int>, c: nat, k: nat)
    requires ShapedBatch(b) && SeqsOf(b, seqs) && Even(b, c) && 0 < c && Grouped(b.sequences) && k <= |b.sequences|
    ensures Blocks(b.sequences, seqs, c, k)
  {
    if k > 0 {
      GroupedBlocks(b, seqs, c, k - 1);
      NextInBlock(b, seqs, c, k - 1);
    }
  }

  lemma DivisionGroups(ss: seq<int>, c: nat)
    requires 0 < c && forall j :: 0 <= j < |ss| ==> Rank(ss, ss[j]) == j / c
    requires forall i, k :: 0 <= i < |ss| && 0 <= k < |ss| && Rank(ss, ss[i]) == Rank(ss, ss[k]) ==> ss[i] == ss[k]
    ensures Grouped(ss)
  {
    hide Rank;
    forall i, j, k | 0 <= i <= j <= k < |ss| && ss[i] == ss[k] ensures ss[j] == ss[i] {
      DivMono(i, j, c);
      DivMono(j, k, c);
    }
  }

  lemma DivMono(a: nat, b: nat, c: nat)
    requires 0 < c && a <= b
    ensures a / c <= b / c
  {
    assert a == a / c * c + a % c && b == b / c * c + b % c;
    if a / c > b / c {
      MulMono(b / c + 1, a / c, c);
    }
  }

  lemma GroupsDivide(b: Batch, seqs: seq<int>, c: nat, j: nat)
    requires ShapedBatch(b) && SeqsOf(b, seqs) && Even(b, c) && 0 < c && Grouped(b.sequences) && j < |b.sequences|
    ensures Rank(b.sequences, b.sequences[j]) == j / c
  {
    GroupedBlocks(b, seqs, c, |b.sequences|);
    assert InBlock(b.sequences, seqs, c, j);
    hide SeqsOf, Even, Grouped, Rank, Blocks;
    RowIsRank(b, seqs, j / c);
  }

  /** For a batch of c tokens from each of its sequences, dividing by c gives every entry the row of
      its own sequence just when the entries of each sequence stand next to each other. StartForward
      takes any order. */
  lemma DivisionIsRow(b: Batch, seqs: seq<int>, c: nat)
    requires ShapedBatch(b) && SeqsOf(b, seqs) && Even(b, c) && 0 < c
    ensures (forall j :: 0 <= j < |b.sequences| ==> Rank(b.sequences, b.sequences[j]) == j / c) <==> Grouped(b.sequences)
  {
    hide Rank, SeqsOf, Even, Grouped;
    var ss := b.sequences;
    forall j | 0 <= j < |ss| ensures Rank(ss, ss[j]) < |seqs| && seqs[Rank(ss, ss[j])] == ss[j] {
      EntryRow(b, seqs, j);
    }
    if Grouped(ss) {
      forall j | 0 <= j < |ss| ensures Rank(ss, ss[j]) == j / c {
        GroupsDivide(b, seqs, c, j);
      }
    }
    if forall j :: 0 <= j < |ss| ==> Rank(ss, ss[j]) == j / c {
      DivisionGroups(ss, c);
    }
  }

  function Interleaved(tokens: seq<Token>): Batch {
    Batch([0, 0, 1, 1], [7, 3, 7, 3], tokens)
  }

  /** Two new sequences taking turns: the batch is accepted as one of two tokens each, and entry 1
      has row 1, where division says row 0. */
  lemma InterleavedRows(tokens: seq<Token>)
    requires |tokens| == 4
    ensures var b := Interleaved(tokens);
      && Continues(map[], b) && SeqsOf(b, [7, 3]) && Even(b, 2) && !Grouped(b.sequences)
      && Rank(b.sequences, b.sequences[1]) == 1 != 1 / 2
  {
    var b := Interleaved(tokens);
    var ss := b.sequences;
    assert ss[0] == 7 && ss[1] == 3 && ss[2] == 7 && ss[3] == 3;
    assert InBatch(b, 4, 7) && InBatch(b, 4, 3);
    assert Before(ss, 7, 3);
    RowIsRank(b, [7, 3], 1);
    InterleavedCounts(ss);
    InterleavedContinues(tokens);
  }

  lemma InterleavedCounts(ss: seq<int>)
    requires ss == [7, 3, 7, 3]
    ensures Count(ss, 4, 7) == Count(ss, 4, 3) == 2
  {
    assert Count(ss, 0, 7) == Count(ss, 0, 3) == Count(ss, 1, 3) == 0;
    assert Count(ss, 2, 7) == Count(ss, 2, 3) == 1;
  }

  lemma InterleavedContinues(tokens: seq<Token>)
    requires |tokens| == 4
    ensures Continues(map[], Interleaved(tokens))
  {
    var b := Interleaved(tokens);
    for k := 0 to 4
      invariant |Hist(Appended(map[], b, k), 7)| == (k + 1) / 2 && |Hist(Appended(map[], b, k), 3)| == k / 2
      invariant forall j :: 0 <= j < k ==> ContinuesAt(map[], b, j)
    {
      AppendedStep(map[], b, k, 7);
      AppendedStep(map[], b, k, 3);
    }
  }
}
