/** The nibble shuffle of mxfp4.WriteTo (convert/convert_gptoss.go): 32 four-bit elements in
    every 16 bytes, stored pairwise in the input and as two halves in the output. */
module Nibbles {

  type Byte = bv8

  function Low(b: Byte): Byte { b & 0x0F }

  function High(b: Byte): Byte { b >> 4 }

  /** Element e where byte j of a block holds elements 2j and 2j + 1. */
  function PairedElement(bytes: seq<Byte>, block: nat, e: nat): Byte
    requires e < 32 && 16 * block + 16 <= |bytes|
  {
    var b := bytes[16 * block + e / 2];
    if e % 2 == 0 then Low(b) else High(b)
  }

  /** Element e where byte m of a block holds elements m and m + 16. */
  function HalvedElement(bytes: seq<Byte>, block: nat, e: nat): Byte
    requires e < 32 && 16 * block + 16 <= |bytes|
  {
    if e < 16 then Low(bytes[16 * block + e]) else High(bytes[16 * block + (e - 16)])
  }

  predicate SameElement(before: seq<Byte>, after: seq<Byte>, block: nat, e: nat)
    requires e < 32 && 16 * block + 16 <= |before| && 16 * block + 16 <= |after|
  {
    HalvedElement(after, block, e) == PairedElement(before, block, e)
  }

  /** after, read in halves, holds the elements that before, read in pairs, holds. */
  ghost predicate SameElements(before: seq<Byte>, after: seq<Byte>, blocks: nat)
    requires 16 * blocks <= |before| && 16 * blocks <= |after|
  {
    forall k, e :: 0 <= k < blocks && 0 <= e < 32 ==> SameElement(before, after, k, e)
  }

  // ---------- one byte pair ----------

  /** The two bytes made of bytes j and j + 8 of a block. */
  function Mixed(a: Byte, b: Byte): (Byte, Byte) {
    ((a & 0x0F) | (b << 4), (a >> 4) | (b & 0xF0))
  }

  lemma MixedNibbles(a: Byte, b: Byte)
    ensures Low(Mixed(a, b).0) == Low(a) && High(Mixed(a, b).0) == Low(b)
    ensures Low(Mixed(a, b).1) == High(a) && High(Mixed(a, b).1) == High(b)
  {
  }

  /** A byte is its two nibbles. */
  lemma ByteIs(a: Byte, b: Byte)
    requires Low(a) == Low(b) && High(a) == High(b)
    ensures a == b
  {
    assert a == Low(a) | (High(a) << 4);
    assert b == Low(b) | (High(b) << 4);
  }

  // ---------- the loop ----------

  /** What one block becomes. */
  function ShuffledBlock(block: seq<Byte>): seq<Byte>
    requires |block| == 16
  {
    seq(16, m requires 0 <= m < 16 =>
      var mixed := Mixed(block[m / 2], block[m / 2 + 8]);
      if m % 2 == 0 then mixed.0 else mixed.1)
  }

  /** The inner loop: the block at i, mixed into tmp. */
  method MixBlock(bts: array<Byte>, i: nat) returns (tmp: array<Byte>)
    requires i + 16 <= bts.Length
    ensures fresh(tmp) && tmp.Length == 16 && tmp[..] == ShuffledBlock(bts[i..i + 16])
  {
    hide Mixed;
    tmp := new Byte[16];
    ghost var block := bts[i..i + 16];
    for j := 0 to 8
      invariant bts[i..i + 16] == block
      invariant forall m :: 0 <= m < 2 * j ==> tmp[m] == ShuffledBlock(block)[m]
    {
      var a, b := bts[i + j], bts[i + j + 8];
      assert a == block[j] && b == block[j + 8];
      tmp[2 * j], tmp[2 * j + 1] := Mixed(a, b).0, Mixed(a, b).1;
    }
    assert tmp[..] == ShuffledBlock(block);
  }

  /** The block at i, and it alone, has been rewritten. */
  ghost predicate BlockShuffled(before: seq<Byte>, after: seq<Byte>, i: nat) {
    && |after| == |before| && i + 16 <= |before| && after[i..i + 16] == ShuffledBlock(before[i..i + 16])
    && after[..i] == before[..i] && after[i + 16..] == before[i + 16..]
  }

  /** The body of the outer loop: the mixed block is copied back. */
  method ShuffleBlock(bts: array<Byte>, i: nat)
    requires i + 16 <= bts.Length
    modifies bts
    ensures BlockShuffled(old(bts[..]), bts[..], i)
  {
    hide ShuffledBlock;
    ghost var before := bts[..];
    assert bts[i..i + 16] == before[i..i + 16] && bts[..i] == before[..i] && bts[i + 16..] == before[i + 16..];
    var tmp := MixBlock(bts, i);
    for k := 0 to 16
      invariant tmp[..] == ShuffledBlock(old(bts[i..i + 16]))
      invariant bts[i..i + k] == tmp[..k] && bts[..i] == old(bts[..i]) && bts[i + k..] == old(bts[i + k..])
    {
      assert bts[i..i + k + 1] == bts[i..i + k] + [bts[i + k]];
      bts[i + k] := tmp[k];
    }
    assert tmp[..16] == tmp[..];
  }

  lemma BlockElements(before: seq<Byte>, after: seq<Byte>, k: nat, e: nat)
    requires e < 32 && 16 * k + 16 <= |before| == |after|
    requires after[16 * k..16 * k + 16] == ShuffledBlock(before[16 * k..16 * k + 16])
    ensures SameElement(before, after, k, e)
  {
    var m := if e < 16 then e else e - 16;
    var block := before[16 * k..16 * k + 16];
    assert after[16 * k + m] == after[16 * k..16 * k + 16][m];
    MixedNibbles(block[m / 2], block[m / 2 + 8]);
  }

  /** The shuffle, in place and block by block: every block holds the same 32 elements as before,
      in the other layout. */
  method Shuffle(bts: array<Byte>)
    requires bts.Length % 16 == 0
    modifies bts
    ensures SameElements(old(bts[..]), bts[..], bts.Length / 16)
  {
    hide SameElements, Done, BlockShuffled;
    ghost var before, done := bts[..], 0;
    NoneDone(before);
    var i := 0;
    while i < bts.Length
      invariant i == 16 * done && i <= bts.Length && Done(before, bts[..], done)
    {
      ghost var mid := bts[..];
      ShuffleBlock(bts, i);
      BlockDone(before, mid, bts[..], done);
      i := i + 16;
      done := done + 1;
    }
    AllDone(before, bts[..], done);
  }

  /** The first blocks are rewritten, and the rest is untouched. */
  ghost predicate Done(before: seq<Byte>, now: seq<Byte>, done: nat) {
    |now| == |before| && 16 * done <= |before| && now[16 * done..] == before[16 * done..] && SameElements(before, now, done)
  }

  lemma NoneDone(before: seq<Byte>)
    ensures Done(before, before, 0)
  {
    NoElements(before);
  }

  lemma AllDone(before: seq<Byte>, now: seq<Byte>, done: nat)
    requires Done(before, now, done) && 16 * done == |before|
    ensures |now| == |before| && done == |before| / 16 && SameElements(before, now, done)
  {
  }

  lemma NoElements(before: seq<Byte>)
    ensures SameElements(before, before, 0)
  {
  }

  /** One more block done. */
  lemma BlockDone(before: seq<Byte>, mid: seq<Byte>, after: seq<Byte>, done: nat)
    requires Done(before, mid, done) && BlockShuffled(mid, after, 16 * done)
    ensures Done(before, after, done + 1)
  {
    hide SameElement, ShuffledBlock;
    var i := 16 * done;
    assert mid[i..i + 16] == mid[i..][..16] == before[i..][..16] == before[i..i + 16];
    assert mid[i + 16..] == mid[i..][16..] == before[i..][16..] == before[i + 16..];
    forall k, e | 0 <= k < done + 1 && 0 <= e < 32 ensures SameElement(before, after, k, e) {
      if k < done {
        assert SameElement(before, mid, k, e);
        assert mid[..16 * k + 16] == mid[..i][..16 * k + 16] == after[..i][..16 * k + 16] == after[..16 * k + 16];
        SameBlock(before, mid, after, k, e);
      } else {
        BlockElements(before, after, k, e);
      }
    }
  }

  lemma SameBlock(before: seq<Byte>, mid: seq<Byte>, after: seq<Byte>, k: nat, e: nat)
    requires e < 32 && 16 * k + 16 <= |before| == |mid| == |after| && mid[..16 * k + 16] == after[..16 * k + 16]
    requires SameElement(before, mid, k, e)
    ensures SameElement(before, after, k, e)
  {
    assert forall m :: 0 <= m < 16 * k + 16 ==> mid[m] == mid[..16 * k + 16][m];
  }

  // ---------- invertible ----------

  /** The elements determine the output, and with it the whole rewrite. */
  lemma HalvesDetermine(before: seq<Byte>, a: seq<Byte>, b: seq<Byte>, blocks: nat)
    requires |before| == |a| == |b| == 16 * blocks
    requires SameElements(before, a, blocks) && SameElements(before, b, blocks)
    ensures a == b
  {
    forall i | 0 <= i < |a| ensures a[i] == b[i] {
      var k, m := i / 16, i % 16;
      assert SameElement(before, a, k, m) && SameElement(before, b, k, m);
      assert SameElement(before, a, k, m + 16) && SameElement(before, b, k, m + 16);
      ByteIs(a[i], b[i]);
    }
  }

  /** The rewrite loses nothing: different buffers never become the same. */
  lemma ShuffleInjective(a: seq<Byte>, b: seq<Byte>, after: seq<Byte>, blocks: nat)
    requires |a| == |b| == |after| == 16 * blocks
    requires SameElements(a, after, blocks) && SameElements(b, after, blocks)
    ensures a == b
  {
    forall i | 0 <= i < |a| ensures a[i] == b[i] {
      var k, j := i / 16, i % 16;
      assert SameElement(a, after, k, 2 * j) && SameElement(b, after, k, 2 * j);
      assert SameElement(a, after, k, 2 * j + 1) && SameElement(b, after, k, 2 * j + 1);
      ByteIs(a[i], b[i]);
    }
  }

  function Join(low: Byte, high: Byte): Byte { low | (high << 4) }

  /** Put the halves back into pairs. */
  function Unshuffled(after: seq<Byte>): seq<Byte>
    requires |after| % 16 == 0
  {
    seq(|after|, i requires 0 <= i < |after| =>
      Join(HalvedElement(after, i / 16, 2 * (i % 16)), HalvedElement(after, i / 16, 2 * (i % 16) + 1)))
  }

  lemma JoinNibbles(a: Byte, b: Byte)
    ensures Low(Join(Low(a), Low(b))) == Low(a) && High(Join(Low(a), Low(b))) == Low(b)
    ensures Low(High(a)) == High(a)
  {
  }

  /** ... and every buffer of whole blocks is the rewrite of one: the rewrite is invertible. */
  lemma ShuffleOnto(after: seq<Byte>, blocks: nat)
    requires |after| == 16 * blocks
    ensures |Unshuffled(after)| == |after| && SameElements(Unshuffled(after), after, blocks)
  {
    forall k, e | 0 <= k < blocks && 0 <= e < 32 ensures SameElement(Unshuffled(after), after, k, e) {
      UnshuffledElement(after, blocks, k, e);
    }
  }

  lemma UnshuffledElement(after: seq<Byte>, blocks: nat, k: nat, e: nat)
    requires |after| == 16 * blocks && k < blocks && e < 32
    ensures SameElement(Unshuffled(after), after, k, e)
  {
    var i := 16 * k + e / 2;
    assert i / 16 == k && i % 16 == e / 2;
    var x, y := HalvedElement(after, k, 2 * (e / 2)), HalvedElement(after, k, 2 * (e / 2) + 1);
    assert Low(x) == x && Low(y) == y by {
      JoinNibbles(after[16 * k + if 2 * (e / 2) < 16 then 2 * (e / 2) else 2 * (e / 2) - 16], 0);
      JoinNibbles(after[16 * k + if 2 * (e / 2) + 1 < 16 then 2 * (e / 2) + 1 else 2 * (e / 2) + 1 - 16], 0);
      LowLow(after[16 * k + if 2 * (e / 2) < 16 then 2 * (e / 2) else 2 * (e / 2) - 16]);
      LowLow(after[16 * k + if 2 * (e / 2) + 1 < 16 then 2 * (e / 2) + 1 else 2 * (e / 2) + 1 - 16]);
    }
    JoinNibbles(x, y);
  }

  lemma LowLow(a: Byte)
    ensures Low(Low(a)) == Low(a)
  {
  }
}
