/** Rounding to the cache padding, and the facts about it the cell range needs. */
module Padding {
  import opened Arithmetic
  import opened CacheModel

  function RoundDown(length: int, pad: int): int
    requires pad > 0
  {
    (length / pad) * pad
  }

  function RoundUp(length: int, pad: int): int
    requires pad > 0
  {
    ((length + pad - 1) / pad) * pad
  }

  function PadRange(r: Range, pad: int): Range
    requires pad > 0
  {
    Range(RoundDown(r.min, pad), RoundUp(r.max + 1, pad) - 1)
  }

  lemma RoundDownFacts(x: nat, pad: int)
    requires pad > 0
    ensures 0 <= RoundDown(x, pad) <= x < RoundDown(x, pad) + pad
  {
    var q, r := x / pad, x % pad;
    assert x == q * pad + r;
    MulSign(q, pad);
  }

  lemma RoundUpFacts(x: nat, pad: int)
    requires pad > 0
    ensures x <= RoundUp(x, pad) < x + pad
  {
    RoundDownFacts(x + pad - 1, pad);
  }

  lemma Multiple(k: int, pad: int)
    requires pad > 0
    ensures (k * pad) / pad == k
    ensures RoundDown(k * pad, pad) == k * pad
    ensures RoundUp(k * pad, pad) == k * pad
  {
    var x := k * pad;
    assert x / pad == k && (x + pad - 1) / pad == k by {
      DivUnique(x, pad, k, 0);
      DivUnique(x + pad - 1, pad, k, pad - 1);
    }
  }

  lemma MultipleMod(k: int, pad: int)
    requires pad > 0
    ensures (k * pad) % pad == 0
  {
    var x := k * pad;
    DivUnique(x, pad, k, 0);
    assert x == (x / pad) * pad + x % pad;
  }

  /** Padding widens the range to whole blocks and no further, keeps it inside a padded cell array,
      and padding the padded range again, as a rebuilt mask does, changes nothing. */
  lemma PadRangeWithin(r: Range, pad: int, blocks: nat)
    requires pad > 0 && 0 <= r.min <= r.max < blocks * pad
    ensures PadRange(r, pad).min % pad == 0 && r.min - pad < PadRange(r, pad).min
    ensures (PadRange(r, pad).max + 1) % pad == 0 && PadRange(r, pad).max < r.max + pad
    ensures 0 <= PadRange(r, pad).min <= r.min <= r.max <= PadRange(r, pad).max < blocks * pad
    ensures PadRange(PadRange(r, pad), pad) == PadRange(r, pad)
  {
    RoundDownFacts(r.min, pad);
    RoundUpFacts(r.max + 1, pad);
    var up := (r.max + 1 + pad - 1) / pad;
    Multiple(r.min / pad, pad);
    Multiple(up, pad);
    MultipleMod(r.min / pad, pad);
    MultipleMod(up, pad);
    if up > blocks {
      MulMono(blocks + 1, up, pad);
      MulStep(blocks, pad);
    }
    MulMono(up, blocks, pad);
  }
}
