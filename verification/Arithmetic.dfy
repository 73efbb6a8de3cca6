/** Products and quotients, for row-major offsets and padding. */
module Arithmetic {
  lemma MulMono(a: int, b: int, c: int)
    requires a <= b && c >= 0
    ensures a * c <= b * c
  {
  }

  lemma MulStep(a: int, c: int)
    ensures (a + 1) * c == a * c + c
  {
  }

  lemma MulSign(a: nat, b: nat)
    ensures 0 <= a * b
  {
  }

  lemma DivUnique(x: int, pad: int, q: int, r: int)
    requires 0 <= r < pad && x == q * pad + r
    ensures x / pad == q
  {
    var d := x / pad - q;
    assert x == (x / pad) * pad + x % pad;
    assert d * pad == r - x % pad;
    if d >= 1 {
      MulMono(1, d, pad);
    }
    if d <= -1 {
      MulMono(d, -1, pad);
    }
  }

  /** Where column x of row k lies in a flat buffer of rows of the given length. */
  function Idx(k: int, length: int, x: int): int {
    k * length + x
  }

  lemma IdxBound(k: int, n: int, length: int, x: int)
    requires 0 <= k < n && 0 <= x < length
    ensures 0 <= Idx(k, length, 0) <= Idx(k, length, x) < Idx(k + 1, length, 0) <= n * length
  {
    MulMono(k + 1, n, length);
    MulStep(k, length);
    MulSign(k, length);
  }

  lemma IdxBefore(j: int, k: int, length: int, x: int)
    requires 0 <= j < k && 0 <= x < length
    ensures 0 <= Idx(j, length, x) < Idx(k, length, 0)
  {
    IdxBound(j, k, length, x);
    MulMono(j + 1, k, length);
  }
}
