/**
 * Bytes, 64-bit words in memory and 8-byte alignment, as the ring buffer uses them
 * (core/rdma_adaptor.hpp).
 */
module Words {
  type byte = x: int | 0 <= x < 256

  // sizeof(uint64_t)
  const WORD := 8

  /** Align down. */
  function Floor(val: nat, alignment: nat): (r: nat)
    requires alignment != 0
    ensures r <= val < r + alignment && r % alignment == 0
  {
    FloorIsMultiple(val, alignment);
    val - val % alignment
  }

  lemma FloorIsMultiple(val: nat, alignment: nat)
    requires alignment != 0
    ensures (val - val % alignment) % alignment == 0
  {
    var q := val / alignment;
    assert val - val % alignment == q * alignment;
    MultipleModZero(q, alignment);
  }

  /** No larger multiple fits. */
  lemma FloorIsLargest(val: nat, alignment: nat, m: nat)
    requires alignment != 0 && m % alignment == 0 && m <= val
    ensures m <= Floor(val, alignment)
  {
    var p, q := m / alignment, val / alignment;
    assert m == p * alignment && val == q * alignment + val % alignment;
    MulDiff(p, q, alignment);
    if p > q { MulBound(p - q, alignment); } else { MulBound(q - p, alignment); }
    MulDiff(q, p, alignment);
  }

  /** The number of words that hold n bytes. */
  function WordsOf(n: nat): (w: nat)
    ensures n <= WORD * w < n + WORD
  {
    (n + WORD - 1) / WORD
  }

  /** Align up to the next word. */
  function CeilWord(val: nat): (r: nat)
    ensures r == WORD * WordsOf(val)
  {
    if val % WORD == 0 then val else val - val % WORD + WORD
  }

  function Zeros(n: nat): (z: seq<byte>)
    ensures |z| == n && forall i :: 0 <= i < n ==> z[i] == 0
  {
    seq(n, _ => 0)
  }

  function Pow256(k: nat): (r: nat)
    ensures r > 0
  {
    if k == 0 then 1 else 256 * Pow256(k - 1)
  }

  /** Little-endian store of n in k bytes. */
  function Encode(n: nat, k: nat): (s: seq<byte>)
    ensures |s| == k
  {
    if k == 0 then [] else [n % 256] + Encode(n / 256, k - 1)
  }

  /** Little-endian load. */
  function Decode(s: seq<byte>): nat {
    if s == [] then 0 else s[0] + 256 * Decode(s[1..])
  }

  lemma {:induction false} DecodeEncode(n: nat, k: nat)
    requires n < Pow256(k)
    ensures Decode(Encode(n, k)) == n
  {
    if k > 0 {
      DecodeEncode(n / 256, k - 1);
      assert Encode(n, k)[1..] == Encode(n / 256, k - 1);
    }
  }

  lemma {:induction false} DecodeZeros(k: nat)
    ensures Decode(Zeros(k)) == 0
  {
    if k > 0 {
      DecodeZeros(k - 1);
      assert Zeros(k)[1..] == Zeros(k - 1);
    }
  }

  lemma {:induction false} MultipleModZero(q: nat, r: nat)
    requires r > 0
    ensures (q * r) % r == 0
  {
    if q > 0 {
      MultipleModZero(q - 1, r);
      AddRingMod((q - 1) * r, r);
      assert q * r == (q - 1) * r + r;
    }
  }

  lemma AddRingMod(a: nat, r: nat)
    requires r > 0
    ensures (a + r) % r == a % r
  {
    var q, q' := a / r, (a + r) / r;
    MulDiff(q', q + 1, r);
    MulDiff(q + 1, q, r);
    MulBound(q' - q - 1, r);
  }

  lemma MulDiff(x: int, y: int, r: nat)
    ensures (x - y) * r == x * r - y * r
  {
  }

  lemma MulBound(x: int, r: nat)
    ensures x >= 1 ==> x * r >= r
    ensures x <= 0 ==> x * r <= 0
    ensures x <= -1 ==> x * r + r <= 0
  {
  }

  /** Two positions that fall on the same ring cell are at least one ring apart. */
  lemma SameCell(a: nat, b: nat, r: nat)
    requires r > 0 && a % r == b % r && a < b
    ensures b - a >= r
  {
    MulDiff(b / r, a / r, r);
    MulBound(b / r - a / r, r);
  }
}
