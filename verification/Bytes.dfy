/**
 Bytes as they lie in memory, and the element format of the ring buffer:
 a native `size_t` followed by that many bytes of data.
 */
module Bytes {

  type byte = b: int | 0 <= b < 256
  type Bytes = seq<byte>

  /** sizeof(size_t) on the 64-bit platforms the program targets. */
  const SIZE_T_BYTES: nat := 8
  /** One more than the largest `size_t`. */
  const SIZE_T_LIMIT: nat := 0x1_0000_0000_0000_0000

  function Pow256(width: nat): (p: nat)
    ensures p > 0
  {
    if width == 0 then 1 else 256 * Pow256(width - 1)
  }

  /** The low `width` bytes of `n`, least significant first. */
  function EncodeLE(n: nat, width: nat): (s: Bytes)
    ensures |s| == width
  {
    if width == 0 then [] else [n % 256] + EncodeLE(n / 256, width - 1)
  }

  function DecodeLE(s: Bytes): nat {
    if s == [] then 0 else s[0] + 256 * DecodeLE(s[1..])
  }

  /** Reading back what was written loses exactly the part that does not fit. */
  lemma {:induction false} DecodeEncode(n: nat, width: nat)
    ensures DecodeLE(EncodeLE(n, width)) == n % Pow256(width)
  {
    if width == 0 {
    } else {
      var rest := EncodeLE(n / 256, width - 1);
      assert ([n % 256] + rest)[1..] == rest;
      DecodeEncode(n / 256, width - 1);
      ModSplit(n, Pow256(width - 1));
    }
  }

  lemma ModSplit(n: nat, p: nat)
    requires p > 0
    ensures n % (256 * p) == n % 256 + 256 * ((n / 256) % p)
  {
    var q, r := (n / 256) / p, (n / 256) % p;
    assert n == 256 * (q * p + r) + n % 256;
    assert 256 * (q * p) == q * (256 * p);
    assert n == q * (256 * p) + (256 * r + n % 256);
    DivModUnique(n, 256 * p, q, 256 * r + n % 256);
  }

  /** A multiple of `d` is either at least `d`, or at most zero. */
  lemma MultipleGap(k: int, d: nat)
    ensures k >= 1 ==> k * d >= d
    ensures k <= 0 ==> k * d <= 0
  {
    if k >= 1 {
      assert k * d == (k - 1) * d + d;
    }
  }

  lemma DivModUnique(n: nat, d: nat, q: nat, r: nat)
    requires d > 0 && r < d && n == q * d + r
    ensures n / d == q && n % d == r
  {
    var q' := n / d;
    assert n == q' * d + n % d;
    assert (q - q') * d == q * d - q' * d;
    MultipleGap(q - q', d);
    MultipleGap(q' - q, d);
    assert (q' - q) * d == q' * d - q * d;
  }

  /** One stored element: the size header, then the data. */
  function Frame(data: Bytes): (f: Bytes)
    ensures |f| == SIZE_T_BYTES + |data|
  {
    EncodeLE(|data|, SIZE_T_BYTES) + data
  }

  /** A stored header reads back as the length it was made from. */
  lemma FrameHeader(data: Bytes)
    requires |data| < SIZE_T_LIMIT
    ensures Frame(data)[..SIZE_T_BYTES] == EncodeLE(|data|, SIZE_T_BYTES)
    ensures DecodeLE(Frame(data)[..SIZE_T_BYTES]) == |data|
    ensures Frame(data)[SIZE_T_BYTES..] == data
  {
    var n := |data|;
    SizeTRoundTrip(n);
    var header := EncodeLE(n, SIZE_T_BYTES);
    assert Frame(data) == header + data;
  }

  lemma SizeTRoundTrip(n: nat)
    requires n < SIZE_T_LIMIT
    ensures DecodeLE(EncodeLE(n, SIZE_T_BYTES)) == n
  {
    DecodeEncode(n, SIZE_T_BYTES);
    SizeTLimit();
  }

  lemma SizeTLimit()
    ensures Pow256(SIZE_T_BYTES) == SIZE_T_LIMIT
  {
    assert Pow256(2) == 0x1_0000;
    assert Pow256(4) == 0x1_0000_0000;
    assert Pow256(6) == 0x1_0000_0000_0000;
  }
}
