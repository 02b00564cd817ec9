/** Bytes (`u8`) and their most-significant-bit-first expansion into bits, the order in
    which every transmitter of the crate sends a byte. A received bit is also a `u8`,
    normally 0 or 1. */
module Bytes {

  /** The mask `1 << k` of bit `k` (bit 0 is the least significant). */
  function Mask(k: nat): bv8
    requires k < 8
  {
    (1 as bv8) << k
  }

  /** `byte & (1 << k) != 0`. */
  predicate BitSet(b: bv8, k: nat)
    requires k < 8
  {
    b & Mask(k) != 0
  }

  /** Bit `i` of a byte counted from the most significant end. */
  predicate MsbSet(b: bv8, i: nat)
    requires i < 8
  {
    BitSet(b, 7 - i)
  }

  /** The bit a transmitter sends at position `i` of a byte (position 0 first),
      as the received `u8`. */
  function SentBit(b: bv8, i: nat): (r: bv8)
    requires i < 8
    ensures r == 1 <==> MsbSet(b, i)
    ensures r == 0 <==> !MsbSet(b, i)
  {
    if MsbSet(b, i) then 1 else 0
  }

  /** The eight bits of a byte, most significant first. */
  function ByteBits(b: bv8): (r: seq<bv8>)
    ensures |r| == 8
    ensures forall i :: 0 <= i < 8 ==> r[i] == SentBit(b, i)
  {
    seq(8, i requires 0 <= i < 8 => SentBit(b, i))
  }

  /** The bit stream of a payload: each byte's bits, most significant first. */
  function Expand(data: seq<bv8>): (r: seq<bv8>)
    ensures |r| == 8 * |data|
  {
    if |data| == 0 then [] else ByteBits(data[0]) + Expand(data[1..])
  }

  /** Bit `i` of byte `j` of the payload sits at position `8 * j + i` of the stream. */
  lemma {:induction false} ExpandAt(data: seq<bv8>, j: nat, i: nat)
    requires j < |data| && i < 8
    ensures 8 * j + i < |Expand(data)|
    ensures Expand(data)[8 * j + i] == SentBit(data[j], i)
  {
    if j > 0 {
      ExpandAt(data[1..], j - 1, i);
      assert 8 * j + i == 8 + (8 * (j - 1) + i);
    }
  }

  /** Expansion distributes over concatenation. */
  lemma {:induction false} ExpandAppend(a: seq<bv8>, b: seq<bv8>)
    ensures Expand(a + b) == Expand(a) + Expand(b)
  {
    if |a| > 0 {
      assert (a + b)[1..] == a[1..] + b;
      ExpandAppend(a[1..], b);
    } else {
      assert a + b == b;
    }
  }
}
