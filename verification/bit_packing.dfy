/** Packing received bits back into bytes (`bits_to_bytes`) and text (`bits_to_string`).
    The same two functions appear unchanged in the older crate layout. */
module BitPacking {
  import opened Optional
  import opened Bytes
  import opened Utf8

  /** The byte one chunk of at most eight bits packs into: the bit at `index` of the
      chunk sets bit `7 - index` of the byte when it equals 1; other values set nothing. */
  function PackChunk(chunk: seq<bv8>): bv8
    requires |chunk| <= 8
    decreases |chunk|
  {
    if |chunk| == 0 then 0
    else
      var last := |chunk| - 1;
      PackChunk(chunk[..last]) | (if chunk[last] == 1 then Mask(7 - last) else 0)
  }

  /** The bytes of a bit stream, chunk by chunk of eight; a short last chunk is padded
      with zero bits. */
  function Pack(bits: seq<bv8>): (r: seq<bv8>)
    ensures |r| == (|bits| + 7) / 8
    decreases |bits|
  {
    if |bits| == 0 then []
    else if |bits| <= 8 then [PackChunk(bits)]
    else [PackChunk(bits[..8])] + Pack(bits[8..])
  }

  lemma MaskBits(x: bv8, k: nat, m: nat)
    requires k < 8 && m < 8
    ensures BitSet(x | Mask(k), m) <==> BitSet(x, m) || m == k
  {
  }

  lemma ZeroBits(m: nat)
    requires m < 8
    ensures !BitSet(0, m)
  {
  }

  /** A stream holds a 1 at position `k`. */
  predicate OneAt(bits: seq<bv8>, k: nat) {
    k < |bits| && bits[k] == 1
  }

  /** Bit `7 - i` of a packed chunk is set exactly when the chunk holds a 1 at `i`. */
  lemma {:induction false} PackChunkBits(chunk: seq<bv8>, i: nat)
    requires |chunk| <= 8 && i < 8
    ensures MsbSet(PackChunk(chunk), i) <==> OneAt(chunk, i)
    decreases |chunk|
  {
    if |chunk| == 0 {
      ZeroBits(7 - i);
    } else {
      var last := |chunk| - 1;
      PackChunkBits(chunk[..last], i);
      MaskBits(PackChunk(chunk[..last]), 7 - last, 7 - i);
    }
  }

  /** A byte is determined by its eight bits. */
  lemma BitsDetermineByte(x: bv8, y: bv8)
    requires forall k :: 0 <= k < 8 ==> (BitSet(x, k) <==> BitSet(y, k))
    ensures x == y
  {
    // the two bytes differ in no bit
    var d := x ^ y;
    assert BitSet(x, 0) == BitSet(y, 0);
    assert d & 1 == 0;
    assert BitSet(x, 1) == BitSet(y, 1);
    assert d & 2 == 0;
    assert BitSet(x, 2) == BitSet(y, 2);
    assert d & 4 == 0;
    assert BitSet(x, 3) == BitSet(y, 3);
    assert d & 8 == 0;
    assert BitSet(x, 4) == BitSet(y, 4);
    assert d & 16 == 0;
    assert BitSet(x, 5) == BitSet(y, 5);
    assert d & 32 == 0;
    assert BitSet(x, 6) == BitSet(y, 6);
    assert d & 64 == 0;
    assert BitSet(x, 7) == BitSet(y, 7);
    assert d & 128 == 0;
  }

  /** Bit `7 - i` of byte `j` of the packed stream is set exactly when bit `8 * j + i`
      of the stream exists and equals 1. */
  lemma {:induction false} PackBits(bits: seq<bv8>, j: nat, i: nat)
    requires j < |Pack(bits)| && i < 8
    ensures MsbSet(Pack(bits)[j], i) <==> OneAt(bits, 8 * j + i)
    decreases |bits|
  {
    if |bits| <= 8 {
      PackChunkBits(bits, i);
    } else if j == 0 {
      PackChunkBits(bits[..8], i);
    } else {
      PackBits(bits[8..], j - 1, i);
      assert 8 * j + i == 8 + (8 * (j - 1) + i);
    }
  }

  /** Packing undoes the most-significant-bit-first expansion every transmitter uses. */
  lemma {:induction false} PackExpand(data: seq<bv8>)
    ensures Pack(Expand(data)) == data
  {
    if |data| > 0 {
      var bits := Expand(data);
      var head := ByteBits(data[0]);
      assert bits == head + Expand(data[1..]);
      assert bits[..8] == head;
      forall k | 0 <= k < 8
        ensures BitSet(PackChunk(head), k) <==> BitSet(data[0], k)
      {
        PackChunkBits(head, 7 - k);
      }
      BitsDetermineByte(PackChunk(head), data[0]);
      if |data| == 1 {
        assert bits == head;
      } else {
        assert bits[8..] == Expand(data[1..]);
        PackExpand(data[1..]);
        assert Pack(bits) == [PackChunk(bits[..8])] + Pack(bits[8..]);
      }
    }
  }

  /** The inner loop of `bits_to_bytes`: or-ing in the mask of every bit equal to 1. */
  method PackChunkBytes(chunk: seq<bv8>) returns (byte: bv8)
    requires |chunk| <= 8
    ensures forall i :: 0 <= i < 8 ==> (MsbSet(byte, i) <==> OneAt(chunk, i))
    ensures byte == PackChunk(chunk)
  {
    byte := 0;
    var index := 0;
    while index < |chunk|
      invariant 0 <= index <= |chunk|
      invariant byte == PackChunk(chunk[..index])
    {
      assert chunk[..index + 1][..index] == chunk[..index];
      if chunk[index] == 1 {
        byte := byte | Mask(7 - index);
      }
      index := index + 1;
    }
    assert chunk[..index] == chunk;
    forall i | 0 <= i < 8
      ensures MsbSet(byte, i) <==> OneAt(chunk, i)
    {
      PackChunkBits(chunk, i);
    }
  }

  /** `bits_to_bytes`: every chunk of eight bits becomes one byte, built by or-ing in the
      mask of each bit equal to 1. */
  method BitsToBytes(bits: seq<bv8>) returns (bytes: seq<bv8>)
    ensures bytes == Pack(bits)
    ensures |bytes| == (|bits| + 7) / 8
    ensures forall j, i :: 0 <= j < |bytes| && 0 <= i < 8 ==>
              (MsbSet(bytes[j], i) <==> OneAt(bits, 8 * j + i))
  {
    bytes := [];
    var start := 0;
    while start < |bits|
      invariant 0 <= start <= |bits|
      invariant bytes + Pack(bits[start..]) == Pack(bits)
    {
      var stop := if start + 8 <= |bits| then start + 8 else |bits|;
      var chunk := bits[start..stop];
      var byte := PackChunkBytes(chunk);
      if stop < |bits| {
        assert bits[start..][..8] == chunk;
        assert bits[start..][8..] == bits[stop..];
      } else {
        assert bits[start..] == chunk;
      }
      bytes := bytes + [byte];
      start := stop;
    }
    forall j, i | 0 <= j < |bytes| && 0 <= i < 8
      ensures MsbSet(bytes[j], i) <==> OneAt(bits, 8 * j + i)
    {
      PackBits(bits, j, i);
    }
  }

  /** `bits_to_string`: the packed bytes as a Rust `String`, i.e. as its UTF-8 bytes;
      `None` is the panic on bytes that are not well-formed UTF-8. */
  function BitsToString(bits: seq<bv8>): (r: Option<seq<bv8>>)
    ensures r.Some? <==> ValidUtf8(Pack(bits))
    ensures r.Some? ==> r.value == Pack(bits)
  {
    var bytes := Pack(bits);
    if ValidUtf8(bytes) then Some(bytes) else None
  }

  /** A transmitted ASCII text is received back as the same text. */
  lemma AsciiRoundTrip(text: seq<bv8>)
    requires forall i :: 0 <= i < |text| ==> text[i] < 0x80
    ensures BitsToString(Expand(text)) == Some(text)
  {
    PackExpand(text);
    AsciiIsValid(text);
  }

  /** A lone `0xFF` byte is not UTF-8, so receiving its bits panics. */
  lemma InvalidTextPanics()
    ensures BitsToString(Expand([0xFF])) == None
  {
    PackExpand([0xFF]);
  }
}
