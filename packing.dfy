/** The output file of the viewer. In-window bits are collected LSB-first in
    an accumulator (`buf`, `bufCnt`); a full accumulator is written out only
    when a later in-window bit arrives, and nothing is written after the last
    bit. So the bytes written are every complete group of eight bits except
    the final group, and the final group (one to eight bits) stays pending. */
module Packing {
  import opened BitStream

  /** The bytes written for the in-window bits `w`: one byte per group of
      eight, every group but the last. */
  function Packed(w: seq<bit>): (r: seq<byte>)
    ensures |r| == if |w| == 0 then 0 else (|w| - 1) / 8
  {
    if |w| <= 8 then []
    else
      assert Pow2(8) == 256;
      [PackLE(w[..8]) as byte] + Packed(w[8..])
  }

  /** The in-window bits still held in the accumulator. */
  function Pending(w: seq<bit>): seq<bit>
  {
    w[8 * |Packed(w)|..]
  }

  /** The accumulator is empty only before the first bit, and never holds
      more than eight bits. */
  lemma PendingSize(w: seq<bit>)
    ensures |Pending(w)| <= 8
    ensures |Pending(w)| == 0 <==> |w| == 0
  {
  }

  /** One more in-window bit: if the accumulator was full, its byte is
      written and the new bit starts a fresh group; otherwise the bit joins
      the pending group. */
  lemma {:induction false} PackedAppend(w: seq<bit>, b: bit)
    ensures Pow2(8) == 256
    ensures Packed(w + [b]) ==
      if |Pending(w)| == 8 then Packed(w) + [PackLE(Pending(w)) as byte] else Packed(w)
    ensures Pending(w + [b]) ==
      if |Pending(w)| == 8 then [b] else Pending(w) + [b]
  {
    assert Pow2(8) == 256;
    var w' := w + [b];
    if |w| > 8 {
      assert w'[..8] == w[..8];
      assert w'[8..] == w[8..] + [b];
      PendingDrop(w);
      PendingDrop(w');
      PackedAppend(w[8..], b);
    } else if |w| == 8 {
      assert w'[..8] == w;
      assert w'[8..] == [b];
    }
  }

  /** Past the first eight bits, the first output byte is written and the
      rest is packed the same way. */
  lemma PendingDrop(w: seq<bit>)
    requires |w| > 8
    ensures Pow2(8) == 256
    ensures Packed(w) == [PackLE(w[..8]) as byte] + Packed(w[8..])
    ensures Pending(w) == Pending(w[8..])
  {
    assert Pow2(8) == 256;
    var n := |Packed(w[8..])|;
    assert w[8..][8 * n..] == w[8 * (n + 1)..];
  }

  /** Byte k of the output packs in-window bits 8k .. 8k+7. */
  lemma {:induction false} PackedAt(w: seq<bit>, k: nat)
    requires k < |Packed(w)|
    ensures Packed(w)[k] == PackLE(w[8 * k..8 * k + 8])
  {
    PendingDrop(w);
    if k == 0 {
      assert w[0..8] == w[..8];
    } else {
      PackedAt(w[8..], k - 1);
      assert w[8..][8 * (k - 1)..8 * (k - 1) + 8] == w[8 * k..8 * k + 8];
    }
  }

  /** Bit j of output byte k is in-window bit 8k + j. */
  lemma PackedBitAt(w: seq<bit>, k: nat, j: nat)
    requires k < |Packed(w)| && j < 8
    ensures Shr(Packed(w)[k], j) % 2 == w[8 * k + j]
  {
    var g := w[8 * k..8 * k + 8];
    var x := Packed(w)[k];
    PackedAt(w, k);
    assert x == PackLE(g) && |g| == 8;
    LowBitsPack(g);
    LowBitsAt(x, 8, j);
    assert g[j] == w[8 * k + j];
  }

  /** Re-packing the bit stream of a non-empty file gives the file back
      without its last byte. */
  lemma {:induction false} PackedBits(input: seq<byte>)
    requires |input| > 0
    ensures Packed(Bits(input)) == input[..|input| - 1]
  {
    var head := LowBits(input[0], 8);
    assert Bits(input)[..8] == head;
    assert Bits(input)[8..] == Bits(input[1..]);
    assert Pow2(8) == 256;
    PackLowBits(input[0], 8);
    if |input| > 1 {
      PackedBits(input[1..]);
      assert input[..|input| - 1] == [input[0]] + input[1..][..|input| - 2];
    }
  }
}
