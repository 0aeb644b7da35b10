/** Bit-level arithmetic of the viewer: the LSB-first bit stream that the
    `bits` generator yields for a file, and the reverse direction, packing
    bits LSB-first into a number. */
module BitStream {

  /** One byte of the input or of the output file. */
  type byte = x: int | 0 <= x < 256

  /** One bit of the stream, as the generator yields it (0 or 1). */
  type bit = x: int | 0 <= x < 2

  function Pow2(n: nat): (r: nat)
    ensures r >= 1
  {
    if n == 0 then 1 else 2 * Pow2(n - 1)
  }

  /** Python's `x >> i` on a non-negative integer: halve `i` times. */
  function Shr(x: nat, i: nat): nat
  {
    if i == 0 then x else Shr(x / 2, i - 1)
  }

  /** Python's `x << k` on a non-negative integer: double `k` times. */
  function Shl(x: nat, k: nat): nat
  {
    if k == 0 then x else 2 * Shl(x, k - 1)
  }

  /** A shifted bit is 0 or the power of two at its position. */
  lemma {:induction false} ShlBit(b: bit, k: nat)
    ensures Shl(b, k) == if b == 0 then 0 else Pow2(k)
  {
    if k > 0 {
      ShlBit(b, k - 1);
    }
  }

  /** Python's `x | y` on non-negative integers, bit by bit. */
  function BitOr(x: nat, y: nat): nat
  {
    if x == 0 then y
    else if y == 0 then x
    else (if x % 2 == 1 || y % 2 == 1 then 1 else 0) + 2 * BitOr(x / 2, y / 2)
  }

  /** The `k` lowest bits of `x`, least significant first. */
  function LowBits(x: nat, k: nat): (r: seq<bit>)
    ensures |r| == k
  {
    if k == 0 then [] else [x % 2] + LowBits(x / 2, k - 1)
  }

  /** Element i of the low bits is `(x >> i) & 1`. */
  lemma {:induction false} LowBitsAt(x: nat, k: nat, i: nat)
    requires i < k
    ensures LowBits(x, k)[i] == Shr(x, i) % 2
  {
    if i > 0 {
      LowBitsAt(x / 2, k - 1, i - 1);
    }
  }

  /** The bit stream of a file: for every byte in file order, its eight bits
      `(b >> i) & 1` for i = 0..7. */
  function Bits(input: seq<byte>): (r: seq<bit>)
    ensures |r| == 8 * |input|
  {
    if input == [] then [] else LowBits(input[0], 8) + Bits(input[1..])
  }

  /** Stream position p holds bit `p % 8` of byte `p / 8`. */
  lemma {:induction false} BitsAt(input: seq<byte>, p: nat)
    requires p < 8 * |input|
    ensures Bits(input)[p] == Shr(input[p / 8], p % 8) % 2
  {
    if p < 8 {
      LowBitsAt(input[0], 8, p);
    } else {
      BitsAt(input[1..], p - 8);
      assert (p - 8) / 8 == p / 8 - 1 && (p - 8) % 8 == p % 8;
    }
  }

  /** The number whose bit i is v[i]: bits packed least significant first. */
  function PackLE(v: seq<bit>): (r: nat)
    ensures r < Pow2(|v|)
  {
    if v == [] then 0 else v[0] + 2 * PackLE(v[1..])
  }

  /** Packing is the inverse of taking the low bits of a number that fits. */
  lemma {:induction false} PackLowBits(x: nat, k: nat)
    requires x < Pow2(k)
    ensures PackLE(LowBits(x, k)) == x
  {
    if k > 0 {
      PackLowBits(x / 2, k - 1);
      assert LowBits(x, k)[1..] == LowBits(x / 2, k - 1);
    }
  }

  /** ... and taking the low bits undoes packing. */
  lemma {:induction false} LowBitsPack(v: seq<bit>)
    ensures LowBits(PackLE(v), |v|) == v
  {
    if v != [] {
      LowBitsPack(v[1..]);
      assert PackLE(v) % 2 == v[0] && PackLE(v) / 2 == PackLE(v[1..]);
    }
  }

  /** Adding one more bit at the top of a packed group. */
  lemma {:induction false} PackLEAppend(v: seq<bit>, b: bit)
    ensures PackLE(v + [b]) == PackLE(v) + Shl(b, |v|)
  {
    if v != [] {
      assert (v + [b])[1..] == v[1..] + [b];
      PackLEAppend(v[1..], b);
    }
  }

  /** `x | (b << k)` is `x + (b << k)` when `x` has no bit at position k or
      above; the result then has no bit above position k. */
  lemma {:induction false} BitOrDisjoint(x: nat, b: bit, k: nat)
    requires x < Pow2(k)
    ensures BitOr(x, Shl(b, k)) == x + Shl(b, k) < Pow2(k + 1)
  {
    ShlBit(b, k);
    if k > 0 && x != 0 && b == 1 {
      ShlBit(b, k - 1);
      BitOrDisjoint(x / 2, b, k - 1);
    }
  }
}
