/** Properties of a whole run of the viewer, proved from the closed forms:
    what the terminal shows (which bits, how many lines, how many labels,
    which colour) and what the output file holds. */
module Viewer {
  import opened BitStream
  import opened Packing
  import opened Window
  import opened Render
  import opened Layout

  /** The bit values printed, in order. */
  function Shown(t: seq<Token>): seq<bit>
  {
    if t == [] then [] else (if t[0].Bit? then [t[0].value] else []) + Shown(t[1..])
  }

  /** The number of line breaks printed. */
  function Breaks(t: seq<Token>): nat
  {
    if t == [] then 0 else (if t[0].Newline? then 1 else 0) + Breaks(t[1..])
  }

  /** The number of position labels printed. */
  function Labels(t: seq<Token>): nat
  {
    if t == [] then 0 else (if t[0].Label? then 1 else 0) + Labels(t[1..])
  }

  lemma {:induction false} CountAppend(a: seq<Token>, b: seq<Token>)
    ensures Shown(a + b) == Shown(a) + Shown(b)
    ensures Breaks(a + b) == Breaks(a) + Breaks(b)
    ensures Labels(a + b) == Labels(a) + Labels(b)
  {
    if a == [] {
      assert a + b == b;
    } else {
      assert (a + b)[0] == a[0] && (a + b)[1..] == a[1..] + b;
      CountAppend(a[1..], b);
    }
  }

  /** What one bit prints: the bit itself, a break when `BreakBefore`
      holds and a label when it starts a line. */
  lemma TokensAtCounts(cfg: Config, w: seq<bit>, k: nat)
    requires k < |w|
    ensures Shown(TokensAt(cfg, w, k)) == [w[k]]
    ensures Breaks(TokensAt(cfg, w, k)) == if BreakBefore(cfg.columns, k) then 1 else 0
    ensures Labels(TokensAt(cfg, w, k)) == if LineCol(cfg.columns, k) == 0 then 1 else 0
  {
    var brk: seq<Token> := if BreakBefore(cfg.columns, k) then [Newline] else [];
    var tag: seq<Token> := if LineCol(cfg.columns, k) == 0 then [Label(FirstPos(cfg.skip) + k - cfg.skip, cfg.skip)] else [];
    var one := [Bit(w[k], ColourAt(cfg, w, k))];
    CountAppend(brk + tag, one);
    CountAppend(brk, tag);
  }

  /** The number of lines that `n` bits fill grows by one exactly at a bit
      that starts a line. */
  lemma LineCount(k: nat, m: nat)
    requires m >= 1
    ensures (k + m) / m == (k + m - 1) / m + (if k % m == 0 then 1 else 0)
  {
    DivStep(k + m, m);
    ModUnique(k + m, m, k / m + 1, k % m);
  }

  /** The terminal shows exactly the in-window bits, in stream order. */
  lemma {:induction false} ScreenShown(cfg: Config, w: seq<bit>)
    ensures Shown(Screen(cfg, w)) == w
  {
    if w != [] {
      var k := |w| - 1;
      ScreenShown(cfg, w[..k]);
      CountAppend(Screen(cfg, w[..k]), TokensAt(cfg, w, k));
      TokensAtCounts(cfg, w, k);
      assert w[..k] + [w[k]] == w;
    }
  }

  /** With a width of at least 1 the line breaks come after every
      `columns` bits: `n` bits take `(n - 1) / columns` breaks, so bit `k`
      is on line `k / columns`. A width of 0 or less breaks before every
      bit. */
  lemma {:induction false} ScreenBreaks(cfg: Config, w: seq<bit>)
    ensures Breaks(Screen(cfg, w)) ==
      if cfg.columns <= 0 then |w|
      else if w == [] then 0
      else (|w| - 1) / cfg.columns
  {
    if w != [] {
      var k := |w| - 1;
      ScreenBreaks(cfg, w[..k]);
      CountAppend(Screen(cfg, w[..k]), TokensAt(cfg, w, k));
      TokensAtCounts(cfg, w, k);
      if cfg.columns > 0 && k > 0 {
        LineColMod(cfg.columns, k);
        DivStep(k, cfg.columns);
      }
    }
  }

  /** One label per line: `n` bits on lines of `columns` take
      `ceil(n / columns)` labels; a width of 0 or less labels every bit. */
  lemma {:induction false} ScreenLabels(cfg: Config, w: seq<bit>)
    ensures Labels(Screen(cfg, w)) ==
      if cfg.columns <= 0 then |w| else (|w| + cfg.columns - 1) / cfg.columns
  {
    if w == [] {
      if cfg.columns > 0 {
        ModUnique(cfg.columns - 1, cfg.columns, 0, cfg.columns - 1);
      }
    } else {
      var k := |w| - 1;
      ScreenLabels(cfg, w[..k]);
      CountAppend(Screen(cfg, w[..k]), TokensAt(cfg, w, k));
      TokensAtCounts(cfg, w, k);
      if cfg.columns > 0 {
        LineColMod(cfg.columns, k);
        LineCount(k, cfg.columns);
      }
    }
  }

  /** A bit is green exactly when a pattern is given and the in-window bits
      up to it end in the pattern; otherwise white when grid mode is on and
      it sits at a multiple of 8 on its line, and magenta in every other
      case. */
  lemma ColourCases(cfg: Config, w: seq<bit>, k: nat)
    requires k < |w|
    ensures ColourAt(cfg, w, k) == Green <==>
      |cfg.pattern| > 0 && |cfg.pattern| <= k + 1 && Chars(w[k + 1 - |cfg.pattern|..k + 1]) == cfg.pattern
    ensures ColourAt(cfg, w, k) == White <==>
      !EndsWith(cfg.pattern, w[..k + 1]) && cfg.grid && LineCol(cfg.columns, k) % 8 == 0
  {
    if |cfg.pattern| <= k + 1 {
      assert w[..k + 1][k + 1 - |cfg.pattern|..] == w[k + 1 - |cfg.pattern|..k + 1];
    }
  }

  /** The output file of a run, from the closed form. */
  lemma RenderOut(cfg: Config, input: seq<byte>)
    ensures Render.Render(cfg, input).out ==
      if cfg.hasOutput then Packed(Windowed(cfg.skip, cfg.length, Bits(input))) else []
  {
    RenderClosed(cfg, input);
  }

  /** A run without an output file writes nothing; with one it writes one
      byte for every complete group of eight in-window bits except the last
      group: `ceil(n / 8) - 1` bytes for `n > 0` in-window bits. */
  lemma OutputSize(cfg: Config, input: seq<byte>)
    ensures var n := |Windowed(cfg.skip, cfg.length, Bits(input))|;
      |Render.Render(cfg, input).out| == if !cfg.hasOutput || n == 0 then 0 else (n - 1) / 8
  {
    RenderOut(cfg, input);
  }

  /** Bit `j` of output byte `k` is in-window bit `8k + j`. */
  lemma OutputBits(cfg: Config, input: seq<byte>, k: nat, j: nat)
    requires j < 8 && k < |Render.Render(cfg, input).out|
    ensures var w := Windowed(cfg.skip, cfg.length, Bits(input));
      8 * k + j < |w| && Shr(Render.Render(cfg, input).out[k], j) % 2 == w[8 * k + j]
  {
    RenderOut(cfg, input);
    var w := Windowed(cfg.skip, cfg.length, Bits(input));
    PackedBitAt(w, k, j);
  }

  /** Without a window the output file is the input without its last byte:
      the last group of eight bits stays in the accumulator. */
  lemma FullWindowOutput(cfg: Config, input: seq<byte>)
    requires cfg.skip == 0 && cfg.length == 0 && cfg.hasOutput
    ensures Render.Render(cfg, input).out == if input == [] then [] else input[..|input| - 1]
  {
    var s := Bits(input);
    WindowedIsSlice(0, 0, s);
    assert Windowed(0, 0, s) == s[0..|s|] == s;
    if input != [] {
      PackedBits(input);
    }
    RenderOut(cfg, input);
  }

  /** The stream of two files back to back is the two streams back to
      back. */
  lemma {:induction false} BitsAppend(a: seq<byte>, b: seq<byte>)
    ensures Bits(a + b) == Bits(a) + Bits(b)
  {
    if a == [] {
      assert a + b == b;
    } else {
      assert (a + b)[0] == a[0] && (a + b)[1..] == a[1..] + b;
      BitsAppend(a[1..], b);
    }
  }

  lemma SplitThree<T>(s: seq<T>, i: nat, j: nat)
    requires i <= j <= |s|
    ensures s == s[..i] + s[i..j] + s[j..]
  {
  }

  lemma SliceMiddle<T>(a: seq<T>, b: seq<T>, c: seq<T>)
    ensures (a + b + c)[|a|..|a| + |b|] == b
  {
  }

  /** The bits of bytes `k .. k + m` of a file are stream positions
      `8k .. 8(k + m)`. */
  lemma BitsSlice(input: seq<byte>, k: nat, m: nat)
    requires k + m <= |input|
    ensures Bits(input)[8 * k..8 * (k + m)] == Bits(input[k..k + m])
  {
    var pre, mid, post := input[..k], input[k..k + m], input[k + m..];
    SplitThree(input, k, k + m);
    BitsAppend(pre + mid, post);
    BitsAppend(pre, mid);
    SliceMiddle(Bits(pre), Bits(mid), Bits(post));
  }

  /** A byte-aligned window of `m` bytes starting at byte `k` writes those
      bytes except the last. */
  lemma AlignedWindowOutput(cfg: Config, input: seq<byte>, k: nat, m: nat)
    requires cfg.skip == 8 * k && cfg.length == 8 * m && cfg.hasOutput
    requires 0 < m && k + m <= |input|
    ensures Render.Render(cfg, input).out == input[k..k + m - 1]
  {
    var mid := input[k..k + m];
    AlignedWindow(input, k, m);
    PackedBits(mid);
    assert mid[..m - 1] == input[k..k + m - 1];
    RenderOut(cfg, input);
  }

  /** A byte-aligned window selects the bits of whole bytes. */
  lemma AlignedWindow(input: seq<byte>, k: nat, m: nat)
    requires 0 < m && k + m <= |input|
    ensures Windowed(8 * k, 8 * m, Bits(input)) == Bits(input[k..k + m])
  {
    var s := Bits(input);
    WindowedIsSlice(8 * k, 8 * m, s);
    assert WindowStart(8 * k, |s|) == 8 * k;
    assert WindowEnd(8 * k, 8 * m, |s|) == 8 * (k + m);
    BitsSlice(input, k, m);
  }

  /** The colour of a bit depends only on the bits up to it. */
  lemma ColourPrefix(cfg: Config, v: seq<bit>, w: seq<bit>, i: nat)
    requires |v| <= |w| && v == w[..|v|] && i < |v|
    ensures ColourAt(cfg, v, i) == ColourAt(cfg, w, i)
  {
    assert v[..i + 1] == w[..i + 1];
  }

  /** A window that fits on one line prints one label, holding offset 0
      and the skip, and then its bits in their colours. */
  lemma {:induction false} OneLine(cfg: Config, w: seq<bit>)
    requires cfg.skip >= 0 && 0 < |w| <= cfg.columns
    ensures var t := Screen(cfg, w);
      |t| == |w| + 1 && t[0] == Label(0, cfg.skip)
      && forall i :: 0 <= i < |w| ==> t[i + 1] == Bit(w[i], ColourAt(cfg, w, i))
  {
    var k := |w| - 1;
    var v := w[..k];
    if k == 0 {
      assert v == [];
    } else {
      OneLine(cfg, v);
      var tv, t := Screen(cfg, v), Screen(cfg, w);
      assert LineCol(cfg.columns, k) == k;
      var last := Bit(w[k], ColourAt(cfg, w, k));
      assert TokensAt(cfg, w, k) == [last];
      assert t == tv + [last];
      forall i | 0 <= i < |w|
        ensures t[i + 1] == Bit(w[i], ColourAt(cfg, w, i))
      {
        if i < k {
          ColourPrefix(cfg, v, w, i);
          assert t[i + 1] == tv[i + 1];
        }
      }
    }
  }

  lemma OneLineAt(cfg: Config, w: seq<bit>, i: nat)
    requires cfg.skip >= 0 && 0 < |w| <= cfg.columns && i < |w|
    ensures var t := Screen(cfg, w);
      |t| == |w| + 1 && t[0] == Label(0, cfg.skip) && t[i + 1] == Bit(w[i], ColourAt(cfg, w, i))
  {
    OneLine(cfg, w);
  }

  lemma OneBits()
    ensures Bits([1]) == [1, 0, 0, 0, 0, 0, 0, 0]
  {
    var z := LowBits(0, 7);
    assert z == [0, 0, 0, 0, 0, 0, 0];
    assert LowBits(1, 8) == [1] + z;
    assert [1 as byte][1..] == [];
  }

  lemma FiveBits()
    ensures Bits([5]) == [1, 0, 1, 0, 0, 0, 0, 0]
  {
    var z := LowBits(0, 5);
    assert z == [0, 0, 0, 0, 0];
    assert LowBits(1, 6) == [1] + z;
    assert LowBits(2, 7) == [0] + LowBits(1, 6);
    assert LowBits(5, 8) == [1] + LowBits(2, 7);
    assert [5 as byte][1..] == [];
  }

  /** Without a window the trace is the screen of the whole stream. */
  lemma RenderWhole(cfg: Config, input: seq<byte>)
    requires cfg.skip == 0 && cfg.length == 0
    ensures Render.Render(cfg, input).trace == Screen(cfg, Bits(input)) + [Newline]
  {
    var s := Bits(input);
    RenderClosed(cfg, input);
    WindowedIsSlice(0, 0, s);
    assert s[0..|s|] == s;
  }

  /** A one-byte file 0x01 with no window, pattern or grid and at least 8
      columns: one label, the eight bits LSB first, all magenta, one final
      break. */
  lemma SingleByte(cfg: Config, input: seq<byte>)
    requires cfg.skip == 0 && cfg.length == 0 && cfg.columns >= 8 && cfg.pattern == "" && !cfg.grid
    requires input == [1]
    ensures Render.Render(cfg, input).trace ==
      [Label(0, 0), Bit(1, Magenta), Bit(0, Magenta), Bit(0, Magenta), Bit(0, Magenta),
       Bit(0, Magenta), Bit(0, Magenta), Bit(0, Magenta), Bit(0, Magenta), Newline]
  {
    var s := Bits(input);
    OneBits();
    OneByteLine(cfg, s);
    RenderWhole(cfg, input);
  }

  lemma OneByteLine(cfg: Config, s: seq<bit>)
    requires cfg.skip == 0 && cfg.columns >= 8 && cfg.pattern == "" && !cfg.grid
    requires s == [1, 0, 0, 0, 0, 0, 0, 0]
    ensures Screen(cfg, s) ==
      [Label(0, 0), Bit(1, Magenta), Bit(0, Magenta), Bit(0, Magenta), Bit(0, Magenta),
       Bit(0, Magenta), Bit(0, Magenta), Bit(0, Magenta), Bit(0, Magenta)]
  {
    forall i | 0 <= i < 8
      ensures ColourAt(cfg, s, i) == Magenta
    {
    }
    OneLineAt(cfg, s, 0);
    OneLineAt(cfg, s, 1);
    OneLineAt(cfg, s, 2);
    OneLineAt(cfg, s, 3);
    OneLineAt(cfg, s, 4);
    OneLineAt(cfg, s, 5);
    OneLineAt(cfg, s, 6);
    OneLineAt(cfg, s, 7);
  }

  /** Pattern "101" over the byte 0x05 (bits 1, 0, 1, 0, ... LSB first):
      the third bit completes the pattern and is green; the two before it
      and the one after it are not. */
  lemma PatternMatch(cfg: Config, input: seq<byte>)
    requires cfg.skip == 0 && cfg.length == 0 && cfg.columns >= 8 && cfg.pattern == "101" && !cfg.grid
    requires input == [5]
    ensures var t := Render.Render(cfg, input).trace;
      |t| == 10 && t[0] == Label(0, 0)
      && t[1] == Bit(1, Magenta) && t[2] == Bit(0, Magenta)
      && t[3] == Bit(1, Green) && t[4] == Bit(0, Magenta)
  {
    var s := Bits(input);
    FiveBits();
    FiveLine(cfg, s);
    RenderWhole(cfg, input);
  }

  lemma FiveLine(cfg: Config, s: seq<bit>)
    requires cfg.skip == 0 && cfg.length == 0 && cfg.columns >= 8 && cfg.pattern == "101" && !cfg.grid
    requires s == [1, 0, 1, 0, 0, 0, 0, 0]
    ensures var t := Screen(cfg, s);
      |t| == 9 && t[0] == Label(0, 0)
      && t[1] == Bit(1, Magenta) && t[2] == Bit(0, Magenta)
      && t[3] == Bit(1, Green) && t[4] == Bit(0, Magenta)
  {
    FiveColours(cfg, s);
    OneLineAt(cfg, s, 0);
    OneLineAt(cfg, s, 1);
    OneLineAt(cfg, s, 2);
    OneLineAt(cfg, s, 3);
  }

  lemma FiveColours(cfg: Config, s: seq<bit>)
    requires cfg.pattern == "101" && !cfg.grid && s == [1, 0, 1, 0, 0, 0, 0, 0]
    ensures ColourAt(cfg, s, 0) == Magenta && ColourAt(cfg, s, 1) == Magenta
    ensures ColourAt(cfg, s, 2) == Green && ColourAt(cfg, s, 3) == Magenta
  {
    assert s[..3][0..] == [1, 0, 1];
    assert Chars([1, 0, 1]) == "101";
    assert s[..4][1..] == [0, 1, 0];
    assert Chars([0, 1, 0])[0] != '1';
  }
}
