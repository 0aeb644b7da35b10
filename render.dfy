/** The main pass of the viewer: every bit of the stream is visited once, in
    order; in-window bits slide the pattern buffer, are printed (with a line
    break when the line is full, a position label at the start of each line,
    and a colour), and are packed into the output file.

    Writes to the terminal are a trace of tokens, writes to the output file a
    sequence of bytes. */
module Render {
  import opened BitStream
  import opened Packing
  import opened Window

  /** The parsed command line. `pattern == ""` stands for "no pattern" and
      `hasOutput` for "an output file was given". */
  datatype Config = Config(
    skip: int, length: int, columns: int,
    pattern: string, grid: bool, hasOutput: bool)

  /** Colours of printed bits: a pattern match, a grid bit, a regular bit. */
  datatype Colour = Green | White | Magenta

  /** What the pass writes to the terminal. A label shows the in-window bit
      offset and the skip of the first bit of a line. */
  datatype Token = Newline | Label(offset: int, skip: int) | Bit(value: bit, colour: Colour)

  /** The loop's variables, plus what it has written so far. */
  datatype State = State(
    hl: string, p: nat, c: nat, buf: nat, bufCnt: nat,
    trace: seq<Token>, out: seq<byte>)

  /** What one run produces: the terminal trace and the output file. */
  datatype Rendering = Rendering(trace: seq<Token>, out: seq<byte>)

  /** Bounds the loop keeps: the accumulator holds at most eight bits and
      `buf` has no bit above them (so `struct.pack('B', buf)` never fails),
      and the pattern buffer is never longer than the pattern. */
  predicate StateInv(cfg: Config, st: State)
  {
    st.bufCnt <= 8 && st.buf < Pow2(st.bufCnt) && |st.hl| <= |cfg.pattern|
  }

  /** `str(b)` */
  function BitChar(b: bit): char
  {
    if b == 1 then '1' else '0'
  }

  const Init := State("", 0, 0, 0, 0, [], [])

  /** The pattern buffer after in-window bit `b`: the bit's character is
      appended and, once the buffer is one longer than the pattern, its
      oldest character is dropped. Without a pattern it stays empty. */
  function Slide(pattern: string, hl: string, b: bit): (r: string)
    ensures |hl| <= |pattern| ==> |r| <= |pattern|
  {
    var hlLength: nat := if |pattern| > 0 then |pattern| + 1 else 0;
    var hl1 := if hlLength > 0 then hl + [BitChar(b)] else hl;
    if hlLength > 0 && |hl1| == hlLength then hl1[1..hlLength] else hl1
  }

  /** The colour of a printed bit, from the pattern buffer after it and its
      column. */
  function Paint(cfg: Config, hl: string, c: nat): Colour
  {
    if |cfg.pattern| > 0 && hl == cfg.pattern then Green
    else if cfg.grid && c % 8 == 0 then White
    else Magenta
  }

  /** A line break when the line is full (`c >= columns`). */
  function Break(cfg: Config, c: nat): seq<Token>
  {
    if c >= cfg.columns then [Newline] else []
  }

  /** The column of a bit: the counter, reset by a line break. */
  function Column(cfg: Config, c: nat): nat
  {
    if c >= cfg.columns then 0 else c
  }

  /** A position label in front of the first bit of a line. */
  function Tag(cfg: Config, p: int, col: nat): seq<Token>
  {
    if col == 0 then [Label(p - cfg.skip, cfg.skip)] else []
  }

  /** The tokens printed for in-window bit `b` at position `p`, given the
      column counter before it and the pattern buffer after it. */
  function Print(cfg: Config, p: int, c: nat, hl: string, b: bit): seq<Token>
  {
    var col := Column(cfg, c);
    Break(cfg, c) + Tag(cfg, p, col) + [Bit(b, Paint(cfg, hl, col))]
  }

  /** The column counter after printing a bit. */
  function NextColumn(cfg: Config, c: nat): nat
  {
    Column(cfg, c) + 1
  }

  /** The output accumulator after in-window bit `b`, and the bytes written
      meanwhile: a full accumulator is written out first, then `b` is or-ed
      in above the bits it holds. */
  function Accumulate(buf: nat, bufCnt: nat, b: bit): (r: (nat, nat, seq<byte>))
    requires bufCnt <= 8 && buf < Pow2(bufCnt)
    ensures r.1 <= 8 && r.0 < Pow2(r.1)
  {
    var flush := bufCnt == 8;
    assert Pow2(8) == 256;
    var written := if flush then [buf as byte] else [];
    var buf0 := if flush then 0 else buf;
    var cnt0 := if flush then 0 else bufCnt;
    BitOrDisjoint(buf0, b, cnt0);
    (BitOr(buf0, Shl(b, cnt0)), cnt0 + 1, written)
  }

  /** The terminal side of an in-window bit: the pattern buffer slides, the
      bit is printed and the column counter advances. */
  function Show(cfg: Config, st: State, b: bit): (r: State)
    requires StateInv(cfg, st)
    ensures StateInv(cfg, r)
  {
    var hl := Slide(cfg.pattern, st.hl, b);
    st.(hl := hl, c := NextColumn(cfg, st.c), trace := st.trace + Print(cfg, st.p, st.c, hl, b))
  }

  /** One iteration of the loop, for bit `b` at position `st.p`. */
  function Step(cfg: Config, st: State, b: bit): (r: State)
    requires StateInv(cfg, st)
    ensures StateInv(cfg, r) && r.p == st.p + 1
    ensures !InWindow(cfg.skip, cfg.length, st.p) ==> r == st.(p := st.p + 1)
  {
    if !InWindow(cfg.skip, cfg.length, st.p) then st.(p := st.p + 1)
    else
      var shown := Show(cfg, st, b);
      if !cfg.hasOutput then shown.(p := st.p + 1)
      else
        var (buf, bufCnt, written) := Accumulate(st.buf, st.bufCnt, b);
        shown.(p := st.p + 1, buf := buf, bufCnt := bufCnt, out := st.out + written)
  }

  /** The state after the loop has visited the first `n` bits of `s`. */
  function Consume(cfg: Config, s: seq<bit>, n: nat): (r: State)
    requires n <= |s|
    ensures StateInv(cfg, r) && r.p == n
  {
    if n == 0 then Init
    else Step(cfg, Consume(cfg, s, n - 1), s[n - 1])
  }

  /** One more iteration of the loop. */
  lemma ConsumeNext(cfg: Config, s: seq<bit>, i: nat, st: State)
    requires i < |s| && st == Consume(cfg, s, i)
    ensures Consume(cfg, s, i + 1) == Step(cfg, st, s[i])
  {
  }

  /** The whole run on a file: the pass, then one final line break. The
      pending output bits are never written. */
  function Render(cfg: Config, input: seq<byte>): (r: Rendering)
  {
    var stream := Bits(input);
    var st := Consume(cfg, stream, |stream|);
    Rendering(st.trace + [Newline], st.out)
  }

  /** Printing one in-window bit: a line break when the line is full, a
      position label at the start of a line, then the bit in its colour.
      Returns what is printed and the column of the bit. */
  method PrintBit(cfg: Config, p: int, c: nat, hl: string, b: bit) returns (printed: seq<Token>, col: nat)
    ensures printed == Print(cfg, p, c, hl, b) && col == Column(cfg, c)
  {
    printed := [];
    col := c;
    // column width exceeded: new line
    if col >= cfg.columns {
      printed := printed + [Newline];
      col := 0;
    }
    // location data for the first bit of a line
    if col == 0 {
      printed := printed + [Label(p - cfg.skip, cfg.skip)];
    }
    if |cfg.pattern| > 0 && hl == cfg.pattern {
      // pattern found: the last bit of the match
      printed := printed + [Bit(b, Green)];
    } else if cfg.grid && col % 8 == 0 {
      // grid bit
      printed := printed + [Bit(b, White)];
    } else {
      // regular bit
      printed := printed + [Bit(b, Magenta)];
    }
  }

  /** Keeping the pattern buffer for in-window bit `b`. */
  method SlideBit(pattern: string, hlLength: nat, hl: string, b: bit) returns (hl': string)
    requires hlLength == if |pattern| > 0 then |pattern| + 1 else 0
    ensures hl' == Slide(pattern, hl, b)
  {
    hl' := hl;
    if hlLength > 0 {
      hl' := hl' + [BitChar(b)];
      if |hl'| == hlLength {
        hl' := hl'[1..hlLength];
      }
    }
  }

  /** Adding one in-window bit to the output accumulator: a full accumulator
      is written out (and emptied) first. */
  method PackBit(buf: nat, bufCnt: nat, b: bit) returns (buf': nat, bufCnt': nat, written: seq<byte>)
    requires bufCnt <= 8 && buf < Pow2(bufCnt)
    ensures (buf', bufCnt', written) == Accumulate(buf, bufCnt, b)
  {
    buf', bufCnt', written := buf, bufCnt, [];
    if bufCnt' == 8 {
      assert Pow2(8) == 256;
      written := [buf' as byte];
      buf' := 0;
      bufCnt' := 0;
    }
    buf' := BitOr(buf', Shl(b, bufCnt'));
    bufCnt' := bufCnt' + 1;
  }

  /** The body of the loop for an in-window bit: the pattern buffer, the
      terminal, then the output file. */
  method ShowBit(cfg: Config, hlLength: nat, p: nat, b: bit,
                 hl: string, c: nat, buf: nat, bufCnt: nat, trace: seq<Token>, out: seq<byte>)
    returns (hl': string, c': nat, buf': nat, bufCnt': nat, trace': seq<Token>, out': seq<byte>)
    requires hlLength == if |cfg.pattern| > 0 then |cfg.pattern| + 1 else 0
    requires StateInv(cfg, State(hl, p, c, buf, bufCnt, trace, out))
    requires InWindow(cfg.skip, cfg.length, p)
    ensures State(hl', p + 1, c', buf', bufCnt', trace', out')
         == Step(cfg, State(hl, p, c, buf, bufCnt, trace, out), b)
  {
    ghost var st := State(hl, p, c, buf, bufCnt, trace, out);
    // keep the pattern matching string
    hl' := SlideBit(cfg.pattern, hlLength, hl, b);
    var printed;
    printed, c' := PrintBit(cfg, p, c, hl', b);
    trace' := trace + printed;
    assert Show(cfg, st, b) == st.(hl := hl', c := c' + 1, trace := trace');
    // write to the output file
    buf', bufCnt', out' := buf, bufCnt, out;
    if cfg.hasOutput {
      var written;
      buf', bufCnt', written := PackBit(buf, bufCnt, b);
      out' := out + written;
    }
    c' := c' + 1;
  }

  /** The loop of the viewer, variable for variable. */
  method RenderLoop(cfg: Config, input: seq<byte>) returns (trace: seq<Token>, out: seq<byte>)
    ensures Rendering(trace, out) == Render(cfg, input)
  {
    var stream := Bits(input);
    var hl: string := "";
    var hlLength: nat := if |cfg.pattern| > 0 then |cfg.pattern| + 1 else 0;
    var p: nat, c: nat, buf: nat, bufCnt: nat := 0, 0, 0, 0;
    trace, out := [], [];
    var i := 0;
    while i < |stream|
      invariant i <= |stream|
      invariant State(hl, p, c, buf, bufCnt, trace, out) == Consume(cfg, stream, i)
    {
      var b := stream[i];
      ghost var next := Step(cfg, State(hl, p, c, buf, bufCnt, trace, out), b);
      ConsumeNext(cfg, stream, i, State(hl, p, c, buf, bufCnt, trace, out));
      if p >= cfg.skip && (p < cfg.length + cfg.skip || cfg.length == 0) {
        hl, c, buf, bufCnt, trace, out := ShowBit(cfg, hlLength, p, b, hl, c, buf, bufCnt, trace, out);
      }
      assert State(hl, p + 1, c, buf, bufCnt, trace, out) == next;
      p := p + 1;
      i := i + 1;
    }
    trace := trace + [Newline];
  }
}
