/** What the main pass produces, stated without the loop: every quantity
    the loop keeps (the pattern buffer, the column counter, the output
    accumulator, the text printed so far) is a function of the in-window
    bits seen so far. The loop is then proved to agree with these closed
    forms, and the properties of the viewer are proved about them. */
module Layout {
  import opened BitStream
  import opened Packing
  import opened Window
  import opened Render

  function Min(a: nat, b: nat): nat
  {
    if a <= b then a else b
  }

  /** `str(b)` for each bit, in order. */
  function Chars(w: seq<bit>): (r: string)
    ensures |r| == |w|
  {
    seq(|w|, i requires 0 <= i < |w| => BitChar(w[i]))
  }

  /** The pattern buffer after the in-window bits `w`: the characters of the
      last `|pattern|` of them (all of them while there are fewer), and
      nothing without a pattern. */
  function Recent(pattern: string, w: seq<bit>): string
  {
    if |pattern| == 0 then "" else Chars(w[|w| - Min(|w|, |pattern|)..])
  }

  /** The in-window bits so far end in the highlight pattern. */
  predicate EndsWith(pattern: string, w: seq<bit>)
  {
    0 < |pattern| <= |w| && Chars(w[|w| - |pattern|..]) == pattern
  }

  /** The column of in-window bit `k` (counting from 0) on its line: lines
      of `columns` bits are cut off the front until `k` falls in the first
      one. A column width of 0 or less puts every bit at the start of a
      line. */
  function LineCol(columns: int, k: nat): (r: nat)
    ensures columns >= 1 ==> r < columns
    decreases k
  {
    if columns <= 0 then 0
    else if k < columns then k
    else LineCol(columns, k - columns)
  }

  /** A line break is printed before in-window bit `k`: before every bit
      when the width is 0 or less, else before each bit that starts a line
      other than the first. */
  predicate BreakBefore(columns: int, k: nat)
  {
    columns <= 0 || (k > 0 && LineCol(columns, k) == 0)
  }

  /** The column counter `c` after `n` in-window bits. */
  function Counter(columns: int, n: nat): nat
  {
    if n == 0 then 0 else LineCol(columns, n - 1) + 1
  }

  /** The colour of in-window bit `k` of `w`. */
  function ColourAt(cfg: Config, w: seq<bit>, k: nat): Colour
    requires k < |w|
  {
    if EndsWith(cfg.pattern, w[..k + 1]) then Green
    else if cfg.grid && LineCol(cfg.columns, k) % 8 == 0 then White
    else Magenta
  }

  /** The tokens printed for in-window bit `k` of `w`: a line break, a label
      holding the bit's offset into the window and the skip, and the bit. */
  function TokensAt(cfg: Config, w: seq<bit>, k: nat): seq<Token>
    requires k < |w|
  {
    (if BreakBefore(cfg.columns, k) then [Newline] else [])
    + (if LineCol(cfg.columns, k) == 0 then [Label(FirstPos(cfg.skip) + k - cfg.skip, cfg.skip)] else [])
    + [Bit(w[k], ColourAt(cfg, w, k))]
  }

  /** Everything printed for the in-window bits `w`, bit after bit. */
  function Screen(cfg: Config, w: seq<bit>): seq<Token>
  {
    if w == [] then [] else Screen(cfg, w[..|w| - 1]) + TokensAt(cfg, w, |w| - 1)
  }

  /** The loop's state once it has visited `p` bits of which `w` were in the
      window. Without an output file the accumulator stays empty. */
  function Expected(cfg: Config, w: seq<bit>, p: nat): State
  {
    State(
      Recent(cfg.pattern, w), p, Counter(cfg.columns, |w|),
      if cfg.hasOutput then PackLE(Pending(w)) else 0,
      if cfg.hasOutput then |Pending(w)| else 0,
      Screen(cfg, w),
      if cfg.hasOutput then Packed(w) else [])
  }

  /** The pattern buffer keeps the last `|pattern|` in-window bits: sliding
      it by one bit gives the buffer of the longer sequence. */
  lemma SlideRecent(pattern: string, w: seq<bit>, b: bit)
    ensures Slide(pattern, Recent(pattern, w), b) == Recent(pattern, w + [b])
  {
    if |pattern| > 0 {
      var w' := w + [b];
      if |w| < |pattern| {
        assert w[0..] == w && w'[0..] == w';
        assert Chars(w) + [BitChar(b)] == Chars(w');
      } else {
        var hl1 := Chars(w[|w| - |pattern|..]) + [BitChar(b)];
        assert hl1[1..|pattern| + 1] == Chars(w'[|w'| - |pattern|..]);
      }
    }
  }

  /** The buffer equals the pattern exactly when the in-window bits end in
      the pattern. */
  lemma RecentMatch(pattern: string, w: seq<bit>)
    ensures (|pattern| > 0 && Recent(pattern, w) == pattern) <==> EndsWith(pattern, w)
  {
    if |pattern| > 0 && Recent(pattern, w) == pattern {
      assert |Chars(w[|w| - Min(|w|, |pattern|)..])| == Min(|w|, |pattern|);
    }
  }

  lemma ModUnique(k: int, m: int, q: int, r: int)
    requires m >= 1 && 0 <= r < m && k == q * m + r
    ensures k % m == r && k / m == q
  {
    var d := q - k / m;
    assert d * m == k % m - r;
    MulSign(d, m);
  }

  lemma MulSign(d: int, m: int)
    requires m >= 1
    ensures d >= 1 ==> d * m >= m
    ensures d <= -1 ==> d * m <= -m
  {
  }

  /** Going from `k - 1` to `k` bits, the quotient by the width grows by one
      exactly at a multiple of the width. */
  lemma DivStep(k: nat, m: nat)
    requires k >= 1 && m >= 1
    ensures (k - 1) % m + 1 == (if k % m == 0 then m else k % m)
    ensures k / m == (k - 1) / m + (if k % m == 0 then 1 else 0)
  {
    var q, r := (k - 1) / m, (k - 1) % m;
    if r + 1 == m {
      ModUnique(k, m, q + 1, 0);
    } else {
      ModUnique(k, m, q, r + 1);
    }
  }

  /** The column is the remainder of the bit's index by the width. */
  lemma {:induction false} LineColMod(columns: int, k: nat)
    requires columns >= 1
    ensures LineCol(columns, k) == k % columns
  {
    if k < columns {
      ModUnique(k, columns, 0, k);
    } else {
      LineColMod(columns, k - columns);
      ModUnique(k, columns, (k - columns) / columns + 1, (k - columns) % columns);
    }
  }

  /** The next bit is one column further on, or at column 0 once the line
      is full. */
  lemma {:induction false} LineColNext(columns: int, k: nat)
    requires columns >= 1
    ensures LineCol(columns, k + 1) ==
      if LineCol(columns, k) + 1 == columns then 0 else LineCol(columns, k) + 1
  {
    if k >= columns {
      LineColNext(columns, k - columns);
    }
  }

  /** The counter against the loop's tests: a line break comes exactly when
      the counter has reached the width, the column of the bit is the
      counter after that reset, and the counter then grows by one. */
  lemma CounterStep(cfg: Config, k: nat)
    ensures Column(cfg, Counter(cfg.columns, k)) == LineCol(cfg.columns, k)
    ensures Break(cfg, Counter(cfg.columns, k)) == if BreakBefore(cfg.columns, k) then [Newline] else []
    ensures NextColumn(cfg, Counter(cfg.columns, k)) == Counter(cfg.columns, k + 1)
  {
    if cfg.columns > 0 && k > 0 {
      LineColNext(cfg.columns, k - 1);
    }
  }

  /** With a width of at least 1, the counter after a bit lies between 1
      and the width, and a line break precedes a bit exactly when the
      counter before it has reached the width. */
  lemma CounterRange(columns: int, k: nat)
    requires columns >= 1
    ensures 1 <= Counter(columns, k + 1) <= columns
    ensures BreakBefore(columns, k) <==> Counter(columns, k) >= columns
  {
    if k > 0 {
      LineColNext(columns, k - 1);
    }
  }

  /** The output accumulator holds the pending group, packed: adding an
      in-window bit writes what `Packed` adds and leaves the new pending
      group in the accumulator. */
  lemma AccumulatePending(w: seq<bit>, b: bit)
    ensures |Pending(w)| <= 8 && PackLE(Pending(w)) < Pow2(|Pending(w)|)
    ensures var (buf, cnt, written) := Accumulate(PackLE(Pending(w)), |Pending(w)|, b);
      buf == PackLE(Pending(w + [b])) && cnt == |Pending(w + [b])|
      && Packed(w) + written == Packed(w + [b])
  {
    PendingSize(w);
    PackedAppend(w, b);
    var pend := Pending(w);
    if |pend| == 8 {
      assert PackLE([b]) == b;
    } else {
      BitOrDisjoint(PackLE(pend), b, |pend|);
      PackLEAppend(pend, b);
    }
  }

  /** The loop's colour test on the pattern buffer agrees with the colour
      of the closed form. */
  lemma PaintColour(cfg: Config, w: seq<bit>, k: nat)
    requires k + 1 == |w|
    ensures Paint(cfg, Recent(cfg.pattern, w), LineCol(cfg.columns, k)) == ColourAt(cfg, w, k)
  {
    RecentMatch(cfg.pattern, w);
    assert w[..k + 1] == w;
  }

  /** The tokens the loop prints for an in-window bit are the closed-form
      tokens of that bit. */
  lemma PrintTokens(cfg: Config, w: seq<bit>, p: nat, b: bit)
    requires p == FirstPos(cfg.skip) + |w|
    ensures Print(cfg, p, Counter(cfg.columns, |w|), Recent(cfg.pattern, w + [b]), b)
      == TokensAt(cfg, w + [b], |w|)
  {
    var w' := w + [b];
    var k := |w|;
    var c := Counter(cfg.columns, k);
    var col := LineCol(cfg.columns, k);
    CounterStep(cfg, k);
    PaintColour(cfg, w', k);
    var brk: seq<Token> := if BreakBefore(cfg.columns, k) then [Newline] else [];
    var tag: seq<Token> := if col == 0 then [Label(FirstPos(cfg.skip) + k - cfg.skip, cfg.skip)] else [];
    var one := [Bit(b, ColourAt(cfg, w', k))];
    assert Break(cfg, c) == brk;
    assert Tag(cfg, p, col) == tag;
    assert Print(cfg, p, c, Recent(cfg.pattern, w'), b) == brk + tag + one;
    assert w'[k] == b;
    assert TokensAt(cfg, w', k) == brk + tag + one;
  }

  /** One step of the loop on an in-window bit moves the closed form from
      `w` to `w + [b]`. */
  lemma StepInWindow(cfg: Config, w: seq<bit>, p: nat, b: bit)
    requires InWindow(cfg.skip, cfg.length, p) && p == FirstPos(cfg.skip) + |w|
    requires StateInv(cfg, Expected(cfg, w, p))
    ensures Step(cfg, Expected(cfg, w, p), b) == Expected(cfg, w + [b], p + 1)
  {
    var w' := w + [b];
    var st := Expected(cfg, w, p);
    var shown := Show(cfg, st, b);
    SlideRecent(cfg.pattern, w, b);
    CounterStep(cfg, |w|);
    PrintTokens(cfg, w, p, b);
    assert w'[..|w'| - 1] == w;
    assert shown.trace == Screen(cfg, w');
    assert shown == Expected(cfg, w', p).(buf := st.buf, bufCnt := st.bufCnt, out := st.out);
    if cfg.hasOutput {
      AccumulatePending(w, b);
    }
  }

  /** A step on a bit outside the window only advances the position. */
  lemma StepOutside(cfg: Config, w: seq<bit>, p: nat, b: bit)
    requires !InWindow(cfg.skip, cfg.length, p)
    requires StateInv(cfg, Expected(cfg, w, p))
    ensures Step(cfg, Expected(cfg, w, p), b) == Expected(cfg, w, p + 1)
  {
  }

  /** One iteration of the loop keeps the state equal to the closed form. */
  lemma ClosedStep(cfg: Config, s: seq<bit>, n: nat)
    requires n < |s|
    requires Consume(cfg, s, n) == Expected(cfg, Windowed(cfg.skip, cfg.length, s[..n]), n)
    ensures Consume(cfg, s, n + 1) == Expected(cfg, Windowed(cfg.skip, cfg.length, s[..n + 1]), n + 1)
  {
    var w := Windowed(cfg.skip, cfg.length, s[..n]);
    var w' := Windowed(cfg.skip, cfg.length, s[..n + 1]);
    WindowedNext(cfg.skip, cfg.length, s, n);
    ConsumeNext(cfg, s, n, Consume(cfg, s, n));
    if InWindow(cfg.skip, cfg.length, n) {
      WindowedIndex(cfg.skip, cfg.length, s[..n]);
      assert w' == w + [s[n]];
      StepInWindow(cfg, w, n, s[n]);
    } else {
      assert w' == w;
      StepOutside(cfg, w, n, s[n]);
    }
  }

  /** The loop's state after any number of bits is the closed form of the
      in-window bits among them. */
  lemma {:induction false} ConsumeClosed(cfg: Config, s: seq<bit>, n: nat)
    requires n <= |s|
    ensures Consume(cfg, s, n) == Expected(cfg, Windowed(cfg.skip, cfg.length, s[..n]), n)
  {
    if n > 0 {
      ConsumeClosed(cfg, s, n - 1);
      ClosedStep(cfg, s, n - 1);
    }
  }

  /** The whole run: the text printed for the in-window bits and a final
      line break; the output file receives every complete group of eight
      in-window bits except the last group. */
  lemma RenderClosed(cfg: Config, input: seq<byte>)
    ensures var w := Windowed(cfg.skip, cfg.length, Bits(input));
      Render.Render(cfg, input) ==
        Rendering(Screen(cfg, w) + [Newline], if cfg.hasOutput then Packed(w) else [])
  {
    var s := Bits(input);
    ConsumeClosed(cfg, s, |s|);
    assert s[..|s|] == s;
  }
}
