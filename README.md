# bitman: the bit-stream pass, in Dafny

bitman is a bitwise file viewer. It reads a file as a stream of bits, least
significant bit first within each byte. A window is given by `skip` (bits to
pass over) and `length` (bits to show, 0 for "all the rest"). Every bit inside
the window is printed on the terminal:

- lines wrap at `columns` bits;
- every line starts with a position label;
- each bit is coloured green when the bits printed so far end with the
  highlight pattern, white on the 8-column grid when the grid is on, and
  magenta otherwise.

When an output file is given, the in-window bits are also packed,
least-significant bit first, into bytes that are written to it.

This project models that pass: the `bits` generator and the loop in `main`.

- `BitStream` covers the bit generator and the bit-level arithmetic of the
  loop. It models `(b >> i) & 1` and `buf | (b << bufCnt)` on unbounded
  naturals, and proves that the `|` adds a fresh top bit.
- `Window` models the skip/length test and proves that the bits it lets
  through are a contiguous slice of the stream.
- `Packing` defines the bytes the loop writes for a given sequence of
  in-window bits (every complete group of eight except the last), and the
  bits still pending in the accumulator.
- `Render` holds the loop's state (`hl`, `p`, `c`, `buf`, `bufCnt`, plus
  what has been written so far) and the following:
  - `Step`, one iteration as a function;
  - `Consume` and `Render`, the whole pass;
  - `RenderLoop`, the loop itself as a method. Its invariant ties its
    variables to `Consume`.
- `Layout` gives a closed form of the state after any number of bits: a
  pattern buffer, a column counter, a screen, an output and a pending
  accumulator, each written in terms of the in-window bits alone. It then
  proves that `Consume` always equals that closed form.
- `Viewer` proves what a reader of the screen and of the output file sees.
  Examples: the bits shown are exactly the in-window bits; the number of
  line breaks and labels; when a bit is green or white; the size and the
  bits of the output file; and concrete renderings of small inputs.

Terminal output is a trace of tokens: `Newline`, `Label(offset, skip)`, and
`Bit(value, colour)`. The output file is a sequence of bytes.

`skip`, `length` and `columns` are Python integers on the command line, so
they are `int` here, and negative values keep the loop's exact behaviour.
For example, when `columns <= 0`, every in-window bit gets a line break and
a label in front of it. A pattern of `""` stands for "no pattern": the
program treats a missing pattern and an empty one the same way.

## Model

| member | source | states |
|---|---|---|
| BitStream.Bits | bitman.py:45-49 | the generator yields exactly eight bits per input byte |
| BitStream.BitsAt | bitman.py:45-49 | bit `p` of the stream is `(input[p / 8] >> (p % 8)) & 1`: file order, least significant bit first |
| BitStream.LowBitsAt | bitman.py:48-49 | the `i`-th of the `k` low bits of `x` is `(x >> i) & 1` |
| BitStream.PackLowBits | bitman.py:126 | packing the low `k` bits of `x < 2^k` least-significant first gives back `x` |
| BitStream.LowBitsPack | bitman.py:126 | splitting a packed group into bits gives back the group |
| BitStream.BitOrDisjoint | bitman.py:126 | with `buf < 2^bufCnt`, the bitwise or of `buf` and `b << bufCnt` equals `buf + b * 2^bufCnt` and stays below `2^(bufCnt+1)` |
| Window.WindowedNext | bitman.py:89-90 | a bit joins the in-window bits exactly when `p >= skip and (p < length + skip or length == 0)` |
| Window.WindowedIsSlice | bitman.py:89-130 | the in-window bits form one contiguous slice of the stream, from `max(skip, 0)` up to where the window closes |
| Window.WindowedCount | bitman.py:90-130 | for non-negative `skip` and `length`, the in-window count is `max(0, total - skip)` when `length == 0`, otherwise `min(length, max(0, total - skip))`; `WindowedIsSlice` gives the count for any `skip` and `length` |
| Window.WindowedIndex | bitman.py:90-105 | an in-window position `p` is `max(skip, 0)` plus the number of in-window bits before it |
| Packing.Packed | bitman.py:120-131 | `n` in-window bits produce `ceil(n/8) - 1` bytes, or none when `n == 0` |
| Packing.PendingSize | bitman.py:120-127 | the accumulator holds between one and eight bits once a bit has arrived, and none before |
| Packing.PackedAppend | bitman.py:121-127 | one more bit writes the accumulator out exactly when it already holds eight bits, then starts a new group with that bit |
| Packing.PackedAt | bitman.py:121-127 | written byte `k` packs in-window bits `8k` to `8k+7` |
| Packing.PackedBitAt | bitman.py:121-127 | bit `j` of written byte `k` is in-window bit `8k + j` |
| Packing.PackedBits | bitman.py:120-131 | packing the whole bit stream of a non-empty file gives the file minus its last byte |
| Render.Slide | bitman.py:92-95 | the pattern buffer never grows longer than the pattern |
| Render.Accumulate | bitman.py:120-127 | the accumulator keeps `bufCnt <= 8` and `buf < 2^bufCnt`, so `struct.pack('B', buf)` never fails |
| Render.Show | bitman.py:92-129 | printing an in-window bit keeps the loop's bounds |
| Render.Step | bitman.py:89-130 | every bit advances `p` by one; an out-of-window bit changes nothing else; the bounds are kept |
| Render.Consume | bitman.py:80-130 | after `n` bits, `p == n` and the bounds hold |
| Render.SlideBit | bitman.py:82-95 | the loop's update of `hl` computes `Slide` |
| Render.PrintBit | bitman.py:97-117 | the loop's terminal writes for a bit: a break when `c >= columns`, a label when the column is 0, the bit in its colour |
| Render.PackBit | bitman.py:120-127 | the loop's output-file update for a bit |
| Render.ShowBit | bitman.py:91-129 | the loop body for an in-window bit performs one `Step` |
| Render.RenderLoop | bitman.py:80-131 | the loop, with its final line break, produces exactly `Render`'s trace and output |
| Layout.SlideRecent | bitman.py:92-95 | after each in-window bit, `hl` is the last `min(k, len(pattern))` in-window bits as `'0'`/`'1'` characters |
| Layout.RecentMatch | bitman.py:108 | `pattern and hl == pattern` holds exactly when the in-window bits so far end with the pattern |
| Layout.LineColMod | bitman.py:98-129 | with `columns >= 1`, the `k`-th in-window bit sits in column `k % columns` |
| Layout.LineColNext | bitman.py:98-129 | the column advances by one and wraps to 0 after `columns - 1` |
| Layout.CounterStep | bitman.py:98-129 | the counter `c` before in-window bit `k` gives its column, its line break, and the counter after it |
| Layout.CounterRange | bitman.py:98-129 | with `columns >= 1`: after a bit, `1 <= c <= columns`; a break precedes bit `k` exactly when `c >= columns` |
| Layout.AccumulatePending | bitman.py:120-127 | `buf`/`bufCnt` always hold the pending group packed least-significant first, and the bytes written are `Packed` |
| Layout.PaintColour | bitman.py:107-117 | the colour chosen from `hl` and the column is the closed-form colour |
| Layout.PrintTokens | bitman.py:97-117 | the tokens printed for in-window bit `k` are the closed-form tokens |
| Layout.StepInWindow | bitman.py:90-129 | an in-window step moves the closed form on by one bit |
| Layout.StepOutside | bitman.py:90-130 | an out-of-window step leaves the closed form as it is, except for `p` |
| Layout.ClosedStep | bitman.py:89-130 | one iteration keeps the loop's state equal to the closed form |
| Layout.ConsumeClosed | bitman.py:80-130 | after any number of bits, the loop's state is the closed form of the in-window bits so far |
| Layout.RenderClosed | bitman.py:80-131 | the whole run prints the screen of the in-window bits plus one final break, and writes `Packed` of them when there is an output file |
| Viewer.CountAppend | bitman.py:100-117 | shown bits, breaks and labels add up over concatenated traces |
| Viewer.TokensAtCounts | bitman.py:97-117 | each in-window bit shows its own value once, plus a break and a label exactly where the closed form puts them |
| Viewer.ScreenShown | bitman.py:89-117 | the bits shown on the screen are exactly the in-window bits, in order |
| Viewer.ScreenBreaks | bitman.py:98-101 | `n` in-window bits give `(n - 1) / columns` line breaks inside the pass (0 for none); for `columns <= 0`, one per bit |
| Viewer.ScreenLabels | bitman.py:104-105 | `n` in-window bits give `ceil(n / columns)` labels, one per line; for `columns <= 0`, one per bit |
| Viewer.ColourCases | bitman.py:107-117 | a bit is green exactly when the pattern is non-empty and the last `len(pattern)` in-window bits spell it; white exactly when it is not green, the grid is on, and its column is a multiple of 8 |
| Viewer.RenderOut | bitman.py:119-131 | the output file holds `Packed` of the in-window bits, or nothing without an output file |
| Viewer.OutputSize | bitman.py:121-131 | the output file has `ceil(n/8) - 1` bytes for `n > 0` in-window bits, none otherwise |
| Viewer.OutputBits | bitman.py:121-127 | bit `j` of output byte `k` is in-window bit `8k + j` |
| Viewer.FullWindowOutput | bitman.py:89-131 | with `skip == 0` and `length == 0`, the output file is the input minus its last byte |
| Viewer.BitsAppend | bitman.py:45-49 | the bits of concatenated bytes are the concatenated bits |
| Viewer.BitsSlice | bitman.py:45-49 | bytes `k` to `k + m` of the input give bits `8k` to `8(k + m)` |
| Viewer.AlignedWindow | bitman.py:90 | a byte-aligned window selects the bits of bytes `k` to `k + m` |
| Viewer.AlignedWindowOutput | bitman.py:90-131 | with `skip == 8k` and `length == 8m`, the output file is `input[k : k+m-1]` |
| Viewer.ColourPrefix | bitman.py:107-117 | a bit's colour depends only on the bits up to it |
| Viewer.OneLine | bitman.py:98-117 | at most `columns` bits print as one label followed by the bits in their colours |
| Viewer.OneLineAt | bitman.py:98-117 | in a single line, token `i + 1` is bit `i` in its colour |
| Viewer.OneBits | bitman.py:45-49 | the byte `0x01` yields `1,0,0,0,0,0,0,0` |
| Viewer.FiveBits | bitman.py:45-49 | the byte `0x05` yields `1,0,1,0,0,0,0,0` |
| Viewer.RenderWhole | bitman.py:80-131 | without skip or length, the trace is the screen of all the bits, then a break |
| Viewer.OneByteLine | bitman.py:97-117 | the screen of the bits of `0x01`, with no pattern and no grid |
| Viewer.SingleByte | bitman.py:80-131 | the file `0x01`: a label, a magenta `1`, seven magenta `0`s, a break |
| Viewer.FiveLine | bitman.py:92-117 | with pattern `101`, the screen of the bits of `0x05` marks the third bit green |
| Viewer.FiveColours | bitman.py:107-117 | with pattern `101` and no grid, the bits of `0x05` are coloured magenta, magenta, green, magenta |
| Viewer.PatternMatch | bitman.py:80-131 | the file `0x05` with pattern `101`: the third bit is green and its neighbours are magenta |

## Left out

- Argument parsing (`argparse`, `autoint`, bitman.py:51-66) is not modelled. The parsed values are the fields of `Config`.
- Opening, checking and closing the files, the `IOError` paths and the `try`/`finally` (bitman.py:68-79, 132-136) are I/O plumbing and are not modelled. The input is a sequence of bytes, and whether an output file was given is a flag.
- `sys.stdout.write` and `fileOutput.write` are modelled as appends to a token trace and to a byte sequence.
- `colorama` and `termcolor` are foreign libraries. Colours are an enumeration, and no escape sequences are produced.
- Labels keep their two numbers. The `%08X` / `%04X` hexadecimal formatting is not modelled.
- Window.WindowedCount: the count formula is stated for non-negative `skip` and `length` only. For negative values the window starts at position 0, and `Window.WindowedIsSlice` gives its exact bounds.
- Labels are always printed in white (bitman.py:105). `Label` carries no colour, because that colour never varies.
- The stream is read as a sequence of bytes all at once. The generator's laziness makes no difference to the output.
- The output file never holds the last group of in-window bits, even a complete group of eight. A byte is written only when a later in-window bit arrives, and nothing is written after the loop. So the model proves the output is the input minus its last byte, or `input[k : k+m-1]` for a byte-aligned window, not a copy of the selected bytes.
