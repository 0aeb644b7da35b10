/** The skip/length window of the viewer. Positions count every bit of the
    stream, shown or not; a position is shown when it lies `skip` bits or
    more into the stream and, unless `length` is 0 ("to the end"), fewer than
    `skip + length`. Both numbers come from the command line as Python
    integers, so they may be negative. */
module Window {
  import opened BitStream

  predicate InWindow(skip: int, length: int, p: int)
  {
    p >= skip && (p < length + skip || length == 0)
  }

  /** The in-window bits of the stream prefix `s`, in stream order. */
  function Windowed(skip: int, length: int, s: seq<bit>): seq<bit>
  {
    if s == [] then []
    else
      Windowed(skip, length, s[..|s| - 1])
      + (if InWindow(skip, length, |s| - 1) then [s[|s| - 1]] else [])
  }

  /** The first position that can be in the window. */
  function FirstPos(skip: int): nat
  {
    if skip <= 0 then 0 else skip
  }

  /** Visiting stream position n adds its bit exactly when it is in the
      window. */
  lemma WindowedNext(skip: int, length: int, s: seq<bit>, n: nat)
    requires n < |s|
    ensures Windowed(skip, length, s[..n + 1]) ==
      Windowed(skip, length, s[..n]) + (if InWindow(skip, length, n) then [s[n]] else [])
  {
    var t := s[..n + 1];
    assert t[..|t| - 1] == s[..n];
  }

  /** Where the window starts and ends within a prefix of `t` bits. */
  function WindowStart(skip: int, t: nat): nat
  {
    if FirstPos(skip) < t then FirstPos(skip) else t
  }

  function WindowEnd(skip: int, length: int, t: nat): nat
  {
    var lo := WindowStart(skip, t);
    if length == 0 then t
    else if skip + length <= lo then lo
    else if skip + length < t then skip + length
    else t
  }

  /** How the window's ends move when the prefix grows by position `t`. */
  lemma WindowBounds(skip: int, length: int, t: nat)
    ensures WindowStart(skip, t) <= WindowEnd(skip, length, t) <= t
    ensures InWindow(skip, length, t) ==>
      WindowStart(skip, t + 1) == WindowStart(skip, t) && WindowEnd(skip, length, t + 1) == t + 1
    ensures InWindow(skip, length, t) ==> WindowEnd(skip, length, t) == t
    ensures !InWindow(skip, length, t) ==>
      WindowEnd(skip, length, t + 1) - WindowStart(skip, t + 1) == WindowEnd(skip, length, t) - WindowStart(skip, t)
    ensures !InWindow(skip, length, t) && WindowStart(skip, t) < WindowEnd(skip, length, t) ==>
      WindowStart(skip, t + 1) == WindowStart(skip, t) && WindowEnd(skip, length, t + 1) == WindowEnd(skip, length, t)
  {
  }

  /** The window is one contiguous stretch of the stream. */
  lemma {:induction false} WindowedIsSlice(skip: int, length: int, s: seq<bit>)
    ensures WindowStart(skip, |s|) <= WindowEnd(skip, length, |s|) <= |s|
    ensures Windowed(skip, length, s) == s[WindowStart(skip, |s|)..WindowEnd(skip, length, |s|)]
  {
    if s != [] {
      var t := |s| - 1;
      var s' := s[..t];
      WindowedIsSlice(skip, length, s');
      WindowBounds(skip, length, t);
      var lo, hi := WindowStart(skip, t), WindowEnd(skip, length, t);
      var lo', hi' := WindowStart(skip, t + 1), WindowEnd(skip, length, t + 1);
      if InWindow(skip, length, t) {
        assert s[lo'..hi'] == s'[lo..hi] + [s[t]];
      } else if lo < hi {
        assert s[lo'..hi'] == s'[lo..hi];
      } else {
        assert s[lo'..hi'] == [] == s'[lo..hi];
      }
    }
  }

  /** With a non-negative skip and length: the number of bits shown out of
      `|s|` is everything after `skip`, cut at `length` unless it is 0. */
  lemma WindowedCount(skip: nat, length: nat, s: seq<bit>)
    ensures var rest := if |s| <= skip then 0 else |s| - skip;
      |Windowed(skip, length, s)| == if length == 0 || rest <= length then rest else length
  {
    WindowedIsSlice(skip, length, s);
  }

  /** An in-window position is FirstPos(skip) plus the number of in-window
      bits before it. */
  lemma WindowedIndex(skip: int, length: int, s: seq<bit>)
    requires InWindow(skip, length, |s|)
    ensures |s| == FirstPos(skip) + |Windowed(skip, length, s)|
  {
    WindowedIsSlice(skip, length, s);
  }
}
