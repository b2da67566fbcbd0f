/** `sliding_window` (helpers.py and its identical copy in
    game_solver/helpers.py): `tee` makes `size` independent iterators over
    the sequence, iterator `j` is advanced `j` times by the nested loops of
    `next()` calls, and `zip` then reads them in lock step. */
module Helpers {

  /** What `sliding_window` gives back: the windows `zip` produces, or the
      `StopIteration` that an eager `next()` raises on a short sequence. */
  datatype WindowResult<T> = Produced(windows: seq<seq<T>>) | StopIteration

  /** Each `tee` iterator is modelled by its position in `s`, kept in an
      array of `size` positions. */
  method SlidingWindow<T>(s: seq<T>, size: nat) returns (r: WindowResult<T>)
    ensures r.StopIteration? <==> |s| + 1 < size
    ensures r.Produced? ==> |r.windows| == if size == 0 then 0 else |s| - size + 1
    ensures r.Produced? ==> forall i :: 0 <= i < |r.windows| ==> r.windows[i] == s[i..i + size]
    ensures r.Produced? && size >= 1 ==> IsWindowing(s, size, r.windows)
  {
    if size == 0 {
      // tee(s, 0) is the empty tuple, and zip() yields nothing
      return Produced([]);
    }
    var iters := new nat[size](_ => 0);
    // for i in range(1, size): for each in iters[i:]: next(each)
    for i := 1 to size
      invariant i - 1 <= |s|
      invariant forall j :: 0 <= j < size ==> iters[j] == if j < i then j else i - 1
    {
      for j := i to size
        invariant j > i ==> i - 1 < |s|
        invariant forall k :: 0 <= k < size ==> iters[k] == if k < i then k else if k < j then i else i - 1
      {
        if iters[j] >= |s| {
          return StopIteration;
        }
        iters[j] := iters[j] + 1;
      }
    }
    // zip(*iters): one tuple per round, until some iterator is exhausted
    var windows: seq<seq<T>> := [];
    while true
      invariant |windows| + size - 1 <= |s|
      invariant forall j :: 0 <= j < size ==> iters[j] == j + |windows|
      invariant forall m :: 0 <= m < |windows| ==> windows[m] == s[m..m + size]
      decreases |s| - |windows|
    {
      var k := |windows|;
      var window: seq<T> := [];
      for j := 0 to size
        invariant k + j <= |s|
        invariant window == s[k..k + j]
        invariant forall m :: 0 <= m < size ==> iters[m] == m + k + if m < j then 1 else 0
      {
        if iters[j] >= |s| {
          return Produced(windows);
        }
        window := window + [s[iters[j]]];
        iters[j] := iters[j] + 1;
      }
      windows := windows + [window];
    }
  }

  /** The windows are the contiguous runs of `size` elements, in increasing
      start position, each of length `size`. */
  ghost predicate IsWindowing<T>(s: seq<T>, size: nat, windows: seq<seq<T>>) {
    && size >= 1
    && |windows| == |s| - size + 1
    && forall i :: 0 <= i < |windows| ==> windows[i] == s[i..i + size]
  }

  /** Windows come out in increasing start position: each one is the
      previous one shifted by one element. */
  lemma {:induction false} WindowsSlide<T>(s: seq<T>, size: nat, windows: seq<seq<T>>, i: nat)
    requires IsWindowing(s, size, windows) && i + 1 < |windows|
    ensures |windows[i]| == size
    ensures windows[i][1..] == windows[i + 1][..size - 1]
  {
    assert windows[i][1..] == s[i + 1..i + size];
  }

  /** With window size 1 every element becomes a one-element window. */
  lemma {:induction false} SingletonWindows<T>(s: seq<T>, windows: seq<seq<T>>)
    requires IsWindowing(s, 1, windows)
    ensures |windows| == |s|
    ensures forall i :: 0 <= i < |s| ==> windows[i] == [s[i]]
  {
  }

  /** The windows are exactly the runs whose start fits: every contiguous
      run of `size` elements is one of them. */
  lemma {:induction false} EveryRunIsAWindow<T>(s: seq<T>, size: nat, windows: seq<seq<T>>, a: nat)
    requires IsWindowing(s, size, windows) && a + size <= |s|
    ensures s[a..a + size] in windows
  {
    assert windows[a] == s[a..a + size];
  }

  /** The windows `helpers.py`'s tests list for `[1, 2, 3, 4]`. */
  method SlidingWindowExamples() {
    var r1 := SlidingWindow([1, 2, 3, 4], 1);
    assert r1.windows[0] == [1] && r1.windows[1] == [2] && r1.windows[2] == [3] && r1.windows[3] == [4];
    assert r1 == Produced([[1], [2], [3], [4]]);
    var r2 := SlidingWindow([1, 2, 3, 4], 2);
    assert r2.windows[0] == [1, 2] && r2.windows[1] == [2, 3] && r2.windows[2] == [3, 4];
    assert r2 == Produced([[1, 2], [2, 3], [3, 4]]);
    var r3 := SlidingWindow([1, 2, 3, 4], 3);
    assert r3.windows[0] == [1, 2, 3] && r3.windows[1] == [2, 3, 4];
    assert r3 == Produced([[1, 2, 3], [2, 3, 4]]);
    var r4 := SlidingWindow([1, 2, 3, 4], 4);
    assert r4.windows[0] == [1, 2, 3, 4];
    assert r4 == Produced([[1, 2, 3, 4]]);
    var r5 := SlidingWindow([1, 2, 3, 4], 5);
    assert r5 == Produced([]);
    var r6 := SlidingWindow([1, 2, 3, 4], 6);
    assert r6 == StopIteration;
  }
}
