/** The partitioner, `BigImg::divide`: a window of `step` chunks slides over
    the chunk sequence with stride `step - overlap`, starting at every index
    of `[0, len - overlap)` that the stride reaches. */
module Partition {

  import opened Types
  import opened Arith

  /** The windows whose starts are `start`, `start + stride`, ... below
      `len - overlap`; the window at `i` is `chunks[i .. min(i + step, len)]`. */
  function WindowsFrom<T>(chunks: seq<T>, step: nat, overlap: nat, start: nat): seq<seq<T>>
    requires overlap < step && start <= |chunks|
    decreases |chunks| - start
  {
    if start + overlap >= |chunks| then []
    else
      [chunks[start .. Min(start + step, |chunks|)]]
        + WindowsFrom(chunks, step, overlap, Min(start + step - overlap, |chunks|))
  }

  /** `divide`: `(0..len - overlap).step_by(step - overlap)` mapped to slices.
      The source needs `overlap <= len` (the subtraction is a `usize`) and
      `step > overlap` (`step_by(0)` panics, and so does the `u32` underflow). */
  function Divide<T>(chunks: seq<T>, step: nat, overlap: nat): seq<seq<T>>
    requires overlap < step && overlap <= |chunks|
  {
    WindowsFrom(chunks, step, overlap, 0)
  }

  /** Index of the first chunk of window `k`. */
  function Start(k: nat, step: nat, overlap: nat): nat
    requires overlap < step
  {
    k * (step - overlap)
  }

  /** One past the index of the last chunk of window `k`. */
  function End(k: nat, step: nat, overlap: nat, len: nat): nat
    requires overlap < step
  {
    Min(Start(k, step, overlap) + step, len)
  }

  /** The number of windows: the ceiling of `(len - overlap) / (step - overlap)`. */
  function WindowCount(len: nat, step: nat, overlap: nat): nat
    requires overlap < step && overlap <= len
  {
    (len - overlap + (step - overlap) - 1) / (step - overlap)
  }

  /** `c` is the ceiling of `m / d` when `(c - 1) * d < m <= c * d`. */
  lemma CeilingDiv(m: nat, d: nat, c: nat)
    requires d > 0 && m > 0
    requires (c - 1) * d < m <= c * d
    ensures c == (m + d - 1) / d
  {
    var q := (m + d - 1) / d;
    var r := (m + d - 1) % d;
    assert m + d - 1 == q * d + r && 0 <= r < d;
    if q < c {
      MulMonotone(q, c - 1, d);
      assert false;
    } else if q > c {
      MulMonotone(c + 1, q, d);
      assert false;
    }
  }

  /** How many windows start at `start`: `(|ws| - 1) * stride < m <= |ws| * stride`
      where `m = len - overlap - start`, or none at all when `m <= 0`. */
  lemma {:induction false} WindowsFromCount<T>(chunks: seq<T>, step: nat, overlap: nat, start: nat)
    requires overlap < step && start <= |chunks|
    ensures var ws := WindowsFrom(chunks, step, overlap, start);
      var m := |chunks| - overlap - start;
      && (m <= 0 ==> ws == [])
      && (m > 0 ==> (|ws| - 1) * (step - overlap) < m <= |ws| * (step - overlap))
    decreases |chunks| - start
  {
    var ws := WindowsFrom(chunks, step, overlap, start);
    var stride := step - overlap;
    if start + overlap < |chunks| {
      var next := Min(start + stride, |chunks|);
      var rest := WindowsFrom(chunks, step, overlap, next);
      WindowsFromCount(chunks, step, overlap, next);
      assert |ws| == |rest| + 1;
      if next + overlap < |chunks| {
        assert next == start + stride;
        assert |ws| * stride == |rest| * stride + stride;
      }
    }
  }

  /** Window `k` of those starting at `start` begins `k` strides later, at `s`. */
  lemma {:induction false} WindowsFromAt<T>(chunks: seq<T>, step: nat, overlap: nat, start: nat, k: nat, s: nat)
    requires overlap < step && start <= |chunks|
    requires k < |WindowsFrom(chunks, step, overlap, start)|
    requires s == start + k * (step - overlap)
    ensures s + overlap < |chunks|
    ensures WindowsFrom(chunks, step, overlap, start)[k] == chunks[s .. Min(s + step, |chunks|)]
    decreases k
  {
    var stride := step - overlap;
    var ws := WindowsFrom(chunks, step, overlap, start);
    var next := Min(start + stride, |chunks|);
    var rest := WindowsFrom(chunks, step, overlap, next);
    assert ws == [chunks[start .. Min(start + step, |chunks|)]] + rest;
    if k > 0 {
      assert ws[k] == rest[k - 1];
      assert next == start + stride;
      assert (k - 1) * stride + stride == k * stride;
      WindowsFromAt(chunks, step, overlap, next, k - 1, s);
    }
  }

  /** Window `k` of `divide` is `chunks[Start(k) .. End(k)]`; it is longer
      than `overlap` and no longer than `step`. */
  lemma DivideAt<T>(chunks: seq<T>, step: nat, overlap: nat, k: nat)
    requires overlap < step && overlap <= |chunks|
    requires k < |Divide(chunks, step, overlap)|
    ensures var ws := Divide(chunks, step, overlap);
      && Start(k, step, overlap) + overlap < |chunks|
      && ws[k] == chunks[Start(k, step, overlap) .. End(k, step, overlap, |chunks|)]
      && overlap < |ws[k]| <= step
  {
    WindowsFromAt(chunks, step, overlap, 0, k, Start(k, step, overlap));
  }

  /** There are `ceil((len - overlap) / (step - overlap))` windows, at least
      one, and the first one starts at index 0. */
  lemma DivideCount<T>(chunks: seq<T>, step: nat, overlap: nat)
    requires overlap < step && overlap < |chunks|
    ensures var ws := Divide(chunks, step, overlap);
      && |ws| == WindowCount(|chunks|, step, overlap) >= 1
      && ws[0] == chunks[Start(0, step, overlap) .. End(0, step, overlap, |chunks|)]
  {
    var ws := Divide(chunks, step, overlap);
    WindowsFromCount(chunks, step, overlap, 0);
    CeilingDiv(|chunks| - overlap, step - overlap, |ws|);
    DivideAt(chunks, step, overlap, 0);
  }

  /** Consecutive windows share exactly `overlap` chunks: every window but the
      last is full, the next one starts `overlap` chunks before it ends, and
      the last `overlap` chunks of one are the first `overlap` of the next. */
  lemma DivideOverlap<T>(chunks: seq<T>, step: nat, overlap: nat, k: nat)
    requires overlap < step && overlap <= |chunks|
    requires k + 1 < |Divide(chunks, step, overlap)|
    ensures var ws := Divide(chunks, step, overlap);
      && |ws[k]| == step && |ws[k + 1]| > overlap
      && Start(k + 1, step, overlap) + overlap == End(k, step, overlap, |chunks|)
      && ws[k][step - overlap..] == ws[k + 1][..overlap]
  {
    var ws := Divide(chunks, step, overlap);
    DivideAt(chunks, step, overlap, k);
    DivideAt(chunks, step, overlap, k + 1);
    var s, s' := Start(k, step, overlap), Start(k + 1, step, overlap);
    assert s' == s + (step - overlap);
    assert ws[k] == chunks[s .. s + step];
    assert ws[k][step - overlap..] == chunks[s' .. s + step];
  }

  /** The last window ends at the last chunk. */
  lemma DivideLastEnds<T>(chunks: seq<T>, step: nat, overlap: nat)
    requires overlap < step && overlap < |chunks|
    ensures var ws := Divide(chunks, step, overlap);
      |ws| >= 1 && End(|ws| - 1, step, overlap, |chunks|) == |chunks|
  {
    var ws := Divide(chunks, step, overlap);
    var stride := step - overlap;
    WindowsFromCount(chunks, step, overlap, 0);
    assert |chunks| - overlap <= |ws| * stride;
    assert Start(|ws| - 1, step, overlap) + stride == |ws| * stride;
  }

  /** The later windows with their first `overlap` chunks dropped, joined. */
  function Tails<T>(ws: seq<seq<T>>, overlap: nat): seq<T>
    requires forall k :: 0 <= k < |ws| ==> |ws[k]| >= overlap
  {
    if ws == [] then [] else ws[0][overlap..] + Tails(ws[1..], overlap)
  }

  /** The first window followed by every later window minus its overlap. */
  function Stitch<T>(ws: seq<seq<T>>, overlap: nat): seq<T>
    requires forall k :: 0 <= k < |ws| ==> |ws[k]| >= overlap
  {
    if ws == [] then [] else ws[0] + Tails(ws[1..], overlap)
  }

  /** A full window at `start` followed by windows that stitch back to
      `chunks[start + step - overlap..]` stitches back to `chunks[start..]`. */
  lemma StitchNext<T>(chunks: seq<T>, step: nat, overlap: nat, start: nat, rest: seq<seq<T>>)
    requires overlap < step && start + step <= |chunks|
    requires rest != [] && forall k :: 0 <= k < |rest| ==> |rest[k]| > overlap
    requires Stitch(rest, overlap) == chunks[start + step - overlap..]
    ensures Stitch([chunks[start .. start + step]] + rest, overlap) == chunks[start..]
  {
    var w0 := chunks[start .. start + step];
    var t := Tails(rest[1..], overlap);
    assert rest[0] + t == chunks[start + step - overlap..];
    assert (rest[0] + t)[overlap..] == rest[0][overlap..] + t;
    assert ([w0] + rest)[1..] == rest;
    assert Tails(rest, overlap) == chunks[start + step..];
    assert chunks[start..] == w0 + chunks[start + step..];
  }

  lemma {:induction false} StitchFrom<T>(chunks: seq<T>, step: nat, overlap: nat, start: nat)
    requires overlap < step && start + overlap < |chunks|
    ensures var ws := WindowsFrom(chunks, step, overlap, start);
      && (forall k :: 0 <= k < |ws| ==> |ws[k]| > overlap)
      && Stitch(ws, overlap) == chunks[start..]
    decreases |chunks| - start
  {
    var ws := WindowsFrom(chunks, step, overlap, start);
    var next := Min(start + step - overlap, |chunks|);
    var rest := WindowsFrom(chunks, step, overlap, next);
    var w0 := chunks[start .. Min(start + step, |chunks|)];
    assert ws == [w0] + rest;
    if next + overlap >= |chunks| {
      assert rest == [];
      assert w0 == chunks[start..];
    } else {
      StitchFrom(chunks, step, overlap, next);
      StitchNext(chunks, step, overlap, start, rest);
    }
  }

  /** Dropping the overlaps from the windows gives back the chunk sequence. */
  lemma DivideStitch<T>(chunks: seq<T>, step: nat, overlap: nat)
    requires overlap < step && overlap < |chunks|
    ensures var ws := Divide(chunks, step, overlap);
      && (forall k :: 0 <= k < |ws| ==> |ws[k]| > overlap)
      && Stitch(ws, overlap) == chunks
  {
    StitchFrom(chunks, step, overlap, 0);
  }

  /** Five chunks, step 3, overlap 2: the windows are `[0,3)`, `[1,4)`, `[2,5)`. */
  lemma DivideFiveByThree<T>(chunks: seq<T>)
    requires |chunks| == 5
    ensures Divide(chunks, 3, 2) == [chunks[0..3], chunks[1..4], chunks[2..5]]
  {
    DivideCount(chunks, 3, 2);
    DivideAt(chunks, 3, 2, 0);
    DivideAt(chunks, 3, 2, 1);
    DivideAt(chunks, 3, 2, 2);
  }
}
