/**
 A sliding-window filter over a stream, independent of the sample format.

 `Filter` describes one call of a `process_*` function: the window slides over the working
 buffer by `stride` as long as a whole window is there, one output is emitted per position and
 the phase advances with it; what is left of the buffer is kept as history for the next call.
 */
module Streaming {
  import opened Arithmetic

  /** What a run over a buffer yields: the outputs, the history it leaves and the phase it reaches. */
  datatype Run<T, P, O> = Run(out: seq<O>, rest: seq<T>, phase: P)

  /** Window length, decimation, output computation and oscillator of a filter. */
  datatype Kernel<!T, !P, !O> =
    Kernel(window: nat, stride: nat, emit: (seq<T>, P) -> O, advance: P -> P)
  {
    predicate Valid() {
      0 < stride <= window
    }
  }

  /** A run resumed after `out` has already been emitted. */
  function Continue<T, P, O>(out: seq<O>, r: Run<T, P, O>): Run<T, P, O> {
    Run(out + r.out, r.rest, r.phase)
  }

  function Filter<T, P, O>(k: Kernel<T, P, O>, w: seq<T>, p: P): Run<T, P, O>
    requires k.Valid()
    decreases |w|
  {
    if |w| < k.window then
      Run([], w, p)
    else
      Continue([k.emit(w[..k.window], p)], Filter(k, w[k.stride..], k.advance(p)))
  }

  lemma ContinueTwice<T, P, O>(a: seq<O>, b: seq<O>, r: Run<T, P, O>)
    ensures Continue(a, Continue(b, r)) == Continue(a + b, r)
  {
    assert a + (b + r.out) == a + b + r.out;
  }

  lemma ContinueDone<T, P, O>(out: seq<O>, rest: seq<T>, p: P)
    ensures Continue(out, Run([], rest, p)) == Run(out, rest, p)
    ensures Continue([], Run(out, rest, p)) == Run(out, rest, p)
  {
    assert out + [] == out;
    assert [] + out == out;
  }

  /** The oscillator after `i` outputs. */
  function PhaseAt<T, P, O>(k: Kernel<T, P, O>, p: P, i: nat): P {
    if i == 0 then p else k.advance(PhaseAt(k, p, i - 1))
  }

  /** Number of window positions in a buffer of `n` samples. */
  function Positions(window: nat, stride: nat, n: nat): nat
    requires 0 < stride
  {
    if n < window then 0 else (n - window) / stride + 1
  }

  function Concat<T>(blocks: seq<seq<T>>): seq<T> {
    if blocks == [] then [] else Concat(blocks[..|blocks| - 1]) + blocks[|blocks| - 1]
  }

  /** Feeding blocks one call at a time, each call starting from the history of the previous one. */
  function FilterBlocks<T, P, O>(k: Kernel<T, P, O>, history: seq<T>, p: P, blocks: seq<seq<T>>): Run<T, P, O>
    requires k.Valid()
  {
    if blocks == [] then
      Run([], history, p)
    else
      var before := FilterBlocks(k, history, p, blocks[..|blocks| - 1]);
      Continue(before.out, Filter(k, before.rest + blocks[|blocks| - 1], before.phase))
  }

  lemma {:induction false} PositionsStep(window: nat, stride: nat, n: nat)
    requires 0 < stride <= window <= n
    ensures Positions(window, stride, n) == Positions(window, stride, n - stride) + 1
  {
    if n - stride < window {
      assert (n - window) / stride == 0;
    } else {
      assert (n - window) / stride == (n - stride - window) / stride + 1 by {
        DivStep(n - window, stride);
      }
    }
  }

  /** Splitting the stream at any point changes neither outputs, history nor phase. */
  lemma {:induction false} FilterSplits<T, P, O>(k: Kernel<T, P, O>, a: seq<T>, b: seq<T>, p: P)
    requires k.Valid()
    ensures var first := Filter(k, a, p);
            Filter(k, a + b, p) == Continue(first.out, Filter(k, first.rest + b, first.phase))
    decreases |a|
  {
    var first := Filter(k, a, p);
    if |a| < k.window {
      var r := Filter(k, a + b, p);
      ContinueDone(r.out, r.rest, r.phase);
    } else {
      var a', o := a[k.stride..], k.emit(a[..k.window], p);
      var first' := Filter(k, a', k.advance(p));
      var second := Filter(k, first.rest + b, first.phase);
      assert (a + b)[k.stride..] == a' + b && (a + b)[..k.window] == a[..k.window];
      calc {
        Filter(k, a + b, p);
        Continue([o], Filter(k, a' + b, k.advance(p)));
        { FilterSplits(k, a', b, k.advance(p)); }
        Continue([o], Continue(first'.out, second));
        { ContinueTwice([o], first'.out, second); }
        Continue(first.out, second);
      }
    }
  }

  /** Any division of a stream into blocks yields what one batch over the whole stream yields. */
  lemma {:induction false} ChunkIndependence<T, P, O>(k: Kernel<T, P, O>, history: seq<T>, p: P, blocks: seq<seq<T>>)
    requires k.Valid() && |history| < k.window
    ensures FilterBlocks(k, history, p, blocks) == Filter(k, history + Concat(blocks), p)
  {
    if blocks == [] {
      assert history + Concat(blocks) == history;
    } else {
      var before, last := blocks[..|blocks| - 1], blocks[|blocks| - 1];
      ChunkIndependence(k, history, p, before);
      FilterSplits(k, history + Concat(before), last, p);
      assert history + Concat(blocks) == history + Concat(before) + last;
    }
  }

  /** The next position never lies beyond the end of the buffer. */
  lemma PositionsFit(window: nat, stride: nat, n: nat)
    requires 0 < stride <= window
    ensures Positions(window, stride, n) * stride <= n
    ensures Positions(window, stride, n) > 0 ==> n - Positions(window, stride, n) * stride >= window - stride
    ensures n - Positions(window, stride, n) * stride < window
  {
    if n >= window {
      var q := (n - window) / stride;
      assert n - window == q * stride + (n - window) % stride;
      assert (q + 1) * stride == q * stride + stride;
    }
  }

  lemma {:induction false} RestIsSuffix<T, P, O>(k: Kernel<T, P, O>, w: seq<T>, p: P)
    requires k.Valid()
    ensures var rest := Filter(k, w, p).rest;
            |rest| <= |w| && rest == w[|w| - |rest|..]
    decreases |w|
  {
    if |w| < k.window {
    } else {
      RestIsSuffix(k, w[k.stride..], k.advance(p));
    }
  }

  lemma {:induction false} FilterCounts<T, P, O>(k: Kernel<T, P, O>, w: seq<T>, p: P)
    requires k.Valid()
    ensures var n := Positions(k.window, k.stride, |w|);
            var r := Filter(k, w, p);
            |r.out| == n && |r.rest| == |w| - n * k.stride && r.phase == PhaseAt(k, p, n)
    decreases |w|
  {
    if |w| < k.window {
    } else {
      var n := Positions(k.window, k.stride, |w|);
      PositionsStep(k.window, k.stride, |w|);
      FilterCounts(k, w[k.stride..], k.advance(p));
      PhaseShift(k, p, n - 1);
      OneMoreStride(n - 1, k.stride);
    }
  }

  lemma OneMoreStride(n: nat, stride: nat)
    ensures (n + 1) * stride == n * stride + stride
  {
  }

  /** Outputs are exactly the window positions, the history is what starts at the next position. */
  lemma FilterClosedForm<T, P, O>(k: Kernel<T, P, O>, w: seq<T>, p: P)
    requires k.Valid()
    ensures var n := Positions(k.window, k.stride, |w|);
            var r := Filter(k, w, p);
            && |r.out| == n
            && n * k.stride <= |w|
            && r.rest == w[n * k.stride..]
            && r.phase == PhaseAt(k, p, n)
  {
    FilterCounts(k, w, p);
    RestIsSuffix(k, w, p);
  }

  lemma SliceOfRest<T>(w: seq<T>, a: nat, b: nat, n: nat)
    requires a + b + n <= |w|
    ensures w[a..][b..b + n] == w[a + b..a + b + n]
  {
  }

  lemma {:induction false} PhaseShift<T, P, O>(k: Kernel<T, P, O>, p: P, i: nat)
    ensures PhaseAt(k, k.advance(p), i) == PhaseAt(k, p, i + 1)
  {
    if i == 0 {
    } else {
      PhaseShift(k, p, i - 1);
    }
  }

  /** Output `i` is computed from the window at `i * stride` and the phase after `i` steps. */
  lemma {:induction false} OutputAt<T, P, O>(k: Kernel<T, P, O>, w: seq<T>, p: P, i: nat)
    requires k.Valid() && i < Positions(k.window, k.stride, |w|)
    ensures i * k.stride + k.window <= |w|
    ensures i < |Filter(k, w, p).out|
    ensures Filter(k, w, p).out[i] == k.emit(w[i * k.stride..i * k.stride + k.window], PhaseAt(k, p, i))
    decreases |w|
  {
    FilterCounts(k, w, p);
    if i == 0 {
    } else {
      PositionsStep(k.window, k.stride, |w|);
      OutputAt(k, w[k.stride..], k.advance(p), i - 1);
      PhaseShift(k, p, i - 1);
      OneMoreStride(i - 1, k.stride);
      SliceOfRest(w, k.stride, (i - 1) * k.stride, k.window);
    }
  }

  /**
   With a full prefix of `window - 1` samples, `n` further samples give exactly
   ceil(n / stride) outputs.
   */
  lemma OutputCount<T, P, O>(k: Kernel<T, P, O>, prefix: seq<T>, x: seq<T>, p: P)
    requires k.Valid() && |prefix| == k.window - 1
    ensures |Filter(k, prefix + x, p).out| == CeilDiv(|x|, k.stride)
  {
    FilterClosedForm(k, prefix + x, p);
    if |x| == 0 {
      DivUnique(k.stride - 1, k.stride, 0);
    } else {
      DivStep(|x| + k.stride - 1, k.stride);
    }
  }

  /** The history is shorter than a window, and after a producing call at least window - stride long. */
  lemma HistoryBounds<T, P, O>(k: Kernel<T, P, O>, w: seq<T>, p: P)
    requires k.Valid()
    ensures var r := Filter(k, w, p);
            && |r.rest| <= k.window - 1
            && (r.out != [] ==> k.window - k.stride <= |r.rest|)
            && |r.rest| <= |w|
  {
    FilterClosedForm(k, w, p);
    PositionsFit(k.window, k.stride, |w|);
  }

  /** One window further: a run on track stays on track when the next output is emitted. */
  lemma OneOutputMore<T, P, O>(k: Kernel<T, P, O>, full: Run<T, P, O>, before: seq<O>, w: seq<T>, index: nat, p: P,
                               value: O)
    requires k.Valid() && index + k.window <= |w|
    requires full == Continue(before, Filter(k, w[index..], p))
    requires value == k.emit(w[index..index + k.window], p)
    ensures full == Continue(before + [value], Filter(k, w[index + k.stride..], k.advance(p)))
  {
    assert w[index..][..k.window] == w[index..index + k.window];
    assert w[index..][k.stride..] == w[index + k.stride..];
    ContinueTwice(before, [value], Filter(k, w[index + k.stride..], k.advance(p)));
  }

  /** A buffer of n / stride + 1 outputs always has room for the next one of `n` positions. */
  lemma OutputRoom(n: nat, stride: nat, index: nat, produced: nat)
    requires 0 < stride && index == produced * stride && index < n
    ensures produced < n / stride + 1
    ensures (produced + 1) * stride == index + stride
  {
    var q := n / stride;
    assert q * stride + n % stride == n;
    OneMoreStride(q, stride);
    OneMoreStride(produced, stride);
    if produced > q {
      MulMonotone(q + 1, produced, stride);
    }
  }

  /**
   The code subtracts the next position from the buffer length without looking at the sign. That
   subtraction is safe for every buffer length exactly when the decimation is at most the number
   of taps; otherwise the very first sample (buffer length `window`) already breaks it.
   */
  lemma HistoryNeverUnderflows(window: nat, stride: nat)
    requires 0 < window && 0 < stride
    ensures (forall n: nat :: Positions(window, stride, n) * stride <= n) <==> stride <= window
    ensures window < stride ==> Positions(window, stride, window) * stride > window
  {
    if stride <= window {
      forall n: nat
        ensures Positions(window, stride, n) * stride <= n
      {
        PositionsFit(window, stride, n);
      }
    } else {
      assert Positions(window, stride, window) == 1;
    }
  }
}
