/** Exponential smoothing as pandas computes it with `adjust=False`, and the
    MACD lines built from it. The EMA detector, the MACD detector and the
    indicator frame each define the same `ewm(span=n, adjust=False).mean()`
    helper; it is modelled once here. */
module Smoothing {
  import opened Series

  /** One smoothing step: the new input weighted by `alpha`, the previous
      output by `1 - alpha`. */
  function Blend(alpha: real, x: real, previous: real): real {
    alpha * x + (1.0 - alpha) * previous
  }

  /** `ewm(alpha=a, adjust=False).mean()`: the first output is the first input;
      every later output is `a * x + (1 - a) * previous output`. */
  function Ema(xs: seq<real>, alpha: real): (e: seq<real>)
    ensures |e| == |xs|
    decreases |xs|
  {
    if |xs| == 0 then []
    else if |xs| == 1 then [xs[0]]
    else
      var p := Ema(xs[..|xs| - 1], alpha);
      p + [Blend(alpha, xs[|xs| - 1], p[|p| - 1])]
  }

  /** Smoothing a prefix gives the prefix of the smoothed series: the EMA never
      looks ahead. */
  lemma {:induction false} EmaPrefix(xs: seq<real>, alpha: real, k: nat)
    requires k <= |xs|
    ensures Ema(xs[..k], alpha) == Ema(xs, alpha)[..k]
    decreases |xs|
  {
    if k == |xs| {
      assert xs[..k] == xs;
    } else if |xs| == 1 {
      assert k == 0;
    } else {
      var n := |xs|;
      var init := xs[..n - 1];
      assert Ema(xs, alpha)[..n - 1] == Ema(init, alpha);
      EmaPrefix(init, alpha, k);
      assert init[..k] == xs[..k];
    }
  }

  /** The last output of a series of two or more is one smoothing step from the
      output before it. */
  lemma EmaLastStep(xs: seq<real>, alpha: real)
    requires |xs| >= 2
    ensures Ema(xs, alpha)[|xs| - 1] == Blend(alpha, xs[|xs| - 1], Ema(xs, alpha)[|xs| - 2])
  {
    var p := Ema(xs[..|xs| - 1], alpha);
    assert Ema(xs, alpha) == p + [Blend(alpha, xs[|xs| - 1], p[|p| - 1])];
  }

  /** One output of the smoothed series, from the output before it. */
  lemma EmaStepAt(xs: seq<real>, alpha: real, i: int)
    requires 0 < i < |xs|
    ensures Ema(xs, alpha)[i] == alpha * xs[i] + (1.0 - alpha) * Ema(xs, alpha)[i - 1]
  {
    var pre := xs[..i + 1];
    EmaPrefix(xs, alpha, i + 1);
    EmaLastStep(pre, alpha);
    assert pre[i] == xs[i];
  }

  /** The recurrence pandas documents for `adjust=False`, stated index by index. */
  lemma EmaRecurrence(xs: seq<real>, alpha: real)
    ensures |xs| > 0 ==> Ema(xs, alpha)[0] == xs[0]
    ensures forall i :: 0 < i < |xs| ==>
      Ema(xs, alpha)[i] == alpha * xs[i] + (1.0 - alpha) * Ema(xs, alpha)[i - 1]
  {
    if |xs| > 0 {
      EmaPrefix(xs, alpha, 1);
      assert xs[..1] == [xs[0]];
    }
    forall i | 0 < i < |xs|
      ensures Ema(xs, alpha)[i] == alpha * xs[i] + (1.0 - alpha) * Ema(xs, alpha)[i - 1]
    {
      EmaStepAt(xs, alpha, i);
    }
  }

  /** Sign step for `ConvexStep`: a product of non-negatives is non-negative. */
  lemma ProductNonNegative(a: real, b: real)
    requires a >= 0.0 && b >= 0.0
    ensures a * b >= 0.0
  {
  }

  /** One smoothing step between two values in [lo, hi] stays in [lo, hi]. */
  lemma ConvexStep(alpha: real, x: real, q: real, lo: real, hi: real)
    requires 0.0 <= alpha <= 1.0 && lo <= x <= hi && lo <= q <= hi
    ensures lo <= Blend(alpha, x, q) <= hi
  {
    var beta := 1.0 - alpha;
    assert beta >= 0.0;
    ProductNonNegative(alpha, x - lo);
    ProductNonNegative(beta, q - lo);
    ProductNonNegative(alpha, hi - x);
    ProductNonNegative(beta, hi - q);
    assert alpha * x + beta * q - lo == alpha * (x - lo) + beta * (q - lo);
    assert hi - (alpha * x + beta * q) == alpha * (hi - x) + beta * (hi - q);
  }

  /** With a smoothing factor in [0, 1] every output is a convex combination of
      inputs, so it stays within any bounds the inputs respect. */
  lemma {:induction false} EmaBounded(xs: seq<real>, alpha: real, lo: real, hi: real)
    requires 0.0 <= alpha <= 1.0
    requires forall i :: 0 <= i < |xs| ==> lo <= xs[i] <= hi
    ensures forall i :: 0 <= i < |xs| ==> lo <= Ema(xs, alpha)[i] <= hi
    decreases |xs|
  {
    if |xs| > 1 {
      var n := |xs|;
      var init := xs[..n - 1];
      EmaBounded(init, alpha, lo, hi);
      var e := Ema(xs, alpha);
      EmaPrefix(xs, alpha, n - 1);
      assert e[..n - 1] == Ema(init, alpha);
      forall i | 0 <= i < n - 1 ensures lo <= e[i] <= hi {
        assert e[i] == Ema(init, alpha)[i];
      }
      EmaLastStep(xs, alpha);
      ConvexStep(alpha, xs[n - 1], e[n - 2], lo, hi);
    }
  }

  /** A flat input gives a flat output at the same level. */
  lemma {:induction false} EmaConstant(xs: seq<real>, alpha: real, c: real)
    requires forall i :: 0 <= i < |xs| ==> xs[i] == c
    ensures forall i :: 0 <= i < |xs| ==> Ema(xs, alpha)[i] == c
    decreases |xs|
  {
    if |xs| > 1 {
      var init := xs[..|xs| - 1];
      EmaConstant(init, alpha, c);
      assert Blend(alpha, c, c) == c;
    }
  }

  /** `ewm(span=n, adjust=False).mean()`: smoothing factor 2 / (n + 1). pandas
      rejects a span below 1. */
  function EmaSpan(xs: seq<real>, span: int): (e: seq<real>)
    requires span >= 1
    ensures |e| == |xs|
    ensures |xs| > 0 ==> e[0] == xs[0]
    ensures forall i :: 0 < i < |xs| ==>
      e[i] == 2.0 / (span + 1) as real * xs[i] + (1.0 - 2.0 / (span + 1) as real) * e[i - 1]
  {
    EmaRecurrence(xs, 2.0 / (span + 1) as real);
    Ema(xs, 2.0 / (span + 1) as real)
  }

  /** The smoothing factor of a span lies in (0, 1]. */
  lemma SpanAlphaInRange(span: int)
    requires span >= 1
    ensures 0.0 < 2.0 / (span + 1) as real <= 1.0
  {
  }

  /** A span average stays within any bounds all its inputs respect: the
      span's factor lies in (0, 1], so every step is a convex blend. */
  lemma EmaSpanBounded(xs: seq<real>, span: int, lo: real, hi: real)
    requires span >= 1
    requires forall i :: 0 <= i < |xs| ==> lo <= xs[i] <= hi
    ensures forall i :: 0 <= i < |xs| ==> lo <= EmaSpan(xs, span)[i] <= hi
  {
    SpanAlphaInRange(span);
    EmaBounded(xs, 2.0 / (span + 1) as real, lo, hi);
  }

  /** Pointwise difference of two aligned series. */
  function Minus(a: seq<real>, b: seq<real>): (d: seq<real>)
    requires |a| == |b|
    ensures |d| == |a| && forall i :: 0 <= i < |a| ==> d[i] == a[i] - b[i]
  {
    seq(|a|, i requires 0 <= i < |a| => a[i] - b[i])
  }

  datatype MacdLines = MacdLines(macd: seq<real>, signal: seq<real>, histogram: seq<real>)

  /** MACD: the fast EMA minus the slow EMA, its own EMA as the signal line, and
      the histogram as their difference. */
  function Macd(xs: seq<real>, fast: int, slow: int, signal: int): (m: MacdLines)
    requires fast >= 1 && slow >= 1 && signal >= 1
    ensures |m.macd| == |m.signal| == |m.histogram| == |xs|
    ensures forall i :: 0 <= i < |xs| ==> m.macd[i] == EmaSpan(xs, fast)[i] - EmaSpan(xs, slow)[i]
    ensures m.signal == EmaSpan(m.macd, signal)
    ensures forall i :: 0 <= i < |xs| ==> m.histogram[i] == m.macd[i] - m.signal[i]
  {
    var line := Minus(EmaSpan(xs, fast), EmaSpan(xs, slow));
    var sig := EmaSpan(line, signal);
    MacdLines(line, sig, Minus(line, sig))
  }

  /** A flat market has a zero MACD line, signal line and histogram throughout. */
  lemma MacdFlat(xs: seq<real>, fast: int, slow: int, signal: int, c: real)
    requires fast >= 1 && slow >= 1 && signal >= 1
    requires forall i :: 0 <= i < |xs| ==> xs[i] == c
    ensures forall i :: 0 <= i < |xs| ==>
      Macd(xs, fast, slow, signal).macd[i] == 0.0 &&
      Macd(xs, fast, slow, signal).signal[i] == 0.0 &&
      Macd(xs, fast, slow, signal).histogram[i] == 0.0
  {
    var m := Macd(xs, fast, slow, signal);
    EmaConstant(xs, 2.0 / (fast + 1) as real, c);
    EmaConstant(xs, 2.0 / (slow + 1) as real, c);
    assert forall i :: 0 <= i < |xs| ==> m.macd[i] == 0.0;
    EmaConstant(m.macd, 2.0 / (signal + 1) as real, 0.0);
  }
}
