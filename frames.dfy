/** The few pandas operations the core relies on: a table of named numeric
    columns, column lookup, the exponentially weighted mean with
    adjust=False, and pointwise subtraction of two aligned series. */
module Frames {
  import opened Wrappers

  type Series = seq<real>

  /** A DataFrame seen as its columns, by name. */
  type Table = map<string, Series>

  /** `t[name]`: the column, or the KeyError pandas raises. */
  function Column(t: Table, name: string): (r: Result<Series>)
    ensures r.Ok? ==> name in t && r.value == t[name]
    ensures r.Err? ==> name !in t && r.error == KeyError(name)
  {
    if name in t then Ok(t[name]) else Err(KeyError(name))
  }

  /** The error pandas raises for `ewm(span=s)` with s < 1. */
  const SpanError := ValueError("span must satisfy: span >= 1")

  /** The smoothing factor of a span: 2 / (span + 1). */
  function Alpha(span: int): (a: real)
    requires span >= 1
    ensures 0.0 < a <= 1.0
  {
    2.0 / (span as real + 1.0)
  }

  /** The recurrence y := a*x + (1-a)*y run over xs, starting from prev. */
  function EmaFrom(prev: real, xs: Series, a: real): (r: Series)
    ensures |r| == |xs|
    decreases |xs|
  {
    if xs == [] then []
    else
      var y := a * xs[0] + (1.0 - a) * prev;
      [y] + EmaFrom(y, xs[1..], a)
  }

  /** `xs.ewm(span=span, adjust=False).mean()`: the first output is the
      first input; every later output smooths the next input into the
      previous output. */
  function Ema(xs: Series, span: int): (r: Series)
    requires span >= 1
    ensures |r| == |xs|
    ensures xs != [] ==> r[0] == xs[0]
  {
    if xs == [] then [] else [xs[0]] + EmaFrom(xs[0], xs[1..], Alpha(span))
  }

  /** `xs - ys` for two series on the same index. */
  function Sub(xs: Series, ys: Series): (r: Series)
    requires |xs| == |ys|
    ensures |r| == |xs|
    ensures forall i :: 0 <= i < |r| ==> r[i] == xs[i] - ys[i]
  {
    seq(|xs|, i requires 0 <= i < |xs| => xs[i] - ys[i])
  }

  lemma {:induction false} EmaFromStep(prev: real, xs: Series, a: real, t: int)
    requires 0 < t < |xs|
    ensures EmaFrom(prev, xs, a)[t] == a * xs[t] + (1.0 - a) * EmaFrom(prev, xs, a)[t - 1]
    decreases t
  {
    var y := a * xs[0] + (1.0 - a) * prev;
    assert EmaFrom(prev, xs, a) == [y] + EmaFrom(y, xs[1..], a);
    if t > 1 {
      EmaFromStep(y, xs[1..], a, t - 1);
    }
  }

  /** Ema is the indexed recurrence of the adjust=False definition:
      y[0] = x[0] and y[t] = a*x[t] + (1-a)*y[t-1]. */
  lemma EmaRecurrence(xs: Series, span: int, t: int)
    requires span >= 1
    requires 0 < t < |xs|
    ensures Ema(xs, span)[t] == Alpha(span) * xs[t] + (1.0 - Alpha(span)) * Ema(xs, span)[t - 1]
  {
    var a := Alpha(span);
    assert Ema(xs, span) == [xs[0]] + EmaFrom(xs[0], xs[1..], a);
    if t > 1 {
      EmaFromStep(xs[0], xs[1..], a, t - 1);
    }
  }

  /** A weighted average of two values in [lo, hi] stays in [lo, hi]. */
  lemma Between(a: real, x: real, p: real, lo: real, hi: real)
    requires 0.0 <= a <= 1.0
    requires lo <= x <= hi && lo <= p <= hi
    ensures lo <= a * x + (1.0 - a) * p <= hi
  {
    MulNonnegative(a, x - lo);
    MulNonnegative(1.0 - a, p - lo);
    MulNonnegative(a, hi - x);
    MulNonnegative(1.0 - a, hi - p);
    assert a * x + (1.0 - a) * p - lo == a * (x - lo) + (1.0 - a) * (p - lo);
    assert hi - (a * x + (1.0 - a) * p) == a * (hi - x) + (1.0 - a) * (hi - p);
  }

  lemma MulNonnegative(c: real, d: real)
    requires 0.0 <= c && 0.0 <= d
    ensures 0.0 <= c * d
  {
  }

  lemma {:induction false} EmaFromBounded(prev: real, xs: Series, a: real, lo: real, hi: real)
    requires 0.0 <= a <= 1.0
    requires lo <= prev <= hi
    requires forall i :: 0 <= i < |xs| ==> lo <= xs[i] <= hi
    ensures forall t :: 0 <= t < |xs| ==> lo <= EmaFrom(prev, xs, a)[t] <= hi
    decreases |xs|
  {
    if xs != [] {
      var y := a * xs[0] + (1.0 - a) * prev;
      Between(a, xs[0], prev, lo, hi);
      EmaFromBounded(y, xs[1..], a, lo, hi);
      assert EmaFrom(prev, xs, a) == [y] + EmaFrom(y, xs[1..], a);
    }
  }

  /** Every EMA value is a weighted average of the inputs so far, so it
      stays within any bounds the input respects. */
  lemma EmaBounded(xs: Series, span: int, lo: real, hi: real)
    requires span >= 1
    requires forall i :: 0 <= i < |xs| ==> lo <= xs[i] <= hi
    ensures forall t :: 0 <= t < |xs| ==> lo <= Ema(xs, span)[t] <= hi
  {
    if xs != [] {
      EmaFromBounded(xs[0], xs[1..], Alpha(span), lo, hi);
      assert Ema(xs, span) == [xs[0]] + EmaFrom(xs[0], xs[1..], Alpha(span));
    }
  }

  /** The EMA of a flat series is that series, whatever the span. */
  lemma EmaOfConstant(xs: Series, span: int, c: real)
    requires span >= 1
    requires forall i :: 0 <= i < |xs| ==> xs[i] == c
    ensures Ema(xs, span) == xs
  {
    EmaBounded(xs, span, c, c);
  }
}
