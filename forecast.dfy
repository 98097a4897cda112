/**
 * The forecasting engine of app/forecast.py: the naive carry-forward below
 * 24 points, otherwise min-max scaling, supervised windowing, a trained
 * sequence model (here any function of the training set), the
 * autoregressive rollout, inverse scaling and monthly timestamps.
 */
module Forecast {
  import opened Wrappers
  import opened Series
  import opened IsoDate

  /** Months of context the model sees: one year. */
  const Window: nat := 12
  /** Below this many points no model is trained. */
  const MinHistory: nat := 24
  /** Floor of the normalisation scale, so a constant series divides by no zero. */
  const Epsilon: real := 0.000001
  /** Index of January of year 10000: the first month `datetime` cannot hold. */
  const MonthLimit: nat := 120000

  /** `datetime.fromisoformat` raised `ValueError` on a timestamp. */
  datatype ForecastError = InvalidDateFormat

  /** How many times `for _ in range(horizon)` runs. */
  function Steps(horizon: int): (n: nat)
    ensures horizon >= 0 ==> n == horizon
    ensures horizon < 0 ==> n == 0
  {
    if horizon > 0 then horizon else 0
  }

  // ----- Supervised windowing (_to_supervised) -----

  /**
   * One pair per offset i with i + window < |values|: the inputs
   * `values[i..i+window]` and the target `values[i+window]`.
   */
  method ToSupervised(values: seq<real>, window: nat) returns (xs: seq<seq<real>>, ys: seq<real>)
    ensures |xs| == |ys| == (if |values| > window then |values| - window else 0)
    ensures forall i :: 0 <= i < |xs| ==>
      |xs[i]| == window && xs[i] == values[i..i + window] && ys[i] == values[i + window]
  {
    xs, ys := [], [];
    var i := 0;
    while i + window < |values|
      invariant |xs| == |ys| == i
      invariant i <= (if |values| > window then |values| - window else 0)
      invariant forall k :: 0 <= k < i ==> xs[k] == values[k..k + window] && ys[k] == values[k + window]
    {
      xs := xs + [values[i..i + window]];
      ys := ys + [values[i + window]];
      i := i + 1;
    }
  }

  /** The inputs of the training set, as `ToSupervised` builds them. */
  function SupervisedInputs(values: seq<real>, window: nat): (xs: seq<seq<real>>)
    ensures |xs| == if |values| > window then |values| - window else 0
    ensures forall i :: 0 <= i < |xs| ==> |xs[i]| == window && xs[i] == values[i..i + window]
  {
    seq(if |values| > window then |values| - window else 0,
        i requires 0 <= i && i + window < |values| => values[i..i + window])
  }

  /** The targets of the training set, as `ToSupervised` builds them. */
  function SupervisedTargets(values: seq<real>, window: nat): (ys: seq<real>)
    ensures |ys| == if |values| > window then |values| - window else 0
    ensures forall i :: 0 <= i < |ys| ==> ys[i] == values[i + window]
  {
    seq(if |values| > window then |values| - window else 0,
        i requires 0 <= i && i + window < |values| => values[i + window])
  }

  // ----- Min-max scaling -----

  function SeqMin(s: seq<real>): (m: real)
    requires |s| >= 1
    ensures m in s && forall x :: x in s ==> m <= x
  {
    if |s| == 1 then s[0]
    else
      var r := SeqMin(s[1..]);
      assert s == [s[0]] + s[1..];
      if s[0] <= r then s[0] else r
  }

  function SeqMax(s: seq<real>): (m: real)
    requires |s| >= 1
    ensures m in s && forall x :: x in s ==> x <= m
  {
    if |s| == 1 then s[0]
    else
      var r := SeqMax(s[1..]);
      assert s == [s[0]] + s[1..];
      if s[0] >= r then s[0] else r
  }

  /** `max(max_v - min_v, 1e-6)`: never zero, never below the spread of the series. */
  function ScaleOf(lo: real, hi: real): (scale: real)
    ensures scale > 0.0 && scale >= hi - lo && scale >= Epsilon
    ensures scale == hi - lo || scale == Epsilon
  {
    if hi - lo >= Epsilon then hi - lo else Epsilon
  }

  /** `(x - min_v) / scale`: how many scales `x` lies above the minimum. */
  function Normalize(x: real, lo: real, scale: real): (p: real)
    requires scale > 0.0
    ensures p * scale == x - lo
  {
    (x - lo) / scale
  }

  /** `min_v + p * scale`: the value `p` scales above the minimum. */
  function Denormalize(p: real, lo: real, scale: real): (x: real)
    ensures scale > 0.0 ==> Normalize(x, lo, scale) == p
  {
    assert scale > 0.0 ==> (p * scale) / scale == p;
    lo + p * scale
  }

  function NormalizeAll(xs: seq<real>, lo: real, scale: real): (ns: seq<real>)
    requires scale > 0.0
    ensures |ns| == |xs|
    ensures forall i :: 0 <= i < |ns| ==> ns[i] * scale == xs[i] - lo
  {
    seq(|xs|, i requires 0 <= i < |xs| => Normalize(xs[i], lo, scale))
  }

  function DenormalizeAll(ps: seq<real>, lo: real, scale: real): (xs: seq<real>)
    ensures |xs| == |ps|
    ensures scale > 0.0 ==> forall i :: 0 <= i < |xs| ==> Normalize(xs[i], lo, scale) == ps[i]
  {
    seq(|ps|, i requires 0 <= i < |ps| => Denormalize(ps[i], lo, scale))
  }

  /** Over the reals, the inverse map undoes the forward map exactly. */
  lemma DenormalizeNormalize(x: real, lo: real, scale: real)
    requires scale > 0.0
    ensures Denormalize(Normalize(x, lo, scale), lo, scale) == x
  {
    assert (x - lo) / scale * scale == x - lo;
  }

  /** ... and the forward map undoes the inverse map. */
  lemma NormalizeDenormalize(p: real, lo: real, scale: real)
    requires scale > 0.0
    ensures Normalize(Denormalize(p, lo, scale), lo, scale) == p
  {
    assert (p * scale) / scale == p;
  }

  /** Scaling a whole series and scaling it back gives the series. */
  lemma SeriesScalingRoundTrip(xs: seq<real>, lo: real, scale: real)
    requires scale > 0.0
    ensures DenormalizeAll(NormalizeAll(xs, lo, scale), lo, scale) == xs
  {
    var ys := DenormalizeAll(NormalizeAll(xs, lo, scale), lo, scale);
    forall i | 0 <= i < |xs| ensures ys[i] == xs[i] {
      DenormalizeNormalize(xs[i], lo, scale);
    }
  }

  /** Every normalised value of a series lies in [0, 1]. */
  lemma NormalizedInUnitInterval(xs: seq<real>)
    requires |xs| >= 1
    ensures var lo := SeqMin(xs); var ns := NormalizeAll(xs, lo, ScaleOf(lo, SeqMax(xs)));
      forall i :: 0 <= i < |ns| ==> 0.0 <= ns[i] <= 1.0
  {
    var lo, hi := SeqMin(xs), SeqMax(xs);
    var scale := ScaleOf(lo, hi);
    var ns := NormalizeAll(xs, lo, scale);
    forall i | 0 <= i < |ns| ensures 0.0 <= ns[i] <= 1.0 {
      assert xs[i] in xs;
      UnitRatio(xs[i] - lo, scale);
    }
  }

  lemma UnitRatio(a: real, scale: real)
    requires scale > 0.0 && 0.0 <= a <= scale
    ensures 0.0 <= a / scale <= 1.0
  {
    assert a / scale * scale == a;
  }

  /** A constant series gets the floor scale and normalises to all zeros. */
  lemma ConstantSeriesScale(xs: seq<real>, c: real)
    requires |xs| >= 1 && forall i :: 0 <= i < |xs| ==> xs[i] == c
    ensures SeqMin(xs) == c && SeqMax(xs) == c && ScaleOf(SeqMin(xs), SeqMax(xs)) == Epsilon
    ensures forall i :: 0 <= i < |xs| ==> NormalizeAll(xs, c, Epsilon)[i] == 0.0
  {
    var lo, hi := SeqMin(xs), SeqMax(xs);
    var j :| 0 <= j < |xs| && xs[j] == lo;
    var k :| 0 <= k < |xs| && xs[k] == hi;
  }

  // ----- Autoregressive rollout -----

  /** Drop the oldest value of the window and append the newest prediction. */
  function Slide(ctx: seq<real>, yhat: real): (r: seq<real>)
    requires |ctx| >= 1
    ensures |r| == |ctx| && r[|r| - 1] == yhat
  {
    ctx[1..] + [yhat]
  }

  /** The window after k steps of the intended rollout. */
  function WindowAfter(predict: seq<real> -> real, ctx: seq<real>, k: nat): (w: seq<real>)
    requires |ctx| >= 1
    ensures |w| == |ctx|
    decreases k
  {
    if k == 0 then ctx else WindowAfter(predict, Slide(ctx, predict(ctx)), k - 1)
  }

  /** The intended rollout: n predictions, each fed back into the window. */
  function RollOut(predict: seq<real> -> real, ctx: seq<real>, n: nat): (preds: seq<real>)
    requires |ctx| >= 1
    ensures |preds| == n
    decreases n
  {
    if n == 0 then [] else
      var yhat := predict(ctx);
      [yhat] + RollOut(predict, Slide(ctx, yhat), n - 1)
  }

  lemma {:induction false} RollOutSnoc(predict: seq<real> -> real, ctx: seq<real>, n: nat)
    requires |ctx| >= 1
    ensures RollOut(predict, ctx, n + 1) == RollOut(predict, ctx, n) + [predict(WindowAfter(predict, ctx, n))]
    ensures WindowAfter(predict, ctx, n + 1) == Slide(WindowAfter(predict, ctx, n), predict(WindowAfter(predict, ctx, n)))
    decreases n
  {
    if n > 0 {
      RollOutSnoc(predict, Slide(ctx, predict(ctx)), n - 1);
    }
  }

  /**
   * The window after k steps is the last |ctx| values of the initial window
   * followed by the first k predictions.
   */
  lemma {:induction false} WindowClosedForm(predict: seq<real> -> real, ctx: seq<real>, k: nat)
    requires |ctx| >= 1
    ensures WindowAfter(predict, ctx, k) == (ctx + RollOut(predict, ctx, k))[k..]
    decreases k
  {
    if k > 0 {
      var yhat := predict(ctx);
      var next := Slide(ctx, yhat);
      WindowClosedForm(predict, next, k - 1);
      var rest := RollOut(predict, next, k - 1);
      assert (ctx + ([yhat] + rest))[k..] == (next + rest)[k - 1..];
    }
  }

  lemma {:induction false} RollOutPrefix(predict: seq<real> -> real, ctx: seq<real>, n: nat, k: nat)
    requires |ctx| >= 1 && k < n
    ensures RollOut(predict, ctx, n)[..k] == RollOut(predict, ctx, k)
    ensures RollOut(predict, ctx, n)[k] == predict(WindowAfter(predict, ctx, k))
    decreases k
  {
    if k > 0 {
      RollOutPrefix(predict, Slide(ctx, predict(ctx)), n - 1, k - 1);
    }
  }

  /**
   * Each prediction is the model applied to the window made of the last
   * |ctx| values of the initial window and the predictions before it: the
   * window keeps its length and ends with the latest prediction.
   */
  lemma RollOutFeedsBack(predict: seq<real> -> real, ctx: seq<real>, n: nat, k: nat)
    requires |ctx| >= 1 && k < n
    ensures var preds := RollOut(predict, ctx, n);
      var w := (ctx + preds[..k])[k..];
      && |w| == |ctx|
      && preds[k] == predict(w)
      && (k > 0 ==> w[|w| - 1] == preds[k - 1])
  {
    RollOutPrefix(predict, ctx, n, k);
    WindowClosedForm(predict, ctx, k);
  }

  /** The loop of lines 84-89 with the window rebound to each new window. */
  method Autoregress(predict: seq<real> -> real, context: seq<real>, horizon: int) returns (preds: seq<real>)
    requires |context| >= 1
    ensures preds == RollOut(predict, context, Steps(horizon))
  {
    preds := [];
    var ctx := context;
    while |preds| < Steps(horizon)
      invariant |preds| <= Steps(horizon)
      invariant preds == RollOut(predict, context, |preds|)
      invariant ctx == WindowAfter(predict, context, |preds|)
    {
      RollOutSnoc(predict, context, |preds|);
      var yhat := predict(ctx);
      preds := preds + [yhat];
      ctx := Slide(ctx, yhat);
    }
  }

  // ----- The rollout as written -----

  function AsWrittenFrom(predict: seq<real> -> real, context: seq<real>, cur: seq<real>, n: nat): (preds: seq<real>)
    requires |context| >= 1
    ensures |preds| == n
    decreases n
  {
    if n == 0 then [] else
      var yhat := predict(cur);
      [yhat] + AsWrittenFrom(predict, context, Slide(context, yhat), n - 1)
  }

  /**
   * Lines 84-89 as written: `context` keeps the initial window, so every
   * window after the first is `context[1:] + [yhat]`.
   */
  function RollOutAsWritten(predict: seq<real> -> real, context: seq<real>, n: nat): (preds: seq<real>)
    requires |context| >= 1
    ensures |preds| == n
  {
    AsWrittenFrom(predict, context, context, n)
  }

  method AutoregressAsWritten(predict: seq<real> -> real, context: seq<real>, horizon: int) returns (preds: seq<real>)
    requires |context| >= 1
    ensures preds == RollOutAsWritten(predict, context, Steps(horizon))
  {
    var n := Steps(horizon);
    ghost var all := RollOutAsWritten(predict, context, n);
    preds := [];
    var ctxT := context;
    while |preds| < n
      invariant |preds| <= n
      invariant all == preds + AsWrittenFrom(predict, context, ctxT, n - |preds|)
    {
      var yhat := predict(ctxT);
      var rest := AsWrittenFrom(predict, context, Slide(context, yhat), n - |preds| - 1);
      assert AsWrittenFrom(predict, context, ctxT, n - |preds|) == [yhat] + rest;
      assert preds + ([yhat] + rest) == (preds + [yhat]) + rest;
      preds := preds + [yhat];
      ctxT := Slide(context, yhat);
    }
  }

  lemma {:induction false} AsWrittenFromAt(predict: seq<real> -> real, context: seq<real>, cur: seq<real>, n: nat, k: nat)
    requires |context| >= 1 && 0 < k < n
    ensures AsWrittenFrom(predict, context, cur, n)[k]
      == predict(Slide(context, AsWrittenFrom(predict, context, cur, n)[k - 1]))
    decreases k
  {
    var yhat := predict(cur);
    if k > 1 {
      AsWrittenFromAt(predict, context, Slide(context, yhat), n - 1, k - 1);
    }
  }

  /**
   * As written, step k >= 1 sees the initial window shifted once plus only
   * the prediction of step k - 1; earlier predictions are forgotten.
   */
  lemma AsWrittenWindow(predict: seq<real> -> real, context: seq<real>, n: nat, k: nat)
    requires |context| >= 1 && 0 < k < n
    ensures var preds := RollOutAsWritten(predict, context, n);
      preds[k] == predict(context[1..] + [preds[k - 1]])
  {
    AsWrittenFromAt(predict, context, context, n, k);
  }

  function FirstOfWindow(w: seq<real>): real {
    if w == [] then 0.0 else w[0]
  }

  /**
   * A model that echoes the oldest value of its window, on the window
   * 0, 1, ..., 11: the third prediction is 2 when predictions are fed
   * back, but 1 as written.
   */
  lemma AsWrittenDiffers()
    ensures var ctx := seq(12, i => i as real);
      RollOut(FirstOfWindow, ctx, 3)[2] == 2.0
      && RollOutAsWritten(FirstOfWindow, ctx, 3)[2] == 1.0
  {
    var ctx := seq(12, i => i as real);
    var w1 := Slide(ctx, 0.0);
    var w2 := Slide(w1, 1.0);
    assert RollOut(FirstOfWindow, ctx, 3) == [0.0] + RollOut(FirstOfWindow, w1, 2);
    assert RollOut(FirstOfWindow, w1, 2) == [1.0] + RollOut(FirstOfWindow, w2, 1);
    assert RollOut(FirstOfWindow, w2, 1) == [2.0];
    var s1 := Slide(ctx, 0.0);
    var s2 := Slide(ctx, 1.0);
    assert AsWrittenFrom(FirstOfWindow, ctx, ctx, 3) == [0.0] + AsWrittenFrom(FirstOfWindow, ctx, s1, 2);
    assert AsWrittenFrom(FirstOfWindow, ctx, s1, 2) == [1.0] + AsWrittenFrom(FirstOfWindow, ctx, s2, 1);
    assert AsWrittenFrom(FirstOfWindow, ctx, s2, 1) == [1.0];
  }

  // ----- Timestamps -----

  /** `[p.v for p in series]` */
  function Values(series: seq<Point>): (vs: seq<real>)
    ensures |vs| == |series|
    ensures forall i :: 0 <= i < |series| ==> vs[i] == series[i].v
  {
    seq(|series|, i requires 0 <= i < |series| => series[i].v)
  }

  /** Each timestamp is `_next_month_str` of the one before, the first of `t0`. */
  predicate Chained(t0: string, ps: seq<Point>) {
    && (|ps| > 0 ==> NextMonthStr(t0) == Some(ps[0].t))
    && forall i :: 0 <= i < |ps| - 1 ==> NextMonthStr(ps[i].t) == Some(ps[i + 1].t)
  }

  /**
   * `n` successive months after `t` can all be written as dates: `t` is a
   * date and the last of them is no later than December 9999.
   */
  predicate ChainFits(t: string, n: nat) {
    n == 0 || (ParseIsoDate(t).Some? && MonthIndexOf(t) + n - 1 < MonthLimit)
  }

  /**
   * Point i is dated the first day of the month i + 1 months after `t0`
   * (for every month before year 10000).
   */
  predicate Monthly(t0: string, ps: seq<Point>) {
    |ps| > 0 ==>
      && ParseIsoDate(t0).Some?
      && forall i :: 0 <= i < |ps| && MonthIndexOf(t0) + i + 1 < MonthLimit ==>
           ParseIsoDate(ps[i].t).Some? && MonthIndexOf(ps[i].t) == MonthIndexOf(t0) + i + 1
  }

  /**
   * A chain of `_next_month_str` steps walks the calendar one month at a time;
   * its last key is a date exactly while it is before year 10000.
   */
  lemma {:induction false} ChainedMonthly(t0: string, ps: seq<Point>)
    requires Chained(t0, ps)
    ensures ChainFits(t0, |ps|) && Monthly(t0, ps)
    ensures |ps| > 0 ==>
      (ParseIsoDate(ps[|ps| - 1].t).Some? <==> MonthIndexOf(t0) + |ps| < MonthLimit)
  {
    if |ps| == 0 {
      return;
    }
    var n := |ps|;
    var init := ps[..n - 1];
    assert Chained(t0, init) by {
      forall i | 0 <= i < |init| - 1
        ensures NextMonthStr(init[i].t) == Some(init[i + 1].t)
      {
        assert init[i] == ps[i] && init[i + 1] == ps[i + 1];
      }
    }
    ChainedMonthly(t0, init);
    var prev := if n == 1 then t0 else ps[n - 2].t;
    assert NextMonthStr(prev) == Some(ps[n - 1].t);
    assert ParseIsoDate(prev).Some?;
    assert ParseIsoDate(t0).Some?;
    NextMonthIndex(prev);
    if n > 1 {
      assert MonthIndexOf(t0) + n - 1 < MonthLimit;
      assert MonthIndexOf(prev) == MonthIndexOf(t0) + n - 1 by {
        assert init[n - 2] == ps[n - 2];
      }
    }
    assert ChainFits(t0, n);
    forall i | 0 <= i < n && MonthIndexOf(t0) + i + 1 < MonthLimit
      ensures ParseIsoDate(ps[i].t).Some? && MonthIndexOf(ps[i].t) == MonthIndexOf(t0) + i + 1
    {
      if i < n - 1 {
        assert init[i] == ps[i];
      }
    }
  }

  /** A chain grows by the successor of its last key. */
  lemma ChainedSnoc(t0: string, ps: seq<Point>, p: Point)
    requires Chained(t0, ps)
    requires NextMonthStr(if |ps| == 0 then t0 else ps[|ps| - 1].t) == Some(p.t)
    ensures Chained(t0, ps + [p])
  {
    var qs := ps + [p];
    forall i | 0 <= i < |qs| - 1
      ensures NextMonthStr(qs[i].t) == Some(qs[i + 1].t)
    {
      if i < |ps| - 1 {
        assert qs[i] == ps[i] && qs[i + 1] == ps[i + 1];
      }
    }
  }

  /**
   * When the walk reaches a key that is not a date, no longer walk from `t0`
   * fits.
   */
  lemma ChainedStuck(t0: string, ps: seq<Point>, t: string, m: nat)
    requires Chained(t0, ps)
    requires t == (if |ps| == 0 then t0 else ps[|ps| - 1].t)
    requires ParseIsoDate(t).None? && m > |ps|
    ensures !ChainFits(t0, m)
  {
    ChainedMonthly(t0, ps);
  }

  /**
   * The date loops of lines 48-52 and 95-99: point i gets `vs[i]` and the
   * month after the previous point's timestamp, the first the month after
   * `t0`. Fails when a timestamp it must step from is not a date.
   */
  method Stamp(t0: string, vs: seq<real>) returns (r: Result<seq<Point>, ForecastError>)
    ensures r.Success? <==> ChainFits(t0, |vs|)
    ensures r.Success? ==> Values(r.value) == vs && Chained(t0, r.value)
  {
    var t := t0;
    var out: seq<Point> := [];
    while |out| < |vs|
      invariant |out| <= |vs|
      invariant t == if |out| == 0 then t0 else out[|out| - 1].t
      invariant forall k :: 0 <= k < |out| ==> out[k].v == vs[k]
      invariant Chained(t0, out)
    {
      var next := NextMonthStr(t);
      if next.None? {
        ChainedStuck(t0, out, t, |vs|);
        return Failure(InvalidDateFormat);
      }
      ChainedSnoc(t0, out, Point(next.value, vs[|out|]));
      t := next.value;
      out := out + [Point(t, vs[|out|])];
    }
    ChainedMonthly(t0, out);
    assert Values(out) == vs;
    r := Success(out);
  }

  // ----- The orchestrator (forecast_indicator) -----

  /** The minimum of the series' values: `min_v`. */
  function Low(series: seq<Point>): (lo: real)
    requires |series| >= 1
    ensures exists i :: 0 <= i < |series| && series[i].v == lo
    ensures forall i :: 0 <= i < |series| ==> lo <= series[i].v
  {
    var vs := Values(series);
    assert forall i :: 0 <= i < |series| ==> vs[i] in vs;
    SeqMin(vs)
  }

  /** The normalisation scale of the series: `scale`. */
  function Scale(series: seq<Point>): (scale: real)
    requires |series| >= 1
    ensures scale > 0.0
  {
    ScaleOf(Low(series), SeqMax(Values(series)))
  }

  /** `values_norm`: the series' values scaled to [0, 1]. */
  function Scaled(series: seq<Point>): (ns: seq<real>)
    requires |series| >= 1
    ensures |ns| == |series|
  {
    NormalizeAll(Values(series), Low(series), Scale(series))
  }

  /** The model training returns for the windows of the scaled series. */
  function Model(series: seq<Point>, train: (seq<seq<real>>, seq<real>) -> (seq<real> -> real)): (m: seq<real> -> real)
    requires |series| >= 1
    ensures var xs, ys := SupervisedInputs(Scaled(series), Window), SupervisedTargets(Scaled(series), Window);
      m == train(xs, ys) && |xs| == |ys| == Steps(|series| - Window)
  {
    train(SupervisedInputs(Scaled(series), Window), SupervisedTargets(Scaled(series), Window))
  }

  /** Scaled value k is point k's value normalised by `min_v` and `scale`. */
  lemma ScaledEntry(series: seq<Point>, k: nat)
    requires k < |series|
    ensures Scaled(series)[k] == Normalize(series[k].v, Low(series), Scale(series))
  {
    assert Values(series)[k] == series[k].v;
  }

  /** Training target i is point i + 12, normalised. */
  lemma TrainingTarget(series: seq<Point>, i: nat)
    requires i + Window < |series|
    ensures SupervisedTargets(Scaled(series), Window)[i] == Normalize(series[i + Window].v, Low(series), Scale(series))
  {
    ScaledEntry(series, i + Window);
  }

  /** Entry j of training input i is point i + j, normalised. */
  lemma TrainingInput(series: seq<Point>, i: nat, j: nat)
    requires i + Window < |series| && j < Window
    ensures |SupervisedInputs(Scaled(series), Window)[i]| == Window
    ensures SupervisedInputs(Scaled(series), Window)[i][j] == Normalize(series[i + j].v, Low(series), Scale(series))
  {
    ScaledEntry(series, i + j);
  }

  /** `values_norm[-window:]`: the first window of the rollout. */
  function FirstWindow(series: seq<Point>): (w: seq<real>)
    requires |series| >= Window
    ensures |w| == Window
  {
    Scaled(series)[|series| - Window..]
  }

  /**
   * What the trainable path computes before timestamps are attached, with
   * each prediction fed back into the window: the series scaled to [0, 1], a
   * model trained on its windows, `horizon` fed-back predictions from its
   * last 12 scaled values, scaled back.
   */
  function TrainedForecast(series: seq<Point>, horizon: int,
                           train: (seq<seq<real>>, seq<real>) -> (seq<real> -> real)): (vs: seq<real>)
    requires |series| >= Window
    ensures |vs| == Steps(horizon)
  {
    DenormalizeAll(RollOut(Model(series, train), FirstWindow(series), Steps(horizon)), Low(series), Scale(series))
  }

  /** The same with the rollout of lines 84-89 as written. */
  function TrainedForecastAsWritten(series: seq<Point>, horizon: int,
                                    train: (seq<seq<real>>, seq<real>) -> (seq<real> -> real)): (vs: seq<real>)
    requires |series| >= Window
    ensures |vs| == Steps(horizon)
  {
    DenormalizeAll(RollOutAsWritten(Model(series, train), FirstWindow(series), Steps(horizon)), Low(series), Scale(series))
  }

  /**
   * The two rollouts agree on their first two predictions: both predict from
   * the first window, then from it slid by the first prediction.
   */
  lemma RollOutsAgreeShort(predict: seq<real> -> real, ctx: seq<real>, n: nat)
    requires |ctx| >= 1 && n <= 2
    ensures RollOutAsWritten(predict, ctx, n) == RollOut(predict, ctx, n)
  {
    if n > 0 {
      var w := Slide(ctx, predict(ctx));
      assert RollOut(predict, ctx, n) == [predict(ctx)] + RollOut(predict, w, n - 1);
      assert RollOutAsWritten(predict, ctx, n) == [predict(ctx)] + AsWrittenFrom(predict, ctx, w, n - 1);
      if n == 2 {
        assert RollOut(predict, w, 1) == [predict(w)] + RollOut(predict, Slide(w, predict(w)), 0);
        assert AsWrittenFrom(predict, ctx, w, 1) == [predict(w)] + AsWrittenFrom(predict, ctx, Slide(ctx, predict(w)), 0);
      }
    }
  }

  /** So the program's forecast is the intended one for horizons up to 2. */
  lemma TrainedForecastsAgreeShort(series: seq<Point>, horizon: int,
                                   train: (seq<seq<real>>, seq<real>) -> (seq<real> -> real))
    requires |series| >= Window && horizon <= 2
    ensures TrainedForecastAsWritten(series, horizon, train) == TrainedForecast(series, horizon, train)
  {
    RollOutsAgreeShort(Model(series, train), FirstWindow(series), Steps(horizon));
  }

  /**
   * The naive fallback of lines 44-53: `horizon` months after the last
   * point, each carrying the last value forward.
   */
  method CarryForward(last: Point, horizon: int) returns (r: Result<seq<Point>, ForecastError>)
    ensures r.Success? <==> ChainFits(last.t, Steps(horizon))
    ensures r.Success? ==> |r.value| == Steps(horizon) && Chained(last.t, r.value)
    ensures r.Success? ==> forall i :: 0 <= i < |r.value| ==> r.value[i].v == last.v
  {
    var flat := seq(Steps(horizon), _ => last.v);
    r := Stamp(last.t, flat);
    if r.Success? {
      assert forall i :: 0 <= i < |r.value| ==> r.value[i].v == Values(r.value)[i] == flat[i];
    }
  }

  /**
   * Ten points ending with 7.2 on 2020-05-01 and a horizon of 2 take the
   * fallback and give 7.2 on 2020-06-01 and on 2020-07-01.
   */
  method FallbackScenario(series: seq<Point>, train: (seq<seq<real>>, seq<real>) -> (seq<real> -> real))
    returns (r: Result<seq<Point>, ForecastError>)
    requires |series| == 10 && series[9] == Point("2020-05-01", 7.2)
    ensures r == Success([Point("2020-06-01", 7.2), Point("2020-07-01", 7.2)])
  {
    r := ForecastIndicator(series, 2, train);
    May2020Successors(series[9].t, "2020-06-01", "2020-07-01");
    assert ChainFits(series[9].t, 2);
    var ps := r.value;
    assert ps[0].t == "2020-06-01" && ps[1].t == "2020-07-01";
    assert ps == [Point("2020-06-01", 7.2), Point("2020-07-01", 7.2)];
  }

  /**
   * Lines 55-76 and 80: min-max scaling, windowing and training; the model,
   * the first window of the rollout, and `min_v` and `scale` for line 92.
   */
  method Train(series: seq<Point>, train: (seq<seq<real>>, seq<real>) -> (seq<real> -> real))
    returns (predict: seq<real> -> real, context: seq<real>, lo: real, scale: real)
    requires |series| >= Window
    ensures predict == Model(series, train) && context == FirstWindow(series)
    ensures lo == Low(series) && scale == Scale(series)
  {
    var values := Values(series);
    var hi: real;
    lo, hi := SeqMin(values), SeqMax(values);
    scale := ScaleOf(lo, hi);
    var normed := NormalizeAll(values, lo, scale);
    var xs, ys := ToSupervised(normed, Window);
    assert xs == SupervisedInputs(normed, Window);
    assert ys == SupervisedTargets(normed, Window);
    predict := train(xs, ys);
    context := normed[|normed| - Window..];
  }

  /**
   * The trainable path of lines 55-92 up to the scaled-back predictions,
   * with each prediction fed back into the window.
   */
  method TrainAndPredict(series: seq<Point>, horizon: int,
                         train: (seq<seq<real>>, seq<real>) -> (seq<real> -> real))
    returns (raw: seq<real>)
    requires |series| >= Window
    ensures raw == TrainedForecast(series, horizon, train)
  {
    var predict, context, lo, scale := Train(series, train);
    var preds := Autoregress(predict, context, horizon);
    raw := DenormalizeAll(preds, lo, scale);
  }

  /** Lines 55-92 as written, with the rollout loop that never rebinds `context`. */
  method TrainAndPredictAsWritten(series: seq<Point>, horizon: int,
                                  train: (seq<seq<real>>, seq<real>) -> (seq<real> -> real))
    returns (raw: seq<real>)
    requires |series| >= Window
    ensures raw == TrainedForecastAsWritten(series, horizon, train)
  {
    var predict, context, lo, scale := Train(series, train);
    var preds := AutoregressAsWritten(predict, context, horizon);
    raw := DenormalizeAll(preds, lo, scale);
  }

  /**
   * `forecast_indicator`. `train` stands for building `SmallLSTM` and its 60
   * epochs of Adam on the windowed data: any model it may return. The series
   * is non-empty: line 46 (and line 95) index its last point.
   */
  method ForecastIndicator(series: seq<Point>, horizon: int,
                           train: (seq<seq<real>>, seq<real>) -> (seq<real> -> real))
    returns (r: Result<seq<Point>, ForecastError>)
    requires |series| >= 1
    ensures r.Success? <==> ChainFits(series[|series| - 1].t, Steps(horizon))
    ensures r.Success? ==> |r.value| == Steps(horizon) && Chained(series[|series| - 1].t, r.value)
    ensures r.Success? && |series| < MinHistory ==>
      forall i :: 0 <= i < |r.value| ==> r.value[i].v == series[|series| - 1].v
    ensures r.Success? && |series| >= MinHistory ==> Values(r.value) == TrainedForecast(series, horizon, train)
  {
    var last := series[|series| - 1];
    if |series| < MinHistory {
      r := CarryForward(last, horizon);
    } else {
      var raw := TrainAndPredict(series, horizon, train);
      r := Stamp(last.t, raw);
    }
  }

  /**
   * `forecast_indicator` as written: as `ForecastIndicator`, except that the
   * trained path's values come from the rollout that never rebinds `context`.
   */
  method ForecastIndicatorAsWritten(series: seq<Point>, horizon: int,
                                    train: (seq<seq<real>>, seq<real>) -> (seq<real> -> real))
    returns (r: Result<seq<Point>, ForecastError>)
    requires |series| >= 1
    ensures r.Success? <==> ChainFits(series[|series| - 1].t, Steps(horizon))
    ensures r.Success? ==> |r.value| == Steps(horizon) && Chained(series[|series| - 1].t, r.value)
    ensures r.Success? && |series| < MinHistory ==>
      forall i :: 0 <= i < |r.value| ==> r.value[i].v == series[|series| - 1].v
    ensures r.Success? && |series| >= MinHistory ==> Values(r.value) == TrainedForecastAsWritten(series, horizon, train)
  {
    var last := series[|series| - 1];
    if |series| < MinHistory {
      r := CarryForward(last, horizon);
    } else {
      var raw := TrainAndPredictAsWritten(series, horizon, train);
      r := Stamp(last.t, raw);
    }
  }
}
