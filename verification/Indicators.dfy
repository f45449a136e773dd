/** Moving averages, MACD and RSI over exact closes. A series is its warm-up (the leading NaNs) and then its values. */
module Indicators {
  import opened Arithmetic
  import opened Domain

  /** A window length; those below 1 are the ones that `sma`, `ema` and `rsi` reject. */
  type Period = w: int | w >= 1 witness 1

  datatype Series = Series(warmup: nat, values: seq<real>) {
    function Length(): nat {
      warmup + |values|
    }

    function At(i: nat): Option<real> {
      if warmup <= i < Length() then Some(values[i - warmup]) else None
    }

    /** The first `n` points. */
    function Cut(n: nat): Series
      requires n <= Length()
    {
      if n <= warmup then Series(n, []) else Series(warmup, values[..n - warmup])
    }
  }

  function Sum(xs: seq<real>): real {
    if xs == [] then 0.0 else Sum(xs[..|xs| - 1]) + xs[|xs| - 1]
  }

  function Mean(xs: seq<real>): real
    requires xs != []
  {
    Sum(xs) / Shares(|xs|)
  }

  /** The mean of the window that starts at `i`. */
  function MeanFrom(xs: seq<real>, w: Period, i: nat): real
    requires i + w <= |xs|
  {
    Mean(xs[i..i + w])
  }

  function Sma(xs: seq<real>, w: Period): Series {
    if |xs| < w then Series(|xs|, [])
    else Series(w - 1, seq(|xs| - (w - 1), i requires 0 <= i < |xs| - (w - 1) => MeanFrom(xs, w, i)))
  }

  function Blend(alpha: real, before: real, x: real): real {
    Times(1.0 - alpha, before) + Times(alpha, x)
  }

  /** The exponentially weighted mean, started from the first value. */
  function Smooth(xs: seq<real>, alpha: real): real
    requires xs != []
  {
    if |xs| == 1 then xs[0] else Blend(alpha, Smooth(xs[..|xs| - 1], alpha), xs[|xs| - 1])
  }

  function SmoothTo(xs: seq<real>, alpha: real, n: nat): real
    requires 0 < n <= |xs|
  {
    Smooth(xs[..n], alpha)
  }

  /** A weighted mean shown once `w` values have been seen. */
  function Ewm(s: Series, alpha: real, w: Period): Series {
    if |s.values| < w then Series(s.Length(), [])
    else
      var n := |s.values| - (w - 1);
      Series(s.warmup + (w - 1), seq(n, i requires 0 <= i < n => SmoothTo(s.values, alpha, i + w)))
  }

  function SpanAlpha(w: Period): real {
    2.0 / Shares(w + 1)
  }

  function Ema(s: Series, w: Period): Series {
    Ewm(s, SpanAlpha(w), w)
  }

  /** Pointwise difference of two series of one length, defined where both are. */
  function Minus(a: Series, b: Series): Series
    requires a.Length() == b.Length() && a.warmup <= b.warmup
  {
    var shift := b.warmup - a.warmup;
    Series(b.warmup, seq(|b.values|, i requires 0 <= i < |b.values| => a.values[i + shift] - b.values[i]))
  }

  function MacdLine(xs: seq<real>, fast: Period, slow: Period): Series
    requires fast < slow
  {
    Minus(Ema(Series(0, xs), fast), Ema(Series(0, xs), slow))
  }

  function MacdSignal(xs: seq<real>, fast: Period, slow: Period, signal: Period): Series
    requires fast < slow
  {
    Ema(MacdLine(xs, fast, slow), signal)
  }

  function Gain(from: real, to: real): real {
    if to > from then to - from else 0.0
  }

  /** The gains of each bar over the one before it; losses are gains of the mirrored move. */
  function Gains(xs: seq<real>): Series {
    if xs == [] then Series(0, [])
    else Series(1, seq(|xs| - 1, i requires 0 <= i < |xs| - 1 => Gain(xs[i], xs[i + 1])))
  }

  function Losses(xs: seq<real>): Series {
    if xs == [] then Series(0, [])
    else Series(1, seq(|xs| - 1, i requires 0 <= i < |xs| - 1 => Gain(xs[i + 1], xs[i])))
  }

  /** RSI from the two averages: 50 where both are 0, 100 where only the loss is (the formula's infinite ratio). The
      ratio -1 is named only to keep the division defined: averages of gains and losses are never negative. */
  function Strength(gain: real, loss: real): real {
    if gain == 0.0 && loss == 0.0 then 50.0
    else if loss == 0.0 || 1.0 + gain / loss == 0.0 then 100.0
    else 100.0 - 100.0 / (1.0 + gain / loss)
  }

  function WilderAlpha(w: Period): real {
    1.0 / Shares(w)
  }

  function Rsi(xs: seq<real>, w: Period): Series {
    var up, down := Ewm(Gains(xs), WilderAlpha(w), w), Ewm(Losses(xs), WilderAlpha(w), w);
    Series(up.warmup, seq(|up.values|, i requires 0 <= i < |up.values| => Strength(up.values[i], down.values[i])))
  }

  /** Prefix stability: an indicator of a prefix is the prefix of the indicator. */
  lemma SmaIsPrefixStable(xs: seq<real>, w: Period, n: nat)
    requires n <= |xs|
    ensures Sma(xs, w).Length() == |xs| && Sma(xs[..n], w) == Sma(xs, w).Cut(n)
  {
    if w <= n {
      forall i | 0 <= i < n - (w - 1) ensures MeanFrom(xs[..n], w, i) == MeanFrom(xs, w, i) {
        assert xs[..n][i..i + w] == xs[i..i + w];
      }
    }
  }

  lemma EwmIsPrefixStable(s: Series, alpha: real, w: Period, n: nat)
    requires n <= s.Length()
    ensures Ewm(s, alpha, w).Length() == s.Length() && Ewm(s.Cut(n), alpha, w) == Ewm(s, alpha, w).Cut(n)
  {
    if n > s.warmup && n - s.warmup >= w {
      forall i | w <= i <= n - s.warmup ensures SmoothTo(s.Cut(n).values, alpha, i) == SmoothTo(s.values, alpha, i) {
        assert s.Cut(n).values[..i] == s.values[..i];
      }
    }
  }

  lemma MacdIsPrefixStable(xs: seq<real>, fast: Period, slow: Period, signal: Period, n: nat)
    requires n <= |xs| && fast < slow
    ensures MacdLine(xs, fast, slow).Length() == |xs| == MacdSignal(xs, fast, slow, signal).Length()
    ensures MacdLine(xs[..n], fast, slow) == MacdLine(xs, fast, slow).Cut(n)
    ensures MacdSignal(xs[..n], fast, slow, signal) == MacdSignal(xs, fast, slow, signal).Cut(n)
  {
    assert Series(0, xs).Cut(n) == Series(0, xs[..n]);
    EwmIsPrefixStable(Series(0, xs), SpanAlpha(fast), fast, n);
    EwmIsPrefixStable(Series(0, xs), SpanAlpha(slow), slow, n);
    EwmIsPrefixStable(MacdLine(xs, fast, slow), SpanAlpha(signal), signal, n);
  }

  lemma RsiIsPrefixStable(xs: seq<real>, w: Period, n: nat)
    requires n <= |xs|
    ensures Rsi(xs, w).Length() == |xs| && Rsi(xs[..n], w) == Rsi(xs, w).Cut(n)
  {
    if n > 0 {
      assert Gains(xs).Cut(n) == Gains(xs[..n]);
      assert Losses(xs).Cut(n) == Losses(xs[..n]);
      EwmIsPrefixStable(Gains(xs), WilderAlpha(w), w, n);
      EwmIsPrefixStable(Losses(xs), WilderAlpha(w), w, n);
    }
  }

  /** Where each indicator has values at all. */
  lemma WarmUps(xs: seq<real>, fast: Period, slow: Period, signal: Period, i: nat)
    requires i < |xs| && fast < slow
    ensures Sma(xs, slow).At(i).Some? <==> i >= slow - 1
    ensures MacdLine(xs, fast, slow).At(i).Some? <==> i >= slow - 1
    ensures MacdSignal(xs, fast, slow, signal).At(i).Some? <==> i >= slow + signal - 2
  {
  }

  lemma RsiWarmUp(xs: seq<real>, w: Period, i: nat)
    requires i < |xs|
    ensures Rsi(xs, w).At(i).Some? <==> i >= w
  {
  }

  function Line(k: real, b: real, x: real): real {
    Times(k, x) + b
  }

  /** The same prices in another unit, or mirrored: x becomes k * x + b. */
  function Affine(xs: seq<real>, k: real, b: real): seq<real> {
    seq(|xs|, i requires 0 <= i < |xs| => Line(k, b, xs[i]))
  }

  function AffineSeries(s: Series, k: real, b: real): Series {
    Series(s.warmup, Affine(s.values, k, b))
  }

  lemma AffineSlice(xs: seq<real>, k: real, b: real, i: nat, j: nat)
    requires i <= j <= |xs|
    ensures Affine(xs, k, b)[i..j] == Affine(xs[i..j], k, b)
  {
  }

  lemma {:induction false} SumIsAffine(xs: seq<real>, k: real, b: real)
    ensures Sum(Affine(xs, k, b)) == Times(k, Sum(xs)) + Times(Shares(|xs|), b)
  {
    if xs != [] {
      var n := |xs| - 1;
      SumIsAffine(xs[..n], k, b);
      AffineSlice(xs, k, b, 0, n);
      assert Affine(xs, k, b)[..n] == Affine(xs[..n], k, b);
      TimesAdds(k, Sum(xs[..n]), xs[n]);
      TimesAddsLeft(Shares(n), 1.0, b);
      assert Times(1.0, b) == b;
      hide Times;
    }
  }

  lemma MeanIsAffine(xs: seq<real>, k: real, b: real)
    requires xs != []
    ensures Mean(Affine(xs, k, b)) == Line(k, b, Mean(xs))
  {
    var n, s := Shares(|xs|), Sum(xs);
    SumIsAffine(xs, k, b);
    QuotientTimes(s, n);
    assert (k * (s / n) + b) * n == k * (s / n * n) + n * b;
    QuotientIs(Times(k, s) + Times(n, b), n, Line(k, b, s / n));
  }

  lemma BlendIsAffine(alpha: real, before: real, x: real, k: real, b: real)
    ensures Blend(alpha, Line(k, b, before), Line(k, b, x)) == Line(k, b, Blend(alpha, before, x))
  {
    assert (1.0 - alpha) * (k * before + b) == k * ((1.0 - alpha) * before) + (b - alpha * b);
    assert alpha * (k * x + b) == k * (alpha * x) + alpha * b;
    assert k * ((1.0 - alpha) * before + alpha * x) == k * ((1.0 - alpha) * before) + k * (alpha * x);
  }

  lemma {:induction false} SmoothIsAffine(xs: seq<real>, alpha: real, k: real, b: real)
    requires xs != []
    ensures Smooth(Affine(xs, k, b), alpha) == Line(k, b, Smooth(xs, alpha))
  {
    if |xs| > 1 {
      var n := |xs| - 1;
      SmoothIsAffine(xs[..n], alpha, k, b);
      assert Affine(xs, k, b)[..n] == Affine(xs[..n], k, b);
      hide Blend, Line;
      BlendIsAffine(alpha, Smooth(xs[..n], alpha), xs[n], k, b);
    }
  }

  lemma SmaIsAffine(xs: seq<real>, w: Period, k: real, b: real)
    ensures Sma(Affine(xs, k, b), w) == AffineSeries(Sma(xs, w), k, b)
  {
    hide Line, Mean;
    if w <= |xs| {
      forall i | 0 <= i < |xs| - (w - 1)
        ensures MeanFrom(Affine(xs, k, b), w, i) == Line(k, b, MeanFrom(xs, w, i)) {
        AffineSlice(xs, k, b, i, i + w);
        MeanIsAffine(xs[i..i + w], k, b);
      }
    }
  }

  lemma EwmIsAffine(s: Series, alpha: real, w: Period, k: real, b: real)
    ensures Ewm(AffineSeries(s, k, b), alpha, w) == AffineSeries(Ewm(s, alpha, w), k, b)
  {
    hide Line;
    if w <= |s.values| {
      forall i | w <= i <= |s.values|
        ensures SmoothTo(Affine(s.values, k, b), alpha, i) == Line(k, b, SmoothTo(s.values, alpha, i)) {
        AffineSlice(s.values, k, b, 0, i);
        assert Affine(s.values, k, b)[..i] == Affine(s.values[..i], k, b);
        SmoothIsAffine(s.values[..i], alpha, k, b);
      }
    }
  }

  lemma MacdIsScaled(xs: seq<real>, fast: Period, slow: Period, signal: Period, k: real, b: real)
    requires fast < slow
    ensures MacdLine(Affine(xs, k, b), fast, slow) == AffineSeries(MacdLine(xs, fast, slow), k, 0.0)
    ensures MacdSignal(Affine(xs, k, b), fast, slow, signal)
         == AffineSeries(MacdSignal(xs, fast, slow, signal), k, 0.0)
  {
    var s := Series(0, xs);
    assert AffineSeries(s, k, b) == Series(0, Affine(xs, k, b));
    EwmIsAffine(s, SpanAlpha(fast), fast, k, b);
    EwmIsAffine(s, SpanAlpha(slow), slow, k, b);
    MinusIsScaled(Ema(s, fast), Ema(s, slow), k, b);
    EwmIsAffine(MacdLine(xs, fast, slow), SpanAlpha(signal), signal, k, 0.0);
  }

  lemma MinusIsScaled(u: Series, v: Series, k: real, b: real)
    requires u.Length() == v.Length() && u.warmup <= v.warmup
    ensures Minus(AffineSeries(u, k, b), AffineSeries(v, k, b)) == AffineSeries(Minus(u, v), k, 0.0)
  {
    var shift := v.warmup - u.warmup;
    forall i | 0 <= i < |v.values|
      ensures Line(k, b, u.values[i + shift]) - Line(k, b, v.values[i])
           == Line(k, 0.0, u.values[i + shift] - v.values[i]) {
      TimesAdds(k, u.values[i + shift] - v.values[i], v.values[i]);
    }
    hide Line;
  }

  lemma {:induction false} SmoothIsNonNegative(xs: seq<real>, w: Period)
    requires xs != [] && forall i | 0 <= i < |xs| :: xs[i] >= 0.0
    ensures Smooth(xs, WilderAlpha(w)) >= 0.0
  {
    if |xs| > 1 {
      var n := |xs| - 1;
      SmoothIsNonNegative(xs[..n], w);
      assert 0.0 < WilderAlpha(w) <= 1.0 by {
        QuotientTimes(1.0, Shares(w));
        AlphaInUnit(WilderAlpha(w), Shares(w));
      }
      NonNegativeProduct(1.0 - WilderAlpha(w), Smooth(xs[..n], WilderAlpha(w)));
      NonNegativeProduct(WilderAlpha(w), xs[n]);
    }
  }

  lemma AlphaInUnit(alpha: real, n: real)
    requires n >= 1.0 && Times(alpha, n) == 1.0
    ensures 0.0 < alpha <= 1.0
  {
    if alpha <= 0.0 {
      ProductMonotone(alpha, 0.0, n);
    } else if alpha > 1.0 {
      ProductStrict(1.0, alpha, n);
    }
  }

  lemma QuotientSign(x: real, y: real)
    requires x >= 0.0 && y > 0.0
    ensures x / y >= 0.0
  {
    QuotientTimes(x, y);
    if x / y < 0.0 {
      ProductStrict(x / y, 0.0, y);
    }
  }

  lemma StrengthInRange(gain: real, loss: real)
    requires gain >= 0.0 && loss >= 0.0
    ensures 0.0 <= Strength(gain, loss) <= 100.0
  {
    if loss > 0.0 {
      var r := 1.0 + gain / loss;
      QuotientSign(gain, loss);
      QuotientSign(100.0, r);
      QuotientTimes(100.0, r);
      if 100.0 / r > 100.0 {
        ProductStrict(100.0, 100.0 / r, r);
        ProductMonotone(1.0, r, 100.0);
      }
    }
  }

  /** With a positive loss the formula is the gain's share of the movement. */
  lemma StrengthIsShare(gain: real, loss: real)
    requires gain >= 0.0 && loss >= 0.0 && gain + loss > 0.0
    ensures Strength(gain, loss) == Times(100.0, gain) / (gain + loss)
  {
    var total := gain + loss;
    if loss == 0.0 {
      QuotientIs(Times(100.0, gain), total, 100.0);
    } else {
      var q := gain / loss;
      QuotientSign(gain, loss);
      QuotientTimes(gain, loss);
      var x := 100.0 / (1.0 + q);
      QuotientTimes(100.0, 1.0 + q);
      assert x * (1.0 + q) * loss == x * (loss + q * loss);
      assert Times(x, total) == Times(100.0, loss);
      assert Times(100.0 - x, total) == Times(100.0, gain);
      QuotientIs(Times(100.0, gain), total, 100.0 - x);
    }
  }

  /** Mirroring gains and losses mirrors RSI around 50; only the value 50 in the flat case makes this total. */
  lemma StrengthMirrors(gain: real, loss: real)
    requires gain >= 0.0 && loss >= 0.0
    ensures Strength(loss, gain) == 100.0 - Strength(gain, loss)
  {
    if gain + loss > 0.0 {
      StrengthIsShare(gain, loss);
      StrengthIsShare(loss, gain);
      var total := gain + loss;
      var x, y := Times(100.0, gain) / total, Times(100.0, loss) / total;
      QuotientTimes(Times(100.0, gain), total);
      QuotientTimes(Times(100.0, loss), total);
      assert Times(x + y, total) == Times(100.0, total);
      QuotientIs(Times(100.0, total), total, x + y);
      QuotientIs(Times(100.0, total), total, 100.0);
    }
  }

  lemma StrengthIgnoresScale(gain: real, loss: real, k: real)
    requires gain >= 0.0 && loss >= 0.0 && k > 0.0
    ensures Strength(Times(k, gain), Times(k, loss)) == Strength(gain, loss)
  {
    if gain + loss > 0.0 {
      NonNegativeProduct(k, gain);
      NonNegativeProduct(k, loss);
      TimesAdds(k, gain, loss);
      ProductStrict(0.0, gain + loss, k);
      StrengthIsShare(gain, loss);
      StrengthIsShare(Times(k, gain), Times(k, loss));
      var total := gain + loss;
      var x := Times(100.0, gain) / total;
      QuotientTimes(Times(100.0, gain), total);
      assert k * (x * total) == x * (k * total);
      assert 100.0 * (k * gain) == k * (100.0 * gain);
      QuotientIs(Times(100.0, Times(k, gain)), Times(k, total), x);
    }
  }

  lemma GainScales(from: real, to: real, k: real, b: real)
    requires k != 0.0
    ensures k > 0.0 ==> Gain(Line(k, b, from), Line(k, b, to)) == Line(k, 0.0, Gain(from, to))
    ensures k < 0.0 ==> Gain(Line(k, b, from), Line(k, b, to)) == Line(-k, 0.0, Gain(to, from))
  {
    TimesAdds(k, to - from, from);
    assert Times(-k, from - to) == Times(k, to - from);
    if to > from {
      ProductStrict(if k > 0.0 then 0.0 else k, if k > 0.0 then k else 0.0, to - from);
    } else if from > to {
      ProductStrict(if k > 0.0 then 0.0 else k, if k > 0.0 then k else 0.0, from - to);
      assert Times(k, from - to) == -Times(k, to - from);
    }
    assert Times(k, 0.0) == 0.0 && Times(-k, 0.0) == 0.0;
    hide Times;
  }

  lemma GainsScaleUp(xs: seq<real>, k: real, b: real)
    requires k > 0.0
    ensures Gains(Affine(xs, k, b)) == AffineSeries(Gains(xs), k, 0.0)
    ensures Losses(Affine(xs, k, b)) == AffineSeries(Losses(xs), k, 0.0)
  {
    hide Line, Gain;
    forall i | 0 <= i < |xs| - 1
      ensures Gain(Line(k, b, xs[i]), Line(k, b, xs[i + 1])) == Line(k, 0.0, Gain(xs[i], xs[i + 1]))
      ensures Gain(Line(k, b, xs[i + 1]), Line(k, b, xs[i])) == Line(k, 0.0, Gain(xs[i + 1], xs[i])) {
      GainScales(xs[i], xs[i + 1], k, b);
      GainScales(xs[i + 1], xs[i], k, b);
    }
  }

  lemma GainsMirror(xs: seq<real>, k: real, b: real)
    requires k < 0.0
    ensures Gains(Affine(xs, k, b)) == AffineSeries(Losses(xs), -k, 0.0)
    ensures Losses(Affine(xs, k, b)) == AffineSeries(Gains(xs), -k, 0.0)
  {
    hide Line, Gain;
    forall i | 0 <= i < |xs| - 1
      ensures Gain(Line(k, b, xs[i]), Line(k, b, xs[i + 1])) == Line(-k, 0.0, Gain(xs[i + 1], xs[i]))
      ensures Gain(Line(k, b, xs[i + 1]), Line(k, b, xs[i])) == Line(-k, 0.0, Gain(xs[i], xs[i + 1])) {
      GainScales(xs[i], xs[i + 1], k, b);
      GainScales(xs[i + 1], xs[i], k, b);
    }
  }

  lemma AveragesAreNonNegative(xs: seq<real>, w: Period)
    ensures forall i | 0 <= i < |Ewm(Gains(xs), WilderAlpha(w), w).values| ::
              Ewm(Gains(xs), WilderAlpha(w), w).values[i] >= 0.0
    ensures forall i | 0 <= i < |Ewm(Losses(xs), WilderAlpha(w), w).values| ::
              Ewm(Losses(xs), WilderAlpha(w), w).values[i] >= 0.0
  {
    forall i | w <= i <= |Gains(xs).values|
      ensures SmoothTo(Gains(xs).values, WilderAlpha(w), i) >= 0.0
      ensures SmoothTo(Losses(xs).values, WilderAlpha(w), i) >= 0.0 {
      SmoothIsNonNegative(Gains(xs).values[..i], w);
      SmoothIsNonNegative(Losses(xs).values[..i], w);
    }
  }

  /** RSI lies in [0, 100], is unchanged by a positive change of unit, and is mirrored by a negative one. */
  lemma RsiIsSymmetric(xs: seq<real>, w: Period, k: real, b: real)
    requires k != 0.0
    ensures Rsi(Affine(xs, k, b), w).warmup == Rsi(xs, w).warmup
    ensures |Rsi(Affine(xs, k, b), w).values| == |Rsi(xs, w).values|
    ensures forall i | 0 <= i < |Rsi(xs, w).values| ::
      && 0.0 <= Rsi(xs, w).values[i] <= 100.0
      && Rsi(Affine(xs, k, b), w).values[i]
         == if k > 0.0 then Rsi(xs, w).values[i] else 100.0 - Rsi(xs, w).values[i]
  {
    var a := WilderAlpha(w);
    var size := if k > 0.0 then k else -k;
    if k > 0.0 {
      GainsScaleUp(xs, k, b);
    } else {
      GainsMirror(xs, k, b);
    }
    EwmIsAffine(Gains(xs), a, w, size, 0.0);
    EwmIsAffine(Losses(xs), a, w, size, 0.0);
    AveragesAreNonNegative(xs, w);
    var up, down := Ewm(Gains(xs), a, w).values, Ewm(Losses(xs), a, w).values;
    hide Gains, Losses, Ewm, Strength, Line;
    forall i | 0 <= i < |Rsi(xs, w).values|
      ensures 0.0 <= Strength(up[i], down[i]) <= 100.0
      ensures Strength(Line(size, 0.0, up[i]), Line(size, 0.0, down[i])) == Strength(up[i], down[i])
      ensures Strength(Line(size, 0.0, down[i]), Line(size, 0.0, up[i])) == 100.0 - Strength(up[i], down[i]) {
      StrengthInRange(up[i], down[i]);
      StrengthMirrors(up[i], down[i]);
      LineOfZero(size, up[i]);
      LineOfZero(size, down[i]);
      StrengthIgnoresScale(up[i], down[i], size);
      StrengthIgnoresScale(down[i], up[i], size);
    }
  }

  lemma LineOfZero(k: real, x: real)
    ensures Line(k, 0.0, x) == Times(k, x)
  {
  }

  ghost function Power(x: real, n: nat): real {
    if n == 0 then 1.0 else Times(x, Power(x, n - 1))
  }

  /** The weight of the `k`-th of `n` values in a mean that decays by a factor a bar; the first value stands for the
      whole past. */
  ghost function Weight(alpha: real, n: nat, k: nat): real
    requires k < n
  {
    if k == 0 then Power(1.0 - alpha, n - 1) else Times(alpha, Power(1.0 - alpha, n - 1 - k))
  }

  /** The first `m` terms of the weighted sum of `n` values. */
  ghost function WeightedPart(xs: seq<real>, alpha: real, n: nat, m: nat): real
    requires m <= |xs| && m <= n
  {
    if m == 0 then 0.0 else WeightedPart(xs, alpha, n, m - 1) + Times(Weight(alpha, n, m - 1), xs[m - 1])
  }

  ghost function DecayingMean(xs: seq<real>, alpha: real): real {
    WeightedPart(xs, alpha, |xs|, |xs|)
  }

  lemma {:induction false} PartDecays(xs: seq<real>, alpha: real, n: nat, m: nat)
    requires m <= |xs| - 1 && m <= n
    ensures WeightedPart(xs, alpha, n + 1, m) == Times(1.0 - alpha, WeightedPart(xs[..|xs| - 1], alpha, n, m))
  {
    if m > 0 {
      var rest, x := WeightedPart(xs[..|xs| - 1], alpha, n, m - 1), xs[m - 1];
      PartDecays(xs, alpha, n, m - 1);
      WeightDecays(alpha, n, m - 1, x);
      TimesAdds(1.0 - alpha, rest, Times(Weight(alpha, n, m - 1), x));
      hide Times, Weight;
    }
  }

  lemma WeightDecays(alpha: real, n: nat, k: nat, x: real)
    requires k < n
    ensures Times(Weight(alpha, n + 1, k), x) == Times(1.0 - alpha, Times(Weight(alpha, n, k), x))
  {
    var b, p := 1.0 - alpha, Power(1.0 - alpha, n - 1 - k);
    assert Power(b, n - k) == b * p;
    if k > 0 {
      assert alpha * (b * p) == b * (alpha * p);
    }
    var u := if k == 0 then p else alpha * p;
    assert (b * u) * x == b * (u * x);
  }

  /** The recurrence is the mean with exponentially decaying weights. */
  lemma {:induction false} SmoothIsDecayingMean(xs: seq<real>, alpha: real)
    requires xs != []
    ensures Smooth(xs, alpha) == DecayingMean(xs, alpha)
  {
    var n := |xs| - 1;
    if n == 0 {
      assert Weight(alpha, 1, 0) == 1.0;
      assert WeightedPart(xs, alpha, 1, 0) == 0.0;
    } else {
      SmoothIsDecayingMean(xs[..n], alpha);
      PartDecays(xs, alpha, n, n);
      assert Power(1.0 - alpha, 0) == 1.0;
      assert Weight(alpha, n + 1, n) == alpha;
    }
  }

  lemma EwmAt(s: Series, alpha: real, w: Period, i: nat)
    requires i < s.Length()
    ensures i >= s.warmup + w - 1 ==> Ewm(s, alpha, w).At(i) == Some(Smooth(s.values[..i + 1 - s.warmup], alpha))
    ensures i < s.warmup + w - 1 ==> Ewm(s, alpha, w).At(i) == None
  {
    hide Smooth;
    if i >= s.warmup + w - 1 {
      var j := i - s.warmup - (w - 1);
      assert Ewm(s, alpha, w).values[j] == SmoothTo(s.values, alpha, j + w);
    }
  }

  /** An exponential average of span `w`: shown from the `w`-th value on, and then the decaying mean of all values so
      far with factor 2 / (w + 1). */
  lemma EmaIsDecayingMean(s: Series, w: Period, i: nat)
    requires i < s.Length()
    ensures Ema(s, w).At(i).Some? <==> i >= s.warmup + w - 1
    ensures i >= s.warmup + w - 1 ==>
              Ema(s, w).At(i).value == DecayingMean(s.values[..i + 1 - s.warmup], 2.0 / Shares(w + 1))
  {
    hide Smooth, DecayingMean, Ewm;
    var alpha := SpanAlpha(w);
    assert alpha == 2.0 / Shares(w + 1);
    EwmAt(s, alpha, w, i);
    if i >= s.warmup + w - 1 {
      SmoothIsDecayingMean(s.values[..i + 1 - s.warmup], alpha);
    }
  }

  /** The simple average at a bar: the sum of the last `w` values over `w`. */
  lemma SmaIsMean(xs: seq<real>, w: Period, i: nat)
    requires i < |xs|
    ensures Sma(xs, w).At(i).Some? <==> i >= w - 1
    ensures i >= w - 1 ==> Sma(xs, w).At(i).value == Sum(xs[i + 1 - w..i + 1]) / Shares(w)
  {
    hide Sum;
  }

  /** MACD at a bar: the fast decaying mean minus the slow one, and over these differences a third one. */
  lemma MacdIsDifference(xs: seq<real>, fast: Period, slow: Period, signal: Period, i: nat)
    requires fast < slow && i < |xs|
    ensures var line, smoothed := MacdLine(xs, fast, slow), MacdSignal(xs, fast, slow, signal);
      && (line.At(i).Some? <==> i >= slow - 1) && (smoothed.At(i).Some? <==> i >= slow + signal - 2)
      && (i >= slow - 1 ==>
            line.At(i).value == DecayingMean(xs[..i + 1], 2.0 / Shares(fast + 1))
                                - DecayingMean(xs[..i + 1], 2.0 / Shares(slow + 1)))
      && (i >= slow + signal - 2 ==>
            smoothed.At(i).value == DecayingMean(line.values[..i + 2 - slow], 2.0 / Shares(signal + 1)))
  {
    var s, line := Series(0, xs), MacdLine(xs, fast, slow);
    MacdIsPrefixStable(xs, fast, slow, signal, 0);
    WarmUps(xs, fast, slow, signal, i);
    EmaIsDecayingMean(s, fast, i);
    EmaIsDecayingMean(s, slow, i);
    EmaIsDecayingMean(line, signal, i);
    hide DecayingMean, Smooth;
    assert i >= slow - 1 ==> line.At(i).value == Ema(s, fast).At(i).value - Ema(s, slow).At(i).value;
  }

  /** How far each bar rose above, or fell below, the one before it. */
  ghost function Rises(xs: seq<real>): seq<real>
    requires xs != []
  {
    seq(|xs| - 1, k requires 0 <= k < |xs| - 1 => if xs[k + 1] > xs[k] then xs[k + 1] - xs[k] else 0.0)
  }

  ghost function Falls(xs: seq<real>): seq<real>
    requires xs != []
  {
    seq(|xs| - 1, k requires 0 <= k < |xs| - 1 => if xs[k + 1] < xs[k] then xs[k] - xs[k + 1] else 0.0)
  }

  lemma WilderIsDecayingMean(s: Series, w: Period, i: nat)
    requires s.warmup + w - 1 <= i < s.Length()
    ensures Ewm(s, WilderAlpha(w), w).At(i) == Some(DecayingMean(s.values[..i + 1 - s.warmup], 1.0 / Shares(w)))
  {
    hide Smooth, DecayingMean, Ewm;
    var alpha := WilderAlpha(w);
    assert alpha == 1.0 / Shares(w);
    EwmAt(s, alpha, w, i);
    SmoothIsDecayingMean(s.values[..i + 1 - s.warmup], alpha);
  }

  /** RSI at a bar: the share of the rises, in percent, in all movement so far, both as decaying means with factor
      1 / w; and 50 where there was none. */
  lemma RsiIsShareOfMovement(xs: seq<real>, w: Period, i: nat)
    requires w <= i < |xs|
    ensures var up, down := DecayingMean(Rises(xs[..i + 1]), 1.0 / Shares(w)),
                            DecayingMean(Falls(xs[..i + 1]), 1.0 / Shares(w));
      && up >= 0.0 && down >= 0.0
      && Rsi(xs, w).At(i) == Some(if up + down == 0.0 then 50.0 else Times(100.0, up) / (up + down))
  {
    var a := 1.0 / Shares(w);
    var up, down := DecayingMean(Rises(xs[..i + 1]), a), DecayingMean(Falls(xs[..i + 1]), a);
    assert Gains(xs).values[..i] == Rises(xs[..i + 1]);
    assert Losses(xs).values[..i] == Falls(xs[..i + 1]);
    WilderIsDecayingMean(Gains(xs), w, i);
    WilderIsDecayingMean(Losses(xs), w, i);
    AveragesAreNonNegative(xs, w);
    hide DecayingMean, Gains, Losses, Rises, Falls, Smooth;
    assert up >= 0.0 && down >= 0.0;
    if up + down > 0.0 {
      StrengthIsShare(up, down);
    }
  }
}
