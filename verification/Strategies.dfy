/** The three strategies as functions of the closes seen so far, and what their signals keep over a whole series. */
module Strategies {
  import opened Arithmetic
  import opened Domain
  import opened Indicators

  /** `NoData` is the error raised for an empty window. */
  datatype Outcome = NoData | Emits(kind: SignalType)

  /** A fast line against a slow one, before and after: the sign of the difference has to flip. */
  function Cross(fastPrev: real, fastCurr: real, slowPrev: real, slowCurr: real): SignalType {
    if fastPrev <= slowPrev && fastCurr > slowCurr then BUY
    else if fastPrev >= slowPrev && fastCurr < slowCurr then SELL
    else HOLD
  }

  function Bounce(prev: real, curr: real, oversold: real, overbought: real): SignalType {
    if prev <= oversold < curr then BUY
    else if prev >= overbought > curr then SELL
    else HOLD
  }

  function Swapped(kind: SignalType): SignalType {
    match kind
    case BUY => SELL
    case SELL => BUY
    case HOLD => HOLD
  }

  /** The cross of two series at the bar `i`, where both are defined there and at the bar before. */
  function CrossAt(fast: Series, slow: Series, i: nat): SignalType {
    if i == 0 then HOLD
    else
      match (fast.At(i - 1), fast.At(i), slow.At(i - 1), slow.At(i))
      case (Some(fp), Some(fc), Some(sp), Some(sc)) => Cross(fp, fc, sp, sc)
      case _ => HOLD
  }

  function BounceAt(rsi: Series, oversold: real, overbought: real, i: nat): SignalType {
    if i == 0 then HOLD
    else
      match (rsi.At(i - 1), rsi.At(i))
      case (Some(prev), Some(curr)) => Bounce(prev, curr, oversold, overbought)
      case _ => HOLD
  }

  function CrossoverSignal(xs: seq<real>, fast: Period, slow: Period): Outcome
    requires fast < slow
  {
    if xs == [] then NoData
    else if |xs| < slow + 1 then Emits(HOLD)
    else Emits(CrossAt(Sma(xs, fast), Sma(xs, slow), |xs| - 1))
  }

  function MacdCrossSignal(xs: seq<real>, fast: Period, slow: Period, signal: Period): Outcome
    requires fast < slow
  {
    if xs == [] then NoData
    else if |xs| < slow + signal + 1 then Emits(HOLD)
    else Emits(CrossAt(MacdLine(xs, fast, slow), MacdSignal(xs, fast, slow, signal), |xs| - 1))
  }

  function RsiSignal(xs: seq<real>, w: Period, oversold: real, overbought: real): Outcome
    requires 0.0 < oversold < overbought < 100.0
  {
    if xs == [] then NoData
    else if |xs| < w + 2 then Emits(HOLD)
    else Emits(BounceAt(Rsi(xs, w), oversold, overbought, |xs| - 1))
  }

  lemma CrossOfCuts(fast: Series, slow: Series, i: nat)
    requires i < fast.Length() && i < slow.Length()
    ensures CrossAt(fast.Cut(i + 1), slow.Cut(i + 1), i) == CrossAt(fast, slow, i)
  {
  }

  lemma NoCrossBefore(fast: Series, slow: Series, i: nat)
    requires i == 0 || slow.At(i - 1).None?
    ensures CrossAt(fast, slow, i) == HOLD
  {
  }

  /** What a strategy says bar by bar, from windows that grow by one bar, can be read off the indicators of the whole
      series. The length guards of the SMA and RSI strategies hide nothing that is defined. */
  lemma CrossoverReadsTheWholeSeries(xs: seq<real>, fast: Period, slow: Period, i: nat)
    requires fast < slow && i < |xs|
    ensures CrossoverSignal(xs[..i + 1], fast, slow) == Emits(CrossAt(Sma(xs, fast), Sma(xs, slow), i))
  {
    hide Sma, CrossAt, MacdLine, MacdSignal, Series.Cut, Series.At;
    var f, g := Sma(xs, fast), Sma(xs, slow);
    if i < slow {
      if i > 0 {
        WarmUps(xs, fast, slow, 1, i - 1);
      }
      NoCrossBefore(f, g, i);
    } else {
      SmaIsPrefixStable(xs, fast, i + 1);
      SmaIsPrefixStable(xs, slow, i + 1);
      CrossOfCuts(f, g, i);
    }
  }

  lemma RsiReadsTheWholeSeries(xs: seq<real>, w: Period, oversold: real, overbought: real, i: nat)
    requires 0.0 < oversold < overbought < 100.0 && i < |xs|
    ensures RsiSignal(xs[..i + 1], w, oversold, overbought) == Emits(BounceAt(Rsi(xs, w), oversold, overbought, i))
  {
    RsiIsPrefixStable(xs, w, i + 1);
    RsiWarmUp(xs, w, i);
    if i > 0 {
      RsiWarmUp(xs, w, i - 1);
    }
    hide Rsi;
  }

  /** The MACD guard withholds exactly one bar at which both lines are already defined. */
  lemma MacdReadsTheWholeSeries(xs: seq<real>, fast: Period, slow: Period, signal: Period, i: nat)
    requires fast < slow && i < |xs|
    ensures MacdCrossSignal(xs[..i + 1], fast, slow, signal)
         == Emits(if i == slow + signal - 1 then HOLD
                  else CrossAt(MacdLine(xs, fast, slow), MacdSignal(xs, fast, slow, signal), i))
  {
    hide Sma, MacdLine, MacdSignal, CrossAt, Series.Cut, Series.At;
    var f, g := MacdLine(xs, fast, slow), MacdSignal(xs, fast, slow, signal);
    if i < slow + signal - 1 {
      if i > 0 {
        WarmUps(xs, fast, slow, signal, i - 1);
      }
      NoCrossBefore(f, g, i);
    } else {
      MacdIsPrefixStable(xs, fast, slow, signal, i + 1);
      CrossOfCuts(f, g, i);
    }
  }

  /** What each strategy says at a bar, told by the values of its indicators there and one bar before. */
  lemma CrossoverSignalIff(xs: seq<real>, fast: Period, slow: Period, i: nat)
    requires fast < slow && i < |xs|
    ensures var f, g, signal := Sma(xs, fast), Sma(xs, slow), CrossoverSignal(xs[..i + 1], fast, slow);
      && (signal == Emits(BUY)
          <==> i >= slow && f.At(i - 1).value <= g.At(i - 1).value && f.At(i).value > g.At(i).value)
      && (signal == Emits(SELL)
          <==> i >= slow && f.At(i - 1).value >= g.At(i - 1).value && f.At(i).value < g.At(i).value)
      && signal != NoData
  {
    CrossoverReadsTheWholeSeries(xs, fast, slow, i);
    hide CrossoverSignal;
  }

  lemma MacdSignalIff(xs: seq<real>, fast: Period, slow: Period, signal: Period, i: nat)
    requires fast < slow && i < |xs|
    ensures var f, g := MacdLine(xs, fast, slow), MacdSignal(xs, fast, slow, signal);
      var said := MacdCrossSignal(xs[..i + 1], fast, slow, signal);
      && (said == Emits(BUY) <==> i >= slow + signal
                                  && f.At(i - 1).value <= g.At(i - 1).value && f.At(i).value > g.At(i).value)
      && (said == Emits(SELL) <==> i >= slow + signal
                                   && f.At(i - 1).value >= g.At(i - 1).value && f.At(i).value < g.At(i).value)
      && said != NoData
  {
    MacdReadsTheWholeSeries(xs, fast, slow, signal, i);
    WarmUps(xs, fast, slow, signal, i);
    if i > 0 {
      WarmUps(xs, fast, slow, signal, i - 1);
    }
    hide MacdCrossSignal, MacdSignal;
  }

  lemma RsiSignalIff(xs: seq<real>, w: Period, oversold: real, overbought: real, i: nat)
    requires 0.0 < oversold < overbought < 100.0 && i < |xs|
    ensures var rsi, signal := Rsi(xs, w), RsiSignal(xs[..i + 1], w, oversold, overbought);
      && (signal == Emits(BUY) <==> && i > 0 && rsi.At(i - 1).Some? && rsi.At(i).Some?
                                    && rsi.At(i - 1).value <= oversold && rsi.At(i).value > oversold)
      && (signal == Emits(SELL) <==> && i > 0 && rsi.At(i - 1).Some? && rsi.At(i).Some?
                                     && rsi.At(i - 1).value >= overbought && rsi.At(i).value < overbought)
      && signal != NoData
  {
    RsiReadsTheWholeSeries(xs, w, oversold, overbought, i);
    hide RsiSignal, Rsi;
  }

  /** Above, below or level: a series of comparisons. */
  ghost predicate DefinedOn(fast: Series, slow: Series, i: nat, j: nat) {
    forall k: nat | i <= k <= j :: fast.At(k).Some? && slow.At(k).Some?
  }

  ghost predicate Above(fast: Series, slow: Series, k: nat) {
    fast.At(k).Some? && slow.At(k).Some? && fast.At(k).value > slow.At(k).value
  }

  ghost predicate Below(fast: Series, slow: Series, k: nat) {
    fast.At(k).Some? && slow.At(k).Some? && fast.At(k).value < slow.At(k).value
  }

  ghost predicate Level(fast: Series, slow: Series, k: nat) {
    fast.At(k).Some? && slow.At(k).Some? && fast.At(k).value == slow.At(k).value
  }

  /** Signals fire at edges: after a BUY the fast line is above, before a BUY it is not. */
  lemma CrossIsAnEdge(fast: Series, slow: Series, i: nat)
    ensures CrossAt(fast, slow, i) == BUY <==> i > 0 && Above(fast, slow, i)
                                               && (Below(fast, slow, i - 1) || Level(fast, slow, i - 1))
    ensures CrossAt(fast, slow, i) == SELL <==> i > 0 && Below(fast, slow, i)
                                                && (Above(fast, slow, i - 1) || Level(fast, slow, i - 1))
  {
  }

  /** The side of the slow line that a signal puts the fast line on. */
  ghost predicate OnSide(kind: SignalType, fast: Series, slow: Series, k: nat) {
    match kind
    case BUY => Above(fast, slow, k)
    case SELL => Below(fast, slow, k)
    case HOLD => Level(fast, slow, k)
  }

  /** Two equal signals are never on consecutive bars: just before the second the fast line has left its side. */
  lemma SignalsAreSeparated(fast: Series, slow: Series, i: nat, j: nat)
    requires i < j && CrossAt(fast, slow, i) == CrossAt(fast, slow, j) != HOLD
    ensures i + 1 < j && !OnSide(CrossAt(fast, slow, i), fast, slow, j - 1)
  {
    CrossIsAnEdge(fast, slow, i);
    CrossIsAnEdge(fast, slow, j);
  }

  lemma FirstFall(fast: Series, slow: Series, i: nat, j: nat) returns (k: nat)
    requires i < j && DefinedOn(fast, slow, i, j) && Above(fast, slow, i) && Below(fast, slow, j)
    requires forall m: nat | i <= m <= j :: !Level(fast, slow, m)
    ensures i < k <= j && CrossAt(fast, slow, k) == SELL
  {
    k := i + 1;
    while !Below(fast, slow, k)
      invariant i < k <= j && Above(fast, slow, k - 1)
      decreases j - k
    {
      assert fast.At(k).Some? && !Level(fast, slow, k);
      k := k + 1;
    }
    CrossIsAnEdge(fast, slow, k);
  }

  lemma FirstRise(fast: Series, slow: Series, i: nat, j: nat) returns (k: nat)
    requires i < j && DefinedOn(fast, slow, i, j) && Below(fast, slow, i) && Above(fast, slow, j)
    requires forall m: nat | i <= m <= j :: !Level(fast, slow, m)
    ensures i < k <= j && CrossAt(fast, slow, k) == BUY
  {
    k := i + 1;
    while !Above(fast, slow, k)
      invariant i < k <= j && Below(fast, slow, k - 1)
      decreases j - k
    {
      assert fast.At(k).Some? && !Level(fast, slow, k);
      k := k + 1;
    }
    CrossIsAnEdge(fast, slow, k);
  }

  /** Without ties the signals alternate: between two BUYs there is a SELL, and between two SELLs a BUY. */
  lemma SignalsAlternate(fast: Series, slow: Series, i: nat, j: nat)
    requires i < j && CrossAt(fast, slow, i) == CrossAt(fast, slow, j) != HOLD
    requires DefinedOn(fast, slow, i, j) && forall m: nat | i <= m <= j :: !Level(fast, slow, m)
    ensures exists k: nat :: i < k < j && CrossAt(fast, slow, k) != HOLD
                             && CrossAt(fast, slow, k) != CrossAt(fast, slow, i)
  {
    CrossIsAnEdge(fast, slow, i);
    CrossIsAnEdge(fast, slow, j);
    if CrossAt(fast, slow, i) == BUY {
      var k := FirstFall(fast, slow, i, j - 1);
      assert CrossAt(fast, slow, k) == SELL;
    } else {
      var k := FirstRise(fast, slow, i, j - 1);
      assert CrossAt(fast, slow, k) == BUY;
    }
  }

  /** The signal of the window that ends at bar `i`, as a backtest asks for it. */
  function CrossoverWindow(xs: seq<real>, fast: Period, slow: Period, i: nat): Outcome
    requires fast < slow && i < |xs|
  {
    CrossoverSignal(xs[..i + 1], fast, slow)
  }

  function MacdWindow(xs: seq<real>, fast: Period, slow: Period, signal: Period, i: nat): Outcome
    requires fast < slow && i < |xs|
  {
    MacdCrossSignal(xs[..i + 1], fast, slow, signal)
  }

  lemma DefinedAfterSignal(fast: Series, slow: Series, i: nat, j: nat, n: nat)
    requires CrossAt(fast, slow, i) != HOLD && i <= j < n == fast.Length() == slow.Length()
    ensures DefinedOn(fast, slow, i, j)
  {
  }

  /** Two equal signals of a pair of lines: never adjacent, somewhere between them the fast line is off their side, and
      where the lines never tie the opposite signal lies between. */
  lemma EqualSignalsAlternate(fast: Series, slow: Series, i: nat, j: nat) returns (k: nat)
    requires i < j < fast.Length() == slow.Length()
    requires CrossAt(fast, slow, i) == CrossAt(fast, slow, j) != HOLD
    ensures var kind := CrossAt(fast, slow, i);
      && i + 1 < j && (exists m: nat :: i < m < j && !OnSide(kind, fast, slow, m))
      && ((forall m: nat | i <= m <= j :: !Level(fast, slow, m)) ==>
            i < k < j && CrossAt(fast, slow, k) == Swapped(kind))
  {
    k := i;
    SignalsAreSeparated(fast, slow, i, j);
    DefinedAfterSignal(fast, slow, i, j, fast.Length());
    if forall m: nat | i <= m <= j :: !Level(fast, slow, m) {
      SignalsAlternate(fast, slow, i, j);
      k :| i < k < j && CrossAt(fast, slow, k) != HOLD && CrossAt(fast, slow, k) != CrossAt(fast, slow, i);
    }
  }

  /** What this means for a backtest, whose windows of one symbol grow bar by bar: BUY and SELL strictly alternate where
      the averages never tie, and in any case no signal is repeated before the fast average has left its side. */
  lemma CrossoverSignalsAlternate(xs: seq<real>, fast: Period, slow: Period, i: nat, j: nat, kind: SignalType)
    requires fast < slow && i < j < |xs| && kind != HOLD
    requires CrossoverWindow(xs, fast, slow, i) == CrossoverWindow(xs, fast, slow, j) == Emits(kind)
    ensures i + 1 < j && exists m: nat :: i < m < j && !OnSide(kind, Sma(xs, fast), Sma(xs, slow), m)
    ensures (forall m: nat | i <= m <= j :: !Level(Sma(xs, fast), Sma(xs, slow), m)) ==>
              exists k: nat :: i < k < j && CrossoverWindow(xs, fast, slow, k) == Emits(Swapped(kind))
  {
    CrossoverReadsTheWholeSeries(xs, fast, slow, i);
    CrossoverReadsTheWholeSeries(xs, fast, slow, j);
    SmaIsPrefixStable(xs, fast, 0);
    SmaIsPrefixStable(xs, slow, 0);
    hide Sma, CrossAt, OnSide, Level, Swapped;
    var k := EqualSignalsAlternate(Sma(xs, fast), Sma(xs, slow), i, j);
    if i < k < j {
      CrossoverReadsTheWholeSeries(xs, fast, slow, k);
      assert CrossAt(Sma(xs, fast), Sma(xs, slow), k) == Swapped(kind) ==>
          CrossoverWindow(xs, fast, slow, k) == Emits(Swapped(kind));
    }
  }

  /** The same for MACD, whose withheld bar never lies between two signals. */
  lemma MacdSignalsAlternate(xs: seq<real>, fast: Period, slow: Period, signal: Period, i: nat, j: nat,
                             kind: SignalType)
    requires fast < slow && i < j < |xs| && kind != HOLD
    requires MacdWindow(xs, fast, slow, signal, i) == MacdWindow(xs, fast, slow, signal, j) == Emits(kind)
    ensures var f, g := MacdLine(xs, fast, slow), MacdSignal(xs, fast, slow, signal);
      && i + 1 < j && (exists m: nat :: i < m < j && !OnSide(kind, f, g, m))
      && ((forall m: nat | i <= m <= j :: !Level(f, g, m)) ==>
            exists k: nat :: i < k < j && MacdWindow(xs, fast, slow, signal, k) == Emits(Swapped(kind)))
  {
    var f, g := MacdLine(xs, fast, slow), MacdSignal(xs, fast, slow, signal);
    MacdReadsTheWholeSeries(xs, fast, slow, signal, i);
    MacdReadsTheWholeSeries(xs, fast, slow, signal, j);
    MacdIsPrefixStable(xs, fast, slow, signal, 0);
    assert i >= slow + signal;
    hide MacdLine, MacdSignal, CrossAt, OnSide, Level, Swapped;
    var k := EqualSignalsAlternate(f, g, i, j);
    if i < k < j {
      MacdReadsTheWholeSeries(xs, fast, slow, signal, k);
      assert CrossAt(f, g, k) == Swapped(kind) ==> MacdWindow(xs, fast, slow, signal, k) == Emits(Swapped(kind));
    }
  }

  /** RSI signals are edges too: no BUY follows a BUY, no SELL a SELL, on the next bar. */
  lemma BouncesAreSeparated(rsi: Series, oversold: real, overbought: real, i: nat)
    requires oversold < overbought && BounceAt(rsi, oversold, overbought, i) != HOLD
    ensures BounceAt(rsi, oversold, overbought, i + 1) != BounceAt(rsi, oversold, overbought, i)
  {
  }

  function SwappedOutcome(o: Outcome): Outcome {
    match o
    case NoData => NoData
    case Emits(kind) => Emits(Swapped(kind))
  }

  lemma LineOrder(k: real, b: real, x: real, y: real)
    requires k != 0.0
    ensures Line(k, b, x) < Line(k, b, y) <==> if k > 0.0 then x < y else y < x
    ensures Line(k, b, x) == Line(k, b, y) <==> x == y
  {
    TimesAdds(k, y - x, x);
    var (lo, hi) := if k > 0.0 then (0.0, k) else (k, 0.0);
    if x < y {
      ProductStrict(lo, hi, y - x);
    } else if y < x {
      ProductStrict(lo, hi, x - y);
      assert Times(k, x - y) == -Times(k, y - x);
    }
  }

  lemma CrossIsSymmetric(fast: Series, slow: Series, i: nat, k: real, b: real)
    requires k != 0.0
    ensures CrossAt(AffineSeries(fast, k, b), AffineSeries(slow, k, b), i)
         == if k > 0.0 then CrossAt(fast, slow, i) else Swapped(CrossAt(fast, slow, i))
  {
    hide Line;
    if i > 0 && fast.At(i - 1).Some? && fast.At(i).Some? && slow.At(i - 1).Some? && slow.At(i).Some? {
      LineOrder(k, b, fast.At(i - 1).value, slow.At(i - 1).value);
      LineOrder(k, b, fast.At(i).value, slow.At(i).value);
      LineOrder(k, b, slow.At(i - 1).value, fast.At(i - 1).value);
      LineOrder(k, b, slow.At(i).value, fast.At(i).value);
    }
  }

  lemma AffineLength(xs: seq<real>, k: real, b: real)
    ensures |Affine(xs, k, b)| == |xs|
  {
  }

  /** Symmetry of the signals, for every price series: a positive change of unit, x to k * x + b, changes no signal; a
      negative one swaps BUY and SELL. */
  lemma CrossoverIsSymmetric(xs: seq<real>, fast: Period, slow: Period, k: real, b: real)
    requires fast < slow && k != 0.0
    ensures CrossoverSignal(Affine(xs, k, b), fast, slow)
         == if k > 0.0 then CrossoverSignal(xs, fast, slow) else SwappedOutcome(CrossoverSignal(xs, fast, slow))
  {
    hide Sma, CrossAt, AffineSeries, Affine;
    SmaIsAffine(xs, fast, k, b);
    SmaIsAffine(xs, slow, k, b);
    AffineLength(xs, k, b);
    if xs != [] {
      CrossIsSymmetric(Sma(xs, fast), Sma(xs, slow), |xs| - 1, k, b);
    }
  }

  lemma MacdIsSymmetric(xs: seq<real>, fast: Period, slow: Period, signal: Period, k: real, b: real)
    requires fast < slow && k != 0.0
    ensures MacdCrossSignal(Affine(xs, k, b), fast, slow, signal)
         == if k > 0.0 then MacdCrossSignal(xs, fast, slow, signal)
            else SwappedOutcome(MacdCrossSignal(xs, fast, slow, signal))
  {
    AffineLength(xs, k, b);
    hide MacdLine, MacdSignal, CrossAt, AffineSeries, Affine;
    if |xs| >= slow + signal + 1 {
      MacdIsScaled(xs, fast, slow, signal, k, b);
      CrossIsSymmetric(MacdLine(xs, fast, slow), MacdSignal(xs, fast, slow, signal), |xs| - 1, k, 0.0);
    }
  }

  /** For RSI the mirrored thresholds have to be the thresholds. */
  lemma RsiSignalIsSymmetric(xs: seq<real>, w: Period, oversold: real, overbought: real, k: real, b: real)
    requires 0.0 < oversold < overbought < 100.0 && k != 0.0
    requires k < 0.0 ==> oversold == 100.0 - overbought
    ensures RsiSignal(Affine(xs, k, b), w, oversold, overbought)
         == if k > 0.0 then RsiSignal(xs, w, oversold, overbought)
            else SwappedOutcome(RsiSignal(xs, w, oversold, overbought))
  {
    RsiIsSymmetric(xs, w, k, b);
    hide Rsi;
  }
}
