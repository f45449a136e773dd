/** Analytics of an equity curve: drawdown by running maximum, and returns that compound to the total. */
module Metrics {
  import opened Arithmetic

  /** A curve that starts with money; it may fall to nothing or below later. */
  predicate Funded(curve: seq<real>) {
    curve != [] ==> curve[0] > 0.0
  }

  function Max(x: real, y: real): real {
    if x >= y then x else y
  }

  /** The running maximum at the last point. */
  function RunningMax(curve: seq<real>): real
    requires curve != []
  {
    var last := curve[|curve| - 1];
    if |curve| == 1 then last else Max(RunningMax(curve[..|curve| - 1]), last)
  }

  function Change(from: real, to: real): real
    requires from != 0.0
  {
    to / from - 1.0
  }

  /** The peak up to a point. */
  function Peak(curve: seq<real>, j: nat): real
    requires j < |curve|
  {
    RunningMax(curve[..j + 1])
  }

  /** No peak is zero, so that every decline is a number. */
  ghost predicate Measurable(curve: seq<real>) {
    forall j | 0 <= j < |curve| :: Peak(curve, j) != 0.0
  }

  lemma PeakOfInit(curve: seq<real>, j: nat)
    requires j < |curve| - 1
    ensures Peak(curve[..|curve| - 1], j) == Peak(curve, j)
  {
    hide RunningMax;
    assert curve[..|curve| - 1][..j + 1] == curve[..j + 1];
  }

  lemma LastPeak(curve: seq<real>)
    requires curve != []
    ensures Peak(curve, |curve| - 1) == RunningMax(curve)
  {
    hide RunningMax;
    assert curve[..|curve|] == curve;
  }

  lemma PeaksOfInit(curve: seq<real>)
    requires curve != []
    ensures Peak(curve, |curve| - 1) == RunningMax(curve)
    ensures forall j | 0 <= j < |curve| - 1 :: Peak(curve[..|curve| - 1], j) == Peak(curve, j)
    ensures Measurable(curve) <==> Measurable(curve[..|curve| - 1]) && RunningMax(curve) != 0.0
  {
    hide RunningMax, Peak;
    var init, n := curve[..|curve| - 1], |curve| - 1;
    LastPeak(curve);
    forall j | 0 <= j < n ensures Peak(init, j) == Peak(curve, j) {
      PeakOfInit(curve, j);
    }
  }

  /** The largest decline from a running maximum; 0 for an empty curve. */
  function MaxDrawdown(curve: seq<real>): real
    requires Measurable(curve)
  {
    if curve == [] then 0.0
    else
      PeaksOfInit(curve);
      var here := Change(RunningMax(curve), curve[|curve| - 1]);
      if |curve| == 1 then here else Min(MaxDrawdown(curve[..|curve| - 1]), here)
  }

  lemma {:induction false} RunningMaxBounds(curve: seq<real>)
    requires curve != []
    ensures forall i | 0 <= i < |curve| :: curve[i] <= RunningMax(curve)
    ensures exists i :: 0 <= i < |curve| && curve[i] == RunningMax(curve)
    ensures Funded(curve) ==> RunningMax(curve) > 0.0
  {
    if |curve| > 1 {
      var init := curve[..|curve| - 1];
      RunningMaxBounds(init);
      assert forall i | 0 <= i < |init| :: curve[i] == init[i];
      var k :| 0 <= k < |init| && init[k] == RunningMax(init);
      assert curve[k] == RunningMax(init);
    } else {
      assert curve[0] == RunningMax(curve);
    }
  }

  /** A curve that starts with money can be measured. */
  lemma {:induction false} FundedIsMeasurable(curve: seq<real>)
    requires Funded(curve)
    ensures Measurable(curve)
  {
    forall j | 0 <= j < |curve| ensures Peak(curve, j) != 0.0 {
      RunningMaxBounds(curve[..j + 1]);
    }
  }

  lemma ChangeFalls(low: real, high: real, to: real)
    requires 0.0 < low <= high
    ensures to >= 0.0 ==> Change(high, to) <= Change(low, to)
    ensures Change(high, to) > -1.0 <==> to > 0.0
    ensures Change(high, to) >= -1.0 <==> to >= 0.0
    ensures to <= high ==> Change(high, to) <= 0.0
  {
    var x, y := to / high, to / low;
    QuotientTimes(to, high);
    QuotientTimes(to, low);
    if to >= 0.0 && x > y {
      ProductStrict(y, x, high);
      if y < 0.0 {
        ProductStrict(y, 0.0, low);
      }
      ProductMonotone(low, high, y);
    }
    if x <= 0.0 {
      ProductMonotone(x, 0.0, high);
    } else {
      ProductStrict(0.0, x, high);
    }
    if x < 0.0 {
      ProductStrict(x, 0.0, high);
    }
    if to <= high && x > 1.0 {
      ProductStrict(1.0, x, high);
    }
  }

  ghost predicate NonNegativeCurve(curve: seq<real>) {
    forall i | 0 <= i < |curve| :: curve[i] >= 0.0
  }

  ghost predicate Positive(curve: seq<real>) {
    forall i | 0 <= i < |curve| :: curve[i] > 0.0
  }

  /** What the formula contributes at the last point: the change from the peak. It is the worst change to that point
      from any point with money, and a change from one of them. */
  lemma DeclineHere(curve: seq<real>) returns (k: nat)
    requires Funded(curve) && curve != []
    ensures var last, peak := curve[|curve| - 1], RunningMax(curve);
      && peak > 0.0 && Change(peak, last) <= 0.0
      && (Change(peak, last) > -1.0 <==> last > 0.0) && (Change(peak, last) >= -1.0 <==> last >= 0.0)
      && (last >= 0.0 ==> forall i | 0 <= i < |curve| && curve[i] > 0.0 :: Change(peak, last) <= Change(curve[i], last))
      && k < |curve| && curve[k] == peak
  {
    var last := curve[|curve| - 1];
    RunningMaxBounds(curve);
    hide Change, RunningMax;
    ChangeFalls(RunningMax(curve), RunningMax(curve), last);
    forall i | 0 <= i < |curve| && curve[i] > 0.0 && last >= 0.0
      ensures Change(RunningMax(curve), last) <= Change(curve[i], last) {
      ChangeFalls(curve[i], RunningMax(curve), last);
    }
    k :| 0 <= k < |curve| && curve[k] == RunningMax(curve);
  }

  /** The largest decline from a peak, for every curve whose peaks are not zero: no point has declined further from the
      peak before it, some point has declined that far, and it is never a rise. */
  lemma {:induction false} MaxDrawdownIsTheWorstDecline(curve: seq<real>)
    requires Measurable(curve) && curve != []
    ensures forall j | 0 <= j < |curve| :: MaxDrawdown(curve) <= curve[j] / Peak(curve, j) - 1.0
    ensures exists j :: 0 <= j < |curve| && MaxDrawdown(curve) == curve[j] / Peak(curve, j) - 1.0
    ensures MaxDrawdown(curve) <= 0.0
  {
    PeaksOfInit(curve);
    var n := |curve| - 1;
    if n == 0 {
      assert RunningMax(curve) == curve[0];
      QuotientIs(curve[0], curve[0], 1.0);
    } else {
      hide Change, Peak, RunningMax, Measurable;
      var init := curve[..n];
      MaxDrawdownIsTheWorstDecline(init);
      var q :| 0 <= q < |init| && MaxDrawdown(init) == Change(Peak(init, q), init[q]);
      assert MaxDrawdown(init) == Change(Peak(curve, q), curve[q]);
      forall j | 0 <= j < |curve| ensures MaxDrawdown(curve) <= Change(Peak(curve, j), curve[j]) {
        if j < n {
          assert MaxDrawdown(init) <= Change(Peak(init, j), init[j]);
        }
      }
    }
  }

  lemma DrawdownSnoc(curve: seq<real>)
    requires Funded(curve) && |curve| > 1
    ensures var init, n := curve[..|curve| - 1], |curve| - 1;
      && Funded(init) && Measurable(curve) && Measurable(init) && RunningMax(curve) > 0.0
      && MaxDrawdown(curve) == Min(MaxDrawdown(init), Change(RunningMax(curve), curve[n]))
      && (NonNegativeCurve(curve) <==> NonNegativeCurve(init) && curve[n] >= 0.0)
      && (Positive(curve) <==> Positive(init) && curve[n] > 0.0)
  {
    RunningMaxBounds(curve);
    FundedIsMeasurable(curve);
    PeaksOfInit(curve);
    hide Change, RunningMax, Measurable;
    assert curve == curve[..|curve| - 1] + [curve[|curve| - 1]];
  }

  lemma {:induction false} WorstPair(curve: seq<real>)
    requires Funded(curve) && curve != [] && NonNegativeCurve(curve)
    ensures Measurable(curve)
    ensures forall i, j | 0 <= i <= j < |curve| && curve[i] > 0.0 :: MaxDrawdown(curve) <= Change(curve[i], curve[j])
    ensures exists i, j :: 0 <= i <= j < |curve| && curve[i] > 0.0 && MaxDrawdown(curve) == Change(curve[i], curve[j])
    ensures -1.0 <= MaxDrawdown(curve) <= 0.0
    ensures MaxDrawdown(curve) > -1.0 <==> Positive(curve)
  {
    hide Change, RunningMax, Measurable;
    FundedIsMeasurable(curve);
    var n := |curve| - 1;
    var k := DeclineHere(curve);
    var here := Change(RunningMax(curve), curve[n]);
    assert here == Change(curve[k], curve[n]) && curve[k] > 0.0;
    if n > 0 {
      hide MaxDrawdown, Positive, NonNegativeCurve;
      var init := curve[..n];
      DrawdownSnoc(curve);
      WorstPair(init);
      var p, q :| 0 <= p <= q < |init| && init[p] > 0.0 && MaxDrawdown(init) == Change(init[p], init[q]);
      assert curve[p] > 0.0 && MaxDrawdown(init) == Change(curve[p], curve[q]);
      forall i, j | 0 <= i <= j < |curve| && curve[i] > 0.0
        ensures MaxDrawdown(curve) <= Change(curve[i], curve[j]) {
        if j < n {
          assert MaxDrawdown(init) <= Change(init[i], init[j]);
        } else {
          assert here <= Change(curve[i], curve[n]);
        }
      }
    } else {
      assert here == MaxDrawdown(curve);
    }
  }

  /** Where equity never falls below zero this is the worst pair: a lower bound of the change between any two points in
      order, attained by some pair; it stays at or above -1, and above it exactly where equity never reaches zero. */
  lemma MaxDrawdownIsTheWorstPair(curve: seq<real>)
    requires Funded(curve) && curve != [] && NonNegativeCurve(curve)
    ensures Measurable(curve)
    ensures forall i, j | 0 <= i <= j < |curve| && curve[i] > 0.0 :: MaxDrawdown(curve) <= curve[j] / curve[i] - 1.0
    ensures exists i, j :: && 0 <= i <= j < |curve| && curve[i] > 0.0
                           && MaxDrawdown(curve) == curve[j] / curve[i] - 1.0
    ensures -1.0 <= MaxDrawdown(curve) <= 0.0
    ensures MaxDrawdown(curve) > -1.0 <==> forall i | 0 <= i < |curve| :: curve[i] > 0.0
  {
    WorstPair(curve);
    hide MaxDrawdown, Measurable;
  }

  /** Below zero it is not: the fall from 1 to -1 is worse than the one from the peak of 2. */
  lemma DebtIsNotTheWorstPair()
    ensures var curve := [2.0, 1.0, -1.0];
      && Funded(curve) && Measurable(curve)
      && MaxDrawdown(curve) == curve[2] / curve[0] - 1.0 > curve[2] / curve[1] - 1.0
  {
    var curve := [2.0, 1.0, -1.0];
    var two := curve[..2];
    FundedIsMeasurable(curve);
    FundedIsMeasurable(two);
    FundedIsMeasurable(two[..1]);
    assert two == [2.0, 1.0] && two[..1] == [2.0];
    assert RunningMax(two[..1]) == 2.0 && RunningMax(two) == 2.0 && RunningMax(curve) == 2.0;
    assert MaxDrawdown(two[..1]) == 0.0 && MaxDrawdown(two) == -0.5;
  }

  function Scaled(curve: seq<real>, k: real): seq<real> {
    seq(|curve|, i requires 0 <= i < |curve| => Times(k, curve[i]))
  }

  lemma ScaledChange(from: real, to: real, k: real)
    requires from != 0.0 && k > 0.0
    ensures Times(k, from) != 0.0
    ensures Change(Times(k, from), Times(k, to)) == Change(from, to)
  {
    if from > 0.0 {
      ProductStrict(0.0, from, k);
    } else {
      ProductStrict(from, 0.0, k);
    }
    var x := to / from;
    QuotientTimes(to, from);
    assert k * (x * from) == x * (k * from);
    QuotientIs(Times(k, to), Times(k, from), x);
  }

  lemma {:induction false} ScaledRunningMax(curve: seq<real>, k: real)
    requires curve != [] && k > 0.0
    ensures RunningMax(Scaled(curve, k)) == Times(k, RunningMax(curve))
  {
    if |curve| > 1 {
      var init, last := curve[..|curve| - 1], curve[|curve| - 1];
      ScaledRunningMax(init, k);
      assert Scaled(curve, k)[..|curve| - 1] == Scaled(init, k);
      ProductMonotone(Min(RunningMax(init), last), Max(RunningMax(init), last), k);
    }
  }

  /** Drawdown does not depend on the size of the account. */
  lemma {:induction false} MaxDrawdownIgnoresScale(curve: seq<real>, k: real)
    requires Measurable(curve) && k > 0.0
    ensures Measurable(Scaled(curve, k)) && MaxDrawdown(Scaled(curve, k)) == MaxDrawdown(curve)
  {
    if curve != [] {
      var init, last := curve[..|curve| - 1], curve[|curve| - 1];
      PeaksOfInit(curve);
      PeaksOfInit(Scaled(curve, k));
      ScaledRunningMax(curve, k);
      ScaledChange(RunningMax(curve), last, k);
      assert Scaled(curve, k)[..|curve| - 1] == Scaled(init, k);
      hide Change, RunningMax, Times, Measurable;
      MaxDrawdownIgnoresScale(init, k);
    }
  }

  /** No point but the last is zero, so that every return is a number. */
  ghost predicate Divisible(curve: seq<real>) {
    forall i | 0 <= i < |curve| - 1 :: curve[i] != 0.0
  }

  function DailyReturns(curve: seq<real>): seq<real>
    requires Divisible(curve)
  {
    if |curve| < 2 then []
    else DailyReturns(curve[..|curve| - 1]) + [Change(curve[|curve| - 2], curve[|curve| - 1])]
  }

  /** Each return is the step from its point to the next. */
  lemma {:induction false} ReturnsAreSteps(curve: seq<real>)
    requires Divisible(curve)
    ensures |DailyReturns(curve)| == if curve == [] then 0 else |curve| - 1
    ensures forall i | 0 <= i < |DailyReturns(curve)| :: Times(curve[i], 1.0 + DailyReturns(curve)[i]) == curve[i + 1]
  {
    if |curve| > 1 {
      var init, mid, last := curve[..|curve| - 1], curve[|curve| - 2], curve[|curve| - 1];
      ReturnsAreSteps(init);
      QuotientTimes(last, mid);
      assert Times(mid, 1.0 + Change(mid, last)) == last;
      hide Change, Times;
    }
  }

  function TotalReturn(curve: seq<real>): real {
    if |curve| < 2 || curve[0] == 0.0 then 0.0 else Change(curve[0], curve[|curve| - 1])
  }

  /** The growth of one unit through a sequence of returns. */
  function Compound(rs: seq<real>): real {
    if rs == [] then 1.0 else Times(Compound(rs[..|rs| - 1]), 1.0 + rs[|rs| - 1])
  }

  lemma OneMoreReturn(first: real, mid: real, last: real)
    requires first != 0.0 && mid != 0.0
    ensures Times(mid / first, 1.0 + Change(mid, last)) == last / first
  {
    QuotientTimes(mid, first);
    QuotientTimes(last, mid);
    var x, y := mid / first, last / mid;
    assert y * (x * first) == (x * y) * first;
    QuotientIs(last, first, Times(x, y));
  }

  /** The total return is what the period returns compound to, wherever these are numbers. */
  lemma {:induction false} ReturnsCompound(curve: seq<real>)
    requires Divisible(curve)
    ensures TotalReturn(curve) == Compound(DailyReturns(curve)) - 1.0
  {
    if |curve| > 1 {
      var init, first, mid := curve[..|curve| - 1], curve[0], curve[|curve| - 2];
      ReturnsCompound(init);
      assert DailyReturns(curve)[..|DailyReturns(curve)| - 1] == DailyReturns(init);
      QuotientIs(first, first, 1.0);
      OneMoreReturn(first, mid, curve[|curve| - 1]);
      assert |init| == 1 ==> Compound(DailyReturns(init)) == mid / first;
      hide Times;
    }
  }

  /** The total return takes the first point to the last; it is given as zero where the first is zero. */
  lemma TotalReturnIsGrowth(curve: seq<real>)
    requires curve != []
    ensures curve[0] != 0.0 ==> Times(curve[0], 1.0 + TotalReturn(curve)) == curve[|curve| - 1]
    ensures curve[0] == 0.0 ==> TotalReturn(curve) == 0.0
  {
    if curve[0] != 0.0 {
      QuotientTimes(curve[|curve| - 1], curve[0]);
    }
  }
}
