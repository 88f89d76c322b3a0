/** indicator/indicator.go: the relative strength index and the stochastic oscillator, over series without
    NaN. */
module Oscillator {
  import opened Model

  function Gain(closes: seq<real>, j: nat): real
    requires j < |closes|
  {
    if j >= 1 && closes[j] - closes[j - 1] > 0.0 then closes[j] - closes[j - 1] else 0.0
  }

  function Loss(closes: seq<real>, j: nat): real
    requires j < |closes|
  {
    if j >= 1 && !(closes[j] - closes[j - 1] > 0.0) then closes[j - 1] - closes[j] else 0.0
  }

  /** Gains over the steps lo..hi, and likewise losses. */
  function Gains(closes: seq<real>, lo: nat, hi: nat): real
    requires hi <= |closes|
    decreases hi
  {
    if hi <= lo then 0.0 else Gains(closes, lo, hi - 1) + Gain(closes, hi - 1)
  }

  function Losses(closes: seq<real>, lo: nat, hi: nat): real
    requires hi <= |closes|
    decreases hi
  {
    if hi <= lo then 0.0 else Losses(closes, lo, hi - 1) + Loss(closes, hi - 1)
  }

  function Strength(avgGain: real, avgLoss: real): real
    requires avgGain >= 0.0 && avgLoss > 0.0
  {
    100.0 - 100.0 / (1.0 + avgGain / avgLoss)
  }

  lemma {:induction false} NonNegative(closes: seq<real>, lo: nat, hi: nat)
    requires hi <= |closes|
    ensures Gains(closes, lo, hi) >= 0.0 && Losses(closes, lo, hi) >= 0.0
    decreases hi
  {
    if lo < hi {
      NonNegative(closes, lo, hi - 1);
    }
  }

  lemma ShareSign(a: real, n: real)
    requires a >= 0.0 && n > 0.0
    ensures Share(a, n) >= 0.0 && (Share(a, n) == 0.0 <==> a == 0.0)
  {
  }

  /** Entries below the period stay zero, as the array was made. */
  function RsiAt(closes: seq<real>, period: nat, i: nat): real
    requires period >= 1 && i < |closes|
  {
    if i < period then 0.0
    else
      var g, l := Gains(closes, i + 1 - period, i + 1), Losses(closes, i + 1 - period, i + 1);
      var n := period as real;
      if Share(l, n) == 0.0 then 100.0
      else
        NonNegative(closes, i + 1 - period, i + 1);
        ShareSign(g, n);
        ShareSign(l, n);
        Strength(Share(g, n), Share(l, n))
  }

  method CustomRSI(closes: seq<real>, period: nat) returns (rsi: array<real>)
    requires period >= 1
    ensures rsi.Length == |closes|
    ensures forall i: nat :: i < |closes| ==> rsi[i] == RsiAt(closes, period, i)
  {
    rsi := new real[|closes|](_ => 0.0);
    var gains := new real[|closes|](_ => 0.0);
    var losses := new real[|closes|](_ => 0.0);
    var i := 1;
    while i < |closes|
      invariant 1 <= i
      invariant forall j: nat :: j < i && j < |closes| ==> gains[j] == Gain(closes, j) && losses[j] == Loss(closes, j)
      invariant forall j: nat :: i <= j < |closes| ==> gains[j] == 0.0 && losses[j] == 0.0
      invariant forall j: nat :: j < |closes| ==> rsi[j] == 0.0
    {
      var change := closes[i] - closes[i - 1];
      if change > 0.0 {
        gains[i] := change;
      } else {
        losses[i] := -change;
      }
      i := i + 1;
    }
    i := period;
    while i < |closes|
      invariant period <= i
      invariant forall j: nat :: j < |closes| ==> gains[j] == Gain(closes, j) && losses[j] == Loss(closes, j)
      invariant forall j: nat :: j < |closes| ==> rsi[j] == if j < i then RsiAt(closes, period, j) else 0.0
    {
      var avgGain, avgLoss := 0.0, 0.0;
      for j := i - period + 1 to i + 1
        invariant avgGain == Gains(closes, i - period + 1, j) && avgLoss == Losses(closes, i - period + 1, j)
      {
        avgGain := avgGain + gains[j];
        avgLoss := avgLoss + losses[j];
      }
      NonNegative(closes, i + 1 - period, i + 1);
      ShareSign(avgGain, period as real);
      ShareSign(avgLoss, period as real);
      avgGain := Share(avgGain, period as real);
      avgLoss := Share(avgLoss, period as real);
      if avgLoss == 0.0 {
        rsi[i] := 100.0;
      } else {
        rsi[i] := Strength(avgGain, avgLoss);
      }
      i := i + 1;
    }
  }

  /** A step is a gain or a loss, never both, and of the size of the change of the close. */
  lemma StepIsGainOrLoss(closes: seq<real>, j: nat)
    requires 1 <= j < |closes|
    ensures closes[j] >= closes[j - 1] ==> Gain(closes, j) == closes[j] - closes[j - 1] && Loss(closes, j) == 0.0
    ensures closes[j] <= closes[j - 1] ==> Loss(closes, j) == closes[j - 1] - closes[j] && Gain(closes, j) == 0.0
  {
  }

  /** Gains minus losses telescope. */
  lemma {:induction false} GainsMinusLosses(closes: seq<real>, lo: nat, hi: nat)
    requires lo < hi < |closes|
    ensures Gains(closes, lo + 1, hi + 1) - Losses(closes, lo + 1, hi + 1) == closes[hi] - closes[lo]
    decreases hi
  {
    if lo + 1 < hi {
      GainsMinusLosses(closes, lo, hi - 1);
    } else {
      assert Gains(closes, lo + 1, hi) == 0.0 && Losses(closes, lo + 1, hi) == 0.0;
    }
  }

  lemma StrengthFormula(g: real, l: real, n: real)
    requires g >= 0.0 && l > 0.0 && n > 0.0
    ensures Share(g, n) >= 0.0 && Share(l, n) > 0.0
    ensures Strength(Share(g, n), Share(l, n)) == 100.0 * g / (g + l)
  {
  }

  /** Before the first full window of changes the index reads zero. */
  lemma RsiBelowPeriod(closes: seq<real>, period: nat, i: nat)
    requires 1 <= period && i < |closes| && i < period
    ensures RsiAt(closes, period, i) == 0.0
  {
  }

  /** With losses in the window the index is 100 G / (G + L). */
  lemma RsiFormula(closes: seq<real>, period: nat, i: nat)
    requires 1 <= period <= i < |closes|
    ensures var g, l := Gains(closes, i + 1 - period, i + 1), Losses(closes, i + 1 - period, i + 1);
      && g >= 0.0 && l >= 0.0
      && RsiAt(closes, period, i) == if l == 0.0 then 100.0 else 100.0 * g / (g + l)
  {
    var g, l, n := Gains(closes, i + 1 - period, i + 1), Losses(closes, i + 1 - period, i + 1), period as real;
    NonNegative(closes, i + 1 - period, i + 1);
    ShareSign(l, n);
    if l > 0.0 {
      StrengthFormula(g, l, n);
    }
  }

  lemma SignOfQuotient(p: real, d: real, x: real)
    requires d > 0.0 && p * d == x
    ensures p > 0.0 <==> x > 0.0
    ensures p >= 0.0 <==> x >= 0.0
  {
  }

  lemma ShareOfWhole(g: real, l: real)
    requires g >= 0.0 && l > 0.0
    ensures 0.0 <= 100.0 * g / (g + l) <= 100.0
    ensures 100.0 * g / (g + l) > 50.0 <==> g > l
  {
    var p, d := 100.0 * g / (g + l), g + l;
    assert p * d == 100.0 * g;
    SignOfQuotient(p, d, 100.0 * g);
    assert (p - 50.0) * d == p * d - 50.0 * d;
    SignOfQuotient(p - 50.0, d, 50.0 * (g - l));
    assert (100.0 - p) * d == 100.0 * d - p * d;
    SignOfQuotient(100.0 - p, d, 100.0 * l);
  }

  /** The index is a percentage, and above 50 exactly when the close rose over the period or nothing in
      the window ever fell: a flat window reads 100. */
  lemma RsiAbove50(closes: seq<real>, period: nat, i: nat)
    requires 1 <= period <= i < |closes|
    ensures 0.0 <= RsiAt(closes, period, i) <= 100.0
    ensures RsiAt(closes, period, i) > 50.0 <==>
      closes[i] > closes[i - period] || Losses(closes, i + 1 - period, i + 1) == 0.0
  {
    var g, l := Gains(closes, i + 1 - period, i + 1), Losses(closes, i + 1 - period, i + 1);
    RsiFormula(closes, period, i);
    GainsMinusLosses(closes, i - period, i);
    if l > 0.0 {
      ShareOfWhole(g, l);
    }
  }

  /** No losses means that no step of the window goes down. */
  lemma {:induction false} NoLossesIffNeverDown(closes: seq<real>, lo: nat, hi: nat)
    requires 1 <= lo <= hi <= |closes|
    ensures Losses(closes, lo, hi) == 0.0 <==> forall j :: lo <= j < hi ==> closes[j - 1] <= closes[j]
    decreases hi
  {
    if lo < hi {
      NoLossesIffNeverDown(closes, lo, hi - 1);
      NonNegative(closes, lo, hi - 1);
      assert Losses(closes, lo, hi) == Losses(closes, lo, hi - 1) + Loss(closes, hi - 1);
    }
  }

  // --- Stochastic oscillator -----------------------------------------------------------------------

  function Lowest(bars: seq<Candle>, lo: nat, hi: nat): real
    requires lo < hi <= |bars|
    decreases hi
  {
    if hi == lo + 1 || bars[hi - 1].low < Lowest(bars, lo, hi - 1) then bars[hi - 1].low else Lowest(bars, lo, hi - 1)
  }

  function Highest(bars: seq<Candle>, lo: nat, hi: nat): real
    requires lo < hi <= |bars|
    decreases hi
  {
    if hi == lo + 1 || bars[hi - 1].high > Highest(bars, lo, hi - 1) then bars[hi - 1].high else Highest(bars, lo, hi - 1)
  }

  lemma {:induction false} Extremes(bars: seq<Candle>, lo: nat, hi: nat)
    requires lo < hi <= |bars|
    ensures forall j :: lo <= j < hi ==> Lowest(bars, lo, hi) <= bars[j].low && bars[j].high <= Highest(bars, lo, hi)
    ensures exists j :: lo <= j < hi && bars[j].low == Lowest(bars, lo, hi)
    ensures exists j :: lo <= j < hi && bars[j].high == Highest(bars, lo, hi)
    decreases hi
  {
    if lo + 1 < hi {
      Extremes(bars, lo, hi - 1);
    } else {
      assert bars[lo].low == Lowest(bars, lo, hi) && bars[lo].high == Highest(bars, lo, hi);
    }
  }

  /** %K: where the close stands in the range of the window; 50 in a flat one. */
  function PercentK(bars: seq<Candle>, period: nat, i: nat): real
    requires period >= 1 && i < |bars|
  {
    if i + 1 < period then 0.0
    else
      var low, high := Lowest(bars, i + 1 - period, i + 1), Highest(bars, i + 1 - period, i + 1);
      if high != low then (bars[i].close - low) / (high - low) * 100.0 else 50.0
  }

  /** %D: the mean of three %K, zero for the first two. */
  function PercentD(bars: seq<Candle>, period: nat, i: nat): real
    requires period >= 1 && i < |bars|
  {
    if i < 2 then 0.0
    else (PercentK(bars, period, i) + PercentK(bars, period, i - 1) + PercentK(bars, period, i - 2)) / 3.0
  }

  method CustomStochasticOscillator(bars: seq<Candle>, period: nat) returns (stochK: array<real>, stochD: array<real>)
    requires period >= 1
    ensures stochK.Length == stochD.Length == |bars|
    ensures forall i: nat :: i < |bars| ==> stochK[i] == PercentK(bars, period, i) && stochD[i] == PercentD(bars, period, i)
  {
    stochK := new real[|bars|](_ => 0.0);
    stochD := new real[|bars|](_ => 0.0);
    var i := period - 1;
    while i < |bars|
      invariant period - 1 <= i
      invariant forall j: nat :: j < |bars| ==> stochK[j] == if j < i then PercentK(bars, period, j) else 0.0
      invariant forall j: nat :: j < |bars| ==> stochD[j] == 0.0
    {
      var lowestLow, highestHigh := bars[i].low, bars[i].high;
      for j := i - period + 1 to i + 1
        invariant var lo := i - period + 1;
          (lowestLow == if j > lo && Lowest(bars, lo, j) < bars[i].low then Lowest(bars, lo, j) else bars[i].low)
          && (highestHigh == if j > lo && Highest(bars, lo, j) > bars[i].high then Highest(bars, lo, j) else bars[i].high)
      {
        if bars[j].low < lowestLow {
          lowestLow := bars[j].low;
        }
        if bars[j].high > highestHigh {
          highestHigh := bars[j].high;
        }
      }
      Extremes(bars, i - period + 1, i + 1);
      if highestHigh != lowestLow {
        stochK[i] := (bars[i].close - lowestLow) / (highestHigh - lowestLow) * 100.0;
      } else {
        stochK[i] := 50.0;
      }
      i := i + 1;
    }
    var n := 2;
    while n < |bars|
      invariant 2 <= n
      invariant forall j: nat :: j < |bars| ==> stochK[j] == PercentK(bars, period, j)
      invariant forall j: nat :: j < |bars| ==> stochD[j] == if j < n then PercentD(bars, period, j) else 0.0
    {
      stochD[n] := (stochK[n] + stochK[n - 1] + stochK[n - 2]) / 3.0;
      n := n + 1;
    }
  }

  lemma ScaledBack(x: real, range: real)
    requires range != 0.0
    ensures x / range * 100.0 * range == x * 100.0
  {
    assert x / range * range == x;
  }

  /** The place of a value in a range, in percent of it; the middle where there is no range. */
  predicate Places(k: real, x: real, low: real, high: real) {
    if high == low then k == 50.0 else k * (high - low) == (x - low) * 100.0
  }

  /** %K is the close's distance from the lowest low of the window in percent of the range, 50 where there is
      no range, and zero before the window is full; %D is the mean of three of them. */
  lemma PercentKProportion(bars: seq<Candle>, period: nat, i: nat)
    requires period >= 1 && i < |bars|
    ensures i + 1 < period ==> PercentK(bars, period, i) == 0.0
    ensures i + 1 >= period ==>
      Places(PercentK(bars, period, i), bars[i].close,
             Lowest(bars, i + 1 - period, i + 1), Highest(bars, i + 1 - period, i + 1))
    ensures i >= 2 ==>
      3.0 * PercentD(bars, period, i) == PercentK(bars, period, i) + PercentK(bars, period, i - 1) + PercentK(bars, period, i - 2)
    ensures i < 2 ==> PercentD(bars, period, i) == 0.0
  {
    if i + 1 >= period {
      var low, high := Lowest(bars, i + 1 - period, i + 1), Highest(bars, i + 1 - period, i + 1);
      if high != low {
        ScaledBack(bars[i].close - low, high - low);
      }
    }
  }

  /** Bars whose close lies between low and high. */
  predicate Proper(bars: seq<Candle>) {
    forall i :: 0 <= i < |bars| ==> bars[i].low <= bars[i].close <= bars[i].high
  }

  lemma Position(x: real, low: real, high: real)
    requires low < high && low <= x <= high
    ensures var p := (x - low) / (high - low) * 100.0;
      0.0 <= p <= 100.0 && (p == 0.0 <==> x == low) && (p == 100.0 <==> x == high)
  {
    var q, d := (x - low) / (high - low), high - low;
    assert q * d == x - low;
    SignOfQuotient(q, d, x - low);
    assert (1.0 - q) * d == d - q * d;
    SignOfQuotient(1.0 - q, d, high - x);
  }

  /** %K is a percentage, 100 or 0 exactly when the close is the extreme of a window that is not flat. */
  lemma PercentKRange(bars: seq<Candle>, period: nat, i: nat)
    requires Proper(bars) && period >= 1 && i < |bars|
    ensures 0.0 <= PercentK(bars, period, i) <= 100.0
    ensures i + 1 >= period ==>
      var low, high := Lowest(bars, i + 1 - period, i + 1), Highest(bars, i + 1 - period, i + 1);
      && (PercentK(bars, period, i) == 100.0 <==> low < high && bars[i].close == high)
      && (PercentK(bars, period, i) == 0.0 <==> low < high && bars[i].close == low)
  {
    if i + 1 >= period {
      Extremes(bars, i + 1 - period, i + 1);
      var low, high := Lowest(bars, i + 1 - period, i + 1), Highest(bars, i + 1 - period, i + 1);
      if low < high {
        Position(bars[i].close, low, high);
      }
    }
  }
}
