/** indicator/indicator.go: exponential moving averages and MACD. Closes and intermediate series may
    hold NaN; arithmetic is exact. */
module MovingAverage {
  import opened Model

  function Smoothing(window: nat): real
    requires window >= 1
  {
    2.0 / (window as real + 1.0)
  }

  lemma SmoothingRange(window: nat)
    requires window >= 1
    ensures 0.0 < Smoothing(window) <= 1.0
  {
  }

  /** One step of the recurrence. */
  function Blend(x: real, previous: real, k: real): real {
    (x - previous) * k + previous
  }

  function Add(a: Num, b: Num): Num {
    if a.Val? && b.Val? then Val(a.v + b.v) else NaN
  }

  function Over(a: Num, n: real): Num
    requires n > 0.0
  {
    if a.Val? then Val(a.v / n) else NaN
  }

  function Sum(xs: seq<Num>): Num {
    if xs == [] then Val(0.0) else Add(Sum(xs[..|xs| - 1]), xs[|xs| - 1])
  }

  function ValidSum(xs: seq<Num>): real {
    if xs == [] then 0.0
    else ValidSum(xs[..|xs| - 1]) + if xs[|xs| - 1].Val? then xs[|xs| - 1].v else 0.0
  }

  function ValidCount(xs: seq<Num>): nat {
    if xs == [] then 0 else ValidCount(xs[..|xs| - 1]) + if xs[|xs| - 1].Val? then 1 else 0
  }

  /** The two seeds: CustomEMA takes the plain mean, NaN if any close is; CustomEMAFromSlice the mean of
      what is valid, and zero when nothing is. */
  datatype Seeding = PlainMean | ValidMean

  function Seed(xs: seq<Num>, seeding: Seeding): Num
    requires xs != []
  {
    match seeding
    case PlainMean => Over(Sum(xs), |xs| as real)
    case ValidMean => if ValidCount(xs) > 0 then Val(ValidSum(xs) / ValidCount(xs) as real) else Val(0.0)
  }

  /** The running average after element i >= window - 1. NaN elements leave it alone. */
  function Running(xs: seq<Num>, window: nat, seeding: Seeding, i: nat): Num
    requires 1 <= window <= i + 1 <= |xs|
  {
    if i == window - 1 then Seed(xs[..window], seeding)
    else
      var previous := Running(xs, window, seeding, i - 1);
      if xs[i].Val? && previous.Val? then Val(Blend(xs[i].v, previous.v, Smoothing(window))) else previous
  }

  /** What is emitted at i. */
  function Emitted(xs: seq<Num>, window: nat, seeding: Seeding, i: nat): Num
    requires window >= 1 && i < |xs|
  {
    if i < window - 1 then NaN
    else if i == window - 1 then
      if seeding == ValidMean && ValidCount(xs[..window]) == 0 then NaN else Running(xs, window, seeding, i)
    else if xs[i].Val? then Running(xs, window, seeding, i)
    else NaN
  }

  method CustomEMA(data: seq<Num>, window: nat) returns (ema: array<Num>)
    requires window >= 1
    ensures fresh(ema) && ema.Length == |data|
    ensures forall i: nat :: i < |data| ==> ema[i] == Emitted(data, window, PlainMean, i)
  {
    ema := new Num[|data|];
    var k := Smoothing(window);
    var previousEMA := Val(0.0);
    for i := 0 to |data|
      invariant forall j: nat :: j < i ==> ema[j] == Emitted(data, window, PlainMean, j)
      invariant i >= window ==> previousEMA == Running(data, window, PlainMean, i - 1)
    {
      if i == window - 1 {
        var sum := Val(0.0);
        for j := 0 to window
          invariant sum == Sum(data[..j])
        {
          assert data[..j + 1][..j] == data[..j];
          sum := Add(sum, data[j]);
        }
        previousEMA := Over(sum, window as real);
        ema[i] := previousEMA;
      } else if i >= window {
        if data[i].Val? && previousEMA.Val? {
          previousEMA := Val(Blend(data[i].v, previousEMA.v, k));
          ema[i] := previousEMA;
        } else {
          ema[i] := NaN;
        }
      } else {
        ema[i] := NaN;
      }
    }
  }

  method CustomEMAFromSlice(data: seq<Num>, window: nat) returns (ema: array<Num>)
    requires window >= 1
    ensures fresh(ema) && ema.Length == |data|
    ensures forall i: nat :: i < |data| ==> ema[i] == Emitted(data, window, ValidMean, i)
  {
    ema := new Num[|data|];
    var k := Smoothing(window);
    var previousEMA := 0.0;
    for i := 0 to |data|
      invariant forall j: nat :: j < i ==> ema[j] == Emitted(data, window, ValidMean, j)
      invariant i >= window ==> Val(previousEMA) == Running(data, window, ValidMean, i - 1)
      invariant i < window ==> previousEMA == 0.0
    {
      if i == window - 1 {
        var sum, validCount := 0.0, 0;
        for j := 0 to window
          invariant sum == ValidSum(data[..j]) && validCount == ValidCount(data[..j])
        {
          assert data[..j + 1][..j] == data[..j];
          if data[j].Val? {
            sum := sum + data[j].v;
            validCount := validCount + 1;
          }
        }
        if validCount > 0 {
          previousEMA := sum / validCount as real;
          ema[i] := Val(previousEMA);
        } else {
          ema[i] := NaN;
        }
      } else if i >= window {
        if data[i].Val? {
          previousEMA := Blend(data[i].v, previousEMA, k);
          ema[i] := Val(previousEMA);
        } else {
          ema[i] := NaN;
        }
      } else {
        ema[i] := NaN;
      }
    }
  }

  // --- The closed form -----------------------------------------------------------------------------

  predicate NoNaN(xs: seq<Num>) {
    forall i :: 0 <= i < |xs| ==> xs[i].Val?
  }

  function Pow(b: real, n: nat): real {
    if n == 0 then 1.0 else Times(b, Pow(b, n - 1))
  }

  /** The weight of close t in the average at i: the seed's closes share what the later ones leave. */
  function Weight(window: nat, i: nat, t: nat): real
    requires 1 <= window <= i + 1 && t <= i
  {
    var k := Smoothing(window);
    if t < window then Share(Pow(1.0 - k, i + 1 - window), window as real) else Times(k, Pow(1.0 - k, i - t))
  }

  function Weights(window: nat, i: nat): seq<real>
    requires 1 <= window <= i + 1
  {
    seq(i + 1, t requires 0 <= t <= i => Weight(window, i, t))
  }

  function Values(xs: seq<Num>): seq<real>
    requires NoNaN(xs)
  {
    seq(|xs|, t requires 0 <= t < |xs| => xs[t].v)
  }

  function Dot(ws: seq<real>, xs: seq<real>): real
    requires |ws| == |xs|
  {
    if ws == [] then 0.0
    else Dot(ws[..|ws| - 1], xs[..|xs| - 1]) + Times(ws[|ws| - 1], xs[|xs| - 1])
  }

  function Total(ws: seq<real>): real {
    if ws == [] then 0.0 else Total(ws[..|ws| - 1]) + ws[|ws| - 1]
  }

  lemma DecayStep(r: real, sum: real, w: real, x: real)
    ensures Times(r, sum + Times(w, x)) == Times(r, sum) + Times(Times(r, w), x)
    ensures Times(r, sum + w) == Times(r, sum) + Times(r, w)
  {
  }

  /** Scaling the weights scales the sum. */
  lemma {:induction false} DotDecays(ws: seq<real>, decayed: seq<real>, xs: seq<real>, r: real)
    requires |ws| == |decayed| == |xs| && forall t :: 0 <= t < |ws| ==> decayed[t] == Times(r, ws[t])
    ensures Dot(decayed, xs) == Times(r, Dot(ws, xs))
    ensures Total(decayed) == Times(r, Total(ws))
  {
    if ws != [] {
      var n := |ws| - 1;
      DotDecays(ws[..n], decayed[..n], xs[..n], r);
      DecayStep(r, Dot(ws[..n], xs[..n]), ws[n], xs[n]);
      DecayStep(r, Total(ws[..n]), ws[n], 1.0);
    }
  }

  lemma TimesCommutes(r: real, k: real, p: real, n: real)
    requires n > 0.0
    ensures Share(Times(r, p), n) == Times(r, Share(p, n))
    ensures Times(k, Times(r, p)) == Times(r, Times(k, p))
  {
  }

  lemma WeightDecays(window: nat, i: nat, t: nat)
    requires 1 <= window <= i && t < i
    ensures Weight(window, i, t) == Times(1.0 - Smoothing(window), Weight(window, i - 1, t))
  {
    var k := Smoothing(window);
    TimesCommutes(1.0 - k, k, Pow(1.0 - k, if t < window then i - window else i - 1 - t), window as real);
  }

  /** One close later: all weights decay, and the new close has weight k. */
  lemma WeightsStep(window: nat, i: nat)
    requires 1 <= window <= i
    ensures |Weights(window, i)| == i + 1 && |Weights(window, i - 1)| == i
    ensures forall t :: 0 <= t < i ==>
      Weights(window, i)[..i][t] == Times(1.0 - Smoothing(window), Weights(window, i - 1)[t])
    ensures Weights(window, i)[i] == Smoothing(window)
  {
    forall t: nat | t < i
      ensures Weights(window, i)[..i][t] == Times(1.0 - Smoothing(window), Weights(window, i - 1)[t])
    {
      WeightDecays(window, i, t);
    }
  }

  lemma Shares(a: real, x: real, n: real)
    requires n > 0.0
    ensures Share(a, n) + Times(Share(1.0, n), x) == Share(a + x, n)
    ensures Share(a, n) + Share(1.0, n) == Share(a + 1.0, n)
  {
  }

  predicate Uniform(ws: seq<real>, w: real) {
    forall t :: 0 <= t < |ws| ==> ws[t] == w
  }

  /** Equal weights make the mean. */
  lemma {:induction false} EqualWeights(ws: seq<real>, xs: seq<Num>, n: real)
    requires NoNaN(xs) && |ws| == |xs| && n > 0.0 && Uniform(ws, Share(1.0, n))
    ensures Sum(xs).Val? && Dot(ws, Values(xs)) == Share(Sum(xs).v, n)
    ensures Total(ws) == Share(|ws| as real, n)
  {
    if ws != [] {
      var m := |ws| - 1;
      EqualWeights(ws[..m], xs[..m], n);
      assert Values(xs)[..m] == Values(xs[..m]);
      Shares(Sum(xs[..m]).v, xs[m].v, n);
      Shares(m as real, 1.0, n);
    }
  }

  lemma SeedWeights(window: nat)
    requires window >= 1
    ensures |Weights(window, window - 1)| == window
    ensures Uniform(Weights(window, window - 1), Share(1.0, window as real))
  {
  }

  /** The weights add up to one. */
  lemma {:induction false} WeightsSumToOne(window: nat, i: nat)
    requires 1 <= window <= i + 1
    ensures Total(Weights(window, i)) == 1.0
  {
    if i == window - 1 {
      SeedWeights(window);
      EqualWeights(Weights(window, i), seq(window, _ => Val(0.0)), window as real);
    } else {
      WeightsSumToOne(window, i - 1);
      WeightsStep(window, i);
      var ws := Weights(window, i);
      DotDecays(Weights(window, i - 1), ws[..i], ws[..i], 1.0 - Smoothing(window));
    }
  }

  lemma BlendIsDecay(x: real, previous: real, k: real)
    ensures Blend(x, previous, k) == Times(1.0 - k, previous) + Times(k, x)
  {
  }

  lemma {:induction false} RunningIsWeightedSum(xs: seq<Num>, window: nat, i: nat)
    requires NoNaN(xs) && 1 <= window <= i + 1 <= |xs|
    ensures Running(xs, window, PlainMean, i) == Val(Dot(Weights(window, i), Values(xs)[..i + 1]))
  {
    if i == window - 1 {
      SeedWeights(window);
      EqualWeights(Weights(window, i), xs[..window], window as real);
      assert Values(xs[..window]) == Values(xs)[..window];
    } else {
      RunningIsWeightedSum(xs, window, i - 1);
      WeightsStep(window, i);
      var ws, vs := Weights(window, i), Values(xs)[..i + 1];
      assert vs[..i] == Values(xs)[..i];
      DotDecays(Weights(window, i - 1), ws[..i], vs[..i], 1.0 - Smoothing(window));
      BlendIsDecay(xs[i].v, Dot(Weights(window, i - 1), vs[..i]), Smoothing(window));
    }
  }

  /** For closes without NaN the average is NaN exactly below window - 1, and from there the weighted sum
      of all closes so far. */
  lemma EmaClosedForm(xs: seq<Num>, window: nat, i: nat)
    requires NoNaN(xs) && window >= 1 && i < |xs|
    ensures Emitted(xs, window, PlainMean, i) ==
      if i < window - 1 then NaN else Val(Dot(Weights(window, i), Values(xs)[..i + 1]))
  {
    if i >= window - 1 {
      RunningIsWeightedSum(xs, window, i);
    }
  }

  lemma {:induction false} PowNonNegative(b: real, n: nat)
    requires b >= 0.0
    ensures Pow(b, n) >= 0.0
  {
    if n > 0 {
      PowNonNegative(b, n - 1);
    }
  }

  lemma WeightNonNegative(window: nat, i: nat, t: nat)
    requires 1 <= window <= i + 1 && t <= i
    ensures Weight(window, i, t) >= 0.0
  {
    SmoothingRange(window);
    var r := 1.0 - Smoothing(window);
    PowNonNegative(r, if t < window then i + 1 - window else i - t);
  }

  lemma TermWithin(sum: real, total: real, w: real, x: real, lo: real, hi: real)
    requires w >= 0.0 && lo <= x <= hi && Times(lo, total) <= sum <= Times(hi, total)
    ensures Times(lo, total + w) <= sum + Times(w, x) <= Times(hi, total + w)
  {
  }

  lemma {:induction false} DotWithin(ws: seq<real>, xs: seq<real>, lo: real, hi: real)
    requires |ws| == |xs| && forall t :: 0 <= t < |ws| ==> ws[t] >= 0.0 && lo <= xs[t] <= hi
    ensures Times(lo, Total(ws)) <= Dot(ws, xs) <= Times(hi, Total(ws))
  {
    if ws != [] {
      var n := |ws| - 1;
      DotWithin(ws[..n], xs[..n], lo, hi);
      TermWithin(Dot(ws[..n], xs[..n]), Total(ws[..n]), ws[n], xs[n], lo, hi);
    }
  }

  /** The average lies between the lowest and the highest close so far. */
  lemma EmaWithinCloses(xs: seq<Num>, window: nat, i: nat, lo: real, hi: real)
    requires NoNaN(xs) && 1 <= window <= i + 1 <= |xs|
    requires forall t :: 0 <= t <= i ==> lo <= xs[t].v <= hi
    ensures Emitted(xs, window, PlainMean, i).Val? && lo <= Emitted(xs, window, PlainMean, i).v <= hi
  {
    var ws, vs := Weights(window, i), Values(xs)[..i + 1];
    EmaClosedForm(xs, window, i);
    forall t: nat | t <= i
      ensures ws[t] >= 0.0
    {
      WeightNonNegative(window, i, t);
    }
    DotWithin(ws, vs, lo, hi);
    WeightsSumToOne(window, i);
  }

  // --- The recurrence, with its numbers -------------------------------------------------------------

  lemma BlendedWith(x: real, previous: real, window: nat)
    requires window >= 1
    ensures (window as real + 1.0) * Blend(x, previous, Smoothing(window)) == (window as real - 1.0) * previous + 2.0 * x
  {
    var k, w := Smoothing(window), window as real + 1.0;
    assert k * w == 2.0;
    assert w * ((x - previous) * k) == (x - previous) * (k * w);
  }

  /** Elements that are NaN leave the running average alone. */
  lemma {:induction false} RunningSkipsNaN(xs: seq<Num>, window: nat, seeding: Seeding, j: nat, i: nat)
    requires 1 <= window <= j + 1 <= i + 1 <= |xs| && forall t :: j < t <= i ==> xs[t].NaN?
    ensures Running(xs, window, seeding, i) == Running(xs, window, seeding, j)
  {
    if j < i {
      RunningSkipsNaN(xs, window, seeding, j, i - 1);
    }
  }

  /** The law of an exponential average: (window + 1) now == (window - 1) before + 2 x. */
  predicate Law(window: nat, now: Num, before: Num, x: Num) {
    now.Val? && before.Val? && x.Val? &&
    (window as real + 1.0) * now.v == (window as real - 1.0) * before.v + 2.0 * x.v
  }

  predicate IsMean(m: Num, values: seq<Num>) {
    NoNaN(values) && m.Val? && |values| as real * m.v == Total(Values(values))
  }

  /** Of both averages, on any series: an element after the seed that is a number is blended with the average
      emitted last, the NaN in between being skipped, in the proportion 2 to window - 1. */
  lemma EmittedRecurrence(xs: seq<Num>, window: nat, seeding: Seeding, j: nat, i: nat)
    requires 1 <= window <= j + 1 <= i < |xs| && forall t :: j < t < i ==> xs[t].NaN?
    requires xs[i].Val? && Emitted(xs, window, seeding, j).Val?
    ensures Law(window, Emitted(xs, window, seeding, i), Emitted(xs, window, seeding, j), xs[i])
  {
    RunningSkipsNaN(xs, window, seeding, j, i - 1);
    BlendedWith(xs[i].v, Emitted(xs, window, seeding, j).v, window);
  }

  /** A NaN element is emitted as NaN, and nothing is emitted below the window. */
  lemma NaNIsEmitted(xs: seq<Num>, window: nat, seeding: Seeding, i: nat)
    requires window >= 1 && i < |xs| && (i + 1 < window || (xs[i].NaN? && i >= window))
    ensures Emitted(xs, window, seeding, i) == NaN
  {
  }

  lemma {:induction false} SumOfNaN(xs: seq<Num>, i: nat)
    requires i < |xs| && xs[i].NaN?
    ensures Sum(xs) == NaN
  {
    if i < |xs| - 1 {
      SumOfNaN(xs[..|xs| - 1], i);
    }
  }

  /** A single NaN among the closes of the seed leaves CustomEMA without a number for good. */
  lemma {:induction false} NaNSeedLasts(xs: seq<Num>, window: nat, n: nat, i: nat)
    requires 1 <= window <= i + 1 <= |xs| && n < window && xs[n].NaN?
    ensures Running(xs, window, PlainMean, i) == NaN && Emitted(xs, window, PlainMean, i) == NaN
  {
    if i == window - 1 {
      SumOfNaN(xs[..window], n);
    } else {
      NaNSeedLasts(xs, window, n, i - 1);
    }
  }

  /** For closes without NaN, from the seed on: (window + 1) ema[i] = (window - 1) ema[i - 1] + 2 close[i]. */
  lemma EmaRecurrence(xs: seq<Num>, window: nat, i: nat)
    requires NoNaN(xs) && 1 <= window <= i < |xs|
    ensures Law(window, Emitted(xs, window, PlainMean, i), Emitted(xs, window, PlainMean, i - 1), xs[i])
  {
    EmaClosedForm(xs, window, i - 1);
    EmittedRecurrence(xs, window, PlainMean, i - 1, i);
  }

  /** The seed is the mean of the first closes. */
  lemma EmaSeed(xs: seq<Num>, window: nat)
    requires NoNaN(xs) && 1 <= window <= |xs|
    ensures IsMean(Emitted(xs, window, PlainMean, window - 1), xs[..window])
  {
    SumIsTotal(xs[..window]);
  }

  lemma {:induction false} SumIsTotal(xs: seq<Num>)
    requires NoNaN(xs)
    ensures Sum(xs) == Val(Total(Values(xs)))
  {
    if xs != [] {
      SumIsTotal(xs[..|xs| - 1]);
      assert Values(xs)[..|xs| - 1] == Values(xs[..|xs| - 1]);
    }
  }

  /** Weights after the seed: the newest close has 2 / (window + 1), and each older one the share
      (window - 1) / (window + 1) of the next. */
  lemma WeightsInNumbers(window: nat, i: nat, t: nat)
    requires 1 <= window <= t <= i
    ensures (window as real + 1.0) * Weight(window, i, i) == 2.0
    ensures (window as real + 1.0) * Weight(window, i + 1, t) == (window as real - 1.0) * Weight(window, i, t)
  {
    var k, w := Smoothing(window), window as real + 1.0;
    assert k * w == 2.0;
    assert Pow(1.0 - k, 0) == 1.0;
    WeightDecays(window, i + 1, t);
    assert w * ((1.0 - k) * Weight(window, i, t)) == (w - k * w) * Weight(window, i, t);
  }

  // --- MACD ----------------------------------------------------------------------------------------

  function Diff(a: Num, b: Num): Num {
    if a.Val? && b.Val? then Val(a.v - b.v) else NaN
  }

  function Macd(xs: seq<Num>, short: nat, long: nat): seq<Num>
    requires short >= 1 && long >= 1
  {
    seq(|xs|, i requires 0 <= i < |xs| => Diff(Emitted(xs, short, PlainMean, i), Emitted(xs, long, PlainMean, i)))
  }

  method CustomMACD(data: seq<Num>, shortWindow: nat, longWindow: nat, signalWindow: nat)
    returns (macd: array<Num>, signal: array<Num>, histogram: array<Num>)
    requires shortWindow >= 1 && longWindow >= 1 && signalWindow >= 1
    ensures macd[..] == Macd(data, shortWindow, longWindow)
    ensures signal.Length == histogram.Length == |data|
    ensures forall i: nat :: i < |data| ==>
      signal[i] == Emitted(Macd(data, shortWindow, longWindow), signalWindow, ValidMean, i)
    ensures forall i: nat :: i < |data| ==>
      histogram[i] == if macd[i].Val? && signal[i].Val? then Val(macd[i].v - signal[i].v) else NaN
  {
    macd := new Num[|data|];
    histogram := new Num[|data|];
    var shortEMA := CustomEMA(data, shortWindow);
    var longEMA := CustomEMA(data, longWindow);
    ghost var line := Macd(data, shortWindow, longWindow);
    assert forall j: nat :: j < |data| ==> line[j] == Diff(shortEMA[j], longEMA[j]);
    for i := 0 to |data|
      invariant forall j: nat {:trigger line[j]} :: j < |data| ==> line[j] == Diff(shortEMA[j], longEMA[j])
      invariant forall j: nat {:trigger macd[j]} :: j < i ==> macd[j] == line[j]
    {
      if shortEMA[i].Val? && longEMA[i].Val? {
        macd[i] := Val(shortEMA[i].v - longEMA[i].v);
      } else {
        macd[i] := NaN;
      }
    }
    assert macd[..] == line;
    signal := CustomEMAFromSlice(macd[..], signalWindow);
    for i := 0 to |data|
      invariant macd[..] == line
      invariant forall j: nat {:trigger signal[j]} :: j < |data| ==> signal[j] == Emitted(line, signalWindow, ValidMean, j)
      invariant forall j: nat {:trigger histogram[j]} :: j < i ==> histogram[j] == Diff(macd[j], signal[j])
    {
      if macd[i].Val? && signal[i].Val? {
        histogram[i] := Val(macd[i].v - signal[i].v);
      } else {
        histogram[i] := NaN;
      }
    }
  }

  function Wider(short: nat, long: nat): nat {
    if short <= long then long else short
  }

  /** Without NaN closes the MACD line is NaN exactly below the wider window less one, whichever of the two
      windows that is. */
  lemma MacdWarmup(xs: seq<Num>, short: nat, long: nat, i: nat)
    requires NoNaN(xs) && short >= 1 && long >= 1 && i < |xs|
    ensures Macd(xs, short, long)[i].NaN? <==> i < Wider(short, long) - 1
    ensures i >= Wider(short, long) - 1 ==>
      && Emitted(xs, short, PlainMean, i).Val? && Emitted(xs, long, PlainMean, i).Val?
      && Macd(xs, short, long)[i].v == Emitted(xs, short, PlainMean, i).v - Emitted(xs, long, PlainMean, i).v
  {
    EmaClosedForm(xs, short, i);
    EmaClosedForm(xs, long, i);
  }

  /** The line from index `from` on averaged as if the average before it had been `seed`. */
  function FromSeed(line: seq<Num>, k: real, from: nat, i: nat, seed: real): real
    requires from <= i < |line| && forall t :: from <= t <= i ==> line[t].Val?
  {
    Blend(line[i].v, if i == from then seed else FromSeed(line, k, from, i - 1, seed), k)
  }

  lemma {:induction false} NothingValid(xs: seq<Num>)
    requires forall i :: 0 <= i < |xs| ==> xs[i].NaN?
    ensures ValidCount(xs) == 0
  {
    if xs != [] {
      NothingValid(xs[..|xs| - 1]);
    }
  }

  lemma {:induction false} StillZero(line: seq<Num>, window: nat, from: nat, i: nat)
    requires 1 <= window <= i + 1 <= from <= |line| && forall t :: 0 <= t < from ==> line[t].NaN?
    ensures Running(line, window, ValidMean, i) == Val(0.0)
  {
    if i == window - 1 {
      NothingValid(line[..window]);
    } else {
      StillZero(line, window, from, i - 1);
    }
  }

  lemma {:induction false} RunsFromZero(line: seq<Num>, window: nat, from: nat, i: nat)
    requires 1 <= window <= from <= i < |line|
    requires forall t :: 0 <= t < |line| ==> (line[t].NaN? <==> t < from)
    ensures Running(line, window, ValidMean, i) == Val(FromSeed(line, Smoothing(window), from, i, 0.0))
  {
    if i == from {
      StillZero(line, window, from, i - 1);
    } else {
      RunsFromZero(line, window, from, i - 1);
    }
  }

  /** With a signal window below the wider one, the signal finds nothing valid to seed itself with: it and
      the histogram are NaN exactly where the line is, and from there the recurrence started from zero. */
  lemma SignalStartsFromZero(xs: seq<Num>, short: nat, long: nat, window: nat, i: nat)
    requires NoNaN(xs) && short >= 1 && long >= 1 && 1 <= window < Wider(short, long) && i < |xs|
    ensures var line, wide := Macd(xs, short, long), Wider(short, long);
      && (forall t :: 0 <= t < |line| ==> (line[t].NaN? <==> t < wide - 1))
      && Emitted(line, window, ValidMean, i) ==
           (if i < wide - 1 then NaN else Val(FromSeed(line, Smoothing(window), wide - 1, i, 0.0)))
      && (Diff(line[i], Emitted(line, window, ValidMean, i)).NaN? <==> i < wide - 1)
  {
    var line, wide := Macd(xs, short, long), Wider(short, long);
    forall t: nat | t < |line|
      ensures line[t].NaN? <==> t < wide - 1
    {
      MacdWarmup(xs, short, long, t);
    }
    if i >= wide - 1 {
      RunsFromZero(line, window, wide - 1, i);
    } else if i == window - 1 {
      NothingValid(line[..window]);
    }
  }

  function SignalAt(xs: seq<Num>, short: nat, long: nat, window: nat, i: nat): Num
    requires short >= 1 && long >= 1 && window >= 1 && i < |xs|
  {
    Emitted(Macd(xs, short, long), window, ValidMean, i)
  }

  /** In numbers: once line and signal are there, (window + 1) signal[i] = (window - 1) signal[i - 1] + 2 line[i]. */
  lemma SignalRecurrence(xs: seq<Num>, short: nat, long: nat, window: nat, i: nat)
    requires NoNaN(xs) && short >= 1 && long >= 1 && 1 <= window <= i < |xs| && Wider(short, long) <= i
    ensures Law(window, SignalAt(xs, short, long, window, i), SignalAt(xs, short, long, window, i - 1), Macd(xs, short, long)[i])
  {
    SignalIsValid(xs, short, long, window, i);
    SignalIsValid(xs, short, long, window, i - 1);
    EmittedRecurrence(Macd(xs, short, long), window, ValidMean, i - 1, i);
  }

  /** For a signal window below the wider one the first signal is 2 / (window + 1) of the line. */
  lemma FirstSignal(xs: seq<Num>, short: nat, long: nat, window: nat)
    requires NoNaN(xs) && short >= 1 && long >= 1 && 1 <= window < Wider(short, long) <= |xs|
    ensures var i := Wider(short, long) - 1;
      Law(window, SignalAt(xs, short, long, window, i), Val(0.0), Macd(xs, short, long)[i])
  {
    var i := Wider(short, long) - 1;
    SignalIsValid(xs, short, long, window, i);
    SignalStartsFromZero(xs, short, long, window, i);
    BlendedWith(Macd(xs, short, long)[i].v, 0.0, window);
  }

  lemma SignalIsValid(xs: seq<Num>, short: nat, long: nat, window: nat, i: nat)
    requires NoNaN(xs) && short >= 1 && long >= 1 && window >= 1 && i < |xs|
    requires Wider(short, long) - 1 <= i && window - 1 <= i
    ensures Macd(xs, short, long)[i].Val? && Emitted(Macd(xs, short, long), window, ValidMean, i).Val?
  {
    var line, wide := Macd(xs, short, long), Wider(short, long);
    MacdWarmup(xs, short, long, i);
    ValidRuns(line, window, i);
    if i == window - 1 {
      SomeValid(line[..window], i);
    }
  }

  lemma {:induction false} ValidRuns(line: seq<Num>, window: nat, i: nat)
    requires 1 <= window <= i + 1 <= |line|
    ensures Running(line, window, ValidMean, i).Val?
  {
    if i >= window {
      ValidRuns(line, window, i - 1);
    }
  }

  lemma {:induction false} SomeValid(xs: seq<Num>, i: nat)
    requires i < |xs| && xs[i].Val?
    ensures ValidCount(xs) > 0
  {
    if i < |xs| - 1 {
      SomeValid(xs[..|xs| - 1], i);
    }
  }

  lemma {:induction false} CountValid(line: seq<Num>, from: nat)
    requires from <= |line| && forall t :: 0 <= t < |line| ==> (line[t].NaN? <==> t < from)
    ensures ValidCount(line) == |line| - from
  {
    if |line| > from {
      CountValid(line[..|line| - 1], from);
    } else {
      NothingValid(line);
    }
  }

  /** Otherwise the signal is seeded with the mean of the valid values its window covers. */
  lemma SignalSeededWithMean(xs: seq<Num>, short: nat, long: nat, window: nat)
    requires NoNaN(xs) && short >= 1 && long >= 1 && Wider(short, long) <= window <= |xs|
    ensures var line := Macd(xs, short, long)[..window];
      Emitted(Macd(xs, short, long), window, ValidMean, window - 1) == Val(ValidSum(line) / (window - Wider(short, long) + 1) as real)
  {
    var line := Macd(xs, short, long);
    forall t: nat | t < |line|
      ensures line[t].NaN? <==> t < Wider(short, long) - 1
    {
      MacdWarmup(xs, short, long, t);
    }
    CountValid(line[..window], Wider(short, long) - 1);
  }

  lemma BlendsApart(x: real, a: real, b: real, k: real)
    ensures Blend(x, a, k) - Blend(x, b, k) == Times(1.0 - k, a - b)
  {
  }

  lemma DecayOnce(v: real, r: real, p: real)
    ensures Times(r, Times(v, p)) == Times(v, Times(r, p))
  {
  }

  /** What starting from zero costs, on any line: after m values the signal differs from the average seeded
      with v by v (1 - k)^m. */
  lemma {:induction false} ZeroSeedBias(line: seq<Num>, k: real, from: nat, i: nat, v: real)
    requires from <= i < |line| && forall t :: from <= t <= i ==> line[t].Val?
    ensures FromSeed(line, k, from, i, v) - FromSeed(line, k, from, i, 0.0) == Times(v, Pow(1.0 - k, i - from + 1))
  {
    var r, x := 1.0 - k, line[i].v;
    if i == from {
      BlendsApart(x, v, 0.0, k);
      assert Pow(r, 1) == Times(r, 1.0) == r;
    } else {
      ZeroSeedBias(line, k, from, i - 1, v);
      BlendsApart(x, FromSeed(line, k, from, i - 1, v), FromSeed(line, k, from, i - 1, 0.0), k);
      DecayOnce(v, r, Pow(r, i - from));
      assert Pow(r, i - from + 1) == Times(r, Pow(r, i - from));
    }
  }

  lemma {:induction false} ConstantLineStays(line: seq<Num>, k: real, from: nat, i: nat, c: real)
    requires from <= i < |line| && forall t :: from <= t <= i ==> line[t] == Val(c)
    ensures FromSeed(line, k, from, i, c) == c
  {
    if i > from {
      ConstantLineStays(line, k, from, i - 1, c);
    }
  }

  /** On a constant line, where an average seeded with the mean is exact at once, the signal falls short by
      the factor (1 - k)^m. */
  lemma ConstantLineBias(line: seq<Num>, k: real, from: nat, i: nat, c: real)
    requires from <= i < |line| && forall t :: from <= t <= i ==> line[t] == Val(c)
    ensures FromSeed(line, k, from, i, 0.0) == c - Times(c, Pow(1.0 - k, i - from + 1))
  {
    ConstantLineStays(line, k, from, i, c);
    ZeroSeedBias(line, k, from, i, c);
  }

  lemma {:induction false} ValidSumIsTotal(line: seq<Num>, from: nat)
    requires from <= |line| && forall t :: 0 <= t < |line| ==> (line[t].NaN? <==> t < from)
    ensures NoNaN(line[from..]) && ValidSum(line) == Total(Values(line[from..]))
  {
    if line != [] {
      var n := |line| - 1;
      if from <= n {
        ValidSumIsTotal(line[..n], from);
        assert line[from..][..n - from] == line[..n][from..];
        assert Values(line[from..])[..n - from] == Values(line[..n][from..]);
      } else {
        ValidSumIsTotal(line[..n], n);
        assert line[..n][n..] == [] && line[from..] == [];
      }
    }
  }

  lemma MeanTimesCount(sum: real, n: nat)
    requires n > 0
    ensures n as real * (sum / n as real) == sum
  {
  }

  lemma MeanOfValid(sum: real, values: seq<Num>)
    requires values != [] && NoNaN(values) && sum == Total(Values(values))
    ensures IsMean(Val(sum / |values| as real), values)
  {
    MeanTimesCount(sum, |values|);
  }

  lemma ValidSeedIsMean(line: seq<Num>, window: nat, from: nat)
    requires from < window <= |line| && forall t :: 0 <= t < |line| ==> (line[t].NaN? <==> t < from)
    ensures IsMean(Emitted(line, window, ValidMean, window - 1), line[from..window])
  {
    var first := line[..window];
    assert first[from..] == line[from..window];
    CountValid(first, from);
    ValidSumIsTotal(first, from);
    MeanOfValid(ValidSum(first), line[from..window]);
  }

  /** For any other signal window it is the mean of the line's values up to the end of the window. */
  lemma FirstSignalIsMean(xs: seq<Num>, short: nat, long: nat, window: nat)
    requires NoNaN(xs) && short >= 1 && long >= 1 && Wider(short, long) <= window <= |xs|
    ensures IsMean(SignalAt(xs, short, long, window, window - 1), Macd(xs, short, long)[Wider(short, long) - 1..window])
  {
    var line, wide := Macd(xs, short, long), Wider(short, long);
    forall t: nat | t < |line|
      ensures line[t].NaN? <==> t < wide - 1
    {
      MacdWarmup(xs, short, long, t);
    }
    ValidSeedIsMean(line, window, wide - 1);
  }
}
