/** indicator/supertrend.go: the SuperTrend line. The average true range is an arbitrary input series. */
module SuperTrend {

  /** The input columns, one entry per bar, and the factor. */
  datatype Input = Input(high: seq<real>, low: seq<real>, close: seq<real>, atr: seq<real>, factor: real)

  predicate Rectangular(p: Input) {
    |p.high| == |p.low| == |p.close| == |p.atr|
  }

  function BasicUpper(p: Input, i: nat): real
    requires Rectangular(p) && i < |p.atr|
  {
    (p.high[i] + p.low[i]) / 2.0 + p.atr[i] * p.factor
  }

  function BasicLower(p: Input, i: nat): real
    requires Rectangular(p) && i < |p.atr|
  {
    (p.high[i] + p.low[i]) / 2.0 - p.atr[i] * p.factor
  }

  /** The basic bands lie around the middle of the bar, a factor times the average true range either way. */
  lemma BasicBands(p: Input, i: nat)
    requires Rectangular(p) && i < |p.atr|
    ensures BasicUpper(p, i) + BasicLower(p, i) == p.high[i] + p.low[i]
    ensures BasicUpper(p, i) - BasicLower(p, i) == 2.0 * (p.factor * p.atr[i])
  {
  }

  /** The final bands: ratcheted towards the price, released when the previous close broke through. */
  function Upper(p: Input, i: nat): real
    requires Rectangular(p) && i < |p.atr|
  {
    if i == 0 then 0.0
    else if BasicUpper(p, i) < Upper(p, i - 1) || p.close[i - 1] > Upper(p, i - 1) then BasicUpper(p, i)
    else Upper(p, i - 1)
  }

  function Lower(p: Input, i: nat): real
    requires Rectangular(p) && i < |p.atr|
  {
    if i == 0 then 0.0
    else if BasicLower(p, i) > Lower(p, i - 1) || p.close[i - 1] < Lower(p, i - 1) then BasicLower(p, i)
    else Lower(p, i - 1)
  }

  /** From bar 1 on the upper band is the lower of its last value and the basic band, until a close above it
      lets it go to the basic band; and the lower band the other way round. */
  lemma BandsRatchet(p: Input, i: nat)
    requires Rectangular(p) && 1 <= i < |p.atr|
    ensures p.close[i - 1] > Upper(p, i - 1) ==> Upper(p, i) == BasicUpper(p, i)
    ensures p.close[i - 1] <= Upper(p, i - 1) ==>
      Upper(p, i) <= Upper(p, i - 1) && Upper(p, i) <= BasicUpper(p, i) && Upper(p, i) in {Upper(p, i - 1), BasicUpper(p, i)}
    ensures p.close[i - 1] < Lower(p, i - 1) ==> Lower(p, i) == BasicLower(p, i)
    ensures p.close[i - 1] >= Lower(p, i - 1) ==>
      Lower(p, i) >= Lower(p, i - 1) && Lower(p, i) >= BasicLower(p, i) && Lower(p, i) in {Lower(p, i - 1), BasicLower(p, i)}
    ensures Upper(p, 0) == 0.0 && Lower(p, 0) == 0.0 && Line(p, 0) == 0.0
  {
  }

  /** The line as coded: which band the last value was on is told by comparing it with the upper one. */
  function Line(p: Input, i: nat): real
    requires Rectangular(p) && i < |p.atr|
  {
    if i == 0 then 0.0
    else if Upper(p, i - 1) == Line(p, i - 1) then
      if p.close[i] > Upper(p, i) then Lower(p, i) else Upper(p, i)
    else
      if p.close[i] < Lower(p, i) then Upper(p, i) else Lower(p, i)
  }

  /** The loop body: the final bands and the line of bar i from those of the bar before. */
  method NextBar(p: Input, i: nat, basicUpper: real, basicLower: real,
                 previousUpper: real, previousLower: real, previousLine: real)
    returns (upper: real, lower: real, line: real)
    requires Rectangular(p) && 1 <= i < |p.atr|
    requires basicUpper == BasicUpper(p, i) && basicLower == BasicLower(p, i)
    requires previousUpper == Upper(p, i - 1) && previousLower == Lower(p, i - 1) && previousLine == Line(p, i - 1)
    ensures upper == Upper(p, i) && lower == Lower(p, i) && line == Line(p, i)
  {
    if basicUpper < previousUpper || p.close[i - 1] > previousUpper {
      upper := basicUpper;
    } else {
      upper := previousUpper;
    }
    if basicLower > previousLower || p.close[i - 1] < previousLower {
      lower := basicLower;
    } else {
      lower := previousLower;
    }
    if previousUpper == previousLine {
      if p.close[i] > upper {
        line := lower;
      } else {
        line := upper;
      }
    } else {
      if p.close[i] < lower {
        line := upper;
      } else {
        line := lower;
      }
    }
  }

  method SuperTrendLine(p: Input) returns (superTrend: array<real>)
    requires Rectangular(p)
    ensures superTrend.Length == |p.atr|
    ensures forall i: nat :: i < |p.atr| ==> superTrend[i] == Line(p, i)
  {
    var n := |p.atr|;
    var basicUpperBand := new real[n](_ => 0.0);
    var basicLowerBand := new real[n](_ => 0.0);
    var finalUpperBand := new real[n](_ => 0.0);
    var finalLowerBand := new real[n](_ => 0.0);
    superTrend := new real[n](_ => 0.0);
    var i := 1;
    while i < n
      invariant 1 <= i
      invariant forall j: nat {:trigger finalUpperBand[j]} :: j < i && j < n ==> finalUpperBand[j] == Upper(p, j)
      invariant forall j: nat {:trigger finalLowerBand[j]} :: j < i && j < n ==> finalLowerBand[j] == Lower(p, j)
      invariant forall j: nat {:trigger superTrend[j]} :: j < i && j < n ==> superTrend[j] == Line(p, j)
    {
      basicUpperBand[i], basicLowerBand[i] := BasicUpper(p, i), BasicLower(p, i);
      var upper, lower, line := NextBar(p, i, basicUpperBand[i], basicLowerBand[i],
                                        finalUpperBand[i - 1], finalLowerBand[i - 1], superTrend[i - 1]);
      finalUpperBand[i], finalLowerBand[i], superTrend[i] := upper, lower, line;
      i := i + 1;
    }
  }

  // --- The automaton behind the equality test ------------------------------------------------------

  datatype Mode = Up | Down

  /** The intended machine, with its state carried along: down until a close above the upper band, up
      until a close below the lower one. */
  function Automaton(p: Input, i: nat): Mode
    requires Rectangular(p) && i < |p.atr|
  {
    if i == 0 then Down
    else
      match Automaton(p, i - 1)
      case Down => if p.close[i] > Upper(p, i) then Up else Down
      case Up => if p.close[i] < Lower(p, i) then Down else Up
  }

  function Band(p: Input, i: nat, mode: Mode): real
    requires Rectangular(p) && i < |p.atr|
  {
    if mode == Up then Lower(p, i) else Upper(p, i)
  }

  /** What the equality test reads off at i. */
  function Decoded(p: Input, i: nat): Mode
    requires Rectangular(p) && i < |p.atr|
  {
    if Upper(p, i) == Line(p, i) then Down else Up
  }

  /** The bands differ wherever the automaton is up. */
  predicate UpIsVisible(p: Input, i: nat)
    requires Rectangular(p) && i < |p.atr|
  {
    Automaton(p, i) == Up ==> Upper(p, i) != Lower(p, i)
  }

  /** While the bands differ where the automaton is up, the line runs on the automaton's band and the
      equality test decodes its state. */
  lemma {:induction false} LineRefinesAutomaton(p: Input, i: nat)
    requires Rectangular(p) && i < |p.atr| && forall j: nat :: j < i ==> UpIsVisible(p, j)
    ensures Line(p, i) == Band(p, i, Automaton(p, i))
    ensures UpIsVisible(p, i) ==> Decoded(p, i) == Automaton(p, i)
  {
    if i > 0 {
      LineRefinesAutomaton(p, i - 1);
    }
  }

  /** The test decodes the automaton at every bar exactly when the bands differ wherever it is up; in
      particular when lower < upper from bar 1 on. */
  lemma {:induction false} DecodingIsExactIff(p: Input, n: nat)
    requires Rectangular(p) && n <= |p.atr|
    ensures (forall i: nat :: i < n ==> Decoded(p, i) == Automaton(p, i)) <==> (forall i: nat :: i < n ==> UpIsVisible(p, i))
  {
    if n > 0 {
      DecodingIsExactIff(p, n - 1);
      if forall i: nat :: i < n - 1 ==> UpIsVisible(p, i) {
        LineRefinesAutomaton(p, n - 1);
      }
    }
  }

  lemma SeparatedBandsSuffice(p: Input, n: nat)
    requires Rectangular(p) && n <= |p.atr| && forall i: nat :: 1 <= i < n ==> Lower(p, i) < Upper(p, i)
    ensures forall i: nat :: i < n ==> UpIsVisible(p, i) && Decoded(p, i) == Automaton(p, i)
  {
    forall i: nat | i < n
      ensures UpIsVisible(p, i)
    {
    }
    DecodingIsExactIff(p, n);
  }

  /** The condition bites: where an average true range of zero makes the bands meet, a line that just
      turned up is read as down. */
  lemma MeetingBandsAreMisread()
    ensures var p := Input([1.0, 1.0], [1.0, 1.0], [1.0, 2.0], [0.0, 0.0], 3.0);
      Automaton(p, 1) == Up && Decoded(p, 1) == Down
  {
  }

  /** The branch that emitted the value at i, decoded or not. */
  function Emitting(p: Input, i: nat): Mode
    requires Rectangular(p) && i < |p.atr|
  {
    if i == 0 then Down
    else if Decoded(p, i - 1) == Down then if p.close[i] > Upper(p, i) then Up else Down
    else if p.close[i] < Lower(p, i) then Down else Up
  }

  /** A close strictly between bands that have crossed: above the upper and below the lower one. */
  predicate Between(p: Input, i: nat)
    requires Rectangular(p) && i < |p.atr|
  {
    Upper(p, i) < p.close[i] < Lower(p, i)
  }

  /** Whatever the bands, the line is on the band of the branch that emitted it. */
  lemma LineIsEmitted(p: Input, i: nat)
    requires Rectangular(p) && i < |p.atr|
    ensures Line(p, i) == Band(p, i, Emitting(p, i))
  {
  }

  /** Within a run the line moves against its direction exactly when the close before was caught between
      crossed bands and the new basic band gives way. */
  lemma StepIsMonotoneIff(p: Input, i: nat)
    requires Rectangular(p) && 2 <= i < |p.atr| && Emitting(p, i - 1) == Emitting(p, i)
    ensures if Emitting(p, i) == Up then
        Line(p, i) < Line(p, i - 1) <==> Between(p, i - 1) && BasicLower(p, i) < Lower(p, i - 1)
      else
        Line(p, i) > Line(p, i - 1) <==> Between(p, i - 1) && BasicUpper(p, i) > Upper(p, i - 1)
  {
    LineIsEmitted(p, i);
    LineIsEmitted(p, i - 1);
  }

  predicate InRun(p: Input, mode: Mode, from: nat, to: nat)
    requires Rectangular(p) && to < |p.atr|
  {
    forall j: nat :: from <= j <= to ==> Emitting(p, j) == mode
  }

  /** From bar 1 on, as long as no close is caught between crossed bands, the line never falls within an up
      run and never rises within a down run, whether or not the bands meet. */
  lemma {:induction false} RunsAreMonotone(p: Input, mode: Mode, from: nat, to: nat)
    requires Rectangular(p) && 1 <= from <= to < |p.atr| && InRun(p, mode, from, to)
    requires forall j: nat :: from <= j < to ==> !Between(p, j)
    ensures if mode == Up then Line(p, from) <= Line(p, to) else Line(p, from) >= Line(p, to)
  {
    if from < to {
      RunsAreMonotone(p, mode, from, to - 1);
      assert Emitting(p, to - 1) == mode && Emitting(p, to) == mode;
      StepIsMonotoneIff(p, to);
    }
  }

  /** As long as every up was visible so far, the branch that emits is the automaton's state: the runs above
      are its runs. */
  lemma EmittingIsAutomaton(p: Input, i: nat)
    requires Rectangular(p) && i < |p.atr| && forall j: nat :: j < i ==> UpIsVisible(p, j)
    ensures Emitting(p, i) == Automaton(p, i)
  {
    if i > 0 {
      LineRefinesAutomaton(p, i - 1);
    }
  }

  // --- After a misread ------------------------------------------------------------------------------

  predicate Agree(p: Input, i: nat)
    requires Rectangular(p) && i < |p.atr|
  {
    Decoded(p, i) == Automaton(p, i)
  }

  /** The close is on the same side of both bands, and not above bands that meet. */
  predicate Outside(p: Input, i: nat)
    requires Rectangular(p) && i < |p.atr|
  {
    || (p.close[i] < Lower(p, i) && p.close[i] <= Upper(p, i))
    || (p.close[i] > Upper(p, i) && p.close[i] >= Lower(p, i) && Lower(p, i) != Upper(p, i))
  }

  /** What ends a misread: a close outside the bands or, where a down was taken for an up, one on bands that
      meet. */
  predicate Regains(p: Input, i: nat)
    requires Rectangular(p) && 1 <= i < |p.atr|
  {
    Outside(p, i) || (Decoded(p, i - 1) == Up && p.close[i] == Lower(p, i) == Upper(p, i))
  }

  /** Bar by bar and for all inputs: from agreement the test stays right exactly when an up is visible; from
      a misread it is right again exactly when the bar regains it. */
  lemma AgreementStep(p: Input, i: nat)
    requires Rectangular(p) && 1 <= i < |p.atr|
    ensures Agree(p, i) <==> if Agree(p, i - 1) then UpIsVisible(p, i) else Regains(p, i)
  {
    LineIsEmitted(p, i);
  }

  /** A misread lasts exactly as long as no bar regains the state. */
  lemma {:induction false} MisreadLastsIff(p: Input, m: nat, i: nat)
    requires Rectangular(p) && m <= i < |p.atr| && !Agree(p, m)
    ensures (forall j: nat :: m <= j <= i ==> !Agree(p, j)) <==> (forall j: nat :: m < j <= i ==> !Regains(p, j))
  {
    if m < i {
      MisreadLastsIff(p, m, i - 1);
      AgreementStep(p, i);
    }
  }

  predicate DownTakenForUp(p: Input, i: nat)
    requires Rectangular(p) && i < |p.atr|
  {
    Decoded(p, i) == Up && Automaton(p, i) == Down
  }

  predicate UpTakenForDown(p: Input, i: nat)
    requires Rectangular(p) && i < |p.atr|
  {
    Decoded(p, i) == Down && Automaton(p, i) == Up
  }

  /** A misread turns into the opposite one exactly when the close is caught between crossed bands. */
  lemma MisreadFlips(p: Input, i: nat)
    requires Rectangular(p) && 1 <= i < |p.atr|
    ensures UpTakenForDown(p, i - 1) ==> (DownTakenForUp(p, i) <==> Between(p, i))
    ensures DownTakenForUp(p, i) ==> UpTakenForDown(p, i - 1) || DownTakenForUp(p, i - 1)
  {
    LineIsEmitted(p, i);
  }

  /** Every misread takes an up for a down exactly when no misread meets a close caught between crossed
      bands; bands that never cross are enough. */
  lemma {:induction false} MisreadsAreUpsIff(p: Input, i: nat)
    requires Rectangular(p) && i < |p.atr|
    ensures (forall j: nat :: j <= i ==> !DownTakenForUp(p, j)) <==>
      (forall j: nat :: 1 <= j <= i && UpTakenForDown(p, j - 1) ==> !Between(p, j))
  {
    if i > 0 {
      MisreadsAreUpsIff(p, i - 1);
      MisreadFlips(p, i);
    }
  }

  /** Zero ranges make the bands meet at bar 1, where the up is misread; then they cross, and a down is read
      as an up although the close lies below the lower band. */
  lemma CrossedBandsFlipTheMisread()
    ensures var p := Input([10.0, 11.0, 10.0], [10.0, 9.0, 9.0], [10.0, 10.5, 9.8], [0.0, 0.0, 0.0], 3.0);
      && UpTakenForDown(p, 1) && DownTakenForUp(p, 2)
      && Upper(p, 2) == 9.5 && Lower(p, 2) == 10.0 && Between(p, 2)
  {
    var p := Input([10.0, 11.0, 10.0], [10.0, 9.0, 9.0], [10.0, 10.5, 9.8], [0.0, 0.0, 0.0], 3.0);
    assert Upper(p, 0) == 0.0 && Lower(p, 0) == 0.0 && Line(p, 0) == 0.0 && Automaton(p, 0) == Down;
    assert Upper(p, 1) == 10.0 && Lower(p, 1) == 10.0 && Line(p, 1) == 10.0 && Automaton(p, 1) == Up;
  }

  /** A gap makes them cross with a positive range too. */
  lemma GapCrossesBands()
    ensures var p := Input([10.0, 11.0, 21.0], [10.0, 9.0, 19.0], [10.0, 10.5, 20.0], [1.0, 1.0, 1.0], 2.0);
      Upper(p, 2) < Lower(p, 2)
  {
    var p := Input([10.0, 11.0, 21.0], [10.0, 9.0, 19.0], [10.0, 10.5, 20.0], [1.0, 1.0, 1.0], 2.0);
    assert Upper(p, 0) == 0.0 && Lower(p, 0) == 0.0;
    assert Upper(p, 1) == 12.0 && Lower(p, 1) == 8.0;
  }
}
