/** indicator/indicator.go: the trend of each row's month. A month is a number, the same for the rows whose
    times format to the same year and month. */
module MonthlyTrend {
  import opened Model

  /** The closes of a month's rows, in the order of the rows. */
  function ClosesOf(months: seq<int>, closes: seq<real>, month: int): seq<real>
    requires |months| == |closes|
  {
    if months == [] then []
    else
      var n := |months| - 1;
      var before := ClosesOf(months[..n], closes[..n], month);
      if months[n] == month then before + [closes[n]] else before
  }

  function ReturnRate(start: real, end: real): real
    requires start != 0.0
  {
    (end - start) / start * 100.0
  }

  predicate NearZero(x: real) {
    -0.00000001 < x < 0.00000001
  }

  function Classify(closes: seq<real>, threshold: real): Trend {
    if closes == [] || NearZero(closes[0]) then Sideways
    else
      var rate := ReturnRate(closes[0], closes[|closes| - 1]);
      if rate >= threshold then Bullish
      else if rate <= -threshold then Bearish
      else Sideways
  }

  datatype Month = Month(month: int, closes: seq<real>, trend: Trend)

  method GroupByMonth(months: seq<int>, closes: seq<real>) returns (monthly: map<int, seq<real>>)
    requires |months| == |closes|
    ensures forall m :: m in monthly <==> m in months
    ensures forall m :: m in monthly ==> monthly[m] == ClosesOf(months, closes, m)
  {
    monthly := map[];
    for i := 0 to |months|
      invariant forall m :: m in monthly <==> m in months[..i]
      invariant forall m :: m !in monthly ==> ClosesOf(months[..i], closes[..i], m) == []
      invariant forall m :: m in monthly ==> monthly[m] == ClosesOf(months[..i], closes[..i], m)
    {
      assert months[..i + 1][..i] == months[..i] && closes[..i + 1][..i] == closes[..i];
      var soFar := if months[i] in monthly then monthly[months[i]] else [];
      monthly := monthly[months[i] := soFar + [closes[i]]];
    }
    assert months[..|months|] == months && closes[..|closes|] == closes;
  }

  function TrendIn(listed: seq<Month>, month: int): Option<Trend> {
    if listed == [] then None
    else if listed[0].month == month then Some(listed[0].trend)
    else TrendIn(listed[1..], month)
  }

  lemma {:induction false} TrendInPlus(listed: seq<Month>, x: Month, month: int)
    ensures TrendIn(listed + [x], month) ==
      if TrendIn(listed, month).Some? then TrendIn(listed, month)
      else if x.month == month then Some(x.trend) else None
  {
    if listed != [] {
      TrendInPlus(listed[1..], x, month);
      assert (listed + [x])[1..] == listed[1..] + [x];
    } else {
      assert (listed + [x])[1..] == [];
    }
  }

  predicate InOrder(listed: seq<Month>) {
    forall i, j :: 0 <= i < j < |listed| ==> listed[i].month < listed[j].month
  }

  /** No month is listed twice. */
  predicate Distinct(listed: seq<Month>) {
    forall i, j :: 0 <= i < j < |listed| ==> listed[i].month != listed[j].month
  }

  lemma {:induction false} TrendInIsAnEntry(listed: seq<Month>, month: int)
    ensures TrendIn(listed, month).None? ==> forall x :: x in listed ==> x.month != month
    ensures TrendIn(listed, month).Some? ==> exists x :: x in listed && x.month == month && TrendIn(listed, month) == Some(x.trend)
  {
    if listed != [] {
      assert listed == [listed[0]] + listed[1..];
      TrendInIsAnEntry(listed[1..], month);
    }
  }

  lemma SameEntries(a: seq<Month>, b: seq<Month>, month: int)
    requires multiset(a) == multiset(b) && Distinct(a)
    ensures TrendIn(a, month) == TrendIn(b, month)
  {
    TrendInIsAnEntry(a, month);
    TrendInIsAnEntry(b, month);
    forall x: Month
      ensures x in a <==> x in b
    {
      assert x in a <==> x in multiset(a);
    }
  }

  lemma {:induction false} EntriesOccurOnce(listed: seq<Month>, x: Month)
    requires Distinct(listed)
    ensures multiset(listed)[x] <= 1
  {
    if listed != [] {
      var n := |listed| - 1;
      EntriesOccurOnce(listed[..n], x);
      assert listed == listed[..n] + [listed[n]];
      assert listed[n] !in listed[..n];
    }
  }

  lemma EntryIsUnique(listed: seq<Month>, sorted: seq<Month>, i: nat, j: nat)
    requires Distinct(listed) && multiset(sorted) == multiset(listed) && i < |sorted| && j < |sorted|
    requires sorted[i].month == sorted[j].month
    ensures sorted[i] == sorted[j]
  {
    assert sorted[i] in multiset(listed) && sorted[j] in multiset(listed);
  }

  /** The sort by month, which no two months compare equal under, changes no answer. */
  method SortByMonth(listed: seq<Month>) returns (sorted: seq<Month>)
    requires Distinct(listed)
    ensures InOrder(sorted)
    ensures forall m :: TrendIn(sorted, m) == TrendIn(listed, m)
  {
    sorted := SortBy(listed, (x: Month) => x.month);
    forall i: nat, j: nat | i < j < |sorted|
      ensures sorted[i].month < sorted[j].month
    {
      EntriesOccurOnce(listed, sorted[i]);
      if sorted[i].month == sorted[j].month {
        EntryIsUnique(listed, sorted, i, j);
      }
      SortedStrictly(sorted, (x: Month) => x.month, i, j);
    }
    forall m
      ensures TrendIn(sorted, m) == TrendIn(listed, m)
    {
      SameEntries(listed, sorted, m);
    }
  }

  function ClassIn(monthly: map<int, seq<real>>, month: int, threshold: real): Option<Trend> {
    if month in monthly then Some(Classify(monthly[month], threshold)) else None
  }

  /** The grouped months, the map being walked in any order and the list sorted: exactly the months of the
      map, each with the class of its closes. */
  method ClassifyMonths(monthly: map<int, seq<real>>, threshold: real) returns (listed: seq<Month>)
    ensures InOrder(listed)
    ensures forall m :: TrendIn(listed, m) == ClassIn(monthly, m, threshold)
  {
    var todo: set<int> := monthly.Keys;
    var walked: seq<Month> := [];
    while todo != {}
      invariant todo <= monthly.Keys
      invariant forall m :: TrendIn(walked, m) == if m in todo then None else ClassIn(monthly, m, threshold)
      invariant Distinct(walked) && forall i :: 0 <= i < |walked| ==> walked[i].month !in todo
      decreases todo
    {
      var month := Pick(todo);
      var cs := monthly[month];
      var trend := Sideways;
      if |cs| > 0 && !NearZero(cs[0]) {
        var rate := ReturnRate(cs[0], cs[|cs| - 1]);
        if rate >= threshold {
          trend := Bullish;
        } else if rate <= -threshold {
          trend := Bearish;
        }
      }
      assert trend == Classify(cs, threshold);
      var x := Month(month, cs, trend);
      ghost var before := walked;
      walked, todo := walked + [x], todo - {month};
      forall m
        ensures TrendIn(walked, m) == if m in todo then None else ClassIn(monthly, m, threshold)
      {
        TrendInPlus(before, x, m);
      }
    }
    listed := SortByMonth(walked);
  }

  /** The first listed month that is the row's, sideways when there is none. */
  method LookUp(listed: seq<Month>, month: int) returns (trend: Trend)
    ensures trend == if TrendIn(listed, month).Some? then TrendIn(listed, month).value else Sideways
  {
    trend := Sideways;
    assert listed[0..] == listed;
    for k := 0 to |listed|
      invariant TrendIn(listed, month) == TrendIn(listed[k..], month)
    {
      assert listed[k..][1..] == listed[k + 1..];
      if listed[k].month == month {
        return listed[k].trend;
      }
    }
  }

  method DetectMonthlyTrends(months: seq<int>, closes: seq<real>, threshold: real) returns (trends: array<Trend>)
    requires |months| == |closes|
    ensures trends.Length == |months|
    ensures forall i :: 0 <= i < |months| ==> trends[i] == Classify(ClosesOf(months, closes, months[i]), threshold)
  {
    var monthly := GroupByMonth(months, closes);
    var listed := ClassifyMonths(monthly, threshold);
    trends := new Trend[|months|];
    for i := 0 to |months|
      invariant forall j {:trigger trends[j]} :: 0 <= j < i ==>
        trends[j] == Classify(ClosesOf(months, closes, months[j]), threshold)
    {
      assert months[i] in months;
      trends[i] := LookUp(listed, months[i]);
    }
  }

  predicate FirstOf(months: seq<int>, month: int, f: nat) {
    f < |months| && months[f] == month && forall j :: 0 <= j < f ==> months[j] != month
  }

  predicate LastOf(months: seq<int>, month: int, l: nat) {
    l < |months| && months[l] == month && forall j :: l < j < |months| ==> months[j] != month
  }

  lemma {:induction false} NoneOf(months: seq<int>, closes: seq<real>, month: int)
    requires |months| == |closes| && forall j :: 0 <= j < |months| ==> months[j] != month
    ensures ClosesOf(months, closes, month) == []
  {
    if months != [] {
      NoneOf(months[..|months| - 1], closes[..|months| - 1], month);
    }
  }

  lemma {:induction false} FirstClose(months: seq<int>, closes: seq<real>, month: int, f: nat)
    requires |months| == |closes| && FirstOf(months, month, f)
    ensures ClosesOf(months, closes, month) != [] && ClosesOf(months, closes, month)[0] == closes[f]
  {
    var n := |months| - 1;
    if f < n {
      FirstClose(months[..n], closes[..n], month, f);
    } else {
      NoneOf(months[..n], closes[..n], month);
    }
  }

  lemma {:induction false} LastClose(months: seq<int>, closes: seq<real>, month: int, l: nat)
    requires |months| == |closes| && LastOf(months, month, l)
    ensures var cs := ClosesOf(months, closes, month); cs != [] && cs[|cs| - 1] == closes[l]
  {
    var n := |months| - 1;
    if l < n {
      LastClose(months[..n], closes[..n], month, l);
    }
  }

  function Margin(start: real, threshold: real): real {
    start * threshold / 100.0
  }

  lemma MarginPositive(start: real, threshold: real)
    requires start > 0.0 && threshold > 0.0
    ensures Margin(start, threshold) > 0.0
  {
  }

  lemma RateAtLeast(start: real, end: real, t: real)
    requires start > 0.0
    ensures ReturnRate(start, end) >= t <==> end - start >= Margin(start, t)
    ensures ReturnRate(start, end) <= -t <==> end - start <= -Margin(start, t)
  {
    var q := (end - start) / start;
    assert q * start == end - start;
    assert (q - t / 100.0) * start == end - start - Margin(start, t);
    assert (q + t / 100.0) * start == end - start + Margin(start, t);
  }

  lemma ClassOfEnds(closes: seq<real>, threshold: real)
    requires closes != [] && closes[0] >= 0.00000001 && threshold > 0.0
    ensures var trend, move := Classify(closes, threshold), closes[|closes| - 1] - closes[0];
      && (trend == Bullish <==> move >= Margin(closes[0], threshold))
      && (trend == Bearish <==> move <= -Margin(closes[0], threshold))
  {
    RateAtLeast(closes[0], closes[|closes| - 1], threshold);
    MarginPositive(closes[0], threshold);
  }

  /** A first close within 1e-8 of zero makes the month sideways, whatever follows. */
  lemma TinyStartIsSideways(closes: seq<real>, threshold: real)
    requires closes == [] || -0.00000001 < closes[0] < 0.00000001
    ensures Classify(closes, threshold) == Sideways
  {
  }

  /** What a row reads: its whole month's first close against its last one, which may come after the row. */
  lemma TrendComparesMonthEnds(months: seq<int>, closes: seq<real>, threshold: real, month: int, f: nat, l: nat)
    requires |months| == |closes| && FirstOf(months, month, f) && LastOf(months, month, l)
    requires closes[f] >= 0.00000001 && threshold > 0.0
    ensures var trend, margin := Classify(ClosesOf(months, closes, month), threshold), Margin(closes[f], threshold);
      && (trend == Bullish <==> closes[l] - closes[f] >= margin)
      && (trend == Bearish <==> closes[l] - closes[f] <= -margin)
  {
    FirstClose(months, closes, month, f);
    LastClose(months, closes, month, l);
    ClassOfEnds(ClosesOf(months, closes, month), threshold);
  }
}
