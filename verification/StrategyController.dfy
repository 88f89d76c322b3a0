/** strategy/controller.go and model/series.go: the dataframe a strategy is fed from, and the path a final
    bar takes from the aggregator to it. */
module StrategyController {
  import opened Model
  import opened CandleAggregator
  import opened CandleStream
  import Pagination
  import Tools

  datatype Row = Row(time: int, open: real, high: real, low: real, close: real, volume: real)

  function RowOf(c: Candle): Row {
    Row(c.time, c.open, c.high, c.low, c.close, c.volume)
  }

  predicate Late(rows: seq<Row>, c: Candle) {
    rows != [] && c.time < rows[|rows| - 1].time
  }

  /** The rows after one candle: late candles are dropped, a candle of the last row's time replaces it. */
  function Upsert(rows: seq<Row>, c: Candle): seq<Row> {
    if Late(rows, c) then rows
    else if rows != [] && c.time == rows[|rows| - 1].time then rows[..|rows| - 1] + [RowOf(c)]
    else rows + [RowOf(c)]
  }

  function RowsAfter(rows: seq<Row>, cs: seq<Candle>): seq<Row> {
    if cs == [] then rows else Upsert(RowsAfter(rows, cs[..|cs| - 1]), cs[|cs| - 1])
  }

  function LastOnes<T>(s: seq<T>, n: nat): seq<T> {
    if |s| > n then s[|s| - n..] else s
  }

  /** The last n elements, in order; all of them when there are no more. */
  lemma LastOnesAreLast<T>(s: seq<T>, n: nat)
    ensures var m := |LastOnes(s, n)|;
      m == (if |s| <= n then |s| else n) && forall i :: 0 <= i < m ==> LastOnes(s, n)[i] == s[|s| - m + i]
  {
  }

  /** The value of a dataframe's columns. */
  datatype Columns = Columns(
    close: seq<real>,
    open: seq<real>,
    high: seq<real>,
    low: seq<real>,
    volume: seq<real>,
    time: seq<int>)

  predicate Even(k: Columns) {
    |k.close| == |k.open| == |k.high| == |k.low| == |k.volume| == |k.time|
  }

  function ToRows(k: Columns): (rows: seq<Row>)
    requires Even(k)
    ensures |rows| == |k.time| && forall i :: 0 <= i < |rows| ==> rows[i].time == k.time[i]
  {
    seq(|k.time|, i requires 0 <= i < |k.time| =>
      Row(k.time[i], k.open[i], k.high[i], k.low[i], k.close[i], k.volume[i]))
  }

  /** The rows are the columns field by field, and a candle's row has the candle's fields. */
  lemma RowFields(k: Columns, i: nat, c: Candle)
    requires Even(k) && i < |k.time|
    ensures var r := ToRows(k)[i];
      && r.time == k.time[i] && r.open == k.open[i] && r.high == k.high[i]
      && r.low == k.low[i] && r.close == k.close[i] && r.volume == k.volume[i]
    ensures var r := RowOf(c);
      && r.time == c.time && r.open == c.open && r.high == c.high
      && r.low == c.low && r.close == c.close && r.volume == c.volume
  {
  }

  predicate EndWith(k: Columns, c: Candle)
    requires Even(k)
  {
    var n := |k.time|;
    && n > 0 && k.time[n - 1] == c.time && k.open[n - 1] == c.open && k.high[n - 1] == c.high
    && k.low[n - 1] == c.low && k.close[n - 1] == c.close && k.volume[n - 1] == c.volume
  }

  function Appended(k: Columns, c: Candle): Columns {
    Columns(k.close + [c.close], k.open + [c.open], k.high + [c.high], k.low + [c.low], k.volume + [c.volume], k.time + [c.time])
  }

  function Replaced(k: Columns, c: Candle): Columns
    requires Even(k) && k.time != []
  {
    var last := |k.time| - 1;
    Columns(k.close[last := c.close], k.open[last := c.open], k.high[last := c.high], k.low[last := c.low],
            k.volume[last := c.volume], k.time[last := c.time])
  }

  lemma AppendedRows(k: Columns, c: Candle)
    requires Even(k)
    ensures Even(Appended(k, c)) && EndWith(Appended(k, c), c)
    ensures ToRows(Appended(k, c)) == ToRows(k) + [RowOf(c)]
  {
  }

  lemma ReplacedRows(k: Columns, c: Candle)
    requires Even(k) && k.time != []
    ensures Even(Replaced(k, c)) && EndWith(Replaced(k, c), c)
    ensures ToRows(Replaced(k, c)) == ToRows(k)[..|k.time| - 1] + [RowOf(c)]
  {
  }

  lemma LastOfColumns(k: Columns, n: nat)
    requires Even(k)
    ensures var last := Columns(LastOnes(k.close, n), LastOnes(k.open, n), LastOnes(k.high, n),
                                LastOnes(k.low, n), LastOnes(k.volume, n), LastOnes(k.time, n));
      Even(last) && ToRows(last) == LastOnes(ToRows(k), n)
  {
    var last := Columns(LastOnes(k.close, n), LastOnes(k.open, n), LastOnes(k.high, n),
                        LastOnes(k.low, n), LastOnes(k.volume, n), LastOnes(k.time, n));
    var skipped := |k.time| - |last.time|;
    forall i | 0 <= i < |last.time|
      ensures ToRows(last)[i] == LastOnes(ToRows(k), n)[i]
    {
      assert ToRows(last)[i] == ToRows(k)[skipped + i];
    }
  }

  class Dataframe {
    var close: seq<real>
    var open: seq<real>
    var high: seq<real>
    var low: seq<real>
    var volume: seq<real>
    var time: seq<int>
    var lastUpdate: int

    function View(): Columns
      reads this
    {
      Columns(close, open, high, low, volume, time)
    }

    predicate Valid()
      reads this
    {
      Even(View())
    }

    function Rows(): seq<Row>
      reads this
      requires Valid()
    {
      ToRows(View())
    }

    /** LastUpdate is the time of the last row, although only an appended row sets it. */
    ghost predicate Stamped()
      reads this
    {
      lastUpdate == if time == [] then Tools.ZERO_TIME else time[|time| - 1]
    }

    constructor ()
      ensures Valid() && Stamped() && Rows() == []
    {
      close, open, high, low, volume, time := [], [], [], [], [], [];
      lastUpdate := Tools.ZERO_TIME;
    }

    /** The last `positions` rows, all of them when there are no more. */
    method Sample(positions: nat) returns (sample: Dataframe)
      requires Valid()
      ensures fresh(sample) && sample.Valid() && sample.lastUpdate == lastUpdate
      ensures sample.Rows() == LastOnes(Rows(), positions)
    {
      var start := |time| - positions;
      sample := new Dataframe();
      sample.lastUpdate := lastUpdate;
      if start <= 0 {
        sample.close, sample.open, sample.high, sample.low := close, open, high, low;
        sample.volume, sample.time := volume, time;
      } else {
        sample.close, sample.open := LastOnes(close, positions), LastOnes(open, positions);
        sample.high, sample.low := LastOnes(high, positions), LastOnes(low, positions);
        sample.volume, sample.time := LastOnes(volume, positions), time[start..];
      }
      LastOfColumns(View(), positions);
    }
  }

  class Controller {
    const dataframe: Dataframe
    const warmupPeriod: nat
    var started: bool

    constructor (warmupPeriod: nat)
      ensures this.warmupPeriod == warmupPeriod && !started && fresh(dataframe)
      ensures dataframe.Valid() && dataframe.Stamped() && dataframe.Rows() == []
    {
      this.warmupPeriod := warmupPeriod;
      started := false;
      dataframe := new Dataframe();
    }

    method Start()
      modifies this
      ensures started
    {
      started := true;
    }

    method UpdateDataFrame(candle: Candle)
      requires dataframe.Valid() && dataframe.Stamped() && !Late(dataframe.Rows(), candle)
      modifies dataframe
      ensures dataframe.Valid() && dataframe.Stamped()
      ensures dataframe.Rows() == Upsert(old(dataframe.Rows()), candle)
      ensures EndWith(dataframe.View(), candle)
    {
      ghost var before := dataframe.View();
      if |dataframe.time| > 0 && candle.time == dataframe.time[|dataframe.time| - 1] {
        var last := |dataframe.time| - 1;
        dataframe.close := dataframe.close[last := candle.close];
        dataframe.open := dataframe.open[last := candle.open];
        dataframe.high := dataframe.high[last := candle.high];
        dataframe.low := dataframe.low[last := candle.low];
        dataframe.volume := dataframe.volume[last := candle.volume];
        dataframe.time := dataframe.time[last := candle.time];
        assert dataframe.View() == Replaced(before, candle);
        ReplacedRows(before, candle);
      } else {
        dataframe.close := dataframe.close + [candle.close];
        dataframe.open := dataframe.open + [candle.open];
        dataframe.high := dataframe.high + [candle.high];
        dataframe.low := dataframe.low + [candle.low];
        dataframe.volume := dataframe.volume + [candle.volume];
        dataframe.time := dataframe.time + [candle.time];
        dataframe.lastUpdate := candle.time;
        assert dataframe.View() == Appended(before, candle);
        AppendedRows(before, candle);
      }
    }

    /** What the indicators are computed on, and what the strategy decides on. */
    method OnCandle(candle: Candle) returns (indicators: Option<seq<Row>>, decision: Option<seq<Row>>)
      requires dataframe.Valid() && dataframe.Stamped()
      modifies dataframe
      ensures dataframe.Valid() && dataframe.Stamped()
      ensures dataframe.Rows() == Upsert(old(dataframe.Rows()), candle)
      ensures indicators ==
        if Late(old(dataframe.Rows()), candle) || |dataframe.Rows()| < warmupPeriod then None
        else Some(LastOnes(dataframe.Rows(), warmupPeriod))
      ensures decision == if started then indicators else None
      ensures indicators.Some? ==> |indicators.value| == warmupPeriod
    {
      indicators, decision := None, None;
      if |dataframe.time| > 0 && candle.time < dataframe.time[|dataframe.time| - 1] {
        return;
      }
      UpdateDataFrame(candle);
      if |dataframe.close| >= warmupPeriod {
        var sample := dataframe.Sample(warmupPeriod);
        indicators := Some(sample.Rows());
        if started {
          decision := indicators;
        }
      }
    }
  }

  // --- Any run of candles --------------------------------------------------------------------------

  predicate Ascending(rows: seq<Row>) {
    forall i, j :: 0 <= i < j < |rows| ==> rows[i].time < rows[j].time
  }

  /** Candle i is no older than any that came before it, dropped ones included. */
  predicate Timely(cs: seq<Candle>, i: nat) {
    i < |cs| && forall j :: 0 <= j < i ==> cs[j].time <= cs[i].time
  }

  /** Candle i is timely, and no later timely candle has its time. */
  ghost predicate Stands(cs: seq<Candle>, i: nat) {
    Timely(cs, i) && forall j: nat :: i < j && Timely(cs, j) ==> cs[j].time != cs[i].time
  }

  ghost predicate IsRow(cs: seq<Candle>, row: Row) {
    exists i: nat :: Stands(cs, i) && RowOf(cs[i]) == row
  }

  /** One more candle: a late one changes nothing that stands; a timely one stands, and displaces at most
      the one of its own time. */
  lemma StandsStep(cs: seq<Candle>, i: nat)
    requires cs != []
    ensures var n, c := |cs| - 1, cs[|cs| - 1];
      Stands(cs, i) <==> if Timely(cs, n) then i == n || (Stands(cs[..n], i) && cs[i].time != c.time)
                         else Stands(cs[..n], i)
  {
  }

  lemma IsRowStep(cs: seq<Candle>, row: Row)
    requires cs != []
    ensures var n, c := |cs| - 1, cs[|cs| - 1];
      IsRow(cs, row) <==> if Timely(cs, n) then row == RowOf(c) || (IsRow(cs[..n], row) && row.time != c.time)
                          else IsRow(cs[..n], row)
  {
    var n := |cs| - 1;
    forall i: nat
      ensures Stands(cs, i) <==>
        if Timely(cs, n) then i == n || (Stands(cs[..n], i) && cs[i].time != cs[n].time) else Stands(cs[..n], i)
    {
      StandsStep(cs, i);
    }
    if IsRow(cs[..n], row) {
      var i: nat :| Stands(cs[..n], i) && RowOf(cs[..n][i]) == row;
      assert RowOf(cs[i]) == row;
      assert Stands(cs, i) || cs[i].time == cs[n].time;
    }
    if Timely(cs, n) {
      assert Stands(cs, n);
    }
  }

  lemma UpsertMembers(rows: seq<Row>, c: Candle, row: Row)
    requires Ascending(rows)
    ensures Ascending(Upsert(rows, c))
    ensures row in Upsert(rows, c) <==>
      if Late(rows, c) then row in rows else row == RowOf(c) || (row in rows && row.time != c.time)
  {
  }

  function LatestTime(cs: seq<Candle>): int
    requires cs != []
  {
    var n := |cs| - 1;
    if n == 0 || LatestTime(cs[..n]) < cs[n].time then cs[n].time else LatestTime(cs[..n])
  }

  lemma {:induction false} TimelyIffLatest(cs: seq<Candle>, t: int)
    requires cs != []
    ensures LatestTime(cs) <= t <==> forall j :: 0 <= j < |cs| ==> cs[j].time <= t
  {
    var n := |cs| - 1;
    if n > 0 {
      TimelyIffLatest(cs[..n], t);
      assert LatestTime(cs) <= t <==> LatestTime(cs[..n]) <= t && cs[n].time <= t;
      if LatestTime(cs) <= t {
        forall j | 0 <= j < n
          ensures cs[j].time <= t
        {
          assert cs[..n][j].time <= t;
        }
      }
    }
  }

  lemma {:induction false} LastRowIsLatest(cs: seq<Candle>)
    requires cs != []
    ensures RowsAfter([], cs) != []
    ensures RowsAfter([], cs)[|RowsAfter([], cs)| - 1].time == LatestTime(cs)
  {
    if |cs| > 1 {
      LastRowIsLatest(cs[..|cs| - 1]);
    }
  }

  /** A candle is dropped exactly when it is not timely. */
  lemma LatenessIsExact(cs: seq<Candle>)
    requires cs != []
    ensures Late(RowsAfter([], cs[..|cs| - 1]), cs[|cs| - 1]) <==> !Timely(cs, |cs| - 1)
  {
    var n := |cs| - 1;
    if n > 0 {
      LastRowIsLatest(cs[..n]);
      TimelyIffLatest(cs[..n], cs[n].time);
      assert Timely(cs, n) <==> forall j :: 0 <= j < n ==> cs[..n][j].time <= cs[n].time;
    }
  }

  /** From an empty frame, the rows are in strictly ascending time and are exactly the timely candles,
      the last write of each time winning. */
  lemma {:induction false} RowsAreWhatStands(cs: seq<Candle>, row: Row)
    ensures Ascending(RowsAfter([], cs))
    ensures row in RowsAfter([], cs) <==> IsRow(cs, row)
  {
    if cs != [] {
      var n := |cs| - 1;
      RowsAreWhatStands(cs[..n], row);
      LatenessIsExact(cs);
      IsRowStep(cs, row);
      UpsertMembers(RowsAfter([], cs[..n]), cs[n], row);
    }
  }

  // --- From the aggregator to the dataframe --------------------------------------------------------

  /** What handleCandle1s sends for a stream of seconds: bars with some volume, partial before final. */
  function Sent(s: State, cs: seq<Candle>): seq<Candle> {
    if cs == [] then []
    else
      var p := Push(Run(s, cs[..|cs| - 1]), cs[|cs| - 1]);
      Sent(s, cs[..|cs| - 1])
        + (if p.partial.volume > 0.0 then [p.partial] else [])
        + (if p.isFinal && p.final.volume > 0.0 then [p.final] else [])
  }

  /** What the data feed passes on to a subscriber of closed bars. */
  function Closed(cs: seq<Candle>): seq<Candle> {
    if cs == [] then []
    else if cs[|cs| - 1].complete then Closed(cs[..|cs| - 1]) + [cs[|cs| - 1]]
    else Closed(cs[..|cs| - 1])
  }

  /** Exactly the bars with some volume are traded, as often as they occur. */
  lemma {:induction false} TradedHaveVolume(cs: seq<Candle>, c: Candle)
    ensures multiset(Traded(cs))[c] == if c.volume > 0.0 then multiset(cs)[c] else 0
  {
    if cs != [] {
      TradedHaveVolume(cs[..|cs| - 1], c);
      assert cs == cs[..|cs| - 1] + [cs[|cs| - 1]];
    }
  }

  function Traded(cs: seq<Candle>): seq<Candle> {
    if cs == [] then []
    else if cs[|cs| - 1].volume > 0.0 then Traded(cs[..|cs| - 1]) + [cs[|cs| - 1]]
    else Traded(cs[..|cs| - 1])
  }

  lemma ClosedPlus(cs: seq<Candle>, c: Candle)
    ensures Closed(cs + [c]) == if c.complete then Closed(cs) + [c] else Closed(cs)
  {
  }

  lemma TradedPlus(cs: seq<Candle>, c: Candle)
    ensures Traded(cs + [c]) == if c.volume > 0.0 then Traded(cs) + [c] else Traded(cs)
  {
  }

  lemma PushedFlags(s: State, c: Candle)
    requires Started(s)
    ensures !Push(s, c).partial.complete
    ensures Push(s, c).isFinal ==> Push(s, c).final.complete && Push(s, c).final.time == s.key - s.d
  {
  }

  /** The strategy is fed exactly the final bars with some volume, in order. */
  lemma {:induction false} StrategySeesTradedFinals(s: State, cs: seq<Candle>)
    requires Started(s)
    ensures Closed(Sent(s, cs)) == Traded(Finals(s, cs))
  {
    if cs != [] {
      var init := cs[..|cs| - 1];
      var p := Push(Run(s, init), cs[|cs| - 1]);
      RunBucket(s, init);
      PushedFlags(Run(s, init), cs[|cs| - 1]);
      StrategySeesTradedFinals(s, init);
      ClosedPlus(Sent(s, init), p.partial);
      var sent := if p.partial.volume > 0.0 then Sent(s, init) + [p.partial] else Sent(s, init);
      ClosedPlus(sent, p.final);
      TradedPlus(Finals(s, init), p.final);
      assert Sent(s, cs) == if p.isFinal && p.final.volume > 0.0 then sent + [p.final] else sent;
      assert Finals(s, cs) == if p.isFinal then Finals(s, init) + [p.final] else Finals(s, init);
    }
  }

  /** On the one-second timeframe the strategy is fed the traded seconds themselves. */
  lemma {:induction false} SecondsPassThrough(s: State, cs: seq<Candle>)
    requires s.d == 0 && forall c :: c in cs ==> c.complete
    ensures Run(s, cs).d == 0
    ensures Closed(Sent(s, cs)) == Traded(cs)
  {
    if cs != [] {
      var init, c := cs[..|cs| - 1], cs[|cs| - 1];
      SecondsPassThrough(s, init);
      ClosedPlus(Sent(s, init), c);
      assert Sent(s, cs) == if c.volume > 0.0 then Sent(s, init) + [c] else Sent(s, init);
    }
  }

  /** Every final bar, and so every delivered one, is younger than those before. */
  predicate Younger(cs: seq<Candle>) {
    forall i, j :: 0 <= i < j < |cs| ==> cs[i].time < cs[j].time
  }

  lemma {:induction false} FinalTimes(s: State, cs: seq<Candle>, k: nat)
    requires Started(s) && k < |Finals(s, cs)|
    ensures Finals(s, cs)[k].time == BucketStart(s, k)
  {
    var init := cs[..|cs| - 1];
    RunBucket(s, init);
    PushedFlags(Run(s, init), cs[|cs| - 1]);
    if k < |Finals(s, init)| {
      FinalTimes(s, init, k);
    }
  }

  lemma FinalsYounger(s: State, cs: seq<Candle>)
    requires Started(s)
    ensures Younger(Finals(s, cs))
    ensures forall k :: 0 <= k < |Finals(s, cs)| ==> s.key - s.d <= Finals(s, cs)[k].time
  {
    forall k: nat | k < |Finals(s, cs)|
      ensures Finals(s, cs)[k].time == BucketStart(s, k) && s.key - s.d <= BucketStart(s, k)
    {
      FinalTimes(s, cs, k);
      BucketsAscend(s, 0, k);
    }
    forall i: nat, j: nat | i < j < |Finals(s, cs)|
      ensures Finals(s, cs)[i].time < Finals(s, cs)[j].time
    {
      BucketsAscend(s, i + 1, j);
    }
  }

  lemma {:induction false} TradedYounger(cs: seq<Candle>)
    requires Younger(cs)
    ensures Younger(Traded(cs))
    ensures forall c :: c in Traded(cs) ==> c in cs
  {
    if cs != [] {
      var init, traded := cs[..|cs| - 1], Traded(cs[..|cs| - 1]);
      TradedYounger(init);
      forall i | 0 <= i < |traded|
        ensures traded[i].time < cs[|cs| - 1].time
      {
        assert traded[i] in init;
      }
    }
  }

  function RowsOf(cs: seq<Candle>): seq<Row> {
    seq(|cs|, i requires 0 <= i < |cs| => RowOf(cs[i]))
  }

  /** The rows left standing once candles from time t on arrive. */
  function Before(rows: seq<Row>, t: int): seq<Row> {
    if rows != [] && rows[|rows| - 1].time == t then rows[..|rows| - 1] else rows
  }

  predicate NoneLate(rows: seq<Row>, cs: seq<Candle>) {
    forall k :: 0 <= k < |cs| ==> !Late(RowsAfter(rows, cs[..k]), cs[k])
  }

  lemma AppendRow(rows: seq<Row>, cs: seq<Candle>, c: Candle)
    requires cs != [] && cs[|cs| - 1].time < c.time
    ensures !Late(rows + RowsOf(cs), c)
    ensures Upsert(rows + RowsOf(cs), c) == rows + RowsOf(cs + [c])
  {
  }

  lemma NoneLateExtends(rows: seq<Row>, cs: seq<Candle>)
    requires cs != [] && NoneLate(rows, cs[..|cs| - 1])
    requires !Late(RowsAfter(rows, cs[..|cs| - 1]), cs[|cs| - 1])
    ensures NoneLate(rows, cs)
  {
    var init := cs[..|cs| - 1];
    forall k | 0 <= k < |cs|
      ensures !Late(RowsAfter(rows, cs[..k]), cs[k])
    {
      if k < |init| {
        assert init[..k] == cs[..k] && init[k] == cs[k];
      }
    }
  }

  lemma {:induction false} YoungerAreAppended(rows: seq<Row>, cs: seq<Candle>)
    requires Younger(cs) && cs != [] && !Late(rows, cs[0])
    ensures NoneLate(rows, cs)
    ensures RowsAfter(rows, cs) == Before(rows, cs[0].time) + RowsOf(cs)
  {
    var n := |cs| - 1;
    assert cs == cs[..n] + [cs[n]];
    if n == 0 {
      assert RowsAfter(rows, cs[..0]) == rows;
    } else {
      YoungerAreAppended(rows, cs[..n]);
      AppendRow(Before(rows, cs[0].time), cs[..n], cs[n]);
      NoneLateExtends(rows, cs);
    }
  }

  /** Preloaded with rows up to the open bucket's, the dataframe drops no bar the aggregator will ever
      emit: it grows by one row for each bucket traded in, in order. Only the first of them can replace a
      row, the preloaded one of the open bucket. */
  lemma {:induction false} FinalsAreNeverLate(s: State, cs: seq<Candle>, rows: seq<Row>)
    requires Started(s) && (rows == [] || rows[|rows| - 1].time <= s.key - s.d)
    ensures var fed := Closed(Sent(s, cs));
      && NoneLate(rows, fed)
      && fed == Traded(Finals(s, cs))
      && (fed != [] ==> RowsAfter(rows, fed) == Before(rows, fed[0].time) + RowsOf(fed))
  {
    var fed := Traded(Finals(s, cs));
    StrategySeesTradedFinals(s, cs);
    FinalsYounger(s, cs);
    TradedYounger(Finals(s, cs));
    if fed != [] {
      assert fed[0] in Finals(s, cs);
      YoungerAreAppended(rows, fed);
    }
  }

  /** The condition on the preloaded rows is needed: any later last row makes a first traded bar late. */
  lemma FirstFinalLateIff(s: State, cs: seq<Candle>, rows: seq<Row>)
    requires Started(s) && Finals(s, cs) != [] && Finals(s, cs)[0].volume > 0.0
    ensures NoneLate(rows, Closed(Sent(s, cs))) <==> rows == [] || rows[|rows| - 1].time <= s.key - s.d
  {
    FinalTimes(s, cs, 0);
    StrategySeesTradedFinals(s, cs);
    FirstTraded(Finals(s, cs));
    if rows == [] || rows[|rows| - 1].time <= s.key - s.d {
      FinalsAreNeverLate(s, cs, rows);
    } else {
      assert RowsAfter(rows, Traded(Finals(s, cs))[..0]) == rows;
    }
  }

  lemma {:induction false} FirstTraded(cs: seq<Candle>)
    requires cs != [] && cs[0].volume > 0.0
    ensures Traded(cs) != [] && Traded(cs)[0] == cs[0]
  {
    if |cs| > 1 {
      FirstTraded(cs[..|cs| - 1]);
    }
  }

  /** A point of the timeframe's grid lies at t or between t and now. */
  ghost predicate GridPointFrom(t: int, now: int, d: int)
    requires d > 0
  {
    exists p :: Tools.OnGrid(p, d) && t <= p < now
  }

  /** A bar older than the instant at which the aggregator is set up starts no later than its open bucket
      exactly when a grid point lies in between; for a bar on the grid that is its own start. */
  lemma PreloadedBarIsEarlyIff(t: int, now: int, d: int)
    requires d > 0 && Tools.DAY % d == 0
    ensures t <= Tools.NextKey(now, d) - d <==> GridPointFrom(t, now, d)
  {
    var open := Tools.NextKey(now, d) - d;
    Tools.NextKeyIsLeastGridPoint(now, d);
    Tools.OnGridBefore(Tools.NextKey(now, d), d);
    if GridPointFrom(t, now, d) {
      var p :| Tools.OnGrid(p, d) && t <= p < now;
      if p > open {
        Tools.GridPointsApart(p, Tools.NextKey(now, d), d);
      }
    }
  }

  /** Where every bar of the exchange's history starts on the timeframe's grid, the bars older than the
      instant at which the aggregator is set up start no later than its open bucket. */
  lemma PreloadedBarsAreEarly(t: int, now: int, d: int)
    requires d > 0 && Tools.DAY % d == 0 && Tools.OnGrid(t, d) && t < now
    ensures t <= Tools.NextKey(now, d) - d
  {
    PreloadedBarIsEarlyIff(t, now, d);
  }

  lemma PreloadedWindow(history: seq<Candle>, start: int, end: int, now: int, d: int)
    requires Pagination.Ascending(history) && d > 0 && Tools.DAY % d == 0 && end <= now
    requires forall c :: c in history ==> Tools.OnGrid(c.time, d)
    ensures var window := Pagination.InWindow(history, start, end);
      Younger(window) && (window != [] ==> window[|window| - 1].time <= Tools.NextKey(now, d) - d)
  {
    var window := Pagination.InWindow(history, start, end);
    Pagination.InWindowExactly(history, start, end);
    if window != [] {
      var last := window[|window| - 1];
      assert last in window;
      PreloadedBarsAreEarly(last.time, now, d);
    }
  }

  lemma PreloadedRows(window: seq<Candle>)
    requires Younger(window)
    ensures RowsAfter([], window) == RowsOf(window)
  {
    if window != [] {
      YoungerAreAppended([], window);
    }
  }

  /** The bot as it is set up: the dataframe is preloaded with the bars of a window up to `end`, the
      aggregator subscribed at `now`, not before. The preload leaves one row a bar, and whatever the
      seconds to come, no final bar is late. */
  lemma SetUpDropsNoBar(history: seq<Candle>, start: int, end: int, now: int, s: State, cs: seq<Candle>)
    requires Pagination.Ascending(history) && Started(s) && Tools.DAY % s.d == 0
    requires forall c :: c in history ==> Tools.OnGrid(c.time, s.d)
    requires end <= now && Tools.NextKey(now, s.d) <= s.key
    ensures var window := Pagination.InWindow(history, start, end);
      RowsAfter([], window) == RowsOf(window) && NoneLate(RowsOf(window), Closed(Sent(s, cs)))
  {
    var window := Pagination.InWindow(history, start, end);
    PreloadedWindow(history, start, end, now, s.d);
    PreloadedRows(window);
    FinalsAreNeverLate(s, cs, RowsOf(window));
  }

  predicate EndsBy(window: seq<Candle>, t: int) {
    window == [] || window[|window| - 1].time <= t
  }

  ghost predicate EndsOnGrid(window: seq<Candle>, now: int, d: int)
    requires d > 0
  {
    window == [] || GridPointFrom(window[|window| - 1].time, now, d)
  }

  lemma EndsOnGridIff(window: seq<Candle>, now: int, d: int)
    requires d > 0 && Tools.DAY % d == 0
    ensures EndsBy(window, Tools.NextKey(now, d) - d) <==> EndsOnGrid(window, now, d)
  {
    if window != [] {
      PreloadedBarIsEarlyIff(window[|window| - 1].time, now, d);
    }
  }

  lemma RowsEndBy(window: seq<Candle>, t: int)
    ensures EndsBy(window, t) <==> RowsOf(window) == [] || RowsOf(window)[|window| - 1].time <= t
  {
  }

  lemma FirstFinalLateAfter(window: seq<Candle>, s: State, cs: seq<Candle>)
    requires Started(s) && Finals(s, cs) != [] && Finals(s, cs)[0].volume > 0.0
    ensures NoneLate(RowsOf(window), Closed(Sent(s, cs))) <==> EndsBy(window, s.key - s.d)
  {
    RowsEndBy(window, s.key - s.d);
    FirstFinalLateIff(s, cs, RowsOf(window));
  }

  /** Whatever grid the preloaded bars start on, and the first bar being traded: no bar is late exactly when
      a point of the timeframe's grid lies between the last preloaded bar's start and the set-up. */
  lemma SetUpDropsNoBarIff(window: seq<Candle>, now: int, s: State, cs: seq<Candle>)
    requires Started(s) && Tools.DAY % s.d == 0 && s.key == Tools.NextKey(now, s.d)
    requires Finals(s, cs) != [] && Finals(s, cs)[0].volume > 0.0
    ensures NoneLate(RowsOf(window), Closed(Sent(s, cs))) <==> EndsOnGrid(window, now, s.d)
  {
    EndsOnGridIff(window, now, s.d);
    FirstFinalLateAfter(window, s, cs);
  }

  /** Daily bars that start at nine in the morning, set up at ten: the preloaded bar of the day is younger
      than the bucket opened at midnight. */
  lemma NineOClockBarIsTooYoung()
    ensures var nine, ten := 9 * 3600 - Tools.KST_OFFSET, 10 * 3600 - Tools.KST_OFFSET;
      !GridPointFrom(nine, ten, Tools.DAY)
  {
  }
}