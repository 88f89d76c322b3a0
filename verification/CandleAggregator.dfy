/** exchange/upbit.go: folding one-second candles into the bars of a timeframe. The class keeps the
    source's mutable form; `Push` is the function its contract is stated with. */
module CandleAggregator {
  import opened Model
  import Tools

  ghost predicate KeyedByTime(m: map<int, Candle>) {
    forall t :: t in m ==> m[t].time == t
  }

  // --- The bar of an interval, read off second by second -------------------------------------------

  /** b followed by the later second s. */
  function Extend(b: Candle, s: Candle): Candle {
    b.(high := if s.high > b.high then s.high else b.high,
       low := if s.low < b.low then s.low else b.low,
       close := s.close,
       volume := b.volume + s.volume)
  }

  /** The seconds lo <= t < hi recorded in m, merged in the order of time. */
  function Bar(m: map<int, Candle>, lo: int, hi: int): Option<Candle>
    decreases hi - lo
  {
    if hi <= lo then None
    else
      var before := Bar(m, lo, hi - 1);
      if hi - 1 !in m then before
      else if before.None? then Some(m[hi - 1])
      else Some(Extend(before.value, m[hi - 1]))
  }

  function EmptyCandle(pair: string, time: int): Candle {
    Candle(pair, time, 0.0, 0.0, 0.0, 0.0, 0.0, false)
  }

  /** Partial bar: closed on the left, open on the right, stamped with its right end. */
  function PartialOf(pair: string, m: map<int, Candle>, start: int, now: int): Candle {
    match Bar(m, start, now)
    case None => EmptyCandle(pair, now)
    case Some(b) => b.(time := now, complete := false)
  }

  /** Final bar of the bucket [start, start + d), as coded: the second at start itself is left out. */
  function FinalOf(pair: string, m: map<int, Candle>, start: int, d: int): Candle {
    match Bar(m, start + 1, start + d)
    case None => EmptyCandle(pair, start).(complete := true)
    case Some(b) => b.(time := start, complete := true)
  }

  /** Without the interval removeOldSeconds clears, which is closed on the left. */
  function WithoutBucket(m: map<int, Candle>, start: int, d: int): map<int, Candle> {
    map t | t in m && !(start <= t < start + d) :: m[t]
  }

  // --- One push ------------------------------------------------------------------------------------

  datatype State = State(pair: string, d: int, buffer: map<int, Candle>, key: int)

  datatype Pushed = Pushed(next: State, partial: Candle, final: Candle, isFinal: bool)

  const ZERO_CANDLE := EmptyCandle("", Tools.ZERO_TIME)

  function Push(s: State, c: Candle): Pushed {
    var buffer := s.buffer[c.time := c];
    if s.d == 0 then
      Pushed(s.(buffer := buffer), c, ZERO_CANDLE, true)
    else
      var key := if s.key == Tools.ZERO_TIME then Tools.NextKey(c.time, s.d) else s.key;
      var partial := PartialOf(s.pair, buffer, key - s.d, c.time);
      if c.time < key then
        Pushed(s.(buffer := buffer, key := key), partial, ZERO_CANDLE, false)
      else
        Pushed(s.(buffer := WithoutBucket(buffer, key - s.d, s.d), key := key + s.d),
               partial, FinalOf(s.pair, buffer, key - s.d, s.d), true)
  }

  // --- Sorting the collected seconds gives the bar, whatever order the map is walked in ------------

  function BarOf(secs: seq<Candle>): Candle
    requires secs != []
  {
    var n := |secs|;
    if n == 1 then secs[0] else Extend(BarOf(secs[..n - 1]), secs[n - 1])
  }

  ghost function Recorded(m: map<int, Candle>, keys: set<int>): set<Candle>
    requires keys <= m.Keys
  {
    set t | t in keys :: m[t]
  }

  ghost function KeysIn(m: map<int, Candle>, lo: int, hi: int): set<int> {
    set t | t in m && lo <= t < hi
  }

  lemma RecordedPlus(m: map<int, Candle>, keys: set<int>, t: int)
    requires KeyedByTime(m) && keys <= m.Keys && t in m && t !in keys
    ensures multiset(Recorded(m, keys + {t})) == multiset(Recorded(m, keys)) + multiset{m[t]}
  {
  }

  ghost predicate Holds(m: map<int, Candle>, lo: int, hi: int, secs: seq<Candle>) {
    multiset(secs) == multiset(Recorded(m, KeysIn(m, lo, hi)))
  }

  lemma HeldSeconds(m: map<int, Candle>, lo: int, hi: int, secs: seq<Candle>)
    requires KeyedByTime(m) && Holds(m, lo, hi, secs)
    ensures forall i :: 0 <= i < |secs| ==> lo <= secs[i].time < hi && secs[i].time in m && secs[i] == m[secs[i].time]
    ensures forall t :: t in m && lo <= t < hi ==> m[t] in secs
  {
    var recorded := Recorded(m, KeysIn(m, lo, hi));
    forall i | 0 <= i < |secs|
      ensures lo <= secs[i].time < hi && secs[i].time in m && secs[i] == m[secs[i].time]
    {
      assert secs[i] in multiset(secs);
      assert secs[i] in recorded;
    }
    forall t | t in m && lo <= t < hi
      ensures m[t] in secs
    {
      assert t in KeysIn(m, lo, hi);
      assert m[t] in recorded;
      assert m[t] in multiset(secs);
    }
  }

  /** The second hi - 1, when recorded, is the last one of the sorted list. */
  lemma SplitLastSecond(m: map<int, Candle>, lo: int, hi: int, secs: seq<Candle>)
    requires KeyedByTime(m) && SortedByTime(secs) && Holds(m, lo, hi, secs) && lo < hi && hi - 1 in m
    ensures secs != [] && secs[|secs| - 1] == m[hi - 1]
    ensures Holds(m, lo, hi - 1, secs[..|secs| - 1])
  {
    var n := |secs|;
    HeldSeconds(m, lo, hi, secs);
    assert m[hi - 1] in secs;
    assert secs[n - 1] == m[hi - 1];
    assert secs == secs[..n - 1] + [secs[n - 1]];
    var earlier := KeysIn(m, lo, hi - 1);
    assert KeysIn(m, lo, hi) == earlier + {hi - 1};
    RecordedPlus(m, earlier, hi - 1);
    assert multiset(secs) - multiset{m[hi - 1]} == multiset(secs[..n - 1]);
    assert multiset(Recorded(m, KeysIn(m, lo, hi))) - multiset{m[hi - 1]} == multiset(Recorded(m, earlier));
  }

  lemma {:induction false} SortedSecondsMakeTheBar(m: map<int, Candle>, lo: int, hi: int, secs: seq<Candle>)
    requires KeyedByTime(m) && SortedByTime(secs) && Holds(m, lo, hi, secs)
    ensures Bar(m, lo, hi) == if secs == [] then None else Some(BarOf(secs))
    decreases hi - lo
  {
    if hi <= lo {
      HeldSeconds(m, lo, hi, secs);
      assert secs == [];
    } else if hi - 1 in m {
      SplitLastSecond(m, lo, hi, secs);
      SortedSecondsMakeTheBar(m, lo, hi - 1, secs[..|secs| - 1]);
    } else {
      assert KeysIn(m, lo, hi) == KeysIn(m, lo, hi - 1);
      SortedSecondsMakeTheBar(m, lo, hi - 1, secs);
    }
  }

  // --- What a bar is -------------------------------------------------------------------------------

  function VolumeAt(m: map<int, Candle>, t: int): real {
    if t in m then m[t].volume else 0.0
  }

  function VolumeIn(m: map<int, Candle>, lo: int, hi: int): real
    decreases hi - lo
  {
    if hi <= lo then 0.0 else VolumeIn(m, lo, hi - 1) + VolumeAt(m, hi - 1)
  }

  ghost predicate Earliest(m: map<int, Candle>, lo: int, hi: int, t: int) {
    lo <= t < hi && t in m && forall u :: lo <= u < hi && u in m ==> t <= u
  }

  ghost predicate Latest(m: map<int, Candle>, lo: int, hi: int, t: int) {
    lo <= t < hi && t in m && forall u :: lo <= u < hi && u in m ==> u <= t
  }

  ghost predicate Highest(m: map<int, Candle>, lo: int, hi: int, t: int) {
    lo <= t < hi && t in m && forall u :: lo <= u < hi && u in m ==> m[u].high <= m[t].high
  }

  ghost predicate Lowest(m: map<int, Candle>, lo: int, hi: int, t: int) {
    lo <= t < hi && t in m && forall u :: lo <= u < hi && u in m ==> m[t].low <= m[u].low
  }

  /** Open of the earliest second, close of the latest, highest high, lowest low, total volume. */
  lemma {:induction false} BarIsOhlcv(m: map<int, Candle>, lo: int, hi: int)
    ensures Bar(m, lo, hi).None? <==> forall t :: lo <= t < hi ==> t !in m
    ensures Bar(m, lo, hi).Some? ==>
      var b := Bar(m, lo, hi).value;
      && (exists t :: Earliest(m, lo, hi, t) && b.open == m[t].open && b.pair == m[t].pair)
      && (exists t :: Latest(m, lo, hi, t) && b.close == m[t].close)
      && (exists t :: Highest(m, lo, hi, t) && b.high == m[t].high)
      && (exists t :: Lowest(m, lo, hi, t) && b.low == m[t].low)
    ensures VolumeIn(m, lo, hi) == if Bar(m, lo, hi).None? then 0.0 else Bar(m, lo, hi).value.volume
    decreases hi - lo
  {
    if lo < hi {
      BarIsOhlcv(m, lo, hi - 1);
      var before := Bar(m, lo, hi - 1);
      if hi - 1 in m {
        assert Latest(m, lo, hi, hi - 1);
        if before.None? {
          assert Earliest(m, lo, hi, hi - 1) && Highest(m, lo, hi, hi - 1) && Lowest(m, lo, hi, hi - 1);
        } else {
          var b := before.value;
          var f :| Earliest(m, lo, hi - 1, f) && b.open == m[f].open && b.pair == m[f].pair;
          var h :| Highest(m, lo, hi - 1, h) && b.high == m[h].high;
          var l :| Lowest(m, lo, hi - 1, l) && b.low == m[l].low;
          assert Earliest(m, lo, hi, f);
          assert Highest(m, lo, hi, if m[hi - 1].high > b.high then hi - 1 else h);
          assert Lowest(m, lo, hi, if m[hi - 1].low < b.low then hi - 1 else l);
        }
      } else if before.Some? {
        var b := before.value;
        var f :| Earliest(m, lo, hi - 1, f) && b.open == m[f].open && b.pair == m[f].pair;
        var c :| Latest(m, lo, hi - 1, c) && b.close == m[c].close;
        var h :| Highest(m, lo, hi - 1, h) && b.high == m[h].high;
        var l :| Lowest(m, lo, hi - 1, l) && b.low == m[l].low;
        assert Earliest(m, lo, hi, f) && Latest(m, lo, hi, c) && Highest(m, lo, hi, h) && Lowest(m, lo, hi, l);
      }
    }
  }

  ghost predicate NoSecond(m: map<int, Candle>, lo: int, hi: int) {
    forall t :: lo <= t < hi ==> t !in m
  }

  /** The candle has the open and pair of the earliest second of lo <= t < hi, the close of the latest, the
      highest high, the lowest low and the total volume. */
  ghost predicate IsOhlcv(m: map<int, Candle>, lo: int, hi: int, b: Candle) {
    && (exists t :: Earliest(m, lo, hi, t) && b.open == m[t].open && b.pair == m[t].pair)
    && (exists t :: Latest(m, lo, hi, t) && b.close == m[t].close)
    && (exists t :: Highest(m, lo, hi, t) && b.high == m[t].high)
    && (exists t :: Lowest(m, lo, hi, t) && b.low == m[t].low)
    && b.volume == VolumeIn(m, lo, hi)
  }

  predicate AllZero(c: Candle) {
    c.open == 0.0 && c.high == 0.0 && c.low == 0.0 && c.close == 0.0 && c.volume == 0.0
  }

  /** What is reported of the seconds lo <= t < hi: their bar, or zeros when there are none. */
  ghost predicate Reports(pair: string, m: map<int, Candle>, lo: int, hi: int, c: Candle) {
    if NoSecond(m, lo, hi) then c.pair == pair && AllZero(c) else IsOhlcv(m, lo, hi, c)
  }

  /** Where every second has a positive high, zeros are reported exactly when there is no second. */
  lemma ZerosMeanNothing(pair: string, m: map<int, Candle>, lo: int, hi: int, c: Candle)
    requires Reports(pair, m, lo, hi, c)
    requires forall t :: lo <= t < hi && t in m ==> m[t].high > 0.0
    ensures AllZero(c) <==> NoSecond(m, lo, hi)
  {
    if !NoSecond(m, lo, hi) {
      var t :| Highest(m, lo, hi, t) && c.high == m[t].high;
    }
  }

  lemma BarReports(pair: string, m: map<int, Candle>, lo: int, hi: int, c: Candle, time: int, complete: bool)
    requires Bar(m, lo, hi).None? ==> c == EmptyCandle(pair, time).(complete := complete)
    requires Bar(m, lo, hi).Some? ==> c == Bar(m, lo, hi).value.(time := time, complete := complete)
    ensures Reports(pair, m, lo, hi, c) && c.time == time && c.complete == complete
  {
    BarIsOhlcv(m, lo, hi);
  }

  /** A partial bar reports the seconds from the bucket's start to the candle's own, which is left out. */
  lemma PartialIsOhlcv(pair: string, m: map<int, Candle>, start: int, now: int)
    ensures var p := PartialOf(pair, m, start, now);
      Reports(pair, m, start, now, p) && p.time == now && !p.complete
  {
    BarReports(pair, m, start, now, PartialOf(pair, m, start, now), now, false);
  }

  /** A final bar reports the seconds strictly inside the bucket and is stamped with its start. */
  ghost predicate IsFinalBar(pair: string, m: map<int, Candle>, start: int, d: int, f: Candle) {
    Reports(pair, m, start + 1, start + d, f) && f.time == start
  }

  lemma FinalIsOhlcv(pair: string, m: map<int, Candle>, start: int, d: int, f: Candle)
    requires f.(complete := true) == FinalOf(pair, m, start, d)
    ensures IsFinalBar(pair, m, start, d, f)
  {
    BarReports(pair, m, start + 1, start + d, f, start, f.complete);
  }

  class Aggregator {
    const pair: string
    const duration: int
    var buffer: map<int, Candle>
    var currentKey: int

    ghost predicate Valid()
      reads this
    {
      0 <= duration && KeyedByTime(buffer)
    }

    ghost function View(): State
      reads this
    {
      State(pair, duration, buffer, currentKey)
    }

    constructor (pair: string, duration: int)
      requires 0 <= duration
      ensures Valid() && View() == State(pair, duration, map[], Tools.ZERO_TIME)
    {
      this.pair, this.duration := pair, duration;
      buffer, currentKey := map[], Tools.ZERO_TIME;
    }

    method InitCurrentKey(t: int)
      modifies this`currentKey
      ensures currentKey == Tools.NextKey(t, duration)
    {
      var t0 := Tools.TruncateKST(t, duration);
      if t0 != t {
        t0 := t0 + duration;
      }
      currentKey := t0;
    }

    /** The seconds lo <= t < hi of the buffer, the map being walked in any order. */
    method CollectSeconds(lo: int, hi: int) returns (secs: seq<Candle>)
      requires Valid()
      ensures Holds(buffer, lo, hi, secs)
    {
      var todo: set<int> := buffer.Keys;
      ghost var kept: set<int> := {};
      secs := [];
      while todo != {}
        invariant todo <= buffer.Keys && kept <= buffer.Keys && todo !! kept
        invariant forall t :: t in kept ==> lo <= t < hi
        invariant forall t :: t in buffer && lo <= t < hi ==> t in todo || t in kept
        invariant multiset(secs) == multiset(Recorded(buffer, kept))
        decreases todo
      {
        var t := Pick(todo);
        if lo <= t < hi {
          RecordedPlus(buffer, kept, t);
          secs, kept := secs + [buffer[t]], kept + {t};
        }
        todo := todo - {t};
      }
      assert kept == KeysIn(buffer, lo, hi);
    }

    method BuildPartialCandle(startKey: int, now: int) returns (out: Candle)
      requires Valid()
      ensures out == PartialOf(pair, buffer, startKey, now)
      ensures Reports(pair, buffer, startKey, now, out) && out.time == now && !out.complete
    {
      PartialIsOhlcv(pair, buffer, startKey, now);
      var collected := CollectSeconds(startKey, now);
      var secs := SortByTime(collected);
      SortedSecondsMakeTheBar(buffer, startKey, now, secs);
      if |secs| == 0 {
        return EmptyCandle(pair, now);
      }
      out := secs[0].(time := now, volume := 0.0, complete := false);
      for i := 0 to |secs|
        invariant i == 0 ==> out == secs[0].(time := now, volume := 0.0, complete := false)
        invariant i > 0 ==> out == BarOf(secs[..i]).(time := now, complete := false)
      {
        var sc := secs[i];
        assert secs[..i + 1][..i] == secs[..i];
        if i > 0 {
          if sc.high > out.high {
            out := out.(high := sc.high);
          }
          if sc.low < out.low {
            out := out.(low := sc.low);
          }
        }
        out := out.(close := sc.close, volume := out.volume + sc.volume);
      }
      assert secs[..|secs|] == secs;
    }

    method AggregateBuffer(minKey: int) returns (out: Candle)
      requires Valid()
      ensures out.(complete := true) == FinalOf(pair, buffer, minKey, duration)
      ensures IsFinalBar(pair, buffer, minKey, duration, out)
    {
      var collected := CollectSeconds(minKey + 1, minKey + duration);
      var secs := SortByTime(collected);
      SortedSecondsMakeTheBar(buffer, minKey + 1, minKey + duration, secs);
      if |secs| == 0 {
        out := EmptyCandle(pair, minKey);
        FinalIsOhlcv(pair, buffer, minKey, duration, out);
        return;
      }
      out := secs[0].(time := minKey, complete := true);
      for i := 1 to |secs|
        invariant out == BarOf(secs[..i]).(time := minKey, complete := true)
      {
        var sc := secs[i];
        assert secs[..i + 1][..i] == secs[..i];
        if sc.high > out.high {
          out := out.(high := sc.high);
        }
        if sc.low < out.low {
          out := out.(low := sc.low);
        }
        out := out.(close := sc.close, volume := out.volume + sc.volume);
      }
      assert secs[..|secs|] == secs;
      FinalIsOhlcv(pair, buffer, minKey, duration, out);
    }

    method RemoveOldSeconds(minKey: int)
      modifies this`buffer
      ensures buffer == WithoutBucket(old(buffer), minKey, duration)
    {
      var todo: set<int> := buffer.Keys;
      while todo != {}
        invariant todo <= old(buffer).Keys
        invariant buffer == map t | t in old(buffer) && (t in todo || !(minKey <= t < minKey + duration)) :: old(buffer)[t]
        decreases todo
      {
        var sec := Pick(todo);
        if minKey <= sec < minKey + duration {
          buffer := buffer - {sec};
        }
        todo := todo - {sec};
      }
    }

    method Push1sCandle(c: Candle) returns (partial: Candle, final: Candle, isFinal: bool)
      requires Valid()
      modifies this
      ensures Valid()
      ensures Push(old(View()), c) == Pushed(View(), partial, final, isFinal)
    {
      buffer := buffer[c.time := c];
      final := ZERO_CANDLE;
      if duration == 0 {
        return c, final, true;
      }
      if currentKey == Tools.ZERO_TIME {
        InitCurrentKey(c.time);
      }
      partial := BuildPartialCandle(currentKey - duration, c.time);
      partial := partial.(complete := false);
      isFinal := false;
      if c.time >= currentKey {
        var finalStart := currentKey - duration;
        final := AggregateBuffer(finalStart);
        final := final.(complete := true);
        isFinal := true;
        RemoveOldSeconds(finalStart);
        currentKey := currentKey + duration;
      }
    }
  }
}
