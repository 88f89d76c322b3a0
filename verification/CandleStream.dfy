/** exchange/upbit.go over a whole stream of second candles: the incremental aggregator against a
    batch computation on the last-written candle of every second. */
module CandleStream {
  import opened Model
  import opened CandleAggregator
  import Tools

  function Run(s: State, cs: seq<Candle>): State {
    if cs == [] then s else Push(Run(s, cs[..|cs| - 1]), cs[|cs| - 1]).next
  }

  /** The final bars emitted, oldest first. */
  function Finals(s: State, cs: seq<Candle>): seq<Candle> {
    if cs == [] then []
    else
      var p := Push(Run(s, cs[..|cs| - 1]), cs[|cs| - 1]);
      Finals(s, cs[..|cs| - 1]) + if p.isFinal then [p.final] else []
  }

  /** The whole stream in one map, the last write of a second winning. */
  function LastWrite(m: map<int, Candle>, cs: seq<Candle>): map<int, Candle> {
    if cs == [] then m else LastWrite(m, cs[..|cs| - 1])[cs[|cs| - 1].time := cs[|cs| - 1]]
  }

  function LastTime(last: int, cs: seq<Candle>): int {
    if cs == [] then last else cs[|cs| - 1].time
  }

  /** Where the k-th bucket to be closed begins. */
  function BucketStart(s: State, k: nat): int {
    if k == 0 then s.key - s.d else BucketStart(s, k - 1) + s.d
  }

  /** Buckets are consecutive: the k-th begins k durations after the first. */
  lemma {:induction false} BucketStarts(s: State, k: nat)
    ensures BucketStart(s, k) == BucketStart(s, 0) + k * s.d
  {
    if k > 0 {
      BucketStarts(s, k - 1);
      assert k * s.d == (k - 1) * s.d + s.d;
    }
  }

  lemma {:induction false} BucketsAscend(s: State, k: nat, n: nat)
    requires s.d >= 0 && k <= n
    ensures BucketStart(s, k) <= BucketStart(s, n)
  {
    if k < n {
      BucketsAscend(s, k, n - 1);
    }
  }

  /** The boundary has been set: initCurrentKey ran when the subscription was made. */
  predicate Started(s: State) {
    s.d > 0 && s.key > Tools.ZERO_TIME
  }

  predicate Agree(m: map<int, Candle>, w: map<int, Candle>, lo: int, hi: int) {
    forall t :: lo <= t < hi ==> (t in m <==> t in w) && (t in m ==> m[t] == w[t])
  }

  ghost predicate AgreeFrom(m: map<int, Candle>, w: map<int, Candle>, lo: int) {
    forall t :: lo <= t ==> (t in m <==> t in w) && (t in m ==> m[t] == w[t])
  }

  lemma {:induction false} BarFrame(m: map<int, Candle>, w: map<int, Candle>, lo: int, hi: int)
    requires Agree(m, w, lo, hi)
    ensures Bar(m, lo, hi) == Bar(w, lo, hi)
    decreases hi - lo
  {
    if lo < hi {
      BarFrame(m, w, lo, hi - 1);
    }
  }

  lemma BarsAgree(pair: string, m: map<int, Candle>, w: map<int, Candle>, start: int, d: int, c: Candle)
    requires AgreeFrom(m, w, start)
    ensures PartialOf(pair, m[c.time := c], start, c.time) == PartialOf(pair, w[c.time := c], start, c.time)
    ensures FinalOf(pair, m[c.time := c], start, d) == FinalOf(pair, w[c.time := c], start, d)
  {
    BarFrame(m[c.time := c], w[c.time := c], start, c.time);
    BarFrame(m[c.time := c], w[c.time := c], start + 1, start + d);
  }

  /** The open bucket is the one after those closed. */
  lemma {:induction false} RunBucket(s: State, cs: seq<Candle>)
    requires Started(s)
    ensures Run(s, cs).d == s.d && Run(s, cs).pair == s.pair && Started(Run(s, cs))
    ensures Run(s, cs).key == BucketStart(s, |Finals(s, cs)|) + s.d
  {
    if cs != [] {
      RunBucket(s, cs[..|cs| - 1]);
    }
  }

  /** From the open bucket on, the buffer holds the last write of every second. */
  lemma {:induction false} BufferIsLastWrite(s: State, cs: seq<Candle>)
    requires Started(s)
    ensures AgreeFrom(Run(s, cs).buffer, LastWrite(s.buffer, cs), BucketStart(s, |Finals(s, cs)|))
  {
    RunBucket(s, cs);
    if cs != [] {
      var init, c := cs[..|cs| - 1], cs[|cs| - 1];
      BufferIsLastWrite(s, init);
      RunBucket(s, init);
      assert AgreeFrom(Run(s, init).buffer[c.time := c], LastWrite(s.buffer, cs), Run(s, init).key - s.d);
    }
  }

  /** Each partial bar is the batch bar of what was written so far, over the open bucket up to the
      candle's own second, for any stream whatever. */
  lemma PartialsAreBatchBars(s: State, cs: seq<Candle>)
    requires Started(s) && cs != []
    ensures var init, c := cs[..|cs| - 1], cs[|cs| - 1];
      Push(Run(s, init), c).partial ==
        PartialOf(s.pair, LastWrite(s.buffer, cs), BucketStart(s, |Finals(s, init)|), c.time)
  {
    var init, c := cs[..|cs| - 1], cs[|cs| - 1];
    RunBucket(s, init);
    BufferIsLastWrite(s, init);
    BarsAgree(s.pair, Run(s, init).buffer, LastWrite(s.buffer, init), BucketStart(s, |Finals(s, init)|), s.d, c);
  }

  lemma PushShape(s: State, c: Candle)
    requires Started(s)
    ensures Push(s, c).isFinal <==> s.key <= c.time
    ensures Push(s, c).next.key == if s.key <= c.time then s.key + s.d else s.key
  {
  }

  /** Once bars were emitted, the stream has reached the end of the last emitted bucket. */
  lemma {:induction false} EmittedBucketsArePast(s: State, cs: seq<Candle>)
    requires Started(s) && SortedByTime(cs) && Finals(s, cs) != []
    ensures cs != [] && BucketStart(s, |Finals(s, cs)|) <= cs[|cs| - 1].time
  {
    var init := cs[..|cs| - 1];
    RunBucket(s, init);
    RunBucket(s, cs);
    PushShape(Run(s, init), cs[|cs| - 1]);
    if Finals(s, init) != [] {
      EmittedBucketsArePast(s, init);
      assert init[|init| - 1] == cs[|cs| - 2];
    }
  }

  /** A final bar is the batch bar of what was written up to its own push. */
  lemma FreshFinal(s: State, cs: seq<Candle>)
    requires Started(s) && cs != [] && Push(Run(s, cs[..|cs| - 1]), cs[|cs| - 1]).isFinal
    ensures var init := cs[..|cs| - 1];
      Push(Run(s, init), cs[|cs| - 1]).final ==
        FinalOf(s.pair, LastWrite(s.buffer, cs), BucketStart(s, |Finals(s, init)|), s.d)
  {
    var init, c := cs[..|cs| - 1], cs[|cs| - 1];
    RunBucket(s, init);
    BufferIsLastWrite(s, init);
    BarsAgree(s.pair, Run(s, init).buffer, LastWrite(s.buffer, init), BucketStart(s, |Finals(s, init)|), s.d, c);
  }

  lemma FinalFrame(pair: string, m: map<int, Candle>, start: int, d: int, c: Candle)
    requires start + d <= c.time
    ensures FinalOf(pair, m[c.time := c], start, d) == FinalOf(pair, m, start, d)
  {
    BarFrame(m[c.time := c], m, start + 1, start + d);
  }

  /** A later push leaves the bar of a closed bucket as it is. */
  lemma ClosedBucketStands(s: State, cs: seq<Candle>, k: nat)
    requires Started(s) && SortedByTime(cs) && cs != [] && k < |Finals(s, cs[..|cs| - 1])|
    ensures FinalOf(s.pair, LastWrite(s.buffer, cs), BucketStart(s, k), s.d) ==
      FinalOf(s.pair, LastWrite(s.buffer, cs[..|cs| - 1]), BucketStart(s, k), s.d)
  {
    var init, c := cs[..|cs| - 1], cs[|cs| - 1];
    assert BucketStart(s, k) + s.d <= c.time by {
      EmittedBucketsArePast(s, init);
      BucketsAscend(s, k + 1, |Finals(s, init)|);
    }
    FinalFrame(s.pair, LastWrite(s.buffer, init), BucketStart(s, k), s.d, c);
  }

  /** The k-th final bar is the batch bar of the seconds strictly inside the k-th bucket, over the whole
      non-decreasing stream: gaps, repeated seconds and later pushes change nothing. */
  lemma {:induction false} FinalsAreBatchBars(s: State, cs: seq<Candle>, k: nat)
    requires Started(s) && SortedByTime(cs) && k < |Finals(s, cs)|
    ensures Finals(s, cs)[k] == FinalOf(s.pair, LastWrite(s.buffer, cs), BucketStart(s, k), s.d)
  {
    var init := cs[..|cs| - 1];
    if k < |Finals(s, init)| {
      assert Finals(s, cs)[k] == Finals(s, init)[k];
      ClosedBucketStands(s, cs, k);
      FinalsAreBatchBars(s, init, k);
    } else {
      FreshFinal(s, cs);
    }
  }

  /** Each partial bar, for any stream whatever: it is stamped with the candle's time, not complete, and
      reports the last-written seconds of the open bucket before that time. */
  lemma PartialsReportTheOpenBucket(s: State, cs: seq<Candle>)
    requires Started(s) && cs != []
    ensures var init, c := cs[..|cs| - 1], cs[|cs| - 1];
      var p := Push(Run(s, init), c).partial;
      && p.time == c.time && !p.complete
      && Reports(s.pair, LastWrite(s.buffer, cs), BucketStart(s, |Finals(s, init)|), c.time, p)
  {
    PartialsAreBatchBars(s, cs);
    PartialIsOhlcv(s.pair, LastWrite(s.buffer, cs), BucketStart(s, |Finals(s, cs[..|cs| - 1])|), cs[|cs| - 1].time);
  }

  /** The k-th final bar of a non-decreasing stream: stamped with the bucket's start, complete, and reporting
      the last-written seconds strictly inside it. */
  lemma FinalsReportTheirBuckets(s: State, cs: seq<Candle>, k: nat)
    requires Started(s) && SortedByTime(cs) && k < |Finals(s, cs)|
    ensures Finals(s, cs)[k].complete
    ensures IsFinalBar(s.pair, LastWrite(s.buffer, cs), BucketStart(s, k), s.d, Finals(s, cs)[k])
  {
    FinalsAreBatchBars(s, cs, k);
    FinalIsOhlcv(s.pair, LastWrite(s.buffer, cs), BucketStart(s, k), s.d, Finals(s, cs)[k]);
  }

  // --- The boundary of a fresh aggregator ------------------------------------------------------------

  /** Without a boundary set beforehand the first candle sets it: for a duration dividing a day its bucket is
      then the open one, on the Korean-midnight grid, and the aggregator is in synchrony. */
  lemma FirstPushSetsBoundary(s: State, c: Candle)
    requires s.d > 0 && Tools.DAY % s.d == 0 && s.key == Tools.ZERO_TIME && s.buffer == map[]
    ensures var t := Push(s, c).next;
      && Tools.OnGrid(t.key, s.d) && t.key - s.d <= c.time < t.key
      && t.buffer == map[c.time := c] && t.pair == s.pair && t.d == s.d
  {
    Tools.NextKeyIsLeastGridPoint(c.time, s.d);
    Tools.OnGridAfter(Tools.NextKey(c.time, s.d), s.d);
  }

  // --- Volume --------------------------------------------------------------------------------------

  lemma {:induction false} VolumeSplit(m: map<int, Candle>, lo: int, mid: int, hi: int)
    requires lo <= mid <= hi
    ensures VolumeIn(m, lo, hi) == VolumeIn(m, lo, mid) + VolumeIn(m, mid, hi)
    decreases hi - mid
  {
    if mid < hi {
      VolumeSplit(m, lo, mid, hi - 1);
    }
  }

  lemma {:induction false} VolumeFrame(m: map<int, Candle>, w: map<int, Candle>, lo: int, hi: int)
    requires Agree(m, w, lo, hi)
    ensures VolumeIn(m, lo, hi) == VolumeIn(w, lo, hi)
    decreases hi - lo
  {
    if lo < hi {
      VolumeFrame(m, w, lo, hi - 1);
    }
  }

  lemma VolumeSplitAgree(w: map<int, Candle>, m: map<int, Candle>, lo: int, mid: int, hi: int)
    requires lo <= mid <= hi && AgreeFrom(m, w, mid)
    ensures VolumeIn(w, lo, hi) == VolumeIn(w, lo, mid) + VolumeIn(m, mid, hi)
  {
    VolumeSplit(w, lo, mid, hi);
    VolumeFrame(m, w, mid, hi);
  }

  /** A final bar carries its whole bucket's volume exactly when the bucket's first second is missing
      or empty: that second is removed from the buffer without ever being counted. */
  lemma FinalVolume(pair: string, m: map<int, Candle>, start: int, d: int)
    requires d > 0
    ensures FinalOf(pair, m, start, d).volume == VolumeIn(m, start, start + d) - VolumeAt(m, start)
    ensures FinalOf(pair, m, start, d).volume == VolumeIn(m, start, start + d)
      <==> (start !in m || m[start].volume == 0.0)
  {
    BarIsOhlcv(m, start + 1, start + d);
    VolumeSplit(m, start, start + 1, start + d);
    assert VolumeIn(m, start, start + 1) == VolumeIn(m, start, start) + VolumeAt(m, start);
  }

  /** What the comment above aggregateBuffer promises: the bar of [start, start + d), first second included. */
  function PromisedOf(pair: string, m: map<int, Candle>, start: int, d: int): Candle {
    match Bar(m, start, start + d)
    case None => EmptyCandle(pair, start).(complete := true)
    case Some(b) => b.(time := start, complete := true)
  }

  /** The first second, followed by the bar of the others. */
  function StartingWith(first: Candle, rest: Option<Candle>): Candle {
    match rest
    case None => first
    case Some(b) =>
      first.(high := if b.high > first.high then b.high else first.high,
             low := if b.low < first.low then b.low else first.low,
             close := b.close,
             volume := first.volume + b.volume)
  }

  lemma {:induction false} BarFromFirst(m: map<int, Candle>, lo: int, hi: int)
    requires lo < hi
    ensures Bar(m, lo, hi) ==
      if lo in m then Some(StartingWith(m[lo], Bar(m, lo + 1, hi))) else Bar(m, lo + 1, hi)
    decreases hi - lo
  {
    if lo + 1 < hi {
      BarFromFirst(m, lo, hi - 1);
    } else {
      assert Bar(m, lo, lo) == None && Bar(m, lo + 1, hi) == None;
    }
  }

  /** A first second that leaves no trace in the bar: without volume, and of an open and a range that the
      bar has anyway. */
  predicate Traceless(first: Candle, rest: Candle) {
    && first.volume == 0.0 && first.pair == rest.pair && first.open == rest.open
    && first.high <= rest.high && rest.low <= first.low
  }

  /** The final bar is the promised one exactly when the bucket's first second is missing or leaves no
      trace; a first second with any volume makes them differ. */
  lemma FinalIsPromisedIff(pair: string, m: map<int, Candle>, start: int, d: int)
    requires d > 0
    ensures FinalOf(pair, m, start, d) == PromisedOf(pair, m, start, d) <==>
      start !in m ||
      match Bar(m, start + 1, start + d)
      case Some(rest) => Traceless(m[start], rest)
      case None => m[start].(time := start, complete := false) == EmptyCandle(pair, start)
    ensures start in m && m[start].volume != 0.0 ==>
      FinalOf(pair, m, start, d) != PromisedOf(pair, m, start, d)
  {
    BarFromFirst(m, start, start + d);
  }

  /** The comment above aggregateBuffer promises [start, start + d). A bucket whose only second is its
      first one comes out empty instead. */
  lemma FinalMissesFirstSecond(c: Candle, pair: string, d: int)
    requires d > 0
    ensures FinalOf(pair, map[c.time := c], c.time, d) == EmptyCandle(pair, c.time).(complete := true)
    ensures Bar(map[c.time := c], c.time, c.time + d) == Some(c)
  {
    BarIsOhlcv(map[c.time := c], c.time + 1, c.time + d);
    SoleSecond(map[c.time := c], c.time, c.time + d);
  }

  lemma {:induction false} SoleSecond(m: map<int, Candle>, lo: int, hi: int)
    requires lo in m && lo < hi && forall t :: lo < t < hi ==> t !in m
    ensures Bar(m, lo, hi) == Some(m[lo])
    decreases hi - lo
  {
    if lo < hi - 1 {
      SoleSecond(m, lo, hi - 1);
    } else {
      assert Bar(m, lo, hi - 1) == None;
    }
  }

  /** On the push that closes a bucket on time, partial and final differ by the first second's volume. */
  lemma PartialMinusFinal(s: State, c: Candle)
    requires Started(s) && c.time == s.key
    ensures Push(s, c).isFinal
    ensures Push(s, c).partial.volume - Push(s, c).final.volume == VolumeAt(s.buffer, s.key - s.d)
  {
    var buffer := s.buffer[c.time := c];
    BarIsOhlcv(buffer, s.key - s.d, s.key);
    FinalVolume(s.pair, buffer, s.key - s.d, s.d);
  }

  function TotalVolume(bars: seq<Candle>): real {
    if bars == [] then 0.0 else TotalVolume(bars[..|bars| - 1]) + bars[|bars| - 1].volume
  }

  /** The volume of the first seconds of the first n buckets. */
  function FirstSeconds(s: State, m: map<int, Candle>, n: nat): real {
    if n == 0 then 0.0 else FirstSeconds(s, m, n - 1) + VolumeAt(m, BucketStart(s, n - 1))
  }

  lemma OneMoreBucket(s: State, w: map<int, Candle>, n: nat)
    requires s.d > 0
    ensures VolumeIn(w, BucketStart(s, 0), BucketStart(s, n + 1)) ==
      VolumeIn(w, BucketStart(s, 0), BucketStart(s, n)) + VolumeAt(w, BucketStart(s, n))
        + FinalOf(s.pair, w, BucketStart(s, n), s.d).volume
  {
    var a, b := BucketStart(s, 0), BucketStart(s, n);
    BucketsAscend(s, 0, n);
    FinalVolume(s.pair, w, b, s.d);
    VolumeSplit(w, a, b, b + s.d);
  }

  lemma {:induction false} BucketsSumUp(s: State, w: map<int, Candle>, bars: seq<Candle>)
    requires s.d > 0
    requires forall k: nat :: k < |bars| ==> bars[k] == FinalOf(s.pair, w, BucketStart(s, k), s.d)
    ensures VolumeIn(w, BucketStart(s, 0), BucketStart(s, |bars|)) == TotalVolume(bars) + FirstSeconds(s, w, |bars|)
  {
    if bars != [] {
      var n: nat := |bars| - 1;
      BucketsSumUp(s, w, bars[..n]);
      OneMoreBucket(s, w, n);
      assert |bars| == n + 1;
    }
  }

  /** Every recorded second from the open bucket on, and nothing recorded after the last candle. */
  ghost predicate Tracked(s: State, last: int) {
    s.key - s.d <= last && forall t :: t in s.buffer ==> s.key - s.d <= t <= last
  }

  predicate StepsWithin(last: int, cs: seq<Candle>, step: int) {
    cs == [] ||
    (StepsWithin(last, cs[..|cs| - 1], step) &&
     0 <= cs[|cs| - 1].time - LastTime(last, cs[..|cs| - 1]) <= step)
  }

  /** A non-decreasing stream from `last` on. */
  predicate From(last: int, cs: seq<Candle>) {
    SortedByTime(cs) && (cs == [] || last <= cs[0].time)
  }

  lemma PushKeepsTracked(s: State, last: int, c: Candle)
    requires Started(s) && Tracked(s, last) && last <= c.time
    ensures Tracked(Push(s, c).next, c.time)
  {
  }

  lemma {:induction false} RunKeepsTracked(s: State, last: int, cs: seq<Candle>)
    requires Started(s) && Tracked(s, last) && From(last, cs)
    ensures last <= LastTime(last, cs)
    ensures Tracked(Run(s, cs), LastTime(last, cs))
    ensures forall t :: t in LastWrite(s.buffer, cs) ==> s.key - s.d <= t <= LastTime(last, cs)
  {
    if cs != [] {
      var init := cs[..|cs| - 1];
      RunBucket(s, init);
      RunKeepsTracked(s, last, init);
      PushKeepsTracked(Run(s, init), LastTime(last, init), cs[|cs| - 1]);
    }
  }

  lemma ClosedBucketsSumUp(s: State, cs: seq<Candle>)
    requires Started(s) && SortedByTime(cs)
    ensures var w, n := LastWrite(s.buffer, cs), |Finals(s, cs)|;
      VolumeIn(w, BucketStart(s, 0), BucketStart(s, n)) == TotalVolume(Finals(s, cs)) + FirstSeconds(s, w, n)
  {
    var w, bars := LastWrite(s.buffer, cs), Finals(s, cs);
    forall k: nat | k < |bars|
      ensures bars[k] == FinalOf(s.pair, w, BucketStart(s, k), s.d)
    {
      FinalsAreBatchBars(s, cs, k);
    }
    BucketsSumUp(s, w, bars);
  }

  lemma OpenBucketWithin(s: State, last: int, cs: seq<Candle>)
    requires Started(s) && Tracked(s, last) && From(last, cs)
    ensures Run(s, cs).key - s.d == BucketStart(s, |Finals(s, cs)|)
    ensures BucketStart(s, 0) <= BucketStart(s, |Finals(s, cs)|) <= LastTime(last, cs)
  {
    RunBucket(s, cs);
    RunKeepsTracked(s, last, cs);
    BucketsAscend(s, 0, |Finals(s, cs)|);
  }

  /** Volume is conserved: everything last written to a second is in a final bar, or was the first second
      of a closed bucket, or is still buffered. By RunKeepsTracked, no second lies outside the intervals. */
  lemma {:induction false} VolumeConserved(s: State, last: int, cs: seq<Candle>)
    requires Started(s) && Tracked(s, last) && From(last, cs)
    ensures VolumeIn(LastWrite(s.buffer, cs), BucketStart(s, 0), LastTime(last, cs) + 1) ==
      TotalVolume(Finals(s, cs))
        + FirstSeconds(s, LastWrite(s.buffer, cs), |Finals(s, cs)|)
        + VolumeIn(Run(s, cs).buffer, Run(s, cs).key - s.d, LastTime(last, cs) + 1)
  {
    OpenBucketWithin(s, last, cs);
    ClosedBucketsSumUp(s, cs);
    BufferIsLastWrite(s, cs);
    VolumeSplitAgree(LastWrite(s.buffer, cs), Run(s, cs).buffer,
      BucketStart(s, 0), BucketStart(s, |Finals(s, cs)|), LastTime(last, cs) + 1);
  }

  // --- Synchrony -----------------------------------------------------------------------------------

  /** The last candle lies in the open bucket, and so does everything buffered. */
  ghost predicate Synced(s: State, last: int) {
    Tracked(s, last) && last < s.key
  }

  lemma {:induction false} SetInRange(s: set<int>, lo: int, hi: int)
    requires lo <= hi && forall t :: t in s ==> lo <= t < hi
    ensures |s| <= hi - lo
    decreases hi - lo
  {
    if lo < hi {
      SetInRange(s - {hi - 1}, lo, hi - 1);
      assert |s| <= |s - {hi - 1}| + 1;
    } else {
      assert s == {};
    }
  }

  lemma SyncedIsSmall(s: State, last: int)
    requires Synced(s, last) && s.d > 0
    ensures |s.buffer| <= s.d
  {
    SetInRange(s.buffer.Keys, s.key - s.d, s.key);
    assert |s.buffer| == |s.buffer.Keys|;
  }

  lemma QuotientOf(a: int, d: int, n: int)
    requires d > 0 && n * d <= a < n * d + d
    ensures n == a / d
  {
    Tools.DivMod(a, d);
    if n < a / d {
      Tools.MulMono(d, n + 1, a / d);
    } else if n > a / d {
      Tools.MulMono(d, a / d + 1, n);
    }
  }

  lemma ClosedBuckets(s: State, n: nat, last: int)
    requires s.d > 0 && BucketStart(s, n) <= last < BucketStart(s, n) + s.d
    ensures n == (last - BucketStart(s, 0)) / s.d
  {
    BucketStarts(s, n);
    QuotientOf(last - BucketStart(s, 0), s.d, n);
  }

  lemma PushKeepsSync(s: State, last: int, c: Candle)
    requires Started(s) && Synced(s, last) && last <= c.time <= last + s.d
    ensures Synced(Push(s, c).next, c.time)
  {
  }

  /** While no step exceeds the duration, the aggregator stays in the bucket of the last candle and holds
      at most one bucket of seconds. */
  lemma {:induction false} SmallStepsKeepSync(s: State, last: int, cs: seq<Candle>)
    requires Started(s) && Synced(s, last) && StepsWithin(last, cs, s.d)
    ensures Synced(Run(s, cs), LastTime(last, cs))
    ensures |Run(s, cs).buffer| <= s.d
  {
    if cs != [] {
      var init := cs[..|cs| - 1];
      SmallStepsKeepSync(s, last, init);
      RunBucket(s, init);
      PushKeepsSync(Run(s, init), LastTime(last, init), cs[|cs| - 1]);
    }
    RunBucket(s, cs);
    SyncedIsSmall(Run(s, cs), LastTime(last, cs));
  }

  /** An aggregator in synchrony has closed exactly the buckets that are over. */
  lemma {:induction false} SyncedClosedAllPastBuckets(s: State, last: int, cs: seq<Candle>)
    requires Started(s) && Synced(Run(s, cs), LastTime(last, cs))
    ensures |Finals(s, cs)| == (LastTime(last, cs) - BucketStart(s, 0)) / s.d
  {
    RunBucket(s, cs);
    ClosedBuckets(s, |Finals(s, cs)|, LastTime(last, cs));
  }

  /** A push whose step is at most `step` wins at least d - step on the lag. */
  lemma PushShrinksLag(s: State, last: int, c: Candle, step: int)
    requires Started(s) && Tracked(s, last) && 0 <= c.time - last <= step <= s.d
    ensures Tracked(Push(s, c).next, c.time)
    ensures Synced(Push(s, c).next, c.time) || c.time - Push(s, c).next.key <= last - s.key - (s.d - step)
  {
  }

  lemma OneMore(n: int, gain: int)
    ensures n * gain == (n - 1) * gain + gain
  {
  }

  lemma {:induction false} LagShrinks(s: State, last: int, cs: seq<Candle>, step: int)
    requires Started(s) && Tracked(s, last) && 0 <= step <= s.d && StepsWithin(last, cs, step)
    ensures Tracked(Run(s, cs), LastTime(last, cs))
    ensures Synced(Run(s, cs), LastTime(last, cs)) ||
      LastTime(last, cs) - Run(s, cs).key <= last - s.key - |cs| * (s.d - step)
  {
    if cs != [] {
      var init, gain := cs[..|cs| - 1], s.d - step;
      LagShrinks(s, last, init, step);
      RunBucket(s, init);
      PushShrinksLag(Run(s, init), LastTime(last, init), cs[|cs| - 1], step);
      OneMore(|cs|, gain);
      if Synced(Run(s, init), LastTime(last, init)) {
        PushKeepsSync(Run(s, init), LastTime(last, init), cs[|cs| - 1]);
      }
    }
  }

  /** After a gap of any length, synchrony is back after lag / (d - step) + 1 pushes at the latest. */
  lemma CatchesUp(s: State, last: int, cs: seq<Candle>, step: int)
    requires Started(s) && Tracked(s, last) && 0 <= step < s.d && StepsWithin(last, cs, step)
    requires |cs| * (s.d - step) > last - s.key
    ensures Synced(Run(s, cs), LastTime(last, cs))
    ensures |Run(s, cs).buffer| <= s.d
  {
    LagShrinks(s, last, cs, step);
    RunBucket(s, cs);
    SyncedIsSmall(Run(s, cs), LastTime(last, cs));
  }

  predicate StepsExactly(last: int, cs: seq<Candle>, step: int) {
    cs == [] ||
    (StepsExactly(last, cs[..|cs| - 1], step) && cs[|cs| - 1].time == LastTime(last, cs[..|cs| - 1]) + step)
  }

  lemma {:induction false} ConstantSteps(last: int, cs: seq<Candle>, step: int)
    requires StepsExactly(last, cs, step) && 0 <= step
    ensures StepsWithin(last, cs, step)
  {
    if cs != [] {
      ConstantSteps(last, cs[..|cs| - 1], step);
    }
  }

  lemma {:induction false} LagShrinksExactly(s: State, last: int, cs: seq<Candle>, step: int)
    requires Started(s) && s.key <= last && 0 <= step < s.d && StepsExactly(last, cs, step)
    requires |cs| * (s.d - step) <= last - s.key
    ensures LastTime(last, cs) - Run(s, cs).key == last - s.key - |cs| * (s.d - step)
  {
    if cs != [] {
      var init, gain := cs[..|cs| - 1], s.d - step;
      OneMore(|cs|, gain);
      LagShrinksExactly(s, last, init, step);
      RunBucket(s, init);
    }
  }

  /** The bound is tight: with a constant step, synchrony is back exactly once it is exceeded. */
  lemma CatchUpBoundIsTight(s: State, last: int, cs: seq<Candle>, step: int)
    requires Started(s) && Tracked(s, last) && s.key <= last && 0 <= step < s.d && StepsExactly(last, cs, step)
    ensures Synced(Run(s, cs), LastTime(last, cs)) <==> |cs| * (s.d - step) > last - s.key
  {
    ConstantSteps(last, cs, step);
    if |cs| * (s.d - step) > last - s.key {
      CatchesUp(s, last, cs, step);
    } else {
      LagShrinksExactly(s, last, cs, step);
    }
  }
}
