/** exchange/upbit.go: fetching a period of candles page by page, newest first, against a server that
    holds a fixed history. */
module Pagination {
  import opened Model
  import Tools

  const PAGE_LIMIT: nat := 200

  /** The server's history of one market and timeframe: oldest first, one candle per instant. */
  predicate Ascending(history: seq<Candle>) {
    forall i, j :: 0 <= i < j < |history| ==> history[i].time < history[j].time
  }

  /** How many candles of the history are strictly older than `to`. */
  function Older(history: seq<Candle>, to: int): (n: nat)
    ensures n <= |history|
  {
    if history == [] then 0
    else if history[|history| - 1].time < to then |history|
    else Older(history[..|history| - 1], to)
  }

  lemma {:induction false} OlderSplits(history: seq<Candle>, to: int)
    requires Ascending(history)
    ensures forall i :: 0 <= i < Older(history, to) ==> history[i].time < to
    ensures forall i :: Older(history, to) <= i < |history| ==> to <= history[i].time
  {
    if history != [] && to <= history[|history| - 1].time {
      OlderSplits(history[..|history| - 1], to);
    }
  }

  lemma OlderUnique(history: seq<Candle>, to: int, n: nat)
    requires Ascending(history) && n <= |history|
    requires n > 0 ==> history[n - 1].time < to
    requires n < |history| ==> to <= history[n].time
    ensures Older(history, to) == n
  {
  }

  function Reverse(cs: seq<Candle>): seq<Candle> {
    seq(|cs|, i requires 0 <= i < |cs| => cs[|cs| - 1 - i])
  }

  lemma {:induction false} ReverseKeepsElements(cs: seq<Candle>)
    ensures multiset(Reverse(cs)) == multiset(cs)
  {
    if cs != [] {
      var init, last := cs[..|cs| - 1], cs[|cs| - 1];
      ReverseKeepsElements(init);
      assert Reverse(cs) == [last] + Reverse(init);
      assert cs == init + [last];
    }
  }

  function PageStart(m: nat): nat {
    if m < PAGE_LIMIT then 0 else m - PAGE_LIMIT
  }

  /** The server's answer: up to 200 of the newest candles strictly older than `to`, newest first. */
  function Page(history: seq<Candle>, to: int): seq<Candle> {
    var n := Older(history, to);
    Reverse(history[PageStart(n)..n])
  }

  function InWindow(history: seq<Candle>, start: int, end: int): seq<Candle> {
    if history == [] then []
    else
      var last := history[|history| - 1];
      InWindow(history[..|history| - 1], start, end) + if start <= last.time < end then [last] else []
  }

  /** The window holds the candles with start <= time < end, each as often as the history does, in order. */
  lemma {:induction false} InWindowExactly(history: seq<Candle>, start: int, end: int)
    requires Ascending(history)
    ensures Ascending(InWindow(history, start, end))
    ensures forall c :: c in InWindow(history, start, end) <==> c in history && start <= c.time < end
  {
    if history != [] {
      var init, last := history[..|history| - 1], history[|history| - 1];
      InWindowExactly(init, start, end);
      assert history == init + [last];
    }
  }

  lemma {:induction false} InWindowConcat(a: seq<Candle>, b: seq<Candle>, start: int, end: int)
    ensures InWindow(a + b, start, end) == InWindow(a, start, end) + InWindow(b, start, end)
  {
    if b == [] {
      assert a + b == a;
    } else {
      InWindowConcat(a, b[..|b| - 1], start, end);
      assert (a + b)[..|a + b| - 1] == a + b[..|b| - 1];
    }
  }

  lemma {:induction false} NothingInWindow(cs: seq<Candle>, start: int, end: int)
    requires forall i :: 0 <= i < |cs| ==> !(start <= cs[i].time < end)
    ensures InWindow(cs, start, end) == []
  {
    if cs != [] {
      NothingInWindow(cs[..|cs| - 1], start, end);
    }
  }

  lemma InWindowDropsOutside(history: seq<Candle>, start: int, end: int, lo: nat, hi: nat)
    requires lo <= hi <= |history|
    requires forall i :: 0 <= i < lo ==> history[i].time < start
    requires forall i :: hi <= i < |history| ==> end <= history[i].time
    ensures InWindow(history, start, end) == InWindow(history[lo..hi], start, end)
  {
    var before, within, after := history[..lo], history[lo..hi], history[hi..];
    assert history == before + within + after;
    InWindowConcat(before + within, after, start, end);
    InWindowConcat(before, within, start, end);
    NothingInWindow(before, start, end);
    NothingInWindow(after, start, end);
  }

  lemma LatestIsLast(sorted: seq<Candle>, cs: seq<Candle>)
    requires SortedByTime(sorted) && Ascending(cs) && multiset(sorted) == multiset(cs) && cs != []
    ensures |sorted| == |cs| && sorted[|cs| - 1] == cs[|cs| - 1]
  {
    assert |sorted| == |multiset(sorted)| == |multiset(cs)| == |cs|;
    var n := |cs| - 1;
    assert cs[n] in multiset(sorted);
    assert sorted[n] in multiset(cs);
    var i :| 0 <= i < |sorted| && sorted[i] == cs[n];
    var j :| 0 <= j < |cs| && cs[j] == sorted[n];
    assert cs[n].time <= sorted[n].time == cs[j].time;
  }

  lemma DropLast<T>(s: seq<T>)
    requires s != []
    ensures multiset(s[..|s| - 1]) == multiset(s) - multiset{s[|s| - 1]}
  {
    assert s == s[..|s| - 1] + [s[|s| - 1]];
  }

  lemma DropLatest(sorted: seq<Candle>, cs: seq<Candle>)
    requires SortedByTime(sorted) && Ascending(cs) && multiset(sorted) == multiset(cs) && cs != []
    ensures |sorted| == |cs| && sorted[|cs| - 1] == cs[|cs| - 1]
    ensures multiset(sorted[..|cs| - 1]) == multiset(cs[..|cs| - 1])
  {
    LatestIsLast(sorted, cs);
    DropLast(sorted);
    DropLast(cs);
  }

  /** Sorting by time restores an ascending sequence from any arrangement of it. */
  lemma {:induction false} SortedArrangement(sorted: seq<Candle>, cs: seq<Candle>)
    requires SortedByTime(sorted) && Ascending(cs) && multiset(sorted) == multiset(cs)
    ensures sorted == cs
  {
    if cs == [] {
      assert |multiset(sorted)| == 0;
    } else {
      DropLatest(sorted, cs);
      SortedArrangement(sorted[..|cs| - 1], cs[..|cs| - 1]);
      assert sorted == sorted[..|cs| - 1] + [cs[|cs| - 1]];
    }
  }

  /** The candles m..n of the history, in some order. */
  ghost predicate Fetched(history: seq<Candle>, m: nat, n: nat, cs: seq<Candle>) {
    m <= n <= |history| && multiset(cs) == multiset(history[m..n])
  }

  /** One page on: the candles just before m, the oldest of them the next bound. */
  lemma NextPage(history: seq<Candle>, to: int, m: nat, n: nat, cs: seq<Candle>)
    requires Ascending(history) && Older(history, to) == m && Fetched(history, m, n, cs)
    ensures var lo, raw := PageStart(m), Page(history, to);
      && |raw| == m - lo
      && Fetched(history, lo, n, cs + raw)
      && (m > 0 ==> raw[|raw| - 1] == history[lo] && Older(history, history[lo].time) == lo)
  {
    var lo := PageStart(m);
    ReverseKeepsElements(history[lo..m]);
    assert history[lo..n] == history[lo..m] + history[m..n];
    if m > 0 {
      OlderUnique(history, history[lo].time, lo);
    }
  }

  /** The loop over the pages, from `end` back to `start`; `m` is how far back it came. */
  method FetchPages(history: seq<Candle>, start: int, end: int, failing: set<int>)
    returns (result: Result<seq<Candle>>, requests: nat, ghost m: nat)
    requires Ascending(history)
    ensures result.Err? ==> requests > 0 && requests - 1 in failing
    ensures result.Ok? ==> Fetched(history, m, Older(history, end), result.value)
    ensures result.Ok? ==> forall i :: 0 <= i < m ==> history[i].time < start
    ensures result.Ok? ==> forall k :: 0 <= k < requests ==> k !in failing
    ensures PAGE_LIMIT * requests < Older(history, end) + 2 * PAGE_LIMIT
  {
    var allCandles, toTime := [], end;
    ghost var n := Older(history, end);
    requests, m := 0, n;
    while true
      invariant m <= n && Older(history, toTime) == m
      invariant Fetched(history, m, n, allCandles)
      invariant m > 0 ==> n - m == PAGE_LIMIT * requests
      invariant m == 0 ==> PAGE_LIMIT * requests < n + PAGE_LIMIT
      invariant forall k :: 0 <= k < requests ==> k !in failing
      decreases m
    {
      requests := requests + 1;
      if requests - 1 in failing {
        return Err("request failed"), requests, m;
      }
      var raw := Page(history, toTime);
      NextPage(history, toTime, m, n, allCandles);
      if |raw| == 0 {
        break;
      }
      allCandles := allCandles + raw;
      var oldestTime := raw[|raw| - 1].time;
      m := PageStart(m);
      if oldestTime <= start {
        break;
      }
      toTime := oldestTime;
    }
    return Ok(allCandles), requests, m;
  }

  /** The filter as coded also keeps a candle at `end` itself. */
  predicate Inside(t: int, start: int, end: int) {
    t == start || t == end || (start < t && t < end)
  }

  function Filtered(cs: seq<Candle>, start: int, end: int): seq<Candle> {
    if cs == [] then []
    else
      var c, before := cs[|cs| - 1], Filtered(cs[..|cs| - 1], start, end);
      if Inside(c.time, start, end) then before + [c] else before
  }

  /** The last loop of CandlesByPeriod, over the candles fetched. */
  method KeepInside(sorted: seq<Candle>, start: int, end: int) returns (result: seq<Candle>)
    ensures result == Filtered(sorted, start, end)
  {
    result := [];
    for i := 0 to |sorted|
      invariant result == Filtered(sorted[..i], start, end)
    {
      var t := sorted[i].time;
      assert sorted[..i + 1][..i] == sorted[..i];
      if t == start || t == end || (start < t && t < end) {
        result := result + [sorted[i]];
      }
    }
    assert sorted[..|sorted|] == sorted;
  }

  /** The filter keeps more than the window exactly when a candle is at `end`, or at `start` past it; the
      server's pages hold neither. */
  lemma {:induction false} FilterIsWindowIff(cs: seq<Candle>, start: int, end: int)
    ensures Filtered(cs, start, end) == InWindow(cs, start, end) <==>
      forall i :: 0 <= i < |cs| ==> cs[i].time != end && (end <= start ==> cs[i].time != start)
    ensures |InWindow(cs, start, end)| <= |Filtered(cs, start, end)|
  {
    if cs != [] {
      var n := |cs| - 1;
      var c, kept, window := cs[n], Filtered(cs[..n], start, end), InWindow(cs[..n], start, end);
      FilterIsWindowIff(cs[..n], start, end);
      assert cs == cs[..n] + [c];
      assert start <= c.time < end ==> Inside(c.time, start, end);
      if Inside(c.time, start, end) && start <= c.time < end {
        assert (kept + [c])[..|kept|] == kept && (window + [c])[..|window|] == window;
      }
    }
  }

  /** `failing` tells which requests fail. Unless the period is unsupported or a request fails, the
      answer is the window of the history, after no more than one request beyond the pages of the
      candles older than `end`. */
  method CandlesByPeriod(history: seq<Candle>, period: string, start: int, end: int, failing: set<int>)
    returns (result: Result<seq<Candle>>, requests: nat)
    requires Ascending(history)
    ensures result.Ok? ==> result.value == InWindow(history, start, end)
    ensures result.Err? ==> Tools.MapPeriodToCandleEndpoint(period).Err? || (requests > 0 && requests - 1 in failing)
    ensures result.Ok? ==> Tools.MapPeriodToCandleEndpoint(period).Ok?
    ensures result.Ok? ==> forall k :: 0 <= k < requests ==> k !in failing
    ensures requests <= (Older(history, end) + 199) / 200 + 1
  {
    var endpoint := Tools.MapPeriodToCandleEndpoint(period);
    if endpoint.Err? {
      return Err(endpoint.error), 0;
    }
    var fetched;
    ghost var m;
    fetched, requests, m := FetchPages(history, start, end, failing);
    if fetched.Err? {
      return fetched, requests;
    }
    ghost var n := Older(history, end);
    OlderSplits(history, end);
    var sorted := SortByTime(fetched.value);
    SortedArrangement(sorted, history[m..n]);
    InWindowDropsOutside(history, start, end, m, n);
    FilterIsWindowIff(sorted, start, end);
    var kept := KeepInside(sorted, start, end);
    return Ok(kept), requests;
  }
}
