/** utils/tools/tool.go: timeframes and truncation of an instant in Korean time, here a fixed
    offset of nine hours. */
module Tools {
  import opened Model

  const DAY: int := 86400
  const KST_OFFSET: int := 32400
  // The zero time.Time, 1 January of year 1, in Unix seconds.
  const ZERO_TIME: int := -62135596800

  function MapPeriodToCandleEndpoint(period: string): Result<string> {
    match period
    case "1s" => Ok("seconds")
    case "1m" => Ok("minutes/1")
    case "3m" => Ok("minutes/3")
    case "5m" => Ok("minutes/5")
    case "10m" => Ok("minutes/10")
    case "15m" => Ok("minutes/15")
    case "30m" => Ok("minutes/30")
    case "60m" => Ok("minutes/60")
    case "1h" => Ok("minutes/60")
    case "240m" => Ok("minutes/240")
    case "4h" => Ok("minutes/240")
    case "1d" => Ok("days")
    case "1w" => Ok("weeks")
    case "1M" => Ok("months")
    case "1y" => Ok("years")
    case _ => Err("unsupported upbit period")
  }

  function ParseTimeframeToDuration(tf: string): Result<int> {
    match tf
    case "1s" => Ok(0)
    case "1m" => Ok(60)
    case "3m" => Ok(180)
    case "5m" => Ok(300)
    case "10m" => Ok(600)
    case "15m" => Ok(900)
    case "30m" => Ok(1800)
    case "60m" => Ok(3600)
    case "1h" => Ok(3600)
    case "240m" => Ok(14400)
    case "4h" => Ok(14400)
    case "1d" => Ok(DAY)
    case "1w" => Ok(7 * DAY)
    case "1M" => Ok(30 * DAY)
    case "1y" => Ok(365 * DAY)
    case _ => Err("unsupported timeframe")
  }

  /** One list of timeframes: what can be fetched can be aggregated, and the other way round. */
  lemma EndpointIffDuration(tf: string)
    ensures MapPeriodToCandleEndpoint(tf).Ok? <==> ParseTimeframeToDuration(tf).Ok?
  {
  }

  function Digit(c: char): nat {
    if '0' <= c <= '9' then c as nat - '0' as nat else 0
  }

  function Number(digits: string): nat {
    if digits == "" then 0 else 10 * Number(digits[..|digits| - 1]) + Digit(digits[|digits| - 1])
  }

  function SecondsIn(unit: char): nat {
    match unit
    case 'm' => 60
    case 'h' => 60 * 60
    case 'd' => 24 * 60 * 60
    case 'w' => 7 * 24 * 60 * 60
    case 'M' => 30 * 24 * 60 * 60
    case 'y' => 365 * 24 * 60 * 60
    case _ => 0
  }

  lemma NumberOfOne(a: char)
    ensures Number([a]) == Digit(a)
  {
    assert [a][..0] == "";
  }

  lemma NumberOfTwo(a: char, b: char)
    ensures Number([a, b]) == 10 * Digit(a) + Digit(b)
  {
    assert [a, b][..1] == [a];
    NumberOfOne(a);
  }

  lemma NumberOfThree(a: char, b: char, c: char)
    ensures Number([a, b, c]) == 100 * Digit(a) + 10 * Digit(b) + Digit(c)
  {
    assert [a, b, c][..2] == [a, b];
    NumberOfTwo(a, b);
  }

  /** A name says its duration: a number and a unit, the one-second timeframe alone standing for no
      aggregation. */
  lemma NamesSayDurations(tf: string, d: int)
    requires ParseTimeframeToDuration(tf) == Ok(d)
    ensures 2 <= |tf| <= 4
    ensures d == if tf == "1s" then 0 else Number(tf[..|tf| - 1]) * SecondsIn(tf[|tf| - 1])
  {
    if |tf| == 2 {
      assert tf[..1] == [tf[0]];
      NumberOfOne(tf[0]);
    } else if |tf| == 3 {
      assert tf[..2] == [tf[0], tf[1]];
      NumberOfTwo(tf[0], tf[1]);
    } else {
      assert tf[..3] == [tf[0], tf[1], tf[2]];
      NumberOfThree(tf[0], tf[1], tf[2]);
    }
  }

  /** The bars that are fetched are as long as the bars that are cut: an endpoint of n minutes belongs to a
      duration of n minutes, and those of days, weeks, months and years likewise. */
  lemma EndpointsSayDurations(tf: string, endpoint: string, d: int)
    requires MapPeriodToCandleEndpoint(tf) == Ok(endpoint) && ParseTimeframeToDuration(tf) == Ok(d)
    ensures endpoint == "seconds" <==> d == 0
    ensures endpoint == "days" <==> d == SecondsIn('d')
    ensures endpoint == "weeks" <==> d == SecondsIn('w')
    ensures endpoint == "months" <==> d == SecondsIn('M')
    ensures endpoint == "years" <==> d == SecondsIn('y')
    ensures |endpoint| > 8 ==> endpoint[..8] == "minutes/" && d == Number(endpoint[8..]) * 60
    ensures |endpoint| <= 8 ==> endpoint in {"seconds", "days", "weeks", "months", "years"}
  {
    if |endpoint| == 9 {
      assert endpoint[8..] == [endpoint[8]];
      NumberOfOne(endpoint[8]);
    } else if |endpoint| == 10 {
      assert endpoint[8..] == [endpoint[8], endpoint[9]];
      NumberOfTwo(endpoint[8], endpoint[9]);
    } else if |endpoint| == 11 {
      assert endpoint[8..] == [endpoint[8], endpoint[9], endpoint[10]];
      NumberOfThree(endpoint[8], endpoint[9], endpoint[10]);
    }
  }

  /** The durations a timeframe can stand for. */
  ghost predicate Supported(d: int) {
    exists tf: string :: ParseTimeframeToDuration(tf) == Ok(d)
  }

  /** A supported duration is zero, divides a day, or is a whole number of days. */
  lemma SupportedShape(d: int)
    requires Supported(d)
    ensures d == 0 || (0 < d && (DAY % d == 0 || (DAY < d && d % DAY == 0)))
  {
  }

  function KstMidnight(t: int): int {
    (t + KST_OFFSET) / DAY * DAY - KST_OFFSET
  }

  function TruncateKST(t: int, d: int): int {
    var midnight := KstMidnight(t);
    var elapsed := t - midnight;
    // Duration.Truncate leaves the duration alone when the unit is not positive.
    midnight + (if d <= 0 then elapsed else elapsed - elapsed % d)
  }

  /** The boundary initCurrentKey aims at: t itself when it is truncated already, else one duration on. */
  function NextKey(t: int, d: int): int {
    var t0 := TruncateKST(t, d);
    if t0 == t then t0 else t0 + d
  }

  /** The grid of step g through Korean midnight. */
  predicate OnGrid(t: int, g: int)
    requires g > 0
  {
    (t + KST_OFFSET) % g == 0
  }

  lemma NoMultipleInside(a: int, g: int, n: int)
    requires g > 0 && a == g * n && -g < a < g
    ensures a == 0
  {
  }

  lemma MulMono(g: int, a: int, b: int)
    requires 0 <= g && a <= b
    ensures g * a <= g * b
  {
  }

  lemma DivMod(a: int, g: int)
    requires g > 0
    ensures a == g * (a / g) + a % g && 0 <= a % g < g
  {
  }

  lemma ModOfMultiple(a: int, g: int, n: int)
    requires g > 0 && a == g * n
    ensures a % g == 0
  {
    DivMod(a, g);
    assert a % g == g * (n - a / g);
    NoMultipleInside(a % g, g, n - a / g);
  }

  /** Two grid points less than a step apart coincide. */
  lemma GridPointsApart(a: int, b: int, g: int)
    requires g > 0 && OnGrid(a, g) && OnGrid(b, g) && -g < a - b < g
    ensures a == b
  {
    DivMod(a + KST_OFFSET, g);
    DivMod(b + KST_OFFSET, g);
    var n := (a + KST_OFFSET) / g - (b + KST_OFFSET) / g;
    assert a - b == g * n;
    NoMultipleInside(a - b, g, n);
  }

  /** For a duration that divides a day, TruncateKST is the floor onto one global grid. */
  lemma TruncateIsGridFloor(t: int, d: int)
    requires d > 0 && DAY % d == 0
    ensures OnGrid(TruncateKST(t, d), d)
    ensures TruncateKST(t, d) <= t < TruncateKST(t, d) + d
    ensures forall p :: OnGrid(p, d) && p <= t ==> p <= TruncateKST(t, d)
  {
    var q, e := (t + KST_OFFSET) / DAY, t - KstMidnight(t);
    DivMod(e, d);
    DivMod(DAY, d);
    var days := DAY / d;
    assert q * DAY == d * (q * days);
    assert TruncateKST(t, d) + KST_OFFSET == d * (q * days) + d * (e / d) == d * (q * days + e / d);
    ModOfMultiple(TruncateKST(t, d) + KST_OFFSET, d, q * days + e / d);
    forall p | OnGrid(p, d) && p <= t
      ensures p <= TruncateKST(t, d)
    {
      if p > TruncateKST(t, d) {
        GridPointsApart(p, TruncateKST(t, d), d);
      }
    }
  }

  /** Midnight in Korea is nine hours ahead of a day's boundary, at most a day before the instant. */
  lemma MidnightIsNineHoursAhead(t: int)
    ensures KstMidnight(t) <= t < KstMidnight(t) + 24 * 60 * 60
    ensures (KstMidnight(t) + 9 * 60 * 60) % (24 * 60 * 60) == 0
  {
    DivMod(t + KST_OFFSET, DAY);
    ModOfMultiple(KstMidnight(t) + KST_OFFSET, DAY, (t + KST_OFFSET) / DAY);
  }

  /** For a whole number of days, only the time of day is dropped: the grid is the daily one. */
  lemma TruncateWholeDays(t: int, d: int)
    requires d >= DAY
    ensures TruncateKST(t, d) == KstMidnight(t)
    ensures OnGrid(TruncateKST(t, d), DAY)
  {
  }

  /** Truncation is idempotent and monotone for every supported duration. */
  lemma TruncateIdempotentMonotone(t: int, u: int, d: int)
    requires Supported(d) && t <= u
    ensures TruncateKST(TruncateKST(t, d), d) == TruncateKST(t, d)
    ensures TruncateKST(t, d) <= TruncateKST(u, d)
  {
    SupportedShape(d);
    if d > 0 {
      var g := if DAY % d == 0 then d else DAY;
      forall x
        ensures TruncateKST(x, d) == TruncateKST(x, g)
      {
        if g != d {
          TruncateWholeDays(x, d);
          TruncateWholeDays(x, g);
        }
      }
      var a := TruncateKST(t, g);
      TruncateIsGridFloor(t, g);
      TruncateIsGridFloor(u, g);
      TruncateIsGridFloor(a, g);
      assert OnGrid(a, g) && a <= u;
    }
  }

  lemma OnGridAfter(p: int, g: int)
    requires g > 0 && OnGrid(p, g)
    ensures OnGrid(p + g, g)
  {
    DivMod(p + KST_OFFSET, g);
    ModOfMultiple(p + g + KST_OFFSET, g, (p + KST_OFFSET) / g + 1);
  }

  lemma OnGridBefore(p: int, g: int)
    requires g > 0 && OnGrid(p, g)
    ensures OnGrid(p - g, g)
  {
    DivMod(p + KST_OFFSET, g);
    ModOfMultiple(p - g + KST_OFFSET, g, (p + KST_OFFSET) / g - 1);
  }

  /** For a duration that divides a day, the initial key is the least grid point not before t. */
  lemma NextKeyIsLeastGridPoint(t: int, d: int)
    requires d > 0 && DAY % d == 0
    ensures OnGrid(NextKey(t, d), d) && t <= NextKey(t, d) < t + d
    ensures forall p :: OnGrid(p, d) && t <= p ==> NextKey(t, d) <= p
  {
    var t0, key := TruncateKST(t, d), NextKey(t, d);
    TruncateIsGridFloor(t, d);
    DivMod(t0 + KST_OFFSET, d);
    assert t0 + d + KST_OFFSET == d * ((t0 + KST_OFFSET) / d + 1);
    ModOfMultiple(t0 + d + KST_OFFSET, d, (t0 + KST_OFFSET) / d + 1);
    forall p | OnGrid(p, d) && t <= p
      ensures key <= p
    {
      if p < key {
        GridPointsApart(p, key, d);
      }
    }
  }

  /** For a whole number of days the initial key is one duration after the last midnight, or the instant
      itself at midnight. */
  lemma NextKeyWholeDays(t: int, d: int)
    requires d >= DAY
    ensures NextKey(t, d) == if t == KstMidnight(t) then t else KstMidnight(t) + d
  {
    TruncateWholeDays(t, d);
  }

  /** Keys computed at different instants lie on one grid exactly for the durations up to a day: a
      weekly, monthly or yearly aggregator restarted on another day cuts its buckets elsewhere. */
  lemma KeysShareOneGridIff(d: int)
    requires Supported(d) && d > 0
    ensures (forall t, u :: (NextKey(t, d) - NextKey(u, d)) % d == 0) <==> DAY % d == 0
  {
    SupportedShape(d);
    if DAY % d == 0 {
      forall t, u
        ensures (NextKey(t, d) - NextKey(u, d)) % d == 0
      {
        NextKeyIsLeastGridPoint(t, d);
        NextKeyIsLeastGridPoint(u, d);
        var a, b := NextKey(t, d) + KST_OFFSET, NextKey(u, d) + KST_OFFSET;
        DivMod(a, d);
        DivMod(b, d);
        assert a - b == d * (a / d - b / d);
        ModOfMultiple(a - b, d, a / d - b / d);
      }
    } else {
      var t, u := DAY - KST_OFFSET, -KST_OFFSET;
      assert NextKey(t, d) - NextKey(u, d) == DAY;
    }
  }

  /** The preload test of CandlesSubscription and the test nested in it. */
  predicate PreloadBranch(now: int, d: int) {
    NextKey(now, d) - now < d
  }

  predicate PreloadFetch(now: int, d: int) {
    NextKey(now, d) - d < now
  }

  /** The preload branch is taken for every timeframe but one second, and its nested test never fails:
      the fetched window is never empty. */
  lemma PreloadExactly(now: int, d: int)
    requires Supported(d)
    ensures PreloadBranch(now, d) <==> d > 0
    ensures PreloadBranch(now, d) ==> PreloadFetch(now, d)
  {
  }
}
