/** strategy/2025_01_27_PSH_Improved.go as a book of rules: for each trend, which orders a sample and a position
    call for, stated on the columns alone. */
module PshRules {
  import opened Model
  import opened Backtest
  import opened ImprovedPsh

  predicate Over(a: Num, x: real) {
    a.Val? && a.v > x
  }

  predicate Under(a: Num, x: real) {
    a.Val? && a.v < x
  }

  predicate AtLeast(a: Num, x: real) {
    a.Val? && a.v >= x
  }

  predicate AtMost(a: Num, x: real) {
    a.Val? && a.v <= x
  }

  /** Line a was not above line b on the row before the last, and is on the last. */
  predicate TurnsAbove(a: seq<Num>, b: seq<Num>)
    requires |a| == |b| >= 2
  {
    var n := |a|;
    b[n - 1].Val? && Over(a[n - 1], b[n - 1].v) && b[n - 2].Val? && AtMost(a[n - 2], b[n - 2].v)
  }

  predicate TurnsBelow(a: seq<Num>, b: seq<Num>)
    requires |a| == |b| >= 2
  {
    var n := |a|;
    b[n - 1].Val? && Under(a[n - 1], b[n - 1].v) && b[n - 2].Val? && AtLeast(a[n - 2], b[n - 2].v)
  }

  /** The sample has all columns and the eighty rows of the warm-up. */
  predicate Ready(df: Sample) {
    Rectangular(df) && Complete(df) && |df.close| >= 80
  }

  function Last(df: Sample): nat
    requires Ready(df)
  {
    |df.close| - 1
  }

  function At(df: Sample, name: string): Num
    requires Ready(df) && name in df.metadata
  {
    df.metadata[name][Last(df)]
  }

  predicate BarRose(df: Sample)
    requires Ready(df)
  {
    df.close[Last(df)] > df.open[Last(df)]
  }

  predicate BarFell(df: Sample)
    requires Ready(df)
  {
    df.close[Last(df)] < df.open[Last(df)]
  }

  // --- The rules ------------------------------------------------------------------------------------

  predicate VolumeFlowsIn(df: Sample)
    requires Ready(df)
  {
    var obv, i := df.metadata["obv"], Last(df);
    obv[i - 1].Val? && Over(obv[i], obv[i - 1].v)
  }

  predicate BullishBuy(df: Sample)
    requires Ready(df)
  {
    && TurnsAbove(df.metadata["shortMA"], df.metadata["longMA"])
    && TurnsAbove(df.metadata["macd"], df.metadata["macdSignal"])
    && Under(At(df, "rsi"), 70.0) && AtLeast(At(df, "adx"), 25.0)
    && BarRose(df) && df.volume[Last(df)] > df.volume[Last(df) - 1]
  }

  predicate BullishSell(df: Sample)
    requires Ready(df)
  {
    var i := Last(df);
    || TurnsBelow(df.metadata["shortMA"], df.metadata["longMA"])
    || TurnsBelow(df.metadata["macd"], df.metadata["macdSignal"])
    || Over(At(df, "rsi"), 70.0)
    || (df.high[i - 2] > df.high[i - 1] > df.high[i] && BarFell(df) && Over(At(df, "rsi"), 40.0))
  }

  predicate BearishAlarm(df: Sample)
    requires Ready(df)
  {
    Over(At(df, "williamsR"), -20.0) || Over(At(df, "stochRSI_K"), 80.0)
  }

  predicate BearishSell(df: Sample)
    requires Ready(df)
  {
    && TurnsBelow(df.metadata["shortMA"], df.metadata["longMA"])
    && TurnsBelow(df.metadata["macd"], df.metadata["macdSignal"])
    && Over(At(df, "rsi"), 70.0)
  }

  predicate BearishBuy(df: Sample)
    requires Ready(df)
  {
    var i := Last(df);
    && Under(At(df, "rsi"), 30.0)
    && (|| (TurnsAbove(df.metadata["shortMA"], df.metadata["longMA"]) && AtLeast(At(df, "bb_low"), df.close[i]))
        || (df.low[i - 2] < df.low[i - 1] < df.low[i] && BarRose(df)))
  }

  /** The close is in the lower half of the Bollinger band, its middle included. */
  predicate LowerHalf(df: Sample)
    requires Ready(df)
  {
    var up, low := At(df, "bb_up"), At(df, "bb_low");
    up.Val? && low.Val? && 2.0 * df.close[Last(df)] <= up.v + low.v
  }

  predicate UpperHalf(df: Sample)
    requires Ready(df)
  {
    var up, low := At(df, "bb_up"), At(df, "bb_low");
    up.Val? && low.Val? && 2.0 * df.close[Last(df)] >= up.v + low.v
  }

  predicate SidewaysBuy(df: Sample)
    requires Ready(df)
  {
    Under(At(df, "rsi"), 30.0) && LowerHalf(df)
  }

  predicate SidewaysSell(df: Sample)
    requires Ready(df)
  {
    Over(At(df, "rsi"), 70.0) && UpperHalf(df)
  }

  predicate Washout(df: Sample)
    requires Ready(df)
  {
    Under(At(df, "williamsR"), -80.0) && Under(At(df, "stochRSI_K"), 20.0)
  }

  predicate Blowoff(df: Sample)
    requires Ready(df)
  {
    Over(At(df, "williamsR"), -20.0) && Over(At(df, "stochRSI_K"), 80.0)
  }

  // --- The orders -----------------------------------------------------------------------------------

  /** Eight percent below, or forty above, the average price paid. */
  predicate MustExit(b: Broker, price: real) {
    b.coin > 0.0 && (price <= b.avg * 0.92 || price >= b.avg * 1.4)
  }

  predicate BuysAll(o: Order, pair: string, b: Broker) {
    o.pair == pair && o.side == Buy && o.price == b.krw && o.quantity == 0.0 && b.krw >= 5000.0
  }

  predicate BuysPart(o: Order, pair: string, b: Broker, fraction: real) {
    o.pair == pair && o.side == Buy && o.price == b.krw * fraction && o.quantity == 0.0 && b.krw >= 5000.0
  }

  predicate SellsAll(o: Order, pair: string, b: Broker) {
    o.pair == pair && o.side == Sell && o.price == 0.0 && o.quantity == b.coin && b.coin > 0.0
  }

  predicate SellsPart(o: Order, pair: string, b: Broker, fraction: real) {
    o.pair == pair && o.side == Sell && o.price == 0.0 && o.quantity == b.coin * fraction && b.coin > 0.0
  }

  predicate Decides(df: Sample, b: Broker, trend: Trend) {
    Ready(df) && !MustExit(b, df.close[|df.close| - 1]) && df.trend.value[|df.close| - 1] == trend
  }

  lemma ExitIsRiskExit(b: Broker, price: real)
    ensures MustExit(b, price) <==> RiskExit(b, price)
  {
    assert 1.0 - STOP_LOSS == 0.92 && 1.0 + TAKE_PROFIT == 1.4;
  }

  lemma Appended(a: seq<Order>, b: seq<Order>, o: Order)
    ensures o in a + b <==> o in a || o in b
  {
  }

  lemma OneOrder(x: Order, o: Order)
    ensures o in [x] <==> o.pair == x.pair && o.side == x.side && o.price == x.price && o.quantity == x.quantity
  {
    match x
    case Order(_, _, _, _) =>
      match o
      case Order(_, _, _, _) =>
  }

  lemma SellsOf(f: Flags, pair: string, b: Broker, fraction: real, o: Order)
    ensures o in SellPart(f, pair, b.coin, fraction) <==>
      (SellsAll(o, pair, b) && f.strongSell) || (SellsPart(o, pair, b, fraction) && f.normalSell && !f.strongSell)
  {
    OneOrder(SellOrder(pair, b.coin), o);
    OneOrder(SellOrder(pair, Part(b.coin, fraction)), o);
  }

  lemma BuysOf(f: Flags, pair: string, b: Broker, fraction: real, o: Order)
    ensures o in BuyPart(f, pair, b.krw, fraction) <==>
      (BuysAll(o, pair, b) && f.strongBuy) || (BuysPart(o, pair, b, fraction) && f.normalBuy && !f.strongBuy)
  {
    OneOrder(BuyOrder(pair, b.krw), o);
    OneOrder(BuyOrder(pair, Part(b.krw, fraction)), o);
  }

  /** The orders that four flags stand for. */
  lemma OrdersOfFlags(df: Sample, b: Broker, fraction: real, o: Order, f: Flags)
    requires Ready(df) && !MustExit(b, df.close[|df.close| - 1]) && FlagsOf(df) == f
    ensures o in Orders(df, Some(b), fraction) <==>
      || (BuysAll(o, df.pair, b) && f.strongBuy)
      || (BuysPart(o, df.pair, b, fraction) && f.normalBuy && !f.strongBuy)
      || (SellsAll(o, df.pair, b) && f.strongSell)
      || (SellsPart(o, df.pair, b, fraction) && f.normalSell && !f.strongSell)
  {
    ExitIsRiskExit(b, df.close[|df.close| - 1]);
    var sells, buys := SellPart(f, df.pair, b.coin, fraction), BuyPart(f, df.pair, b.krw, fraction);
    assert Orders(df, Some(b), fraction) == sells + buys;
    Appended(sells, buys, o);
    SellsOf(f, df.pair, b, fraction, o);
    BuysOf(f, df.pair, b, fraction, o);
  }

  lemma BullishFlags(df: Sample)
    requires Ready(df) && df.trend.value[Last(df)] == Bullish
    ensures FlagsOf(df) == Flags(VolumeFlowsIn(df), false, BullishBuy(df), BullishSell(df))
  {
  }

  lemma BearishFlags(df: Sample)
    requires Ready(df) && df.trend.value[Last(df)] == Bearish
    ensures FlagsOf(df) == Flags(false, BearishAlarm(df), BearishBuy(df), BearishSell(df))
  {
  }

  lemma SidewaysFlags(df: Sample)
    requires Ready(df) && df.trend.value[Last(df)] == Sideways
    ensures FlagsOf(df) ==
      Flags(SidewaysBuy(df) && Washout(df), SidewaysSell(df) && Blowoff(df), SidewaysBuy(df), SidewaysSell(df))
  {
  }

  /** Bullish: all the money on rising on-balance volume, else a part of it on the two crossings; a part of
      the coins on any weakness. */
  lemma BullishOrders(df: Sample, b: Broker, fraction: real, o: Order)
    requires Decides(df, b, Bullish)
    ensures o in Orders(df, Some(b), fraction) <==>
      || (BuysAll(o, df.pair, b) && VolumeFlowsIn(df))
      || (BuysPart(o, df.pair, b, fraction) && BullishBuy(df) && !VolumeFlowsIn(df))
      || (SellsPart(o, df.pair, b, fraction) && BullishSell(df))
  {
    BullishFlags(df);
    OrdersOfFlags(df, b, fraction, o, FlagsOf(df));
  }

  /** Bearish: all coins on an overbought oscillator, else a part of them on the two crossings; a part of the
      money on an oversold recovery. */
  lemma BearishOrders(df: Sample, b: Broker, fraction: real, o: Order)
    requires Decides(df, b, Bearish)
    ensures o in Orders(df, Some(b), fraction) <==>
      || (SellsAll(o, df.pair, b) && BearishAlarm(df))
      || (SellsPart(o, df.pair, b, fraction) && BearishSell(df) && !BearishAlarm(df))
      || (BuysPart(o, df.pair, b, fraction) && BearishBuy(df))
  {
    BearishFlags(df);
    OrdersOfFlags(df, b, fraction, o, FlagsOf(df));
  }

  /** Sideways: oversold in the lower half of the band buys, overbought in the upper half sells, everything
      where the oscillators agree and a part where they do not. */
  lemma SidewaysOrders(df: Sample, b: Broker, fraction: real, o: Order)
    requires Decides(df, b, Sideways)
    ensures o in Orders(df, Some(b), fraction) <==>
      || (BuysAll(o, df.pair, b) && SidewaysBuy(df) && Washout(df))
      || (BuysPart(o, df.pair, b, fraction) && SidewaysBuy(df) && !Washout(df))
      || (SellsAll(o, df.pair, b) && SidewaysSell(df) && Blowoff(df))
      || (SellsPart(o, df.pair, b, fraction) && SidewaysSell(df) && !Blowoff(df))
  {
    SidewaysFlags(df);
    OrdersOfFlags(df, b, fraction, o, FlagsOf(df));
  }

  /** Stop loss and take profit sell a part of the coins and do nothing else, whatever the trend. */
  lemma ExitOrders(df: Sample, b: Broker, fraction: real)
    requires Ready(df) && MustExit(b, df.close[|df.close| - 1])
    ensures |Orders(df, Some(b), fraction)| == 1 && SellsPart(Orders(df, Some(b), fraction)[0], df.pair, b, fraction)
  {
    ExitIsRiskExit(b, df.close[|df.close| - 1]);
  }

  const SERIES: set<string> := {
    "shortMA", "longMA", "rsi", "bb_up", "bb_low", "macd", "macdSignal", "adx", "obv", "williamsR", "stochRSI_K"
  }

  /** Nothing is published before eighty rows, without one of the series, or without a position. */
  lemma NoOrders(df: Sample, position: Option<Broker>, fraction: real)
    requires Rectangular(df)
    requires |df.close| < 80 || position.None? || df.trend.None? || !(SERIES <= df.metadata.Keys)
    ensures Orders(df, position, fraction) == []
  {
  }
}
