/** strategy/2025_01_27_PSH_Improved.go: the decision tree of OnCandle, and what its orders meet at the
    backtest broker. Indicator series may hold NaN. */
module ImprovedPsh {
  import opened Model
  import opened Backtest

  const STOP_LOSS := 0.08
  const TAKE_PROFIT := 0.4
  const RSI_OVERBOUGHT := Val(70.0)
  const RSI_OVERSOLD := Val(30.0)
  const ADX_TREND := Val(25.0)
  const MINIMUM_KRW := 5000.0
  const WARMUP: nat := 80

  predicate Lt(a: Num, b: Num) {
    a.Val? && b.Val? && a.v < b.v
  }

  predicate Le(a: Num, b: Num) {
    a.Val? && b.Val? && a.v <= b.v
  }

  function Half(a: Num): Num {
    if a.Val? then Val(a.v / 2.0) else NaN
  }

  function Plus(a: Num, b: Num): Num {
    if a.Val? && b.Val? then Val(a.v + b.v) else NaN
  }

  function Minus(a: Num, b: Num): Num {
    if a.Val? && b.Val? then Val(a.v - b.v) else NaN
  }

  /** The sample handed to the strategy: price columns, and the named indicator series. The "trend"
      series is kept apart, as the enumeration its numbers stand for. */
  datatype Sample = Sample(
    pair: string,
    open: seq<real>,
    high: seq<real>,
    low: seq<real>,
    close: seq<real>,
    volume: seq<real>,
    metadata: map<string, seq<Num>>,
    trend: Option<seq<Trend>>)

  const REQUIRED: set<string> := {
    "shortMA", "longMA", "rsi", "bb_up", "bb_low", "macd", "macdSignal", "adx", "obv", "williamsR", "stochRSI_K"
  }

  /** Columns and series have one entry per row. */
  predicate Rectangular(df: Sample) {
    var n := |df.close|;
    && |df.open| == |df.high| == |df.low| == |df.volume| == n
    && (forall k :: k in df.metadata ==> |df.metadata[k]| == n)
    && (df.trend.Some? ==> |df.trend.value| == n)
  }

  predicate Complete(df: Sample) {
    REQUIRED <= df.metadata.Keys && df.trend.Some?
  }

  predicate CrossesAbove(a: seq<Num>, b: seq<Num>, i: nat)
    requires i < |a| && i < |b|
  {
    i >= 1 && Lt(b[i], a[i]) && Le(a[i - 1], b[i - 1])
  }

  predicate CrossesBelow(a: seq<Num>, b: seq<Num>, i: nat)
    requires i < |a| && i < |b|
  {
    i >= 1 && Lt(a[i], b[i]) && Le(b[i - 1], a[i - 1])
  }

  predicate Rising(xs: seq<real>, i: nat)
    requires i < |xs|
  {
    i >= 2 && xs[i - 2] < xs[i - 1] && xs[i - 1] < xs[i]
  }

  predicate Falling(xs: seq<real>, i: nat)
    requires i < |xs|
  {
    i >= 2 && xs[i - 2] > xs[i - 1] && xs[i - 1] > xs[i]
  }

  predicate StopLossTriggered(avgBuyPrice: real, price: real) {
    price <= avgBuyPrice * (1.0 - STOP_LOSS)
  }

  predicate TakeProfitTriggered(avgBuyPrice: real, price: real) {
    price >= avgBuyPrice * (1.0 + TAKE_PROFIT)
  }

  datatype Flags = Flags(strongBuy: bool, strongSell: bool, normalBuy: bool, normalSell: bool)

  /** The four flags of the last row, as formulas. */
  function FlagsOf(df: Sample): Flags
    requires Rectangular(df) && Complete(df) && df.close != []
  {
    var i, m := |df.close| - 1, df.metadata;
    var close, open := Val(df.close[i]), Val(df.open[i]);
    var rsi, up, low := m["rsi"][i], m["bb_up"][i], m["bb_low"][i];
    var golden, death := CrossesAbove(m["shortMA"], m["longMA"], i), CrossesBelow(m["shortMA"], m["longMA"], i);
    var macdUp := CrossesAbove(m["macd"], m["macdSignal"], i);
    var macdDown := CrossesBelow(m["macd"], m["macdSignal"], i);
    match df.trend.value[i]
    case Bullish =>
      Flags(
        i > 0 && Lt(m["obv"][i - 1], m["obv"][i]),
        false,
        golden && macdUp && Lt(rsi, RSI_OVERBOUGHT) && Lt(open, close)
          && i >= 1 && df.volume[i] > df.volume[i - 1] && Le(ADX_TREND, m["adx"][i]),
        death || Lt(RSI_OVERBOUGHT, rsi) || macdDown
          || (Falling(df.high, i) && Lt(close, open) && Lt(Val(40.0), rsi)))
    case Bearish =>
      Flags(
        false,
        Lt(Val(-20.0), m["williamsR"][i]) || Lt(Val(80.0), m["stochRSI_K"][i]),
        (golden && Lt(rsi, RSI_OVERSOLD) && Le(close, low))
          || (Rising(df.low, i) && Lt(open, close) && Lt(rsi, RSI_OVERSOLD)),
        death && Lt(RSI_OVERBOUGHT, rsi) && macdDown)
    case Sideways =>
      var buy := Lt(rsi, RSI_OVERSOLD) && Le(close, Plus(low, Half(Minus(up, low))));
      var sell := Lt(RSI_OVERBOUGHT, rsi) && Le(Minus(up, Half(Minus(up, low))), close);
      Flags(
        buy && Lt(m["williamsR"][i], Val(-80.0)) && Lt(m["stochRSI_K"][i], Val(20.0)),
        sell && Lt(Val(-20.0), m["williamsR"][i]) && Lt(Val(80.0), m["stochRSI_K"][i]),
        buy,
        sell)
  }

  /** The share of a position that an order of normal strength trades. */
  function Part(amount: real, fraction: real): real {
    amount * fraction
  }

  function BuyOrder(pair: string, amount: real): Order {
    Order(pair, Buy, amount, 0.0)
  }

  function SellOrder(pair: string, quantity: real): Order {
    Order(pair, Sell, 0.0, quantity)
  }

  function SellPart(f: Flags, pair: string, coin: real, fraction: real): seq<Order> {
    if coin <= 0.0 then []
    else if f.strongSell then [SellOrder(pair, coin)]
    else if f.normalSell then [SellOrder(pair, Part(coin, fraction))]
    else []
  }

  function BuyPart(f: Flags, pair: string, krw: real, fraction: real): seq<Order> {
    if krw < MINIMUM_KRW then []
    else if f.strongBuy then [BuyOrder(pair, krw)]
    else if f.normalBuy then [BuyOrder(pair, Part(krw, fraction))]
    else []
  }

  /** Stop loss or take profit on what is held. */
  predicate RiskExit(b: Broker, price: real) {
    b.coin > 0.0 && (StopLossTriggered(b.avg, price) || TakeProfitTriggered(b.avg, price))
  }

  /** The orders published for a sample. No position stands for a broker that answers with an error. */
  function Orders(df: Sample, position: Option<Broker>, fraction: real): seq<Order>
    requires Rectangular(df)
  {
    if |df.close| < WARMUP || !Complete(df) || position.None? then []
    else
      var b := position.value;
      if RiskExit(b, df.close[|df.close| - 1]) then [SellOrder(df.pair, Part(b.coin, fraction))]
      else
        var f := FlagsOf(df);
        SellPart(f, df.pair, b.coin, fraction) + BuyPart(f, df.pair, b.krw, fraction)
  }

  /** The strategy as coded: flags are set branch by branch, orders published one after the other. */
  method OnCandle(df: Sample, position: Option<Broker>, tradeFraction: real) returns (published: seq<Order>)
    requires Rectangular(df)
    ensures published == Orders(df, position, tradeFraction)
  {
    published := [];
    var i := |df.close| - 1;
    if i < WARMUP - 1 || !(REQUIRED <= df.metadata.Keys) || df.trend.None? || position.None? {
      return;
    }
    var Broker(krwAmt, coinAmt, avgBuyPrice) := position.value;
    var closePrice, openPrice, m := df.close[i], df.open[i], df.metadata;

    if coinAmt > 0.0 {
      if StopLossTriggered(avgBuyPrice, closePrice) {
        return [SellOrder(df.pair, Part(coinAmt, tradeFraction))];
      }
      if TakeProfitTriggered(avgBuyPrice, closePrice) {
        return [SellOrder(df.pair, Part(coinAmt, tradeFraction))];
      }
    }

    var f := SetFlags(df);
    if f.strongSell {
      if coinAmt > 0.0 {
        published := published + [SellOrder(df.pair, coinAmt)];
      }
    } else if f.normalSell {
      if coinAmt > 0.0 {
        published := published + [SellOrder(df.pair, Part(coinAmt, tradeFraction))];
      }
    }
    ghost var sells := published;
    assert sells == SellPart(f, df.pair, coinAmt, tradeFraction);
    if f.strongBuy {
      if krwAmt >= MINIMUM_KRW {
        published := published + [BuyOrder(df.pair, krwAmt)];
      }
    } else if f.normalBuy {
      if krwAmt >= MINIMUM_KRW {
        published := published + [BuyOrder(df.pair, Part(krwAmt, tradeFraction))];
      }
    }
    assert published == sells + BuyPart(f, df.pair, krwAmt, tradeFraction);
  }

  method SetFlags(df: Sample) returns (f: Flags)
    requires Rectangular(df) && Complete(df) && df.close != []
    ensures f == FlagsOf(df)
  {
    var i, m := |df.close| - 1, df.metadata;
    var closePrice, openPrice, rsi := df.close[i], df.open[i], m["rsi"][i];
    var strongBuy, strongSell, normalBuy, normalSell := false, false, false, false;
    match df.trend.value[i] {
      case Bullish =>
        if CrossesAbove(m["shortMA"], m["longMA"], i) && CrossesAbove(m["macd"], m["macdSignal"], i) &&
           Lt(rsi, RSI_OVERBOUGHT) && closePrice > openPrice && i >= 1 && df.volume[i] > df.volume[i - 1] &&
           Le(ADX_TREND, m["adx"][i]) {
          normalBuy := true;
        }
        if i > 0 && Lt(m["obv"][i - 1], m["obv"][i]) {
          strongBuy := true;
        }
        if CrossesBelow(m["shortMA"], m["longMA"], i) || Lt(RSI_OVERBOUGHT, rsi) ||
           CrossesBelow(m["macd"], m["macdSignal"], i) {
          normalSell := true;
        }
        if Falling(df.high, i) && closePrice < openPrice && Lt(Plus(RSI_OVERSOLD, Val(10.0)), rsi) {
          normalSell := true;
        }
      case Bearish =>
        if CrossesBelow(m["shortMA"], m["longMA"], i) && Lt(RSI_OVERBOUGHT, rsi) &&
           CrossesBelow(m["macd"], m["macdSignal"], i) {
          normalSell := true;
        }
        if Lt(Val(-20.0), m["williamsR"][i]) || Lt(Val(80.0), m["stochRSI_K"][i]) {
          strongSell := true;
        }
        if CrossesAbove(m["shortMA"], m["longMA"], i) && Lt(rsi, RSI_OVERSOLD) && Le(Val(closePrice), m["bb_low"][i]) {
          normalBuy := true;
        }
        if Rising(df.low, i) && closePrice > openPrice && Lt(rsi, RSI_OVERSOLD) {
          normalBuy := true;
        }
      case Sideways =>
        var up, low := m["bb_up"][i], m["bb_low"][i];
        if Lt(rsi, RSI_OVERSOLD) && Le(Val(closePrice), Plus(low, Half(Minus(up, low)))) {
          normalBuy := true;
          if Lt(m["williamsR"][i], Val(-80.0)) && Lt(m["stochRSI_K"][i], Val(20.0)) {
            strongBuy := true;
          }
        }
        if Lt(RSI_OVERBOUGHT, rsi) && Le(Minus(up, Half(Minus(up, low))), Val(closePrice)) {
          normalSell := true;
          if Lt(Val(-20.0), m["williamsR"][i]) && Lt(Val(80.0), m["stochRSI_K"][i]) {
            strongSell := true;
          }
        }
    }
    f := Flags(strongBuy, strongSell, normalBuy, normalSell);
  }

  // --- What the decisions have in common -----------------------------------------------------------

  /** Signals of equal strength never contradict each other; a candle both sells and buys only when a
      bullish one has rising OBV with a normal sell, or a bearish one an overbought oscillator with a normal buy. */
  lemma ContradictionsAreOfMixedStrength(df: Sample)
    requires Rectangular(df) && Complete(df) && df.close != []
    ensures var f, trend := FlagsOf(df), df.trend.value[|df.close| - 1];
      && !(f.normalBuy && f.normalSell)
      && !(f.strongBuy && f.strongSell)
      && (f.strongBuy && f.normalSell ==> trend == Bullish)
      && (f.strongSell && f.normalBuy ==> trend == Bearish)
      && (trend == Sideways ==> !((f.strongBuy || f.normalBuy) && (f.strongSell || f.normalSell)))
  {
  }

  /** A published order is of a positive size and within the position it was sized by. */
  predicate Affordable(o: Order, b: Broker) {
    match o.side
    case Buy => MINIMUM_KRW <= b.krw && 0.0 < o.price <= b.krw
    case Sell => 0.0 < o.quantity <= b.coin
  }

  lemma FractionOf(x: real, fraction: real)
    requires x > 0.0 && 0.0 < fraction <= 1.0
    ensures 0.0 < Part(x, fraction) <= x
  {
  }

  predicate SellThenBuy(os: seq<Order>, b: Broker) {
    && |os| <= 2
    && (forall i :: 0 <= i < |os| ==> Affordable(os[i], b))
    && (|os| == 2 ==> os[0].side == Sell && os[1].side == Buy)
  }

  lemma PartsAreAffordable(f: Flags, pair: string, b: Broker, fraction: real)
    requires 0.0 < fraction <= 1.0
    ensures SellThenBuy(SellPart(f, pair, b.coin, fraction) + BuyPart(f, pair, b.krw, fraction), b)
  {
    if b.coin > 0.0 {
      FractionOf(b.coin, fraction);
    }
    if b.krw > 0.0 {
      FractionOf(b.krw, fraction);
    }
  }

  /** At most one sell and after it at most one buy, each affordable; a risk exit comes alone. */
  lemma OrdersAreAffordable(df: Sample, b: Broker, fraction: real)
    requires Rectangular(df) && 0.0 < fraction <= 1.0
    ensures SellThenBuy(Orders(df, Some(b), fraction), b)
    ensures Orders(df, Some(b), fraction) != [] && RiskExit(b, df.close[|df.close| - 1]) ==>
      Orders(df, Some(b), fraction) == [SellOrder(df.pair, Part(b.coin, fraction))]
  {
    if |df.close| >= WARMUP && Complete(df) {
      if RiskExit(b, df.close[|df.close| - 1]) {
        FractionOf(b.coin, fraction);
      } else {
        PartsAreAffordable(FlagsOf(df), df.pair, b, fraction);
      }
    }
  }

  // --- Drained between candles, nothing is rejected ------------------------------------------------

  /** A body of events between two candles: publications of the given orders, in order, and executions. */
  function PublishedIn(body: seq<Event>): seq<Order> {
    if body == [] then []
    else
      var e := body[|body| - 1];
      if e.Publish? then PublishedIn(body[..|body| - 1]) + [e.order] else PublishedIn(body[..|body| - 1])
  }

  predicate NoTick(body: seq<Event>) {
    forall i :: 0 <= i < |body| ==> !body[i].Tick?
  }

  /** No event of the sequence rejects an order. */
  predicate NothingRejected(s: State, es: seq<Event>)
    requires Sound(s)
  {
    es == [] ||
    (NothingRejected(s, es[..|es| - 1]) && !Rejects(RunFrom(s, es[..|es| - 1]), es[|es| - 1]))
  }

  /** Where the broker stands once k of the orders are done. */
  predicate Partway(b: Broker, os: seq<Order>, k: nat, t: Broker)
    requires k <= |os|
  {
    (k == 0 ==> t == b) && (k == 1 && os[0].side == Sell ==> t.krw >= b.krw)
  }

  /** m of the orders are published; those still queued are the last of them, the others are done. */
  predicate Handling(s: State, os: seq<Order>, m: nat, t: State) {
    && m <= |os| && |t.queue| <= m
    && t.price == s.price
    && t.queue == os[m - |t.queue|..m]
    && Partway(s.broker, os, m - |t.queue|, t.broker)
  }

  lemma ExecutionIsAccepted(s: State, os: seq<Order>, m: nat, t: State)
    requires Sound(s) && s.price > 0.0 && SellThenBuy(os, s.broker) && Sound(t) && Handling(s, os, m, t)
    requires t.queue != []
    ensures Accepts(t.broker, t.queue[0])
    ensures Handling(s, os, m, Apply(t, Execute))
  {
  }

  lemma PublicationIsQueued(s: State, os: seq<Order>, m: nat, t: State)
    requires Sound(s) && s.price > 0.0 && SellThenBuy(os, s.broker) && Sound(t) && Handling(s, os, m, t)
    requires m < |os|
    ensures Handling(s, os, m + 1, Apply(t, Publish(os[m])))
  {
  }

  lemma HandlingGoesOn(s: State, os: seq<Order>, m: nat, t: State, e: Event)
    requires Sound(s) && s.price > 0.0 && SellThenBuy(os, s.broker) && Sound(t) && Handling(s, os, m, t)
    requires !e.Tick? && (e.Publish? ==> m < |os| && e.order == os[m])
    ensures !Rejects(t, e)
    ensures Handling(s, os, if e.Publish? then m + 1 else m, Apply(t, e))
  {
    if e.Publish? {
      PublicationIsQueued(s, os, m, t);
    } else if t.queue != [] {
      ExecutionIsAccepted(s, os, m, t);
    }
  }

  /** However publications and executions interleave while a candle is handled, from an empty queue no
      order the strategy sized by its position at the candle is rejected. */
  lemma {:induction false} BodyRejectsNothing(s: State, os: seq<Order>, body: seq<Event>)
    requires Sound(s) && s.queue == [] && s.price > 0.0 && SellThenBuy(os, s.broker)
    requires NoTick(body) && PublishedIn(body) <= os
    ensures NothingRejected(s, body)
    ensures Handling(s, os, |PublishedIn(body)|, RunFrom(s, body))
  {
    if body != [] {
      var init, e := body[..|body| - 1], body[|body| - 1];
      assert PublishedIn(init) <= os;
      BodyRejectsNothing(s, os, init);
      HandlingGoesOn(s, os, |PublishedIn(init)|, RunFrom(s, init), e);
    }
  }

  /** One candle of a backtest: its sample, and the events until the next one. */
  datatype Round = Round(df: Sample, body: seq<Event>)

  /** The state once the round's candle has set the price. */
  function Opened(s: State, r: Round): (t: State)
    requires Sound(s) && r.df.close != []
    ensures Sound(t)
  {
    var e := Tick(r.df.close[|r.df.close| - 1]);
    ApplyIsSound(s, e);
    Apply(s, e)
  }

  /** In the round the strategy publishes exactly its orders for the position it finds, and the queue is
      drained before the next candle. */
  predicate Drained(s: State, r: Round, fraction: real)
    requires Sound(s)
  {
    && Rectangular(r.df) && r.df.close != [] && r.df.close[|r.df.close| - 1] > 0.0
    && NoTick(r.body)
    && PublishedIn(r.body) == Orders(r.df, Some(s.broker), fraction)
    && RunFrom(Opened(s, r), r.body).queue == []
  }

  lemma DrainedRoundRejectsNothing(s: State, r: Round, fraction: real)
    requires Sound(s) && s.queue == [] && 0.0 < fraction <= 1.0 && Drained(s, r, fraction)
    ensures NothingRejected(Opened(s, r), r.body)
  {
    OrdersAreAffordable(r.df, s.broker, fraction);
    BodyRejectsNothing(Opened(s, r), Orders(r.df, Some(s.broker), fraction), r.body);
  }

  function AfterRounds(s: State, rounds: seq<Round>, fraction: real): Option<State>
    requires Sound(s)
    ensures AfterRounds(s, rounds, fraction).Some? ==> Sound(AfterRounds(s, rounds, fraction).value)
  {
    if rounds == [] then Some(s)
    else
      var before, r := AfterRounds(s, rounds[..|rounds| - 1], fraction), rounds[|rounds| - 1];
      if before.Some? && Drained(before.value, r, fraction) then Some(RunFrom(Opened(before.value, r), r.body)) else None
  }

  /** A backtest whose queue is drained between candles never rejects an order of the strategy: in every
      round that follows a drained history, nothing is rejected. */
  lemma {:induction false} DrainedBacktestRejectsNothing(krw: real, rounds: seq<Round>, fraction: real, k: nat)
    requires krw >= 0.0 && 0.0 < fraction <= 1.0 && k < |rounds|
    requires AfterRounds(Start(krw), rounds, fraction).Some?
    ensures AfterRounds(Start(krw), rounds[..k], fraction).Some?
    ensures rounds[k].df.close != []
    ensures NothingRejected(Opened(AfterRounds(Start(krw), rounds[..k], fraction).value, rounds[k]), rounds[k].body)
    ensures AfterRounds(Start(krw), rounds, fraction).value.queue == []
    decreases |rounds|
  {
    var init, r := rounds[..|rounds| - 1], rounds[|rounds| - 1];
    if k < |init| {
      assert rounds[..k] == init[..k];
      DrainedBacktestRejectsNothing(krw, init, fraction, k);
    } else {
      assert rounds[..k] == init;
      if init != [] {
        DrainedBacktestRejectsNothing(krw, init, fraction, 0);
      }
      DrainedRoundRejectsNothing(AfterRounds(Start(krw), init, fraction).value, r, fraction);
    }
  }
}
