/** programs/backtesting/validate.go: merging buy and sell decisions into one signal a date, and the
    all-in backtest that trades on them. Dates are the instants their strings name. */
module Validate {
  import opened Model

  datatype Signal = Signal(date: int, action: Side, price: real, trend: Trend)

  /** What the indicators decided on one candle. */
  datatype Decision = Decision(date: int, sell: bool, buy: bool, close: real, trend: Trend)

  predicate Decides(d: Decision, date: int, side: Side) {
    d.date == date && if side == Sell then d.sell else d.buy
  }

  /** The first decision for the side on a date. */
  function First(ds: seq<Decision>, date: int, side: Side): Option<Decision> {
    if ds == [] then None
    else
      var before, d := First(ds[..|ds| - 1], date, side), ds[|ds| - 1];
      if before.None? && Decides(d, date, side) then Some(d) else before
  }

  /** It is the one before which there is no other. */
  lemma {:induction false} FirstIsTheFirst(ds: seq<Decision>, date: int, side: Side)
    ensures First(ds, date, side).None? <==> forall i :: 0 <= i < |ds| ==> !Decides(ds[i], date, side)
    ensures First(ds, date, side).Some? ==>
      exists i :: 0 <= i < |ds| && First(ds, date, side) == Some(ds[i]) && Decides(ds[i], date, side)
        && forall j :: 0 <= j < i ==> !Decides(ds[j], date, side)
  {
    if ds != [] {
      var n := |ds| - 1;
      FirstIsTheFirst(ds[..n], date, side);
      assert forall i :: 0 <= i < n ==> ds[..n][i] == ds[i];
      if First(ds[..n], date, side).Some? {
        var i :| 0 <= i < n && First(ds[..n], date, side) == Some(ds[..n][i]) && Decides(ds[..n][i], date, side)
          && forall j :: 0 <= j < i ==> !Decides(ds[..n][j], date, side);
        assert Decides(ds[i], date, side);
      }
    }
  }

  function ToSignal(d: Decision, side: Side): Signal {
    Signal(d.date, side, d.close, d.trend)
  }

  /** The signal of a date: its first sell, and only without one its first buy. */
  function SignalFor(ds: seq<Decision>, date: int): Option<Signal> {
    var sell, buy := First(ds, date, Sell), First(ds, date, Buy);
    if sell.Some? then Some(ToSignal(sell.value, Sell))
    else if buy.Some? then Some(ToSignal(buy.value, Buy))
    else None
  }

  predicate Carries(s: Signal, d: Decision, side: Side) {
    s.date == d.date && s.action == side && s.price == d.close && s.trend == d.trend
  }

  /** A date has a signal exactly when some candle of it decides for a side; it is a sell exactly when one
      decides to sell, and carries close and trend of the first such candle. */
  lemma SignalIsOfTheFirst(ds: seq<Decision>, date: int)
    ensures SignalFor(ds, date).Some? <==> exists i :: 0 <= i < |ds| && ds[i].date == date && (ds[i].sell || ds[i].buy)
    ensures SignalFor(ds, date).Some? ==>
      var s := SignalFor(ds, date).value;
      && (s.action == Sell <==> exists i :: 0 <= i < |ds| && ds[i].date == date && ds[i].sell)
      && exists i :: 0 <= i < |ds| && Carries(s, ds[i], s.action) && Decides(ds[i], date, s.action)
           && forall j :: 0 <= j < i ==> !Decides(ds[j], date, s.action)
  {
    FirstIsTheFirst(ds, date, Sell);
    FirstIsTheFirst(ds, date, Buy);
    assert forall i :: 0 <= i < |ds| ==> (Decides(ds[i], date, Sell) <==> ds[i].date == date && ds[i].sell);
    assert forall i :: 0 <= i < |ds| ==> (Decides(ds[i], date, Buy) <==> ds[i].date == date && ds[i].buy);
  }

  function At(m: map<int, Signal>, date: int): Option<Signal> {
    if date in m then Some(m[date]) else None
  }

  lemma OrderedKeys(dates: seq<int>, keys: set<int>)
    requires SortedBy(dates, d => d) && multiset(dates) == multiset(keys)
    ensures forall i, j :: 0 <= i < j < |dates| ==> dates[i] < dates[j]
    ensures forall d :: d in dates <==> d in keys
  {
    forall i: nat, j: nat | i < j < |dates|
      ensures dates[i] < dates[j]
    {
      SortedStrictly(dates, d => d, i, j);
    }
    forall d
      ensures d in dates <==> d in keys
    {
      assert d in dates <==> d in multiset(dates);
    }
  }

  /** The keys, the map being walked in any order. */
  method Keys(m: map<int, Signal>) returns (keys: seq<int>)
    ensures multiset(keys) == multiset(m.Keys)
  {
    var todo: set<int> := m.Keys;
    ghost var done: set<int> := {};
    keys := [];
    while todo != {}
      invariant todo + done == m.Keys && todo !! done
      invariant multiset(keys) == multiset(done)
      decreases todo
    {
      var date := Pick(todo);
      keys, todo, done := keys + [date], todo - {date}, done + {date};
    }
    assert done == m.Keys;
  }

  method MergeSignals(decisions: seq<Decision>) returns (signalMap: map<int, Signal>)
    ensures forall date :: At(signalMap, date) == SignalFor(decisions, date)
  {
    signalMap := map[];
    for i := 0 to |decisions|
      invariant forall date :: At(signalMap, date) == SignalFor(decisions[..i], date)
    {
      var d := decisions[i];
      ghost var before := signalMap;
      assert decisions[..i + 1][..i] == decisions[..i];
      assert At(before, d.date) == SignalFor(decisions[..i], d.date);
      FirstHasDate(decisions[..i], d.date, Sell);
      if d.sell {
        if d.date !in signalMap || signalMap[d.date].action != Sell {
          signalMap := signalMap[d.date := ToSignal(d, Sell)];
        }
      }
      if d.buy {
        if d.date !in signalMap {
          signalMap := signalMap[d.date := ToSignal(d, Buy)];
        }
      }
      forall date
        ensures At(signalMap, date) == SignalFor(decisions[..i + 1], date)
      {
        assert At(before, date) == SignalFor(decisions[..i], date);
      }
    }
    assert decisions[..|decisions|] == decisions;
  }

  lemma SignalHasDate(ds: seq<Decision>, date: int)
    ensures SignalFor(ds, date).Some? ==> SignalFor(ds, date).value.date == date
  {
    FirstHasDate(ds, date, Sell);
    FirstHasDate(ds, date, Buy);
  }

  /** One signal a date, dates strictly ascending: exactly the signals the decisions from the second
      candle on call for. */
  method GenerateSignals(decisions: seq<Decision>) returns (signals: seq<Signal>)
    ensures forall i, j :: 0 <= i < j < |signals| ==> signals[i].date < signals[j].date
    ensures forall s :: s in signals <==>
      decisions != [] && SignalFor(decisions[1..], s.date) == Some(s)
  {
    signals := [];
    if decisions == [] {
      return;
    }
    ghost var rest := decisions[1..];
    var signalMap := MergeSignals(decisions[1..]);
    var keys := Keys(signalMap);
    var dates := SortBy(keys, d => d);
    OrderedKeys(dates, signalMap.Keys);
    for i := 0 to |dates|
      invariant |signals| == i
      invariant forall k :: 0 <= k < i ==> signals[k].date == dates[k] && SignalFor(rest, dates[k]) == Some(signals[k])
    {
      var date := dates[i];
      assert date in dates;
      assert At(signalMap, date) == SignalFor(rest, date);
      SignalHasDate(rest, date);
      signals := signals + [signalMap[date]];
    }
    forall s: Signal | SignalFor(rest, s.date) == Some(s)
      ensures s in signals
    {
      assert At(signalMap, s.date) == SignalFor(rest, s.date);
      assert s.date in dates;
      var k :| 0 <= k < |dates| && dates[k] == s.date;
      assert signals[k] == s;
    }
  }

  lemma {:induction false} FirstHasDate(ds: seq<Decision>, date: int, side: Side)
    ensures First(ds, date, side).Some? ==> Decides(First(ds, date, side).value, date, side)
  {
    if ds != [] {
      FirstHasDate(ds[..|ds| - 1], date, side);
    }
  }

  /** A candle that calls for both sides leaves a sell on its date. */
  lemma {:induction false} SellWins(ds: seq<Decision>, d: Decision)
    requires d in ds && d.sell
    ensures SignalFor(ds, d.date).Some? && SignalFor(ds, d.date).value.action == Sell
  {
    var init := ds[..|ds| - 1];
    if ds[|ds| - 1] != d {
      assert d in init;
      SellWins(init, d);
    }
  }

  // --- The all-in machine --------------------------------------------------------------------------

  datatype TradeType = BUY | SELL | FINAL_SELL

  datatype Trade = Trade(
    kind: TradeType,
    buyDate: int,
    sellDate: Option<int>,
    buyPrice: real,
    sellPrice: real,
    percent: real,
    position: real,
    balance: real)

  datatype Machine = Machine(balance: real, position: real, buyPrice: real, buyDate: int, trades: seq<Trade>)

  function SellAt(m: Machine, kind: TradeType, date: int, close: real): Machine
    requires m.buyPrice > 0.0
  {
    var balance := Times(m.position, close);
    Machine(balance, 0.0, m.buyPrice, m.buyDate, m.trades + [
      Trade(kind, m.buyDate, Some(date), m.buyPrice, close,
            Share(close - m.buyPrice, m.buyPrice) * 100.0, 0.0, balance)])
  }

  function BuyAt(m: Machine, date: int, close: real): Machine
    requires close > 0.0
  {
    var position := Share(m.balance, close);
    Machine(0.0, position, close, date, m.trades + [
      Trade(BUY, date, None, close, 0.0, 0.0, position, 0.0)])
  }

  predicate PositiveCloses(candles: map<int, Candle>) {
    forall d :: d in candles ==> candles[d].close > 0.0
  }

  /** A machine that holds something knows what it paid. */
  predicate Priced(m: Machine) {
    m.position > 0.0 ==> m.buyPrice > 0.0
  }

  function OnSignal(m: Machine, s: Signal, candles: map<int, Candle>): Machine
    requires PositiveCloses(candles) && Priced(m)
  {
    if s.date !in candles then m
    else
      var c := candles[s.date];
      if s.action == Buy then
        if m.balance >= c.close then BuyAt(m, c.time, c.close) else m
      else if m.position > 0.0 && c.close > m.buyPrice then SellAt(m, SELL, c.time, c.close)
      else m
  }

  function Trading(initial: real, signals: seq<Signal>, candles: map<int, Candle>): (m: Machine)
    requires PositiveCloses(candles)
    ensures Priced(m)
  {
    if signals == [] then Machine(initial, 0.0, 0.0, 0, [])
    else OnSignal(Trading(initial, signals[..|signals| - 1], candles), signals[|signals| - 1], candles)
  }

  function Closing(m: Machine, data: seq<Candle>): Machine
    requires Priced(m)
  {
    if m.position > 0.0 && data != [] && data[|data| - 1].close > m.buyPrice
    then SellAt(m, FINAL_SELL, data[|data| - 1].time, data[|data| - 1].close)
    else m
  }

  /** The candles by date, the last of equal dates winning. */
  function ByDate(data: seq<Candle>): map<int, Candle> {
    if data == [] then map[] else ByDate(data[..|data| - 1])[data[|data| - 1].time := data[|data| - 1]]
  }

  lemma {:induction false} ByDateFromData(data: seq<Candle>)
    ensures forall d :: d in ByDate(data) ==> ByDate(data)[d] in data && data != []
  {
    if data != [] {
      ByDateFromData(data[..|data| - 1]);
    }
  }

  lemma {:induction false} NothingBoughtWithoutData(initial: real, signals: seq<Signal>)
    ensures Trading(initial, signals, map[]).position == 0.0
  {
    if signals != [] {
      NothingBoughtWithoutData(initial, signals[..|signals| - 1]);
    }
  }

  method IndexByDate(data: seq<Candle>) returns (candleMap: map<int, Candle>)
    ensures candleMap == ByDate(data)
  {
    candleMap := map[];
    for i := 0 to |data|
      invariant candleMap == ByDate(data[..i])
    {
      assert data[..i + 1][..i] == data[..i];
      candleMap := candleMap[data[i].time := data[i]];
    }
    assert data[..|data|] == data;
  }

  method Backtest(data: seq<Candle>, signals: seq<Signal>, initialBalance: real)
    returns (balance: real, trades: seq<Trade>)
    requires forall i :: 0 <= i < |data| ==> data[i].close > 0.0
    ensures PositiveCloses(ByDate(data))
    ensures var m := Closing(Trading(initialBalance, signals, ByDate(data)), data);
      balance == m.balance && trades == m.trades
  {
    var candleMap := IndexByDate(data);
    ByDateFromData(data);
    balance, trades := initialBalance, [];
    var position, buyPrice, buyDate := 0.0, 0.0, 0;
    for i := 0 to |signals|
      invariant Machine(balance, position, buyPrice, buyDate, trades) == Trading(initialBalance, signals[..i], candleMap)
    {
      assert signals[..i + 1][..i] == signals[..i];
      var signal := signals[i];
      if signal.date !in candleMap {
        continue;
      }
      var candle := candleMap[signal.date];
      if signal.action == Buy {
        if balance >= candle.close {
          position := Share(balance, candle.close);
          buyPrice := candle.close;
          buyDate := candle.time;
          balance := 0.0;
          trades := trades + [Trade(BUY, buyDate, None, buyPrice, 0.0, 0.0, position, balance)];
        }
      } else if position > 0.0 {
        if candle.close > buyPrice {
          balance := Times(position, candle.close);
          position := 0.0;
          trades := trades + [Trade(SELL, buyDate, Some(candle.time), buyPrice, candle.close,
                                    Share(candle.close - buyPrice, buyPrice) * 100.0, position, balance)];
        }
      }
    }
    assert signals[..|signals|] == signals;

    if position > 0.0 {
      if data == [] {
        NothingBoughtWithoutData(initialBalance, signals);
        assert false;
      }
      var last := data[|data| - 1];
      if last.close > buyPrice {
        balance := Times(position, last.close);
        position := 0.0;
        trades := trades + [Trade(FINAL_SELL, buyDate, Some(last.time), buyPrice, last.close,
                                  Share(last.close - buyPrice, buyPrice) * 100.0, position, balance)];
      }
    }
  }

  // --- Which signals are traded ----------------------------------------------------------------------

  /** What the machine looks up under a date: the last of the candles of that time. */
  lemma {:induction false} ByDateIsTheLast(data: seq<Candle>, date: int)
    ensures date in ByDate(data) <==> exists i :: 0 <= i < |data| && data[i].time == date
    ensures date in ByDate(data) ==>
      exists i :: 0 <= i < |data| && data[i].time == date && ByDate(data)[date] == data[i]
        && forall j :: i < j < |data| ==> data[j].time != date
  {
    if data != [] {
      var n := |data| - 1;
      ByDateIsTheLast(data[..n], date);
      assert forall i :: 0 <= i < n ==> data[..n][i] == data[i];
      assert data[n].time == data[n].time;
    }
  }

  /** The signal is a buy on a date with a candle whose close the balance reaches. */
  predicate Buys(m: Machine, s: Signal, candles: map<int, Candle>) {
    s.action == Buy && s.date in candles && candles[s.date].close <= m.balance
  }

  /** The signal is a sell on a date with a candle whose close is above the price paid for what is held. */
  predicate Sells(m: Machine, s: Signal, candles: map<int, Candle>) {
    s.action == Sell && s.date in candles && m.position > 0.0 && candles[s.date].close > m.buyPrice
  }

  /** A sale of what was bought at the machine's buy date and price. */
  predicate Sale(t: Trade, kind: TradeType, m: Machine, c: Candle) {
    && t.kind == kind && t.buyDate == m.buyDate && t.buyPrice == m.buyPrice
    && t.sellDate == Some(c.time) && t.sellPrice == c.close
    && t.percent * m.buyPrice == (c.close - m.buyPrice) * 100.0
    && t.position == 0.0 && t.balance == m.position * c.close
  }

  predicate Purchase(t: Trade, m: Machine, c: Candle) {
    && t.kind == BUY && t.buyDate == c.time && t.buyPrice == c.close && t.sellDate == None
    && t.position * c.close == m.balance && t.balance == 0.0
  }

  lemma SaleAdds(m: Machine, kind: TradeType, c: Candle)
    requires m.buyPrice > 0.0
    ensures var after := SellAt(m, kind, c.time, c.close);
      && |after.trades| == |m.trades| + 1 && m.trades <= after.trades
      && Sale(after.trades[|m.trades|], kind, m, c)
      && after.balance == m.position * c.close && after.position == 0.0
  {
    assert Share(c.close - m.buyPrice, m.buyPrice) * m.buyPrice == c.close - m.buyPrice;
  }

  lemma PurchaseAdds(m: Machine, c: Candle)
    requires c.close > 0.0
    ensures var after := BuyAt(m, c.time, c.close);
      && |after.trades| == |m.trades| + 1 && m.trades <= after.trades
      && Purchase(after.trades[|m.trades|], m, c)
      && after.balance == 0.0 && after.position * c.close == m.balance
      && after.buyDate == c.time && after.buyPrice == c.close
  {
    assert Share(m.balance, c.close) * c.close == m.balance;
  }

  /** One more signal adds a purchase exactly when it is a buy that is within reach, a sale exactly when it is
      a sell above the price paid, each with that candle's date and close; else everything stays. */
  lemma SignalIsTradedIff(initial: real, signals: seq<Signal>, s: Signal, candles: map<int, Candle>)
    requires PositiveCloses(candles)
    ensures var m, after := Trading(initial, signals, candles), Trading(initial, signals + [s], candles);
      if Buys(m, s, candles) then
        |after.trades| == |m.trades| + 1 && m.trades <= after.trades
        && Purchase(after.trades[|m.trades|], m, candles[s.date])
        && after.buyDate == candles[s.date].time && after.buyPrice == candles[s.date].close
      else if Sells(m, s, candles) then
        |after.trades| == |m.trades| + 1 && m.trades <= after.trades
        && Sale(after.trades[|m.trades|], SELL, m, candles[s.date])
      else after == m
  {
    var m := Trading(initial, signals, candles);
    assert (signals + [s])[..|signals|] == signals;
    if Buys(m, s, candles) {
      PurchaseAdds(m, candles[s.date]);
    } else if Sells(m, s, candles) {
      SaleAdds(m, SELL, candles[s.date]);
    }
  }

  /** A backtest adds a final sale exactly when something is still held and the last close is above the price
      paid for it. */
  lemma FinalSaleIff(m: Machine, data: seq<Candle>)
    requires Priced(m)
    ensures if m.position > 0.0 && data != [] && data[|data| - 1].close > m.buyPrice then
        var after := Closing(m, data);
        |after.trades| == |m.trades| + 1 && m.trades <= after.trades
        && Sale(after.trades[|m.trades|], FINAL_SELL, m, data[|data| - 1])
      else Closing(m, data) == m
  {
    if m.position > 0.0 && data != [] && data[|data| - 1].close > m.buyPrice {
      SaleAdds(m, FINAL_SELL, data[|data| - 1]);
    }
  }

  /** What is held, and what was paid for it and when, is what the last trade says: it is a purchase exactly
      when something is held. */
  lemma HoldsWhatWasBought(initial: real, signals: seq<Signal>, candles: map<int, Candle>)
    requires initial > 0.0 && PositiveCloses(candles)
    ensures var m := Trading(initial, signals, candles); var n := |m.trades|;
      && (m.position > 0.0 <==> n > 0 && m.trades[n - 1].kind == BUY)
      && (m.position > 0.0 ==> m.buyPrice == m.trades[n - 1].buyPrice && m.buyDate == m.trades[n - 1].buyDate)
  {
    TradingIsAllIn(initial, signals, candles);
    LastTradeTellsDate(initial, signals, candles);
  }

  lemma {:induction false} LastTradeTellsDate(initial: real, signals: seq<Signal>, candles: map<int, Candle>)
    requires PositiveCloses(candles)
    ensures var m := Trading(initial, signals, candles);
      m.trades != [] ==> m.buyDate == m.trades[|m.trades| - 1].buyDate
  {
    if signals != [] {
      LastTradeTellsDate(initial, signals[..|signals| - 1], candles);
    }
  }

  /** A rise bought and sold: 100 at a price of 10 become 150 at 15. */
  lemma RoundTrip()
    ensures var data := [Candle("", 1, 10.0, 10.0, 10.0, 10.0, 1.0, true), Candle("", 2, 15.0, 15.0, 15.0, 15.0, 1.0, true)];
      var signals := [Signal(1, Buy, 10.0, Sideways), Signal(2, Sell, 15.0, Sideways)];
      PositiveCloses(ByDate(data)) && Closing(Trading(100.0, signals, ByDate(data)), data).balance == 150.0
  {
    var data := [Candle("", 1, 10.0, 10.0, 10.0, 10.0, 1.0, true), Candle("", 2, 15.0, 15.0, 15.0, 15.0, 1.0, true)];
    var first := [Signal(1, Buy, 10.0, Sideways)];
    var signals := [Signal(1, Buy, 10.0, Sideways), Signal(2, Sell, 15.0, Sideways)];
    assert data[..1][..0] == [] && signals[..1] == first && first[..0] == [];
    assert ByDate(data[..1]) == map[1 := data[0]];
    assert ByDate(data) == map[1 := data[0], 2 := data[1]];
    assert Trading(100.0, first, ByDate(data)).position == 10.0;
  }

  // --- What the trades add up to -------------------------------------------------------------------

  /** The initial balance times the ratios of the sales made. */
  function Worth(initial: real, trades: seq<Trade>): real {
    if trades == [] then initial
    else
      var t, before := trades[|trades| - 1], Worth(initial, trades[..|trades| - 1]);
      if t.kind == BUY || t.buyPrice <= 0.0 then before else Times(before, Share(t.sellPrice, t.buyPrice))
  }

  function Buying(trades: seq<Trade>): bool {
    |trades| % 2 == 0
  }

  /** Buys and sales alternate, each sale above the price of the buy before it, everything in, everything
      out. */
  predicate Ledger(initial: real, trades: seq<Trade>) {
    trades == [] ||
    (var before, t := trades[..|trades| - 1], trades[|trades| - 1];
     && Ledger(initial, before)
     && t.buyPrice > 0.0
     && if Buying(before) then
          t.kind == BUY && t.balance == 0.0 && t.position == Share(Worth(initial, before), t.buyPrice)
          && t.buyPrice <= Worth(initial, before)
        else
          t.kind != BUY && t.position == 0.0 && t.buyPrice == before[|before| - 1].buyPrice < t.sellPrice
          && t.balance == Worth(initial, trades))
  }

  /** Flat with the whole worth, or long with all of it in the position. */
  predicate AllIn(initial: real, m: Machine) {
    && Ledger(initial, m.trades)
    && Worth(initial, m.trades) > 0.0
    && if Buying(m.trades) then m.position == 0.0 && m.balance == Worth(initial, m.trades)
       else m.balance == 0.0 && m.position > 0.0
            && m.buyPrice == m.trades[|m.trades| - 1].buyPrice
            && m.position == Share(Worth(initial, m.trades), m.buyPrice)
  }

  lemma Ratio(w: real, buy: real, sell: real)
    requires w > 0.0 && 0.0 < buy < sell
    ensures Times(Share(w, buy), sell) == Times(w, Share(sell, buy)) > w
  {
  }

  lemma SellKeepsAllIn(initial: real, m: Machine, kind: TradeType, date: int, close: real)
    requires AllIn(initial, m) && m.position > 0.0 && close > m.buyPrice > 0.0 && kind != BUY
    ensures AllIn(initial, SellAt(m, kind, date, close))
    ensures Worth(initial, SellAt(m, kind, date, close).trades) > Worth(initial, m.trades)
  {
    var t := SellAt(m, kind, date, close).trades;
    assert t[..|t| - 1] == m.trades;
    Ratio(Worth(initial, m.trades), m.buyPrice, close);
  }

  lemma BuyKeepsAllIn(initial: real, m: Machine, date: int, close: real)
    requires AllIn(initial, m) && m.balance >= close > 0.0
    ensures AllIn(initial, BuyAt(m, date, close))
  {
  }

  lemma {:induction false} TradingIsAllIn(initial: real, signals: seq<Signal>, candles: map<int, Candle>)
    requires initial > 0.0 && PositiveCloses(candles)
    ensures AllIn(initial, Trading(initial, signals, candles))
    ensures forall i :: 0 <= i < |Trading(initial, signals, candles).trades| ==>
      Trading(initial, signals, candles).trades[i].kind != FINAL_SELL
  {
    if signals != [] {
      var init, s := signals[..|signals| - 1], signals[|signals| - 1];
      TradingIsAllIn(initial, init, candles);
      var m := Trading(initial, init, candles);
      if s.date in candles {
        var c := candles[s.date];
        if s.action == Buy && m.balance >= c.close {
          BuyKeepsAllIn(initial, m, c.time, c.close);
        } else if s.action == Sell && m.position > 0.0 && c.close > m.buyPrice {
          SellKeepsAllIn(initial, m, SELL, c.time, c.close);
        }
      }
    }
  }

  /** Whatever the signals: trades alternate, the result is the initial balance times the sale ratios, or
      zero exactly when the position is still held; it is never a loss otherwise. */
  lemma BacktestLedger(data: seq<Candle>, signals: seq<Signal>, initial: real)
    requires initial > 0.0 && PositiveCloses(ByDate(data))
    ensures var m := Closing(Trading(initial, signals, ByDate(data)), data);
      && AllIn(initial, m)
      && (forall i :: 0 <= i < |m.trades| - 1 ==> m.trades[i].kind != FINAL_SELL)
      && m.balance == (if Buying(m.trades) then Worth(initial, m.trades) else 0.0)
      && (m.balance == 0.0 <==> m.position > 0.0)
      && (m.balance == 0.0 || m.balance >= initial)
  {
    TradingIsAllIn(initial, signals, ByDate(data));
    var m := Trading(initial, signals, ByDate(data));
    if m.position > 0.0 && data != [] && data[|data| - 1].close > m.buyPrice {
      SellKeepsAllIn(initial, m, FINAL_SELL, data[|data| - 1].time, data[|data| - 1].close);
    }
    WorthGrows(initial, Closing(m, data).trades);
  }

  /** Worth never falls along the trades and rises with every sale: a backtest that ends flat returns at
      least the initial balance. */
  lemma {:induction false} WorthGrows(initial: real, trades: seq<Trade>)
    requires initial > 0.0 && Ledger(initial, trades)
    ensures Worth(initial, trades) >= initial
    ensures trades != [] && trades[|trades| - 1].kind != BUY ==>
      Worth(initial, trades) > Worth(initial, trades[..|trades| - 1])
  {
    if trades != [] {
      var init, t := trades[..|trades| - 1], trades[|trades| - 1];
      WorthGrows(initial, init);
      if t.kind != BUY {
        Ratio(Worth(initial, init), t.buyPrice, t.sellPrice);
      }
    }
  }
}
