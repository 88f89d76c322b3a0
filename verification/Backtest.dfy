/** programs/backtesting/backtest.go and exchange/backtest.go: the candle loop, the order queue and the
    broker, interleaved freely. */
module Backtest {
  import opened Model

  datatype Broker = Broker(krw: real, coin: real, avg: real)

  /** The guards of processOrder. */
  predicate Accepts(b: Broker, o: Order) {
    match o.side
    case Buy => b.krw >= o.price
    case Sell => b.coin >= o.quantity
  }

  /** A buy spends an amount, a sell hands over coins, neither of them nothing. */
  predicate Positive(o: Order) {
    match o.side
    case Buy => o.price > 0.0
    case Sell => o.quantity > 0.0
  }

  predicate Solvent(b: Broker) {
    b.krw >= 0.0 && b.coin >= 0.0 && b.avg >= 0.0
  }

  /** The execution divides by nothing that is zero, where the floats would turn infinite or NaN: only a buy
      that is carried out divides, by the price and by the coins then held. */
  predicate Finite(b: Broker, o: Order, price: real) {
    o.side == Buy && Accepts(b, o) ==> price != 0.0 && b.coin + o.price / price != 0.0
  }

  /** Orders of some size always execute finitely on a solvent account. */
  lemma PositiveIsFinite(b: Broker, o: Order, price: real)
    requires price > 0.0 && Solvent(b) && Positive(o)
    ensures Finite(b, o, price)
    ensures o.side == Buy ==> o.price / price > 0.0
  {
  }

  function Process(b: Broker, o: Order, price: real): Broker
    requires Finite(b, o, price)
  {
    if !Accepts(b, o) then b
    else
      match o.side
      case Buy =>
        var qty := o.price / price;
        Broker(b.krw - o.price, b.coin + qty, (b.avg * b.coin + price * qty) / (b.coin + qty))
      case Sell =>
        Broker(b.krw + o.quantity * price, b.coin - o.quantity, b.avg)
  }

  class BacktestBroker {
    var krw: real
    var coin: real
    var avgBuyPrice: real

    ghost function View(): Broker
      reads this
    {
      Broker(krw, coin, avgBuyPrice)
    }

    constructor (initialKrw: real)
      ensures View() == Broker(initialKrw, 0.0, 0.0)
    {
      krw, coin, avgBuyPrice := initialKrw, 0.0, 0.0;
    }

    method ProcessOrder(o: Order, currentPrice: real)
      requires Finite(View(), o, currentPrice)
      modifies this
      ensures View() == Process(old(View()), o, currentPrice)
    {
      if o.side == Buy {
        // The source divides first; the quotient is not used when the money does not suffice.
        if krw >= o.price {
          var qty := o.price / currentPrice;
          var totalCost := avgBuyPrice * coin + currentPrice * qty;
          coin := coin + qty;
          krw := krw - o.price;
          avgBuyPrice := totalCost / coin;
        }
      } else {
        if coin >= o.quantity {
          var proceeds := o.quantity * currentPrice;
          coin := coin - o.quantity;
          krw := krw + proceeds;
        }
      }
    }
  }

  // --- One execution -------------------------------------------------------------------------------

  lemma BuyCost(b: Broker, o: Order, price: real)
    requires Finite(b, o, price) && o.side == Buy && Accepts(b, o)
    ensures var t := Process(b, o, price); var qty := o.price / price;
      && qty * price == o.price
      && t.avg * t.coin == b.avg * b.coin + o.price
      && t.coin * price == b.coin * price + o.price
  {
  }

  /** Worth of the account at the execution price: no order creates or destroys any. */
  lemma ExecutionConservesWorth(b: Broker, o: Order, price: real)
    requires Finite(b, o, price)
    ensures var t := Process(b, o, price); t.krw + t.coin * price == b.krw + b.coin * price
  {
  }

  /** What an execution realises: a sell, its quantity at the distance from the average cost. */
  function Gain(b: Broker, o: Order, price: real): real {
    if o.side == Sell && Accepts(b, o) then o.quantity * (price - b.avg) else 0.0
  }

  lemma CostBasisMoves(b: Broker, o: Order, price: real)
    requires Finite(b, o, price)
    ensures var t := Process(b, o, price);
      t.krw + t.avg * t.coin == b.krw + b.avg * b.coin + Gain(b, o, price)
  {
  }

  lemma WeightedMean(avg: real, coin: real, price: real, qty: real, lo: real, hi: real)
    requires coin >= 0.0 && qty > 0.0 && lo <= price <= hi && (coin > 0.0 ==> lo <= avg <= hi)
    ensures lo <= (avg * coin + price * qty) / (coin + qty) <= hi
  {
    Scale(lo, price, qty);
    Scale(price, hi, qty);
    ScaleHeld(lo, avg, coin);
    ScaleHeld(avg, hi, coin);
    Distribute(lo, coin, qty);
    Distribute(hi, coin, qty);
    QuotientWithin(avg * coin, price * qty, coin + qty, lo, lo * coin, lo * qty, hi, hi * coin, hi * qty);
  }

  lemma ScaleHeld(a: real, b: real, k: real)
    requires k >= 0.0 && (k > 0.0 ==> a <= b)
    ensures a * k <= b * k
  {
  }

  lemma Distribute(k: real, a: real, b: real)
    ensures k * (a + b) == k * a + k * b
  {
  }

  lemma QuotientWithin(x: real, y: real, total: real, lo: real, loX: real, loY: real, hi: real, hiX: real, hiY: real)
    requires total > 0.0 && lo * total == loX + loY && hi * total == hiX + hiY
    requires loX <= x <= hiX && loY <= y <= hiY
    ensures lo <= (x + y) / total <= hi
  {
  }

  lemma Scale(a: real, b: real, k: real)
    requires a <= b && k >= 0.0
    ensures a * k <= b * k
  {
  }

  lemma BuyAverages(b: Broker, o: Order, price: real, lo: real, hi: real)
    requires price > 0.0 && Solvent(b) && Positive(o) && o.side == Buy && Accepts(b, o)
    requires lo <= price <= hi && (b.coin > 0.0 ==> lo <= b.avg <= hi)
    ensures Finite(b, o, price)
    ensures lo <= Process(b, o, price).avg <= hi
  {
    var qty := o.price / price;
    PositiveIsFinite(b, o, price);
    BuyCost(b, o, price);
    WeightedMean(b.avg, b.coin, price, qty, lo, hi);
    assert Process(b, o, price).avg == (b.avg * b.coin + price * qty) / (b.coin + qty);
  }

  // --- Candles, publications and executions in any order -------------------------------------------

  /** `price` is the program's global currentPrice, zero before the first candle. */
  datatype State = State(price: real, queue: seq<Order>, broker: Broker)

  datatype Event = Tick(close: real) | Publish(order: Order) | Execute

  function Start(krw: real): State {
    State(0.0, [], Broker(krw, 0.0, 0.0))
  }

  /** Closes are positive; orders are published while a candle is being handled, of a positive size. */
  predicate Enabled(s: State, e: Event) {
    match e
    case Tick(close) => close > 0.0
    case Publish(o) => s.price > 0.0 && Positive(o)
    case Execute => s.queue != []
  }

  predicate Sound(s: State) {
    Solvent(s.broker) && s.price >= 0.0 && (s.queue != [] ==> s.price > 0.0)
    && forall i :: 0 <= i < |s.queue| ==> Positive(s.queue[i])
  }

  /** An event that is not enabled waits: the state stays as it is. */
  function Apply(s: State, e: Event): State
    requires Sound(s)
  {
    if !Enabled(s, e) then s
    else
      match e
      case Tick(close) => s.(price := close)
      case Publish(o) => s.(queue := s.queue + [o])
      case Execute => s.(queue := s.queue[1..], broker := Process(s.broker, s.queue[0], s.price))
  }

  lemma ApplyIsSound(s: State, e: Event)
    requires Sound(s)
    ensures Sound(Apply(s, e))
  {
  }

  function RunFrom(s: State, es: seq<Event>): (t: State)
    requires Sound(s)
    ensures Sound(t)
  {
    if es == [] then s
    else
      var before := RunFrom(s, es[..|es| - 1]);
      ApplyIsSound(before, es[|es| - 1]);
      Apply(before, es[|es| - 1])
  }

  /** The order an event executes, if it executes one. */
  function Executed(s: State, e: Event): Option<Order> {
    if e.Execute? && s.queue != [] && Accepts(s.broker, s.queue[0]) then Some(s.queue[0]) else None
  }

  predicate Rejects(s: State, e: Event) {
    e.Execute? && s.queue != [] && !Accepts(s.broker, s.queue[0])
  }

  function StepGain(s: State, e: Event): real {
    var o := Executed(s, e);
    if o.Some? then Gain(s.broker, o.value, s.price) else 0.0
  }

  predicate Buys(s: State, e: Event) {
    Executed(s, e).Some? && s.queue[0].side == Buy
  }

  /** The sum over executed sells of quantity times distance from the average cost. */
  function Realised(s: State, es: seq<Event>): real
    requires Sound(s)
  {
    if es == [] then 0.0
    else
      var init := es[..|es| - 1];
      Realised(s, init) + StepGain(RunFrom(s, init), es[|es| - 1])
  }

  /** The prices of the executed buys. */
  function BuyPrices(s: State, es: seq<Event>): seq<real>
    requires Sound(s)
  {
    if es == [] then []
    else
      var init := es[..|es| - 1];
      var t := RunFrom(s, init);
      if Buys(t, es[|es| - 1]) then BuyPrices(s, init) + [t.price] else BuyPrices(s, init)
  }

  function CostBasis(b: Broker): real {
    b.krw + b.avg * b.coin
  }

  lemma StepMovesCostBasis(s: State, e: Event)
    requires Sound(s)
    ensures CostBasis(Apply(s, e).broker) == CostBasis(s.broker) + StepGain(s, e)
  {
    if e.Execute? && s.queue != [] {
      CostBasisMoves(s.broker, s.queue[0], s.price);
    }
  }

  /** In every interleaving the account stays solvent, and money plus coins at average cost is the initial
      money plus what the sells realised. */
  lemma {:induction false} CostBasisIdentity(krw: real, es: seq<Event>)
    requires krw >= 0.0
    ensures Solvent(RunFrom(Start(krw), es).broker)
    ensures CostBasis(RunFrom(Start(krw), es).broker) == krw + Realised(Start(krw), es)
  {
    if es != [] {
      var init := es[..|es| - 1];
      CostBasisIdentity(krw, init);
      StepMovesCostBasis(RunFrom(Start(krw), init), es[|es| - 1]);
    }
  }

  /** The average cost, given whether anything was bought. */
  predicate Averaged(b: Broker, bought: bool, lo: real, hi: real) {
    if bought then lo <= b.avg <= hi else b.coin == 0.0 && b.avg == 0.0
  }

  lemma StepKeepsAverage(s: State, e: Event, bought: bool, lo: real, hi: real)
    requires Sound(s) && Averaged(s.broker, bought, lo, hi)
    requires Buys(s, e) ==> lo <= s.price <= hi
    ensures Averaged(Apply(s, e).broker, bought || Buys(s, e), lo, hi)
  {
    if Buys(s, e) {
      BuyAverages(s.broker, s.queue[0], s.price, lo, hi);
    } else if Executed(s, e).Some? && !bought {
      assert s.queue[0] in s.queue;
    }
  }

  predicate AllWithin(ps: seq<real>, lo: real, hi: real) {
    forall i :: 0 <= i < |ps| ==> lo <= ps[i] <= hi
  }

  /** Once something was bought, the average cost lies between the lowest and the highest price paid;
      before, nothing is held. */
  lemma {:induction false} AverageWithinPricesPaid(krw: real, es: seq<Event>, lo: real, hi: real)
    requires krw >= 0.0 && AllWithin(BuyPrices(Start(krw), es), lo, hi)
    ensures Averaged(RunFrom(Start(krw), es).broker, BuyPrices(Start(krw), es) != [], lo, hi)
  {
    if es != [] {
      var init, e := es[..|es| - 1], es[|es| - 1];
      var t, paid := RunFrom(Start(krw), init), BuyPrices(Start(krw), init);
      assert AllWithin(paid, lo, hi) && (Buys(t, e) ==> lo <= t.price <= hi) by {
        var all := BuyPrices(Start(krw), es);
        assert forall i :: 0 <= i < |paid| ==> paid[i] == all[i];
        assert Buys(t, e) ==> all[|paid|] == t.price;
      }
      AverageWithinPricesPaid(krw, init, lo, hi);
      StepKeepsAverage(t, e, paid != [], lo, hi);
    }
  }
}
