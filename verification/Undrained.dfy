/** programs/backtesting/backtest.go with strategy/2025_01_27_PSH_Improved.go, the other way round from a
    drained queue: the strategy publishes for several candles, on one and the same position, before any of
    its orders is executed. Which orders are then rejected. */
module Undrained {
  import opened Model
  import opened Backtest
  import opened ImprovedPsh

  /** What an order takes from the account: money or coins. */
  function Need(o: Order): real {
    if o.side == Buy then o.price else o.quantity
  }

  function Has(b: Broker, side: Side): real {
    if side == Buy then b.krw else b.coin
  }

  /** What the orders of one side take together. */
  function Total(os: seq<Order>, side: Side): real {
    if os == [] then 0.0
    else
      var before, o := Total(os[..|os| - 1], side), os[|os| - 1];
      if o.side == side then before + Need(o) else before
  }

  /** What is left of an amount when each order takes its need if it still finds it. */
  function Left(amount: real, os: seq<Order>): real {
    if os == [] then amount
    else
      var before, o := Left(amount, os[..|os| - 1]), os[|os| - 1];
      if before >= Need(o) then before - Need(o) else before
  }

  predicate AllFit(amount: real, os: seq<Order>) {
    os == [] || (AllFit(amount, os[..|os| - 1]) && Left(amount, os[..|os| - 1]) >= Need(os[|os| - 1]))
  }

  predicate AllPositive(os: seq<Order>) {
    forall i :: 0 <= i < |os| ==> Positive(os[i])
  }

  predicate OneSided(os: seq<Order>, side: Side) {
    forall i :: 0 <= i < |os| ==> os[i].side == side
  }

  predicate NoPublish(es: seq<Event>) {
    forall i :: 0 <= i < |es| ==> !es[i].Publish?
  }

  function Executions(es: seq<Event>): nat {
    if es == [] then 0
    else if es[|es| - 1].Execute? then Executions(es[..|es| - 1]) + 1
    else Executions(es[..|es| - 1])
  }

  /** How many of the queued orders the events have dealt with. */
  function Done(es: seq<Event>, os: seq<Order>): (k: nat)
    ensures k <= |os|
  {
    if Executions(es) <= |os| then Executions(es) else |os|
  }

  // --- Executions of a queue ------------------------------------------------------------------------

  lemma ExecutionTakes(t: State, side: Side)
    requires Sound(t) && t.queue != [] && t.queue[0].side == side
    ensures var o, u := t.queue[0], Apply(t, Execute);
      && (Rejects(t, Execute) <==> Has(t.broker, side) < Need(o))
      && Has(u.broker, side) == (if Has(t.broker, side) < Need(o) then Has(t.broker, side) else Has(t.broker, side) - Need(o))
      && (forall other :: other != side ==> Has(u.broker, other) >= Has(t.broker, other))
  {
    var o := t.queue[0];
    assert Positive(o);
    PositiveIsFinite(t.broker, o, t.price);
    assert o.side == Sell ==> o.quantity * t.price > 0.0;
  }

  lemma FitPlus(amount: real, os: seq<Order>, k: nat)
    requires k < |os|
    ensures var left := Left(amount, os[..k]);
      && Left(amount, os[..k + 1]) == (if left >= Need(os[k]) then left - Need(os[k]) else left)
      && (AllFit(amount, os[..k + 1]) <==> AllFit(amount, os[..k]) && left >= Need(os[k]))
  {
    assert os[..k + 1][..k] == os[..k];
  }

  /** A tick, or an execution of nothing, leaves queue and account alone. */
  lemma NothingHappens(t: State, e: Event)
    requires Sound(t) && !e.Publish? && (e.Execute? ==> t.queue == [])
    ensures Apply(t, e).queue == t.queue && Apply(t, e).broker == t.broker && !Rejects(t, e)
  {
  }

  lemma NextInQueue(t: State, os: seq<Order>, k: nat)
    requires Sound(t) && k < |os| && t.queue == os[k..]
    ensures t.queue[0] == os[k] && Apply(t, Execute).queue == os[k + 1..]
  {
  }

  /** Orders of one side are dealt with in order, each taking its need if it finds it, whatever the prices. */
  lemma {:induction false} ExecutedInOrder(t: State, es: seq<Event>, os: seq<Order>, side: Side)
    requires Sound(t) && t.queue == os && OneSided(os, side) && NoPublish(es)
    ensures RunFrom(t, es).queue == os[Done(es, os)..]
    ensures Has(RunFrom(t, es).broker, side) == Left(Has(t.broker, side), os[..Done(es, os)])
    ensures NothingRejected(t, es) <==> AllFit(Has(t.broker, side), os[..Done(es, os)])
  {
    if es != [] {
      var init, e := es[..|es| - 1], es[|es| - 1];
      ExecutedInOrder(t, init, os, side);
      var u, k := RunFrom(t, init), Done(init, os);
      if e.Execute? && k < |os| {
        NextInQueue(u, os, k);
        ExecutionTakes(u, side);
        FitPlus(Has(t.broker, side), os, k);
      } else {
        NothingHappens(u, e);
      }
    }
  }

  lemma {:induction false} FitsIffTotal(amount: real, os: seq<Order>, side: Side)
    requires amount >= 0.0 && OneSided(os, side) && AllPositive(os)
    ensures AllFit(amount, os) <==> Total(os, side) <= amount
    ensures AllFit(amount, os) ==> Left(amount, os) == amount - Total(os, side)
  {
    if os != [] {
      FitsIffTotal(amount, os[..|os| - 1], side);
    }
  }

  lemma {:induction false} TotalGrows(os: seq<Order>, k: nat, side: Side)
    requires k <= |os| && AllPositive(os)
    ensures 0.0 <= Total(os[..k], side) <= Total(os, side)
    decreases |os|
  {
    if k < |os| {
      TotalGrows(os[..|os| - 1], k, side);
      assert os[..|os| - 1][..k] == os[..k];
    } else if os != [] {
      TotalGrows(os[..|os| - 1], |os| - 1, side);
      assert os[..k] == os && os[..|os| - 1][..|os| - 1] == os[..|os| - 1];
    }
  }

  lemma TotalPlus(os: seq<Order>, k: nat, side: Side)
    requires k < |os|
    ensures Total(os[..k + 1], side) == if os[k].side == side then Total(os[..k], side) + Need(os[k]) else Total(os[..k], side)
  {
    assert os[..k + 1][..k] == os[..k];
  }

  /** The account covers the orders: the buys together fit the money, the sells together the coins. */
  predicate Covers(b: Broker, os: seq<Order>) {
    Total(os, Buy) <= b.krw && Total(os, Sell) <= b.coin
  }

  /** What of it is still covered after the first k orders. */
  predicate StillHas(b: Broker, os: seq<Order>, k: nat, after: Broker)
    requires k <= |os|
  {
    b.krw - Total(os[..k], Buy) <= after.krw && b.coin - Total(os[..k], Sell) <= after.coin
  }

  lemma CoveredExecution(b: Broker, os: seq<Order>, k: nat, t: State)
    requires Sound(t) && t.queue != [] && k < |os| && t.queue[0] == os[k] && AllPositive(os)
    requires Covers(b, os) && StillHas(b, os, k, t.broker)
    ensures !Rejects(t, Execute) && StillHas(b, os, k + 1, Apply(t, Execute).broker)
  {
    var side := os[k].side;
    TotalPlus(os, k, Buy);
    TotalPlus(os, k, Sell);
    TotalGrows(os, k + 1, side);
    ExecutionTakes(t, side);
    assert Has(t.broker, side) >= Need(os[k]);
    assert Has(Apply(t, Execute).broker, Buy) == Apply(t, Execute).broker.krw;
    assert Has(Apply(t, Execute).broker, Sell) == Apply(t, Execute).broker.coin;
  }

  /** Orders of both sides mixed: while they are covered, nothing is rejected. */
  lemma {:induction false} TotalsSuffice(t: State, es: seq<Event>, os: seq<Order>)
    requires Sound(t) && t.queue == os && NoPublish(es) && Covers(t.broker, os)
    ensures RunFrom(t, es).queue == os[Done(es, os)..]
    ensures StillHas(t.broker, os, Done(es, os), RunFrom(t, es).broker)
    ensures NothingRejected(t, es)
  {
    if es != [] {
      var init, e := es[..|es| - 1], es[|es| - 1];
      TotalsSuffice(t, init, os);
      var u, k := RunFrom(t, init), Done(init, os);
      if e.Execute? && k < |os| {
        NextInQueue(u, os, k);
        CoveredExecution(t.broker, os, k, u);
      } else {
        NothingHappens(u, e);
      }
    }
  }

  function Drain(n: nat): (es: seq<Event>)
    ensures |es| == n
  {
    if n == 0 then [] else Drain(n - 1) + [Execute]
  }

  lemma {:induction false} DrainExecutes(n: nat)
    ensures Executions(Drain(n)) == n && NoPublish(Drain(n))
  {
    if n > 0 {
      DrainExecutes(n - 1);
      assert Drain(n)[..n - 1] == Drain(n - 1);
    }
  }

  /** The money after the orders were executed, all of them, at one price. */
  function Cash(krw: real, os: seq<Order>, price: real): real {
    if os == [] then krw else CashAfter(Cash(krw, os[..|os| - 1], price), os[|os| - 1], price)
  }

  function CashAfter(krw: real, o: Order, price: real): real {
    if o.side == Buy then krw - o.price else krw + Times(price, o.quantity)
  }

  lemma {:induction false} CashAddsUp(krw: real, os: seq<Order>, price: real)
    ensures Cash(krw, os, price) == krw - Total(os, Buy) + Times(price, Total(os, Sell))
  {
    if os != [] {
      CashAddsUp(krw, os[..|os| - 1], price);
      var sold, o := Total(os[..|os| - 1], Sell), os[|os| - 1];
      assert Times(price, sold + Need(o)) == Times(price, sold) + Times(price, Need(o));
    }
  }

  lemma ExecutionAtPrice(t: State)
    requires Sound(t) && t.queue != [] && !Rejects(t, Execute)
    ensures Apply(t, Execute).broker.krw == CashAfter(t.broker.krw, t.queue[0], t.price)
  {
    assert Positive(t.queue[0]);
    PositiveIsFinite(t.broker, t.queue[0], t.price);
  }

  /** What an account is worth at a price. */
  function Worth(b: Broker, price: real): real {
    b.krw + Times(price, b.coin)
  }

  lemma ExecutionKeepsWorth(t: State)
    requires Sound(t) && t.queue != []
    ensures Worth(Apply(t, Execute).broker, t.price) == Worth(t.broker, t.price)
  {
    PositiveIsFinite(t.broker, t.queue[0], t.price);
    ExecutionConservesWorth(t.broker, t.queue[0], t.price);
  }

  lemma CashPlus(krw: real, os: seq<Order>, k: nat, price: real)
    requires k < |os|
    ensures Cash(krw, os[..k + 1], price) == CashAfter(Cash(krw, os[..k], price), os[k], price)
  {
    assert os[..k + 1][..k] == os[..k];
  }

  lemma DrainOneMore(t: State, k: nat)
    requires Sound(t)
    ensures RunFrom(t, Drain(k + 1)) == Apply(RunFrom(t, Drain(k)), Execute)
    ensures NothingRejected(t, Drain(k + 1)) <==> NothingRejected(t, Drain(k)) && !Rejects(RunFrom(t, Drain(k)), Execute)
  {
    assert Drain(k + 1)[..k] == Drain(k);
  }

  lemma {:induction false} DrainedQueue(t: State, os: seq<Order>, k: nat)
    requires Sound(t) && t.queue == os && k <= |os|
    ensures RunFrom(t, Drain(k)).queue == os[k..] && RunFrom(t, Drain(k)).price == t.price
    ensures Worth(RunFrom(t, Drain(k)).broker, t.price) == Worth(t.broker, t.price)
  {
    if k > 0 {
      DrainOneMore(t, k - 1);
      DrainedQueue(t, os, k - 1);
      ExecutionKeepsWorth(RunFrom(t, Drain(k - 1)));
    }
  }

  lemma {:induction false} AtOnePrice(t: State, os: seq<Order>, k: nat)
    requires Sound(t) && t.queue == os && k <= |os| && NothingRejected(t, Drain(k))
    ensures RunFrom(t, Drain(k)).broker.krw == Cash(t.broker.krw, os[..k], t.price)
  {
    if k > 0 {
      DrainOneMore(t, k - 1);
      AtOnePrice(t, os, k - 1);
      DrainedQueue(t, os, k - 1);
      ExecutionAtPrice(RunFrom(t, Drain(k - 1)));
      CashPlus(t.broker.krw, os, k - 1, t.price);
    }
  }

  /** A price so low that what the sells bring cannot make up for what the buys lack. */
  function LowPrice(lack: real, sold: real): real
    requires lack > 0.0 && sold >= 0.0
  {
    lack / (2.0 * (sold + 1.0))
  }

  lemma LowPriceIsLow(lack: real, sold: real)
    requires lack > 0.0 && sold >= 0.0
    ensures LowPrice(lack, sold) > 0.0 && Times(LowPrice(lack, sold), sold) < lack
  {
    var p := LowPrice(lack, sold);
    assert p * (2.0 * (sold + 1.0)) == lack;
    assert p * (2.0 * (sold + 1.0)) == 2.0 * Times(p, sold) + 2.0 * p;
    assert p > 0.0;
    assert p * sold >= 0.0;
  }

  /** A price so high that what the buys get cannot make up for what the sells lack. */
  function HighPrice(lack: real, bought: real): real
    requires lack > 0.0 && bought >= 0.0
  {
    (bought + 1.0) / lack
  }

  lemma HighPriceIsHigh(lack: real, bought: real)
    requires lack > 0.0 && bought >= 0.0
    ensures HighPrice(lack, bought) > 0.0 && Times(HighPrice(lack, bought), lack) > bought
  {
    assert HighPrice(lack, bought) * lack == bought + 1.0;
  }

  /** The account can settle the orders at the price: neither the money nor the coins run out. */
  predicate Settles(b: Broker, price: real, bought: real, sold: real) {
    bought <= b.krw + Times(price, sold) && Times(price, sold - b.coin) <= bought
  }

  lemma SolventAfterwards(b: Broker, after: Broker, os: seq<Order>, price: real)
    requires price > 0.0 && Solvent(after) && Worth(after, price) == Worth(b, price)
    requires after.krw == Cash(b.krw, os, price)
    ensures Settles(b, price, Total(os, Buy), Total(os, Sell))
  {
    var sold := Total(os, Sell);
    CashAddsUp(b.krw, os, price);
    assert Times(price, sold - b.coin) == Times(price, sold) - Times(price, b.coin);
    assert Times(price, after.coin) >= 0.0;
  }

  /** At one price for all executions, as long as nothing is rejected: what is bought is spent, what is sold
      comes in at that price, and the account stays solvent. */
  lemma TotalsSettleAtPrice(t: State, os: seq<Order>)
    requires Sound(t) && t.queue == os && t.price > 0.0 && NothingRejected(t, Drain(|os|))
    ensures Settles(t.broker, t.price, Total(os, Buy), Total(os, Sell))
  {
    AtOnePrice(t, os, |os|);
    DrainedQueue(t, os, |os|);
    assert os[..|os|] == os;
    SolventAfterwards(t.broker, RunFrom(t, Drain(|os|)).broker, os, t.price);
  }

  lemma {:induction false} RunConcat(s: State, a: seq<Event>, b: seq<Event>)
    requires Sound(s)
    ensures RunFrom(s, a + b) == RunFrom(RunFrom(s, a), b)
    ensures NothingRejected(s, a + b) <==> NothingRejected(s, a) && NothingRejected(RunFrom(s, a), b)
  {
    if b == [] {
      assert a + b == a;
    } else {
      RunConcat(s, a, b[..|b| - 1]);
      assert (a + b)[..|a + b| - 1] == a + b[..|b| - 1];
    }
  }

  /** Whatever the prices and whenever the executions, nothing of the queue is rejected. */
  ghost predicate NeverRejects(t: State)
    requires Sound(t)
  {
    forall es :: NoPublish(es) ==> NothingRejected(t, es)
  }

  lemma {:induction false} DrainedAtPrice(t: State, n: nat, price: real)
    requires Sound(t) && price > 0.0 && NeverRejects(t)
    ensures NothingRejected(Apply(t, Tick(price)), Drain(n))
  {
    var es := [Tick(price)] + Drain(n);
    DrainExecutes(n);
    assert NoPublish(es);
    RunConcat(t, [Tick(price)], Drain(n));
    assert [Tick(price)][..0] == [];
    assert RunFrom(t, [Tick(price)]) == Apply(t, Tick(price));
  }

  lemma SafeAtPrice(t: State, os: seq<Order>, price: real)
    requires Sound(t) && t.queue == os && price > 0.0 && NeverRejects(t)
    ensures Settles(t.broker, price, Total(os, Buy), Total(os, Sell))
  {
    DrainedAtPrice(t, |os|, price);
    TotalsSettleAtPrice(Apply(t, Tick(price)), os);
  }

  /** A queue of any orders is safe at all prices exactly when its buys together fit the money and its sells
      together fit the coins at hand. */
  lemma QueueIsSafeIff(t: State, os: seq<Order>)
    requires Sound(t) && t.queue == os
    ensures NeverRejects(t) <==> Covers(t.broker, os)
  {
    var bought, sold := Total(os, Buy), Total(os, Sell);
    if Covers(t.broker, os) {
      forall es | NoPublish(es)
        ensures NothingRejected(t, es)
      {
        TotalsSuffice(t, es, os);
      }
    } else if NeverRejects(t) {
      TotalGrows(os, 0, Buy);
      TotalGrows(os, 0, Sell);
      if bought > t.broker.krw {
        LowPriceIsLow(bought - t.broker.krw, sold);
        SafeAtPrice(t, os, LowPrice(bought - t.broker.krw, sold));
      } else {
        HighPriceIsHigh(sold - t.broker.coin, bought);
        SafeAtPrice(t, os, HighPrice(sold - t.broker.coin, bought));
      }
      assert false;
    }
  }

  // --- Candles without an execution -----------------------------------------------------------------

  predicate Usable(df: Sample) {
    Rectangular(df) && df.close != [] && df.close[|df.close| - 1] > 0.0
  }

  predicate AllUsable(dfs: seq<Sample>) {
    forall i :: 0 <= i < |dfs| ==> Usable(dfs[i])
  }

  function Publications(os: seq<Order>): seq<Event> {
    if os == [] then [] else Publications(os[..|os| - 1]) + [Publish(os[|os| - 1])]
  }

  /** What the strategy publishes for the samples while it keeps finding the position b. */
  function Backlog(dfs: seq<Sample>, b: Broker, fraction: real): seq<Order>
    requires AllUsable(dfs)
  {
    if dfs == [] then []
    else Backlog(dfs[..|dfs| - 1], b, fraction) + Orders(dfs[|dfs| - 1], Some(b), fraction)
  }

  /** The events of these candles, none of their orders being executed in between. */
  function Unattended(dfs: seq<Sample>, b: Broker, fraction: real): seq<Event>
    requires AllUsable(dfs)
  {
    if dfs == [] then []
    else
      var df := dfs[|dfs| - 1];
      Unattended(dfs[..|dfs| - 1], b, fraction)
        + ([Tick(df.close[|df.close| - 1])] + Publications(Orders(df, Some(b), fraction)))
  }

  lemma {:induction false} PublicationsQueue(t: State, os: seq<Order>)
    requires Sound(t) && t.price > 0.0 && AllPositive(os)
    ensures RunFrom(t, Publications(os)) == t.(queue := t.queue + os)
    ensures NothingRejected(t, Publications(os))
  {
    if os != [] {
      var init := os[..|os| - 1];
      PublicationsQueue(t, init);
      assert Publications(os)[..|Publications(os)| - 1] == Publications(init);
      assert t.queue + init + [os[|os| - 1]] == t.queue + os;
    }
  }

  lemma OrdersArePositive(df: Sample, b: Broker, fraction: real)
    requires Usable(df) && 0.0 < fraction <= 1.0
    ensures AllPositive(Orders(df, Some(b), fraction))
  {
    OrdersAreAffordable(df, b, fraction);
    var os := Orders(df, Some(b), fraction);
    forall i | 0 <= i < |os|
      ensures Positive(os[i])
    {
      assert Affordable(os[i], b);
    }
  }

  lemma CandleQueues(t: State, df: Sample, b: Broker, fraction: real)
    requires Sound(t) && Usable(df) && 0.0 < fraction <= 1.0
    ensures var os, price := Orders(df, Some(b), fraction), df.close[|df.close| - 1];
      && RunFrom(t, [Tick(price)] + Publications(os)) == State(price, t.queue + os, t.broker)
      && NothingRejected(t, [Tick(price)] + Publications(os))
  {
    var os, price := Orders(df, Some(b), fraction), df.close[|df.close| - 1];
    RunConcat(t, [Tick(price)], Publications(os));
    assert [Tick(price)][..0] == [];
    assert RunFrom(t, [Tick(price)]) == Apply(t, Tick(price));
    OrdersArePositive(df, b, fraction);
    PublicationsQueue(Apply(t, Tick(price)), os);
  }

  /** The queue then holds all that was published, and the account is as it was. */
  lemma {:induction false} UnattendedQueues(s: State, dfs: seq<Sample>, fraction: real)
    requires Sound(s) && s.queue == [] && AllUsable(dfs) && 0.0 < fraction <= 1.0
    ensures var t := RunFrom(s, Unattended(dfs, s.broker, fraction));
      t.queue == Backlog(dfs, s.broker, fraction) && t.broker == s.broker
    ensures NothingRejected(s, Unattended(dfs, s.broker, fraction))
    ensures AllPositive(Backlog(dfs, s.broker, fraction))
  {
    if dfs != [] {
      var init, df := dfs[..|dfs| - 1], dfs[|dfs| - 1];
      UnattendedQueues(s, init, fraction);
      var events := [Tick(df.close[|df.close| - 1])] + Publications(Orders(df, Some(s.broker), fraction));
      RunConcat(s, Unattended(init, s.broker, fraction), events);
      CandleQueues(RunFrom(s, Unattended(init, s.broker, fraction)), df, s.broker, fraction);
      OrdersArePositive(df, s.broker, fraction);
    }
  }

  /** After candles without an execution the run can go on in any way without a rejection exactly when the
      buys published fit the money they were all sized by, and the sells the coins. */
  lemma UndrainedIsSafeIff(s: State, dfs: seq<Sample>, fraction: real)
    requires Sound(s) && s.queue == [] && AllUsable(dfs) && 0.0 < fraction <= 1.0
    ensures NeverRejects(RunFrom(s, Unattended(dfs, s.broker, fraction))) <==>
      Covers(s.broker, Backlog(dfs, s.broker, fraction))
  {
    UnattendedQueues(s, dfs, fraction);
    QueueIsSafeIff(RunFrom(s, Unattended(dfs, s.broker, fraction)), Backlog(dfs, s.broker, fraction));
  }

  /** Where only one side was published the prices do not matter at all: the k-th execution is rejected
      exactly when the orders before it left less than it needs. */
  lemma RejectionIsDecidedByOrder(s: State, dfs: seq<Sample>, fraction: real, es: seq<Event>, side: Side)
    requires Sound(s) && s.queue == [] && AllUsable(dfs) && 0.0 < fraction <= 1.0 && NoPublish(es)
    requires OneSided(Backlog(dfs, s.broker, fraction), side)
    requires Executions(es) < |Backlog(dfs, s.broker, fraction)|
    ensures var os, k := Backlog(dfs, s.broker, fraction), Executions(es);
      Rejects(RunFrom(s, Unattended(dfs, s.broker, fraction) + es), Execute) <==>
        Left(Has(s.broker, side), os[..k]) < Need(os[k])
  {
    var os, t := Backlog(dfs, s.broker, fraction), RunFrom(s, Unattended(dfs, s.broker, fraction));
    UnattendedQueues(s, dfs, fraction);
    RunConcat(s, Unattended(dfs, s.broker, fraction), es);
    ExecutedInOrder(t, es, os, side);
    ExecutionTakes(RunFrom(t, es), side);
  }

  /** The whole run rejects nothing exactly when the total of the side fits. */
  lemma OneSideRejectedIff(s: State, dfs: seq<Sample>, fraction: real, es: seq<Event>, side: Side)
    requires Sound(s) && s.queue == [] && AllUsable(dfs) && 0.0 < fraction <= 1.0 && NoPublish(es)
    requires OneSided(Backlog(dfs, s.broker, fraction), side)
    requires Executions(es) >= |Backlog(dfs, s.broker, fraction)|
    ensures NothingRejected(s, Unattended(dfs, s.broker, fraction) + es) <==>
      Total(Backlog(dfs, s.broker, fraction), side) <= Has(s.broker, side)
  {
    var os, t := Backlog(dfs, s.broker, fraction), RunFrom(s, Unattended(dfs, s.broker, fraction));
    UnattendedQueues(s, dfs, fraction);
    RunConcat(s, Unattended(dfs, s.broker, fraction), es);
    ExecutedInOrder(t, es, os, side);
    assert os[..|os|] == os;
    FitsIffTotal(Has(t.broker, side), os, side);
  }

  // --- Normal and strong orders ---------------------------------------------------------------------

  lemma {:induction false} BacklogIsAffordable(dfs: seq<Sample>, b: Broker, fraction: real)
    requires AllUsable(dfs) && 0.0 < fraction <= 1.0
    ensures forall i :: 0 <= i < |Backlog(dfs, b, fraction)| ==> Affordable(Backlog(dfs, b, fraction)[i], b)
  {
    if dfs != [] {
      BacklogIsAffordable(dfs[..|dfs| - 1], b, fraction);
      OrdersAreAffordable(dfs[|dfs| - 1], b, fraction);
    }
  }

  /** Orders for the trade fraction of what there is. */
  predicate AllNormal(os: seq<Order>, amount: real, fraction: real) {
    forall i :: 0 <= i < |os| ==> Need(os[i]) == Part(amount, fraction)
  }

  /** The amount added up n times. */
  function Multiple(n: nat, amount: real): real {
    if n == 0 then 0.0 else Multiple(n - 1, amount) + amount
  }

  lemma {:induction false} MultipleIsProduct(n: nat, amount: real)
    ensures Multiple(n, amount) == n as real * amount
  {
    if n > 0 {
      MultipleIsProduct(n - 1, amount);
    }
  }

  lemma {:induction false} MultipleOfPart(n: nat, amount: real, fraction: real)
    ensures Multiple(n, Part(amount, fraction)) == Part(amount, Multiple(n, fraction))
  {
    if n > 0 {
      MultipleOfPart(n - 1, amount, fraction);
    }
  }

  lemma {:induction false} TotalOfNormal(os: seq<Order>, side: Side, amount: real, fraction: real)
    requires OneSided(os, side) && AllNormal(os, amount, fraction)
    ensures Total(os, side) == Multiple(|os|, Part(amount, fraction))
  {
    if os != [] {
      TotalOfNormal(os[..|os| - 1], side, amount, fraction);
    }
  }

  lemma PartFitsIff(amount: real, fraction: real)
    requires amount > 0.0
    ensures Part(amount, fraction) <= amount <==> fraction <= 1.0
  {
    assert Part(amount, fraction) - amount == amount * (fraction - 1.0);
  }

  lemma NormalTotalFits(os: seq<Order>, side: Side, b: Broker, fraction: real)
    requires OneSided(os, side) && AllNormal(os, Has(b, side), fraction)
    requires Has(b, side) >= 0.0 && (os != [] ==> Affordable(os[0], b))
    ensures Total(os, side) <= Has(b, side) <==> Multiple(|os|, fraction) <= 1.0
  {
    var amount := Has(b, side);
    TotalOfNormal(os, side, amount, fraction);
    MultipleOfPart(|os|, amount, fraction);
    if os != [] {
      PartFitsIff(amount, Multiple(|os|, fraction));
    }
  }

  /** Normal orders of one side published on one position, executed at any prices: nothing is rejected
      exactly when their number times the trade fraction is at most one. */
  lemma NormalOrdersRejectedIff(s: State, dfs: seq<Sample>, fraction: real, es: seq<Event>, side: Side)
    requires Sound(s) && s.queue == [] && AllUsable(dfs) && 0.0 < fraction <= 1.0 && NoPublish(es)
    requires OneSided(Backlog(dfs, s.broker, fraction), side)
    requires AllNormal(Backlog(dfs, s.broker, fraction), Has(s.broker, side), fraction)
    requires Executions(es) >= |Backlog(dfs, s.broker, fraction)|
    ensures NothingRejected(s, Unattended(dfs, s.broker, fraction) + es) <==>
      Multiple(|Backlog(dfs, s.broker, fraction)|, fraction) <= 1.0
  {
    var os := Backlog(dfs, s.broker, fraction);
    OneSideRejectedIff(s, dfs, fraction, es, side);
    BacklogIsAffordable(dfs, s.broker, fraction);
    NormalTotalFits(os, side, s.broker, fraction);
  }

  lemma {:induction false} LeftAfterFirst(amount: real, os: seq<Order>)
    requires os != [] && AllPositive(os) && Need(os[0]) <= amount
    ensures 0.0 <= Left(amount, os) <= amount - Need(os[0])
  {
    var init := os[..|os| - 1];
    if init != [] {
      LeftAfterFirst(amount, init);
    } else {
      assert Left(amount, init) == amount;
    }
  }

  /** A strong order asks for everything. After other orders of its side it is rejected; as the first one it
      leaves nothing, and every order behind it is. */
  lemma StrongOrderRejectsLater(s: State, dfs: seq<Sample>, fraction: real, es: seq<Event>, side: Side, i: nat)
    requires Sound(s) && s.queue == [] && AllUsable(dfs) && 0.0 < fraction <= 1.0 && NoPublish(es)
    requires OneSided(Backlog(dfs, s.broker, fraction), side)
    requires i < |Backlog(dfs, s.broker, fraction)|
    requires Need(Backlog(dfs, s.broker, fraction)[i]) == Has(s.broker, side)
    requires if i == 0 then 1 <= Executions(es) < |Backlog(dfs, s.broker, fraction)| else Executions(es) == i
    ensures Rejects(RunFrom(s, Unattended(dfs, s.broker, fraction) + es), Execute)
  {
    var os, k := Backlog(dfs, s.broker, fraction), Executions(es);
    UnattendedQueues(s, dfs, fraction);
    BacklogIsAffordable(dfs, s.broker, fraction);
    RejectionIsDecidedByOrder(s, dfs, fraction, es, side);
    assert os[..k][0] == os[0] && Affordable(os[0], s.broker);
    LeftAfterFirst(Has(s.broker, side), os[..k]);
    assert Positive(os[0]) && Positive(os[k]);
  }

  // --- A run of the strategy ------------------------------------------------------------------------

  function Column<T>(x: T): (xs: seq<T>)
    ensures |xs| == WARMUP
  {
    seq(WARMUP, _ => x)
  }

  /** A sideways sample that calls for the side: normally, or strongly when the oscillators agree. */
  function Extreme(pair: string, side: Side, strong: bool): Sample {
    var quiet := Column(Val(1.0));
    Sample(pair, Column(1.0), Column(1.0), Column(1.0), Column(1.0), Column(1.0),
           map[
             "shortMA" := quiet, "longMA" := quiet, "bb_up" := quiet, "bb_low" := quiet,
             "macd" := quiet, "macdSignal" := quiet, "adx" := quiet, "obv" := quiet,
             "rsi" := Column(Val(if side == Buy then 20.0 else 80.0)),
             "williamsR" := Column(Val(if strong == (side == Buy) then -90.0 else -10.0)),
             "stochRSI_K" := Column(Val(if strong == (side == Buy) then 10.0 else 90.0))],
           Some(Column(Sideways)))
  }

  /** A position the sample's price triggers neither stop loss nor take profit on, and that can be traded. */
  predicate Tradable(b: Broker, side: Side) {
    && (b.coin > 0.0 ==> 0.95 <= b.avg <= 1.05)
    && (if side == Buy then b.krw >= MINIMUM_KRW else b.coin > 0.0)
  }

  lemma ExtremeFlags(pair: string, side: Side, strong: bool)
    ensures var df := Extreme(pair, side, strong);
      && Usable(df) && Complete(df)
      && FlagsOf(df) == Flags(strong && side == Buy, strong && side == Sell, side == Buy, side == Sell)
  {
    assert Extreme(pair, side, strong).trend.value[WARMUP - 1] == Sideways;
  }

  lemma ExtremeOrders(pair: string, side: Side, strong: bool, b: Broker, fraction: real)
    requires Tradable(b, side)
    ensures Usable(Extreme(pair, side, strong))
    ensures var amount := Has(b, side);
      Orders(Extreme(pair, side, strong), Some(b), fraction) ==
        [if side == Buy then BuyOrder(pair, if strong then amount else Part(amount, fraction))
         else SellOrder(pair, if strong then amount else Part(amount, fraction))]
  {
    ExtremeFlags(pair, side, strong);
    assert !RiskExit(b, 1.0);
  }

  function Repeat<T>(x: T, n: nat): (xs: seq<T>)
    ensures |xs| == n && forall i :: 0 <= i < n ==> xs[i] == x
  {
    seq(n, _ => x)
  }

  lemma {:induction false} RepeatedBacklog(df: Sample, n: nat, b: Broker, fraction: real, o: Order)
    requires Usable(df) && Orders(df, Some(b), fraction) == [o]
    ensures Backlog(Repeat(df, n), b, fraction) == Repeat(o, n)
  {
    if n > 0 {
      RepeatedBacklog(df, n - 1, b, fraction, o);
      assert Repeat(df, n)[..n - 1] == Repeat(df, n - 1);
      assert Repeat(o, n) == Repeat(o, n - 1) + [o];
    }
  }

  lemma ExtremeBacklog(pair: string, side: Side, strong: bool, n: nat, b: Broker, fraction: real)
    requires Tradable(b, side)
    ensures Usable(Extreme(pair, side, strong))
    ensures var os, amount := Backlog(Repeat(Extreme(pair, side, strong), n), b, fraction), Has(b, side);
      && |os| == n && OneSided(os, side)
      && forall i :: 0 <= i < n ==> Need(os[i]) == if strong then amount else Part(amount, fraction)
  {
    var amount := if strong then Has(b, side) else Part(Has(b, side), fraction);
    ExtremeOrders(pair, side, strong, b, fraction);
    RepeatedBacklog(Extreme(pair, side, strong), n, b, fraction,
      if side == Buy then BuyOrder(pair, amount) else SellOrder(pair, amount));
  }

  /** The strategy's own orders on n candles that each call for a normal order of one side. */
  lemma RunOfNormalOrders(s: State, pair: string, side: Side, n: nat, fraction: real, es: seq<Event>)
    requires Sound(s) && s.queue == [] && Tradable(s.broker, side) && 0.0 < fraction <= 1.0
    requires NoPublish(es) && Executions(es) >= n
    ensures Usable(Extreme(pair, side, false))
    ensures NothingRejected(s, Unattended(Repeat(Extreme(pair, side, false), n), s.broker, fraction) + es) <==>
      Multiple(n, fraction) <= 1.0
  {
    ExtremeBacklog(pair, side, false, n, s.broker, fraction);
    NormalOrdersRejectedIff(s, Repeat(Extreme(pair, side, false), n), fraction, es, side);
  }

  /** On candles that each call for a strong order, only the first is carried out, whatever the fraction. */
  lemma RunOfStrongOrders(s: State, pair: string, side: Side, n: nat, fraction: real, es: seq<Event>)
    requires Sound(s) && s.queue == [] && Tradable(s.broker, side) && 0.0 < fraction <= 1.0
    requires NoPublish(es) && 1 <= Executions(es) < n
    ensures Usable(Extreme(pair, side, true))
    ensures Rejects(RunFrom(s, Unattended(Repeat(Extreme(pair, side, true), n), s.broker, fraction) + es), Execute)
  {
    ExtremeBacklog(pair, side, true, n, s.broker, fraction);
    StrongOrderRejectsLater(s, Repeat(Extreme(pair, side, true), n), fraction, es, side, 0);
  }
}
