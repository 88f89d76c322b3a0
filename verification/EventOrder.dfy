/** webserver/webserver.go: the order in which a browser receives order and indicator events, and in which the
    server keeps what it is given. */
module EventOrder {
  import opened Model
  import opened WebServer

  lemma RunLast(es: seq<Step>, e: Step)
    ensures Run(es + [e]) == Apply(Run(es), e)
  {
    assert (es + [e])[..|es|] == es;
  }

  // --- The stores -----------------------------------------------------------------------------------

  function IndicatorsStored(es: seq<Step>): seq<Msg> {
    if es == [] then []
    else
      var before, e := IndicatorsStored(es[..|es| - 1]), es[|es| - 1];
      if e.StoreEvent? && e.msg.IndicatorMsg? then before + [e.msg] else before
  }

  function OrdersStored(es: seq<Step>): seq<Msg> {
    if es == [] then []
    else
      var before, e := OrdersStored(es[..|es| - 1]), es[|es| - 1];
      if e.StoreEvent? && e.msg.OrderMsg? then before + [e.msg] else before
  }

  /** The server keeps all indicator events and all order events, either in the order they were given. */
  lemma {:induction false} StoresKeepOrder(es: seq<Step>)
    ensures Run(es).indicators == IndicatorsStored(es)
    ensures Run(es).orders == OrdersStored(es)
  {
    if es != [] {
      StoresKeepOrder(es[..|es| - 1]);
    }
  }

  /** Next to each other the server never keeps two candles of one timestamp. */
  predicate NoneRepeated(cs: seq<CandleData>) {
    forall i :: 0 <= i < |cs| - 1 ==> cs[i].x != cs[i + 1].x
  }

  lemma StoreIntoKeeps(cs: seq<CandleData>, c: CandleData)
    requires NoneRepeated(cs)
    ensures NoneRepeated(StoreInto(cs, c))
    ensures |StoreInto(cs, c)| == if cs != [] && cs[|cs| - 1].x == c.x then |cs| else |cs| + 1
  {
  }

  lemma {:induction false} CandlesAreNotRepeated(es: seq<Step>)
    ensures NoneRepeated(Run(es).candlesticks)
  {
    if es != [] {
      var init, e := es[..|es| - 1], es[|es| - 1];
      CandlesAreNotRepeated(init);
      if e.StoreCandle? {
        StoreIntoKeeps(Run(init).candlesticks, e.candle);
      }
    }
  }

  // --- One client -----------------------------------------------------------------------------------

  /** The event broadcasts the client's channel accepted since its registration, in the order they were made. */
  function Accepted(es: seq<Step>, id: int): seq<Msg> {
    if es == [] then []
    else
      var init, e := es[..|es| - 1], es[|es| - 1];
      var s := Run(init);
      if e == Register(id) && id !in s.clients then []
      else if e.SendEvent? && e.msg in s.waiting && id in s.clients && |s.clients[id].channel| < 50 then
        Accepted(init, id) + [e.msg]
      else Accepted(init, id)
  }

  /** What was stored when the client's snapshot was taken: indicators, then orders. */
  function AtSnapshot(es: seq<Step>, id: int): seq<Msg> {
    if es == [] then []
    else
      var init, e := es[..|es| - 1], es[|es| - 1];
      var s := Run(init);
      if e == Snapshot(id) && id in s.clients && !s.clients[id].snapshotted then
        IndicatorsStored(init) + OrdersStored(init)
      else AtSnapshot(init, id)
  }

  ghost predicate InOrder(cl: Client, stored: seq<Msg>, accepted: seq<Msg>) {
    if cl.snapshotted then cl.events + EventsOf(cl.channel) == stored + accepted
    else cl.events == [] && EventsOf(cl.channel) == accepted
  }

  lemma OfferInOrder(cl: Client, m: Msg, stored: seq<Msg>, accepted: seq<Msg>)
    requires InOrder(cl, stored, accepted)
    ensures InOrder(Offer(cl, m), stored, if !m.CandleMsg? && |cl.channel| < 50 then accepted + [m] else accepted)
  {
    LastMsg(cl.channel, m);
    if cl.snapshotted && !m.CandleMsg? && |cl.channel| < 50 {
      assert cl.events + (EventsOf(cl.channel) + [m]) == (cl.events + EventsOf(cl.channel)) + [m];
      assert (stored + accepted) + [m] == stored + (accepted + [m]);
    }
  }

  lemma SnapshotInOrder(cl: Client, candlesticks: seq<CandleData>, stored: seq<Msg>, accepted: seq<Msg>)
    requires !cl.snapshotted && InOrder(cl, [], accepted)
    ensures InOrder(TakeSnapshot(cl, candlesticks, stored), stored, accepted)
  {
    assert [] + stored == stored;
  }

  lemma DrainInOrder(cl: Client, stored: seq<Msg>, accepted: seq<Msg>)
    requires InOrder(cl, stored, accepted) && cl.snapshotted && cl.channel != []
    ensures InOrder(DrainOne(cl), stored, accepted)
  {
    var m, rest := cl.channel[0], cl.channel[1..];
    assert cl.channel == [m] + rest;
    FirstEvent(m, rest);
    if !m.CandleMsg? {
      assert cl.events + ([m] + EventsOf(rest)) == (cl.events + [m]) + EventsOf(rest);
    }
  }

  lemma NoCandlesWaiting(es: seq<Step>)
    ensures forall m :: m in Run(es).waiting ==> !m.CandleMsg?
  {
    StoresAreRight(es);
  }

  /** In every run a connected client has received, and has waiting in its channel, in this order: once it had
      its snapshot, the indicator events and then the order events stored by then; and the event broadcasts
      its channel had room for since it registered. */
  lemma {:induction false} EventsArriveInOrder(es: seq<Step>, id: int)
    requires id in Run(es).clients
    ensures InOrder(Run(es).clients[id], AtSnapshot(es, id), Accepted(es, id))
  {
    if es != [] {
      var init, e := es[..|es| - 1], es[|es| - 1];
      if id in Run(init).clients {
        EventsArriveInOrder(init, id);
        LastStepInOrder(init, e, id);
        assert init + [e] == es;
      }
    }
  }

  lemma LastStepInOrder(es: seq<Step>, e: Step, id: int)
    requires id in Run(es).clients && id in Run(es + [e]).clients
    requires InOrder(Run(es).clients[id], AtSnapshot(es, id), Accepted(es, id))
    ensures InOrder(Run(es + [e]).clients[id], AtSnapshot(es + [e], id), Accepted(es + [e], id))
  {
    var s, cl := Run(es), Run(es).clients[id];
    RunLast(es, e);
    assert (es + [e])[..|es|] == es;
    NoCandlesWaiting(es);
    if Enabled(s, e) {
      match e
      case SendCandle => OfferInOrder(cl, CandleMsg(s.sending.value), AtSnapshot(es, id), Accepted(es, id));
      case SendEvent(m) => OfferInOrder(cl, m, AtSnapshot(es, id), Accepted(es, id));
      case Snapshot(who) =>
        StoresKeepOrder(es);
        if who == id {
          SnapshotInOrder(cl, s.candlesticks, s.indicators + s.orders, Accepted(es, id));
        }
      case Drain(who) =>
        if who == id {
          DrainInOrder(cl, AtSnapshot(es, id), Accepted(es, id));
        }
      case _ =>
    }
  }

  // --- Connections ----------------------------------------------------------------------------------

  /** Disconnecting forgets the client and nothing else: to the others, and to the stores, nothing happens. */
  lemma DisconnectForgetsOne(es: seq<Step>, id: int)
    ensures var s, t := Run(es), Run(es + [Disconnect(id)]);
      && id !in t.clients
      && (forall other :: other != id ==> (other in t.clients <==> other in s.clients))
      && (forall other :: other != id && other in s.clients ==> t.clients[other] == s.clients[other])
      && t.(clients := s.clients) == s
  {
    RunLast(es, Disconnect(id));
  }

  predicate Bounded(s: State) {
    forall id :: id in s.clients ==> |s.clients[id].channel| <= 50
  }

  lemma StepBounded(s: State, e: Step)
    requires Bounded(s)
    ensures Bounded(Apply(s, e))
  {
  }

  /** A channel never holds more than fifty messages. */
  lemma {:induction false} ChannelsAreBounded(es: seq<Step>)
    ensures Bounded(Run(es))
  {
    if es != [] {
      ChannelsAreBounded(es[..|es| - 1]);
      StepBounded(Run(es[..|es| - 1]), es[|es| - 1]);
    }
  }
}
