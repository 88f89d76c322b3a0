/** webserver/webserver.go: server-sent events. Producers store and then broadcast; a client registers
    its channel, is sent a snapshot, and then drains the channel. Each critical section is one atomic
    step, and the browser's chart is part of the client. */
module WebServer {
  import opened Model

  const CHANNEL_SIZE: nat := 50

  datatype CandleData = CandleData(x: int, o: real, h: real, l: real, c: real, volume: real, complete: bool)

  datatype IndicatorEvent = IndicatorEvent(time: int, indicators: seq<(string, real)>)

  datatype OrderEvent = OrderEvent(time: int, pair: string, side: Side, price: real, qty: real)

  datatype Msg =
    | CandleMsg(candle: CandleData)
    | IndicatorMsg(indicator: IndicatorEvent)
    | OrderMsg(order: OrderEvent)

  /** A connected browser. `channel` is its server-side buffer, `chart` the candles it shows by
      timestamp, `events` the other messages it was sent. The last two fields are bookkeeping: what
      was dropped, and the timestamps whose newest broadcast was dropped and not made good. */
  datatype Client = Client(
    channel: seq<Msg>,
    snapshotted: bool,
    chart: map<int, CandleData>,
    events: seq<Msg>,
    lost: seq<Msg>,
    stale: set<int>)

  /** `sending` and `waiting` are what producers have stored and not yet broadcast: the one candle
      producer has at most one such candle, the others any number. Indicators and orders are kept as
      the messages they are sent as. */
  datatype State = State(
    candlesticks: seq<CandleData>,
    indicators: seq<Msg>,
    orders: seq<Msg>,
    clients: map<int, Client>,
    sending: Option<CandleData>,
    waiting: multiset<Msg>)

  datatype Step =
    | StoreCandle(candle: CandleData)
    | SendCandle
    | StoreEvent(msg: Msg)
    | SendEvent(msg: Msg)
    | Register(id: int)
    | Snapshot(id: int)
    | Drain(id: int)
    | Disconnect(id: int)

  const INIT := State([], [], [], map[], None, multiset{})

  // --- Charts --------------------------------------------------------------------------------------

  /** The browser's handling of candles: replace the one with the same x, or add it. */
  function Upserts(chart: map<int, CandleData>, cs: seq<CandleData>): map<int, CandleData> {
    if cs == [] then chart else Upserts(chart, cs[..|cs| - 1])[cs[|cs| - 1].x := cs[|cs| - 1]]
  }

  function At(chart: map<int, CandleData>, x: int): Option<CandleData> {
    if x in chart then Some(chart[x]) else None
  }

  function CandlesOf(msgs: seq<Msg>): seq<CandleData> {
    if msgs == [] then []
    else
      var before, m := CandlesOf(msgs[..|msgs| - 1]), msgs[|msgs| - 1];
      if m.CandleMsg? then before + [m.candle] else before
  }

  function EventsOf(msgs: seq<Msg>): seq<Msg> {
    if msgs == [] then []
    else
      var before, m := EventsOf(msgs[..|msgs| - 1]), msgs[|msgs| - 1];
      if m.CandleMsg? then before else before + [m]
  }

  // --- The steps -----------------------------------------------------------------------------------

  const NEW_CLIENT := Client([], false, map[], [], [], {})

  /** The non-blocking send of broadcastSSE to one client: a full channel drops the message. */
  function Offer(cl: Client, m: Msg): Client {
    if |cl.channel| < CHANNEL_SIZE then
      cl.(channel := cl.channel + [m],
          stale := if m.CandleMsg? then cl.stale - {m.candle.x} else cl.stale)
    else
      cl.(lost := cl.lost + [m],
          stale := if m.CandleMsg? then cl.stale + {m.candle.x} else cl.stale)
  }

  function TakeSnapshot(cl: Client, candlesticks: seq<CandleData>, events: seq<Msg>): Client {
    cl.(snapshotted := true,
        chart := Upserts(cl.chart, candlesticks),
        events := cl.events + events,
        stale := set x | x in cl.stale && x in Upserts(map[], CandlesOf(cl.channel)))
  }

  function DrainOne(cl: Client): Client
    requires cl.channel != []
  {
    var m, rest := cl.channel[0], cl.(channel := cl.channel[1..]);
    if m.CandleMsg? then rest.(chart := rest.chart[m.candle.x := m.candle])
    else rest.(events := rest.events + [m])
  }

  function StoreInto(candlesticks: seq<CandleData>, c: CandleData): seq<CandleData> {
    var n := |candlesticks|;
    if n > 0 && candlesticks[n - 1].x == c.x then candlesticks[n - 1 := c] else candlesticks + [c]
  }

  predicate Enabled(s: State, e: Step) {
    match e
    case StoreCandle(_) => s.sending.None?
    case SendCandle => s.sending.Some?
    case StoreEvent(m) => !m.CandleMsg?
    case SendEvent(m) => m in s.waiting
    case Register(id) => id !in s.clients
    case Snapshot(id) => id in s.clients && !s.clients[id].snapshotted
    case Drain(id) => id in s.clients && s.clients[id].snapshotted && s.clients[id].channel != []
    case Disconnect(id) => id in s.clients
  }

  function Broadcast(clients: map<int, Client>, m: Msg): map<int, Client> {
    map id | id in clients :: Offer(clients[id], m)
  }

  /** A step that is not enabled waits: the state stays as it is. */
  function Apply(s: State, e: Step): State {
    if !Enabled(s, e) then s
    else
      match e
      case StoreCandle(c) => s.(candlesticks := StoreInto(s.candlesticks, c), sending := Some(c))
      case SendCandle => s.(clients := Broadcast(s.clients, CandleMsg(s.sending.value)), sending := None)
      case StoreEvent(m) =>
        var t := s.(waiting := s.waiting + multiset{m});
        if m.IndicatorMsg? then t.(indicators := t.indicators + [m]) else t.(orders := t.orders + [m])
      case SendEvent(m) => s.(clients := Broadcast(s.clients, m), waiting := s.waiting - multiset{m})
      case Register(id) => s.(clients := s.clients[id := NEW_CLIENT])
      case Snapshot(id) =>
        s.(clients := s.clients[id := TakeSnapshot(s.clients[id], s.candlesticks, s.indicators + s.orders)])
      case Drain(id) => s.(clients := s.clients[id := DrainOne(s.clients[id])])
      case Disconnect(id) => s.(clients := s.clients - {id})
  }

  function RunFrom(s: State, es: seq<Step>): State {
    if es == [] then s else Apply(RunFrom(s, es[..|es| - 1]), es[|es| - 1])
  }

  function Run(es: seq<Step>): State {
    RunFrom(INIT, es)
  }

  function AlsoCandle(candles: seq<CandleData>, s: State, e: Step): seq<CandleData> {
    if e.StoreCandle? && Enabled(s, e) then candles + [e.candle] else candles
  }

  function AlsoEvent(events: multiset<Msg>, s: State, e: Step): multiset<Msg> {
    if e.StoreEvent? && Enabled(s, e) then events + multiset{e.msg} else events
  }

  /** Every candle the producer stored, in order. */
  function Stored(es: seq<Step>): seq<CandleData> {
    if es == [] then []
    else
      var init := es[..|es| - 1];
      AlsoCandle(Stored(init), Run(init), es[|es| - 1])
  }

  /** Every order and indicator event stored. */
  function StoredEvents(es: seq<Step>): multiset<Msg> {
    if es == [] then multiset{}
    else
      var init := es[..|es| - 1];
      AlsoEvent(StoredEvents(init), Run(init), es[|es| - 1])
  }

  function Latest(stored: seq<CandleData>): map<int, CandleData> {
    Upserts(map[], stored)
  }

  // --- Lemmas on charts ----------------------------------------------------------------------------

  lemma {:induction false} UpsertsOver(chart: map<int, CandleData>, cs: seq<CandleData>, x: int)
    ensures At(Upserts(chart, cs), x) == if x in Upserts(map[], cs) then At(Upserts(map[], cs), x) else At(chart, x)
  {
    if cs != [] {
      UpsertsOver(chart, cs[..|cs| - 1], x);
    }
  }

  lemma {:induction false} UpsertsFirst(chart: map<int, CandleData>, c: CandleData, cs: seq<CandleData>)
    ensures Upserts(chart, [c] + cs) == Upserts(chart[c.x := c], cs)
  {
    if cs == [] {
      assert ([c] + cs)[..0] == [];
    } else {
      UpsertsFirst(chart, c, cs[..|cs| - 1]);
      assert ([c] + cs)[..|cs|] == [c] + cs[..|cs| - 1];
    }
  }

  lemma UpsertsLast(chart: map<int, CandleData>, cs: seq<CandleData>, c: CandleData)
    ensures Upserts(chart, cs + [c]) == Upserts(chart, cs)[c.x := c]
  {
  }

  lemma {:induction false} FirstCandle(m: Msg, msgs: seq<Msg>)
    ensures CandlesOf([m] + msgs) == if m.CandleMsg? then [m.candle] + CandlesOf(msgs) else CandlesOf(msgs)
  {
    if msgs == [] {
      assert ([m] + msgs)[..0] == [];
    } else {
      FirstCandle(m, msgs[..|msgs| - 1]);
      assert ([m] + msgs)[..|msgs|] == [m] + msgs[..|msgs| - 1];
    }
  }

  lemma {:induction false} FirstEvent(m: Msg, msgs: seq<Msg>)
    ensures EventsOf([m] + msgs) == if m.CandleMsg? then EventsOf(msgs) else [m] + EventsOf(msgs)
  {
    if msgs == [] {
      assert ([m] + msgs)[..0] == [];
    } else {
      FirstEvent(m, msgs[..|msgs| - 1]);
      assert ([m] + msgs)[..|msgs|] == [m] + msgs[..|msgs| - 1];
    }
  }

  lemma LastMsg(msgs: seq<Msg>, m: Msg)
    ensures CandlesOf(msgs + [m]) == if m.CandleMsg? then CandlesOf(msgs) + [m.candle] else CandlesOf(msgs)
    ensures EventsOf(msgs + [m]) == if m.CandleMsg? then EventsOf(msgs) else EventsOf(msgs) + [m]
  {
  }

  /** Overwriting the last stored candle instead of appending loses nothing a chart shows. */
  lemma StoreIsUpsert(candlesticks: seq<CandleData>, c: CandleData)
    ensures Upserts(map[], StoreInto(candlesticks, c)) == Upserts(map[], candlesticks)[c.x := c]
  {
  }

  // --- What holds of one client --------------------------------------------------------------------

  /** The candles on their way to the client: its channel, then the one about to be broadcast. */
  function Inbound(cl: Client, sending: Option<CandleData>): seq<CandleData> {
    if sending.Some? then CandlesOf(cl.channel) + [sending.value] else CandlesOf(cl.channel)
  }

  /** Once what is on its way has arrived, the chart shows the latest candle at every timestamp that is
      not stale; before the snapshot, what is on its way ends with the latest candle. */
  ghost predicate ChartInv(cl: Client, sending: Option<CandleData>, stored: seq<CandleData>) {
    && (sending.Some? ==> At(Latest(stored), sending.value.x) == sending)
    && (forall x :: x !in cl.stale && (cl.snapshotted || x in Upserts(map[], Inbound(cl, sending))) ==>
          At(Upserts(cl.chart, Inbound(cl, sending)), x) == At(Latest(stored), x))
    && (!cl.snapshotted ==> cl.chart == map[])
    && (forall x :: x in cl.stale ==> x in Upserts(map[], CandlesOf(cl.lost)))
  }

  /** Every stored event was received, is on its way or was dropped, and none comes more than twice. */
  ghost predicate EventInv(cl: Client, waiting: multiset<Msg>, stored: multiset<Msg>) {
    var moving := multiset(EventsOf(cl.channel)) + multiset(EventsOf(cl.lost)) + waiting;
    && waiting <= stored
    && moving <= stored
    && (if cl.snapshotted then stored <= multiset(cl.events) + moving <= stored + stored else cl.events == [])
  }

  ghost predicate ClientInv(cl: Client, sending: Option<CandleData>, waiting: multiset<Msg>,
                            candles: seq<CandleData>, events: multiset<Msg>) {
    ChartInv(cl, sending, candles) && EventInv(cl, waiting, events)
  }

  lemma StoreCandleKeeps(cl: Client, c: CandleData, stored: seq<CandleData>)
    requires ChartInv(cl, None, stored)
    ensures ChartInv(cl, Some(c), stored + [c])
  {
  }

  lemma CandleArrives(cl: Client, c: CandleData, stored: seq<CandleData>)
    requires ChartInv(cl, Some(c), stored) && |cl.channel| < CHANNEL_SIZE
    ensures ChartInv(Offer(cl, CandleMsg(c)), None, stored)
  {
    LastMsg(cl.channel, CandleMsg(c));
    assert Inbound(Offer(cl, CandleMsg(c)), None) == Inbound(cl, Some(c));
    assert c.x in Upserts(map[], Inbound(cl, Some(c)));
    UpsertsLast(cl.chart, CandlesOf(cl.channel), c);
  }

  lemma CandleDropped(cl: Client, c: CandleData, stored: seq<CandleData>)
    requires ChartInv(cl, Some(c), stored) && |cl.channel| >= CHANNEL_SIZE
    ensures ChartInv(Offer(cl, CandleMsg(c)), None, stored)
  {
    LastMsg(cl.lost, CandleMsg(c));
    UpsertsLast(cl.chart, CandlesOf(cl.channel), c);
    UpsertsLast(map[], CandlesOf(cl.channel), c);
    UpsertsLast(map[], CandlesOf(cl.lost), c);
  }

  /** Broadcasting a candle, whether or not the channel has room. */
  lemma SendCandleKeeps(cl: Client, c: CandleData, stored: seq<CandleData>)
    requires ChartInv(cl, Some(c), stored)
    ensures ChartInv(Offer(cl, CandleMsg(c)), None, stored)
  {
    if |cl.channel| < CHANNEL_SIZE {
      CandleArrives(cl, c, stored);
    } else {
      CandleDropped(cl, c, stored);
    }
  }

  lemma OtherSendKeepsChart(cl: Client, m: Msg, sending: Option<CandleData>, stored: seq<CandleData>)
    requires ChartInv(cl, sending, stored) && !m.CandleMsg?
    ensures ChartInv(Offer(cl, m), sending, stored)
  {
    LastMsg(cl.channel, m);
    LastMsg(cl.lost, m);
  }

  lemma SnapshotKeepsChart(cl: Client, s: State, events: seq<Msg>, stored: seq<CandleData>)
    requires ChartInv(cl, s.sending, stored) && !cl.snapshotted
    requires Upserts(map[], s.candlesticks) == Latest(stored)
    ensures ChartInv(TakeSnapshot(cl, s.candlesticks, events), s.sending, stored)
  {
    var after, inbound, queued := TakeSnapshot(cl, s.candlesticks, events), Inbound(cl, s.sending), CandlesOf(cl.channel);
    forall x | x !in after.stale
      ensures At(Upserts(after.chart, inbound), x) == At(Latest(stored), x)
    {
      UpsertsOver(after.chart, inbound, x);
      if s.sending.Some? {
        UpsertsLast(map[], queued, s.sending.value);
      } else {
        assert inbound == queued;
      }
    }
  }

  lemma DrainKeepsChart(cl: Client, sending: Option<CandleData>, stored: seq<CandleData>)
    requires ChartInv(cl, sending, stored) && cl.snapshotted && cl.channel != []
    ensures ChartInv(DrainOne(cl), sending, stored)
  {
    var m, rest := cl.channel[0], cl.channel[1..];
    assert cl.channel == [m] + rest;
    FirstCandle(m, rest);
    if m.CandleMsg? {
      assert Inbound(cl, sending) == [m.candle] + Inbound(DrainOne(cl), sending);
      UpsertsFirst(cl.chart, m.candle, Inbound(DrainOne(cl), sending));
    }
  }

  lemma MoveOne(queued: multiset<Msg>, lost: multiset<Msg>, waiting: multiset<Msg>, m: Msg)
    requires m in waiting
    ensures (queued + multiset{m}) + lost + (waiting - multiset{m}) == queued + lost + waiting
    ensures queued + (lost + multiset{m}) + (waiting - multiset{m}) == queued + lost + waiting
  {
  }

  lemma SendEventKeeps(cl: Client, m: Msg, waiting: multiset<Msg>, stored: multiset<Msg>)
    requires EventInv(cl, waiting, stored) && m in waiting && !m.CandleMsg?
    ensures EventInv(Offer(cl, m), waiting - multiset{m}, stored)
  {
    LastMsg(cl.channel, m);
    LastMsg(cl.lost, m);
    MoveOne(multiset(EventsOf(cl.channel)), multiset(EventsOf(cl.lost)), waiting, m);
  }

  lemma SendCandleKeepsEvents(cl: Client, c: CandleData, waiting: multiset<Msg>, stored: multiset<Msg>)
    requires EventInv(cl, waiting, stored)
    ensures EventInv(Offer(cl, CandleMsg(c)), waiting, stored)
  {
  }

  lemma StoreEventKeeps(cl: Client, m: Msg, waiting: multiset<Msg>, stored: multiset<Msg>)
    requires EventInv(cl, waiting, stored)
    ensures EventInv(cl, waiting + multiset{m}, stored + multiset{m})
  {
  }

  lemma SnapshotKeepsEvents(cl: Client, candlesticks: seq<CandleData>, events: seq<Msg>,
                            waiting: multiset<Msg>, stored: multiset<Msg>)
    requires EventInv(cl, waiting, stored) && !cl.snapshotted && multiset(events) == stored
    ensures EventInv(TakeSnapshot(cl, candlesticks, events), waiting, stored)
  {
  }

  lemma DrainKeepsEvents(cl: Client, waiting: multiset<Msg>, stored: multiset<Msg>)
    requires EventInv(cl, waiting, stored) && cl.snapshotted && cl.channel != []
    ensures EventInv(DrainOne(cl), waiting, stored)
  {
    var m, rest := cl.channel[0], cl.channel[1..];
    assert cl.channel == [m] + rest;
    FirstEvent(m, rest);
    if !m.CandleMsg? {
      assert multiset(EventsOf(cl.channel)) == multiset{m} + multiset(EventsOf(rest));
      assert multiset(DrainOne(cl).events) == multiset(cl.events) + multiset{m};
    }
  }

  // --- Every run -----------------------------------------------------------------------------------

  ghost predicate StoreInv(s: State, candles: seq<CandleData>, events: multiset<Msg>) {
    && Upserts(map[], s.candlesticks) == Latest(candles)
    && (s.sending.Some? ==> At(Latest(candles), s.sending.value.x) == s.sending)
    && multiset(s.indicators + s.orders) == events
    && s.waiting <= events
    && (forall m :: m in s.waiting ==> !m.CandleMsg?)
  }

  ghost predicate ClientsInv(s: State, candles: seq<CandleData>, events: multiset<Msg>) {
    forall id :: id in s.clients ==> ClientInv(s.clients[id], s.sending, s.waiting, candles, events)
  }

  lemma NewCandleKeepsStores(s: State, c: CandleData, candles: seq<CandleData>, events: multiset<Msg>)
    requires StoreInv(s, candles, events) && s.sending.None?
    ensures StoreInv(Apply(s, StoreCandle(c)), candles + [c], events)
  {
  }

  lemma NewEventKeepsStores(s: State, m: Msg, candles: seq<CandleData>, events: multiset<Msg>)
    requires StoreInv(s, candles, events) && !m.CandleMsg?
    ensures StoreInv(Apply(s, StoreEvent(m)), candles, events + multiset{m})
  {
    var t := Apply(s, StoreEvent(m));
    assert multiset(t.indicators) + multiset(t.orders) == multiset(s.indicators) + multiset(s.orders) + multiset{m};
  }

  lemma StepKeepsStores(s: State, e: Step, candles: seq<CandleData>, events: multiset<Msg>)
    requires StoreInv(s, candles, events)
    ensures StoreInv(Apply(s, e), AlsoCandle(candles, s, e), AlsoEvent(events, s, e))
  {
    if !Enabled(s, e) {
    } else if e.StoreCandle? {
      NewCandleKeepsStores(s, e.candle, candles, events);
    } else if e.StoreEvent? {
      NewEventKeepsStores(s, e.msg, candles, events);
    }
  }

  lemma {:induction false} StoresAreRight(es: seq<Step>)
    ensures StoreInv(Run(es), Stored(es), StoredEvents(es))
  {
    if es != [] {
      var init := es[..|es| - 1];
      StoresAreRight(init);
      StepKeepsStores(Run(init), es[|es| - 1], Stored(init), StoredEvents(init));
    }
  }

  /** Every run keeps the invariant of every client, whenever it connects. */
  lemma {:induction false} ClientsStayInStep(es: seq<Step>)
    ensures ClientsInv(Run(es), Stored(es), StoredEvents(es))
  {
    if es != [] {
      var init, e := es[..|es| - 1], es[|es| - 1];
      ClientsStayInStep(init);
      StoresAreRight(init);
      StoresAreRight(es);
      StepKeepsClients(Run(init), e, Stored(init), StoredEvents(init));
    }
  }

  lemma StepKeepsClients(s: State, e: Step, candles: seq<CandleData>, events: multiset<Msg>)
    requires ClientsInv(s, candles, events) && StoreInv(s, candles, events)
    ensures ClientsInv(Apply(s, e), AlsoCandle(candles, s, e), AlsoEvent(events, s, e))
  {
    var t := Apply(s, e);
    forall id | id in t.clients
      ensures ClientInv(t.clients[id], t.sending, t.waiting, AlsoCandle(candles, s, e), AlsoEvent(events, s, e))
    {
      if id !in s.clients {
        NewClientInStep(s, candles, events);
      } else if Enabled(s, e) {
        StepKeepsClient(s, e, id, candles, events);
      }
    }
  }

  lemma NewClientInStep(s: State, candles: seq<CandleData>, events: multiset<Msg>)
    requires StoreInv(s, candles, events)
    ensures ClientInv(NEW_CLIENT, s.sending, s.waiting, candles, events)
  {
  }

  lemma StepKeepsClient(s: State, e: Step, id: int, candles: seq<CandleData>, events: multiset<Msg>)
    requires StoreInv(s, candles, events) && Enabled(s, e)
    requires id in s.clients && id in Apply(s, e).clients
    requires ClientInv(s.clients[id], s.sending, s.waiting, candles, events)
    ensures ClientInv(Apply(s, e).clients[id], Apply(s, e).sending, Apply(s, e).waiting,
                      AlsoCandle(candles, s, e), AlsoEvent(events, s, e))
  {
    var cl := s.clients[id];
    match e
    case StoreCandle(c) =>
      StoreCandleKeeps(cl, c, candles);
    case SendCandle =>
      SendCandleKeeps(cl, s.sending.value, candles);
      SendCandleKeepsEvents(cl, s.sending.value, s.waiting, events);
    case StoreEvent(m) =>
      StoreEventKeeps(cl, m, s.waiting, events);
    case SendEvent(m) =>
      OtherSendKeepsChart(cl, m, s.sending, candles);
      SendEventKeeps(cl, m, s.waiting, events);
    case Snapshot(who) =>
      if who == id {
        SnapshotKeepsChart(cl, s, s.indicators + s.orders, candles);
        SnapshotKeepsEvents(cl, s.candlesticks, s.indicators + s.orders, s.waiting, events);
      }
    case Drain(who) =>
      if who == id {
        DrainKeepsChart(cl, s.sending, candles);
        DrainKeepsEvents(cl, s.waiting, events);
      }
    case _ =>
  }

  /** The client has had its snapshot, has drained its channel, and no broadcast is under way. */
  predicate Quiet(s: State, id: int) {
    id in s.clients && s.clients[id].snapshotted && s.clients[id].channel == []
    && s.sending.None? && s.waiting == multiset{}
  }

  /** However late it connected, a quiet client shows the latest stored candle at every timestamp whose
      last broadcast was not dropped for it. */
  lemma ChartsConverge(es: seq<Step>, id: int, x: int)
    requires Quiet(Run(es), id) && x !in Run(es).clients[id].stale
    ensures At(Run(es).clients[id].chart, x) == At(Latest(Stored(es)), x)
  {
    ClientsStayInStep(es);
    var cl := Run(es).clients[id];
    assert Inbound(cl, None) == [];
  }

  /** Without overflow a client that connects at any point of any interleaving ends with the very chart of
      a client present from the start, and with every order and indicator event, none more than twice. */
  lemma LateJoinerConverges(es: seq<Step>, late: int, early: int)
    requires Quiet(Run(es), late) && Quiet(Run(es), early)
    requires Run(es).clients[late].lost == [] && Run(es).clients[early].lost == []
    ensures Run(es).clients[late].chart == Run(es).clients[early].chart == Latest(Stored(es))
    ensures StoredEvents(es) <= multiset(Run(es).clients[late].events) <= StoredEvents(es) + StoredEvents(es)
  {
    ClientsStayInStep(es);
    forall id | id in {late, early}
      ensures Run(es).clients[id].chart == Latest(Stored(es))
    {
      var cl := Run(es).clients[id];
      assert ClientInv(cl, None, multiset{}, Stored(es), StoredEvents(es));
      assert Upserts(map[], CandlesOf(cl.lost)) == map[];
      assert forall y :: y !in cl.stale;
      forall x
        ensures At(cl.chart, x) == At(Latest(Stored(es)), x)
      {
        ChartsConverge(es, id, x);
      }
      SameChart(cl.chart, Latest(Stored(es)));
    }
    var cl := Run(es).clients[late];
    assert ClientInv(cl, None, multiset{}, Stored(es), StoredEvents(es));
  }

  lemma SameChart(a: map<int, CandleData>, b: map<int, CandleData>)
    requires forall x :: At(a, x) == At(b, x)
    ensures a == b
  {
    forall x
      ensures x in a <==> x in b
      ensures x in a ==> a[x] == b[x]
    {
      assert At(a, x) == At(b, x);
    }
  }

  lemma RunTwo(s: State, first: Step, second: Step)
    ensures RunFrom(s, [first, second]) == Apply(Apply(s, first), second)
  {
    assert [first][..0] == [];
    assert RunFrom(s, [first]) == Apply(s, first);
    assert [first, second][..1] == [first];
  }

  // --- The server object ---------------------------------------------------------------------------

  class Server {
    var candlesticks: seq<CandleData>
    var indicators: seq<Msg>
    var orders: seq<Msg>
    var sseClients: map<int, Client>
    var sending: Option<CandleData>
    var waiting: multiset<Msg>

    ghost function View(): State
      reads this
    {
      State(candlesticks, indicators, orders, sseClients, sending, waiting)
    }

    constructor ()
      ensures View() == INIT
    {
      candlesticks, indicators, orders, sseClients := [], [], [], map[];
      sending, waiting := None, multiset{};
    }

    /** The clients are visited in any order. */
    method BroadcastSSE(m: Msg)
      modifies this`sseClients
      ensures sseClients == Broadcast(old(sseClients), m)
    {
      var todo: set<int> := sseClients.Keys;
      while todo != {}
        invariant todo <= old(sseClients).Keys && sseClients.Keys == old(sseClients).Keys
        invariant forall id :: id in sseClients ==>
          sseClients[id] == if id in todo then old(sseClients)[id] else Offer(old(sseClients)[id], m)
        decreases todo
      {
        var id := Pick(todo);
        sseClients, todo := sseClients[id := Offer(sseClients[id], m)], todo - {id};
      }
      assert forall id :: id in sseClients ==> sseClients[id] == Offer(old(sseClients)[id], m);
      assert sseClients.Keys == Broadcast(old(sseClients), m).Keys;
    }

    method OnCandle(candle: Candle)
      requires sending.None?
      modifies this
      ensures var cd := CandleData(candle.time * 1000, candle.open, candle.high, candle.low, candle.close,
                                   candle.volume, candle.complete);
        View() == RunFrom(old(View()), [StoreCandle(cd), SendCandle])
    {
      ghost var before := View();
      var cd := CandleData(candle.time * 1000, candle.open, candle.high, candle.low, candle.close,
                           candle.volume, candle.complete);
      var n := |candlesticks|;
      if n > 0 && candlesticks[n - 1].x == cd.x {
        candlesticks := candlesticks[n - 1 := cd];
      } else {
        candlesticks := candlesticks + [cd];
      }
      sending := Some(cd);
      assert View() == Apply(before, StoreCandle(cd));
      BroadcastSSE(CandleMsg(cd));
      sending := None;
      RunTwo(before, StoreCandle(cd), SendCandle);
    }

    method OnOrder(order: Order, now: int)
      modifies this
      ensures var m := OrderMsg(OrderEvent(now, order.pair, order.side, order.price, order.quantity));
        View() == RunFrom(old(View()), [StoreEvent(m), SendEvent(m)])
    {
      ghost var before := View();
      var m := OrderMsg(OrderEvent(now, order.pair, order.side, order.price, order.quantity));
      orders := orders + [m];
      waiting := waiting + multiset{m};
      assert View() == Apply(before, StoreEvent(m));
      BroadcastSSE(m);
      waiting := waiting - multiset{m};
      RunTwo(before, StoreEvent(m), SendEvent(m));
    }

    method OnIndicators(time: int, values: seq<(string, real)>)
      modifies this
      ensures var m := IndicatorMsg(IndicatorEvent(time * 1000, values));
        View() == RunFrom(old(View()), [StoreEvent(m), SendEvent(m)])
    {
      ghost var before := View();
      var m := IndicatorMsg(IndicatorEvent(time * 1000, values));
      indicators := indicators + [m];
      waiting := waiting + multiset{m};
      assert View() == Apply(before, StoreEvent(m));
      BroadcastSSE(m);
      waiting := waiting - multiset{m};
      RunTwo(before, StoreEvent(m), SendEvent(m));
    }

    /** The opening of sseHandler. */
    method RegisterClient(id: int)
      requires Enabled(View(), Register(id))
      modifies this
      ensures View() == Apply(old(View()), Register(id))
    {
      sseClients := sseClients[id := NEW_CLIENT];
    }

    /** The snapshot loops of sseHandler, the browser handling each message as it comes. */
    method SendSnapshot(id: int)
      requires Enabled(View(), Snapshot(id))
      modifies this
      ensures View() == Apply(old(View()), Snapshot(id))
    {
      var cl, cs := sseClients[id], candlesticks;
      var chart := cl.chart;
      for i := 0 to |cs|
        invariant View() == old(View())
        invariant chart == Upserts(cl.chart, cs[..i])
      {
        UpsertsLast(cl.chart, cs[..i], cs[i]);
        assert cs[..i + 1] == cs[..i] + [cs[i]];
        chart := chart[cs[i].x := cs[i]];
      }
      assert cs[..|cs|] == cs;
      var stale := set x | x in cl.stale && x in Upserts(map[], CandlesOf(cl.channel));
      cl := cl.(snapshotted := true, chart := chart, events := cl.events + (indicators + orders), stale := stale);
      assert cl == TakeSnapshot(old(sseClients)[id], cs, indicators + orders);
      sseClients := sseClients[id := cl];
    }

    /** One turn of the loop that ends sseHandler. */
    method DrainClient(id: int)
      requires Enabled(View(), Drain(id))
      modifies this
      ensures View() == Apply(old(View()), Drain(id))
    {
      sseClients := sseClients[id := DrainOne(sseClients[id])];
    }

    method DisconnectClient(id: int)
      requires Enabled(View(), Disconnect(id))
      modifies this
      ensures View() == Apply(old(View()), Disconnect(id))
    {
      sseClients := sseClients - {id};
    }
  }
}
