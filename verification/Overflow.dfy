/** webserver/webserver.go: what a full channel costs a client. A broadcast that finds no room is dropped for
    the client; whether its chart ends up without the candle also depends on the snapshot. */
module Overflow {
  import opened Model
  import opened WebServer

  /** The candle a client's chart will show at x once its snapshot and its channel have arrived, if no
      candle of x is stored or broadcast from here on. */
  function Prospect(s: State, id: int, x: int): Option<CandleData> {
    var stored := Upserts(map[], s.candlesticks);
    if id !in s.clients then At(stored, x)
    else
      var cl := s.clients[id];
      At(Upserts(if cl.snapshotted then cl.chart else stored, CandlesOf(cl.channel)), x)
  }

  predicate Blank(s: State, id: int) {
    id in s.clients && !s.clients[id].snapshotted ==> s.clients[id].chart == map[]
  }

  predicate Orderly(s: State, id: int) {
    Blank(s, id) && forall m :: m in s.waiting ==> !m.CandleMsg?
  }

  lemma RunIsOrderly(es: seq<Step>, id: int)
    ensures Orderly(Run(es), id)
  {
    StoresAreRight(es);
    ClientsStayInStep(es);
  }

  /** The step stores or broadcasts no candle of x, and does not disconnect the client. */
  predicate Spares(s: State, e: Step, id: int, x: int) {
    && !(e.StoreCandle? && Enabled(s, e) && e.candle.x == x)
    && !(e.SendCandle? && Enabled(s, e) && s.sending.value.x == x)
    && !(e.Disconnect? && e.id == id)
  }

  lemma OfferSpares(cl: Client, m: Msg, chart: map<int, CandleData>, x: int)
    requires m.CandleMsg? ==> m.candle.x != x
    ensures At(Upserts(chart, CandlesOf(Offer(cl, m).channel)), x) == At(Upserts(chart, CandlesOf(cl.channel)), x)
  {
    LastMsg(cl.channel, m);
    if m.CandleMsg? {
      UpsertsLast(chart, CandlesOf(cl.channel), m.candle);
    }
  }

  lemma StoreSpares(s: State, c: CandleData, id: int, x: int)
    requires s.sending.None? && c.x != x
    ensures Prospect(Apply(s, StoreCandle(c)), id, x) == Prospect(s, id, x)
  {
    StoreIsUpsert(s.candlesticks, c);
    if id in s.clients {
      var queued, stored := CandlesOf(s.clients[id].channel), Upserts(map[], s.candlesticks);
      UpsertsOver(stored, queued, x);
      UpsertsOver(stored[c.x := c], queued, x);
    }
  }

  lemma SendSpares(s: State, e: Step, id: int, x: int)
    requires Enabled(s, e) && (e.SendCandle? || e.SendEvent?) && Spares(s, e, id, x) && Orderly(s, id)
    ensures Prospect(Apply(s, e), id, x) == Prospect(s, id, x)
  {
    if id in s.clients {
      var cl := s.clients[id];
      var m := if e.SendCandle? then CandleMsg(s.sending.value) else e.msg;
      OfferSpares(cl, m, if cl.snapshotted then cl.chart else Upserts(map[], s.candlesticks), x);
    }
  }

  lemma DrainSpares(s: State, id: int, x: int)
    requires Enabled(s, Drain(id))
    ensures Prospect(Apply(s, Drain(id)), id, x) == Prospect(s, id, x)
  {
    var cl := s.clients[id];
    var m, rest := cl.channel[0], cl.channel[1..];
    assert cl.channel == [m] + rest;
    FirstCandle(m, rest);
    if m.CandleMsg? {
      UpsertsFirst(cl.chart, m.candle, CandlesOf(rest));
    }
  }

  lemma RunLast(es: seq<Step>, e: Step)
    ensures Run(es + [e]) == Apply(Run(es), e)
  {
    assert (es + [e])[..|es|] == es;
  }

  /** Neither registration nor snapshot nor draining changes what the client will show. */
  lemma StepKeepsProspect(s: State, e: Step, id: int, x: int)
    requires Spares(s, e, id, x) && Orderly(s, id)
    ensures Prospect(Apply(s, e), id, x) == Prospect(s, id, x)
  {
    if Enabled(s, e) {
      match e
      case StoreCandle(c) => StoreSpares(s, c, id, x);
      case SendCandle => SendSpares(s, e, id, x);
      case SendEvent(_) => SendSpares(s, e, id, x);
      case Drain(who) => if who == id { DrainSpares(s, id, x); }
      case _ =>
    }
  }

  predicate Harmless(e: Step, id: int, x: int) {
    !(e.StoreCandle? && e.candle.x == x) && !(e.Disconnect? && e.id == id)
  }

  predicate Sparing(es: seq<Step>, id: int, x: int) {
    forall i :: 0 <= i < |es| ==> Harmless(es[i], id, x)
  }

  predicate SendsOther(s: State, x: int) {
    s.sending.Some? ==> s.sending.value.x != x
  }

  lemma HarmlessLast(es: seq<Step>, e: Step, id: int, x: int)
    requires Harmless(e, id, x) && SendsOther(Run(es), x)
    ensures SendsOther(Run(es + [e]), x)
    ensures Prospect(Run(es + [e]), id, x) == Prospect(Run(es), id, x)
  {
    RunIsOrderly(es, id);
    StepKeepsProspect(Run(es), e, id, x);
    RunLast(es, e);
  }

  /** After the last broadcast of x. */
  lemma {:induction false} RunKeepsProspect(before: seq<Step>, es: seq<Step>, id: int, x: int)
    requires Sparing(es, id, x) && SendsOther(Run(before), x)
    ensures SendsOther(Run(before + es), x)
    ensures Prospect(Run(before + es), id, x) == Prospect(Run(before), id, x)
  {
    if es == [] {
      assert before + es == before;
    } else {
      var init, e := es[..|es| - 1], es[|es| - 1];
      RunKeepsProspect(before, init, id, x);
      HarmlessLast(before + init, e, id, x);
      assert before + es == before + init + [e];
    }
  }

  predicate Unsent(es: seq<Step>, id: int) {
    forall i :: 0 <= i < |es| ==> !es[i].SendCandle? && !(es[i].Disconnect? && es[i].id == id)
  }

  /** Between the store and the broadcast of a candle. */
  lemma {:induction false} UnsentKeepsProspect(before: seq<Step>, es: seq<Step>, id: int, x: int)
    requires Unsent(es, id) && Run(before).sending.Some?
    ensures Run(before + es).sending == Run(before).sending
    ensures id in Run(before).clients ==> id in Run(before + es).clients
    ensures Prospect(Run(before + es), id, x) == Prospect(Run(before), id, x)
  {
    if es == [] {
      assert before + es == before;
    } else {
      var init, e := es[..|es| - 1], es[|es| - 1];
      UnsentKeepsProspect(before, init, id, x);
      assert (before + es)[..|before + es| - 1] == before + init;
      RunIsOrderly(before + init, id);
      StepKeepsProspect(Run(before + init), e, id, x);
    }
  }

  // --- One candle, from its store to the chart ------------------------------------------------------

  predicate HasRoom(s: State, id: int) {
    id in s.clients && |s.clients[id].channel| < CHANNEL_SIZE
  }

  /** An older candle of x is waiting in the client's channel. */
  predicate Waiting(cl: Client, x: int) {
    x in Upserts(map[], CandlesOf(cl.channel))
  }

  /** What the chart will show at the candle's timestamp when the broadcast is dropped, seen from before the
      candle is stored: the candle itself where the snapshot, still to come, has the last word; else what
      the chart was going to show anyway. */
  function WithoutBroadcast(s: State, id: int, c: CandleData): Option<CandleData> {
    if id !in s.clients || (!s.clients[id].snapshotted && !Waiting(s.clients[id], c.x)) then Some(c)
    else At(Upserts(s.clients[id].chart, CandlesOf(s.clients[id].channel)), c.x)
  }

  lemma StoreProspect(s: State, id: int, c: CandleData)
    requires s.sending.None? && Orderly(s, id)
    ensures Prospect(Apply(s, StoreCandle(c)), id, c.x) == WithoutBroadcast(s, id, c)
  {
    StoreIsUpsert(s.candlesticks, c);
    var stored := Upserts(map[], s.candlesticks)[c.x := c];
    if id in s.clients {
      UpsertsOver(stored, CandlesOf(s.clients[id].channel), c.x);
    }
  }

  lemma SendProspect(s: State, id: int)
    requires s.sending.Some?
    ensures var c := s.sending.value;
      Prospect(Apply(s, SendCandle), id, c.x) == if HasRoom(s, id) then Some(c) else Prospect(s, id, c.x)
  {
    var c := s.sending.value;
    if id in s.clients {
      var cl := s.clients[id];
      LastMsg(cl.channel, CandleMsg(c));
      UpsertsLast(if cl.snapshotted then cl.chart else Upserts(map[], s.candlesticks), CandlesOf(cl.channel), c);
    }
  }

  /** A run around one candle: `pre`, its store, `mid`, its broadcast, `post`. */
  function Around(pre: seq<Step>, c: CandleData, mid: seq<Step>, post: seq<Step>): seq<Step> {
    pre + [StoreCandle(c)] + mid + [SendCandle] + post
  }

  lemma ProspectAfterBroadcast(pre: seq<Step>, c: CandleData, mid: seq<Step>, id: int)
    requires Run(pre).sending.None? && Unsent(mid, id)
    ensures var sent := Run(pre + [StoreCandle(c)] + mid);
      && sent.sending == Some(c)
      && (id in Run(pre).clients ==> id in sent.clients)
      && Prospect(Apply(sent, SendCandle), id, c.x) ==
           if HasRoom(sent, id) then Some(c) else WithoutBroadcast(Run(pre), id, c)
  {
    RunLast(pre, StoreCandle(c));
    RunIsOrderly(pre, id);
    StoreProspect(Run(pre), id, c);
    UnsentKeepsProspect(pre + [StoreCandle(c)], mid, id, c.x);
    SendProspect(Run(pre + [StoreCandle(c)] + mid), id);
  }

  /** In every run around a candle that is the last of its timestamp, a client that stays connected from its
      registration on and comes to rest shows the candle if the broadcast found room, and otherwise what
      it would have shown without the broadcast. */
  lemma ChartAfterBroadcast(pre: seq<Step>, c: CandleData, mid: seq<Step>, post: seq<Step>, id: int)
    requires Run(pre).sending.None? && Unsent(mid, id) && Sparing(post, id, c.x)
    requires Quiet(Run(Around(pre, c, mid, post)), id)
    ensures At(Run(Around(pre, c, mid, post)).clients[id].chart, c.x) ==
      if HasRoom(Run(pre + [StoreCandle(c)] + mid), id) then Some(c) else WithoutBroadcast(Run(pre), id, c)
  {
    var sent := pre + [StoreCandle(c)] + mid;
    ProspectAfterBroadcast(pre, c, mid, id);
    RunLast(sent, SendCandle);
    RunKeepsProspect(sent + [SendCandle], post, id, c.x);
    assert CandlesOf(Run(Around(pre, c, mid, post)).clients[id].channel) == [];
  }

  // --- Everything a client has was stored ------------------------------------------------------------

  /** Every candle of the chart and of the channel is among those. */
  ghost predicate Among(cl: Client, stored: seq<CandleData>) {
    && (forall x :: x in cl.chart ==> cl.chart[x] in stored)
    && (forall c :: c in CandlesOf(cl.channel) ==> c in stored)
  }

  ghost predicate OnlyStored(s: State, stored: seq<CandleData>) {
    && (forall c :: c in s.candlesticks ==> c in stored)
    && (s.sending.Some? ==> s.sending.value in stored)
    && (forall id :: id in s.clients ==> Among(s.clients[id], stored))
  }

  lemma {:induction false} UpsertsFrom(chart: map<int, CandleData>, cs: seq<CandleData>, x: int)
    requires x in Upserts(chart, cs)
    ensures Upserts(chart, cs)[x] in cs || (x in chart && Upserts(chart, cs)[x] == chart[x])
  {
    if cs != [] {
      var init, c := cs[..|cs| - 1], cs[|cs| - 1];
      assert c in cs;
      if x != c.x {
        UpsertsFrom(chart, init, x);
        assert forall d :: d in init ==> d in cs;
      }
    }
  }

  lemma SnapshotAmong(cl: Client, candlesticks: seq<CandleData>, events: seq<Msg>, stored: seq<CandleData>)
    requires Among(cl, stored) && forall c :: c in candlesticks ==> c in stored
    ensures Among(TakeSnapshot(cl, candlesticks, events), stored)
  {
    forall x | x in Upserts(cl.chart, candlesticks)
      ensures Upserts(cl.chart, candlesticks)[x] in stored
    {
      UpsertsFrom(cl.chart, candlesticks, x);
    }
  }

  lemma OfferAmong(cl: Client, m: Msg, stored: seq<CandleData>)
    requires Among(cl, stored) && (m.CandleMsg? ==> m.candle in stored)
    ensures Among(Offer(cl, m), stored)
  {
    LastMsg(cl.channel, m);
  }

  lemma DrainAmong(cl: Client, stored: seq<CandleData>)
    requires Among(cl, stored) && cl.channel != []
    ensures Among(DrainOne(cl), stored)
  {
    var m, rest := cl.channel[0], cl.channel[1..];
    assert cl.channel == [m] + rest;
    FirstCandle(m, rest);
    if m.CandleMsg? {
      assert m.candle in [m.candle] + CandlesOf(rest);
    }
    forall c | c in CandlesOf(rest)
      ensures c in stored
    {
      assert c in CandlesOf(cl.channel);
    }
  }

  lemma ClientStepAmong(s: State, e: Step, id: int, stored: seq<CandleData>)
    requires OnlyStored(s, stored) && Enabled(s, e) && id in s.clients && id in Apply(s, e).clients
    requires forall m :: m in s.waiting ==> !m.CandleMsg?
    ensures Among(Apply(s, e).clients[id], stored)
  {
    var cl := s.clients[id];
    match e
    case SendCandle => OfferAmong(cl, CandleMsg(s.sending.value), stored);
    case SendEvent(m) => OfferAmong(cl, m, stored);
    case Snapshot(who) => if who == id { SnapshotAmong(cl, s.candlesticks, s.indicators + s.orders, stored); }
    case Drain(who) => if who == id { DrainAmong(cl, stored); }
    case _ =>
  }

  lemma ClientsAmong(s: State, e: Step, stored: seq<CandleData>)
    requires OnlyStored(s, stored) && forall m :: m in s.waiting ==> !m.CandleMsg?
    ensures forall id :: id in Apply(s, e).clients ==> Among(Apply(s, e).clients[id], stored)
  {
    forall id | id in Apply(s, e).clients
      ensures Among(Apply(s, e).clients[id], stored)
    {
      if id in s.clients && Enabled(s, e) {
        ClientStepAmong(s, e, id, stored);
      }
    }
  }

  lemma StoreOnlyStored(s: State, c: CandleData, stored: seq<CandleData>)
    requires OnlyStored(s, stored) && s.sending.None?
    ensures OnlyStored(Apply(s, StoreCandle(c)), stored + [c])
  {
    forall d | d in StoreInto(s.candlesticks, c)
      ensures d in stored + [c]
    {
      assert d == c || d in s.candlesticks;
    }
  }

  lemma StepOnlyStored(s: State, e: Step, stored: seq<CandleData>)
    requires OnlyStored(s, stored) && forall m :: m in s.waiting ==> !m.CandleMsg?
    ensures OnlyStored(Apply(s, e), AlsoCandle(stored, s, e))
  {
    if e.StoreCandle? && Enabled(s, e) {
      StoreOnlyStored(s, e.candle, stored);
    } else {
      ClientsAmong(s, e, stored);
    }
  }

  lemma {:induction false} RunOnlyStored(es: seq<Step>)
    ensures OnlyStored(Run(es), Stored(es))
  {
    if es != [] {
      var init := es[..|es| - 1];
      RunOnlyStored(init);
      StoresAreRight(init);
      StepOnlyStored(Run(init), es[|es| - 1], Stored(init));
    }
  }

  /** A candle not stored before is not what a client shows without its broadcast, unless the snapshot to
      come has the last word. */
  lemma NewCandleIsMissing(pre: seq<Step>, c: CandleData, id: int)
    requires c !in Stored(pre)
    ensures WithoutBroadcast(Run(pre), id, c) == Some(c) <==>
      id !in Run(pre).clients || (!Run(pre).clients[id].snapshotted && !Waiting(Run(pre).clients[id], c.x))
  {
    RunOnlyStored(pre);
    if id in Run(pre).clients {
      var cl := Run(pre).clients[id];
      if c.x in Upserts(cl.chart, CandlesOf(cl.channel)) {
        UpsertsFrom(cl.chart, CandlesOf(cl.channel), c.x);
      }
    }
  }

  /** The exact price of an overflow for a client that had its snapshot when the candle was stored: in every
      run in which it stays connected, c differs from all earlier candles and is the last of its timestamp,
      the client ends up showing c exactly when its channel had room at the broadcast of c. */
  lemma OverflowLosesCandleIff(pre: seq<Step>, c: CandleData, mid: seq<Step>, post: seq<Step>, id: int)
    requires Run(pre).sending.None? && Unsent(mid, id) && Sparing(post, id, c.x)
    requires Quiet(Run(Around(pre, c, mid, post)), id)
    requires c !in Stored(pre) && id in Run(pre).clients && Run(pre).clients[id].snapshotted
    ensures At(Run(Around(pre, c, mid, post)).clients[id].chart, c.x) == Some(c) <==>
      HasRoom(Run(pre + [StoreCandle(c)] + mid), id)
  {
    ChartAfterBroadcast(pre, c, mid, post, id);
    NewCandleIsMissing(pre, c, id);
  }

  /** While the snapshot is still to come the room matters only if an older candle of the timestamp waits in
      the channel: it would overwrite the snapshot's. */
  lemma PendingSnapshotLosesCandleIff(pre: seq<Step>, c: CandleData, mid: seq<Step>, post: seq<Step>, id: int)
    requires Run(pre).sending.None? && Unsent(mid, id) && Sparing(post, id, c.x)
    requires Quiet(Run(Around(pre, c, mid, post)), id)
    requires c !in Stored(pre) && id in Run(pre).clients && !Run(pre).clients[id].snapshotted
    ensures At(Run(Around(pre, c, mid, post)).clients[id].chart, c.x) == Some(c) <==>
      HasRoom(Run(pre + [StoreCandle(c)] + mid), id) || !Waiting(Run(pre).clients[id], c.x)
  {
    ChartAfterBroadcast(pre, c, mid, post, id);
    NewCandleIsMissing(pre, c, id);
  }

  /** A client that registers after the store always shows the candle, dropped or not. */
  lemma LateClientLosesNothing(pre: seq<Step>, c: CandleData, mid: seq<Step>, post: seq<Step>, id: int)
    requires Run(pre).sending.None? && Unsent(mid, id) && Sparing(post, id, c.x)
    requires Quiet(Run(Around(pre, c, mid, post)), id)
    requires id !in Run(pre).clients
    ensures At(Run(Around(pre, c, mid, post)).clients[id].chart, c.x) == Some(c)
  {
    ChartAfterBroadcast(pre, c, mid, post, id);
  }

  // --- Runs on which it happens ---------------------------------------------------------------------

  /** n events stored and broadcast. */
  function Fill(m: Msg, n: nat): seq<Step> {
    if n == 0 then [] else Fill(m, n - 1) + [StoreEvent(m), SendEvent(m)]
  }

  function Drains(id: int, n: nat): seq<Step> {
    if n == 0 then [] else Drains(id, n - 1) + [Drain(id)]
  }

  /** The client is connected with n messages in its channel, and no broadcast is under way. */
  predicate Holding(s: State, id: int, snapshotted: bool, n: nat) {
    && id in s.clients && s.clients[id].snapshotted == snapshotted && |s.clients[id].channel| == n
    && s.sending == None && s.waiting == multiset{}
  }

  lemma OneEvent(s: State, id: int, snapshotted: bool, n: nat, m: Msg)
    requires Holding(s, id, snapshotted, n) && n < CHANNEL_SIZE && !m.CandleMsg?
    ensures var t := Apply(Apply(s, StoreEvent(m)), SendEvent(m));
      Holding(t, id, snapshotted, n + 1) && CandlesOf(t.clients[id].channel) == CandlesOf(s.clients[id].channel)
  {
    LastMsg(s.clients[id].channel, m);
    assert multiset{} + multiset{m} - multiset{m} == multiset{};
  }

  lemma StoredLast(es: seq<Step>, e: Step)
    ensures Stored(es + [e]) == AlsoCandle(Stored(es), Run(es), e)
  {
    assert (es + [e])[..|es|] == es;
  }

  /** The client is as it was, but for n more messages in its channel; no candle was stored or queued. */
  predicate Fuller(es: seq<Step>, later: seq<Step>, id: int, snapshotted: bool, k: nat, n: nat)
    requires Holding(Run(es), id, snapshotted, k)
  {
    && Holding(Run(later), id, snapshotted, k + n)
    && CandlesOf(Run(later).clients[id].channel) == CandlesOf(Run(es).clients[id].channel)
    && Stored(later) == Stored(es)
  }

  lemma OneEventRun(es: seq<Step>, id: int, snapshotted: bool, n: nat, m: Msg)
    requires Holding(Run(es), id, snapshotted, n) && n < CHANNEL_SIZE && !m.CandleMsg?
    ensures Fuller(es, es + [StoreEvent(m)] + [SendEvent(m)], id, snapshotted, n, 1)
  {
    RunLast(es, StoreEvent(m));
    RunLast(es + [StoreEvent(m)], SendEvent(m));
    StoredLast(es, StoreEvent(m));
    StoredLast(es + [StoreEvent(m)], SendEvent(m));
    OneEvent(Run(es), id, snapshotted, n, m);
  }

  lemma FillPlus(es: seq<Step>, m: Msg, n: nat)
    ensures es + Fill(m, n + 1) == es + Fill(m, n) + [StoreEvent(m)] + [SendEvent(m)]
    ensures es + Fill(m, 0) == es
  {
  }

  lemma FullerYet(es: seq<Step>, mid: seq<Step>, later: seq<Step>, id: int, snapshotted: bool, k: nat, n: nat)
    requires Holding(Run(es), id, snapshotted, k) && Fuller(es, mid, id, snapshotted, k, n)
    requires Fuller(mid, later, id, snapshotted, k + n, 1)
    ensures Fuller(es, later, id, snapshotted, k, n + 1)
  {
  }

  lemma FilledOneMore(es: seq<Step>, mid: seq<Step>, id: int, snapshotted: bool, k: nat, n: nat, m: Msg)
    requires Holding(Run(es), id, snapshotted, k) && k + n < CHANNEL_SIZE && !m.CandleMsg?
    requires Fuller(es, mid, id, snapshotted, k, n)
    ensures Fuller(es, mid + [StoreEvent(m)] + [SendEvent(m)], id, snapshotted, k, n + 1)
  {
    OneEventRun(mid, id, snapshotted, k + n, m);
    FullerYet(es, mid, mid + [StoreEvent(m)] + [SendEvent(m)], id, snapshotted, k, n);
  }

  lemma {:induction false} Filled(es: seq<Step>, id: int, snapshotted: bool, k: nat, n: nat, m: Msg)
    requires Holding(Run(es), id, snapshotted, k) && k + n <= CHANNEL_SIZE && !m.CandleMsg?
    ensures Fuller(es, es + Fill(m, n), id, snapshotted, k, n)
  {
    if n == 0 {
      FillPlus(es, m, 0);
    } else {
      FillPlus(es, m, n - 1);
      Filled(es, id, snapshotted, k, n - 1, m);
      FilledOneMore(es, es + Fill(m, n - 1), id, snapshotted, k, n - 1, m);
    }
  }

  lemma {:induction false} DrainsSpare(id: int, n: nat, x: int)
    ensures Sparing(Drains(id, n), id, x)
  {
    if n > 0 {
      DrainsSpare(id, n - 1, x);
    }
  }

  lemma {:induction false} Emptied(es: seq<Step>, id: int, n: nat, k: nat)
    requires Holding(Run(es), id, true, n) && k <= n
    ensures Holding(Run(es + Drains(id, k)), id, true, n - k)
  {
    if k == 0 {
      assert es + Drains(id, 0) == es;
    } else {
      Emptied(es, id, n, k - 1);
      RunLast(es + Drains(id, k - 1), Drain(id));
      assert es + Drains(id, k) == es + Drains(id, k - 1) + [Drain(id)];
    }
  }

  lemma DroppedBroadcast(pre: seq<Step>, c: CandleData, id: int, snapshotted: bool)
    requires Holding(Run(pre), id, snapshotted, CHANNEL_SIZE)
    ensures !HasRoom(Run(pre + [StoreCandle(c)] + []), id)
    ensures Holding(Run(pre + [StoreCandle(c)] + [] + [SendCandle]), id, snapshotted, CHANNEL_SIZE)
  {
    assert pre + [StoreCandle(c)] + [] == pre + [StoreCandle(c)];
    RunLast(pre, StoreCandle(c));
    RunLast(pre + [StoreCandle(c)], SendCandle);
  }

  function Connected(id: int): seq<Step> {
    [Register(id)] + [Snapshot(id)]
  }

  lemma ConnectedHolds(id: int)
    ensures Holding(Run(Connected(id)), id, true, 0) && Stored(Connected(id)) == []
  {
    var first := [] + [Register(id)];
    assert first == [Register(id)];
    RunLast([], Register(id));
    RunLast(first, Snapshot(id));
    StoredLast([], Register(id));
    StoredLast(first, Snapshot(id));
  }

  /** Fifty undrained orders fill the channel of a client, and the next candle is lost to it. */
  lemma OverflowLosesACandle(c: CandleData, o: OrderEvent, id: int)
    ensures var m := OrderMsg(o);
      var pre, post := Connected(id) + Fill(m, CHANNEL_SIZE), Drains(id, CHANNEL_SIZE);
      && Quiet(Run(Around(pre, c, [], post)), id)
      && id in Run(pre).clients && Run(pre).clients[id].snapshotted && c !in Stored(pre)
      && !HasRoom(Run(pre + [StoreCandle(c)] + []), id)
      && At(Run(Around(pre, c, [], post)).clients[id].chart, c.x) != Some(c)
  {
    var m := OrderMsg(o);
    var pre, post := Connected(id) + Fill(m, CHANNEL_SIZE), Drains(id, CHANNEL_SIZE);
    ConnectedHolds(id);
    Filled(Connected(id), id, true, 0, CHANNEL_SIZE, m);
    DroppedBroadcast(pre, c, id, true);
    Emptied(pre + [StoreCandle(c)] + [] + [SendCandle], id, CHANNEL_SIZE, CHANNEL_SIZE);
    DrainsSpare(id, CHANNEL_SIZE, c.x);
    OverflowLosesCandleIff(pre, c, [], post, id);
  }

  /** A client that is sent an older candle before its snapshot. */
  function Prepared(older: CandleData, id: int): seq<Step> {
    [Register(id)] + [StoreCandle(older)] + [SendCandle]
  }

  lemma PreparedHolds(older: CandleData, id: int)
    ensures Holding(Run(Prepared(older, id)), id, false, 1) && Stored(Prepared(older, id)) == [older]
    ensures CandlesOf(Run(Prepared(older, id)).clients[id].channel) == [older]
  {
    var first := [] + [Register(id)];
    var second := first + [StoreCandle(older)];
    assert first == [Register(id)];
    RunLast([], Register(id));
    RunLast(first, StoreCandle(older));
    RunLast(second, SendCandle);
    StoredLast([], Register(id));
    StoredLast(first, StoreCandle(older));
    StoredLast(second, SendCandle);
    LastMsg([], CandleMsg(older));
    assert [] + [CandleMsg(older)] == [CandleMsg(older)];
  }

  lemma SnapshotSparing(es: seq<Step>, id: int, x: int)
    requires Sparing(es, id, x)
    ensures Sparing([Snapshot(id)] + es, id, x)
  {
  }

  lemma PendingIsFull(older: CandleData, m: Msg, id: int)
    requires !m.CandleMsg?
    ensures var pre := Prepared(older, id) + Fill(m, CHANNEL_SIZE - 1);
      && Holding(Run(pre), id, false, CHANNEL_SIZE)
      && Stored(pre) == [older] && Waiting(Run(pre).clients[id], older.x)
  {
    PreparedHolds(older, id);
    Filled(Prepared(older, id), id, false, 1, CHANNEL_SIZE - 1, m);
    UpsertsLast(map[], [], older);
    assert [] + [older] == [older];
  }

  lemma SnapshotAndDrains(es: seq<Step>, id: int, n: nat)
    requires Holding(Run(es), id, false, n)
    ensures Holding(Run(es + ([Snapshot(id)] + Drains(id, n))), id, true, 0)
  {
    RunLast(es, Snapshot(id));
    Emptied(es + [Snapshot(id)], id, n, n);
    assert es + ([Snapshot(id)] + Drains(id, n)) == es + [Snapshot(id)] + Drains(id, n);
  }

  /** The same with the snapshot still to come: the older candle waits in the full channel, and ends up over
      the newer one that only the snapshot brought. */
  lemma PendingSnapshotLosesACandle(c: CandleData, older: CandleData, o: OrderEvent, id: int)
    requires older.x == c.x && older != c
    ensures var m := OrderMsg(o);
      var pre, post := Prepared(older, id) + Fill(m, CHANNEL_SIZE - 1), [Snapshot(id)] + Drains(id, CHANNEL_SIZE);
      && Quiet(Run(Around(pre, c, [], post)), id)
      && id in Run(pre).clients && !Run(pre).clients[id].snapshotted && c !in Stored(pre)
      && !HasRoom(Run(pre + [StoreCandle(c)] + []), id) && Waiting(Run(pre).clients[id], c.x)
      && At(Run(Around(pre, c, [], post)).clients[id].chart, c.x) != Some(c)
  {
    var m := OrderMsg(o);
    var pre, post := Prepared(older, id) + Fill(m, CHANNEL_SIZE - 1), [Snapshot(id)] + Drains(id, CHANNEL_SIZE);
    PendingIsFull(older, m, id);
    DroppedBroadcast(pre, c, id, false);
    SnapshotAndDrains(pre + [StoreCandle(c)] + [] + [SendCandle], id, CHANNEL_SIZE);
    DrainsSpare(id, CHANNEL_SIZE, c.x);
    SnapshotSparing(Drains(id, CHANNEL_SIZE), id, c.x);
    PendingSnapshotLosesCandleIff(pre, c, [], post, id);
  }
}
