/** feed/order_feed.go: one bounded channel and one worker goroutine per pair, fanning orders out to the
    pair's subscribers in turn. Goroutines are atomic steps of a transition system; a step that is not
    enabled is a goroutine that blocks, and leaves the state as it is. */
module OrderFeed {
  import opened Model

  const CAPACITY: nat := 100

  datatype Channel = Channel(data: seq<Order>, closes: nat)

  datatype Worker = Waiting | Delivering(order: Order, next: nat) | Exited

  /** `subscriptions` holds, per pair, what each subscriber's consumer has been called with. */
  datatype State = State(
    feeds: map<string, Channel>,
    subscriptions: map<string, seq<seq<Order>>>,
    workers: map<string, Worker>,
    started: bool,
    cancelled: bool)

  datatype Event =
    | Subscribe(pair: string)
    | Publish(order: Order)
    | Start
    | Receive(pair: string)
    | Deliver(pair: string)
    | Finish(pair: string)
    | Close(pair: string)
    | Stop

  const INIT := State(map[], map[], map[], false, false)

  function Logs(s: State, pair: string): seq<seq<Order>> {
    if pair in s.subscriptions then s.subscriptions[pair] else []
  }

  /** When a step can be taken. Subscribers come before the one Start, and nothing is published after
      Stop; the rest is what the channel operations and the select statements wait for. */
  predicate Enabled(s: State, e: Event) {
    match e
    case Subscribe(_) => !s.started
    case Publish(o) => !s.cancelled && (o.pair in s.feeds ==> |s.feeds[o.pair].data| < CAPACITY)
    case Start => !s.started
    case Receive(p) => p in s.workers && s.workers[p].Waiting? && p in s.feeds && s.feeds[p].data != []
    case Deliver(p) => p in s.workers && s.workers[p].Delivering? && s.workers[p].next < |Logs(s, p)|
    case Finish(p) => p in s.workers && s.workers[p].Delivering? && |Logs(s, p)| <= s.workers[p].next
    case Close(p) => s.cancelled && p in s.workers && s.workers[p].Waiting? && p in s.feeds
    case Stop => true
  }

  function Apply(s: State, e: Event): State {
    if !Enabled(s, e) then s
    else
      match e
      case Subscribe(p) =>
        s.(feeds := if p in s.feeds then s.feeds else s.feeds[p := Channel([], 0)],
           subscriptions := s.subscriptions[p := Logs(s, p) + [[]]])
      case Publish(o) =>
        if o.pair !in s.feeds then s
        else
          var ch := s.feeds[o.pair];
          s.(feeds := s.feeds[o.pair := ch.(data := ch.data + [o])])
      case Start =>
        s.(workers := map p | p in s.feeds :: Waiting, started := true)
      case Receive(p) =>
        var ch := s.feeds[p];
        s.(feeds := s.feeds[p := ch.(data := ch.data[1..])],
           workers := s.workers[p := Delivering(ch.data[0], 0)])
      case Deliver(p) =>
        var w, logs := s.workers[p], Logs(s, p);
        s.(subscriptions := s.subscriptions[p := logs[w.next := logs[w.next] + [w.order]]],
           workers := s.workers[p := w.(next := w.next + 1)])
      case Finish(p) =>
        s.(workers := s.workers[p := Waiting])
      case Close(p) =>
        var ch := s.feeds[p];
        s.(feeds := s.feeds[p := ch.(closes := ch.closes + 1)],
           workers := s.workers[p := Exited])
      case Stop =>
        s.(cancelled := true)
  }

  function RunFrom(s: State, es: seq<Event>): State {
    if es == [] then s else Apply(RunFrom(s, es[..|es| - 1]), es[|es| - 1])
  }

  function Run(es: seq<Event>): State {
    RunFrom(INIT, es)
  }

  predicate Accepts(s: State, e: Event, pair: string) {
    e.Publish? && e.order.pair == pair && pair in s.feeds && Enabled(s, e)
  }

  /** The publications on a pair that its channel accepted, in order. */
  function Published(es: seq<Event>, pair: string): seq<Order> {
    if es == [] then []
    else
      var init, e := es[..|es| - 1], es[|es| - 1];
      Published(init, pair) + if Accepts(Run(init), e, pair) then [e.order] else []
  }

  /** The order in flight, as long as subscriber i has not had it. */
  function InFlight(s: State, pair: string, i: nat): seq<Order> {
    if pair in s.workers && s.workers[pair].Delivering? && s.workers[pair].next <= i
    then [s.workers[pair].order] else []
  }

  predicate HasExited(s: State, pair: string) {
    pair in s.workers && s.workers[pair].Exited?
  }

  /** Nothing published on the pair is lost, duplicated or reordered for any of its subscribers. */
  ghost predicate Conserved(s: State, pair: string, published: seq<Order>)
    requires pair in s.feeds
  {
    forall i: nat :: i < |Logs(s, pair)| ==>
      Logs(s, pair)[i] + InFlight(s, pair, i) + s.feeds[pair].data == published
  }

  ghost predicate PairInv(s: State, pair: string, published: seq<Order>) {
    && (pair in s.feeds <==> pair in s.subscriptions)
    && (pair in s.workers <==> pair in s.feeds && s.started)
    && (pair !in s.feeds ==> published == [])
    && (forall o :: o in published ==> o.pair == pair)
    && (HasExited(s, pair) ==> s.cancelled)
    && (pair in s.feeds ==>
          && Logs(s, pair) != []
          && |s.feeds[pair].data| <= CAPACITY
          && s.feeds[pair].closes == (if HasExited(s, pair) then 1 else 0)
          && Conserved(s, pair, published)
          && (pair in s.workers && s.workers[pair].Delivering? ==> s.workers[pair].next <= |Logs(s, pair)|)
          && (!s.started ==> forall i :: 0 <= i < |Logs(s, pair)| ==> Logs(s, pair)[i] == []))
  }

  lemma SubscribeKeeps(s: State, e: Event, pair: string, published: seq<Order>)
    requires PairInv(s, pair, published) && e.Subscribe? && e.pair == pair && Enabled(s, e)
    ensures PairInv(Apply(s, e), pair, published)
  {
    var t := Apply(s, e);
    forall i: nat | i < |Logs(t, pair)|
      ensures Logs(t, pair)[i] + InFlight(t, pair, i) + t.feeds[pair].data == published
    {
      assert Logs(t, pair)[i] == [];
      assert pair in s.feeds ==> Logs(s, pair)[0] + InFlight(s, pair, 0) + s.feeds[pair].data == published;
    }
  }

  lemma PublishKeeps(s: State, e: Event, pair: string, published: seq<Order>)
    requires PairInv(s, pair, published) && Accepts(s, e, pair)
    ensures PairInv(Apply(s, e), pair, published + [e.order])
  {
    var t := Apply(s, e);
    forall i: nat | i < |Logs(t, pair)|
      ensures Logs(t, pair)[i] + InFlight(t, pair, i) + t.feeds[pair].data == published + [e.order]
    {
      assert Logs(s, pair)[i] + InFlight(s, pair, i) + s.feeds[pair].data == published;
    }
  }

  lemma WorkerKeeps(s: State, e: Event, pair: string, published: seq<Order>)
    requires PairInv(s, pair, published) && Enabled(s, e)
    requires (e.Receive? || e.Deliver? || e.Finish? || e.Close?) && e.pair == pair
    ensures PairInv(Apply(s, e), pair, published)
  {
    var t := Apply(s, e);
    forall i: nat | i < |Logs(t, pair)|
      ensures Logs(t, pair)[i] + InFlight(t, pair, i) + t.feeds[pair].data == published
    {
      assert Logs(s, pair)[i] + InFlight(s, pair, i) + s.feeds[pair].data == published;
      assert e.Receive? ==> s.feeds[pair].data == [s.feeds[pair].data[0]] + s.feeds[pair].data[1..];
    }
  }

  lemma StartStopKeep(s: State, e: Event, pair: string, published: seq<Order>)
    requires PairInv(s, pair, published) && (e.Start? || e.Stop?)
    ensures PairInv(Apply(s, e), pair, published)
  {
  }

  /** A step of another pair is not noticed. */
  lemma OthersKeep(s: State, e: Event, pair: string, published: seq<Order>)
    requires PairInv(s, pair, published)
    requires !e.Start? && !e.Stop? && (if e.Publish? then e.order.pair != pair else e.pair != pair)
    ensures PairInv(Apply(s, e), pair, published)
  {
    var t := Apply(s, e);
    assert Logs(t, pair) == Logs(s, pair);
    assert pair in s.feeds ==> t.feeds[pair] == s.feeds[pair];
    if pair in t.feeds {
      forall i: nat | i < |Logs(t, pair)|
        ensures Logs(t, pair)[i] + InFlight(t, pair, i) + t.feeds[pair].data == published
      {
        assert Logs(s, pair)[i] + InFlight(s, pair, i) + s.feeds[pair].data == published;
      }
    }
  }

  /** Every run keeps the invariant of every pair. */
  lemma {:induction false} EveryRunConserves(es: seq<Event>, pair: string)
    ensures PairInv(Run(es), pair, Published(es, pair))
  {
    if es != [] {
      var init, e := es[..|es| - 1], es[|es| - 1];
      EveryRunConserves(init, pair);
      var s, published := Run(init), Published(init, pair);
      if !Enabled(s, e) {
      } else if e.Start? || e.Stop? {
        StartStopKeep(s, e, pair, published);
      } else if (if e.Publish? then e.order.pair else e.pair) != pair {
        OthersKeep(s, e, pair, published);
      } else if e.Subscribe? {
        SubscribeKeeps(s, e, pair, published);
      } else if e.Publish? {
        if pair in s.feeds {
          PublishKeeps(s, e, pair, published);
        }
      } else {
        WorkerKeeps(s, e, pair, published);
      }
    }
  }

  lemma TwoViewsOfOneStream<T>(a: seq<T>, inA: seq<T>, b: seq<T>, inB: seq<T>, rest: seq<T>, all: seq<T>)
    requires a + inA + rest == all && b + inB + rest == all
    requires |inA| <= |inB| <= 1
    ensures b <= a <= all
    ensures |a| <= |b| + 1
    ensures |all| - 1 <= |a| + |rest| <= |all|
    ensures all[|all| - |rest|..] == rest
  {
    var n := |all| - |rest|;
    assert a + inA == all[..n] && a == all[..|a|];
    assert b + inB == all[..n] && b == all[..|b|];
  }

  /** In every reachable state: each subscriber has seen a prefix of the publications of its own pair, later
      subscribers never more than earlier ones and at most one order less; the queue holds the rest. */
  lemma SubscribersAgree(es: seq<Event>, pair: string, i: nat, j: nat)
    requires i <= j < |Logs(Run(es), pair)|
    ensures pair in Run(es).feeds
    ensures var s, published := Run(es), Published(es, pair); var data := s.feeds[pair].data;
      && Logs(s, pair)[j] <= Logs(s, pair)[i] <= published
      && |Logs(s, pair)[i]| <= |Logs(s, pair)[j]| + 1
      && |published| - 1 <= |Logs(s, pair)[i]| + |data| <= |published|
      && published[|published| - |data|..] == data
  {
    EveryRunConserves(es, pair);
    var s, published := Run(es), Published(es, pair);
    TwoViewsOfOneStream(Logs(s, pair)[i], InFlight(s, pair, i), Logs(s, pair)[j], InFlight(s, pair, j),
                        s.feeds[pair].data, published);
  }

  /** No subscriber sees another pair's order; a queue is bounded, and closed at most once, after Stop. */
  lemma PairsAreSeparate(es: seq<Event>, pair: string, i: nat)
    requires i < |Logs(Run(es), pair)|
    ensures pair in Run(es).feeds
    ensures forall o :: o in Logs(Run(es), pair)[i] ==> o.pair == pair
    ensures |Run(es).feeds[pair].data| <= 100
    ensures Run(es).feeds[pair].closes <= if Run(es).cancelled then 1 else 0
  {
    EveryRunConserves(es, pair);
    SubscribersAgree(es, pair, i, i);
    forall o | o in Logs(Run(es), pair)[i]
      ensures o.pair == pair
    {
      assert o in Published(es, pair);
    }
  }

  // --- Nothing accepted stays undelivered, unless the worker leaves first ---------------------------

  /** The worker's remaining steps for the order in flight. */
  function InHand(s: State, pair: string): nat
    requires pair in s.workers
  {
    match s.workers[pair]
    case Delivering(_, next) => if next <= |Logs(s, pair)| then |Logs(s, pair)| - next + 1 else 1
    case _ => 0
  }

  /** The steps of the worker that q queued orders take: one to receive, one for each subscriber, one to
      finish. */
  function StepsFor(q: nat, subscribers: nat): nat {
    if q == 0 then 0 else StepsFor(q - 1, subscribers) + subscribers + 2
  }

  /** The steps the worker of a pair has left. */
  function Backlog(s: State, pair: string): nat {
    if pair !in s.feeds || pair !in s.workers then 0
    else StepsFor(|s.feeds[pair].data|, |Logs(s, pair)|) + InHand(s, pair)
  }

  /** What the worker does next. */
  function WorkerEvent(s: State, pair: string): Event {
    if Enabled(s, Deliver(pair)) then Deliver(pair)
    else if Enabled(s, Finish(pair)) then Finish(pair)
    else Receive(pair)
  }

  /** A worker that has not left is never stuck: while there is a backlog its next step is enabled. */
  lemma WorkerProgresses(s: State, pair: string, published: seq<Order>)
    requires PairInv(s, pair, published) && pair in s.workers && !HasExited(s, pair) && Backlog(s, pair) > 0
    ensures Enabled(s, WorkerEvent(s, pair)) && IsWorkerStep(WorkerEvent(s, pair), pair)
    ensures Backlog(Apply(s, WorkerEvent(s, pair)), pair) == Backlog(s, pair) - 1
    ensures PairInv(Apply(s, WorkerEvent(s, pair)), pair, published)
    ensures pair in Apply(s, WorkerEvent(s, pair)).workers && !HasExited(Apply(s, WorkerEvent(s, pair)), pair)
  {
    WorkerKeeps(s, WorkerEvent(s, pair), pair, published);
  }

  predicate IsWorkerStep(e: Event, pair: string) {
    (e.Receive? || e.Deliver? || e.Finish?) && e.pair == pair
  }

  /** How many steps of the pair's worker are taken among the events. */
  function WorkerSteps(s: State, es: seq<Event>, pair: string): nat {
    if es == [] then 0
    else
      var init, e := es[..|es| - 1], es[|es| - 1];
      if IsWorkerStep(e, pair) && Enabled(RunFrom(s, init), e) then WorkerSteps(s, init, pair) + 1
      else WorkerSteps(s, init, pair)
  }

  /** The steps the worker still owes the first n of `published` publications on the pair. */
  function Owed(s: State, pair: string, published: nat, n: nat): nat {
    if pair !in s.feeds || pair !in s.workers then 0
    else
      var queued := n - (published - |s.feeds[pair].data|);
      if queued < 0 then 0 else StepsFor(queued, |Logs(s, pair)|) + InHand(s, pair)
  }

  function Less(a: nat, b: nat): nat {
    if a <= b then 0 else a - b
  }

  /** Each of its steps pays off one of those owed. */
  lemma WorkerStepPays(s: State, e: Event, pair: string, published: seq<Order>, n: nat)
    requires PairInv(s, pair, published) && pair in s.workers && n <= |published|
    requires IsWorkerStep(e, pair) && Enabled(s, e)
    ensures Owed(Apply(s, e), pair, |published|, n) == Less(Owed(s, pair, |published|, n), 1)
    ensures pair in Apply(s, e).workers
  {
  }

  function AlsoPublished(s: State, e: Event, pair: string, published: seq<Order>): seq<Order> {
    if Accepts(s, e, pair) then published + [e.order] else published
  }

  /** No other step changes what is owed: neither later publications, nor other pairs, nor Stop. */
  lemma OtherStepOwesTheSame(s: State, e: Event, pair: string, published: seq<Order>, n: nat)
    requires PairInv(s, pair, published) && pair in s.workers && n <= |published|
    requires !(IsWorkerStep(e, pair) && Enabled(s, e))
    ensures Owed(Apply(s, e), pair, |AlsoPublished(s, e, pair, published)|, n) == Owed(s, pair, |published|, n)
    ensures pair in Apply(s, e).workers
  {
  }

  lemma {:induction false} OwedAfter(es: seq<Event>, ks: seq<Event>, pair: string)
    requires pair in Run(es).workers
    ensures pair in Run(es + ks).workers && Published(es, pair) <= Published(es + ks, pair)
    ensures Owed(Run(es + ks), pair, |Published(es + ks, pair)|, |Published(es, pair)|) ==
      Less(Backlog(Run(es), pair), WorkerSteps(Run(es), ks, pair))
  {
    if ks == [] {
      assert es + ks == es;
      EveryRunConserves(es, pair);
    } else {
      var init, e := ks[..|ks| - 1], ks[|ks| - 1];
      OwedAfter(es, init, pair);
      RunOneMore(es, ks, pair);
      EveryRunConserves(es + init, pair);
      var s, published, n := Run(es + init), Published(es + init, pair), |Published(es, pair)|;
      if IsWorkerStep(e, pair) && Enabled(s, e) {
        WorkerStepPays(s, e, pair, published, n);
      } else {
        OtherStepOwesTheSame(s, e, pair, published, n);
      }
    }
  }

  lemma {:induction false} RunSplits(es: seq<Event>, ks: seq<Event>)
    ensures Run(es + ks) == RunFrom(Run(es), ks)
  {
    if ks == [] {
      assert es + ks == es;
    } else {
      RunSplits(es, ks[..|ks| - 1]);
      assert (es + ks)[..|es + ks| - 1] == es + ks[..|ks| - 1];
    }
  }

  lemma RunOneMore(es: seq<Event>, ks: seq<Event>, pair: string)
    requires ks != []
    ensures var init, e := ks[..|ks| - 1], ks[|ks| - 1];
      && Run(es + ks) == Apply(Run(es + init), e)
      && Published(es + ks, pair) == AlsoPublished(Run(es + init), e, pair, Published(es + init, pair))
      && RunFrom(Run(es), init) == Run(es + init)
  {
    var init := ks[..|ks| - 1];
    assert (es + ks)[..|es + ks| - 1] == es + init;
    RunSplits(es, init);
  }

  /** At most the step that ends a delivery is still owed exactly when everybody has the first n. */
  lemma NothingOwedIff(s: State, pair: string, published: seq<Order>, n: nat)
    requires PairInv(s, pair, published) && pair in s.workers && n <= |published|
    ensures Owed(s, pair, |published|, n) <= 1 <==>
      forall i: nat :: i < |Logs(s, pair)| ==> published[..n] <= Logs(s, pair)[i]
  {
    var logs, data := Logs(s, pair), s.feeds[pair].data;
    var queued := n - (|published| - |data|);
    forall i: nat | i < |logs|
      ensures published[..n] <= logs[i] <==> n <= |logs[i]|
      ensures |logs[i]| == |published| - |data| - |InFlight(s, pair, i)|
    {
      assert logs[i] + InFlight(s, pair, i) + data == published;
      assert logs[i] == published[..|logs[i]|];
    }
    assert published[..n] <= logs[|logs| - 1] <==> n <= |logs[|logs| - 1]|;
  }

  /** The orders accepted by the end of a run reach every subscriber in a continuation, whatever else
      happens in it, exactly when the worker of the pair takes all steps of its backlog there, the very
      last of which delivers nothing any more. */
  lemma AcceptedIsDelivered(es: seq<Event>, ks: seq<Event>, pair: string)
    requires pair in Run(es).workers
    ensures (forall i: nat :: i < |Logs(Run(es + ks), pair)| ==> Published(es, pair) <= Logs(Run(es + ks), pair)[i]) <==>
      WorkerSteps(Run(es), ks, pair) + 1 >= Backlog(Run(es), pair)
  {
    var n := |Published(es, pair)|;
    OwedAfter(es, ks, pair);
    EveryRunConserves(es + ks, pair);
    assert Published(es + ks, pair)[..n] == Published(es, pair);
    NothingOwedIff(Run(es + ks), pair, Published(es + ks, pair), n);
  }

  /** Such a continuation always exists while the worker runs: its own next steps are never blocked. */
  lemma WorkerCatchesUp(es: seq<Event>, pair: string) returns (ks: seq<Event>)
    requires pair in Run(es).workers && !HasExited(Run(es), pair)
    ensures forall i :: 0 <= i < |ks| ==> IsWorkerStep(ks[i], pair)
    ensures |ks| == WorkerSteps(Run(es), ks, pair) == Backlog(Run(es), pair)
    ensures forall i: nat :: i < |Logs(Run(es + ks), pair)| ==> Published(es, pair) <= Logs(Run(es + ks), pair)[i]
  {
    ks := [];
    assert es + [] == es;
    while Backlog(Run(es + ks), pair) > 0
      invariant pair in Run(es + ks).workers && !HasExited(Run(es + ks), pair)
      invariant forall i :: 0 <= i < |ks| ==> IsWorkerStep(ks[i], pair)
      invariant |ks| == WorkerSteps(Run(es), ks, pair)
      invariant |ks| + Backlog(Run(es + ks), pair) == Backlog(Run(es), pair)
      decreases Backlog(Run(es + ks), pair)
    {
      var e := WorkerEvent(Run(es + ks), pair);
      EveryRunConserves(es + ks, pair);
      WorkerProgresses(Run(es + ks), pair, Published(es + ks, pair));
      var longer := ks + [e];
      assert longer[..|longer| - 1] == ks;
      RunOneMore(es, longer, pair);
      ks := longer;
    }
    AcceptedIsDelivered(es, ks, pair);
  }

  predicate SameFor(s: State, t: State, pair: string) {
    && HasExited(t, pair) && Logs(t, pair) == Logs(s, pair)
    && pair in s.feeds && pair in t.feeds && t.feeds[pair].data == s.feeds[pair].data
  }

  lemma ExitedStays(es: seq<Event>, e: Event, pair: string)
    requires HasExited(Run(es), pair)
    ensures SameFor(Run(es), Apply(Run(es), e), pair)
  {
    EveryRunConserves(es, pair);
  }

  /** Once the worker has left, its subscribers receive nothing more, and nothing more is queued. */
  lemma {:induction false} NothingAfterExit(es: seq<Event>, ks: seq<Event>, pair: string)
    requires HasExited(Run(es), pair)
    ensures SameFor(Run(es), Run(es + ks), pair)
  {
    if ks == [] {
      assert es + ks == es;
      EveryRunConserves(es, pair);
    } else {
      var init := ks[..|ks| - 1];
      NothingAfterExit(es, init, pair);
      RunOneMore(es, ks, pair);
      ExitedStays(es + init, ks[|ks| - 1], pair);
    }
  }

  /** What the worker leaves in the queue when it closes the channel reaches nobody: the accepted orders are
      all delivered, then or ever, exactly when that queue is empty. */
  lemma QueueAtExitIsLost(es: seq<Event>, ks: seq<Event>, pair: string)
    requires HasExited(Run(es), pair)
    ensures pair in Run(es).feeds
    ensures forall i: nat :: i < |Logs(Run(es + ks), pair)| ==>
      Logs(Run(es + ks), pair)[i] + Run(es).feeds[pair].data == Published(es, pair)
    ensures (forall i: nat :: i < |Logs(Run(es + ks), pair)| ==> Logs(Run(es + ks), pair)[i] == Published(es, pair)) <==>
      Run(es).feeds[pair].data == []
  {
    EveryRunConserves(es, pair);
    NothingAfterExit(es, ks, pair);
    var s, t := Run(es), Run(es + ks);
    forall i: nat | i < |Logs(t, pair)|
      ensures Logs(t, pair)[i] + s.feeds[pair].data == Published(es, pair)
    {
      assert Logs(s, pair)[i] + InFlight(s, pair, i) + s.feeds[pair].data == Published(es, pair);
    }
    assert |Logs(t, pair)[0] + s.feeds[pair].data| == |Published(es, pair)|;
  }

  lemma OneMoreEvent(es: seq<Event>, e: Event, pair: string)
    ensures Run(es + [e]) == Apply(Run(es), e)
    ensures Published(es + [e], pair) == AlsoPublished(Run(es), e, pair, Published(es, pair))
  {
    assert (es + [e])[..|es|] == es;
  }

  /** A run on which it happens: the worker sees the cancellation before the order. */
  lemma StopLosesAnOrder(o: Order)
    ensures var es := [] + [Subscribe(o.pair)] + [Publish(o)] + [Start] + [Stop] + [Close(o.pair)];
      && HasExited(Run(es), o.pair) && o.pair in Run(es).feeds
      && Published(es, o.pair) == [o] && Run(es).feeds[o.pair].data == [o] && Logs(Run(es), o.pair) == [[]]
  {
    var a := [] + [Subscribe(o.pair)];
    var b := a + [Publish(o)];
    var c := b + [Start];
    OneMoreEvent([], Subscribe(o.pair), o.pair);
    OneMoreEvent(a, Publish(o), o.pair);
    OneMoreEvent(b, Start, o.pair);
    OneMoreEvent(c, Stop, o.pair);
    OneMoreEvent(c + [Stop], Close(o.pair), o.pair);
  }

  // --- Delivering one order -------------------------------------------------------------------------

  /** The logs once the first i subscribers have had the order. */
  function Extended(logs: seq<seq<Order>>, order: Order, i: nat): seq<seq<Order>> {
    seq(|logs|, k requires 0 <= k < |logs| => if k < i then logs[k] + [order] else logs[k])
  }

  function Deliveries(pair: string, n: nat): (es: seq<Event>)
    ensures |es| == n
  {
    if n == 0 then [] else Deliveries(pair, n - 1) + [Deliver(pair)]
  }

  predicate Begins(s: State, pair: string) {
    pair in s.workers && s.workers[pair].Delivering? && s.workers[pair].next == 0 && pair in s.subscriptions
  }

  function PartlyDelivered(s: State, pair: string, i: nat): State
    requires Begins(s, pair)
  {
    var order := s.workers[pair].order;
    s.(subscriptions := s.subscriptions[pair := Extended(s.subscriptions[pair], order, i)],
       workers := s.workers[pair := Delivering(order, i)])
  }

  lemma ReplaceTwice<K, V>(m: map<K, V>, k: K, v: V, w: V)
    ensures m[k := v][k := w] == m[k := w]
    ensures k in m ==> m[k := m[k]] == m
  {
  }

  lemma NoneDelivered(s: State, pair: string)
    requires Begins(s, pair)
    ensures PartlyDelivered(s, pair, 0) == s
  {
    assert Extended(s.subscriptions[pair], s.workers[pair].order, 0) == s.subscriptions[pair];
    assert Delivering(s.workers[pair].order, 0) == s.workers[pair];
    ReplaceTwice(s.subscriptions, pair, s.subscriptions[pair], s.subscriptions[pair]);
    ReplaceTwice(s.workers, pair, s.workers[pair], s.workers[pair]);
  }

  lemma OneMoreExtended(logs: seq<seq<Order>>, order: Order, i: nat)
    requires i < |logs|
    ensures var now := Extended(logs, order, i); now[i := now[i] + [order]] == Extended(logs, order, i + 1)
  {
  }

  lemma OneDelivery(s: State, pair: string, i: nat)
    requires Begins(s, pair) && i < |s.subscriptions[pair]|
    ensures Apply(PartlyDelivered(s, pair, i), Deliver(pair)) == PartlyDelivered(s, pair, i + 1)
  {
    var order, logs := s.workers[pair].order, s.subscriptions[pair];
    OneMoreExtended(logs, order, i);
    ReplaceTwice(s.subscriptions, pair, Extended(logs, order, i), Extended(logs, order, i + 1));
    ReplaceTwice(s.workers, pair, Delivering(order, i), Delivering(order, i + 1));
  }

  lemma {:induction false} FirstDeliveries(s: State, pair: string, i: nat)
    requires Begins(s, pair) && i <= |s.subscriptions[pair]|
    ensures RunFrom(s, Deliveries(pair, i)) == PartlyDelivered(s, pair, i)
  {
    if i == 0 {
      NoneDelivered(s, pair);
    } else {
      FirstDeliveries(s, pair, i - 1);
      OneDelivery(s, pair, i - 1);
      var es := Deliveries(pair, i);
      assert es[..|es| - 1] == Deliveries(pair, i - 1) && es[|es| - 1] == Deliver(pair);
      assert RunFrom(s, es) == Apply(RunFrom(s, Deliveries(pair, i - 1)), Deliver(pair));
    }
  }

  lemma AllDelivered(s: State, pair: string)
    requires Begins(s, pair)
    ensures var n := |s.subscriptions[pair]|;
      RunFrom(s, Deliveries(pair, n) + [Finish(pair)]) ==
        PartlyDelivered(s, pair, n).(workers := s.workers[pair := Waiting])
  {
    var n := |s.subscriptions[pair]|;
    FirstDeliveries(s, pair, n);
    assert (Deliveries(pair, n) + [Finish(pair)])[..n] == Deliveries(pair, n);
    ReplaceTwice(s.workers, pair, Delivering(s.workers[pair].order, n), Waiting);
  }

  // --- The feed object -----------------------------------------------------------------------------

  class OrderFeedSubscription {
    var orderFeeds: map<string, Channel>
    var subscriptionsByFeedKey: map<string, seq<seq<Order>>>
    var workers: map<string, Worker>
    var started: bool
    var cancelled: bool

    ghost function View(): State
      reads this
    {
      State(orderFeeds, subscriptionsByFeedKey, workers, started, cancelled)
    }

    constructor ()
      ensures View() == INIT
    {
      orderFeeds, subscriptionsByFeedKey, workers := map[], map[], map[];
      started, cancelled := false, false;
    }

    method SubscribeTo(pair: string)
      requires Enabled(View(), Subscribe(pair))
      modifies this
      ensures View() == Apply(old(View()), Subscribe(pair))
    {
      if pair !in orderFeeds {
        orderFeeds := orderFeeds[pair := Channel([], 0)];
      }
      if pair !in subscriptionsByFeedKey {
        subscriptionsByFeedKey := subscriptionsByFeedKey[pair := []];
      }
      subscriptionsByFeedKey := subscriptionsByFeedKey[pair := subscriptionsByFeedKey[pair] + [[]]];
    }

    /** Called when the send can proceed; until then the publisher waits. */
    method PublishOrder(order: Order)
      requires Enabled(View(), Publish(order))
      modifies this
      ensures View() == Apply(old(View()), Publish(order))
    {
      if order.pair in orderFeeds {
        var ch := orderFeeds[order.pair];
        orderFeeds := orderFeeds[order.pair := ch.(data := ch.data + [order])];
      }
    }

    method StartWorkers()
      requires Enabled(View(), Start)
      modifies this
      ensures View() == Apply(old(View()), Start)
    {
      var todo: set<string> := orderFeeds.Keys;
      workers := map[];
      while todo != {}
        invariant todo <= orderFeeds.Keys
        invariant workers == map p | p in orderFeeds && p !in todo :: Waiting
        invariant View() == old(View()).(workers := workers)
        decreases todo
      {
        var pair := Pick(todo);
        workers, todo := workers[pair := Waiting], todo - {pair};
      }
      started := true;
    }

    method StopWorkers()
      modifies this
      ensures View() == Apply(old(View()), Stop)
    {
      cancelled := true;
    }

    /** One turn of the worker's select on an idle feed: leave when cancelled, or take the next order. */
    method SelectOnce(pair: string, seesCancel: bool)
      requires Enabled(View(), if seesCancel then Close(pair) else Receive(pair))
      modifies this
      ensures View() == Apply(old(View()), if seesCancel then Close(pair) else Receive(pair))
    {
      var ch := orderFeeds[pair];
      if seesCancel {
        orderFeeds := orderFeeds[pair := ch.(closes := ch.closes + 1)];
        workers := workers[pair := Exited];
      } else {
        orderFeeds := orderFeeds[pair := ch.(data := ch.data[1..])];
        workers := workers[pair := Delivering(ch.data[0], 0)];
      }
    }

    /** The loop over the subscribers, one step per consumer called. */
    method DeliverToSubscribers(pair: string)
      requires pair in workers && workers[pair].Delivering? && workers[pair].next == 0
      requires pair in subscriptionsByFeedKey
      modifies this
      ensures View() == RunFrom(old(View()), Deliveries(pair, |Logs(old(View()), pair)|) + [Finish(pair)])
      ensures |Logs(View(), pair)| == |Logs(old(View()), pair)|
      ensures forall i :: 0 <= i < |Logs(View(), pair)| ==>
        Logs(View(), pair)[i] == Logs(old(View()), pair)[i] + [old(workers[pair].order)]
    {
      ghost var before := View();
      var order, n := workers[pair].order, |subscriptionsByFeedKey[pair]|;
      ghost var logs := before.subscriptions[pair];
      NoneDelivered(before, pair);
      for i := 0 to n
        invariant View() == PartlyDelivered(before, pair, i)
      {
        var subs := subscriptionsByFeedKey[pair];
        OneMoreExtended(logs, order, i);
        ReplaceTwice(before.subscriptions, pair, subs, Extended(logs, order, i + 1));
        ReplaceTwice(before.workers, pair, Delivering(order, i), Delivering(order, i + 1));
        subscriptionsByFeedKey := subscriptionsByFeedKey[pair := subs[i := subs[i] + [order]]];
        workers := workers[pair := Delivering(order, i + 1)];
      }
      ReplaceTwice(before.workers, pair, Delivering(order, n), Waiting);
      workers := workers[pair := Waiting];
      AllDelivered(before, pair);
    }
  }
}
