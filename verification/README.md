# Raccoon: a verified model

Raccoon is a trading bot written in Go. It folds one-second exchange candles into bars, feeds them to
strategies, routes the strategies' orders to brokers and observers, and draws all of it in the browser.
This project models the parts whose behaviour is decided by the code rather than by the network, and
proves what they promise, over every input, every run and every interleaving.

Times are integer seconds, Korean time is a fixed offset of nine hours, prices and amounts are exact
reals, a float that may be NaN is an option type (`Model.Num`), and walking a Go map is an arbitrary choice
(`Model.Pick`). Goroutines are atomic steps of a transition system in which a step that is not enabled
waits. A class keeps the fields of a Go struct that its methods update; its methods are tied to functions
on the struct's value, and the theorems are about those functions.

| module | models | main results |
|---|---|---|
| `CandleAggregator`, `CandleStream` | `exchange/upbit.go`: `push1sCandle` and what it calls | incremental bars equal batch bars; volume is conserved; synchrony, and how fast it is regained |
| `Tools` | `utils/tools/tool.go`: truncation, timeframes | truncation is the floor onto one grid; which timeframes share a grid; the preload decision |
| `TickPrice` | `exchange/upbit.go`: tick sizes, fees | the largest valid price not above; idempotent; monotone; a buy fits its budget |
| `Pagination` | `exchange/upbit.go`: `CandlesByPeriod` | terminates, and returns exactly the window |
| `OrderFeed` | `feed/order_feed.go` | nothing lost, duplicated or reordered in any interleaving; which continuations deliver all accepted orders, and what a worker leaves behind |
| `WebServer`, `EventOrder`, `Overflow` | `webserver/webserver.go` | late joiners converge; in every run, the order in which events arrive and exactly which candles a full channel costs a chart |
| `Backtest`, `ImprovedPsh`, `PshRules`, `Undrained` | `programs/backtesting/backtest.go` and the strategy it runs | worth and cost basis; for each trend, exactly which orders the columns call for; a drained backtest rejects no order; exactly which backlogs an undrained one can reject |
| `Validate` | `programs/backtesting/validate.go` | one signal a date; exactly which signals are traded; the all-in ledger as a product of sale ratios |
| `MovingAverage`, `Oscillator`, `SuperTrend`, `MonthlyTrend` | `indicator/` | recurrence and closed form of the EMA; MACD warm-up and bias; RSI by telescoping; the automaton behind SuperTrend, its misreads and how long they last; what a month's trend compares |
| `Scan` | `utils/collection/scan.go` | counting is multiset equality; exactly the comparisons for which greed never misses a matching |
| `StrategyController` | `strategy/controller.go`, `model/series.go` | the dataframe holds exactly the timely candles; when no final bar is ever late |
| `Trailing` | `utils/tools/trailing.go` | the gap is spent by drops alone |

## Where the code departs from its comments or from expectation

- `aggregateBuffer` is commented as the interval closed on the left, and coded as open: a bucket's first
  second is cleared from the buffer without having been counted in any final bar. The final bar is the
  promised one exactly when that second is missing or leaves no trace, and never when it has any volume
  (`CandleStream.FinalIsPromisedIff`).
- Weekly, monthly and yearly buckets lie on no common grid: they start at the midnight before the
  subscription, or a whole duration earlier if it is made exactly at midnight (`Tools.KeysShareOneGridIff`).
- A window without losses reads RSI 100 even when nothing moved (`Oscillator.RsiFormula`).
- With a signal window below the wider of the other two, as is usual, the MACD signal starts from zero instead of a mean.
  On any line it differs from the average seeded with v by v (1 - k)^m after m values
  (`MovingAverage.SignalStartsFromZero`, `MovingAverage.ZeroSeedBias`).
- SuperTrend tells its state by comparing the line with the upper band, which misreads an up state where
  the bands meet. The misread then lasts until a close lies on one side of both bands, and not above bands that
  meet; where the bands have crossed, as a gap or a zero range at the first bar can make them, a close strictly
  between them turns it into a down read as an up, which a close on meeting bands ends too
  (`SuperTrend.DecodingIsExactIff`, `SuperTrend.MisreadLastsIff`, `SuperTrend.MisreadsAreUpsIff`,
  `SuperTrend.CrossedBandsFlipTheMisread`).
- The greedy match misses no matching exactly for the comparisons under which elements with one partner in
  common have all partners in common; closeness up to a tolerance is not one (`Scan.GreedIsEnoughIff`,
  `Scan.ToleranceDefeatsGreed`).
- A candle unlike all before it, and the last of its timestamp, is lost to a browser that had its snapshot
  exactly when the browser's channel was full at the broadcast; while the snapshot is still to come, only if an older candle
  of the timestamp waits in the channel as well (`Overflow.OverflowLosesCandleIff`,
  `Overflow.PendingSnapshotLosesCandleIff`; runs on which it happens: `Overflow.OverflowLosesACandle`,
  `Overflow.PendingSnapshotLosesACandle`).
- If the order queue is not drained between candles, orders sized by the same balance pile up. They are safe
  at all prices exactly when the buys together fit the money and the sells the coins; for normal orders of
  one side this means their number times the trade fraction is at most one, and a strong order leaves no
  room for another (`Undrained.UndrainedIsSafeIff`, `Undrained.NormalOrdersRejectedIff`,
  `Undrained.StrongOrderRejectsLater`).
- Orders accepted but still queued when `Stop` makes the pair's worker leave reach nobody
  (`OrderFeed.QueueAtExitIsLost`, `OrderFeed.StopLosesAnOrder`).
- The dataframe is preloaded by the exchange's own bars, the aggregator cuts its buckets from midnight. Where the
  last preloaded bar starts after the last grid point before the subscription, as a daily bar that started at
  nine does for a subscription at ten, the first final bar, if traded, is dropped as late
  (`StrategyController.SetUpDropsNoBarIff`, `StrategyController.NineOClockBarIsTooYoung`).

## Model

| member | source | states |
|---|---|---|
| CandleAggregator.SortedSecondsMakeTheBar | exchange/upbit.go:796-842 | However the buffer's map is walked, sorting the collected seconds of an interval and merging them gives the bar defined second by second on the map: iteration order is irrelevant |
| CandleAggregator.Aggregator.constructor | exchange/upbit.go:501-508 | A new aggregator has an empty buffer and no boundary yet |
| CandleAggregator.Aggregator.InitCurrentKey | exchange/upbit.go:539-545 | The boundary is the truncated instant, or one duration on when that lies in the past |
| CandleAggregator.Aggregator.CollectSeconds | exchange/upbit.go:800-804 | The list holds every buffered second of the interval once, and nothing else |
| CandleAggregator.BarIsOhlcv | exchange/upbit.go:874-903 | A batch bar has the open of the earliest second, the close of the latest, the highest high, the lowest low and the total volume |
| CandleAggregator.PartialIsOhlcv | exchange/upbit.go:806-841 | A partial bar has these of the seconds before its own from the bucket's start on, is stamped with its own second and not complete, and is zero when there are none |
| CandleAggregator.FinalIsOhlcv | exchange/upbit.go:868-903 | A final bar has them of the seconds strictly inside the bucket, is stamped with the start, and is zero when there are none |
| CandleAggregator.ZerosMeanNothing | exchange/upbit.go:806-812 | Where highs are positive, zeros are reported exactly when there is no second |
| CandleAggregator.Aggregator.BuildPartialCandle | exchange/upbit.go:796-842 | The partial bar merges the buffered seconds from the bucket's start, included, to the candle's second, excluded; open, close, high, low and volume are those of the earliest, latest, highest, lowest and all of them; empty when there are none |
| CandleAggregator.Aggregator.AggregateBuffer | exchange/upbit.go:858-904 | The final bar merges the buffered seconds strictly inside the bucket, stamped with its start |
| CandleAggregator.Aggregator.RemoveOldSeconds | exchange/upbit.go:845-855 | Exactly the seconds of the bucket, its start included, leave the buffer |
| CandleAggregator.Aggregator.Push1sCandle | exchange/upbit.go:751-793 | One push: same-second overwrite, first boundary, partial bar, final bar and move to the next bucket once the boundary is reached, and the one-second pass-through |
| CandleStream.BucketStarts | exchange/upbit.go:789-789 | The k-th bucket closed starts k durations after the first: buckets are consecutive and none is closed twice |
| CandleStream.RunBucket | exchange/upbit.go:778-790 | After any stream the open bucket is the one following those closed |
| CandleStream.BufferIsLastWrite | exchange/upbit.go:759-787 | From the open bucket on, the buffer is the last write of every second of the whole stream, in any order of arrival |
| CandleStream.PartialsAreBatchBars | exchange/upbit.go:772-774 | Every partial bar is the batch bar of everything written so far over the open bucket up to the candle's second, for any stream |
| CandleStream.PartialsReportTheOpenBucket | exchange/upbit.go:772-774 | Every partial bar, for any stream: stamped with the candle's time, not complete, with the open of the earliest last-written second of the open bucket before that time, the close of the latest, the highest high, the lowest low and the total volume; zeros when there is none |
| CandleStream.EmittedBucketsArePast | exchange/upbit.go:778-778 | A bucket is closed only once the stream has reached its end |
| CandleStream.ClosedBucketStands | exchange/upbit.go:776-790 | No later push of a non-decreasing stream changes the bar of a closed bucket |
| CandleStream.FinalsAreBatchBars | exchange/upbit.go:751-793 | The k-th final bar of a non-decreasing stream is the batch bar, last write of a second winning, of the seconds strictly inside the k-th bucket over the whole stream, whatever the gaps |
| CandleStream.FinalsReportTheirBuckets | exchange/upbit.go:780-783 | Open, close, high, low and volume of the k-th final bar are those of the earliest, latest, highest, lowest and all of the last-written seconds strictly inside the k-th bucket; it is complete and stamped with the bucket's start |
| CandleStream.FirstPushSetsBoundary | exchange/upbit.go:761-766 | Without a boundary set beforehand the first candle's bucket on the Korean-midnight grid becomes the open one, and holds that candle alone |
| CandleStream.FinalVolume | exchange/upbit.go:862-867 | A final bar carries its bucket's volume less the first second's, so all of it exactly when the first second is missing or empty |
| CandleStream.BarFromFirst | exchange/upbit.go:874-903 | A bar is its first second followed by the bar of the others, or just the latter when the first second is missing |
| CandleStream.FinalIsPromisedIff | exchange/upbit.go:857-867 | The whole final bar is the one the comment promises, first second included, exactly when that second is missing or leaves no trace in it; never when it has volume |
| CandleStream.FinalMissesFirstSecond | exchange/upbit.go:857-867 | A bucket whose only second is its first comes out empty, although the comment promises that second |
| CandleStream.PartialMinusFinal | exchange/upbit.go:772-782 | On the push at the boundary, partial and final volumes differ by exactly the volume of the bucket's first second |
| CandleStream.RunKeepsTracked | exchange/upbit.go:785-790 | Nothing is buffered before the open bucket or after the last candle, and the stream wrote nothing outside these bounds |
| CandleStream.VolumeConserved | exchange/upbit.go:772-789 | The last-written volume of the whole stream is the volume of the finals, plus that of the first seconds of closed buckets, plus what is still buffered |
| CandleStream.SmallStepsKeepSync | exchange/upbit.go:759-790 | While no step exceeds the duration, the last candle and everything buffered lie in the open bucket, and at most one duration of seconds is buffered |
| CandleStream.SyncedClosedAllPastBuckets | exchange/upbit.go:778-790 | In synchrony exactly the buckets that are over have been closed |
| CandleStream.CatchesUp | exchange/upbit.go:778-790 | After a gap of any length, with later steps of at most s seconds, synchrony is back once the number of pushes times d - s exceeds the lag |
| CandleStream.CatchUpBoundIsTight | exchange/upbit.go:778-790 | With constant steps synchrony is back exactly then, not earlier |
| Tools.EndpointIffDuration | utils/tools/tool.go:9-73 | The timeframes with an endpoint to fetch from are exactly those with a duration |
| Tools.NamesSayDurations | utils/tools/tool.go:42-73 | Every name stands for its number of its units, but for one second, which stands for no aggregation |
| Tools.EndpointsSayDurations | utils/tools/tool.go:9-73 | The bars fetched are as long as the bars cut: an endpoint of n minutes belongs to a duration of n minutes, and likewise days, weeks, months and years |
| Tools.MidnightIsNineHoursAhead | utils/tools/tool.go:82-88 | Midnight is at most a day before the instant, nine hours ahead of a boundary of days |
| Tools.SupportedShape | utils/tools/tool.go:42-73 | A supported duration is zero, divides a day, or is a whole number of days |
| Tools.TruncateIsGridFloor | utils/tools/tool.go:76-100 | For a duration dividing a day, truncation is the greatest point of one global grid not after the instant |
| Tools.TruncateWholeDays | utils/tools/tool.go:91-97 | For longer durations only the time of day is dropped |
| Tools.NextKeyWholeDays | exchange/upbit.go:539-545 | For longer durations the initial boundary is one duration after the last midnight, or the instant itself at midnight |
| Tools.TruncateIdempotentMonotone | utils/tools/tool.go:76-100 | Truncation is idempotent and monotone for every supported duration |
| Tools.NextKeyIsLeastGridPoint | exchange/upbit.go:539-545 | The initial boundary is the least grid point not before the instant |
| Tools.KeysShareOneGridIff | exchange/upbit.go:539-545 | Boundaries computed at different instants lie on one grid exactly for the durations dividing a day |
| Tools.PreloadExactly | exchange/upbit.go:511-519 | The preload branch is taken exactly for the positive durations, and its nested test then always holds |
| TickPrice.ValidPriceIsTickFloor | exchange/upbit.go:1128-1168 | For every non-negative price, in all fourteen tiers and for special pairs or not, the result is the largest multiple of the tier's unit not above the price, and in the same tier |
| TickPrice.ValidPriceByTheTable | exchange/upbit.go:1110-1168 | Against the documented table of tiers: the price is cut to a multiple of its tier's unit, by less than the unit |
| TickPrice.TierExists | exchange/upbit.go:1110-1127 | Every non-negative price is in a tier of the table |
| TickPrice.SpecialByBase | exchange/upbit.go:1172-1198 | A pair of two parts is special exactly when the second is one of the sixteen coins, and never without a dash |
| TickPrice.SplitAtDashInverts | exchange/upbit.go:1173-1177 | Splitting a pair at its dashes loses nothing: the parts hold no dash and joined again are the pair |
| TickPrice.ValidPriceIdempotent | exchange/upbit.go:1128-1168 | A valid price is left alone |
| TickPrice.ValidPriceMonotone | exchange/upbit.go:1128-1168 | A higher price never rounds lower, across tier borders too |
| TickPrice.NegativePriceCutTowardsZero | exchange/upbit.go:1162-1167 | A negative price is cut towards zero, by less than the finest unit |
| TickPrice.MarketBuyFitsBudget | exchange/upbit.go:239-245 | The amount sent, its fee included, stays within the quantity, and one more tick would not |
| Pagination.InWindowExactly | exchange/upbit.go:474-480 | The window of a history is ascending and holds a candle exactly when the history does and start <= time < end |
| Pagination.NextPage | exchange/upbit.go:424-466 | A page extends what was fetched by the candles just before it, and its last candle is the next bound |
| Pagination.SortedArrangement | exchange/upbit.go:470-472 | Sorting by time restores the history's order from any arrangement of it |
| Pagination.FetchPages | exchange/upbit.go:423-468 | The loop ends, having fetched each candle from some point before start up to end once, unless a request fails |
| Pagination.KeepInside | exchange/upbit.go:474-480 | The last loop keeps the candles at start, at end or in between, for any list |
| Pagination.FilterIsWindowIff | exchange/upbit.go:474-480 | That filter is the half-open window exactly when no candle is at end, nor at start when the period is empty, which pages strictly older than end never hold |
| Pagination.CandlesByPeriod | exchange/upbit.go:414-482 | The answer is exactly the window of the history in order, within one request more than there are pages; an error only for an unsupported period or a failing request |
| OrderFeed.EveryRunConserves | feed/order_feed.go:42-121 | In every reachable state, for every pair and subscriber: accepted publications = orders received, then at most one in flight, then the queue; the queue holds at most 100 |
| OrderFeed.SubscribersAgree | feed/order_feed.go:77-121 | Each subscriber has seen a prefix of the publications; later subscribers never more than earlier ones and at most one order less; the queue holds the end of the publications |
| OrderFeed.PairsAreSeparate | feed/order_feed.go:81-102 | No other pair's order is seen, queues are bounded, and a queue is closed at most once and only after Stop |
| OrderFeed.WorkerProgresses | feed/order_feed.go:83-101 | While there is a backlog the worker's next step is enabled and shortens it by one |
| OrderFeed.AcceptedIsDelivered | feed/order_feed.go:83-121 | In any continuation, other events interleaved at will, every order accepted so far reaches every subscriber exactly when the pair's worker takes all but the last step of its backlog there |
| OrderFeed.WorkerCatchesUp | feed/order_feed.go:83-121 | Such a continuation exists while the worker runs: its own next steps |
| OrderFeed.NothingAfterExit | feed/order_feed.go:85-88 | Once the worker has left, nothing more is received or queued, whatever happens |
| OrderFeed.QueueAtExitIsLost | feed/order_feed.go:85-88 | What is queued when the worker leaves reaches nobody: all accepted orders are delivered, then or ever, exactly when that queue is empty |
| OrderFeed.StopLosesAnOrder | feed/order_feed.go:84-93 | A run that loses an accepted order: the worker sees the cancellation before it |
| OrderFeed.OrderFeedSubscription.constructor | feed/order_feed.go:32-40 | A new feed has no pairs |
| OrderFeed.OrderFeedSubscription.SubscribeTo | feed/order_feed.go:42-60 | The pair's channel is made once, and a subscriber is added behind the others |
| OrderFeed.OrderFeedSubscription.PublishOrder | feed/order_feed.go:62-75 | The order joins the queue of its own pair, or is dropped when nobody subscribed to it |
| OrderFeed.OrderFeedSubscription.StartWorkers | feed/order_feed.go:77-104 | One worker per pair, in whatever order the map is walked |
| OrderFeed.OrderFeedSubscription.StopWorkers | feed/order_feed.go:123-125 | Cancellation is seen by the workers and changes nothing else |
| OrderFeed.OrderFeedSubscription.SelectOnce | feed/order_feed.go:84-93 | A waiting worker takes the oldest order, or closes its channel and leaves |
| OrderFeed.OrderFeedSubscription.DeliverToSubscribers | feed/order_feed.go:106-121 | Every subscriber of the pair gets the order once, in turn, each call one step of the transition system |
| WebServer.StoreIsUpsert | webserver/webserver.go:74-79 | Overwriting the last stored candle loses nothing a chart shows |
| WebServer.StoresAreRight | webserver/webserver.go:63-111 | In every run the stored candles show the latest value of every timestamp, and the stored events are all events |
| WebServer.ClientsStayInStep | webserver/webserver.go:113-200 | In every run, for every client whenever it connects: once what is on its way has arrived, its chart is right at every timestamp that is not stale, and no event is missing or comes more than twice |
| WebServer.ChartsConverge | webserver/webserver.go:143-200 | A quiet client shows the latest stored candle at every timestamp whose last broadcast was not dropped for it |
| WebServer.LateJoinerConverges | webserver/webserver.go:143-200 | Without overflow a client that connects at any point of any interleaving ends with the chart of one present from the start, and with every event at least once and at most twice |
| EventOrder.StoresKeepOrder | webserver/webserver.go:85-111 | Indicators and orders are kept in the order they were given |
| EventOrder.CandlesAreNotRepeated | webserver/webserver.go:73-80 | The stored candles never have one timestamp twice in a row |
| EventOrder.EventsArriveInOrder | webserver/webserver.go:143-200 | In every run, what a client past its snapshot has received and has in its channel is, in this order, the indicators and the orders stored at the snapshot and the event broadcasts its channel had room for since it registered |
| EventOrder.DisconnectForgetsOne | webserver/webserver.go:149-155 | Disconnecting removes that client and touches nothing else |
| EventOrder.ChannelsAreBounded | webserver/webserver.go:125-143 | A channel never holds more than fifty messages |
| Overflow.StepKeepsProspect | webserver/webserver.go:143-200 | Registering, snapshot and draining do not change what a client will finally show at a timestamp |
| Overflow.ChartAfterBroadcast | webserver/webserver.go:63-200 | In every run around the last candle of a timestamp, a connected client that comes to rest shows it if the broadcast found room, else what it would have shown without the broadcast |
| Overflow.OverflowLosesCandleIff | webserver/webserver.go:125-130 | With the snapshot behind it, a client ends up showing a new candle exactly when its channel had room at the broadcast |
| Overflow.PendingSnapshotLosesCandleIff | webserver/webserver.go:143-200 | With the snapshot still to come, exactly when there was room or no older candle of the timestamp waits in the channel |
| Overflow.LateClientLosesNothing | webserver/webserver.go:143-200 | A client that registers after the store always ends up showing the candle |
| Overflow.OverflowLosesACandle | webserver/webserver.go:125-130 | A run in which fifty undrained events fill a client's channel and the next candle is lost to it |
| Overflow.PendingSnapshotLosesACandle | webserver/webserver.go:143-200 | A run in which the snapshot brings the newer candle and the older one, waiting in the full channel, ends up over it |
| Overflow.RunOnlyStored | webserver/webserver.go:63-200 | Charts, channels and the store never hold a candle that was not stored |
| WebServer.Server.BroadcastSSE | webserver/webserver.go:113-131 | Every client is offered the message, in any order; a full channel drops it |
| WebServer.Server.OnCandle | webserver/webserver.go:63-83 | Stores first, overwriting the last candle of the same timestamp, then broadcasts |
| WebServer.Server.constructor | webserver/webserver.go:54-61 | A new server has stored nothing and has no clients |
| WebServer.Server.OnIndicators | webserver/webserver.go:85-96 | Stores first, then broadcasts |
| WebServer.Server.OnOrder | webserver/webserver.go:98-111 | Stores first, then broadcasts |
| WebServer.Server.RegisterClient | webserver/webserver.go:143-146 | A new client with an empty channel |
| WebServer.Server.SendSnapshot | webserver/webserver.go:157-187 | The client is sent everything stored, its chart upserting each candle |
| WebServer.Server.DrainClient | webserver/webserver.go:189-200 | The oldest message of the channel reaches the browser, which upserts candles by timestamp |
| WebServer.Server.DisconnectClient | webserver/webserver.go:149-155 | The client is gone, the others are untouched |
| Backtest.BacktestBroker.constructor | exchange/backtest.go:12-19 | A new account holds the initial money and nothing else |
| Backtest.BacktestBroker.ProcessOrder | programs/backtesting/backtest.go:17-42 | A buy is executed if the money suffices, a sell if the coins do, otherwise the account is unchanged; for every order and price that divides by nothing zero |
| Backtest.ExecutionConservesWorth | programs/backtesting/backtest.go:17-42 | No order changes money plus coins at the current price |
| Backtest.CostBasisMoves | programs/backtesting/backtest.go:20-36 | Money plus coins at average cost changes only by a sale's quantity times its distance from the average cost |
| Backtest.CostBasisIdentity | programs/backtesting/backtest.go:71-80 | In every interleaving of candles, publications and executions the account stays solvent, and money plus coins at average cost is the initial money plus what the sales realised |
| Backtest.AverageWithinPricesPaid | programs/backtesting/backtest.go:22-26 | Once something was bought the average cost lies within any bounds of the prices paid; before, nothing is held |
| Backtest.ApplyIsSound | programs/backtesting/backtest.go:71-80 | Every event keeps the account non-negative and the queued orders executable |
| ImprovedPsh.OnCandle | strategy/2025_01_27_PSH_Improved.go:184-329 | The orders published: none below the warm-up, without an indicator or without a position; a risk exit alone; else the sell and then the buy the flags call for |
| ImprovedPsh.SetFlags | strategy/2025_01_27_PSH_Improved.go:237-298 | The branches set exactly the four flags given as formulas of the last rows, comparisons with NaN being false |
| PshRules.BullishOrders | strategy/2025_01_27_PSH_Improved.go:246-265 | In a bullish row without a risk exit: all the money is spent exactly on rising OBV with 5000 at hand; else a part of it exactly on golden and MACD crossings with RSI below 70, ADX from 25, a rising bar and rising volume; a part of the coins is sold exactly on a death crossing, a MACD crossing down, RSI above 70, or three falling highs on a falling bar with RSI above 40; no other order |
| PshRules.BearishOrders | strategy/2025_01_27_PSH_Improved.go:267-283 | In a bearish row: all coins are sold exactly on Williams above -20 or StochRSI above 80; else a part exactly on both crossings down with RSI above 70; a part of the money is spent exactly with RSI below 30 on a golden crossing at the lower band or three rising lows on a rising bar; no other order |
| PshRules.SidewaysOrders | strategy/2025_01_27_PSH_Improved.go:285-298 | In a sideways row: RSI below 30 in the lower half of the band buys, everything exactly with Williams below -80 and StochRSI below 20; RSI above 70 in the upper half sells, everything exactly with Williams above -20 and StochRSI above 80; no other order |
| PshRules.ExitOrders | strategy/2025_01_27_PSH_Improved.go:222-235 | Coins at a close of at most 0.92 or at least 1.4 times the average price: a part of them is sold and nothing else happens |
| PshRules.NoOrders | strategy/2025_01_27_PSH_Improved.go:184-218 | Nothing is published before eighty rows, without one of the series or without a position |
| ImprovedPsh.ContradictionsAreOfMixedStrength | strategy/2025_01_27_PSH_Improved.go:245-298 | Signals of equal strength never contradict; a candle can both sell and buy only with a strong buy in a bullish or a strong sell in a bearish trend |
| ImprovedPsh.OrdersAreAffordable | strategy/2025_01_27_PSH_Improved.go:220-235 | At most one sell and after it at most one buy, each positive and within the position; a risk exit comes alone |
| ImprovedPsh.BodyRejectsNothing | programs/backtesting/backtest.go:71-80 | However publications and executions interleave while a candle is handled, from an empty queue nothing sized by the position at the candle is rejected |
| ImprovedPsh.DrainedBacktestRejectsNothing | programs/backtesting/backtest.go:77-80 | Over a whole backtest whose queue is drained between candles, with a trade fraction in (0, 1], no order of the strategy is rejected |
| Undrained.QueueIsSafeIff | programs/backtesting/backtest.go:17-42 | A queue of any orders is executed without a rejection at all prices exactly when its buys together fit the money and its sells together the coins |
| Undrained.UndrainedIsSafeIff | programs/backtesting/backtest.go:71-80 | After candles on which the strategy published and nothing was executed, the run can go on in any way without a rejection exactly when what it published fits the position in this sense |
| Undrained.ExecutedInOrder | programs/backtesting/backtest.go:17-42 | Queued orders of one side are dealt with in order, each taking its need if it still finds it, whatever the prices |
| Undrained.RejectionIsDecidedByOrder | programs/backtesting/backtest.go:21-40 | After a backlog of one side, the k-th execution is a rejection exactly when the orders before it left less than it needs |
| Undrained.OneSideRejectedIff | programs/backtesting/backtest.go:71-80 | The whole run rejects nothing exactly when the backlog's total fits |
| Undrained.NormalOrdersRejectedIff | strategy/2025_01_27_PSH_Improved.go:305-328 | Normal orders of one side, published on one position and executed at any prices: nothing is rejected exactly when their number times the trade fraction is at most one |
| Undrained.MultipleIsProduct | strategy/2025_01_27_PSH_Improved.go:307-322 | The multiple in that statement is the product |
| Undrained.StrongOrderRejectsLater | strategy/2025_01_27_PSH_Improved.go:300-319 | A strong order behind others of its side is rejected; as the first one it makes every later one a rejection |
| Undrained.ExtremeOrders | strategy/2025_01_27_PSH_Improved.go:285-328 | Samples on which the strategy publishes exactly one normal or one strong order of the side |
| Undrained.RunOfNormalOrders | programs/backtesting/backtest.go:77-80 | A run on n such candles, its orders the strategy's own, rejects nothing exactly when n times the fraction is at most one |
| Undrained.RunOfStrongOrders | programs/backtesting/backtest.go:77-80 | A run on candles that each call for a strong order rejects all but the first, whatever the fraction |
| Validate.MergeSignals | programs/backtesting/validate.go:382-404 | A date's signal is its first sell, and without a sell its first buy |
| Validate.SignalIsOfTheFirst | programs/backtesting/validate.go:382-404 | A date has a signal exactly when a candle of it decides; it is a sell exactly when one decides to sell, and carries close and trend of the first that decides for its side |
| Validate.GenerateSignals | programs/backtesting/validate.go:542-555 | Exactly one signal for each date that calls for one, dates strictly ascending, whatever the map order |
| Validate.SellWins | programs/backtesting/validate.go:382-404 | A candle that calls for both sides leaves a sell on its date |
| Validate.IndexByDate | programs/backtesting/validate.go:573-577 | The last candle of a date is the one looked up |
| Validate.ByDateIsTheLast | programs/backtesting/validate.go:573-577 | A date is looked up exactly when it has a candle, and finds the last one |
| Validate.Backtest | programs/backtesting/validate.go:561-700 | The loop and the final sale compute the all-in machine's balance and trades |
| Validate.SignalIsTradedIff | programs/backtesting/validate.go:581-649 | One more signal adds a purchase exactly when it is a buy on a date whose close the balance reaches, a sale exactly when it is a sell above the price paid for what is held; each with that candle's date and close, the amounts and the return; else nothing changes |
| Validate.FinalSaleIff | programs/backtesting/validate.go:652-678 | A final sale is added exactly when something is held and the last close is above the price paid |
| Validate.HoldsWhatWasBought | programs/backtesting/validate.go:588-592 | Something is held exactly when the last trade is a purchase, at its price and date |
| Validate.RoundTrip | programs/backtesting/validate.go:581-623 | A buy at 10 and a sell at 15 turn 100 into 150 |
| Validate.TradingIsAllIn | programs/backtesting/validate.go:581-650 | After any signals the machine is flat with all its worth in money or long with all of it in the position, and buys and sales alternate, each sale above its buy |
| Validate.BacktestLedger | programs/backtesting/validate.go:561-700 | The result is the initial balance times the ratios of the sales, or zero exactly when the position is still held; otherwise at least the initial balance; only the last trade can be a final sale |
| Validate.WorthGrows | programs/backtesting/validate.go:610-623 | Realised worth never falls and rises strictly with every sale |
| MovingAverage.CustomEMA | indicator/indicator.go:100-125 | NaN below the window, the plain mean at its end, from there the recurrence; a NaN close is emitted as NaN and leaves the average alone, a NaN in the seed poisons all |
| MovingAverage.CustomEMAFromSlice | indicator/indicator.go:127-160 | The same with the mean of the valid values as seed, NaN and zero kept inside when none is valid |
| MovingAverage.EmittedRecurrence | indicator/indicator.go:113-156 | Both averages, on any series: (window + 1) times the new value is (window - 1) times the last one emitted plus twice the element, NaN elements in between being skipped |
| MovingAverage.EmaRecurrence | indicator/indicator.go:113-116 | Without NaN: (window + 1) ema[i] = (window - 1) ema[i-1] + 2 close[i] |
| MovingAverage.EmaSeed | indicator/indicator.go:106-112 | The first value is the mean of the first window closes |
| MovingAverage.NaNIsEmitted | indicator/indicator.go:117-122 | A NaN element is emitted as NaN, and nothing is emitted below the window |
| MovingAverage.NaNSeedLasts | indicator/indicator.go:106-119 | One NaN among the first closes leaves CustomEMA without a number for good |
| MovingAverage.WeightsInNumbers | indicator/indicator.go:102-116 | After the seed the newest close weighs 2 / (window + 1), and every weight shrinks by (window - 1) / (window + 1) a step |
| MovingAverage.EmaClosedForm | indicator/indicator.go:100-125 | Without NaN the average is NaN exactly below window - 1, and from there the weighted sum of all closes: (1-k)^m shared by the seed, k(1-k)^j for each later close |
| MovingAverage.WeightsSumToOne | indicator/indicator.go:102-116 | These weights add up to one |
| MovingAverage.EmaWithinCloses | indicator/indicator.go:100-125 | The average lies within any bounds of the closes so far |
| MovingAverage.CustomMACD | indicator/indicator.go:162-191 | The line is the difference of two averages, the signal its average, the histogram their difference, NaN wherever an operand is |
| MovingAverage.MacdWarmup | indicator/indicator.go:167-176 | Without NaN closes and for any two windows the line is NaN exactly below the wider one less one, longWindow - 1 for shortWindow <= longWindow, and from there the short average less the long one |
| MovingAverage.SignalRecurrence | indicator/indicator.go:148-151 | Once line and signal are there: (window + 1) signal[i] = (window - 1) signal[i-1] + 2 line[i] |
| MovingAverage.FirstSignal | indicator/indicator.go:131-151 | For a signal window below the wider one the first signal is 2 / (window + 1) of the line |
| MovingAverage.FirstSignalIsMean | indicator/indicator.go:133-147 | For any other it is the mean of the line's values so far |
| MovingAverage.SignalStartsFromZero | indicator/indicator.go:127-160 | For a signal window below the wider of the two, the signal and the histogram are NaN exactly where the line is, and the signal is the recurrence started from zero |
| MovingAverage.SignalSeededWithMean | indicator/indicator.go:133-147 | For any other signal window the signal starts from the mean of the valid values it covers |
| MovingAverage.ZeroSeedBias | indicator/indicator.go:131-151 | On any line, the average seeded with v and the one started from zero differ by v (1-k)^m after m values |
| MovingAverage.ConstantLineBias | indicator/indicator.go:131-151 | On a constant line, where a mean seed is exact at once, the signal falls short by the factor (1-k)^m |
| Oscillator.CustomRSI | indicator/indicator.go:65-98 | Zero below the period, from there the index of the window's gains and losses |
| Oscillator.GainsMinusLosses | indicator/indicator.go:70-85 | Over a window gains minus losses telescope to the change of the close |
| Oscillator.StepIsGainOrLoss | indicator/indicator.go:70-77 | A step is a gain or a loss of the size of the change, never both |
| Oscillator.RsiBelowPeriod | indicator/indicator.go:66-79 | The index reads zero before the first full window |
| Oscillator.RsiFormula | indicator/indicator.go:79-95 | With losses the index is 100 G / (G + L), without any it is 100 |
| Oscillator.RsiAbove50 | indicator/indicator.go:79-95 | The index is in [0, 100], and above 50 exactly when the close rose over the period or the window has no losses |
| Oscillator.NoLossesIffNeverDown | indicator/indicator.go:70-77 | A window has no losses exactly when none of its steps goes down |
| Oscillator.CustomStochasticOscillator | indicator/indicator.go:193-225 | %K places the close in the range of the window, 50 when the range is empty; %D is the mean of three |
| Oscillator.PercentKRange | indicator/indicator.go:197-213 | %K is in [0, 100], and 100 or 0 exactly when the close is the extreme of a window that is not flat |
| Oscillator.PercentKProportion | indicator/indicator.go:197-222 | %K times the range is the close's distance from the lowest low in percent, 50 without a range, zero before the window is full; %D is the mean of the last three |
| SuperTrend.NextBar | indicator/supertrend.go:14-43 | The bands and the line of a bar from those of the bar before |
| SuperTrend.SuperTrendLine | indicator/supertrend.go:5-47 | The loop computes the line defined by recursion on the bar |
| SuperTrend.BasicBands | indicator/supertrend.go:14-15 | The basic bands lie around the middle of the bar, factor times the average true range either way |
| SuperTrend.BandsRatchet | indicator/supertrend.go:17-29 | The upper band is the lower of its last value and the basic band until a close above it lets it go to the basic band; the lower band the other way round |
| SuperTrend.LineRefinesAutomaton | indicator/supertrend.go:31-43 | While the bands differ where the automaton is up, the line runs on the automaton's band |
| SuperTrend.DecodingIsExactIff | indicator/supertrend.go:31-31 | The equality test decodes the automaton's state at every bar exactly when the bands differ wherever it is up |
| SuperTrend.SeparatedBandsSuffice | indicator/supertrend.go:31-31 | Lower < upper from bar 1 on is enough for that |
| SuperTrend.MeetingBandsAreMisread | indicator/supertrend.go:31-31 | A concrete input on which the test misreads an up state |
| SuperTrend.LineIsEmitted | indicator/supertrend.go:31-43 | On every input the line lies on the band of the branch that emitted it |
| SuperTrend.StepIsMonotoneIff | indicator/supertrend.go:17-43 | Within a run the line moves against its direction exactly when the close before was caught between crossed bands and the new basic band gives way |
| SuperTrend.RunsAreMonotone | indicator/supertrend.go:17-43 | From bar 1 on, while no close is caught between crossed bands, the line never falls within an up run and never rises within a down run |
| SuperTrend.EmittingIsAutomaton | indicator/supertrend.go:31-43 | While every up was visible, the branch that emits is the automaton's state |
| SuperTrend.MisreadsAreUpsIff | indicator/supertrend.go:31-43 | Every misread takes an up for a down exactly when no misread meets a close caught between crossed bands |
| SuperTrend.MisreadFlips | indicator/supertrend.go:31-43 | Such a close turns a misread into the opposite one, which nothing else starts |
| SuperTrend.CrossedBandsFlipTheMisread | indicator/supertrend.go:13-43 | A concrete input with zero ranges on which a down is read as an up |
| SuperTrend.GapCrossesBands | indicator/supertrend.go:14-29 | A gap makes the bands cross with a positive range too: a concrete input |
| SuperTrend.AgreementStep | indicator/supertrend.go:31-43 | On every input: from agreement the test stays right exactly when an up is visible; from a misread it is right again exactly when the close lies on one side of both bands and not above meeting ones, or, after a down read as an up, on meeting bands |
| SuperTrend.MisreadLastsIff | indicator/supertrend.go:31-43 | On every input a misread lasts exactly as long as no bar fulfils that condition |
| MonthlyTrend.GroupByMonth | indicator/indicator.go:271-283 | Each month that occurs is a key, with the closes of its rows in order |
| MonthlyTrend.SortByMonth | indicator/indicator.go:293-295 | Sorting the months changes no answer |
| MonthlyTrend.ClassifyMonths | indicator/indicator.go:285-317 | However the map is walked, the sorted list holds exactly its months, each with the class of its closes |
| MonthlyTrend.LookUp | indicator/indicator.go:321-329 | The trend of the first listed month that is the row's, sideways without one |
| MonthlyTrend.DetectMonthlyTrends | indicator/indicator.go:265-333 | Every row reads the class of its own month's closes, whatever the map order |
| MonthlyTrend.TrendComparesMonthEnds | indicator/indicator.go:299-315 | For a positive threshold and a positive first close, not below the source's 1e-8, a month is bullish or bearish exactly when its last close is at least the threshold above or below its first, so a row's trend can depend on later rows |
| MonthlyTrend.TinyStartIsSideways | indicator/indicator.go:299-306 | A first close within 1e-8 of zero makes the month sideways |
| Scan.CountElements | utils/collection/scan.go:58-64 | The map has each element's multiplicity |
| Scan.SameAllElements | utils/collection/scan.go:66-80 | Checking the keys of the first count map alone decides multiset equality, because the lengths agree |
| Scan.SameAllElementsWithEqualFunc | utils/collection/scan.go:82-102 | True only if the elements can be matched one to one, and exactly then where a common partner means all partners in common |
| Scan.StuckMeansUnmatchable | utils/collection/scan.go:89-99 | For such a comparison, where the greedy choice is stuck no one-to-one matching exists at all |
| Scan.GreedIsSound | utils/collection/scan.go:88-100 | A positive answer always comes with a matching |
| Scan.GreedIsEnoughIff | utils/collection/scan.go:82-102 | The greedy choice loses no matching on any input exactly for the comparisons under which elements with a common partner share all partners; every equivalence is one |
| Scan.UnsharedPartnerIsLost | utils/collection/scan.go:90-96 | Any four elements against the condition make two lists whose matching is missed |
| Scan.SuccessorsAreMatched | utils/collection/scan.go:82-102 | A comparison that is no equivalence and loses nothing |
| Scan.ToleranceDefeatsGreed | utils/collection/scan.go:90-96 | A comparison up to a tolerance fails the condition, with a concrete input that is missed |
| StrategyController.Dataframe.Sample | model/series.go:79-103 | The last rows in the number asked for, all of them when there are no more |
| StrategyController.LastOnesAreLast | model/series.go:30-35 | The last n elements in order, all of them when there are no more |
| StrategyController.RowFields | strategy/controller.go:36-60 | Rows are the columns field by field, and a candle's row has the candle's fields |
| StrategyController.Controller.constructor | strategy/controller.go:20-30 | A new controller is not started and its dataframe is empty |
| StrategyController.Controller.Start | strategy/controller.go:32-34 | From here on the strategy decides |
| StrategyController.Controller.UpdateDataFrame | strategy/controller.go:36-60 | A candle of the last row's time replaces the row, another is appended; columns keep equal length and LastUpdate stays the last row's time |
| StrategyController.Controller.OnCandle | strategy/controller.go:62-83 | A late candle changes nothing; otherwise indicators, and the strategy once started, see exactly the last WarmupPeriod rows as soon as there are so many |
| StrategyController.LatenessIsExact | strategy/controller.go:63-66 | A candle is dropped exactly when an earlier one, dropped or not, has a later time |
| StrategyController.RowsAreWhatStands | strategy/controller.go:36-71 | After any run the rows are in strictly ascending time and are exactly the timely candles, the last write of each time winning |
| StrategyController.StrategySeesTradedFinals | exchange/upbit.go:737-746 | Through the volume filter and the closed-bars-only feed, the strategy is fed exactly the final bars with some volume, in order |
| StrategyController.TradedHaveVolume | exchange/upbit.go:744-746 | The traded bars are exactly those with positive volume, as often as they occur |
| StrategyController.SecondsPassThrough | exchange/upbit.go:753-757 | On the one-second timeframe it is fed the traded seconds themselves |
| StrategyController.FinalsYounger | exchange/upbit.go:881-883 | Final bars carry strictly increasing times, none before the first open bucket |
| StrategyController.FinalsAreNeverLate | strategy/controller.go:62-71 | With preloaded rows up to the open bucket, no bar the aggregator will ever emit is dropped: the dataframe grows by one row for each bucket traded in, the first at most replacing the preloaded one |
| StrategyController.PreloadedBarIsEarlyIff | exchange/upbit.go:510-517 | For timeframes dividing a day, a bar starts no later than the open bucket of the subscription exactly when a point of the Korean-midnight grid lies at its start or between it and the subscription |
| StrategyController.PreloadedBarsAreEarly | exchange/upbit.go:510-517 | A bar on that grid that is older than the subscription always does |
| StrategyController.SetUpDropsNoBar | bot/raccoon.go:85-103 | The bot as set up, for timeframes dividing a day and an exchange all of whose bars start on the Korean-midnight grid: preloading a window of history gives one row a bar, and no final bar after it is ever late, whatever the seconds |
| StrategyController.SetUpDropsNoBarIff | bot/raccoon.go:85-103 | For bars on any grid, the first bar being traded: no bar is late exactly when a point of the Korean-midnight grid lies between the last preloaded bar's start and the subscription |
| StrategyController.NineOClockBarIsTooYoung | bot/raccoon.go:90-96 | A daily bar that starts at nine, on a subscription at ten, fails that condition |
| StrategyController.FirstFinalLateIff | strategy/controller.go:63-66 | When the first bar is traded, that condition on the preloaded rows is exact |
| Trailing.GapIsSpentByDrops | utils/tools/trailing.go:27-40 | After any prices, price minus stop is the initial gap minus all downward moves, and the stop has risen by all upward ones |
| Trailing.StopNeverDecreases | utils/tools/trailing.go:32-36 | The stop never goes down |
| Trailing.TighterThanPeakStop | utils/tools/trailing.go:32-39 | The stop is never below one that trails the highest price by the initial gap, and equals it exactly as long as every rise starts from the highest price so far |
| Trailing.TrailingStop.constructor | utils/tools/trailing.go:9-11 | A new stop is not armed |
| Trailing.TrailingStop.Start | utils/tools/trailing.go:13-17 | Arms the stop at the given levels and forgets earlier prices |
| Trailing.TrailingStop.Stop | utils/tools/trailing.go:19-21 | Disarms it |
| Trailing.TrailingStop.Update | utils/tools/trailing.go:27-40 | Fires exactly on a step that does not rise and with which the drops since the start reach the initial gap; disarmed, it never fires and changes nothing |

## Left out

- Websocket, REST, JWT, JSON, database, Telegram, logging, shutdown and reconnection: governed by the network or by libraries.
- Rounding of float64: prices and amounts are exact reals, and only NaN is kept of the special values; the oscillators take series without NaN.
- Candle metadata and `UpdatedAt`: exchange candles carry no metadata, and `UpdatedAt` always equals another field modelled here.
- The results of preload pushes, which the source discards: streams start from the aggregator's state after the preload.
- `Publish` during or after `Stop`, a second `Start`, and `Subscribe` after `Start`: outside what the feed supports, so no event of a run. Its `Err` channel is never written.
- A server history that changes between the requests of one `CandlesByPeriod` call: the history is fixed, one candle per instant, and the set of failing requests is arbitrary.
- The data race on `currentPrice` in the backtest: executions are atomic and read the price of the last candle.
- The browser's charts for indicators and volume: only its candle chart and the events it receives are modelled.
- `MonthlyTrend.GroupByMonth`: months are numbers, standing for the year-and-month strings of times, and the parsing of these strings back is not modelled; columns other than the close play no part.
- `Backtest.BacktestBroker.ProcessOrder`: does not model an accepted buy at price zero, or one that leaves no coins, where the floats become infinite or NaN. Runs of the backtest publish orders of positive size, as the strategy does.
- `Validate.GenerateSignals`: the indicator conditions behind a decision are inputs, because they repeat those of the strategies; dates are instants, because RFC 3339 strings of one zone sort as their instants do.
- `Validate.Backtest`: printing, trade durations and the maximum balance are not modelled.
- `StrategyController.Dataframe.Sample`: the sample is a copy, while the source's slices share memory with the dataframe; strategies write only to the sample's own metadata map.
- Bollinger bands, the talib wrappers and the average true range: library results; the strategy and SuperTrend take them as arbitrary series.
- `DfToCandles`, `transform.go`, the first PSH strategy and the indicator copies in `validate.go`: easy members, or of a shape already modelled.
