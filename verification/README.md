# Bond accounting: a verified model

This project models the four linked parts of the bond-accounting application that carry its
hard guarantees, and proves those guarantees for all inputs, all histories and all runs.

* **Event bus** (`BusModel`, `SubLaws`, `BusInvariants`, `BusRuns`, `BusStalls`, `BusWarnings`,
  `BusWitnesses`, `AsyncQueueBus`). The
  bus is a step machine: one action is the code between two suspension points of one coroutine,
  and any enabled action may come next. Subscriptions carry the history of their queue beside
  their fields, so that a property of whole runs is a property of states. `AsyncQueueBus` holds
  the same code as classes whose methods update fields in place; every operation is proved to be
  one step of the machine, and the object invariant says that the fields stand for a reachable
  state, so every theorem about runs holds of the objects.
* **Netting** (`Transactions`, `Netting`, `NettingLaws`, `NettingHistories`). The average-cost
  walk over a bond's history, with clamping, proportional cost reduction and the reset on a full
  close: conservation, reflection, composition, splitting of trades, pooling over accounts.
* **Ledger** (`Ledger`, `LedgerLaws`, `Sessions`, `Chronology`, `Grouping`, `PortfolioService`).
  Add, update and delete as pure commands on a table, as interleaved database sessions under the
  user-row lock, and as a class over its tables.
* **Dates, yields and views** (`Grid`, `Powers`, `PresentValue`, `Solver`, `Pricing`, `Ytm`, `LongPeriods`,
  `Calendar`, `Summary`, `SummaryLaws`, `SummaryContents`, `Views`, `AnalyticsService`). The three
  coupon-grid generators and the accrual, the two root finders and the yield calculation, the
  portfolio summary, what it lists and what its figures add up to, its parameterised views and the
  cache that serves them.

`Seqs` and `Sorting` hold the sequence library (selection, mapping, stable sorting).

Money and rates are exact reals, dates are day numbers, and `factor ** (days / period)` is the
`days`-th power of the `period`-th root of `factor`; the root function is a parameter of which
only its defining property is assumed (`Powers.TakesRoots`).

## What the proofs found

Where code and documentation differ the model follows the code.

* The edit check for a BUY that leaves its pair compares the position *without* the row to the
  row's quantity, although the docstring only asks that the position does not go below zero. The
  check is sound but too strict: a lone BUY can never be moved to another account
  (`LedgerLaws.UpdateExact`, `LedgerLaws.LoneBuyCannotMove`).
* The documentation says that a requester never hangs. It does when the handler it waits for raises
  something other than an `Exception`: the dispatcher ends, nobody fails the request, and an untimed
  request stays pending until it is cancelled or the bus has stopped. A subscription is served
  exactly as long as none of its handlers has done that since its dispatcher was made, and a pending
  request is accounted for handler by handler (`BusStalls.ServedSinceSpawnIff`,
  `BusStalls.PendingIff`, `BusStalls.StrandedHangs`, `BusWitnesses.AbortStrandsRequest`).
* A request's clock starts only after its message has been put into every queue: in front of a full
  queue that nobody serves a request with a timeout does not time out, exactly until the queue is
  drained or served or the call is cancelled (`BusStalls.BlockedStep`, `BusStalls.BlockedStays`,
  `BusWitnesses.TimedRequestBlocks`).
* Draining a queue on `stop` or unsubscribe leaves the high-watermark flag set. Between two drains at
  most one crossing of the threshold goes without a warning: the first one, exactly when the flag was
  left set and the queue fills up again before anything is taken from it
  (`BusWarnings.WarningsBetweenDrains`, `BusWitnesses.SecondCrossingUnwarned`).
* A yield of exactly -0.5 is stepped over: the calculation returns another rate, unless one of three
  evaluations happens to hit the root (`Ytm.YtmSolvesIff`, `Ytm.LeftRootMissed`).
* The closed form for zero-coupon bonds is not limited to [-0.5, 2.0], although the documentation
  gives these as bounds of every result. It meets them exactly when the price lies between the values
  at the two ends; from a period of 730 days on only the right end limits it
  (`Ytm.ClosedFormInBoundsIff`, `Ytm.ClosedFormExceedsBounds`).
* Two kinds of valid bonds can make the yield calculation raise an error that nobody catches, and one
  such open position fails the whole portfolio summary: a bond without a coupon period but with a
  stored schedule (`Summary.SummaryFailsIff`, `Summary.OneStoredRowFailsSummary`), and a bond with a
  coupon period of 730 days or more. There an error escapes whenever the starting point is a rate
  without a price (`Ytm.StartsOffCurve`, `Ytm.LongPeriodUncaught`, `Summary.OneLongPeriodFailsSummary`),
  and, unless all payments are whole periods away, exactly when Newton's method finds no rate
  (`Ytm.LongPeriodSound`).
* With all payments whole periods away and a period above 730 days the price curve has a pole inside
  the bounds. The bisection can close in on it and return a rate that solves nothing instead of None
  (`LongPeriods.WholePeriodSound`, `LongPeriods.RateAtPole`).
* Pooling accounts leaves realized profit minus remaining basis unchanged. What it moves between the
  two is, exit by exit, the units sold times the difference between the average of the account and
  the average of the pool (`NettingHistories.DriftAfter`, `NettingHistories.AgreementKeptIff`).

## Model

| member | source | states |
|---|---|---|
| BusRuns.RunKeepsInv | src/bond_accounting/event_bus/async_queue_bus.py:153-525 | In every state of every run, under every interleaving, the registry, lifecycle, queue, routing, delivery, future, reply and log invariants hold together. |
| BusInvariants.ActionKeepsInv | src/bond_accounting/event_bus/async_queue_bus.py:153-525 | Each of the 15 atomic steps keeps the invariant. |
| BusRuns.DecidedRequestIsResolved | src/bond_accounting/event_bus/async_queue_bus.py:372-458 | If a request handler raised or returned a payload for a request, that handler was in the routing snapshot and the future is resolved, unless the requester itself was cancelled while routing. |
| BusRuns.FirstDecisionWins | src/bond_accounting/event_bus/async_queue_bus.py:232-283 | A reply or error in a future comes from a handler of the snapshot serving exactly this message, and no handler decided the request earlier; the reply names the request's topic and id. |
| BusRuns.ResolvedRequestResumes | src/bond_accounting/event_bus/async_queue_bus.py:271-283 | A request that awaits a resolved future can go on, and then returns the reply or raises the error or the timeout. |
| BusRuns.ResolvedOnce | src/bond_accounting/event_bus/async_queue_bus.py:401-458 | Over any stretch of a run a resolved future never changes: reply, failure, timeout, stop, whichever is first. |
| BusRuns.CallerGetsFuture | src/bond_accounting/event_bus/async_queue_bus.py:256-283 | A finished request left no entry in the map, and returned or raised what its future held; only a request with a timeout can miss a reply or an error, one that came as its time ran out, and only a cancelled requester an unresolved future. |
| BusRuns.UntimedRequestHasHandler | src/bond_accounting/event_bus/async_queue_bus.py:261-265 | In every run a request without a timeout that was not refused at once has a request handler in its routing snapshot. |
| BusRuns.HandlerSettlesOwnRequest | src/bond_accounting/event_bus/async_queue_bus.py:384-458 | A request handler that ends gives the pending future of its own request the reply, on its topic, under the name of the handler and to its id, or the error, and changes no other future. |
| BusRuns.StopResolvesAll | src/bond_accounting/event_bus/async_queue_bus.py:204-211 | When `stop` ends no requester is left waiting and the map is empty. |
| BusRuns.StopAwaitsDispatchers | src/bond_accounting/event_bus/async_queue_bus.py:174-203 | When `stop` goes on to detach, the dispatcher of every subscription that was registered when it began is over. |
| BusRuns.RoutedExactlyOnce | src/bond_accounting/event_bus/async_queue_bus.py:460-479 | A completed route put its message exactly once into each subscription of its snapshot and into no other. |
| BusRuns.SnapshotIsRegistered | src/bond_accounting/event_bus/async_queue_bus.py:475-476 | The snapshot of a call is exactly the subscriptions registered on its topic at that moment. |
| BusRuns.EverySubscriberGetsItOnce | src/bond_accounting/event_bus/async_queue_bus.py:460-479 | A completed call has put its message exactly once into every subscription registered on the topic when it began, whatever subscribed, unsubscribed or stopped meanwhile, and into no other. |
| BusRuns.NeverTwice | src/bond_accounting/event_bus/async_queue_bus.py:460-479 | No message is ever put twice into one queue. |
| BusRuns.QueueAccounting | src/bond_accounting/event_bus/async_queue_bus.py:338-399 | The messages put are those settled, the one in hand and the queue, in this order; the log of a subscription is the settled messages with only dropped and cut-off ones removed. |
| BusRuns.DeliveryIsFifo | src/bond_accounting/event_bus/async_queue_bus.py:11-15 | While a subscription is not removed, the bus not stopped and no handler of that subscription aborts, what it handled is a prefix of what was put into its queue. |
| BusRuns.PublishOrderIsHandlingOrder | src/bond_accounting/event_bus/async_queue_bus.py:13-15 | A message whose routing was over before another call began is handled first by every subscription that handles both, in every run, drains included. |
| BusRuns.OneLiveDispatcher | src/bond_accounting/event_bus/async_queue_bus.py:362-370 | At most one dispatcher of a subscription is live, it is the registered one, and only while the bus runs and the subscription is registered. |
| BusStalls.RegisteredIsServed | src/bond_accounting/event_bus/async_queue_bus.py:362-399 | In every run in which no handler of it ever aborted, a subscription registered on a running bus has a live dispatcher. |
| BusStalls.ServedSinceSpawnIff | src/bond_accounting/event_bus/async_queue_bus.py:372-399 | From the step that gave it a dispatcher until it is withdrawn, a subscription has a live dispatcher exactly as long as none of its handlers has aborted. |
| BusStalls.PendingIff | src/bond_accounting/event_bus/async_queue_bus.py:372-458 | A request that awaits its reply is pending exactly as long as every request handler of its snapshot has it queued or in hand, lost it to a drain or a cut-off, or returned without a payload. |
| BusStalls.StrandedHangs | src/bond_accounting/event_bus/async_queue_bus.py:271-283 | An untimed pending request that no request handler has queued or in hand stays pending, whatever happens, until its requester is cancelled or the bus has stopped. |
| BusStalls.BlockedStep | src/bond_accounting/event_bus/async_queue_bus.py:269-279 | A step ends the wait of a call in front of a full queue that nobody serves exactly if it removes that subscription, cancels the call, starts the bus while the subscription is registered, or ends a stop that holds the subscription. |
| BusStalls.BlockedStays | src/bond_accounting/event_bus/async_queue_bus.py:269-279 | Over any stretch of a run such a call stays at the same put, its timeout never enabled, exactly if no step of the stretch is one of those. |
| BusWitnesses.AbortStrandsRequest | src/bond_accounting/event_bus/async_queue_bus.py:372-399 | A run of seven steps after which an untimed request is stranded and its registered handler has no dispatcher, on a running bus. |
| BusWitnesses.TimedRequestBlocks | src/bond_accounting/event_bus/async_queue_bus.py:269-279 | A run after which a request with a timeout is blocked in front of a full queue. |
| BusRuns.RegisteredUntilRemoved | src/bond_accounting/event_bus/async_queue_bus.py:309-360 | A subscription is registered on its topic, as the plain subscriber or request handler it was made as, from the moment it is made exactly until it is removed. |
| BusRuns.FailureIsIsolated | src/bond_accounting/event_bus/async_queue_bus.py:384-397 | A raising handler leaves its dispatcher serving and every other subscription, call and registration untouched. |
| BusRuns.WatermarkHolds | src/bond_accounting/event_bus/async_queue_bus.py:481-494 | A bounded queue never exceeds its capacity, a queue at the threshold has been warned about, and warnings equal upward crossings up to one for each drain that left the flag set. |
| BusWarnings.WarningsBetweenDrains | src/bond_accounting/event_bus/async_queue_bus.py:481-494 | Over any stretch of a run without a drain the crossings exceed the warnings by 0 or 1, and by 1 exactly when the flag was stale at its start and the queue reached the threshold before anything was taken from it. |
| BusWarnings.FreshFlagIsNotStale | src/bond_accounting/event_bus/async_queue_bus.py:481-494 | Up to the first drain every crossing has been warned about. |
| BusWitnesses.SecondCrossingUnwarned | src/bond_accounting/event_bus/async_queue_bus.py:519-525 | A run of ten steps with two crossings and one warning. |
| AsyncQueueBus.Subscription.EnsureDispatcher | src/bond_accounting/event_bus/async_queue_bus.py:362-370 | Spawns a task exactly when there is none that is not done. |
| AsyncQueueBus.Subscription.Drain | src/bond_accounting/event_bus/async_queue_bus.py:519-525 | The loop empties the queue and counts what it dropped. |
| AsyncQueueBus.Subscription.Put | src/bond_accounting/event_bus/async_queue_bus.py:476-494 | Appends the message and warns once when the queue reaches the threshold. |
| AsyncQueueBus.Subscription.Get | src/bond_accounting/event_bus/async_queue_bus.py:381-385 | Takes the oldest message and resets the flag below the threshold. |
| AsyncQueueBus.AsyncQueueEventBus.constructor | src/bond_accounting/event_bus/async_queue_bus.py:122-146 | A stopped bus without subscriptions; the warning threshold is 80% of the capacity, at least 1. |
| AsyncQueueBus.AsyncQueueEventBus.AddSubscription | src/bond_accounting/event_bus/async_queue_bus.py:309-336 | Refuses exactly the unknown topics; otherwise registers last on its topic and is served at once on a running bus. |
| AsyncQueueBus.AsyncQueueEventBus.RemoveSubscription | src/bond_accounting/event_bus/async_queue_bus.py:338-360 | Unregisters, cancels and drains exactly one subscription; idempotent. |
| AsyncQueueBus.AsyncQueueEventBus.Start | src/bond_accounting/event_bus/async_queue_bus.py:153-172 | Nothing on a running bus; otherwise every registered subscription and no other gets a dispatcher. |
| AsyncQueueBus.AsyncQueueEventBus.BeginStop | src/bond_accounting/event_bus/async_queue_bus.py:174-197 | Nothing on a stopped bus; otherwise every registered dispatcher is cancelled and remembered. |
| AsyncQueueBus.AsyncQueueEventBus.EndStop | src/bond_accounting/event_bus/async_queue_bus.py:198-216 | The remembered subscriptions are detached and drained, pending replies fail, the map is cleared. |
| AsyncQueueBus.AsyncQueueEventBus.Publish | src/bond_accounting/event_bus/async_queue_bus.py:218-230 | ValueError for an unknown topic, RuntimeError on a stopped bus, otherwise a call with the current snapshot. |
| AsyncQueueBus.AsyncQueueEventBus.Request | src/bond_accounting/event_bus/async_queue_bus.py:256-268 | As publish; fails at once exactly without a timeout and without a request handler object registered on the topic; otherwise registers a pending future. |
| AsyncQueueBus.AsyncQueueEventBus.HasRequestHandler | src/bond_accounting/event_bus/async_queue_bus.py:496-500 | True exactly when the registry lists on the topic a subscription object that is a request handler. |
| AsyncQueueBus.AsyncQueueEventBus.FinishPut | src/bond_accounting/event_bus/async_queue_bus.py:475-479 | One put of the routing loop, in snapshot order. |
| AsyncQueueBus.AsyncQueueEventBus.FinishRoute | src/bond_accounting/event_bus/async_queue_bus.py:269-273 | After the loop a publish returns and a request awaits its future. |
| AsyncQueueBus.AsyncQueueEventBus.ResumeRequest | src/bond_accounting/event_bus/async_queue_bus.py:271-283 | The request returns or raises what its future holds and removes its entry. |
| AsyncQueueBus.AsyncQueueEventBus.ExpireRequest | src/bond_accounting/event_bus/async_queue_bus.py:274-283 | A timeout cancels a pending future and removes the entry. |
| AsyncQueueBus.AsyncQueueEventBus.AbandonCall | src/bond_accounting/event_bus/async_queue_bus.py:282-283 | A cancelled requester removes its entry and leaves a resolved future alone. |
| AsyncQueueBus.AsyncQueueEventBus.FinishGet | src/bond_accounting/event_bus/async_queue_bus.py:381-385 | A waiting dispatcher takes the next message of its own queue. |
| AsyncQueueBus.AsyncQueueEventBus.FinishCancel | src/bond_accounting/event_bus/async_queue_bus.py:372-399 | A cancelled dispatcher ends when it is resumed and changes nothing else. |
| AsyncQueueBus.AsyncQueueEventBus.HandlerEnded | src/bond_accounting/event_bus/async_queue_bus.py:384-399 | Reply, failure or nothing, by kind of subscription and outcome; the dispatcher goes on. |
| AsyncQueueBus.AsyncQueueEventBus.MaybeReply | src/bond_accounting/event_bus/async_queue_bus.py:416-458 | Resolves only a pending future, and only with a payload, by a reply on the request's topic to the request's id. |
| AsyncQueueBus.AsyncQueueEventBus.FailPendingReply | src/bond_accounting/event_bus/async_queue_bus.py:401-414 | Fails only a pending future. |
| AsyncQueueBus.OneLiveTask | src/bond_accounting/event_bus/async_queue_bus.py:362-370 | For a valid bus object: a live task of a subscription object is its dispatcher, there is no other, the bus runs and has it in the registry. |
| AsyncQueueBus.QueueIsWatched | src/bond_accounting/event_bus/async_queue_bus.py:481-494 | For a valid bus object: no queue is over-full, and at the threshold its flag is set. |
| AsyncQueueBus.EntryIsOpenRequest | src/bond_accounting/event_bus/async_queue_bus.py:256-283 | For a valid bus object: an entry in the map of pending replies is a request that has not returned, unresolved or resolved by a handler. |
| Netting.RunNetting | src/bond_accounting/portfolio/netting.py:83-129 | The loop over six locals computes the walk. |
| NettingLaws.Conservation | src/bond_accounting/portfolio/netting.py:83-129 | Money paid for BUYs plus realized profit equals exit price times units actually closed plus remaining cost basis, clamped or not. |
| NettingLaws.ResetIsExact | src/bond_accounting/portfolio/netting.py:124-128 | The reset on a full close changes nothing in exact arithmetic. |
| NettingLaws.AverageAfter | src/bond_accounting/portfolio/netting.py:60-67 | A partial close leaves the average of what remains unchanged; a BUY moves it to the weighted mean. |
| NettingLaws.RealizedByKind | src/bond_accounting/portfolio/netting.py:160-186 | The realized profit of sales, and that of redemptions, is the sum over the exits of that kind of price minus average before, times the units that were open; the commissions are those of all exits. |
| NettingLaws.BookedByKind | src/bond_accounting/portfolio/netting.py:119-123 | Without a SELL the profit of sales is zero, without a MATURE that of redemptions. |
| NettingLaws.QuantityAndCommissions | src/bond_accounting/portfolio/netting.py:89-99 | The quantity is BUY minus SELL minus MATURE and the commissions are those of all exits, skipped ones included. |
| NettingLaws.Reflection | src/bond_accounting/portfolio/netting.py:89-129 | The open quantity is the net quantity minus the least prefix net quantity, hence never below the net quantity. |
| NettingLaws.NeverClampsIff | src/bond_accounting/portfolio/netting.py:107-118 | Nothing is clamped exactly when no prefix goes short, which is exactly when open and net quantity agree. |
| NettingLaws.HeldPositionHasAverage | src/bond_accounting/portfolio/netting.py:155-157 | A held position has an average price. |
| NettingLaws.ValueWithinBasis | src/bond_accounting/portfolio/netting.py:155-157 | Average times quantity never exceeds the cost basis, with equality exactly when nothing was clamped. |
| NettingHistories.FullCloseForgets | src/bond_accounting/portfolio/netting.py:99-129 | After a full close the rest is priced as if it stood alone, and the four running sums add up. |
| NettingHistories.SplittingATrade | src/bond_accounting/portfolio/netting.py:89-128 | Splitting any trade of a history in two at one price changes none of the six fields, clamped closes included. |
| NettingHistories.AverageBetweenPricesPaid | src/bond_accounting/portfolio/netting.py:89-128 | The average lies between the least and greatest BUY price since the position was last flat. |
| NettingHistories.PoolingLaw | src/bond_accounting/analytics/service.py:750-755 | When no account clamps, basis minus realized profit of the pooled walk is the sum over the accounts. |
| NettingHistories.PoolNeverClamps | src/bond_accounting/portfolio/netting.py:107-118 | If no account goes short, the pool does not. |
| NettingHistories.DriftIsProfitDrift | src/bond_accounting/portfolio/netting.py:119-128 | What the pooled walk has more in its basis than the accounts it has more in its profit, for every history in which no account goes short. |
| NettingHistories.DriftAfter | src/bond_accounting/portfolio/netting.py:119-128 | For every such history a BUY leaves that difference as it is, and an exit changes it by its units times the average of its account minus the average of the pool. |
| NettingHistories.AgreementKeptIff | src/bond_accounting/portfolio/netting.py:119-128 | Where pool and accounts agree, an exit keeps them in agreement, on basis and on profit, exactly when its account and the pool have the same average. |
| NettingHistories.PooledProfitDiffersIff | src/bond_accounting/portfolio/netting.py:119-123 | The smallest case: two units bought on two accounts and one sold agree exactly when both were bought at one price. |
| LedgerLaws.AddExact | src/bond_accounting/portfolio/service.py:140-186 | For every directory and request: an addition is recorded, with all its fields, exactly when the account is the user's own, no position of the resulting table is negative, and user and bond exist; otherwise the errors come in this order and nothing changes. |
| LedgerLaws.DeleteExact | src/bond_accounting/portfolio/service.py:414-452 | A row of the user is deleted, and the rows around it kept in order, exactly when these have no negative position. |
| LedgerLaws.OnlyOwnRows | src/bond_accounting/portfolio/service.py:262-276 | An edit or a deletion finds nothing exactly when no row has the id, and is forbidden exactly when the row is another user's. |
| LedgerLaws.UpdateExact | src/bond_accounting/portfolio/service.py:285-385 | For every directory and edit: exactly the given fields of exactly that row change, exactly when the target account is the user's own, no position becomes negative, a BUY that leaves its pair leaves at least its own quantity there, and user and bond exist. |
| LedgerLaws.LoneBuyCannotMove | src/bond_accounting/portfolio/service.py:357-372 | A BUY that is alone on its pair can never be moved, although nothing would go short. |
| LedgerLaws.UncheckedInterleavingGoesShort | src/bond_accounting/portfolio/service.py:88-105 | Two sales checked before either is written drive a position below zero: why the lock is needed. |
| LedgerLaws.PerformKeepsConsistent | src/bond_accounting/portfolio/service.py:88-466 | Every command keeps every position non-negative and every row referentially sound and on an account of its own user; a refused one changes nothing. |
| LedgerLaws.NothingOnForeignAccounts | src/bond_accounting/portfolio/service.py:140-157 | On an account that is not the user's own the user holds nothing. |
| LedgerLaws.PooledNonNegative | src/bond_accounting/portfolio/service.py:611-635 | Non-negative on every account means non-negative over all accounts. |
| Sessions.CommittedPositionsNonNegative | src/bond_accounting/portfolio/service.py:140-191 | Under every interleaving of any number of sessions, with rollbacks anywhere, no committed state has a negative position for a user, bond and account or pooled over accounts. |
| Sessions.CommittedRowsAreOwned | src/bond_accounting/portfolio/service.py:146-157 | In every committed state of every interleaving every row lies on an account of its own user and on an existing bond, and ids are unique. |
| Sessions.Serializable | src/bond_accounting/portfolio/service.py:140-316 | The committed rows and all outcomes are those of running the finished commands one after the other. |
| Sessions.EndsAsPerformed | src/bond_accounting/portfolio/service.py:266-316 | A session that ends does so as its command would if run alone on the rows committed at that moment. |
| Chronology.AppendedHistoryNeverClamps | src/bond_accounting/portfolio/service.py:166-191 | In every state of every concurrent run, if only committed additions with non-decreasing dates changed the history of a user on a bond, it never clamps, on any account or pooled, so open and net quantity agree. |
| PortfolioService.QuantityOf | src/bond_accounting/portfolio/service.py:627-635 | The loop computes BUY minus SELL minus MATURE. |
| PortfolioService.PositionIsPriced | src/bond_accounting/portfolio/service.py:638-661 | A derived position names its user and bond, is priced exactly when something is held, at the average of the open units, and never above its cost basis. |
| PortfolioService.HistoryIsExact | src/bond_accounting/portfolio/service.py:537-565 | The history is exactly the stored rows of the user, on one account if one is given, by date and then id. |
| PortfolioService.PortfolioService.AddTransaction | src/bond_accounting/portfolio/service.py:88-217 | Table and outcome are those of the command, and consistency is kept. |
| PortfolioService.PortfolioService.ValidateTransactionShift | src/bond_accounting/portfolio/service.py:330-385 | Accepts exactly when both pair checks hold. |
| PortfolioService.PortfolioService.UpdateTransaction | src/bond_accounting/portfolio/service.py:218-328 | Table and outcome are those of the command, and consistency is kept. |
| PortfolioService.PortfolioService.DeleteTransaction | src/bond_accounting/portfolio/service.py:387-466 | Table and outcome are those of the command, and consistency is kept. |
| PortfolioService.PortfolioService.GetAllPositions | src/bond_accounting/portfolio/service.py:537-565 | Over all accounts or on one: exactly the bonds with a non-zero quantity, each once, in the order of their first rows, each derived from its own rows. |
| Grouping.GroupByBond | src/bond_accounting/analytics/service.py:799-801 | Every bond once, with all of its rows in their order. |
| Grouping.FirstSeenIsInOrder | src/bond_accounting/portfolio/service.py:556-560 | The bonds of a history, no other, ordered by their first rows. |
| Grid.GridIsExact | src/bond_accounting/yield_calc/ytm.py:67-79 | The grid is increasing, ends with the maturity, and holds exactly the dates after today congruent to the maturity. |
| Grid.FutureCouponDates | src/bond_accounting/analytics/service.py:136-143 | The generator of the analytics computes the grid, and nothing without a period. |
| Grid.FuturePaymentDates | src/bond_accounting/yield_calc/ytm.py:67-79 | The generator of the yield solver computes the same grid. |
| Grid.BuildCouponSchedule | src/bond_accounting/yield_calc/coupon_schedule.py:41-129 | The maturity-anchored schedule: its error cases, its dates, amounts and final payment. |
| Grid.ScheduleContinuesGridIff | src/bond_accounting/yield_calc/coupon_schedule.py:91-113 | A schedule started on a day continues with the grid after that day exactly when no grid date but the maturity lies below the floor of 1900-01-01. |
| Grid.ScheduleGridIsExact | src/bond_accounting/yield_calc/coupon_schedule.py:91-113 | After its first date a schedule has, in increasing order, exactly the grid dates that are not below the floor, and the maturity. |
| Grid.LastCouponDate | src/bond_accounting/analytics/service.py:146-168 | The loop computes the last coupon date or None. |
| Grid.LastCouponIsLatest | src/bond_accounting/analytics/service.py:146-168 | It is the latest grid date strictly before today, and missing exactly when that lies below the floor and the bond has not matured. |
| Grid.NeighbouringCoupons | src/bond_accounting/analytics/service.py:369-409 | Last and next coupon are one period apart off the grid and two on it; 1 to period days have accrued. |
| Grid.Sawtooth | src/bond_accounting/yield_calc/accrued_coupon.py:63-85 | The accrued coupon is linear, never capped, and drops only on the day after a coupon date. |
| Grid.AccruedIsClamped | src/bond_accounting/yield_calc/accrued_coupon.py:63-85 | Exactly the inputs out of range are refused; otherwise, on any day, the accrued coupon is the interest of the days since the last coupon, at least none and at most a period, and nothing without a period. |
| PresentValue.PresentValue | src/bond_accounting/yield_calc/ytm.py:115-131 | The loop sums the discounted payments. |
| PresentValue.PresentValueDerivative | src/bond_accounting/yield_calc/ytm.py:134-145 | The loop sums the terms of the derivative. |
| PresentValue.ValueDecreases | src/bond_accounting/yield_calc/ytm.py:115-131 | The value of future payments strictly decreases in the rate. |
| PresentValue.YieldIsUnique | src/bond_accounting/yield_calc/ytm.py:367-378 | At most one rate prices the payments at a given price. |
| PresentValue.ValueAboveTangent | src/bond_accounting/yield_calc/ytm.py:134-145 | The value lies above the line through any point with the computed derivative as slope: it is the derivative of a convex function. |
| Solver.RunBisect | src/bond_accounting/yield_calc/ytm.py:148-183 | The bisection loop on a price curve that may raise. |
| Solver.SearchIsBisect | src/bond_accounting/yield_calc/ytm.py:148-183 | Where the curve does not raise within the bounds, the loop is the bisection the theorems speak of. |
| Solver.BisectContract | src/bond_accounting/yield_calc/ytm.py:159-183 | For any function with a sign change and no root at the left end: at most 43 midpoints are priced, the final return is never reached, and the result meets the price or lies in a sign-change bracket narrower than 1e-12. |
| Solver.BisectMissesLeftRootIff | src/bond_accounting/yield_calc/ytm.py:179-182 | For a falling function the result solves the equation exactly when the left end is not itself the root, or the first midpoint happens to do. |
| Solver.SolveSolvesIff | src/bond_accounting/yield_calc/ytm.py:380-390 | For a falling convex curve a returned rate is in the bounds and solves the equation exactly when -0.5 is not the root or the first guess, the first Newton step or the first midpoint hits it; without a rate there is no root in the bounds. |
| Solver.RunNewton | src/bond_accounting/yield_calc/ytm.py:245-266 | The Newton loop with its guards, on a price curve that may raise. |
| Solver.ClimbSound | src/bond_accounting/yield_calc/ytm.py:245-266 | A rate that the loop finds lies in [-0.5, 1], and the curve is defined there and meets the price to 1e-8, for any curve. |
| Solver.NewtonSound | src/bond_accounting/yield_calc/ytm.py:245-266 | A converged rate lies in [-0.5, 1] and meets the price to 1e-8, for any function. |
| Solver.NewtonClimbs | src/bond_accounting/yield_calc/ytm.py:245-266 | Started left of the root of a convex falling function the iterates climb to it without leaving the range: no guard fires. |
| Ytm.NewtonFromBelow | src/bond_accounting/yield_calc/ytm.py:367-378 | With the starting point left of the yield no guard of the Newton loop fires: it converges between the two or uses up its iterations climbing. |
| Pricing.WholeWorthIsWorth | src/bond_accounting/yield_calc/ytm.py:115-131 | Powers with a whole number of periods agree with fractional powers where both are defined. |
| Ytm.RunCalculateYtm | src/bond_accounting/yield_calc/ytm.py:342-390 | Validation, closed form, Newton, bisection, with the loops as executed, for every coupon period, errors that escape included. |
| Ytm.InvalidInputsIff | src/bond_accounting/yield_calc/ytm.py:186-224 | YtmCalculationError is raised exactly for a negative period or rate, a nominal that is not positive, a price outside 1 to 10 nominals, or a bond that has matured. |
| Ytm.ZeroCouponIsPriced | src/bond_accounting/yield_calc/ytm.py:343-358 | A bond without coupon or period and without a stored payment is priced exactly by the returned rate. |
| Ytm.StoredScheduleIsPriced | src/bond_accounting/yield_calc/ytm.py:82-112 | A stored schedule is priced by all its payments after today, each at its own distance, and by nothing else, whatever rate and period. |
| Ytm.DerivedPaymentsAre | src/bond_accounting/yield_calc/ytm.py:82-112 | Without one the payments are a coupon on every grid date after today and the nominal with the last. |
| Ytm.ShortPeriodIsSolved | src/bond_accounting/yield_calc/ytm.py:367-390 | For periods below 730 days the curve is defined at every rate that the solvers visit. |
| Ytm.UncaughtIff | src/bond_accounting/yield_calc/ytm.py:352-360 | Below 730 days an error escapes exactly for a valid bond without a coupon period and with a stored schedule. |
| Ytm.StartsOffCurve | src/bond_accounting/yield_calc/ytm.py:380-384 | For any period an error escapes if the starting point makes the discount factor zero, or negative with a payment that is not whole periods away. |
| Ytm.LongPeriodSound | src/bond_accounting/yield_calc/ytm.py:159-163 | From 730 days on, unless all payments are whole periods away, the result is the rate at which Newton met the price, and an error escapes exactly when Newton finds none; None is never returned. |
| Ytm.LongPeriodUncaught | src/bond_accounting/yield_calc/ytm.py:380-384 | A valid bond with a coupon every 730 days whose starting point makes the calculation divide by zero. |
| LongPeriods.WholePeriodSound | src/bond_accounting/yield_calc/ytm.py:148-183 | Above 730 days with whole periods the curve is undefined at one rate in the bounds, the pole. A result lies in the bounds and, unless -0.5 is a root, meets the price, lies in a last bracket on one side of the pole, or within 1e-12 of the pole; None means that both ends have the same sign; an error escapes only from an evaluation at the pole. |
| LongPeriods.RateAtPole | src/bond_accounting/yield_calc/ytm.py:179-183 | A valid bond without a yield in the bounds for which a rate within 1e-12 of the pole is returned, although the value misses the price by more than 60 at every rate in the bounds. |
| Ytm.ParTheorem | src/bond_accounting/yield_calc/ytm.py:82-131 | On a coupon date, for any number of periods and any rate in (0, 100] percent, a bond priced at its nominal yields exactly its coupon rate. |
| Ytm.WorthNominalAtCouponRate | src/bond_accounting/yield_calc/ytm.py:115-131 | At the coupon rate the payments telescope to the nominal. |
| Ytm.DiscountMeansHigherYield | src/bond_accounting/yield_calc/ytm.py:115-131 | On a coupon date the yield exceeds the coupon rate exactly when the price is below the nominal. |
| Ytm.ParWithoutCoupon | src/bond_accounting/yield_calc/ytm.py:352-358 | A bond with coupon rate zero at its nominal yields zero on any date. |
| Ytm.YtmSolvesIff | src/bond_accounting/yield_calc/ytm.py:343-390 | With a positive period, and with a positive rate or a non-empty schedule, a numeric result lies in [-0.5, 2], and prices the payments exactly when the yield is not -0.5 or one of three evaluations hits it; None means no rate in the bounds does. |
| Ytm.YtmOfAnySchedule | src/bond_accounting/yield_calc/ytm.py:343-390 | For any non-empty schedule whatever the coupon rate, negative amounts included, a numeric result lies in the bounds and solves the equation unless -0.5 is a root; None means that both ends have the same sign. |
| Ytm.LeftRootMissed | src/bond_accounting/yield_calc/ytm.py:179-182 | A valid bond with a stored payment that yields exactly -0.5, and for which a rate above 0.75 is returned that solves nothing. |
| Ytm.SolutionNearRoot | src/bond_accounting/yield_calc/ytm.py:367-390 | A result meets the price to 1e-8 or the true root to 1e-12. |
| Ytm.GapIsConvexFalling | src/bond_accounting/yield_calc/ytm.py:367-368 | The pricing function of any payments is falling and convex, as the solvers' theorems ask. |
| Ytm.ZeroCouponPrices | src/bond_accounting/yield_calc/ytm.py:352-358 | The closed form prices the bond exactly. |
| Ytm.ClosedFormInBoundsIff | src/bond_accounting/yield_calc/ytm.py:352-358 | For every period the closed form lies in [-0.5, 2] exactly when the price is at least the value at 2 and, for periods below 730 days, at most the value at -0.5; for longer periods -0.5 is never undercut. |
| Ytm.ClosedFormExceedsBounds | src/bond_accounting/yield_calc/ytm.py:352-358 | A bond that yields 99900 percent. |
| Calendar.FutureBondCashflows | src/bond_accounting/analytics/service.py:232-291 | The loop lists every future coupon and the redemption, and the coupons within the horizon. |
| Calendar.CalendarMatchesPricing | src/bond_accounting/analytics/service.py:232-291 | Date by date the calendar pays the yield solver's derived payments times the quantity. |
| Calendar.BondPositionCashflows | src/bond_accounting/analytics/service.py:186-229 | The loop converts the stored rows, adds the nominal on the maturity row and a payment where there is none. |
| Calendar.PrincipalIsPaidOnce | src/bond_accounting/analytics/service.py:204-229 | Dates being unique, the nominal is paid exactly once and only the maturity payment is final. |
| Calendar.RowsArePaid | src/bond_accounting/analytics/service.py:186-229 | Row by row the schedule pays the stored coupon on its date, the nominal with it on the maturity date, and at most one payment more. |
| Summary.BuildPositionAnalytics | src/bond_accounting/analytics/service.py:340-427 | The three outcomes and every field of a position's analytics. |
| Summary.OpenHasAverage | src/bond_accounting/analytics/service.py:362-366 | The ValueError for an open position without an average is unreachable. |
| SummaryContents.PositionIsHolding | src/bond_accounting/analytics/service.py:340-427 | A position of a summary carries its bond, the net quantity of its rows, their average price and that price times the quantity. |
| SummaryContents.PositionHasYields | src/bond_accounting/analytics/service.py:376-398 | Its yield is the solver's for its average price until the bond has matured, its current yield the yearly coupon over that price where the inputs were acceptable. |
| SummaryContents.PositionHasCoupons | src/bond_accounting/analytics/service.py:369-375 | Its next coupon is the first grid date after today, missing exactly without a period or after maturity. |
| SummaryContents.PositionAccrues | src/bond_accounting/analytics/service.py:400-414 | What has accrued on it is the interest since the latest grid date before today, for at most a period. |
| SummaryContents.PositionsAscend | src/bond_accounting/analytics/service.py:812-835 | The positions are those of bonds with a positive net quantity, in ascending order, each once. |
| SummaryContents.OpenIsListed | src/bond_accounting/analytics/service.py:812-835 | Every such bond is among them. |
| SummaryContents.CalendarIsExact | src/bond_accounting/analytics/service.py:836-848 | The calendar of a summary, in order, holds exactly the coupons of every grid date after today and the redemptions of the open positions, times the quantity held. |
| SummaryContents.NextCouponsAreCalendar | src/bond_accounting/analytics/service.py:836-847 | The published next coupons are the earliest coupons of that calendar within 730 days, at most 100. |
| Summary.ComputeSummary | src/bond_accounting/analytics/service.py:775-868 | The loop over the sorted bonds computes the summary, or fails exactly when an error escapes from the solver. |
| Summary.SortedKeys | src/bond_accounting/analytics/service.py:812-813 | The sorted keys are the bonds of the history in ascending order, each once. |
| Summary.SummaryFailsIff | src/bond_accounting/yield_calc/ytm.py:352-360 | With periods below 730 days the summary fails exactly when an open, unmatured bond has no period, a stored schedule and an acceptable price. |
| Summary.OneStoredRowFailsSummary | src/bond_accounting/yield_calc/ytm.py:352-360 | One bond without a period, bought once, with one stored row: the summary fails. |
| Summary.OneLongPeriodFailsSummary | src/bond_accounting/yield_calc/ytm.py:380-384 | One bond with a coupon every 730 days, bought once: the summary fails. |
| SummaryLaws.SummaryBalances | src/bond_accounting/analytics/service.py:797-868 | When no walk clamps, invested minus realized by sales and redemptions is the cash paid for bonds minus the cash received, over all bonds, and the commissions are those of all exits. |
| SummaryLaws.SummaryBooksByKind | src/bond_accounting/analytics/service.py:814-866 | A summary reports the profit of sales as sales and that of redemptions as redemptions, summed over the bonds, each zero without rows of its kind. |
| SummaryLaws.AccountSummariesAddUp | src/bond_accounting/analytics/service.py:646-664 | When no account goes short on a bond, invested minus realized of the all-accounts summary is the sum of that figure over the account summaries. |
| Views.DefaultViewIsNextCoupons | src/bond_accounting/analytics/service.py:430-468 | For a fresh summary the view at 730 days and 100 events is the section computed directly. |
| Views.NextCouponsExtend | src/bond_accounting/analytics/service.py:430-468 | Enlarging horizon or limit only appends to the next coupons. |
| Views.CashflowsExtend | src/bond_accounting/analytics/service.py:471-495 | Enlarging horizon or limit only appends to the cash flows. |
| Views.CashflowsAreEarliest | src/bond_accounting/analytics/service.py:471-495 | A view shows flows of the calendar within its horizon, in order, at most its limit, none more often than it is there, and leaves one out only for a full list of flows not after it. |
| Views.NextCouponsAreEarliest | src/bond_accounting/analytics/service.py:430-468 | The same of the coupons shown, each under the name of its position. |
| AnalyticsService.PortfolioSummary.Copy | src/bond_accounting/analytics/service.py:650-655 | A deep copy is a new object with equal contents. |
| AnalyticsService.ViewedIsView | src/bond_accounting/analytics/service.py:658-664 | The coupons of a view follow their own horizon and limit, the flows theirs, and everything else is as in the full summary. |
| AnalyticsService.AnalyticsService.GetCachedSummary | src/bond_accounting/analytics/service.py:643-664 | Any read with any parameters returns a view of the cached full calendar in a new object and leaves every cached summary as it was. |
| AnalyticsService.AnalyticsService.GetCachedSummaries | src/bond_accounting/analytics/service.py:643-664 | Any number of cached reads on any days with any parameters return views of one full summary, the one cached in the end. |
| AnalyticsService.AnalyticsService.GetPortfolioSummary | src/bond_accounting/analytics/service.py:540-665 | ValueError exactly outside the four bounds; an account or an explicit day bypasses the cache; otherwise the earliest coupons and flows of the cached summary within the horizons and limits asked for. |
| AnalyticsService.AnalyticsService.Recalculate | src/bond_accounting/analytics/service.py:710-730 | Replaces exactly one entry by a fresh summary and returns a copy. |
| AnalyticsService.AnalyticsService.GetPositionAnalytics | src/bond_accounting/analytics/service.py:667-706 | The analytics of the bond if its position is open, else None. |
| AnalyticsService.AnalyticsService.GetCachedPosition | src/bond_accounting/analytics/service.py:704-706 | Without an account or a day: the first position on the bond in the cached summary. |

## Left out

- Floating-point rounding; tolerances and constants are those of the code, arithmetic is exact.
- Ytm.RunCalculateYtm: complex numbers. Where the discount factor is negative and a payment is not a whole number of periods away, Python computes a complex price; the model says that an error escapes, which is what the comparison or `math.isfinite` that follows does, unless the complex price happened to be within 1e-8. `math.isfinite` has no counterpart for reals.
- Ytm.YtmSolvesIff: payments with negative amounts, for which the price curve need not fall; Ytm.YtmOfAnySchedule says what holds of them.
- LongPeriods.WholePeriodSound: when the bisection ends at a root and when at the pole, which depends on the signs at the midpoints, and when an evaluation hits the pole, which depends on the rates that Newton's method visits. Whether a payment is a whole number of periods away is decided exactly.
- Summary.SummaryFailsIff: for periods of 730 days and more the condition depends on the rates Newton's method visits.
- Grid.FuturePaymentDates: a period of zero, for which the loop of the source never ends; the validation and the closed form or the division by zero come first.
- AsyncQueueBus.AsyncQueueEventBus.Start: assumes that no `stop` is unfinished; a `stop` that is itself cancelled, and overlapping `start` and `stop`, are not modelled.
- AsyncQueueBus.AsyncQueueEventBus.FinishPut: a publisher blocked on a full queue is an action that is not enabled; that it ever continues (liveness) is not claimed, and it may still put after `stop`.
- AsyncQueueBus.AsyncQueueEventBus.HandlerEnded: handlers are arbitrary outcomes at arbitrary times; handlers that suppress their cancellation are not modelled. A handler that removes its own subscription and returns without suspending is the step HandlerEnded followed at once by RemoveSubscription. Payloads are strings.
- AsyncQueueBus.AsyncQueueEventBus.Publish: message ids are parameters that were not used before, in place of random UUIDs.
- References to subscriptions are numbers into the list of all subscriptions, and the locals of suspended coroutines and the reply futures are records kept by message id; the order in which tasks are resumed is left open.
- Use of the bus from other threads, logging, and the return value of `_drain` beyond its count.
- AnalyticsService.AnalyticsService.GetCachedSummary: one read is one step; another task storing a summary between the look-up and the store (the last write wins) and the age of a cached calendar are not modelled.
- AnalyticsService.AnalyticsService.Recalculate: the published `portfolio.recalculated` message and the handlers of `attach_to_event_bus`.
- Summary.ComputeSummary: the three queries are a parameter holding what they return; the bond ids of the loaded bonds are assumed to be their keys. `generated_at` is omitted.
- PortfolioService.PortfolioService.AddTransaction: the events published after a commit, and the type check that the request schema makes redundant.
- Sessions: users, bonds and the owners of accounts do not change during a run; creating and deleting them is not modelled.
- SQLAlchemy and the databases: committed rows, one lock per user row, commit and rollback only. That SQLite ignores `FOR UPDATE` and serializes writers instead is not modelled.
- `datetime.date` bounds (stepping below 0001-01-01 raises OverflowError in the source).
- Authentication, market data, the HTTP and user-interface layers, settings, migrations, and the CRUD of bonds, brokers and accounts: single-branch checks and foreign calls.
