# Order lifecycle: a verified model

The repository turns a cart into an order: it reserves stock, writes a pending order with one
pending payment, and lets any number of background workers race to charge and finalise it. The
outcome is recorded once and pushed to the order's WebSocket subscribers. Its comments promise
much about every interleaving: never oversold, charged once, finalised once, told once, no
deadlock, no lost notification, a shutdown order that matters. This project models that code and
proves those promises, or shows with a concrete run that one fails and proves exactly when it holds.

`dafny verify dfyconfig.toml` checks the whole project.

## How it is organised

- `Orders` holds the rows and the three transactions as single steps, with the store invariant:
  stock conserved, one payment per order, statuses coupled. `Repository` is the repository class as
  it is written, proved against those steps. `Transactions` runs the same transactions one SQL
  statement at a time with row locks and rollback, and proves them serialisable; `Alone` proves the
  converse, that each single step has such a run. `Deadlock` proves when no wait-for cycle is reachable.
- `Fulfillment` is the protocol of overlapping workers as a state machine. `Worker` is one worker
  as it is written, proved to be a run of that protocol; `Gateway` is the payment gateway it calls.
  `Money` says when the money taken agrees with the state recorded. `Retry` is the backoff
  arithmetic in 64 bits.
- `CartKey`, `Dedup` and `Intake` are order intake: the cart's text, the reservation window, and the
  service class.
- `Shutdown` and `Sweep` are the job queue, the stop order and the reconciliation loop.
- `Hub` and `HubRuns` are the notification hub, `Notifications` and `Subscription` the race between
  sending a notification and connecting a subscriber. `Delivery` runs workers and subscribers together.
- `Collections` and `Sorting` are helpers.

Each protocol is a datatype of actions, a guard `Enabled`, a step `Apply` and a run `Exec`. A
theorem about a protocol quantifies over every run, so over every interleaving of every number of
participants. Where a promise depends on how the system is configured or used, the configuration is
a parameter and the theorem is an equivalence: the promise holds in every run if and only if the
configuration satisfies a condition on it. The concrete runs that refute it otherwise are lemmas too.

## Main results

- Store: `Transactions.Serialisable`, `Transactions.CommittedAsDrafted`, `Deadlock.DeadlockFreeIffSorted`, `Deadlock.AlwaysSomeoneRuns`,
  `Repository.OrderRepository.CreateOrder`.
- Workers: `Fulfillment.StockConserved`, `Fulfillment.KeptAsOrdered`, `Fulfillment.CoupledStates`,
  `Fulfillment.TerminalForever`,
  `Fulfillment.OneWinner`, `Fulfillment.ToldOnceTruthfully`, `Worker.Fulfiller.Fulfill`.
- Money: `Money.PaidHasReceipt`, `Money.PaidMeansChargedIff`, `Money.CancelledMeansUnchargedIff`.
- Retries: `Retry.BackoffExactIff`, `Worker.Fulfiller.Charge`.
- Intake: `CartKey.SameTextIffSameCart`, `Dedup.DeduplicatesIff`, `Intake.OrderService.CreateOrder`.
- Queue: `Shutdown.QueueConserved`, `Shutdown.SafeShutdownIff`, `Shutdown.StopReturns`,
  `Sweep.WorkersSettleInTime`.
- Notifications: `HubRuns.GapFree`, `HubRuns.ExactUntilDropped`, `HubRuns.PanicsIffSentAfterDrop`,
  `Subscription.NeverLosesIffRegisteredFirst`, `Delivery.OutcomeReachesSubscriber`.

## What is assumed

- Money is in integer cents. A store error means the transaction rolled back.
- Payment keys and transaction ids are fresh values; SHA-256 is an arbitrary function of the text.
  Where it matters that different texts have different hashes, the contract says so (`Injective`).
- One server process: one hub, one gateway whose map of charged keys lasts for the run. A worker may
  stop for good at any point; no refuting run uses that.
- PostgreSQL at READ COMMITTED: an UPDATE locks its row until the transaction ends, uncommitted
  versions are private to their writer, and a guarded UPDATE waits for a row that passes its test
  and then tests again. Foreign-key share locks are not modelled. Sequences leave gaps.
- A Go select takes any ready case; a send on a closed channel is ready and panics.
- `sort.Slice` is modelled by an insertion sort; lines have distinct products where it is used, and
  then every sort gives the same list (`Sorting.OrderedUnique`).
- What the outside decides is a parameter: query results, errors, deadlines, random draws, the clock.

## Where code and comments differ

The model follows the code.

- With `MaxRetries <= 0` the charge loop never runs and returns no error, so the order is confirmed
  without a charge (`Money.NoRetriesPaysUncharged`). The configuration is not checked for this.
- The repository asks for lines sorted by product to avoid deadlock, but the restock query has no
  ORDER BY. Two cancellations can deadlock if the rows come back in opposite orders
  (`Deadlock.UnsortedScansDeadlock`).
- A worker can cancel an order another worker has charged, when the sweeper puts both on it or when
  attempts run out of time (`Money.OverlapCancelsCharged`, `Money.TimeoutCancelsCharged`).
- The backoff's overflow guard is not enough for every base and cap (`Retry.OverflowCanSlipThrough`);
  it is for the shipped defaults. The comment says full jitter; the draw is from half the delay up.
- The hub is said to be the one place that closes and sends, but replay sends on the handler's own
  goroutine and can hit a closed channel (`HubRuns.ReplayAfterDropPanics`). It does exactly when the
  client was registered and has been dropped since (`HubRuns.PanicsIffSentAfterDrop`).
- The HTTP drain has a timeout, so the stop order alone does not rule out a send on the closed queue
  (`Shutdown.TimedOutDrainPanics`).
- A reservation is released without checking who owns it (`Dedup.LateReleaseDuplicates`), and an
  unavailable store lets duplicates through (`Dedup.ErrorsDuplicate`).

## Model

| member | source | states |
|---|---|---|
| `Orders.SumPermutation` | internal/services/order.go:88-105 | a total over lines is the same before and after sorting |
| `Orders.AcceptsMeans` | internal/repository/order.go:56-99 | when a create is accepted, with every row check and every line's stock written out |
| `Orders.TakeRows` | internal/repository/order.go:61-72 | taking distinct lines lowers each ordered product by exactly its line and no other |
| `Orders.RestockRows` | internal/repository/order.go:182-188 | giving them back raises each by exactly its line and no other |
| `Orders.CreatedRows` | internal/repository/order.go:74-97 | the added order has the draft's user and total and is pending, the added payment its key and amount and is pending, the lines are the draft's |
| `Orders.PaidRows` | internal/repository/order.go:131-147 | marking paid sets the payment's status and transaction id and the order's status, and nothing else |
| `Orders.CancelledRows` | internal/repository/order.go:159-189 | cancelling sets the two statuses and gives the lines back, and nothing else |
| `Orders.FinalisedKeepsDraft` | internal/repository/order.go:126-193 | neither outcome changes user, total, lines, key or amount of any order |
| `Orders.CreatedKeeps` | internal/repository/order.go:56-99 | a committed create keeps stock conserved and non-negative, one payment per order, statuses coupled |
| `Orders.FinalisedKeeps` | internal/repository/order.go:126-193 | marking paid or cancelling with restock keeps the same invariant, and does nothing to a payment that is not pending |
| `Repository.OrderRepository.Rollback` | internal/repository/order.go:57-98 | an error puts every row back |
| `Repository.OrderRepository.Reserve` | internal/repository/order.go:61-72 | the guarded decrements subtract exactly each line, or stop at the first line whose stock does not suffice |
| `Repository.OrderRepository.InsertRows` | internal/repository/order.go:74-97 | the three inserts add exactly the order, its lines and its payment, field by field, or fail with the error that applies |
| `Repository.OrderRepository.CreateOrder` | internal/repository/order.go:56-99 | without a database error commits if and only if every line's stock suffices and every row check holds, all written out; then the three rows hold the draft's fields and each product is lower by its line; any failure changes nothing; the product reported short is the smallest short one |
| `Repository.FirstIsSmallest` | internal/repository/order.go:52-72 | with lines sorted by product the first short line is the smallest short product |
| `Repository.OrderRepository.GetPendingByOrderID` | internal/repository/order.go:101-110 | finds the order's pending payment with the lowest id, if and only if there is one |
| `Repository.OrderRepository.MarkPaidAndConfirm` | internal/repository/order.go:126-152 | with no error, reports true if and only if the payment was pending, and then its status and id and the order's status change and no other field or row; an error changes nothing |
| `Repository.OrderRepository.PutBack` | internal/repository/order.go:178-189 | the restock loop gives back exactly the listed lines |
| `Repository.OrderRepository.FailCancelAndRestock` | internal/repository/order.go:154-193 | the same for failed and cancelled; each of the order's products is higher by its line, whatever order the query returns them in, and no other changes |
| `Transactions.StatementKeeps` | internal/repository/order.go:57-98 | every statement of every transaction keeps locks exclusive and private writes equal to what that transaction alone would have written |
| `Transactions.AbortKeeps` | internal/repository/order.go:57-98 | rolling back at any point leaves no trace |
| `Transactions.CreateCommits` | internal/repository/order.go:57-98 | a create that reaches commit is one the single-step create accepts, with the same rows |
| `Transactions.FinaliseCommits` | internal/repository/order.go:128-191 | a finalise that reaches commit leaves what the single-step finalise leaves |
| `Transactions.CommitStore` | internal/repository/order.go:57-98 | a commit equals running that transaction alone and keeps the store invariant |
| `Transactions.CommitKeeps` | internal/repository/order.go:57-98 | a commit does not disturb what other open transactions have locked or relied on |
| `Transactions.StepKeeps` | internal/repository/order.go:57-191 | every step of every interleaving keeps the system invariant |
| `Transactions.RunKeeps` | internal/repository/order.go:57-191 | so does every run |
| `Transactions.Serialisable` | internal/repository/order.go:57-191 | every interleaving of any number of transactions leaves exactly the store the committed ones give one after another in commit order, none of them rejected; stock is conserved throughout |
| `Transactions.CommittedAsDrafted` | internal/repository/order.go:83-95 | in every interleaving each committed create's order, lines and payment keep the drafted user, total, lines, key and amount, whatever commits later |
| `Transactions.AbortAnytime` | internal/repository/order.go:57-98 | any open transaction can be rolled back at any point, leaving the committed rows and all others as they were |
| `Alone.CreateRunsAlone` | internal/repository/order.go:57-98 | the converse: every create the single step accepts has a statement-level run that commits exactly that step |
| `Alone.FinaliseRunsAlone` | internal/repository/order.go:128-191 | every finalise of a pending payment has a statement-level run that commits exactly the single step |
| `Deadlock.HeldBeforeWanted` | internal/repository/order.go:52-72 | a waiting transaction's locks all come before the row it wants: payment, order, stock by product |
| `Deadlock.NoCycle` | internal/repository/order.go:52-55 | if waits climb the lock order there is no wait-for cycle of any length |
| `Deadlock.SomeoneRuns` | internal/repository/order.go:52-55 | following the waits always ends at a transaction that can run |
| `Deadlock.Unwaiting` | internal/repository/order.go:57-98 | a transaction that is not waiting can take its next step |
| `Deadlock.AlwaysSomeoneRuns` | internal/services/order.go:86-105 | with sorted carts and scans, in every reachable state with open transactions one is not waiting and can take its next statement, commit or rollback |
| `Deadlock.SortedIsDeadlockFree` | internal/services/order.go:103-105 | sorted carts and sorted restock scans suffice for deadlock freedom |
| `Deadlock.UnsortedCartsDeadlock` | internal/services/order.go:86-105 | without intake's sort two creates can deadlock |
| `Deadlock.UnsortedScansDeadlock` | internal/repository/order.go:178-189 | two cancellations whose item queries return rows in opposite orders can deadlock |
| `Deadlock.DeadlockFreeIffSorted` | internal/repository/order.go:159-189 | no reachable state of any number of transactions has a wait-for cycle, if and only if carts and restock scans are both sorted |
| `Fulfillment.StepInv` | internal/services/fulfillment.go:69-140 | every step of every worker keeps the protocol invariant, and terminal rows stay as they are |
| `Fulfillment.RunInv` | internal/services/fulfillment.go:69-140 | so does every run, with crashes and store errors anywhere |
| `Fulfillment.ReachesInv` | internal/services/fulfillment.go:69-140 | the invariant holds in every reachable state |
| `Fulfillment.StockConserved` | internal/repository/order.go:61-72 | in every reachable state, for every product, stock is between 0 and the supply, and stock plus pending and paid orders is the supply |
| `Fulfillment.CoupledStates` | internal/repository/order.go:91-95 | every order has exactly one payment, and the pair is pending/pending, paid/confirmed or failed/cancelled |
| `Fulfillment.KeptAsOrdered` | internal/repository/order.go:83-95 | in every reachable state each order, its lines and its payment hold what was ordered; for drafts as intake makes them, amount, total and the sum of price times quantity over the stored lines are equal |
| `Fulfillment.OrderedForever` | internal/repository/order.go:126-193 | in every continuation an order keeps its user, total and lines and a payment its order, key and amount |
| `Fulfillment.CrashAnywhere` | internal/services/fulfillment.go:69-111 | a worker may crash at any point and takes nothing with it but an untold notification |
| `Fulfillment.TerminalForever` | internal/repository/order.go:126-193 | a terminal payment and its order never change again in any continuation |
| `Fulfillment.OneWinner` | internal/repository/order.go:138-142 | exactly one finalise call ever returns true for a terminal payment, none for a pending one |
| `Fulfillment.ToldOnceTruthfully` | internal/services/fulfillment.go:86-110 | at most one notification per order, matching the final status; exactly one for a terminal order unless it is under way or was lost to a crash or store error |
| `Fulfillment.CompletedSettles` | internal/services/fulfillment.go:69-111 | a worker that returns without a store error leaves its order without a pending payment, for good |
| `Fulfillment.ChargedAtMostOnce` | internal/payment/fake_gateway.go:53-64 | the gateway takes the money for a key at most once |
| `Gateway.FakeGateway.Charge` | internal/payment/fake_gateway.go:42-65 | a charged key answers the same id for ever; a timeout or transient failure charges nothing; exactly which reply comes when |
| `Money.PaidHasReceipt` | internal/services/fulfillment.go:81-110 | with an attempt configured, exactly one charge was made for a paid order's key; its id is the payment's, its amount the one ordered, which for intake's drafts is the order's total and the sum of price times quantity over its stored lines |
| `Money.NoRetriesPaysUncharged` | internal/services/fulfillment.go:123-139 | with no attempt configured an order is confirmed without a charge |
| `Money.PaidMeansChargedIff` | internal/services/fulfillment.go:116-140 | in every run paid means charged, if and only if at least one attempt is configured |
| `Money.QuietNeverCancelsCharged` | internal/services/fulfillment.go:86-99 | without overlap and timeouts a cancelled order's key was never charged |
| `Money.OverlapCancelsCharged` | internal/workers/sweeper.go:90-92 | two workers on one order: one charges it, the other cancels it |
| `Money.TimeoutCancelsCharged` | internal/services/fulfillment.go:101-107 | a worker charges and hits a store error; a later one, whose attempts all run out of time, cancels the charged order |
| `Money.NoRetriesNeverCancels` | internal/services/fulfillment.go:123-139 | with no attempt configured nothing is ever cancelled |
| `Money.CancelledMeansUnchargedIff` | internal/services/fulfillment.go:81-110 | in every run cancelled means uncharged, if and only if no attempt is configured or workers never overlap and attempts never time out |
| `Retry.JitterRange` | internal/services/fulfillment.go:149-153 | the jittered wait lies between half the delay, rounded down, and the delay |
| `Retry.JitterCoversRange` | internal/services/fulfillment.go:149-153 | every wait from half the delay to twice that half is reached by exactly one draw, and no other |
| `Retry.WrapIs` | internal/services/fulfillment.go:145 | the wrapped shift is the one 64-bit signed number that differs by a multiple of 2^64 |
| `Retry.DelayFits` | internal/services/fulfillment.go:144-148 | a shift that stays in 64 bits gives the smaller of the doubled base and the cap |
| `Retry.DelayGone` | internal/services/fulfillment.go:144-148 | a shift that loses every bit, or leaves only the sign, gives the cap |
| `Retry.DelayWraps` | internal/services/fulfillment.go:144-148 | any other overflow gives the cap or the exact positive remainder, whichever is smaller |
| `Retry.BackoffExactIff` | internal/services/fulfillment.go:142-148 | the delay is min(base * 2^(attempt-1), cap) for every attempt, if and only if every positive remainder an overflow can leave is at least the cap |
| `Retry.SmallProductIsExact` | internal/services/fulfillment.go:142-148 | it suffices that the odd part of the base times the cap is below 2^63 |
| `Retry.DefaultsAreExact` | internal/config/config.go:95-96 | the default base and cap satisfy it |
| `Retry.OverflowCanSlipThrough` | internal/services/fulfillment.go:145-148 | a base and cap for which an overflowed shift passes the guard |
| `Retry.SleepAtMostCap` | internal/services/fulfillment.go:142-148 | n waits add up to at most n times the cap |
| `Worker.Fulfiller.Try` | internal/services/fulfillment.go:125-131 | a gateway call is an attempt of the protocol and changes no row; its reply is what the gateway's map, the deadline and the draw determine |
| `Worker.Fulfiller.Charge` | internal/services/fulfillment.go:116-140 | at most MaxRetries calls, stopping at the first success; each reply is a timeout, a transient failure or an acceptance with its id exactly as the gateway's map, the deadlines and the draws determine; no call and no error when none is configured; total wait between half the sum of the capped delays and all of it |
| `Worker.Fulfiller.Wait` | internal/services/fulfillment.go:135-154 | the wait is half of min(base * 2^(attempt-1), cap) plus the draw |
| `Worker.WaitsAddUp` | internal/services/fulfillment.go:124-154 | such waits add up to at most the sum of the capped delays and to at least half of it |
| `Worker.Fulfiller.Finish` | internal/services/fulfillment.go:83-110 | the rows become exactly the finalised ones, and a notification goes out if and only if this call made the transition |
| `Worker.Fulfiller.LoadPending` | internal/services/fulfillment.go:70-79 | loads a pending payment if and only if there is one; an order that does not exist has none |
| `Worker.Fulfiller.Settle` | internal/services/fulfillment.go:81-110 | a loaded payment ends paid if it was charged and failed if not, with one matching notification |
| `Worker.Fulfiller.Fulfill` | internal/services/fulfillment.go:69-111 | the whole is a run of the protocol that keeps its invariant; without a store error a pending order ends paid if and only if some configured attempt meets its deadline and either the key was charged or the gateway does not fail, with the id of the first such attempt, and failed otherwise; with nothing pending nothing happens |
| `CartKey.ItoaReads` | internal/services/order.go:148-151 | a printed number reads back and contains no delimiter |
| `CartKey.WriteCart` | internal/services/order.go:140-153 | the loop writes the text of the sorted cart |
| `CartKey.LinesTextInjective` | internal/services/order.go:149-151 | the text of the lines determines the lines |
| `CartKey.SameTextIffSameCart` | internal/services/order.go:138-153 | two carts of distinct products have the same text if and only if user and lines agree, in any order |
| `Dedup.RedisStore.Reserve` | internal/idempotency/redis_store.go:23-29 | claims the key until its expiry if and only if nobody holds it and the store does not err |
| `Dedup.RedisStore.Release` | internal/idempotency/redis_store.go:31-36 | deletes the key, whoever holds it |
| `Dedup.RunOwned` | internal/services/order.go:60-69 | over every interleaving an attempt that has not failed owns its key for its TTL |
| `Dedup.ErrorsDuplicate` | internal/services/order.go:63-66 | with the store down two identical submissions both go through |
| `Dedup.LateReleaseDuplicates` | internal/services/order.go:120-136 | an attempt that fails after its TTL frees another attempt's key, and a duplicate gets in |
| `Dedup.DeduplicatesIff` | internal/services/order.go:21-23 | any two successful creations of a cart reserved at least one TTL apart in every interleaving, if and only if Reserve never errs and no attempt releases after its own TTL |
| `Dedup.RetryAfterRelease` | internal/services/order.go:120-124 | after a failure whose release went through the next identical submission is let in |
| `Intake.PricedAt` | internal/services/order.go:88-102 | each line keeps its product and quantity and carries the price the product query gave |
| `Intake.SortedIsAscending` | internal/services/order.go:103-105 | the duplicate check and the sort give strictly ascending products |
| `Intake.DraftUnique` | internal/services/order.go:107-117 | a cart, a price list and a key determine the draft |
| `Intake.DraftMeans` | internal/services/order.go:86-117 | the draft holds exactly the request's lines at their prices in ascending product order, and total and amount are the sum of price times quantity |
| `Intake.HeldIffClaimed` | internal/services/order.go:60-69 | a key is held if and only if a claim on the same cart has not run out |
| `Intake.OrderService.KeyIffSameCart` | internal/services/order.go:138-153 | with a hash without collisions, two carts have the same key if and only if the user and the lines agree, in any order |
| `Intake.OrderService.HasDuplicate` | internal/services/order.go:51-58 | finds a repeated product if and only if there is one |
| `Intake.OrderService.Build` | internal/services/order.go:86-102 | prices all lines and adds up price times quantity, or names the first unknown product of the request |
| `Intake.OrderService.Prepare` | internal/services/order.go:86-117 | total and payment amount are both the sum over the sorted lines, which are the request's lines |
| `Intake.OrderService.Place` | internal/services/order.go:71-124 | exactly one order of this cart, its fields written out, is created, or nothing; which error applies |
| `Intake.OrderService.Admit` | internal/services/order.go:51-69 | duplicate lines and held keys are refused, otherwise the key is reserved for one TTL unless the store errs |
| `Intake.OrderService.CreateOrder` | internal/services/order.go:50-136 | one order per accepted call, with the request's lines at their prices and a payment of what they cost, handed off once; refused as a duplicate if and only if the same user claimed the same lines, in any order, less than five minutes ago; any other outcome leaves the tables as they were and, past the duplicate checks, frees the key |
| `Shutdown.QueueConserved` | internal/workers/pool.go:46-83 | in every reachable state accepted ids are, with multiplicity, queued, in work or fulfilled, begun in the order they were accepted, and the queue is within its size |
| `Shutdown.OfferedFate` | internal/workers/pool.go:43-54 | an offered id goes to the back of the queue or to an idle worker, hits the closed channel, or is left, the last only if the queue is full or the pool is stopping |
| `Shutdown.SweepEnqueues` | internal/workers/sweeper.go:90-92 | a sweep of a running pool with room for all its ids can enqueue them all, in order |
| `Shutdown.NoWorkAfterPoolStops` | internal/server/server.go:96-108 | once the hub is being stopped every worker has exited |
| `Shutdown.OrderedStopIsSafe` | internal/server/server.go:96-108 | with HTTP drained and a worker, no send hits the closed channel and Stop returns only when every accepted id is fulfilled |
| `Shutdown.TimedOutDrainPanics` | internal/server/server.go:151-157 | a handler that outlives the drain sends on the closed channel |
| `Shutdown.NoWorkersLoseJobs` | internal/workers/pool.go:57-62 | without workers accepted jobs are abandoned |
| `Shutdown.WaitingStep` | internal/workers/pool.go:70-83 | while Stop waits only workers move, and each step uses up exactly one of those left |
| `Shutdown.SomeWorkerMoves` | internal/workers/pool.go:76-83 | as long as a worker has not exited, some worker can take a step |
| `Shutdown.StopReturns` | internal/workers/pool.go:64-74 | with HTTP drained, the steps made during Stop's wait and those left always add up to a number fixed at its start, one is possible until all workers have exited, and Stop returns if and only if they have |
| `Shutdown.SafeShutdownIff` | internal/server/server.go:137-157 | shutdown is safe in every run, if and only if HTTP always drains and there is a worker or the queue holds nothing |
| `Sweep.Pool.Process` | internal/workers/pool.go:43-54 | accepts if and only if the send is ready, the channel open and quit not picked: by direct hand-over to a waiting worker, else at the back of the buffer; panics if and only if the channel is closed and quit not picked |
| `Sweep.Pool.Receive` | internal/workers/pool.go:76-83 | workers take jobs from the front, losing none |
| `Sweep.Pool.Stop` | internal/workers/pool.go:64-74 | closes both channels; with a worker everything buffered is received, without one it stays |
| `Sweep.Reclaim` | internal/workers/sweeper.go:78-93 | from an empty queue, at least as many of the listed orders as the queue holds are accepted, from the front, however fast workers receive; a failed query enqueues nothing |
| `Sweep.RoundShrinks` | internal/workers/sweeper.go:78-93 | a sweep and a clean drain finalise at least min(batch, queue size) of the orders stale at an earlier time, or all, although orders that went stale later compete for the batch |
| `Sweep.RoundsShrink` | internal/workers/sweeper.go:78-93 | k of them finalise at least k times as many |
| `Sweep.BatchAsked` | internal/workers/sweeper.go:79-82 | the batch is the configured one if positive and the queue's size otherwise |
| `Sweep.CeilingIsLeast` | internal/workers/sweeper.go:78-93 | the number of sweeps stated is the least whose batches hold all the stale orders |
| `Sweep.SweptInTime` | internal/workers/sweeper.go:78-93 | N stale orders are gone after ceil(N / min(batch, queue size)) sweeps |
| `Sweep.OldestFirst` | internal/repository/order.go:195-205 | an order passed over is no older than any order the sweep is sure to enqueue |
| `Sweep.YoungerMeansAllOld` | internal/repository/order.go:195-205 | if a younger order made it into the sure part of a batch, every older one did |
| `Sweep.HandledIsRound` | internal/workers/sweeper.go:78-93 | any stretch of the worker protocol in which the accepted orders got a clean worker is such a round, whatever else runs |
| `Sweep.WorkersSettleInTime` | internal/workers/sweeper.go:59-93 | for runs of the worker protocol itself, each sweep with its own later cutoff: after k sweeps with clean workers, k * min(batch, queue size) >= N, none of the N orders that were stale is pending |
| `Hub.EventLoop.OnRegister` | internal/ws/hub.go:44-50 | adds the client to its order's set |
| `Hub.EventLoop.Remove` | internal/ws/hub.go:80-94 | the client is unregistered and its channel closed once, an empty set dropped, every other client unchanged; a second call does nothing |
| `Hub.EventLoop.OnOutbound` | internal/ws/hub.go:55-66 | the payload is at the back of the channel of every subscriber that held fewer than 32, every other subscriber is closed, nobody else is touched, whatever the order; reports true if and only if one had room |
| `Hub.EventLoop.OnStop` | internal/ws/hub.go:68-75 | closes every registered client's channel once |
| `Hub.EventLoop.Notify` | internal/ws/hub.go:113-129 | true means the payload is on some subscriber's channel; false is exact unless the hub stopped |
| `Hub.FannedTidy` | internal/ws/hub.go:55-66 | a fan-out, stopped at any point, keeps sets non-empty, channels of registered clients open and closed ones closed once |
| `Hub.FannedAt` | internal/ws/hub.go:55-66 | what a delivery does to each client's channel and registration, written out |
| `Hub.RemovedAt` | internal/ws/hub.go:84-94 | for every well-formed hub a removed client is unregistered with its channel closed, all others unchanged |
| `Hub.StoppedAt` | internal/ws/hub.go:68-75 | the stop leaves no one registered and closes exactly the registered clients' channels |
| `Hub.RecordsTell` | internal/ws/client.go:28-44 | what was received and what waits are, with multiplicity, the live and the replayed payloads |
| `HubRuns.StepTidy` | internal/ws/hub.go:41-94 | every hub event keeps that, apart from a handler's send on a closed channel |
| `HubRuns.OutboundEffect` | internal/ws/hub.go:55-66 | what a delivery does to each client: queued, evicted if full, untouched if for another order |
| `HubRuns.RunTracked` | internal/ws/hub.go:41-78 | over every run, each client's queue history is tied to what was notified since it registered |
| `HubRuns.GapFree` | internal/ws/hub.go:41-78 | a client still registered has received, or has waiting on its channel, exactly the payloads notified for its order since it registered, in order, merged with those replayed to it; nothing is lost, repeated or reordered |
| `HubRuns.ChannelHolds` | internal/ws/client.go:46-88 | over every run, received and waiting together are what was put on the channel, in that order, for any client |
| `HubRuns.PumpDrains` | internal/ws/client.go:57-88 | the write pump can always empty the channel and has then received all that was put on it |
| `HubRuns.PrefixUntilDropped` | internal/ws/hub.go:41-78 | any client, registered or not, got a contiguous beginning of that sequence |
| `HubRuns.ExactUntilDropped` | internal/ws/hub.go:52-75 | the live payloads a dropped client received or has waiting are exactly those notified from its registration up to one event, which was its own leaving, the stop, or a payload for its order that found its buffer full |
| `HubRuns.RunShut` | internal/ws/hub.go:80-94 | over every run a channel is closed if and only if its client was registered and is not any more |
| `HubRuns.PanicsIffSentAfterDrop` | internal/ws/client.go:46-55 | after any run the next event panics, if and only if it is a handler's send to a client that was registered and has been dropped |
| `HubRuns.NoPanicIffSendsBeforeDrop` | internal/ws/client.go:46-55 | a whole run stays clear of a panic, if and only if each replay is sent while its client is registered, or never was |
| `HubRuns.CloseOnce` | internal/ws/hub.go:80-94 | if each client registers once, no channel is closed twice, the hub never sends on a closed one and keeps no empty set; a run panics if and only if some replay came after its client was dropped |
| `HubRuns.RegisteredTwicePanics` | internal/ws/hub.go:44-50 | registering a dropped client again makes the hub send on a closed channel |
| `HubRuns.ReplayAfterDropPanics` | internal/ws/client.go:46-55 | a replay can send on a channel the hub has closed |
| `Notifications.NotificationService.Send` | internal/services/notification.go:44-66 | adds one row and offers it to every subscriber; marked sent if and only if one had room, and then it is on that client's channel; a row that cannot be recorded is not pushed |
| `Notifications.SendIsThreeSteps` | internal/services/notification.go:44-66 | run without interruption, Send is persist, push and mark of the interleaved protocol |
| `Subscription.IdsForExact` | internal/api/handlers/ws_handler.go:124-131 | listing an order's notifications gives exactly its rows |
| `Subscription.IdsForAscend` | internal/api/handlers/ws_handler.go:124-131 | oldest first |
| `Subscription.EventEffect` | internal/ws/hub.go:41-78 | nothing queued is taken back, only a registration registers, and a client still registered after a delivery was queued it |
| `Subscription.StepAllCovered` | internal/api/handlers/ws_handler.go:114-131 | every step keeps each row accounted for at each registered client: to be pushed, queued, or still to be replayed |
| `Subscription.RunCovered` | internal/api/handlers/ws_handler.go:114-131 | so does every run |
| `Subscription.RegisterFirstNeverLoses` | internal/api/handlers/ws_handler.go:114-131 | registering before listing, with rows persisted before they are pushed, loses nothing in any interleaving |
| `Subscription.ListFirstLoses` | internal/api/handlers/ws_handler.go:118-121 | listing before registering can lose a notification |
| `Subscription.NeverLosesIffRegisteredFirst` | internal/services/notification.go:50-55 | a subscriber that stays registered, whose list succeeds and whose replay drops nothing, has received or has waiting every notification of its order, if and only if it registers before it lists |
| `Subscription.SeenAtMostTwice` | internal/api/handlers/ws_handler.go:118-121 | in every run a row goes through a client's channel at most twice, once live and once by replay |
| `Subscription.SentMeansQueued` | internal/services/notification.go:57-62 | in every run a row marked sent is waiting on, or was received from, some subscriber's channel |
| `Subscription.LateSubscriberReceives` | internal/api/handlers/ws_handler.go:118-131 | a client that connects after the notification went out to nobody receives it by replay |
| `Delivery.Roomy` | internal/ws/client.go:19-22 | with at most one row per order a client holds at most one live and one replayed payload, so its queue has room |
| `Delivery.StepJoint` | internal/services/fulfillment.go:92-110 | every step of workers, senders, hub and subscribers together keeps both protocols' invariants, and the rows on file are the notifications recorded |
| `Delivery.QueuesNeverFill` | internal/ws/client.go:46-55 | in every joint run every client's queue has room and no replay is dropped |
| `Delivery.NeverEvicted` | internal/ws/hub.go:61-64 | in every joint run a client that does not leave stays registered from joining until the hub stops |
| `Delivery.OutcomeReachesSubscriber` | internal/api/handlers/ws_handler.go:114-131 | in every joint run, a connected subscriber that has not left has received or has waiting the one notification of its finalised order, saying how the payment ended, once it has been pushed; nothing else ever goes through its channel, and that at most twice |
| `Delivery.WorkLifts` | internal/services/fulfillment.go:69-111 | workers can do beside the subscribers whatever they can do alone |
| `Delivery.NoticesLift` | internal/services/notification.go:44-66 | so can senders, hub and subscribers beside the workers |
| `Sorting.OrderedUnique` | internal/services/order.go:141-145 | with distinct keys every sort gives the same list |

## Left out

- Gin handlers, routes, middleware, metrics, JWT and the socket handshake: plumbing over libraries; `Connect` is modelled from registration to replay only.
- User and product services and repositories: field copying, no hard invariant. Admin stock edits are not modelled; supply is fixed.
- Floating-point money and the rounding of NUMERIC(12,2) columns: amounts are integer cents.
- 32-bit INTEGER columns and 64-bit Go ints: stock is proved to stay between 0 and the supply, totals and ids are unbounded.
- PostgreSQL, GORM and Redis internals: ambiguous commits, connection loss, foreign-key share locks and lock timeouts other than as aborts.
- Socket writes, pings and write deadlines: the write pump appears as the step that takes a payload off the queue and as an unregistration.
- More than one replica: the hub and the gateway's map are per process.
- Configuration loading, migrations, Docker and Kubernetes files, the load script, the no-op idempotency store.
- The response object built after an order is created.
- Sweep.WorkersSettleInTime: orders created during the sweeps carry a creation time not before the age looked at, as the database clock gives them; the queue is drained between two sweeps.
- Worker.Fulfiller.Fulfill: one worker's steps without others in between; the interleavings are those of `Fulfillment`, step for step.
- Intake.OrderService.CreateOrder: one call at a time; interleaved calls are those of `Transactions` for the tables and of `Dedup` for the reservations.
- Fulfillment.StepInv: a create is one step, as `Transactions.Serialisable` allows.
- Fair scheduling: proved are the bounds (calls, waits, sweeps, steps of Stop) and that some transaction or worker can always move, not that the scheduler lets it. The time of one database call is bounded by its context only.
