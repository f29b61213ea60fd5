# Verified model of the eIBC client

The eIBC client watches demand orders on the hub, picks a liquidity provider (LP) for each, waits until
full nodes have validated the order's block, and then fulfils it with the LP's funds. This project models
its two hardest parts in Dafny 4.11 and proves what they are for.

## The order protocol

`protocol.dfy` is a state machine of 21 kinds of step. A step is one critical section (under the pool lock
or the LP lock), one write to a shared order outside any lock, or one transfer between queues. Pointers to
orders are indices into a heap of orders, so an order replaced in the pool by another with its id, or
written through a second pointer, is a different thing from a fresh copy. A run is any sequence of enabled
steps: any number of goroutines, any interleaving. Four observers that no step reads record every
reservation ever made (`ledger`), which one an order would release or debit now (`link`), what each balance
would be had nothing been debited (`base`), and which ids were sent (`sent`).

* `in_flight.dfy`: at most one copy of an order is in flight, and an id is dispatched once per stay in the pool.
* `links.dfy`: which orders hold a reservation, in every reachable state.
* `money.dfy`, `money_theorems.dfy`: reserved funds are the open reservations, balances and debits add up,
  through a step or a run exactly when it is balanced; and when a clamp is taken.
* `lost.dfy`: reservations that nobody will end: by which steps they come about, and what they cost.
* `stuck.dfy`: orders that stay marked in the pool: how they get there, and that they and their ids never get out.
* `concrete_runs.dfy`: three short runs in which that happens.
* `lp_floor.dfy`: no spendable balance goes negative; no order gives the operator less than its minimum share.
* `lp.dfy`, `pool.dfy`, `tracker.dfy`: the objects whose fields the source updates in place, as classes.
* `order_checks.dfy`, `fulfiller.dfy`, `fulfiller_sums.dfy`, `results.dfy`, `batch_results.dfy`, `load_lps.dfy`,
  `intake.dfy`, `readers.dfy`: the bodies of the goroutines, as methods. Each is proved to be a list of steps of
  the state machine (`Exec(old(t.Now()), steps) == Some(t.Now())`), which it adds to the tracker's `history`.
* `objects.dfy`: a tracker's history leads from the start to where it is, whatever was called, and so is a run;
  what holds over all runs is stated there for the objects.
* `dispatch.dfy`, `slices.dfy`, `failed_orders.dfy`, `node_client.dfy`, `keys.dfy`: batches and transactions,
  the record of failed orders, the validation cache, the two packet-key codecs.

## The wire codec

`varint.dfy` and `skipper.dfy` are base 128 varints and the skipper for unknown fields: a depth-counting loop,
the recursive grammar of what it accepts, and the stricter one of the Protocol Buffers encoding specification
("Message Structure" and "Groups"). `parser.dfy` is the reading loop all generated `Unmarshal` functions share,
over a table of the message's fields; `printer.dfy` is what reading does to written values; `buffers.dfy` and
`repeated.dfy` write into a buffer from its end. `authz.dfy`, `authz_marshal.dfy`, `demand_order.dfy` and
`demand_order_marshal.dfy` are the messages, `authz_wire.dfy` and `demand_order_wire.dfy` their bytes, tag by
tag. `grants.dfy` joins both parts: what an LP encodes into its grant is what the LP table holds after a reload.

## Assumptions

* `sdk.Coins` is a finite map from denom to a positive amount. `Sub` demands that no amount becomes negative,
  `SafeSub` reports it, `IsAllGTE` compares denom by denom, `IsAnyGT` skips denoms the right-hand side lacks.
* `LegacyDec` is an integer scaled by ten to the eighteenth, rounded half to even in a product.
* SHA-256 of the JSON of id and fee is injective.
* The order in which Go scans a map, a shuffle, the answers of nodes, the chain and the balance and grant
  queries, and the clock are arbitrary: parameters, or choices the proofs make nothing of.
* A byte slice is shorter than two to the sixty-third.
* The codecs of `Coin` and `LegacyDec` are parameters with the law that reading undoes writing.

## What the proofs found

* Four kinds of step lose a reservation, and no others do (`StepLoses`): another LP is chosen while the first
  keeps its funds; a validation error; a transaction after a failed one; and an upsert for an id the pool holds.
  If the pool's order is unmarked it is displaced; if it is marked, the order just taken in is dropped with the
  funds reserved for it (`SkippedOrderLeaks`). Only an order that lost its place that way can come back, with a
  late retry or update. Once nothing is left to do, an LP's reserved funds are exactly what was lost
  (`IdleMeansReservedIsLost`).
* An order stays marked in the pool for good after a validation error, a transaction that comes after a failed
  one, an RPC error, or when it comes back into the pool with its mark on, from a late retry or update
  (`StepSticks`, `ValidationErrorSticks`). In the first two cases its funds stay reserved (`SticksWithFunds`). No
  order with its id is ever popped, sent out or settled again (`StuckForGood`), and later orders with its id
  are dropped with their funds (`StuckIdSwallows`).
* Overwriting a price under a reservation does no harm by itself. Funds and reservations part when the order
  is evicted, has failed or is fulfilled at another price, except where the clamp happens to help
  (`EvictReleaseExact`, `FailExact`, `DebitExact`, `OverwrittenPriceLeaks`); when a reload installs a fresh LP while
  reservations on it are open; and when a refreshed balance is below what is reserved (`StepBooks`).
* The validation cache forgets which level it was filled at. A question at a higher level can be answered from
  an entry for a lower one, and then the answer can be wrong (`LowerLevelAnswersForHigher`); which sequences of
  questions lead to that, and that no others do, is `CacheIsRightExactly`. Otherwise an order is sent out exactly
  when enough nodes confirm it (`SentOutMeansConfirmed`).
* `newNodeClient` rejects only zero confirmations. A negative number passes, and then the client may say yes with
  no node ever confirming anything (`NegativeConfirmations`): up to the last height it got answers about, and
  wherever no node fails (`NegativeNeverRefuses`).
* The skipper does not compare the numbers on the two tags of a group, nor check those of nested fields, so it
  accepts what the encoding specification does not: the two bytes 0x43 0x3c for one
  (`MismatchedGroupIsAccepted`, `AcceptedIsStandardExactly`).
* A proof height with a byte 0x2f in its eight bytes is read as zero (`ProofHeightParses`), and a packet key
  that ends in a zero byte is not decoded to itself (`PacketKeyRoundTrip`).

## Model

| member | source | states |
|---|---|---|
| `Money.StepBooks` | eibc/lp.go:57-88 | In every reachable state in which funds and ledger agree, they agree after a step exactly when it is balanced: a reservation that ends does so at the price it was made at, or hits the clamps when it was all there was; a fresh LP owes nothing; a refreshed balance covers what is reserved. All other steps, price overwrites among them, are harmless |
| `Money.EvictReleaseExact` | eibc/order_tracker.go:249-252 | The release of an evicted order keeps an LP's reserved funds equal to its open reservations exactly when the order's price is now what it reserved, or exceeds the reserved funds and the reservation was all there was |
| `Money.FailExact` | eibc/order_fulfiller.go:116-136 | The same for the release after a failed transaction, RPC error or not |
| `Money.DebitExact` | eibc/order_fulfiller.go:138 | The same for the debit of a fulfilled order, for the reserved funds and for the balance |
| `MoneyTheorems.InBooksThroughout` | eibc/lp.go:57-88 | Over every run: funds and ledger agree at all its states if and only if all its steps are balanced |
| `MoneyTheorems.ReservedIsOwed` | eibc/lp.go:57-88 | In such a run an LP's reserved funds are, per denom, the sum of its reservations not yet released or debited, and its balance covers them |
| `MoneyTheorems.BalanceIsConserved` | eibc/lp.go:74-88 | And between two moments at which nothing sets the balance from outside, balance plus total debits stays the same |
| `MoneyTheorems.ClampExactly` | eibc/lp.go:63-88 | While funds and ledger agree, a balanced release or debit takes the clamp exactly when the order's price is no longer the reserved amount |
| `MoneyTheorems.NoClamp` | eibc/lp.go:63-88 | Over every run in which no price is changed under a reservation, neither clamp to the empty coin set is ever taken |
| `MoneyTheorems.SteadyRunIsBalanced` | eibc/order_poller.go:191-199 | Such a run is balanced |
| `Links.RunOrderly` | eibc/order_tracker.go:299-340 | In every state of every run, each order that can be popped, and each copy under way before its result is out, holds an open reservation on the order's own LP; no two orders hold the same one; an order not yet offered to the pool is unmarked and not in it |
| `LostFunds.StepLoses` | eibc/pool.go:33-44 | For every kind of step: nobody will end a reservation after it exactly when nobody would before and its order does not come back by it, or the step loses it: another LP chosen, a validation error, a transaction never attempted, or an upsert that displaces the order or drops it as just taken in |
| `LostFunds.LostIsHistory` | eibc/order_tracker.go:199-233 | In every run, the reservations nobody will end are exactly those some step of the run lost and no later step regained |
| `LostFunds.ReservedIsHeldAndLost` | eibc/lp.go:57-72 | At every state of a balanced run an LP's reserved funds are the sum of what live orders hold on it and of what the run's steps have lost |
| `LostFunds.IdleMeansReservedIsLost` | eibc/order_fulfiller.go:115-151 | Once nothing is under way and everything pooled is marked, the reserved funds are exactly what the run's steps have lost, and empty if and only if each such reservation was for nothing |
| `ConcreteRuns.SkippedOrderLeaks` | eibc/order_eventer.go:137-164 | A balanced run: an order read again while it is marked reserves funds a second time and is dropped; at the end the pool is empty, all is settled, and those funds are still reserved |
| `ConcreteRuns.OverwrittenPriceLeaks` | eibc/order_poller.go:191-199 | A run: a price is lowered at work, then the transaction fails; at the end nothing is owed and funds are still reserved |
| `ConcreteRuns.ValidationErrorSticks` | eibc/order_tracker.go:205-209 | A balanced run of five steps that ends with an order stuck in the pool and its funds reserved |
| `StuckOrders.StepSticks` | eibc/order_tracker.go:199-233 | For every kind of step: an order is the pool's entry, marked, without a copy after it exactly when it was before, or the step is its validation error, its abandonment, its unreported failure, or brings it back to the pool marked |
| `StuckOrders.SticksWithFunds` | eibc/order_tracker.go:205-209 | A step that makes an order stuck leaves it a reservation exactly when it is the validation error or the abandonment |
| `StuckOrders.StuckForGood` | eibc/pool.go:62-79 | In every run a stuck order stays the pool's marked entry, and no later step pops, checks, sends out, fulfils or settles an order with its id |
| `StuckOrders.StuckIdSwallows` | eibc/pool.go:37-41 | An order taken in later under that id is dropped at its upsert, and what it reserved is lost |
| `StuckOrders.StuckFundsAreNeverFreed` | eibc/order_tracker.go:205-209 | In a balanced run what a stuck order reserved stays open, is lost, and stays covered by its LP's reserved funds at every later moment at which the LP is in the table |
| `MoneyTheorems.StepMoney` | eibc/lp.go:57-88 | Every step that changes no price under a reservation keeps funds, ledger and prices in agreement |
| `Objects.TrackerInvariants` | eibc/order_tracker.go:23-50 | Of a tracker object, whatever methods were called: each of its orders gives the minimum share, each LP was let in by a grant, and an order under way has one copy, is the pool's entry for its id, and is marked |
| `Objects.TrackerDispatchesOnce` | eibc/order_tracker.go:178-197 | Between two dispatches of an id in the object's history the id was taken out of the pool |
| `Objects.TrackerFunds` | eibc/lp.go:57-72 | If the object's history is balanced, an LP object's reserved funds are what orders still hold on it and what the history has lost |
| `InFlight.StepKeeps` | eibc/pool.go:11-79 | All 21 kinds of step keep the flight invariant, price overwrites, duplicate tracking and reloads included |
| `InFlight.AtMostOneInFlight` | eibc/order_tracker.go:139-233 | In every reachable state an order between its pop and the handling of its result has exactly one copy, is the pool's entry for its id, is marked checking or valid, and no other order in flight has its id |
| `InFlight.DispatchedOncePerStay` | eibc/order_tracker.go:178-197 | Between two dispatches of one id lies a step that took the id out of the pool |
| `LpFloor.SpendableNeverNegative` | eibc/lp.go:90-95 | Over every run whose refreshed balances cover what is reserved, clamps, price overwrites and reloads included, `spendableBalance` never subtracts below zero |
| `LpFloor.RefreshBelowReserved` | eibc/lp.go:262-275 | A refresh keeps every spendable balance non-negative exactly when the new balance covers the reserved funds |
| `LpFloor.ShareFloor` | eibc/lp.go:137-211 | Over every run, reloads that fail midway included, each LP is keyed by its own address and has at least one criterion, each for a supported rollapp with the minimum share; so has every order |
| `LpModel.HasMeansRoom` | eibc/lp.go:41-43 | `hasBalance` holds exactly when, denom by denom, reserved plus amount is at most the balance |
| `LpModel.ReserveKeepsSolvent` | eibc/lp.go:57-61 | Reserving keeps the balance above the reserved funds exactly when the amount was spendable |
| `LpModel.ReleaseAndDebitKeepSolvent` | eibc/lp.go:63-88 | Releasing and debiting any amount, clamped or not, keep the balance above the reserved funds |
| `LpObject.Lp.ReserveFunds` | eibc/lp.go:57-61 | The amount is added to the reserved funds; the balance stays |
| `LpObject.Lp.ReleaseFunds` | eibc/lp.go:63-72 | The amount is taken off the reserved funds, which end empty if it does not fit; the balance stays; solvency is kept |
| `LpObject.Lp.DebitReservedFunds` | eibc/lp.go:74-88 | The same for reserved funds and balance, each clamped on its own; solvency is kept |
| `LpObject.Lp.SpendableBalance` | eibc/lp.go:90-95 | The result and the reserved funds add up to the balance |
| `LpObject.Lp.HasBalance` | eibc/lp.go:41-43 | True exactly when, denom by denom, reserved funds and amount together are within the balance |
| `SdkCoins.MinFeeIsExact` | eibc/order_tracker.go:377-383 | The rounding of the decimal product never shows: the minimum fee is the exact product truncated once |
| `SdkCoins.FeeSuffices` | eibc/order_tracker.go:377-383 | A fee is at least the minimum exactly when, in units of the decimal, it is less than one whole below the product of amount and percentage, or not below a negative one |
| `LpModel.BetterIsStrictWeakOrder` | eibc/order_tracker.go:395-410 | The comparison of `selectBestLP` is a strict weak order whose ties are exactly equal settlement flags and shares |
| `LpModel.EligibleMeans` | eibc/order_tracker.go:348-393 | The six criteria denom by denom: granted rollapp, allowed denom, no price over a limit set for its denom, spend limit, fee of at least the truncated percentage, and room in the balance on top of what is reserved |
| `LpModel.BestChoiceMeans` | eibc/order_tracker.go:395-410 | An eligible LP is a best choice exactly when it requires settlement only if all eligible ones do, and none that agrees with it on that gives the operator more |
| `LpModel.BestChoicesAgree` | eibc/order_tracker.go:318-330 | Any two best choices, whatever the shuffle, give the order the same settlement requirement and share |
| `Tracker.Shuffle` | eibc/order_tracker.go:342-346 | The result is a permutation |
| `Tracker.OrderTracker.PassesFilter` | eibc/order_tracker.go:352-390 | The body of the filter loop says yes exactly when all six criteria hold |
| `Tracker.OrderTracker.FilterLpsForOrder` | eibc/order_tracker.go:348-393 | Exactly the LPs that meet all six criteria, each once, in whatever order the map is scanned |
| `Tracker.OrderTracker.SelectBestLp` | eibc/order_tracker.go:395-410 | The first after sorting is one of the given LPs, and none of them is better |
| `Tracker.OrderTracker.ChooseLp` | eibc/order_tracker.go:299-330 | Only an LP that passes the filter is chosen, and none exactly when no LP does; the order's own LP exactly if it is in the table and passes; otherwise one that requires settlement only if all that pass do, and than which none that agrees gives the operator more, for every shuffle |
| `Tracker.OrderTracker.KeepLp` | eibc/order_tracker.go:311-320 | A still eligible LP is kept: no funds move, and of the order only the settlement flag is read again |
| `Tracker.OrderTracker.TakeLp` | eibc/order_tracker.go:327-337 | Re-selection writes the LP, its settlement flag and its share into the order and reserves the price on it; nothing else changes, the first reservation stays open |
| `Tracker.OrderTracker.FindLpForNew` | eibc/order_tracker.go:299-340 | A new order finds no LP exactly when none passes the filter, and nothing changes; otherwise it is appended with the terms of an LP that passes, whose reserved funds grow by its price, and nothing else changes |
| `Tracker.OrderTracker.FindLpForPooled` | eibc/order_tracker.go:240-247 | False exactly when no LP passes the filter, and nothing changes. If the order's own LP passes, the step is the keeping one, nothing is reserved and only the flag is read again; if not, the order moves to an LP that passes, with that LP's terms, and its price is reserved there |
| `Tracker.OrderTracker.ReleaseFor` | eibc/lp.go:230-238 | The order's current price is taken off the reserved funds of its current LP, if that is still in the table, and no other LP changes |
| `Tracker.OrderTracker.DebitFor` | eibc/lp.go:240-248 | The same off reserved funds and balance |
| `Tracker.OrderTracker.constructor` | eibc/order_tracker.go:57-97 | A new tracker is in the protocol's start state |
| `Pool.OrderPool.AddOrder` | eibc/pool.go:11-23 | The new map is the old one with the list added, occupants staying |
| `Pool.OrderPool.GetOrder` | eibc/pool.go:25-31 | The pool's entry for the id, if there is one, and its id is that id |
| `Pool.OrderPool.UpsertOrder` | eibc/pool.go:33-44 | The new map is the old one with the list upserted |
| `Pool.OrderPool.SetValid` | eibc/pool.go:53-60 | Marks the pool's entry for the id, whichever order that is |
| `Pool.OrderPool.PopOrders` | eibc/pool.go:62-79 | Distinct unmarked entries, at most the limit, all now marked and nothing else changed; if fewer than the limit, no unmarked entry is left |
| `Pool.AddAllKeepsOccupants` | eibc/pool.go:15-22 | Adding moves no occupant, keeps the map keyed by id, and leaves every added id occupied |
| `Pool.UpsertAllKeepsMarked` | eibc/pool.go:37-43 | Upserting never displaces an order that is being checked or was sent, and leaves every upserted id occupied |
| `Pool.AddAllSpares` | eibc/pool.go:15-22 | Adding a list leaves every id alone that has an occupant or is not in the list |
| `Pool.AddAllSeats` | eibc/pool.go:15-22 | A vacant id goes to the first order of the list that has it |
| `Pool.UpsertAllSpares` | eibc/pool.go:37-43 | Upserting a list leaves every id alone whose occupant is checking or valid, or that is not in the list |
| `Pool.UpsertAllSeats` | eibc/pool.go:37-43 | Any other id goes to the last order of the list that has it, where those are not marked themselves |
| `Pool.MarkAllAt` | eibc/pool.go:67-77 | Exactly the popped orders are marked, and nothing else about any order changes |
| `OrderChecks.CheckOrders` | eibc/order_tracker.go:139-163 | Takes at most a hundred orders that were not marked, marks them as being checked and leaves all others alone, and hands them on with proof heights that never rise; as a run of the protocol, one pop per order |
| `OrderChecks.CheckOne` | eibc/order_tracker.go:200-231 | One order's turn: on an error nothing changes and the mark stays; found valid, it is marked so; evicted exactly when it has expired or no LP passes the filter, with its id out of the pool and its price off its LP's reserved funds; otherwise unmarked, with its own LP if that passes the filter and another one, its price reserved there, if not |
| `OrderChecks.GetValidAndRetryOrders` | eibc/order_tracker.go:199-233 | Each order is asked about at its proof height, at level 2 if its settlement flag is set and level 1 if not; the valid list is the sublist found valid, the retry list the sublist to try again, both in order; the whole is a run of the protocol |
| `OrderChecks.AskNodes` | eibc/order_tracker.go:201-214 | The nodes are asked about the order's rollapp and proof height, at level 2 if its settlement flag is set and level 1 if not; no answer is an error, yes is valid, and no is not yet, with the deadline; only the cache changes |
| `OrderChecks.SentOutMeansConfirmed` | eibc/order_tracker.go:199-216 | When the nodes answer, an order that requires settlement validation is sent out if and only if at least the configured number of its rollapp's nodes report level 2 at that moment, any other if and only if they report level 1; for levels that never rise with height nor fall with time, and unless the cache answers from an entry for a lower level |
| `OrderChecks.SendBatches` | eibc/order_tracker.go:185-191 | The batches together are the valid list in order, all but the last as long as the larger of the transaction limit and a fulfiller's share, and every valid order is dispatched, in order |
| `OrderChecks.EnqueueValidOrders` | eibc/order_tracker.go:178-197 | One turn of the loop: the queries made, the verdict and fate of every order, the batches sent, and the run of the protocol it makes |
| `OrderChecks.ValidOrdersArePlanned` | eibc/order_tracker.go:185-191 | From a list in non-increasing proof height: at most 2 * numFulfillers - 1 batches, each transaction of 1 to maxOrdersPerTx orders, and all transactions together exactly the valid orders, still in non-increasing proof height |
| `OrderChecks.Evict` | eibc/order_tracker.go:249-252 | The id leaves the pool first, then the price leaves the LP's reserved funds: two steps of the protocol, and nothing else changes |
| `OrderChecks.TrackOrders` | eibc/order_tracker.go:254-276 | The tracked orders are upserted, as a run of the protocol |
| `Dispatch.DispatchIsCompleteAndBounded` | eibc/order_fulfiller.go:115 | Cutting a list twice, for the fulfillers and for transactions, loses, repeats and reorders nothing, and keeps both limits, for all lengths |
| `Dispatch.PickedKeepsOrder` | eibc/order_tracker.go:199-233 | A sublist of a non-increasing list is non-increasing |
| `Dispatch.PickedSnoc` | eibc/order_tracker.go:199-233 | One more element is picked, at the end, exactly if it is marked |
| `Dispatch.BatchesAreFull` | eibc/order_tracker.go:186-187 | Every batch but the last has the larger of the transaction limit and the number of orders over the number of fulfillers |
| `Slices.ChunkCount` | eibc/order_tracker.go:187 | The number of chunks is the length over the chunk size, rounded up |
| `Slices.ChunkAt` | eibc/order_fulfiller.go:115 | Chunk k holds exactly the elements from k times the size on, up to the next or the end |
| `Slices.SortBySorts` | eibc/order_tracker.go:146-154 | Sorting by a strict weak order permutes and orders |
| `Fulfiller.ProcessBatch` | eibc/order_fulfiller.go:92-159 | For every list of orders and every pattern of replies, element by element: the orders of the transactions before the first failure are debited and reported as success; those of the first that fails are released, and reported as failed with the hash of id and fee unless it was an RPC error; the rest is left alone; a gas error ends it before anything is released |
| `Fulfiller.ErrorWords` | eibc/order_fulfiller.go:161-183 | An RPC error is one that has "RPC error" anywhere in it, a gas error one that has "out of gas" or "insufficient funds" |
| `FulfillerSums.DebitsAreExact` | eibc/lp.go:74-88 | Debiting a list of orders lowers an LP's balance, and its reserved funds, by exactly the sum of its orders' prices if and only if they covered that sum |
| `FulfillerSums.BatchIsExact` | eibc/order_fulfiller.go:115-151 | Whatever becomes of a batch, an LP's balance falls by exactly the prices of its orders reported as fulfilled, if and only if it covered them |
| `FulfillerSums.SteadyBatchIsExact` | eibc/order_fulfiller.go:115-151 | At every point of a run in which no price is changed under a reservation, it always does |
| `Fulfiller.Receive` | eibc/order_fulfiller.go:79-90 | A fulfiller takes a batch out of the channel, as steps of the protocol |
| `Results.ManageProcessed` | eibc/order_tracker.go:165-176 | Exactly the ids of the results leave the pool, no LP changes, and every failure is noted, in order; as a run of the protocol |
| `BatchResults.FulfilAndSettle` | eibc/order_fulfiller.go:115-156 | A batch up to the handling of its results: the ids of all fulfilled orders, and of those in the first failed transaction unless it was an RPC error, are out of the pool, the latter are noted as failed, and the steps made are exactly the batch's and one settling per result |
| `BatchResults.AttemptedMeans` | eibc/order_fulfiller.go:115-156 | Which orders those are, by their places in the batch and the transaction limit |
| `Results.FailuresAreRemembered` | eibc/order_fulfiller.go:120-128 | What a failed transaction reports makes each of its orders the last failure of its id, with the fee it was hashed with |
| `FailedOrders.RecordMeansFailed` | eibc/order_tracker.go:278-297 | Over every history, the record holds the hash of (id, fee) exactly when that pair failed and the id was not seen, and did not fail, with another fee since |
| `FailedOrders.RefusedExactly` | eibc/order_tracker.go:278-297 | An order is refused exactly when its rollapp is unsupported or it is still failed in that sense |
| `Tracker.FailureRecord.CanFulfillOrder` | eibc/order_tracker.go:278-297 | The method answers just that, and its effect on the record is the event it adds to the history |
| `Tracker.FailureRecord.Note` | eibc/order_tracker.go:167-171 | A noted failure is the event it adds to the history |
| `LoadLps.LoadLps` | eibc/lp.go:97-228 | A reload revokes exactly the LPs that have no grant, or whose first grant has no authorization or no value; then it installs, grant by grant, what the grants allow, and stops at the first grant that fails, keeping what it did; as a run of the protocol |
| `LoadLps.DropRevoked` | eibc/lp.go:113-132 | An LP stays, as it is, exactly when there is a grant by it and the first one has an authorization with a value; the others are revoked once each; as a run of the protocol |
| `LoadLps.FindAllRevoked` | eibc/lp.go:113-127 | Exactly the LPs with no grant, or whose first grant has no authorization or no value, each once |
| `LoadLps.FindRevoked` | eibc/lp.go:115-126 | The inner loop: true exactly when no grant is by the LP, or the first one that is has no authorization or no value |
| `LoadLps.GrantedMeans` | eibc/lp.go:113-127 | The specification of the four rows above against the grants themselves |
| `LoadLps.EffectMeans` | eibc/lp.go:134-161 | A grant ends the reload exactly if it has an authorization and both addresses and does not decode or its balance query fails; it installs an LP exactly if it decodes, the balance is there, and some criteria are for a supported rollapp with the minimum share |
| `LoadLps.PutsMean` | eibc/lp.go:134-216 | The LPs installed are those the grants put, each and in order, up to the first grant that ends the reload |
| `LoadLps.PassingIsAllowed` | eibc/lp.go:165-174 | Criteria for a supported rollapp with the minimum share put that rollapp into the entry |
| `LoadLps.LastAllowed` | eibc/lp.go:165-191 | Of several criteria for a rollapp that pass both tests, the last are the ones in the table |
| `LoadLps.CriteriaOf` | eibc/lp.go:165-191 | The last criteria given for each supported rollapp with at least the minimum share |
| `LoadLps.AllowedIsGranted` | eibc/lp.go:166-174 | Whatever is allowed is for a supported rollapp, gives the minimum share, and stands in the grant |
| `LoadLps.LoadGrant` | eibc/lp.go:134-216 | One grant: passed over, ending the reload, or replacing the granter's entry, exactly when some criteria of it pass, by a fresh LP with the balance just asked for and nothing reserved; no other entry changes |
| `LoadLps.RefreshBalances` | eibc/lp.go:262-275 | Exactly the LPs whose balance query answered get that balance, and no reserved funds change; as a run of the protocol |
| `Grants.GrantReachesTable` | eibc/lp.go:145-191 | The criteria an LP encoded into its grant are, field by field, the ones its table entry has after the reload decodes it |
| `Grants.TermsMean` | eibc/lp.go:177-189 | Where each field of decoded criteria goes: the fee to the fee, the share to the share, and every listed denom, and no other, into the allowed ones |
| `Grants.CoinsMean` | eibc/lp.go:184-185 | A coin list without repeated denoms becomes its amounts, and nothing of any other denom |
| `Grants.BadBytesStop` | eibc/lp.go:135-148 | Bytes that do not decode end the reload; a grant without a value installs nothing |
| `Intake.TakeIn` | eibc/order_poller.go:192-222 | One incoming order: passed over if it could not be parsed; if its id is pooled and it is an update, fee and price are written into the pooled order and nothing else changes; otherwise refused if and only if its rollapp is unsupported or it is still failed by the record's whole history; without an LP if none passes the filter for such an order; or appended with the incoming id, rollapp, price, amount, fee and proof height and an eligible LP's terms, that LP's reserved funds growing by exactly the incoming price |
| `Intake.CommittedWasAvailable` | eibc/order_poller.go:151-230 | What newly accepted orders cost an LP together was available to it when the call started |
| `Readers.OrderPoller.ConvertOrders` | eibc/order_poller.go:151-230 | An order is passed over exactly if price, amount, fee or proof height cannot be parsed; one taken in has the polled id, rollapp, amount, fee and proof height, and for its price the polled amount in the fee's denom; new assignments of one call never exceed an LP's spendable balance at its start, per denom; the result is the orders taken in, in ascending proof height; each order is refused exactly when unsupported or still failed by then; exactly the ids without an LP are added to those remembered |
| `Readers.OrderPoller.ReadHeights` | eibc/order_poller.go:118-129 | Exactly the orders whose block height can be read go on, in order, and the height kept is the highest read, if above the one before |
| `Readers.OrderPoller.PollPending` | eibc/order_poller.go:112-149 | One poll: the heights, the judgement of each order, and as steps of the protocol the orders coming in, then one upsert each, the lowest proof first |
| `Readers.ParseOrdersFromEvents` | eibc/order_eventer.go:91-173 | The same for events, with the price as announced, the bound on new assignments and the refusals included: only the event of a changed fee updates a pooled order, that of a new order takes it in again |
| `Readers.ParsedPollMeans` | eibc/order_poller.go:152-189 | What a polled order is read as, field by field |
| `Readers.ParsedEventMeans` | eibc/order_eventer.go:108-135 | What an announced order is read as, field by field |
| `Readers.EnqueueEventOrders` | eibc/order_eventer.go:65-89 | One event from its arrival to the pool, as steps of the protocol |
| `NodeClients.NodeClient.BlockValidated` | eibc/node_client.go:82-132 | The answer and the new cache after one call, errors included; the cache is always the outcome of the calls so far |
| `NodeClients.NewNodeClient` | eibc/node_client.go:52-76 | A client exists exactly when every rollapp asks for a number of confirmations that is not zero and not above its number of nodes |
| `NodeClients.CountIsCardinality` | eibc/node_client.go:94-131 | The count is the number of nodes that answer for the right chain with at least the level |
| `NodeClients.DirectCountIsCardinality` | eibc/node_client.go:94-131 | So is the direct count it is compared with |
| `NodeClients.AnswersAreDirect` | eibc/node_client.go:82-132 | Over every sequence of calls, failed ones included, for levels that never rise with height nor fall with time: an answer is the direct count of nodes that report the level now, unless it comes from an entry filled at a lower level |
| `NodeClients.CacheIsRightExactly` | eibc/node_client.go:88-132 | For every sequence of questions and a last one: the last answer is the direct count in every world exactly when no earlier question exposes it, that is one at a lower level, about a height no lower, that no node failed, with only failures and heights no higher asked about since |
| `NodeClients.LowerLevelAnswersForHigher` | eibc/node_client.go:90-92 | One node and one confirmation: a question at level 1 makes the next one, at level 2, be answered yes while no node confirms level 2 |
| `NodeClients.NegativeConfirmations` | eibc/node_client.go:52-66 | Of the configurations accepted, exactly those with a negative number of confirmations allow a yes with no node ever confirming anything |
| `NodeClients.NegativeNeverRefuses` | eibc/node_client.go:88-131 | With a negative number the answer is yes for heights up to the cached one and whenever no node fails, and an error otherwise |
| `Keys.ProofHeightParses` | eibc/order_poller.go:417-427 | For every 64-bit height the key gives the height back when none of its eight bytes is a slash, and zero otherwise |
| `Keys.EightBytesMean` | eibc/order_poller.go:417-427 | The height stands in the key with its highest byte first |
| `Keys.PacketKeyRoundTrip` | types/eibc/msgs.go:68-76 | Decoding the base64 form of any key strips its trailing zero bytes and nothing else, so the key comes back exactly when it does not end in one; the buffer has at most two bytes too many |
| `Keys.SymbolsAreTheAlphabet` | types/eibc/msgs.go:68-76 | The symbols are those of section 4 of RFC 4648 in their order |
| `Keys.ThreeBytesMean` | types/eibc/msgs.go:68-76 | Three bytes become four symbols, the highest bits first |
| `Keys.TestVectors` | types/eibc/msgs.go:68-76 | Test vectors of section 10 of RFC 4648 |
| `Keys.DecodesExactly` | types/eibc/msgs.go:68-76 | What decodes: whole groups of four symbols, of which only the last may end in one or two pads |
| `Keys.LineEndsAreHarmless` | types/eibc/msgs.go:68-76 | Line ends in the string change neither whether it decodes nor to what |
| `Keys.FinalizeMessageIsValid` | types/eibc/msgs.go:24-40 | The message built from a tracking key is valid exactly when the sender's address is and the key is not empty |
| `Varint.SovCountsGroups` | types/authz.pb.go:512-514 | The size of a varint is its number of 7-bit groups, for every number |
| `Varint.EncodeMeans` | types/authz.pb.go:437-447 | Seven bits a byte, the lowest first, the high bit set on all bytes but the last, and no byte too many |
| `Varint.AtMostTenGroups` | types/authz.pb.go:437-447 | A 64-bit number takes at most ten groups |
| `Varint.EncodeInto` | types/authz.pb.go:437-447 | Writes the number's groups right before the offset, `sovAuthz` of them, and touches nothing else |
| `Varint.VarintRoundTrip` | types/authz.pb.go:522-536 | What was written is read back, for every 64-bit number, wherever it stands |
| `Varint.Read` | types/authz.pb.go:522-536 | The reading loop: the value modulo two to the sixty-fourth, an overflow at the eleventh group, the end of the data before that |
| `Skipper.SkipField` | types/authz.pb.go:954-1031 | The loop with its depth counter, 64-bit wrap-around of lengths and reads past the end included |
| `Skipper.SkipsField` | types/authz.pb.go:954-1031 | A field whose groups are bracketed, nested to any depth, takes the loop to its end at the depth it started |
| `Skipper.LoopIsGrammar` | types/authz.pb.go:954-1031 | A loop that ends inside the data passed bracketed fields and closed the open groups one by one |
| `Skipper.SkipIsGrammar` | types/authz.pb.go:954-1031 | The skipper consumes n bytes exactly when the first n bytes are one bracketed field |
| `Skipper.WireTypes` | types/authz.pb.go:975-1021 | The wire types by their numbers, on bytes with literal tags, the two that are illegal included |
| `Skipper.FieldIsUnique` | types/authz.pb.go:954-1031 | No bytes can be read as two different bracketed fields |
| `Skipper.StandardIsSkipped` | types/authz.pb.go:954-1031 | Every field of the encoding specification is skipped, whole |
| `Skipper.AcceptedIsStandardExactly` | types/authz.pb.go:1011-1017 | What the skipper accepts is a field of the specification exactly when, in the one way to read it, all field numbers are legal and each group ends with the number it started with |
| `Skipper.MismatchedGroupIsAccepted` | types/authz.pb.go:1011-1017 | Two bytes, the start of group 8 and the end of group 7, are skipped and are no field of the specification |
| `Parser.Unmarshal` | types/authz.pb.go:686-953 | For every byte string the reading loop ends, with a message or an error, and reads only inside the data |
| `Parser.FieldSame` | types/authz.pb.go:692-715 | A field is read the same wherever it stands |
| `Parser.ParseConcat` | types/authz.pb.go:686-953 | Two messages one after the other are read as the second on top of the first |
| `Parser.UnknownIsTransparent` | types/authz.pb.go:581-594 | A bracketed field of an unknown number, so any the specification allows, between two fields leaves the result unchanged |
| `Printer.UnknownBetween` | types/authz.pb.go:933-947 | Put between any two fields of a written message, it leaves the message unchanged |
| `Printer.ParsePrinted` | types/authz.pb.go:355-435 | Reading what was written applies the written values in order |
| `Repeated.EachApplies` | types/authz.pb.go:631-665 | Values of a repeated field are appended one by one |
| `Repeated.PutEach` | types/authz.pb.go:360-373 | The backward loop over a repeated field writes it in its order |
| `Buffers.PutHeader` | types/authz.pb.go:293-299 | Length and tag go in front of a value's bytes, and nothing else is touched |
| `Authz.DecRoundTrip` | types/authz.pb.go:518-601 | A decimal comes back, over whatever the message held before |
| `Authz.CriteriaRoundTrip` | types/authz.pb.go:686-953 | Unmarshal of Marshal gives the criteria back, for every `RollappCriteria` |
| `Authz.AuthorizationRoundTrip` | types/authz.pb.go:602-685 | And for every `FulfillOrderAuthorization` |
| `AuthzWire.ReadsStrings` | types/authz.pb.go:715-778 | Behind tag 0x0a stands the rollapp's id, behind 0x12 one more denom |
| `AuthzWire.ReadsCoins` | types/authz.pb.go:779-812 | Behind 0x1a stands one more coin of the maximum price, behind 0x3a one more of the spend limit |
| `AuthzWire.ReadsFees` | types/authz.pb.go:813-878 | Behind 0x22 stands the minimum fee, behind 0x2a the operator's share |
| `AuthzWire.ReadsFlag` | types/authz.pb.go:879-898 | Behind 0x30 stands the settlement flag, set by any number but zero |
| `AuthzWire.ReadsDec` | types/authz.pb.go:547-580 | Behind 0x0a stands the decimal |
| `AuthzWire.ReadsCriteria` | types/authz.pb.go:631-665 | Behind 0x0a stand one more criteria of the grant |
| `AuthzWire.WritesCriteria` | types/authz.pb.go:355-435 | The bytes written, field after field with their literal tags |
| `AuthzWire.WritesDec` | types/authz.pb.go:285-301 | The same for a decimal |
| `AuthzWire.WritesAuthorization` | types/authz.pb.go:318-338 | The same for a grant |
| `AuthzMarshal.MarshalCriteria` | types/authz.pb.go:355-435 | Exactly the wire form right before the end of the buffer, nothing else touched, the index never negative |
| `AuthzMarshal.SizeCriteria` | types/authz.pb.go:474-510 | `Size` is the length of what is written |
| `AuthzMarshal.MarshalAuthorization` | types/authz.pb.go:318-338 | The same for a grant with embedded criteria |
| `AuthzMarshal.SizeAuthorization` | types/authz.pb.go:459-472 | `Size` is the length of what is written |
| `AuthzMarshal.MarshalDec` | types/authz.pb.go:285-301 | The same for a decimal |
| `AuthzMarshal.Marshal` | types/authz.pb.go:303-311 | A buffer of exactly the size is filled to its first byte |
| `DemandOrders.EnumRoundTrip` | types/eibc/demand_order.pb.go:653-671 | Sign extension of an enum to 64 bits and truncation back to 32 lose nothing |
| `DemandOrders.NegativeEnumIsLong` | types/eibc/demand_order.pb.go:240-244 | Every negative enum, a type of -1 for one, takes ten groups |
| `DemandOrders.OrderRoundTrip` | types/eibc/demand_order.pb.go:389-743 | Unmarshal of Marshal gives the order back, for every `DemandOrder`, negative enums included |
| `DemandOrderWire.ReadsStrings` | types/eibc/demand_order.pb.go:418-481 | Behind 0x0a, 0x12, 0x2a, 0x4a and 0x5a stand id, tracking key, recipient, rollapp and fulfiller |
| `DemandOrderWire.ReadsCoins` | types/eibc/demand_order.pb.go:482-549 | Behind 0x1a stands one more coin of the price, behind 0x22 one more of the fee |
| `DemandOrderWire.ReadsNumbers` | types/eibc/demand_order.pb.go:582-722 | Behind 0x30, 0x40, 0x50 and 0x60 stand the fulfilled flag, the status, the type and the creation height |
| `DemandOrderWire.WritesOrder` | types/eibc/demand_order.pb.go:223-317 | The bytes written, field after field with their literal tags |
| `DemandOrderMarshal.MarshalOrder` | types/eibc/demand_order.pb.go:223-317 | Exactly the wire form right before the end of the buffer, nothing else touched |
| `DemandOrderMarshal.SizeOrder` | types/eibc/demand_order.pb.go:330-381 | `Size` is the length of what is written |
| `DemandOrderMarshal.Marshal` | types/eibc/demand_order.pb.go:208-216 | A buffer of exactly the size is filled to its first byte |

## Left out

- Network, gRPC, HTTP, websocket subscription, broadcasting and waiting for transactions: outcomes only, as parameters.
- Command line, configuration, logging, versions, key management, start-up (main.go, cmd, config, eibc/order_client.go): plumbing.
- Priming of accounts, fee grants and group members (eibc/account.go), and the finalizer's polling: short list building.
- The other generated codecs, descriptors, registration and gRPC stubs: the same pattern as the ones modelled, or data.
- Data races inside a critical section: a price written by another goroutine while `findLPForOrder` reads it twice, and the marks the validator clears outside the pool lock.
- Atomicity is per order: a batch released or debited under one lock is a run of single-order steps, so the runs here include more interleavings than the code has.
- The hash that tells whether a reload changed an LP, and the reset of the poller it triggers: it decides only when to ask the chain again.
- The queries the poller's `lastBlockHeight` feeds: it narrows what the indexer returns.
- Order fields that only feed logs or the message to the chain (`denom`, `from`, `validDeadline`): expiry is part of the verdict on an order.
- Inputs on which the code panics: a negative price in a poll, event lists of unequal length, a nil decimal in a grant's criteria, coin lists that are not canonical, a chunk size or number of fulfillers below one.
- The order in which the library's unstable sorts leave equal elements: an insertion sort stands for them, and nothing is claimed about equals.
- Slots of the channels: a transfer between queues never blocks here.
- Parser.Unmarshal: the message is a value, so what a failed call leaves in a half-filled message is not modelled.
- Parser.UnknownIsTransparent: both results are the same message or both are errors; which error may differ, because the test for an overlong length depends on how far into the data the field stands.
- Varint.Read: adds the shifted groups where the source ors them; their bits are disjoint.
- NodeClients.NodeClient.BlockValidated: the nodes are asked one after the other; the source asks them at once and adds up, and which of several errors it returns is not modelled.
- Keys.PacketKeyRoundTrip: the library's base64 decoder is modelled by its documented behaviour, line ends skipped and bits under the padding dropped.
- Authz.CriteriaRoundTrip: the nil decimal of a zero message is represented as zero, and nil list elements do not occur.
- Repeated.PutEach: the bytes of a `Coin` are written by its codec, which is not part of this model, and copied into place.
