# Holding, charging and scheduling a run: a Dafny model of OpenVibe.AI

OpenVibe.AI runs AI workflows for people and services. A run is admitted against quotas, waits for a slot, holds money at
Billing while a provider answers, is charged for what it used, and is recorded. This project models that path, and the
small algorithms it rests on, and proves what they promise over every input, every run and every interleaving.

Code that updates an object in place is a class whose methods are proved against functions on values; what the code
promises is proved about those functions. Whole runs are sequences of events, each event one step the service takes
without a pause (a synchronous block, a database transaction, one call to the shared store). Billing, the database, the
clock, hashes and URL parsing appear as parameters or as small abstract states.

| file | what it models |
|---|---|
| `CreditMath.dfy` | the integer arithmetic of a hold and a charge, and the half-price card of a batch |
| `CostAmount.dfy` | reading `max_cost_usd` as an exact decimal |
| `CreditSession.dfy` | one request's Balance session: hold, mid-stream extensions, settle or release |
| `SettleQueue.dfy` | the durable queue of settles that Billing could not take |
| `SettleProtocol.dfy` | many sessions, the queue and Billing together, with lost answers and crashes |
| `Scheduler.dfy` | the bounded priority queue of runs, with cancelling |
| `RunLifecycle.dfy` | run rows moved by guarded updates, and the events they write |
| `Quota.dfy` | fixed-window quotas: the reservation transaction and its counters |
| `LatencyStats.dfy` | latency histograms and their percentile estimates |
| `FreeAllowance.dfy` | the bounded free allowance in a row, in the shared store and in the process |
| `StableJson.dfy` | the canonical JSON text and a parser that undoes it |
| `SchemaCache.dfy` | the cache of compiled schemas |
| `Playlist.dfy`, `MediaProxy.dfy` | the playlist rewriter, its URL numbering and the requests that undo it |
| `PowCheck.dfy` | the proof-of-work check and the single use of a challenge |
| `Common.dfy`, `Text.dfy` | shared datatypes, arithmetic, digits and trimming |

## Where the code and its comments differ

The model follows the code. Each difference is stated exactly, as an if-and-only-if where one exists.

- A batch's halved card is said never to charge more than half (server/credits.js:109-113). Each component is rounded up
  on its own, so twice the charge can pass the full charge, by at most 4 nano-USD. For any card the promise holds for
  every usage exactly when no more of its four rates can pass their half than an odd request fee makes up for: none for
  an even fee, one for an odd fee. Which rates can is read off the halved rate's remainder of a million
  (`CreditMath.NeverMoreThanHalfExactly`). For one usage, `CreditMath.HalfCardBound` says when from the remainders.
- A hold is said to be the worst case of a request (server/credits.js:263-266), but the prompt is charged in up to three
  parts that are each rounded up. A hold covers every run within its estimate and clamp exactly when both cached rates
  are at most the input rate rounded down to whole nano-USD per token (`CreditMath.HoldCoversExactly`). While the cached
  rates are at most the input rate the excess is at most one nano-USD for each cached kind, and that much does happen
  (`CreditMath.SettledWithinHold`, `CreditMath.SettledCanPassHoldByTwo`).
- The settle is said to carry the answering model's card (server/credits.js:29-31), and a hold to cover a request. A
  session keeps the card of the last offer routed, before Billing is asked for a bigger hold (server/credits.js:294), and
  a run of several steps routes once for each step and settles once for all of them. So tokens can be charged on the card
  of an offer that was skipped because its extension was refused, or of a prepaid one, and two steps can be charged on a
  hold made for one. Every run is charged within what Billing granted exactly when none of the three follows the attempt
  that was let through (`CreditSession.PaidForExactly`, with a run for each: `SkippedOfferIsCharged`,
  `PrepaidOfferIsCharged`, `TwoStepsAreCharged`).
- A mid-stream extension doubles the hold or brings it to the cap, but there is a third case: from an empty hold it goes
  to the projected charge. The first two are all there is exactly when the hold was not empty or the projected charge
  reaches the cap. The third happens when a free first offer is followed by a prepaid fallback that brings a priced card
  (`CreditSession.ExtensionShape`, `CreditSession.EmptyHoldStartsFromTheCharge`).
- A hold that was sent a settle is never sent a release exactly when the session has no cost check and no request id is
  used twice (`SettleProtocol.ReleaseNeverFollowsSettle`, with a run for each other case).
- The free allowance of a period never passes its cap exactly when the shared key is not lost while a claim is between
  the store's answer and its commit (`FreeAllowance.GrantsNeverPassTheCap`, `FreeAllowance.LossInFlightGrantsTwice`).
- `sent` and `review` are final in every run exactly with at most one worker: with two, one can queue a row again that
  the other has sent, because the reschedule has no guard on the status (`SettleQueue.FinalExactlyWithOneWorker`,
  `SettleQueue.TwoWorkersReviveASentRow`).
- A part's file name is said to keep the extension that ffmpeg checks (server/media-proxy.js:15-17). It is cut to 80
  characters, so a name is kept as it is exactly when it is clean and no longer, and a longer one loses its extension
  (`MediaProxy.NameIsKeptExactly`, `MediaProxy.LongNameLosesItsExtension`).
- The difficulty a client is told is capped at 28 bits and the one a solution is held to is not: solving what was told is
  enough exactly for settings up to 28 (`PowCheck.ToldDifficultyIsEnough`). The configuration stays within 8 and 28.

## Model

| member | source | states |
|---|---|---|
| CreditMath.ChargeNano | server/credits.js:78-85 | the charge is the least whole nano-USD amount that covers tokens times rate per million |
| CreditMath.RetailChargeBounds | server/credits.js:135-141 | each kind of token is charged at its own rate: the exact price and, for rounding, less than one nano-USD for each of the four kinds, on top of the request fee |
| CreditMath.BaseCharge | server/credits.js:147-149 | what is held for the prompt is the request fee and the least amount that covers the estimated input |
| CreditMath.UsageOf | server/credits.js:360-365 | the three prompt counts a settle reports add up to the prompt the provider reported, or to its cached parts when those are more; cached parts and output are the reported ones, none below zero |
| CreditMath.AffordableIsSearch | server/credits.js:147-164 | under a cap, the floor division answers as trying every token count from the request down: the largest that fits, with an amount within the cap, or a refusal when none fits |
| CreditMath.RefusedExactlyWhenOneTokenDoesNotFit | server/credits.js:147-164 | a request is refused if and only if the base plus the charge of one output token passes the cap |
| CreditMath.PlanWithinCap | server/credits.js:147-164 | a plan buys between one token and the request, the whole request without a cap, holds exactly the base plus their charge, and stays within the cap |
| CreditMath.SettledWithinHold | server/credits.js:78-164 | a run within its prompt estimate and its clamp settles for at most the hold, plus one nano-USD for each cached kind it used |
| CreditMath.SettledCanPassHoldByTwo | server/credits.js:135-164 | both extra nano-USD can be charged, so the bound is the best one |
| CreditMath.HoldCoversExactly | server/credits.js:78-164 | a hold covers every run within its estimate and clamp, for every request, cap and usage, if and only if both cached rates are at most the input rate in whole nano-USD per token |
| CreditMath.HalfExcessIsTheDifference | server/credits.js:78-133 | how far one kind's halved charge, doubled, passes its full charge is read off the remainder and the half an odd rate loses |
| CreditMath.HalfExcessExactly | server/credits.js:78-133 | one kind's halved charge, doubled, passes its full charge by at most one, and the remainder says exactly when |
| CreditMath.HalfCardBound | server/credits.js:105-141 | twice the halved charge is at most the full charge plus 4, and at most the full charge exactly when what rounding adds, read off the four remainders, is at most the half an odd request fee loses |
| CreditMath.HalfCardCanPassHalf | server/credits.js:109-113 | a card and a usage whose halved charge is more than half |
| CreditMath.NeverMoreThanHalfExactly | server/credits.js:109-133 | a card is never charged at more than half, whatever the usage, if and only if no more of its rates can exceed their half than an odd request fee makes up for |
| CostAmount.ParsesToCeiling | server/credits.js:63-75 | for texts of any length the result is the exact ceiling of the amount in nano-USD, refused as too large exactly from 10^19, and anything that is not a plain decimal is refused |
| CostAmount.DecimalPattern | server/credits.js:66-67 | a plain decimal is digits or digits, a point and digits, neither side missing, and its two parts are the sides of the point |
| CostAmount.CostIsRead | server/credits.js:63-66 | white space around the amount is ignored, an absent value sets no cap, and a refusal is passed on |
| CostAmount.CeilingUnique | server/credits.js:58-62 | only one amount is the ceiling of a decimal, so the result above is determined |
| CostAmount.PrintedAmountReadsBack | server/credits.js:63-75 | n nano-USD printed with nine places reads back as n |
| CreditSession.BalanceSession.OnRoute | server/credits.js:267-322 | the session, its answer and what it asks of Billing before an attempt, for every kind of offer and every answer |
| CreditSession.RouteDecides | server/credits.js:282-322 | with `n` the largest output that fits the cap and its worst case on the card: the attempt is let through, clamped to `n`, if and only if `n` is not zero and that amount is granted already or now, and what is missing of it is all that is asked for; otherwise an open session skips an offer nothing fits or the Balance is too short for, and any other fails |
| CreditSession.OtherRoutesAskNothing | server/credits.js:267-281 | an ended session, a person's own key, a prepaid offer and unmanaged supply ask Billing for nothing, and only a prepaid offer of an open session changes it, by its card |
| CreditSession.NoCardFails | server/credits.js:283 | a managed offer without a retail card fails before Billing is asked |
| CreditSession.ChargedCard | server/credits.js:114-133 | a batch is charged on the retail card with each of its five rates halved and rounded down, any other request on the card itself |
| CreditSession.BalanceSession.ExtendWhenNear | server/credits.js:331-350 | with nothing pending one extension is asked for if and only if the session is open and not refused, the cap leaves room, and five times the charge of what has streamed reaches four times the hold, or is not zero on an empty one |
| CreditSession.BalanceSession.OnDelta | server/credits.js:325-358 | a delta is counted, and asks for an extension if and only if the session is open and not refused, nothing is pending, the cap leaves room, and five times the charge of what has streamed, a token for every four characters begun, reaches four times the hold, or is not zero on an empty one |
| CreditSession.DeltaAsks | server/credits.js:325-358 | the same for every session, with the amount: as much again as is held, or the charge on an empty hold, or the room under the cap when that is smaller |
| CreditSession.ShortRefusalIsFinal | server/credits.js:332-358 | after an extension was refused for a short Balance no delta of the rest of the run asks for one |
| CreditSession.BalanceSession.OnAnswer | server/credits.js:344-349 | a refused extension is taken back out of the tracked hold, and a short Balance stops further ones |
| CreditSession.BalanceSession.DoRelease | server/credits.js:412-421 | a release happens once, and is open again when Billing did not take it |
| CreditSession.BalanceSession.DoSettle | server/credits.js:368-409 | a settle happens once, is open again when Billing did not take it, and becomes a release when the cost check fails |
| CreditSession.EndIsSentOnce | server/credits.js:368-421 | an open session sends a settle if and only if its cost is in order and a release otherwise, ends if and only if Billing takes it, and an ended or unopened one sends nothing |
| CreditSession.HoldIsTracked | server/credits.js:267-350 | in every reachable state the tracked hold is what Billing granted plus the pending extension, and within the caller's cap |
| CreditSession.ExtensionsAreLogarithmic | server/credits.js:330-350 | over any run all but two accepted extensions doubled the hold, so their number is logarithmic in the projected charge |
| CreditSession.ExtensionShape | server/credits.js:330-358 | each extension doubles the hold, brings it exactly to the cap, or starts an empty hold from the projected charge, and does one of the first two if and only if the hold was not empty or the projected charge reaches the cap |
| CreditSession.EmptyHoldStartsFromTheCharge | server/credits.js:280-358 | a run of the session in which the third of those cases happens |
| CreditSession.SettleMatchesGrant | server/credits.js:368-370 | when a settle is sent, the tracked hold is exactly what Billing granted |
| CreditSession.NothingAfterTheEnd | server/credits.js:267-421 | once settled or released, nothing that follows asks Billing for anything, even while an extension is to be answered, and with none the session no longer changes |
| CreditSession.ClampIsCovered | server/credits.js:267-322 | an attempt let through with a clamp has its whole worst case granted by Billing, on the card it is charged on |
| CreditSession.ClampedRunIsPaidFor | server/credits.js:267-421 | from the last attempt let through, whatever is streamed, answered, skipped as too dear or left to a person's own key, a run within its estimate and clamp is charged on that attempt's card at most 2 nano-USD more than was granted, and no more than was granted when the hold covers the card |
| CreditSession.SkippedOfferIsCharged | server/credits.js:294-319 | a run whose tokens are charged at ten times what was granted, on the card of an offer that was skipped |
| CreditSession.PrepaidOfferIsCharged | server/credits.js:278-280 | a run whose tokens are charged at ten times what was granted, on the card of a prepaid offer |
| CreditSession.TwoStepsAreCharged | server/workflows/engine.js:358-368 | a run of two steps that is held for one and charged for both |
| CreditSession.PaidForExactly | server/credits.js:267-421 | every run that keeps to its estimate and clamps is charged within what Billing granted, if and only if no further attempt is let through, no extension of another offer is refused and no prepaid offer follows |
| SettleQueue.Configure | server/credit-settlements.js:12-19 | a wait of at least one second, a ceiling no lower than it and a batch of 1 to 100: the value given where it is in range, and the default where there is none |
| SettleQueue.DelayBounds | server/credit-settlements.js:71-77 | the backoff is positive, never shrinks as tries go up, and never passes the ceiling |
| SettleQueue.DelayDoubles | server/credit-settlements.js:71-77 | the wait starts at the base, each of the first ten tries doubles it up to the ceiling, and later ones do not |
| SettleQueue.Ordered | server/credit-settlements.js:53-60 | a batch is that many distinct due rows in ascending order of time and then id, each earlier than every due row left out |
| SettleQueue.DueExactly | server/credit-settlements.js:53-60 | a row is taken if and only if it is queued, due or forced, and fewer than a batch of such rows come before it by time and then id |
| SettleQueue.CreditSettlements.Enqueue | server/credit-settlements.js:37-51 | a failed settle is kept once per key, queued after an outage and for review after a decision |
| SettleQueue.CreditSettlements.RunOnce | server/credit-settlements.js:83-112 | one pass: skipped while another runs or in a drill, otherwise the due rows in turn until the store fails; a row Billing takes ends sent with its tries, one it decides against ends for review with a try more, any other is queued again with a try more and the doubled wait from its own clock, no hold and no other row changes, and the counts are of those rows |
| SettleQueue.PassIsARun | server/credit-settlements.js:89-106 | the loop of a pass is a run of single attempts, so what holds of every run holds of every pass |
| SettleQueue.FinalRowsStay | server/credit-settlements.js:62-69 | with one worker a sent or reviewed row is never changed again, whatever arrives, fails or crashes |
| SettleQueue.TwoWorkersReviveASentRow | server/credit-settlements.js:71-77 | from an empty table, a run of any two or more workers in which a sent row is queued again |
| SettleQueue.FinalExactlyWithOneWorker | server/credit-settlements.js:62-77 | in every run of n workers on one table a sent or reviewed row never changes again, if and only if n is at most one |
| SettleQueue.PassTakesABatch | server/credit-settlements.js:53-60 | a pass that misses a due row is full, and takes a whole batch of the rows ahead of it |
| SettleQueue.AheadNeverGrows | server/credit-settlements.js:37-112 | no step, a crash or a failing store included, adds a row ahead of a due row or changes that row, unless it attempts it |
| SettleQueue.NextAhead | server/credit-settlements.js:53-112 | while the worker and the store stay up, each pass that misses a due row lowers the rows it has yet to pass by a whole batch |
| SettleQueue.NoDueRowStarves | server/credit-settlements.js:53-112 | over any run the passes that miss a due row are at most the rows ahead of it divided by the batch |
| SettleProtocol.AtMostOneSettlement | server/credits.js:260-261 | through lost answers, retries and crashes, and with any number of runs alive under one request id, Billing applies at most one settlement per request, on its own hold, and every settle carries its request's key |
| SettleProtocol.SettleIsAnswered | server/credits.js:368-408 | an open session sends one settle under its request's key and ends if and only if it hears that Billing has applied it; when it hears anything else the settle is queued once, for review if it was refused |
| SettleProtocol.ReleaseIsAnswered | server/credits.js:412-421 | an open session sends one release of its hold, which closes it, and ends if and only if it hears so |
| SettleProtocol.ReleasedIsNeverCharged | server/credits.js:368-421 | through everything that follows, a hold closed without its settle is never charged |
| SettleProtocol.SentWasApplied | server/credit-settlements.js:62-97 | in every run, a settle the queue counts as sent was applied by Billing, on the hold of its own request |
| SettleProtocol.RetryIsAnswered | server/credit-settlements.js:62-106 | a retry leaves its row queued when no answer is heard, sent when Billing has applied it or does now, and for review when Billing refuses; it is applied unless it was, Billing is away or it refuses; no other row changes |
| SettleProtocol.FailedSettleIsDelivered | server/credits.js:397-408 | a settle that meets an outage is kept under its request's key and, also after a crash, the first retry that reaches Billing settles the open hold once and marks the row sent |
| SettleProtocol.DecidedSettleIsReviewed | server/credit-settlements.js:37-51 | a settle Billing decides against is kept for review and can never be retried |
| SettleProtocol.ReleaseNeverFollowsSettle | server/runs.js:900-917 | a hold ever sent a settle is never afterwards sent a release, in every run, if and only if there is no cost check and no request id is used twice |
| SettleProtocol.CostCheckReleasesAfterSettle | server/credits.js:371-382 | a run in which a failed settle is followed by a release because of the cost check |
| SettleProtocol.ReusedIdReleasesAfterSettle | server/credits.js:260-261 | a run in which a request id used twice has its settled hold sent a release |
| Scheduler.BestIndex | server/runs.js:509-515 | the scan finds the first of the best: nothing waiting is better, and everything before it is worse |
| Scheduler.BestUnique | server/runs.js:509-515 | there is one such run |
| Scheduler.RunScheduler.BestAt | server/runs.js:510-515 | the loop's result is that run |
| Scheduler.RunScheduler.DoPump | server/runs.js:507-523 | free slots are filled one by one with the best waiting run, a slot for each run started, until nothing waits or no slot is free |
| Scheduler.RunScheduler.Enqueue | server/runs.js:486-495 | a new run waits behind the others and the free slots are filled |
| Scheduler.RunScheduler.Finish | server/runs.js:520 | a finished run frees its slot and the free slots are filled |
| Scheduler.RunScheduler.Forget | server/runs.js:928-930 | an ended run's handle is dropped |
| Scheduler.RunScheduler.Cancel | server/runs.js:954-960 | a cancelled run that waits leaves the queue and its gate is released |
| Scheduler.PumpedIsPump | server/runs.js:507-523 | the runs that come to run in the account of all runs are exactly those the pump starts |
| Scheduler.PumpConserves | server/runs.js:507-523 | a pump takes one slot for each run it starts and opens that run's gate and no other, ends when nothing waits or no slot is free, and loses no waiting run that has a handle |
| Scheduler.SlotsAndQueue | server/runs.js:486-523 | in every reachable state the slots taken are the runs started and not finished, within the limit; while a run waits all are taken; waiting runs are distinct and gated; every run is in exactly one place |
| Scheduler.StartsFollowTheOrder | server/runs.js:507-523 | in every reachable state each start, of an arrival or of a freed slot, takes the highest priority waiting at that moment, and the earliest arrival among equals |
| Scheduler.NoOvertaking | server/runs.js:507-523 | no waiting run was ever passed by a later arrival of no higher priority |
| Scheduler.CancelLeavesSlots | server/runs.js:949-963 | a cancel takes no slot and frees none, and removes at most the cancelled run from the queue |
| RunLifecycle.RunStore.RunChanged | server/events.js:74-89 | only queued, cached, succeeded and failed rows are announced, and none while publishing is off |
| RunLifecycle.RunStore.Create | server/runs.js:419-433 | a new row and its event are written together, for a cache hit and for a queued run |
| RunLifecycle.RunStore.Execute | server/runs.js:724-728 | only a row still queued becomes running |
| RunLifecycle.RunStore.Finish | server/runs.js:831-842 | only a row still running succeeds, with its event |
| RunLifecycle.RunStore.Fail | server/runs.js:892-896 | only an open row fails or is cancelled |
| RunLifecycle.RunStore.CancelRun | server/runs.js:955 | only an open row is cancelled, with no event |
| RunLifecycle.RunStore.RecoverInterrupted | server/runs.js:1030-1037 | at a restart every open row fails and no other row changes, and each is announced once, in the order listed, while publishing is on |
| RunLifecycle.TerminalIsFinal | server/runs.js:724-963 | in any interleaving of execution, cancelling and recovery a terminal status is never changed again |
| RunLifecycle.EventsAreTheProjection | server/events.js:70-89 | in any interleaving a run's events are the announced part of its history: cached alone, or queued and then at most one of succeeded and failed |
| Quota.FindScope | server/quota.js:93-103 | the scope a quota counts under is found exactly when one is covered |
| Quota.Applicable | server/quota.js:93-103 | the quotas that apply are exactly the active ones for the workflow that cover one of the request's scopes, each under the scope it counts |
| Quota.Quotas.FindWorst | server/quota.js:114-126 | the scan's result is the exceeded quota it keeps |
| Quota.WorstIsLatest | server/quota.js:114-126 | a request is refused exactly when some applicable quota is exceeded, with the longest wait of them all |
| Quota.Quotas.KeysFor | server/quota.js:131-138 | the counters a request is counted under, each once |
| Quota.CountedKeysAre | server/quota.js:128-138 | they are distinct, and exactly the request's scopes in each window and the applicable prefix quotas' own |
| Quota.Quotas.Reserve | server/quota.js:111-141 | one transaction: refused if and only if some quota that applies has its counter full, with no counter changed; otherwise one request is added to each counter it counts under, each once, and nothing else |
| Quota.RefusedExactly | server/quota.js:93-127 | a request is refused if and only if some active quota for its workflow and scope has requests + 1 above its request limit, or tokens or cost at their limit; the refusal names such a quota, the first of the three reasons, and the end of its window, the latest of all that block |
| Quota.ChargesAre | server/quota.js:79-103 | the quotas that apply and the scope each counts under, in terms of the request's own ids |
| Quota.CountedExactly | server/quota.js:128-138 | a counter is one the request counts under if and only if it is of the window that holds the moment, and either of one of its scopes for all workflows or of a prefix quota that applies |
| Quota.Quotas.Account | server/quota.js:208-213 | real tokens and cost are added on each of the reserved counters, once, and on no other |
| Quota.RetryAfterIsExact | server/quota.js:111-152 | with positive limits and nothing else happening, the same request is refused at every second before its retry time and admitted at that second |
| Quota.AllOrNothing | server/quota.js:111-141 | a refused request changes no counter; an admitted one adds one request to each of its counters and nothing else |
| Quota.CountersAreTheHistory | server/quota.js:128-140 | in every reachable state a plain counter equals the admitted requests of its scope and window over the whole log, so a quota added later decides as counting the log would |
| Quota.LimitIsNeverPassed | server/quota.js:111-141 | a request limit in force for a whole window is never passed in it |
| Quota.SpendIsTheHistory | server/quota.js:208-213 | over any run a counter's tokens and cost grow by exactly what is accounted on it |
| Quota.SpentLimitBlocks | server/quota.js:111-141 | once the tokens or the cost of a scope in a window reach a limit that stays in force, no further request of that scope is admitted in that window, as long as nothing negative is accounted |
| LatencyStats.BucketIsFirst | server/quota.js:58-61 | a latency is put in the first bucket whose bound it does not pass |
| LatencyStats.EstimatePercentile | server/quota.js:62-73 | the loop answers the bound of the first bucket whose running count reaches the rank |
| LatencyStats.LatencyRollup.RecordStats | server/quota.js:175-193 | the rows kept attempt by attempt stand for everything recorded so far: counts of attempts, of successes and of errors, cost and token totals, histogram, p50 and p95 |
| LatencyStats.AttemptsAreSampled | server/quota.js:175-187 | an attempt that reached a named provider adds one sample to the row of its day, provider and model, with how it ended, what it spent and its latency to the nearest millisecond, never below zero, and none elsewhere; a skipped one or one without a provider adds none |
| LatencyStats.TotalsAdd | server/quota.js:160-187 | the totals start from nothing and grow by each sample's own success, cost and tokens |
| LatencyStats.Rounded | server/quota.js:181 | the recorded latency is the nearest whole millisecond, the higher of two as near, and zero below zero |
| LatencyStats.RollupIsTheHistory | server/quota.js:175-193 | a row's counts and totals are those of its recorded attempts; its p50 and p95 are the least bounds not passed by the k-th smallest of their latencies, or the last bound, p50 at most p95 |
| LatencyStats.PercentileIsTheKthSample | server/quota.js:58-73 | the estimate is the least bound that the k-th smallest sample does not pass, k the quantile's share rounded up, and the last bound when it passes them all |
| LatencyStats.QuantilesAreOrdered | server/quota.js:62-73 | a higher quantile is never estimated lower, so p50 is at most p95 |
| FreeAllowance.ProcessCounters.Claim | server/govern.js:56-67 | an expired entry counts as none; what is free is the smaller of what is wanted and what the cap leaves of the higher of the counter and the floor, the counter grows by it and keeps its expiry, and of the others only the expired ones go; the same as the store |
| FreeAllowance.AllowanceRows.Claim | server/free-allowance.js:76-108 | one transaction: each kind gets the smaller of what is wanted and what its allowance and bonus leave of its row after the kinds before it, each row grows by exactly the tokens taken from it and no other changes, with list prices and totals; it fails, and changes nothing, exactly when tokens of a kind with a bonus but no card are claimed |
| FreeAllowance.ClaimAllIs | server/free-allowance.js:83-106 | the same of any list of kinds, in terms of the rows before and after |
| FreeAllowance.ClaimsEndAtTheCap | server/free-allowance.js:76-108 | over any sequence of claims on one row under one cap the tokens granted are the smaller of what was asked and what the cap left, and the row ends with all of them added |
| FreeAllowance.ShareIsWithin | server/free-allowance.js:86-104 | of a kind no more is free than was claimed, at no more than the whole quantity's list price |
| FreeAllowance.FaultFreeGrants | server/free-allowance.js:60-108 | without faults each implementation grants, in total, the smaller of the cap and what was asked |
| FreeAllowance.StoreGrantsAsTheRow | server/govern.js:45-53 | the store, with its mirror, grants a sequence of claims what the locked row does |
| FreeAllowance.GrantsNeverPassTheCap | server/free-allowance.js:59-65 | through concurrent claims, timeouts, rollbacks and late claims the tokens granted never pass the cap, if and only if the key is not lost while a claim is under way |
| FreeAllowance.LossInFlightGrantsTwice | server/free-allowance.js:59-65 | a run that grants twice the cap when the key is lost between a claim and its commit |
| StableJson.StringComesBack | server/util.js:9 | every string of code units, surrogates alone included, is read back from its escaped text by the string grammar of section 7 of RFC 8259, whatever follows |
| StableJson.EscapedIsShortest | server/util.js:9 | no well-formed text that reads back as a string is shorter than the printed one, so nothing is escaped without need and short escapes are used |
| StableJson.ShortEscapes | server/util.js:9 | the seven short escapes are those of section 7 of RFC 8259 |
| StableJson.NumberedEscape | server/util.js:9 | any other escape is a backslash, `u` and four hexadecimal digits in lower case |
| StableJson.LiteralForms | server/util.js:8-9 | the three literals; undefined and numbers that are not finite print as `null` |
| StableJson.ArrayForms | server/util.js:10 | an array is its items between brackets with commas and no white space |
| StableJson.ObjectForm | server/util.js:12 | an object is its quoted keys, each with a colon and its value, between braces and no white space |
| StableJson.LessIsBefore | server/util.js:11 | one key comes before another if and only if it is a proper prefix of it, or has the smaller code unit at the first place they differ |
| StableJson.LessIsTotal | server/util.js:11 | of two different keys exactly one comes first, and none before itself |
| StableJson.LessTransitive | server/util.js:11 | the order of keys is transitive |
| StableJson.SortIncreasing | server/util.js:11 | sorted fields with distinct keys are in strictly increasing order |
| StableJson.SortMembers | server/util.js:11 | sorting adds and loses no field |
| StableJson.IncreasingUnique | server/util.js:11 | there is one increasing listing of given fields |
| StableJson.ParseUndoesStringify | server/util.js:7-13 | reading the printed text of any value gives it back with keys sorted, undefined fields dropped and undefined items null |
| StableJson.PrintedObject | server/util.js:11-12 | the object read back from a printed object has exactly its defined fields, their keys ascending in that order |
| StableJson.NormalPrintsTheSame | server/util.js:7-13 | a value and that normal form print as one text |
| StableJson.SameTextIffSameNormal | server/util.js:6-13 | two values print as one text if and only if their normal forms are equal |
| StableJson.FieldOrderDoesNotMatter | server/util.js:6-13 | objects with the same fields print as one text, whatever order they were written in |
| SchemaCache.Trimmed | server/schemas.js:28-33 | trimming leaves a suffix within both limits |
| SchemaCache.TrimmedIsLongest | server/schemas.js:28-33 | it leaves the longest such suffix: entries are dropped no earlier than needed |
| SchemaCache.AskedIs | server/schemas.js:42-66 | what one request leaves of the cache, in those three cases, for any cache |
| SchemaCache.Bound | server/schemas.js:36-38 | a bound becomes the largest whole number within a request of at least one, and stays otherwise |
| SchemaCache.NewIsKept | server/schemas.js:57-65 | a newly compiled schema that fits is always kept, as the most recent |
| SchemaCache.RunIsSound | server/schemas.js:16-66 | after any run both limits hold, every entry is a fresh compile of its own schema, and the kept keys are the latest used of all ever kept |
| SchemaCache.Cache.Forget | server/schemas.js:20-26 | one entry leaves the cache, the byte count and the compiler together |
| SchemaCache.Cache.Trim | server/schemas.js:28-33 | the loop leaves the longest suffix that fits |
| SchemaCache.Cache.SetLimits | server/schemas.js:36-40 | a bound changes only to a finite number of at least one, rounded down, and shrinking evicts at once |
| SchemaCache.Cache.Compile | server/schemas.js:42-66 | the function returned is a fresh compile of the given schema; a kept schema moves to the end and the others keep their order; one that fails or passes the byte limit changes nothing; a new one comes last behind as many of the latest others as the limits allow; the byte count stays the sum of the kept sizes and the compiler holds exactly the kept schemas |
| Playlist.SplitUndoesJoin | server/media-proxy.js:37-42 | lines without breaks come back from their joined text |
| Playlist.JoinUndoesSplit | server/media-proxy.js:37-42 | joining the lines of a text gives it back |
| Playlist.LinesAreCounted | server/media-proxy.js:37 | there is one line more than there are line feeds |
| Playlist.BlankLine | server/media-proxy.js:38-39 | a line of white space stays as it is and names nothing |
| Playlist.BareLine | server/media-proxy.js:38-41 | any line that does not begin with a hash is one URI, without the white space around it, and is replaced whole |
| Playlist.TagLine | server/media-proxy.js:40 | a line whose first visible character is a hash names and has replaced only what it quotes |
| Playlist.TagUntouched | server/media-proxy.js:40 | a tag line in which no quoted URI is written stays as it is |
| Playlist.TagReplaced | server/media-proxy.js:40 | the first quoted URI of a tag line, up to its first quote, is replaced by its image, what precedes it stays, and so on with what follows |
| Playlist.ScanIsStable | server/media-proxy.js:40 | the pieces of a tag line write the line, and a URI ends at its first closing quote |
| Playlist.TagScansAgain | server/media-proxy.js:40 | a rewritten tag line holds the same pieces, each quoted URI replaced |
| Playlist.LineComposes | server/media-proxy.js:37-42 | a rewritten line is of the same kind, and rewriting it again is rewriting once by both functions |
| Playlist.LinesAreKept | server/media-proxy.js:36-43 | the rewritten playlist has the same lines, each rewritten in its place |
| Playlist.RewritingComposes | server/media-proxy.js:35-43 | rewriting a playlist twice is rewriting it once by both functions |
| Playlist.UrisAreReplaced | server/media-proxy.js:36-43 | the rewritten playlist names, in order, the images of what the playlist named, and nothing else |
| MediaProxy.SafeName | server/media-proxy.js:63 | a part's file name has 1 to 80 characters, all of them in the request pattern |
| MediaProxy.SafeNameIs | server/media-proxy.js:63 | the name is the first 80 characters of the last path segment, or of `part` when there is none, each kept if it may stand in the request pattern and replaced by an underscore if not |
| MediaProxy.NameIsKeptExactly | server/media-proxy.js:63 | a name is kept as it is if and only if it has 1 to 80 characters, all of them allowed |
| MediaProxy.LongNameLosesItsExtension | server/media-proxy.js:63 | a name of 80 characters before its extension loses the extension |
| MediaProxy.PartPattern | server/media-proxy.js:101 | the end of a request names part n if and only if it is one to six digits for n and, possibly, a name |
| MediaProxy.PrintedPathIsRequest | server/media-proxy.js:63-64 | a printed path matches the request pattern and decodes to its own token and number |
| MediaProxy.RequestPattern | server/media-proxy.js:101 | a path is a request if and only if it is `/m/` and a token of 32 hexadecimal digits, alone or followed by the number of a part |
| MediaProxy.AnswersExactly | server/media-proxy.js:101-103 | a request is answered from a URL if and only if it is the token's own path and URL, or names a part that has that URL |
| MediaProxy.LocalIsPlain | server/media-proxy.js:64 | a local URL has no quote, space or break and does not start a tag, so it can replace any URI |
| MediaProxy.LocalIsAnswered | server/media-proxy.js:101-103 | a request for a local URL is answered from the URL it was given for |
| MediaProxy.NumberingIsBijective | server/media-proxy.js:58-62 | two URIs of any playlists get one local URL if and only if they name one URL |
| MediaProxy.AddingIsStable | server/media-proxy.js:53-65 | numbering more URIs keeps every number already given, keeps parts distinct and within the bound, and covers every URI of a playlist that was rewritten |
| MediaProxy.UriIsAdded | server/media-proxy.js:53-62 | what numbering one URI does: what is no URL, what is rejected or internal from a public playlist, and a new one past 200000 fail and change nothing; a new URL gets the next number, a known one keeps its own |
| MediaProxy.AllAreNumberedExactly | server/media-proxy.js:36-65 | a playlist is rewritten if and only if every URI resolves and may be named from where it comes, and the URLs it names make with those already numbered at most 200000; the parts are then exactly those URLs |
| MediaProxy.PublicNamesPublic | server/media-proxy.js:51-56 | a playlist from a public host adds only public URLs, and none that is rejected is ever added |
| MediaProxy.AnsweringUndoesRewriting | server/media-proxy.js:35-104 | replacing each local URL of a rewritten playlist by what the server answers it from, now or later, gives the playlist with absolute URIs |
| MediaProxy.TokenEntry.PartUrl | server/media-proxy.js:53-65 | a URL is refused if and only if it is rejected, or internal and the playlist is not; one too many if it is new and 200000 have a number; otherwise it is numbered once; a failure changes nothing |
| MediaProxy.TokenEntry.RewriteTag | server/media-proxy.js:40 | the loop over a tag line numbers its URIs in order and gives the line rewritten |
| MediaProxy.TokenEntry.RewritePlaylist | server/media-proxy.js:36-43 | the parts are those of numbering the playlist's URIs one by one; the first failure ends it and keeps them; otherwise the text is the playlist rewritten to those numbers |
| PowCheck.ZerosDecideWork | server/abuse/pow.js:18-27 | a digest of n bytes has at least k leading zero bits if and only if, as a big-endian number, it is below 2^(8n-k) |
| PowCheck.ValueOfLonger | server/abuse/pow.js:18-27 | the number a digest is read as: each byte more moves the others up by eight bits |
| PowCheck.ZeroBits | server/abuse/pow.js:18-27 | the two loops count exactly those bits |
| PowCheck.ToldDifficultyIsEnough | server/abuse/pow.js:56-77 | solving to the difficulty told is enough if and only if the setting is at most 28 |
| PowCheck.SettingsAre | server/abuse/pow.js:52-75 | the difficulty told and the one needed, and the lifetime, are the setting itself where it is in range and its bound elsewhere, 18 bits for none |
| PowCheck.TokenPattern | server/abuse/pow.js:64-69 | a token is parsed to a challenge and a nonce if and only if, between white space, it is 16 to 128 hexadecimal digits, a colon and 1 to 20 digits |
| PowCheck.BeginIs | server/abuse/pow.js:63-76 | a call goes on to take a challenge if and only if its token writes a solution of an unused, unexpired one with enough work |
| PowCheck.UninterruptedCall | server/abuse/pow.js:63-81 | a call that no other interrupts answers true if and only if that is so and the devices, when both are known, are the same |
| PowCheck.OneUsePerChallenge | server/abuse/pow.js:63-81 | over any interleaving of calls at most one per challenge answers true, for work that was done, before its expiry and not for another device |
| PowCheck.Challenges.IssueChallenge | server/abuse/pow.js:49-57 | an issued challenge is unused and lives as long as the setting says, between 30 seconds and an hour; of the others exactly those that expired over a day ago go |
| PowCheck.Challenges.Take | server/abuse/pow.js:43-44 | the guarded update marks the row used if and only if it is unused and has not expired, and changes nothing else |
| PowCheck.Challenges.Verify | server/abuse/pow.js:63-81 | a call answers true if and only if its token writes a solution, with enough work, of an unused and unexpired challenge that is not another device's; such a solution uses the challenge up even for another device, no other call changes a row, and no solution for it is accepted again |

## Left out

- HTTP routers, pages, the console and OpenAPI: plumbing and user interface.
- Network, providers, PostgreSQL and Valkey internals: a transaction or a store call is one atomic step, and its answer is a parameter.
- Hashes and random tokens: a hash is identified with what it is taken of, and random ids are taken to be new.
- Floating-point money reports, moving averages, JSON Schema checking, template rendering and URL parsing; the rank of a percentile uses exact real arithmetic.
- The result cache, run budgets, key grants, registry versions and the tier governor: they would add easier members.
- The caps on the queue's length, because checking them and joining the queue are separated by pauses, and `drain`, which releases waiting runs without taking them out of the queue.
- Whether every hold is finished: a run cancelled while it finishes leaves its hold to expire (server/runs.js:842).
- Exactly-once token accounting: an exception after a run has succeeded can account it twice (server/runs.js:849 and 925).
- Billing grants exactly what was asked: a grant of another amount in its answer is not modelled.
- The driver's order is taken from server/runs.js: a route never starts while an extension is pending, and an answered run logged an `ok` attempt.
- Card versions, fingerprints, supply cost, attempts and error texts, which travel in messages and decide nothing here; card rates are whole numbers of at least zero.
- CreditSession.BalanceSession.OnDelta: takes the number of characters; the shapes of provider events are not modelled.
- SettleQueue.Ordered: an id is its rank in the database's text order.
- SettleProtocol.AtMostOneSettlement: a settle's usage and card are not compared between tries, because the queue sends the body it kept.
- Quota.Quotas.Account: the counters only; daily usage, readings and the provider rollup written in the same transaction are not in it (the rollup is LatencyStats).
- Quota.Quotas.Reserve: counters are keyed by their parts rather than by a joined text, and two transactions never overlap.
- LatencyStats.LatencyRollup.RecordStats: the placement state, a moving average written in the same loop, is left out.
- FreeAllowance.AllowanceRows.Claim: the start of the period comes with the card; a claim without a subject or without any cards, which grants nothing, is left out, and prices are exact reals.
- StableJson.ParseUndoesStringify: a number is its printed text; functions, symbols, big integers, arrays with holes and objects with their own conversion are left out.
- SchemaCache.Cache.Compile: compiling depends on the schema's text only, so two schemas that declare one `$id` and a schema object changed after it was cached are left out, as is the empty schema used when none is given.
- MediaProxy.TokenEntry.RewritePlaylist: fetching, the 8 MB limit, expiry and the release of tokens are left out; one token's entry is modelled.
- PowCheck.Challenges.IssueChallenge: the deletion of old rows is taken not to fail; when it does, the service goes on without it.
- PowCheck.Challenges.Verify: times are whole milliseconds compared as numbers, and the configured difficulty is a whole number.
