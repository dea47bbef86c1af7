# Verified model of umans-gate's core

umans-gate is a local proxy in front of an LLM API. This project models the parts of it whose correctness spans
many operations, and proves what they promise over all inputs and all runs:

- the **concurrency gate** (`GateModel` and the `Gate*` modules, `SemaphoreObject`, `ConcurrencyGates`): a resizable
  weighted semaphore with per-intention reservations, borrowing of idle reservations, a bounded waiter queue and batched
  releases, behind a circuit breaker;
- the **circuit breaker** (`CircuitBreaking`), the **sliding-window rate limiter** (`RateLimiter`) and the
  **write-behind queue** (`WriteQueue`);
- the **request transformation**: cache breakpoints and their TTL (`CacheLayout`), the thinking-dependent stamps
  (`ThinkingPipeline`);
- **usage accounting** (`Economics`).

`Wrappers` holds what they share.

Objects of the program are classes with the program's fields and loops. Every method is proved against a function on
plain states (`State()` after equals the function of `State()` before), and the theorems are about those functions over
all runs of all steps. Where the program's behaviour has an independent simple form (a plain counting semaphore, a
limiter that keeps everything it admitted, accounting one capture at a time, booking at a price known in advance) the
theorem connects the two. `dafny verify dfyconfig.toml` checks the project.

Conventions: gate amounts are the integers scaled by 1000 that the program uses (`SCALE`, src/limiter/types.ts:17);
clocks, and the answers of the store, are parameters; an arrival number or push position stands for object identity.

## What the proofs found

Promises of the source's comments that the code keeps only under a condition, with the exact condition and an input
outside it.

- "FIFO ordering" (src/limiter/gate.ts:9): equal requests are served in arrival order throughout a run if and only if no
  acquire is granted at once while an equal request waits, which a caller can see before the call (`StepFifoIff`,
  `FifoThroughoutIff`). Runs of acquires, releases, resizes and cap changes never do that (`NoOvertaking`); after a
  timeout, which does not drain, an acquire can (`TimeoutLetsNewcomerOvertake`).
- A queued request can be left waiting with nothing active and nothing to wake it if and only if the configuration is
  not "roomy" for its weight and the queue depth d: it fits the limit, and (unless reservations are over-subscribed) it
  also fits beside the d largest of the reservations smaller than itself, the very largest not counted
  (`NeverStrandsIffRoomy`, for every positive depth). Reservations that are 0 or at least 1 always qualify
  (`NoStrandedWaiterWhole`), and at depth 1 fitting the limit is enough (`DepthOneNeverStrands`); two reservations of 0.4 under a
  limit of 1 do not (`FractionalReservationsAreNotRoomy`).
- src/limiter/gate.ts:321-322 says that an effective reservation is at least 1 when the limit covers the intentions. A
  reservation of at least one permit keeps one if and only if everything fits or its exact share of the limit is one
  permit (`PermitSurvivesIff`). Five and one under a limit of two leave the second a third (`PermitLostInSplit`), and it
  can lose everything (`ShareVanishesIff`, `SmallShareVanishes`).
- src/stamp-thinking.ts:86 says that `max_tokens` is stamped whenever the option is on. The code stamps it only if
  thinking is on before the forcing, so an overruled switch-off keeps the client's `max_tokens`
  (`OverruledKeepsMaxTokens`). src/stamp-thinking.ts:78-79 says that a switch-off the policy does not allow is overruled;
  `{type: <the policy's type>, enabled: false}` is taken for the wanted shape and stays
  (`SwitchOffSlipsThrough`). `ThinkingCoherence` states both as exact conditions on the incoming body.
- src/economics.ts:10-11 says that historical rows are never recomputed. A row marked known stays so over every run
  if and only if the model's price is known or no open capture can land on the row (`StaysKnownIffSafe`); allowing for
  captures stored later, if and only if the price is known (`StaysKnownWhateverArrivesIff`). Its recorded cost then only
  grows by later bookings (`SafeRowNeverRecomputed`); otherwise one accounting and one sync recompute the whole row
  (`UnsafeRowIsRecomputed`, and with a seeded price `SeededRowThaws`). src/economics.ts:404 says new models are inserted
  with `pricing_known=0`; the code inserts 1, and the model follows the code.
- `droppedCount` counts every lost entry if and only if no batch of the run fails for the tenth time in a row
  (`CounterIsExactIff`); some runs lose ten times the depth uncounted (`CounterMissesLosses`).
- src/queue.ts:2 promises batched writes, of `flushBatch` entries (25 in src/config/loader.ts:372). A push that finds the
  flush timer armed flushes at once (src/queue.ts:69-85): the second push on an idle queue already starts a write
  (`SecondPushFlushes`), and at most one entry at a time waits for the timer alone (`NothingLeftLying`). Larger batches
  form only behind a write under way.
- Waiting Retry-After seconds frees the oldest entry unless its remaining time is a whole positive number of seconds,
  because the window is closed at both ends (`RetryOnTimeFreesOldest`, `RetryOnTimeIsDenied`).

## Model

| member | source | states |
|---|---|---|
| Reservations.EffectiveReservations | src/limiter/gate.ts:323-340 | the program's loop with its `remaining` clamp returns the unclamped split, so the clamp never bites, in any key order |
| Reservations.SplitWithinLimit | src/limiter/gate.ts:321-340 | for any number of intentions the split never exceeds the limit nor the raw values, and flooring loses less than one unit per intention |
| Reservations.OverSubscribedIffSumAboveLimit | src/limiter/gate.ts:196-203 | the gate's over-subscription test holds if and only if the raw reservations sum above the limit |
| Reservations.PermitSurvivesIff | src/limiter/gate.ts:321-340 | a reservation of at least one permit is still worth one after the split if and only if everything fits or its exact share of the limit is one permit |
| Reservations.PermitLostInSplit | src/limiter/gate.ts:321-340 | reservations of five and one under a limit of two leave the second 0.333 |
| Reservations.ShareVanishesIff | src/limiter/gate.ts:321-340 | a positive reservation becomes 0 if and only if its exact share of the limit is below one unit |
| Reservations.SmallShareVanishes | src/limiter/gate.ts:321-340 | a configuration with two intentions and a limit of two in which one effective reservation is 0 |
| SemaphoreObject.Semaphore.constructor | src/limiter/gate.ts:50-70 | a new semaphore is the model's initial state, with its floors and clamps |
| SemaphoreObject.Semaphore.Reconfigure | src/limiter/gate.ts:72-87 | replaces each setting that is given, gives every reserved key its counters, and drains nobody |
| SemaphoreObject.Semaphore.Resize | src/limiter/gate.ts:129-137 | clamps the new limit between 1 and the hard cap, drains once, and reports exactly whether the limit changed |
| SemaphoreObject.Semaphore.SetHardCap | src/limiter/gate.ts:139-163 | lowers limit and soft limit to a lower cap and drains only then; NaN and infinities count as 1 |
| SemaphoreObject.Semaphore.SetSoftLimit | src/limiter/gate.ts:165-178 | changes the stored soft limit only |
| SemaphoreObject.Semaphore.CanGrant | src/limiter/gate.ts:189-205 | the four-clause decision made from the loops equals the specified decision in every state |
| SemaphoreObject.Semaphore.Capacity | src/limiter/gate.ts:350-361 | the loop computes the limit less the unfilled reservations of the other intentions in demand |
| SemaphoreObject.Semaphore.Grant | src/limiter/gate.ts:207-226 | adds the weight to both counters and hands out one permit |
| SemaphoreObject.Semaphore.Enqueue | src/limiter/gate.ts:229-234 | appends and counts, if and only if the queue is below its depth |
| SemaphoreObject.Semaphore.RemoveWaiter | src/limiter/gate.ts:236-249 | takes one waiter out and uncounts it, reports exactly whether it was queued, and drains nobody |
| SemaphoreObject.Semaphore.DrainWaiters | src/limiter/gate.ts:251-268 | one in-order pass, deciding each waiter against the state left by the grants before it |
| SemaphoreObject.Semaphore.Release | src/limiter/gate.ts:296-319 | moves the permit to the pending batch and arms the timer; an unknown or already released permit changes nothing (with src/limiter/gate.ts:218-225) |
| SemaphoreObject.Semaphore.ReleaseTimerFires | src/limiter/gate.ts:300-315 | settles the whole batch, then drains |
| SemaphoreObject.Semaphore.Acquire | src/limiter/gate.ts:470-513 | granted, queued or refused with the specified state, including the weight check |
| SemaphoreObject.ScaledIsNearest | src/limiter/gate.ts:470-473 | a scaled weight or limit is the integer nearest to a thousand times the value (with src/limiter/gate.ts:129-131) |
| SemaphoreObject.CapsFailSafe | src/limiter/gate.ts:139-163 | a cap that is NaN or infinite becomes one permit; any other cap of at least one counts its whole permits |
| GateDecision.GrantIff | src/limiter/gate.ts:189-205 | in every reachable state a request is granted if and only if it fits the limit and either reservations are over-subscribed, or its own reservation covers it, or it fits beside any list of requests that brings each other intention present to exactly its reservation; such a list exists (`TopUpExists`) (with src/limiter/gate.ts:342-361) |
| GateDecision.NothingMissingGrantsWhatFits | src/limiter/gate.ts:350-361 | a borrower must be served: when every other present intention has filled, or over-filled, its reservation, a request is granted if and only if it fits |
| GateDecision.AnswersAreTrue | src/limiter/gate.ts:470-513 | granted, queued, refused and invalid are answered in exactly the states that are so, and the state changes as answered |
| GateDecision.ReconfigureTakesEffect | src/limiter/gate.ts:72-87 | after new reservations every decision is that of a gate that always had them |
| GateDecision.LimitsAsGiven | src/limiter/gate.ts:139-178 | limits in whole permits are stored scaled, and a lower cap caps limit and soft limit (with src/limiter/gate.ts:50-54) |
| GateConservation.SettleIsExact | src/limiter/gate.ts:305-311 | the `Math.max(0, ..)` clamps of a release batch never bite when the counters cover the batch |
| GateConservation.StepConserves | src/limiter/gate.ts:207-249 | each step keeps `active`, `activeByIntention`, `queuedByIntention` and the timer flag equal to what permits and queue say (with src/limiter/gate.ts:251-319) |
| GateConservation.ConservationOverRuns | src/limiter/gate.ts:129-163 | over every run: active is the weight of held plus pending permits, per intention too; queue counters count the queue; timer armed if and only if releases are pending; limit within the cap (with src/limiter/gate.ts:207-319) |
| GateConservation.ActiveIsSumOverIntentions | src/limiter/gate.ts:213-214 | active is the sum of `activeByIntention` over all intentions (with src/limiter/gate.ts:306-310) |
| GateConservation.StepBound | src/limiter/gate.ts:192-205 | no step raises active above the limit then in force, and a step that grants ends within it (with src/limiter/gate.ts:442-452) |
| GateConservation.ActiveWithinPeakLimit | src/limiter/gate.ts:442-452 | active never exceeds the largest limit of the run |
| GatePermits.GrantedOnce | src/limiter/gate.ts:207-226 | over every run nobody is granted twice, nobody granted still waits, and held and pending permits are distinct grants (with src/limiter/gate.ts:251-268) |
| GatePermits.ReleaseCountsOnce | src/limiter/gate.ts:218-225 | once a permit is released, releasing it again after any further steps changes nothing |
| GatePermits.QueueWithinPeakDepth | src/limiter/gate.ts:229-234 | the queue is never longer than the largest depth the run has configured |
| GateScheduling.RefusalSurvivesGrant | src/limiter/gate.ts:189-205 | a grant to any intention never makes a refused request of any intention grantable (with src/limiter/gate.ts:350-361) |
| GateScheduling.DrainSettles | src/limiter/gate.ts:251-268 | after one pass no remaining waiter is grantable |
| GateScheduling.SettledOverRuns | src/limiter/gate.ts:251-319 | "no queued waiter is grantable" holds over all runs of acquires, releases, release batches, resizes and cap changes (with src/limiter/gate.ts:129-163, src/limiter/gate.ts:475-515) |
| GateScheduling.NoOvertaking | src/limiter/gate.ts:251-268 | at every moment of such runs, requests of one intention and weight have been granted in arrival order, newcomers and waiters alike (with src/limiter/gate.ts:475-515) |
| GateScheduling.StepFifoIff | src/limiter/gate.ts:475-515 | a step of any kind keeps arrival order if and only if it is not an acquire granted at once while an equal request waits |
| GateScheduling.FifoThroughoutIff | src/limiter/gate.ts:236-268 | over any run, timeouts, aborts and reconfigurations included, arrival order holds throughout if and only if no step does that (with src/limiter/gate.ts:72-87, src/limiter/gate.ts:475-515) |
| GateScheduling.FifoOverSettledRuns | src/limiter/gate.ts:236-268 | in particular when each acquire finds no grantable waiter |
| GateBorrowing.TimeoutLetsNewcomerOvertake | src/limiter/gate.ts:236-249 | a six-step run in which a timeout lets a newcomer overtake an equal waiter (with src/limiter/gate.ts:489-495) |
| GateBorrowing.BorrowingRespectsDemand | src/limiter/gate.ts:189-205 | right after a grant made through `capacity`, any number of requests of other in-demand intentions that stay inside their reservations are all granted, in any order (with src/limiter/gate.ts:342-361) |
| GateBorrowing.FractionalReservationsAreNotRoomy | src/limiter/gate.ts:189-205 | two reservations of 0.4 under a limit of 1 fail the roominess condition for weight 1 and a queue of two, and meet it for a queue of one and for weight 0.6 |
| GatePlain.SingleIntentionIsPlainSemaphore | src/limiter/gate.ts:189-226 | while one intention makes requests the gate goes through the states of a plain weighted semaphore of the same limit, step by step, whatever the reservations (with src/limiter/gate.ts:342-361) |
| GateProgress.DrainWakes | src/limiter/gate.ts:251-268 | in a roomy configuration a drain that starts with nothing active and a non-empty queue grants someone (with src/limiter/gate.ts:296-319) |
| GateProgress.NoStrandedWaiter | src/limiter/gate.ts:189-319 | over every run that stays roomy, whoever waits, a permit is held or the release timer is armed; timeouts, aborts and reconfigurations included (with src/limiter/gate.ts:462-530) |
| GateProgress.NoStrandedWaiterWhole | src/limiter/gate.ts:189-319 | the same for weights up to 1 and reservations that are 0 or at least 1, at any queue depths (with src/limiter/gate.ts:462-530) |
| GateStranding.StrandingRun | src/limiter/gate.ts:189-205 | for every configuration and positive queue depth that is not roomy, a run that strands a waiter (with src/limiter/gate.ts:296-319) |
| GateStranding.NeverStrandsIffRoomy | src/limiter/gate.ts:189-205 | for every positive queue depth, at a fixed configuration no run strands a waiter if and only if the configuration is roomy for that depth (with src/limiter/gate.ts:251-319) |
| GateStranding.DepthOneNeverStrands | src/limiter/gate.ts:189-205 | with room for one waiter no run strands a request that fits the limit, whatever the reservations |
| ConcurrencyGates.ConcurrencyGate.Acquire | src/limiter/gate.ts:470-513 | weight check, then breaker, then semaphore, with the probe mark, on both states |
| ConcurrencyGates.ConcurrencyGate.WaiterLeaves | src/limiter/gate.ts:489-495 | a waiter that leaves is uncounted, and reopens the breaker if it was the probe (with src/limiter/gate.ts:517-528) |
| ConcurrencyGates.AnswersAreTrue | src/limiter/gate.ts:470-513 | at any moment of any run an arrival is answered circuit_open if and only if its weight is positive and the breaker is half-open, or open with its cooldown not over; granted, queued and refused for a full queue exactly in the remaining cases, and the state is as answered |
| ConcurrencyGates.RunSplits | src/limiter/gate.ts:462-545 | every run of the gate is a run of the semaphore, whose acquires are exactly the arrivals that pass the breaker, beside a run of the breaker |
| ConcurrencyGates.BreakerEventsOrdered | src/limiter/gate.ts:462-545 | a run at non-decreasing times is one for the breaker, so its theorems about time carry over |
| ConcurrencyGates.GateSingleFlight | src/limiter/gate.ts:475-481 | between two arrivals that pass while the breaker is not closed it has opened again, at least the cooldown before the second |
| ConcurrencyGates.GateCooldown | src/limiter/gate.ts:475-481 | no arrival passes sooner after the latest opening than the cooldown in force when the half-open episode began |
| ConcurrencyGates.GateOverRuns | src/limiter/gate.ts:394-545 | the public gate keeps its accounts, its probe flag and a way to wake its queue over every run |
| CircuitBreaking.CircuitBreaker.Enter | src/limiter/circuit-breaker.ts:36-50 | the mode an acquire sees and the only transition it causes |
| CircuitBreaking.CircuitBreaker.Note429 | src/limiter/circuit-breaker.ts:52-64 | logs, prunes and opens as specified; other kinds of 429 change nothing |
| CircuitBreaking.CircuitBreaker.NoteSuccess | src/limiter/circuit-breaker.ts:66-72 | closes from half-open only, clearing log and probe |
| CircuitBreaking.CircuitBreaker.ProbeLost | src/limiter/circuit-breaker.ts:74-80 | reopens, restarting the cooldown, only while a probe is in flight |
| CircuitBreaking.CircuitBreaker.Configure | src/limiter/circuit-breaker.ts:18-26 | replaces each setting that is given, prunes against the window then in force, and never changes the mode |
| CircuitBreaking.ProbeIffHalfOpen | src/limiter/circuit-breaker.ts:36-80 | in every run the probe flag is set if and only if the breaker is half-open |
| CircuitBreaking.ClosedLetsPass | src/limiter/circuit-breaker.ts:36-50 | every acquire at a closed breaker passes and changes nothing |
| CircuitBreaking.TurnedAwayIff | src/limiter/circuit-breaker.ts:36-50 | over every run an acquire is turned away if and only if the breaker is half-open, or open with its cooldown not over |
| CircuitBreaking.ModeChanges | src/limiter/circuit-breaker.ts:36-80 | every mode change and its exact cause: a concurrency 429 that reaches the threshold opens, from half-open too; success or a lost probe ends half-open; only an acquire after the cooldown leaves open |
| CircuitBreaking.ConfigureTakesEffect | src/limiter/circuit-breaker.ts:18-26 | each given setting takes effect, the log keeps exactly the times of the window then in force, the mode stays (with src/limiter/circuit-breaker.ts:52-58) |
| CircuitBreaking.PassWhileNotClosed | src/limiter/circuit-breaker.ts:36-50 | while not closed an acquire passes if and only if the breaker is open with its cooldown over, and it then starts the half-open episode; all others are rejected and change nothing |
| CircuitBreaking.SingleFlight | src/limiter/circuit-breaker.ts:32-80 | between two acquires that pass while not closed the breaker has opened again, and the second comes at least the cooldown later |
| CircuitBreaking.CooldownIsRespected | src/limiter/circuit-breaker.ts:36-64 | no acquire passes sooner after the latest opening than the cooldown in force when the half-open episode began, in any mode and across reconfigurations |
| CircuitBreaking.LogAgreement | src/limiter/circuit-breaker.ts:52-72 | the pruned log is the full history since the last close cut to the window; the breaker leaves closed exactly when that reaches the threshold |
| RateLimiter.SlidingWindowRateLimiter.LowerBound | src/rate.ts:74-82 | the binary search returns the first position not before the cutoff |
| RateLimiter.SlidingWindowRateLimiter.Prune | src/rate.ts:74-87 | pruning leaves exactly the window of everything ever admitted, and the running sum is its weight |
| RateLimiter.SlidingWindowRateLimiter.Check | src/rate.ts:33-52 | decides as a limiter that never prunes would, and records exactly what it admits |
| RateLimiter.SlidingWindowRateLimiter.Peek | src/rate.ts:55-72 | gives the answer `check` would give, and records nothing |
| RateLimiter.SlidingWindowRateLimiter.Count | src/rate.ts:90-93 | the weight in the window of the full log |
| RateLimiter.SlidingWindow | src/rate.ts:33-52 | for a non-decreasing clock and every time T, the weight ever admitted in [T - window, T] is at most the limit (with src/rate.ts:74-87) |
| RateLimiter.DeniedIff | src/rate.ts:33-52 | a request is denied if and only if it would take the closed window that ends now above the limit |
| RateLimiter.RemainingIsWhatFits | src/rate.ts:33-52 | after a check, a further positive request at the same moment is admitted if and only if it asks for no more than `remaining` |
| RateLimiter.LightTrafficIsAdmitted | src/rate.ts:33-52 | a sequence of requests that never asks for more than the limit in any window is admitted as a whole |
| RateLimiter.RetryAfterRange | src/rate.ts:36-43 | Retry-After (section 10.2.3 of RFC 9110) lies between 1 and the window in seconds |
| RateLimiter.EarlyRetryDenied | src/rate.ts:36-43 | after a denial, whatever is asked meanwhile, an at least as heavy retry a second or more before Retry-After is up is denied |
| RateLimiter.RetryOnTimeFreesOldest | src/rate.ts:36-43 | waiting Retry-After frees the oldest entry if and only if its remaining time is not a positive whole number of seconds (with src/rate.ts:74-82) |
| RateLimiter.RetryOnTimeIsDenied | src/rate.ts:36-43 | a request denied with Retry-After 60 that is denied again after exactly 60 seconds |
| WriteQueue.WriteBehindQueue.QueueUpdate | src/queue.ts:65-102 | timer, flush and overflow branches of a push |
| WriteQueue.WriteBehindQueue.GuardedFlushNow | src/queue.ts:104-116 | at most one flush at a time; the batch is the whole queue (with src/queue.ts:158-161) |
| WriteQueue.WriteBehindQueue.FlushSucceeded | src/queue.ts:204-218 | the batch is persisted and is what the listener is told about; retry timer and count are cleared |
| WriteQueue.WriteBehindQueue.FlushFailed | src/queue.ts:164-203 | the batch returns to the front; after ten failures in a row everything queued is given up |
| WriteQueue.WriteBehindQueue.ContinueAfterFlush | src/queue.ts:105-110 | a caller that waited for a flush starts another if and only if something is queued and nobody else has |
| WriteQueue.WriteBehindQueue.Shutdown | src/queue.ts:130-150 | empties the queue, counting each entry as dropped, and disarms both timers |
| WriteQueue.OrderAndConservation | src/queue.ts:65-150 | over every run: persisted, in-flight and queued entries together are in push order, nothing is persisted twice, an entry is missing if and only if it overflowed, was drained or was given up, and `droppedCount` misses exactly the last kind (with src/queue.ts:158-208) |
| WriteQueue.NothingLeftLying | src/queue.ts:65-116 | in every run whatever is queued has a timer or a waiting caller that will flush it, and behind a batch a retry timer does not count; a full batch, or any second entry, has more than the flush timer (with src/queue.ts:158-208) |
| WriteQueue.WakersFlush | src/queue.ts:69-116 | with no flush under way each such timer and caller puts the whole queue in flight |
| WriteQueue.TimersFireOnce | src/queue.ts:69-116 | a fired timer is off; it waits for the flush under way or starts one of the whole queue, after which no flush timer is armed (with src/queue.ts:158-203) |
| WriteQueue.EachCallerRunsOnce | src/queue.ts:104-113 | over every run, the callers waiting, the callers about to run and those that have run on are together exactly the pushes and timers that found a flush under way |
| WriteQueue.RetriesCountFailures | src/queue.ts:164-208 | the retry count is the number of failed flushes since the last success or giving up, and a retry timer is armed only after a failure |
| WriteQueue.PushKeepsNewest | src/queue.ts:86-101 | with a depth of at least two a push never loses the entry just pushed |
| WriteQueue.SecondPushFlushes | src/queue.ts:65-85 | two pushes on a new queue put both entries in flight, for every batch size and depth of at least two |
| WriteQueue.ShutdownEndsIt | src/queue.ts:130-150 | after any run the shutdown drain leaves nothing queued and no timer, counts what was queued, and leaves the batch in flight alone |
| WriteQueue.CounterIsExactIff | src/queue.ts:164-178 | `droppedCount` counts every lost entry if and only if no batch of the run fails for the tenth time in a row |
| WriteQueue.CounterMissesLosses | src/queue.ts:164-178 | for every depth and batch size a run that loses at least ten times the depth uncounted |
| WriteQueue.BufferBound | src/queue.ts:65-116 | in-flight plus queued entries stay below 11 times `queueMaxDepth` in every run (with src/queue.ts:158-208) |
| WriteQueue.BufferBoundIsReached | src/queue.ts:65-116 | for every depth and batch size a run reaches 11 times `queueMaxDepth` less one (with src/queue.ts:158-208) |
| CacheLayout.LastUser | src/restamp-breakpoints.ts:67-75 | the last user message with a non-empty block array, and none after it |
| CacheLayout.FindLastUser | src/restamp-breakpoints.ts:67-75 | the backward scan finds that message |
| CacheLayout.RestampBreakpoints | src/restamp-breakpoints.ts:62-138 | returns the restamped body, and its "nothing changed" signal is exact |
| CacheLayout.Request.StampCacheTtl | src/stamp.ts:13-33 | stamps in place every ephemeral breakpoint without a ttl and returns how many there were |
| CacheLayout.LayoutIsB | src/restamp-breakpoints.ts:49-138 | for every body with messages: breakpoints are exactly at the first system block (if text, or if it had one) and at the last block of the last user message with non-empty array content, each with a ttl; a ttl already there survives (with src/stamp.ts:7-33) |
| CacheLayout.NoMessagesNoRestamp | src/restamp-breakpoints.ts:62-65 | without messages no breakpoint moves; only missing ttls are filled in (with src/stamp.ts:13-33) |
| CacheLayout.StampedIsCount | src/stamp.ts:13-33 | the number reported is the number of blocks of the whole body with an ephemeral breakpoint and no ttl |
| CacheLayout.LayoutOfSmallRequest | src/restamp-breakpoints.ts:62-138 | a small body value by value: the breakpoint on the last user message, and not on the assistant message after it, carries the given ttl (with src/stamp.ts:13-33) |
| CacheLayout.AtMostTwoBreakpoints | src/restamp-breakpoints.ts:62-138 | at most one breakpoint in system, and in the messages exactly one or, without a target, none (with src/restamp-breakpoints.ts:11-14) |
| CacheLayout.LayoutTouchesOnlyCacheControl | src/restamp-breakpoints.ts:36-47 | erasing cache_control from the result and from the input gives the same body (with src/stamp.ts:13-33) |
| CacheLayout.LayoutIdempotent | src/restamp-breakpoints.ts:49-138 | restamping and TTL stamping twice is the same as once, for every body (with src/stamp-pipeline.ts:85-123) |
| ThinkingPipeline.RequestBody.ApplyStampThinking | src/stamp-thinking.ts:92-123 | the in-place step equals its specification, and reports every change |
| ThinkingPipeline.RequestBody.ApplyPerModelRule | src/stamp-pipeline.ts:193-267 | the Anthropic branch of the rule step and its top-level merge, with its changed flag |
| ThinkingPipeline.RequestBody.ApplyPipeline | src/stamp-pipeline.ts:125-364 | the thinking-dependent steps on the Anthropic route, in pipeline order |
| ThinkingPipeline.ThinkingCoherence | src/stamp-pipeline.ts:125-364 | the exact condition on the incoming body under which thinking leaves on; then its shape, context_management, temperature, output_config, max_tokens and top_k are determined; otherwise all six fields leave unchanged (with src/stamp-thinking.ts:33-50, src/stamp-thinking.ts:92-123) |
| ThinkingPipeline.DisabledThinkingIsRespected | src/stamp-thinking.ts:28-39 | a client that switches thinking off where the policy allows it gets all six fields back unchanged (with src/stamp-pipeline.ts:226-228) |
| ThinkingPipeline.OtherFieldsPass | src/stamp-pipeline.ts:125-364 | the thinking-dependent steps pass every other field through, except reasoning_effort and what the rule merges in (the two cache steps before them rewrite `system` and `messages`) |
| ThinkingPipeline.ExtraReachesTheWire | src/stamp-pipeline.ts:193-267 | each key the rule merges in leaves with the value the rule gives it |
| ThinkingPipeline.DisabledIff | src/stamp-thinking.ts:28-39 | switched off are exactly the objects whose `type` spells disabled, off or none in letters of any case, or whose `enabled` is false |
| ThinkingPipeline.UpperCaseOffCounts | src/stamp-thinking.ts:28-39 | `OFF` and `None` switch off; `offset`, a plain string and an absent value do not |
| ThinkingPipeline.TakenForShapeIff | src/stamp-thinking.ts:58-70 | when a value is taken for a wanted shape, shape by shape |
| ThinkingPipeline.GlmRequest | src/stamp-pipeline.ts:125-364 | a request through all steps value by value, with the constants of src/config/constants.ts:10-23 |
| ThinkingPipeline.SwitchOffSlipsThrough | src/stamp-thinking.ts:58-70 | a body for which a model that cannot disable thinking leaves with thinking off (with src/stamp-thinking.ts:102-112) |
| ThinkingPipeline.OverruledKeepsMaxTokens | src/stamp-thinking.ts:97-112 | a body whose thinking is forced on while the client's max_tokens stays |
| Economics.Ledger.AccountCapture | src/economics.ts:135-240 | books an open capture's usage on its day, marks it, and does nothing the second time |
| Economics.Ledger.AccountCaptures | src/economics.ts:251-368 | the batch leaves the tables that accounting the ids one by one leaves |
| Economics.Ledger.SyncPricing | src/economics.ts:409-487 | updates or inserts each priced model, then backfills; the three counts returned are exact |
| Economics.Ledger.BackfillUnpriced | src/economics.ts:496-555 | reprices exactly the rows not marked known whose model has a price row, and returns how many |
| Economics.SyncStoresLastPrice | src/economics.ts:409-487 | the last priced mention of a model decides its input and output price, and it is known; unmentioned models keep their row; a cache-read price already set survives |
| Economics.CacheReadIsEstimated | src/economics.ts:409-487 | a model without a cache-read price gets the estimate, once it is listed with a price |
| Economics.EstimateIsClose | src/economics.ts:446-446 | the estimate is 18.6 percent of the input price rounded to three decimals |
| Economics.PricedIsCount | src/economics.ts:431-487 | the updated and inserted counts together are the number of listed models with a price |
| Economics.UnpricedIsWhatChanges | src/economics.ts:496-555 | the backfilled count is the number of rows that become known, and no other row changes |
| Economics.SyncPricesUnknownRows | src/economics.ts:496-555 | each row not marked known of a model with a price leaves a sync at its tokens times that price, part by part, and every other row is untouched |
| Economics.CostsFollowTokens | src/economics.ts:179-193 | while prices stand still the cost of a day is its tokens times the price per million, part by part, cache creation at the input price |
| Economics.UnpricedCostsNothing | src/economics.ts:179-219 | over any run, until a model has a price its days cost nothing more, and a row that grew is not known |
| Economics.BatchEqualsEach | src/economics.ts:242-368 | on any id list, with duplicates, and in whatever order the store returns the captures, the batch equals the fold of single accountings |
| Economics.KeptOverRuns | src/economics.ts:193-219 | cost_total is always the sum of its parts, a known price stays known, and every row of a model with a known price is marked known (with src/economics.ts:409-555) |
| Economics.UsageIsConserved | src/economics.ts:127-240 | over any mix of accounting and syncing, each row grows by exactly the requests and tokens of the captures due on it, each capture once (with src/economics.ts:496-555) |
| Economics.CostsFreeze | src/economics.ts:127-133 | once a price is known a day's cost is what it was plus what each later capture cost at the price of its moment; no sync changes it (with src/economics.ts:10-13) |
| Economics.LatePriceCostsTheSame | src/economics.ts:489-555 | captures accounted before the price was known and backfilled later leave the row that an earlier sync would have left (with src/economics.ts:12-13) |
| Economics.FrozenIffKnown | src/economics.ts:496-555 | the next sync leaves a row alone, whatever prices it brings, if and only if the row is marked known |
| Economics.StaysKnownIffSafe | src/economics.ts:193-240 | a row marked known stays so over every run of accountings and syncs if and only if the model's price is known or no open capture can land on the row (with src/economics.ts:496-555) |
| Economics.StaysKnownWhateverArrivesIff | src/economics.ts:193-240 | the same with any captures stored later: if and only if the model's price is known |
| Economics.SafeRowNeverRecomputed | src/economics.ts:10-13 | the recorded cost of such a row only ever grows by what later captures cost at the price of their moment |
| Economics.UnsafeRowIsRecomputed | src/economics.ts:219-219 | otherwise one accounting and one sync replace all costs of the row by its tokens at the new price (with src/economics.ts:496-555) |
| Economics.SeededRowThaws | src/economics.ts:496-555 | a run in which a row settled at a seeded price loses its mark and is repriced as a whole (with src/economics.ts:94-113, src/economics.ts:219) |

## Left out

- Shutdown of the gate (src/limiter/gate.ts:274-297): it zeroes `active` while permits are out, so the accounts are a property of runs before it.
- A breaker check on drained waiters, and breaker liveness: the program promises neither. A probe refused because the queue is full leaves the breaker half-open.
- EffectiveReservations: exact integer arithmetic; the program computes the ratio in floating point before flooring.
- Conversion of configured reservations to scaled integers, the default reservation record, and option validation: one expression each.
- Callbacks of the gate (`onAcquire`, stats) and abort signals: assumed not to call back into the gate; an abort is a waiter leaving.
- NaN weights: weights and limits are real numbers, scaled and rounded as the program does.
- SlidingWindow: weights and limit are non-negative and the clock does not go back, as its callers guarantee; sums are exact reals.
- OrderAndConservation: the store is all-or-nothing and flushes go through the guard; the unguarded flush at shutdown (src/index.ts:1030-1038) and an `onFlush` callback that throws are not modelled.
- Retry delays of the write queue: timers may fire at any time, so the proofs do not depend on the delay formula.
- LayoutIsB: blocks and messages are objects with a string or absent `type`, and a ttl is a string or absent; the reminder strip that may follow is not modelled.
- FlushSucceeded: the summary that is broadcast for each entry, and its latency percentiles, are not modelled.
- LogAgreement: for a window and threshold that are not reconfigured; a wider window cannot bring back what a narrower one pruned.
- StaysKnownIffSafe: a run accounts the captures stored when it starts; StaysKnownWhateverArrivesIff covers captures stored after that. Updates of a stored capture happen before it is accounted.
- ApplyPerModelRule: the OpenAI branch of the step is left out with the other OpenAI steps.
- ThinkingCoherence: covers the Anthropic route with stamping on and a rule whose extra keys are none of the six fields or `model`; the wire order of `model` and `top_k` is not modelled, as bodies are maps.
- OpenAI steps of the pipeline (reasoning effort, stream usage): each is settled by reading one branch.
- AccountCaptures: the captures the store selects, and the calendar day of a capture without a start time, are parameters; rows are maps without SQL.
- CostsFreeze: money is exact; rounding of stored floating-point costs is not modelled.
- Proxying, streaming, persistence, configuration loading, the dashboard and the command line: I/O and presentation.
