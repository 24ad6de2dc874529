# Relayix, modelled and proved in Dafny

Relayix is a gateway in front of LLM providers. This project models the four state machines that carry its promises,
and proves what they guarantee over every run, every script of provider behaviour and every interleaving of
requests.

* **Circuit breaker** (`CircuitBreakers`, `BreakerRuns`, `BreakerTraffic`). A class with the breaker's fields is
  proved against four atomic steps. Runs are logs of those steps at non-decreasing times by unboundedly many
  callers, each holding a ticket (the generation it was admitted under). `BreakerTraffic` shows that the calls and
  streams of the resilience wrapper produce only such runs.
* **Rate limiters** (`TokenBuckets`, `BucketWindows`, `RedisBuckets`, `ResilientLimiters`, `LimiterFleets`,
  `FleetBounds`, `LateStamps`, `StampsOutOfOrder`, `FleetTrials`). Token buckets over exact reals: in memory, in
  Redis with expiring hashes, and composed under a breaker by any number of processes whose checks interleave at
  every `await`, the one between sampling a stamp and sending it included, and may be cancelled there.
* **Failover and streaming** (`Chat`, `Streams`, `ProviderAdapters`, `ResilientAdapters`, `Gateways`,
  `StreamPipelines`). An async generator is the sequence of deltas it yields and the way it ends; its consumer may
  close it at any event. Each layer is a loop over the layer below, proved against a closed form of what it yields,
  raises, bills and reports.
* **Idempotency protocol** (`IdempotencyStores`, `IdempotencyRuns`, `IdempotencyTimes`, `IdempotencyServices`,
  `EndToEnd`). Requests that share a key interleave at every Redis command and operation; each command may be
  answered, never run, or run with its answer lost. `EndToEnd` composes the protocol with failover, the wrapper and
  the adapters' error classes. One slot is enough because keys are scoped by caller (`KeysAreScoped`).

Inputs, not modelled further: the clock (one monotone clock, also where the code reads wall time), what providers
and Redis do, whether usage recording succeeds, the ranked candidates, and when consumers stop. Rate limits are at
least one and failure thresholds at least one, as the key schema and configuration have them.

What a provider really did is an input too, which the gateway cannot see. `EndToEnd.SafeIffNoLeak` and
`EndToEnd.AtMostOnceEndToEnd` assume nothing about it beyond this: a provider that is not called does not run. The
designers' own assumption, that a failed connection or a status below 500 means nothing ran
(`app/core/exceptions.py:67-71`), is `TruthfulCall` and `TruthfulStream`, the latter only for streams of which
nothing had arrived; lemmas that need it say so.

## Where code and documentation differ

The model follows the code.

* A stream delivered to its end through the gateway reaches the breaker as an abort, not as a success, because
  draining never resumes the wrapper past the terminal response (`app/services/gateway_service.py:218-232`). Traffic
  of streams alone therefore never closes a tripped breaker and never resets its count
  (`BreakerTraffic.StreamsNeverRecover`), although `docs/core/resilience.md` says that a success closes it.
* "Always safe to fail over" (`app/core/exceptions.py:67-71`) fails for streams. A stream that announced its
  message, or delivered chunks without text, and then lost its connection or got a status below 500 counts as
  unavailable, because the adapters only ask whether there was text
  (`app/core/adapters/anthropic_adapter.py:141-159`). Such a stream may have run and is failed over all the same,
  under at-most-once too: that is exactly the unsound case
  (`ResilientAdapters.UnavailableStreamsRanIffBrokenEarly`), and `EndToEnd.EarlyBreakExecutesTwice` is a request
  that executes twice.
* "Runs at most once per key" (`app/services/idempotency_service.py:58`) holds if and only if no operation leaks
  (`EndToEnd.SafeIffNoLeak`, `IdempotencyRuns.AtMostOnceIffSafe`, `EndToEnd.LeakDefeatsAtMostOnce`). An operation
  leaks if its provider ran it and then it is cancelled, raises an unexpected exception or cannot record its usage,
  which frees the key; or if a candidate that ran was passed over as unavailable and then another one runs, nobody
  serves, or the key is freed. The concrete runs are `EndToEnd.CancellationDefeatsAtMostOnce` and
  `EndToEnd.EarlyBreakDefeatsAtMostOnce`. It also needs owners to settle before their claim expires
  (`IdempotencyTimes.OneOwnerIffClaimsLastLonger`).
* "Source of truth across all workers" (`app/infra/ratelimit/redis_limiter.py:1`): a check samples its stamp before
  it sends the script (`app/infra/ratelimit/redis_limiter.py:61-70`), so scripts run late and stamps can reach Redis
  out of order, with one perfect clock too. With passes counted when they happen, `FleetBounds.FleetBound` bounds
  them by the N + 1 shares, the refill of the lag and the refill of the seconds by which stamps were set back. In
  order, the shared bucket keeps to its own share if and only if there is no lag
  (`LateStamps.SharedShareHoldsIffNoLag`), and the fleet to its N + 1 shares if and only if the lag refills at most
  N / (N + 1) of a token (`LateStamps.FleetSharesHoldIffLagIsSmall`). Out of order, there is a bound at all if and
  only if nothing is set back (`StampsOutOfOrder.BoundedIffNothingSetBack`); the runs are
  `StampsOutOfOrder.LateStampsDefeatAnyBound`.
* A rate-limit check that is cancelled makes no report to its breaker (`app/core/ratelimit/resilient.py:32-44`),
  unlike a cancelled provider call. If it was the trial of a half-open breaker, that process never asks Redis again
  (`FleetTrials.CancelledTrialIsLost`, `FleetTrials.LostForever`, with `FleetTrials.TrialsCanBeLost` as the run),
  although `docs/core/resilience.md` has every other caller rejected only "until the trial reports back".
* A stream is cut only when it stalls, not when it lasts (`app/core/resilience/resilient_adapter.py:73-93`), so it can
  outlive its claim and overwrite the stored response of a request that was served in the meantime
  (`IdempotencyTimes.PatientStreamOverwrites`).
* The comment that a committed stream fails only as `UpstreamStreamInterrupted`
  (`app/services/gateway_service.py:128-129`) holds exactly for stalls and for provider errors whose partial usage
  is recorded; cancellation, unexpected exceptions and a failing recorder keep their class
  (`StreamPipelines.CommittedStreamsFailAsInterrupted`, with `StreamPipelines.CancelledStreamIsNotInterrupted` as
  the input).
* `docs/core/resilience.md` shows `allow()` and `record_*` without the generation that the code hands out and
  checks.

## Model

| member | source | states |
|---|---|---|
| `CircuitBreakers.CircuitBreaker.Ask` | app/core/resilience/circuit_breaker.py:39-58 | the verdict, ticket and whole new state of one admission step |
| `CircuitBreakers.CircuitBreaker.RecordSuccess` | app/core/resilience/circuit_breaker.py:60-67 | the whole new state after a success, stale tickets ignored |
| `CircuitBreakers.CircuitBreaker.RecordFailure` | app/core/resilience/circuit_breaker.py:69-80 | the whole new state after a failure, with the trip and its deadline |
| `CircuitBreakers.CircuitBreaker.RecordAbort` | app/core/resilience/circuit_breaker.py:82-88 | the whole new state after an abort |
| `CircuitBreakers.CircuitBreaker.EnterState` | app/core/resilience/circuit_breaker.py:90-95 | entering a state retires the generation |
| `BreakerRuns.TicketInvariant` | app/core/resilience/circuit_breaker.py:20-23 | over every run: tickets, trial flag, state and counter agree, and generations and time never go back |
| `BreakerRuns.CoolDownIsFrozen` | app/core/resilience/circuit_breaker.py:47-52 | until the reset timeout has passed no run changes an open breaker or admits a call; stale outcomes do not move the deadline |
| `BreakerRuns.OpenedAtTheTrip` | app/core/resilience/circuit_breaker.py:75-80 | over every run from the start, an open breaker's deadline counts from the time of the action that tripped it |
| `BreakerRuns.CoolDownFollowsTrip` | app/core/resilience/circuit_breaker.py:47-52 | from the action that trips it until the reset timeout later, nothing changes the breaker and nobody is admitted |
| `BreakerRuns.AdmittedExactlyWhen` | app/core/resilience/circuit_breaker.py:39-58 | over every run, an ask is admitted exactly while closed, the reset timeout after the trip, or half-open with no call of its generation outstanding |
| `BreakerRuns.AbortedTrialFreesTheSlot` | app/core/resilience/circuit_breaker.py:82-88 | after an aborted trial the next ask is admitted, under the same generation |
| `BreakerRuns.ProbeBound` | app/core/resilience/circuit_breaker.py:15-18 | a tripped breaker that has not closed has begun no more half-open periods than whole reset times have passed |
| `BreakerRuns.FitsIsFloor` | app/core/resilience/circuit_breaker.py:15-18 | that number is floor(elapsed / reset) |
| `BreakerRuns.ProbesFollowTrip` | app/core/resilience/circuit_breaker.py:15-18 | the bound on half-open periods, counted from the action that tripped the breaker |
| `BreakerRuns.OneProbePlusAborts` | app/core/resilience/circuit_breaker.py:54-58 | the calls a half-open period has admitted are its aborts plus the one in flight |
| `BreakerRuns.SilentTrialBlocks` | app/core/resilience/circuit_breaker.py:54-58 | until the trial of a half-open breaker reports, no run of any length changes the breaker or admits another call |
| `BreakerRuns.CounterIsHistory` | app/core/resilience/circuit_breaker.py:60-80 | while closed, the counter is the length of the run of failures ending the current generation's history, a filter of the log |
| `BreakerRuns.TripsExactlyOnThreshold` | app/core/resilience/circuit_breaker.py:75-80 | a closed breaker trips on exactly the actions after which the last threshold-many live outcomes are failures |
| `BreakerTraffic.Report` | app/core/resilience/resilient_adapter.py:43-107 | a finished use makes one report under its own ticket, and a stream through the gateway never reports a success |
| `BreakerTraffic.TrafficIsARun` | app/core/resilience/resilient_adapter.py:37-107 | any traffic of wrapped calls and streams is a valid breaker run, with outstanding tickets exactly those of the uses in flight |
| `BreakerTraffic.TrialIsTheUseInFlight` | app/core/resilience/circuit_breaker.py:54-58 | a half-open breaker's flag is set exactly when one use in flight holds its generation; none does while open |
| `BreakerTraffic.ReportFollowsUse` | app/core/resilience/resilient_adapter.py:43-107 | which ends of a call or a stream count as a success, which as a failure, and that all others abort |
| `BreakerTraffic.CountIsErrorsInARow` | app/core/resilience/resilient_adapter.py:46-63 | while closed, the count is the number of uses of the period that erred in a row, told from how their SDK calls and streams ended |
| `BreakerTraffic.OnlyErrorsCount` | app/core/resilience/resilient_adapter.py:46-56 | the count rises by one on exactly the end of a live use that errs, and the breaker trips on exactly those that make the threshold in a row |
| `BreakerTraffic.TrialDecides` | app/core/resilience/resilient_adapter.py:46-63 | a half-open breaker closes exactly when its trial succeeds, opens exactly when it errs, and is free again exactly when it ends otherwise |
| `BreakerTraffic.OnlyCallsRecover` | app/core/resilience/resilient_adapter.py:37-63 | a breaker that is not closed closes, and a failure count drops, on exactly the end of a plain call that responds and holds the live generation |
| `BreakerTraffic.StreamsNeverRecover` | app/core/resilience/resilient_adapter.py:94-105 | traffic of streams alone never lowers the failure count and never closes a breaker that is not closed |
| `TokenBuckets.InMemoryRateLimiter.Check` | app/core/ratelimit/token_bucket.py:24-48 | the verdict and the dictionary after one check, all other callers' buckets untouched |
| `BucketWindows.LevelIsTightestWindow` | app/core/ratelimit/token_bucket.py:36-40 | the lazily refilled level is exactly the smallest allowance over all windows ending now |
| `BucketWindows.PassesExactlyWhenEveryWindowAllows` | app/core/ratelimit/token_bucket.py:38-48 | a check passes if and only if it exceeds no window's rpm + rpm * length / 60; a refusal has a witness window |
| `BucketWindows.WindowBound` | app/core/ratelimit/token_bucket.py:25-44 | any window of T seconds passes at most rpm + rpm * T / 60 checks |
| `BucketWindows.AwaitingCheck` | app/core/ratelimit/token_bucket.py:46-48 | while refused, a check passes exactly from the announced moment on, and refusals announce the same moment |
| `BucketWindows.RetryTimeIsExact` | app/core/ratelimit/token_bucket.py:36-48 | after a refusal any number of early retries is refused and free: checks pass exactly from the announced time on |
| `BucketWindows.RetryAfterHeaderSuffices` | app/main.py:78-85 | the rounded-up header (section 10.2.3 of RFC 9110) is the smallest whole number of seconds that suffices |
| `RedisBuckets.RedisRateLimiter.RunScript` | app/infra/ratelimit/redis_limiter.py:15-47 | the Lua script's answer and hash for any stamp and any moment of its run, equal to an in-memory decision on the live hash |
| `RedisBuckets.RedisRateLimiter.Check` | app/infra/ratelimit/redis_limiter.py:58-78 | the reply and the hashes for an answered, a lost and an unanswered command, the stamp sampled before the script runs |
| `RedisBuckets.MinuteFills` | app/infra/ratelimit/redis_limiter.py:62-64 | after sixty idle seconds a bucket is full for every limit |
| `RedisBuckets.BucketsCorrespond` | app/infra/ratelimit/redis_limiter.py:21-46 | for every sequence of checks that arrive in order within a lag, with any limits, Redis and memory give the same verdicts and waits |
| `RedisBuckets.EarlyExpiryShows` | app/infra/ratelimit/redis_limiter.py:62-64 | two checks that tell any expiry below sixty seconds plus the lag |
| `RedisBuckets.ExpiryUnobservableIffSixty` | app/infra/ratelimit/redis_limiter.py:44 | dropping idle hashes is unobservable if and only if they are kept at least sixty seconds plus the lag of the scripts |
| `ResilientLimiters.ResilientRateLimiter.Check` | app/core/ratelimit/resilient.py:26-44 | which buckets are charged, what the breaker is told and whose verdict counts, each step at its own moment and on the state that others have left |
| `LimiterFleets.DecidedOnce` | app/core/ratelimit/resilient.py:28-44 | in every interleaved run a check receives exactly one verdict once decided |
| `LimiterFleets.VerdictsStand` | app/core/ratelimit/resilient.py:34-36 | a verdict is never changed later: a primary refusal is never overturned |
| `LimiterFleets.FirstStepsOfACheck` | app/core/ratelimit/resilient.py:26-31 | a check's steps up to Redis's answer do to breaker and hashes what the whole check does, whatever others do in between |
| `LimiterFleets.LastStepsOfACheck` | app/core/ratelimit/resilient.py:32-44 | so do its report and its fallback: a refusal is a success, a missing answer a failure |
| `LimiterFleets.EveryPassIsPaid` | app/core/ratelimit/resilient.py:26-44 | every pass is paid by exactly one of the N + 1 buckets |
| `FleetBounds.ScriptKeepsWindow` | app/infra/ratelimit/redis_limiter.py:21-46 | one script run, expiry and late stamp included, keeps the hash within the window of stamps extended by the seconds it gives away |
| `FleetBounds.EveryBucketIsBounded` | app/core/ratelimit/resilient.py:26-44 | each bucket's passes in a window of time stay within its share, the shared one's up to the refill of the lag and of the seconds given away |
| `FleetBounds.FleetBound` | app/core/ratelimit/resilient.py:13-24 | N processes pass at most (N + 1) * (rpm + rpm * T / 60) checks per caller in any window of time, and the refill of the lag and of the seconds given away in it |
| `FleetBounds.OrderedFleetBound` | app/infra/ratelimit/redis_limiter.py:61-70 | nothing but the refill of the lag when stamps arrive in order and within a minute |
| `FleetBounds.OrderedSlipsAreFew` | app/infra/ratelimit/redis_limiter.py:15-47 | in order but however late, a minute per two minutes at most is given away, to hashes that were dropped |
| `LateStamps.SharedShareHoldsIffNoLag` | app/infra/ratelimit/redis_limiter.py:61-70 | the shared bucket keeps to its own share in all windows of all ordered runs if and only if there is no lag |
| `LateStamps.FleetSharesHoldIffLagIsSmall` | app/infra/ratelimit/redis_limiter.py:61-70 | N processes keep to their N + 1 shares in all windows of all ordered runs if and only if the lag refills at most N / (N + 1) of a token |
| `StampsOutOfOrder.LateStampsDefeatAnyBound` | app/infra/ratelimit/redis_limiter.py:61-70 | for every step back and every number a run with one clock that passes at least so many checks in one instant |
| `StampsOutOfOrder.BoundedIffNothingSetBack` | app/infra/ratelimit/redis_limiter.py:30-32 | runs with late scripts have a bound on their passes per window if and only if no stamp is set back |
| `FleetTrials.OneTrialAtATime` | app/core/ratelimit/resilient.py:26-44 | over every run, cancellations included, one check at most holds a half-open breaker's trial |
| `FleetTrials.OnlyTheTrialDecides` | app/core/ratelimit/resilient.py:32-44 | while a trial is in flight the breaker changes on exactly the trial's own report |
| `FleetTrials.CancelledTrialIsLost` | app/core/ratelimit/resilient.py:32-44 | a trial that is cancelled at any step is lost: nobody is left to report it |
| `FleetTrials.LostForever` | app/core/ratelimit/resilient.py:27-30 | after that the breaker never changes and no check that begins at the process gets to Redis |
| `FleetTrials.TrialsCanBeLost` | app/core/ratelimit/resilient.py:32-44 | the run of a fresh process, for every configuration, that loses a trial |
| `ProviderAdapters.Classify` | app/core/adapters/openai_adapter.py:134-157 | before content exactly a connection error and a status below 500 are unavailable, every other SDK error ambiguous, with its text kept |
| `ProviderAdapters.StreamOpenAI` | app/core/adapters/openai_adapter.py:103-167 | the loop yields and ends with the texts, last usage, finish reason, model and id of the chunks, usage-only chunks included |
| `ProviderAdapters.OpenAIByChunk` | app/core/adapters/openai_adapter.py:112-167 | each field of the terminal or partial response, by the last chunk that sets it, and the defaults |
| `ProviderAdapters.UsageOnlyChunk` | app/core/adapters/openai_adapter.py:122-127 | the trailing usage chunk changes the billed counts, and delivers nothing |
| `ProviderAdapters.StreamAnthropic` | app/core/adapters/anthropic_adapter.py:111-174 | the loop yields and ends with what the events amount to |
| `ProviderAdapters.AnthropicByEvent` | app/core/adapters/anthropic_adapter.py:122-174 | each field of the terminal or partial response, by the last event that sets it, and the defaults |
| `ProviderAdapters.RaiseStreamFailure` | app/core/adapters/openai_adapter.py:169-197 | interrupted with the partial response once content was sent, else the clean class |
| `ProviderAdapters.Translate` | app/core/adapters/openai_adapter.py:79-95 | a reply that cannot be parsed is ambiguous, never unavailable |
| `ProviderAdapters.TranslatesFieldByField` | app/core/adapters/openai_adapter.py:79-95 | every field of a parsed reply, its finish reason value by value, and the failure of one that does not parse |
| `ProviderAdapters.BlocksInOrder` | app/core/adapters/anthropic_adapter.py:84-95 | the text of several blocks is that of the blocks in order |
| `ProviderAdapters.AdapterContract` | app/models/domain/chat.py:37-41 | for every event script: non-empty deltas, at most one terminal response with exactly their text, interruption exactly after content |
| `ProviderAdapters.TextIsDelivered` | app/core/adapters/anthropic_adapter.py:122-140 | a stream yields a delta exactly if some event carried text |
| `ProviderAdapters.DeltasByEvent` | app/core/adapters/anthropic_adapter.py:122-135 | the deltas are the texts of the events that have one, in order |
| `ResilientAdapters.Complete` | app/core/resilience/resilient_adapter.py:37-63 | the outcome and the breaker afterwards: one report under the admitted ticket, to the breaker as others have left it, and no inner call when refused |
| `ResilientAdapters.Stream` | app/core/resilience/resilient_adapter.py:65-107 | events received, ending and the breaker afterwards for every inner stream and every consumer |
| `ResilientAdapters.OneReportPerStream` | app/core/resilience/resilient_adapter.py:94-107 | exactly one report per admitted stream, none per refused one, and which one for every ending and consumer |
| `ResilientAdapters.FailureTracksDelivery` | app/core/resilience/resilient_adapter.py:79-92 | errors and stalls surface as interruptions exactly after a delta, and a partial carries exactly the delivered text |
| `ResilientAdapters.CallFailures` | app/core/exceptions.py:67-104 | which failure a guarded call raises, in both directions for every end of the SDK call |
| `ResilientAdapters.StreamFailures` | app/core/exceptions.py:67-104 | which failure a guarded stream raises, in both directions for every script of SDK events |
| `ResilientAdapters.EndingFollowsConsumer` | app/core/resilience/resilient_adapter.py:73-107 | a stream ends exhausted, closed or raised for its consumer exactly by its ending and where it is closed |
| `ResilientAdapters.UnavailableStreamsRanIffBrokenEarly` | app/core/adapters/anthropic_adapter.py:126-159 | a stream that raises unavailable can have run exactly if it was admitted and broke after something arrived and before any text |
| `Gateways.Select` | app/services/gateway_service.py:37-114 | the candidate-by-candidate selection meets its declarative description |
| `Gateways.SelectionIsUnique` | app/services/gateway_service.py:37-114 | that description has one solution for every script |
| `Gateways.FailoverByAttempt` | app/services/gateway_service.py:37-114 | the result is the outcome of the first attempt that is not passed over, else the last ambiguous failure, else that nobody is available |
| `Gateways.RespondsExactlyWhen` | app/services/gateway_service.py:62-102 | a response is returned exactly if some attempt gave it and every earlier one was passed over |
| `Gateways.CommitByAttempt` | app/services/gateway_service.py:143-203 | the same for streams before their first event |
| `Gateways.GatewayService.Complete` | app/services/gateway_service.py:33-114 | the loop returns or raises the deciding candidate's outcome and bills exactly what it returns; a recorder that fails raises instead |
| `Gateways.GatewayService.Stream` | app/services/gateway_service.py:116-203 | the streaming loop commits to or fails with the deciding candidate |
| `Gateways.GatewayService.Drain` | app/services/gateway_service.py:205-248 | events forwarded in order, ending and bill for every committed stream and consumer, a failing recorder included |
| `Gateways.FailoverFollowsClass` | app/services/gateway_service.py:104-114 | a request's result is of the deciding candidate's class |
| `Gateways.CommitFollowsClass` | app/services/gateway_service.py:156-203 | so is a stream's before its first event |
| `Gateways.FailoverIsSafe` | app/services/gateway_service.py:62-114 | what every earlier attempt was, under both policies, and when nobody or an unknown outcome is reported |
| `Gateways.ExecutionsAreAccountedFor` | app/services/gateway_service.py:62-114 | every execution of a request under either policy, however wrong the classes: the deciding one, those passed over as not run, and the ambiguous ones |
| `Gateways.AtMostOneExecution` | app/services/gateway_service.py:72-88 | with truthful classes one request executes at most once under at-most-once, exactly if the deciding candidate ran; one nobody served never did, under either policy |
| `Gateways.AtLeastOnceMayExecuteTwice` | app/models/domain/enums.py:13-23 | under at-least-once a request can execute twice |
| `StreamPipelines.Stream` | app/services/gateway_service.py:191-192 | a committed stream has a first event, was admitted and is faithful to its provider |
| `StreamPipelines.GuardedIsFaithful` | app/models/domain/chat.py:37-41 | a wrapped stream's terminal or partial response is its provider's and carries exactly the delivered text |
| `StreamPipelines.StreamSettles` | app/services/idempotency_service.py:149-171 | the key ends completed exactly if the consumer resumed past the terminal response, ambiguous with the reason otherwise, never freed, by a single write |
| `StreamPipelines.SettlingFollowsProtocol` | app/services/idempotency_service.py:149-171 | settling a stream makes exactly the protocol's writes, a failed one included |
| `StreamPipelines.ReplayEqualsOriginal` | app/services/idempotency_service.py:173-178 | a replay of a consumed stream delivers the same text and terminal response |
| `StreamPipelines.BillsOnce` | app/services/gateway_service.py:215-248 | one record exactly if billable and the recorder works: the very response the consumer got, of the stream's provider |
| `StreamPipelines.StreamBillsOnce` | app/services/gateway_service.py:205-248 | a streamed request has one record exactly if it was asked for an event, billable and recorded; the record belongs to the committed candidate |
| `StreamPipelines.StreamedSuccessIsReportedAsAbort` | app/services/gateway_service.py:218-232 | one report per committed stream, and a delivered stream is reported as aborted |
| `StreamPipelines.CommittedStreamsFailAsInterrupted` | app/services/gateway_service.py:125-129 | the exact cases in which a committed stream fails as interrupted |
| `StreamPipelines.CancelledStreamIsNotInterrupted` | app/services/gateway_service.py:125-129 | the concrete committed stream that fails as cancelled |
| `IdempotencyStores.KeysAreScoped` | app/infra/idempotency/redis_store.py:39-42 | two callers' records coincide only for the same caller and key |
| `IdempotencyStores.RedisIdempotencyStore.SetNx` | app/infra/idempotency/redis_store.py:58-62 | the claim command's reply and effect |
| `IdempotencyStores.RedisIdempotencyStore.Get` | app/infra/idempotency/redis_store.py:64-77 | what a read finds, changing nothing |
| `IdempotencyStores.RedisIdempotencyStore.Reserve` | app/infra/idempotency/redis_store.py:44-82 | the bounded loop's outcome and database under arbitrary interference between its commands |
| `IdempotencyStores.ReserveMeans` | app/infra/idempotency/redis_store.py:56-82 | acquired exactly if one of three claims found the key free after races only; a record exactly if one was read so |
| `IdempotencyStores.ReserveByCommand` | app/infra/idempotency/redis_store.py:44-82 | the same, told from what each command found and whether it was answered |
| `IdempotencyStores.RedisIdempotencyStore.Settle` | app/infra/idempotency/redis_store.py:84-137 | the effect of the three settling commands on the key and on no other, and which failures are raised |
| `IdempotencyRuns.RunsAreSafe` | app/services/idempotency_service.py:72-91 | over every run with lost commands, until a lapse: one owner, whose record is there, and one operation that may have executed |
| `IdempotencyRuns.OnlyReleasesFreeTheKey` | app/infra/idempotency/redis_store.py:133-137 | a visible record disappears only by lapse or by the release after a non-ambiguous failure |
| `IdempotencyRuns.ReplaysAreGenuine` | app/services/idempotency_service.py:93-105 | a replayed response was produced by an operation with the same fingerprint, in every run |
| `IdempotencyRuns.AtMostOneExecution` | app/services/idempotency_service.py:58 | if every operation is safe, one provider call at most executes for the key |
| `IdempotencyRuns.UnsafeOperationRunsTwice` | app/services/idempotency_service.py:84-87 | any unsafe operation has a run with a second execution before a lapse |
| `IdempotencyRuns.AtMostOnceIffSafe` | app/services/idempotency_service.py:74-91 | the guarantee holds with a kind of operation if and only if that kind is safe |
| `IdempotencyTimes.ClaimsAreHeld` | app/infra/idempotency/redis_store.py:58-60 | with prompt owners and no lost write the one owner's own claim is the record |
| `IdempotencyTimes.SettledRecordsStand` | app/infra/idempotency/redis_store.py:97-99 | after an operation that may have executed settles, the record it wrote is unchanged and no operation starts for the whole retention time |
| `IdempotencyTimes.RetriesAreAnswered` | app/services/idempotency_service.py:93-105 | while a settled record is retained, the same request gets exactly the stored response or the reason why it is unknown, another request a conflict |
| `IdempotencyTimes.SlowOwnersShareTheKey` | app/infra/idempotency/redis_store.py:58-60 | a run in which an owner lives as long as its claim and two operations execute |
| `IdempotencyTimes.OneOwnerIffClaimsLastLonger` | app/infra/idempotency/redis_store.py:58-60 | owners that settle within a limit never share the key, over all runs without lost writes, if and only if the limit is below the claim's life |
| `IdempotencyTimes.OwnersArePrompt` | app/infra/config.py:52-77 | in every run whose owners open, finish their candidates and their stream, and settle in time, all owners are prompt if the called candidates times the provider timeout, the stream and the overhead are below the claim's life |
| `IdempotencyTimes.PatientStreamOverwrites` | app/services/idempotency_service.py:149-163 | a run in which no event is late, no write lost and every operation safe, and a stream overwrites the response another request stored |
| `IdempotencyServices.SerializeRoundTrips` | app/services/idempotency_service.py:193-215 | deserializing a serialized response gives it back |
| `IdempotencyServices.DeserializesFieldByField` | app/services/idempotency_service.py:205-215 | a body is read as a response exactly if it has all of its fields with those values |
| `IdempotencyServices.SecondRequest` | app/services/idempotency_service.py:93-105 | a second request gets a conflict exactly if model, messages or token limit differ, and else the first one's own response or the reason it is unknown |
| `IdempotencyServices.SecondStreamedRequest` | app/services/idempotency_service.py:135-147 | the same for streamed requests |
| `IdempotencyServices.RequestMeanwhile` | app/services/idempotency_service.py:93-105 | while the first runs, the same request is told so and another one gets a conflict |
| `IdempotencyServices.ReturnedIsStored` | app/services/idempotency_service.py:74-91 | a response is returned exactly if it is stored, and what the operation raised is raised again |
| `IdempotencyServices.ProtocolAnswersAlike` | app/services/idempotency_service.py:74-91 | the protocol's result for an owner is what the service returns or raises |
| `IdempotencyServices.UnreadableRecordsRaise` | app/services/idempotency_service.py:206-215 | a stored record that cannot be read raises |
| `IdempotencyServices.IdempotencyService.Execute` | app/services/idempotency_service.py:63-105 | the operation runs exactly if the key was acquired, with the protocol's one write; otherwise the protocol's answer; the whole database either way |
| `IdempotencyServices.IdempotencyService.ExecuteStream` | app/services/idempotency_service.py:107-147 | the same up to the generator returned: a committed stream keeps its claim and writes nothing yet, a completed record is replayed |
| `IdempotencyServices.IdempotencyService.SettleFailure` | app/services/idempotency_service.py:76-88 | ambiguous failures park the key, all others free it |
| `IdempotencyServices.IdempotencyService.SettleOutcome` | app/services/idempotency_service.py:76-91 | the write and the result for each outcome of the operation |
| `IdempotencyServices.IdempotencyService.AnswerFrom` | app/services/idempotency_service.py:93-105 | the answer from an existing record is the protocol's |
| `IdempotencyServices.Settle` | app/services/idempotency_service.py:149-171 | events forwarded, ending and writes for every primed stream, consumer and fate of the response's write |
| `EndToEnd.PassedOverIsUnseen` | app/core/exceptions.py:67-81 | of the candidates passed over, exactly those ran whose refusal was no refusal |
| `EndToEnd.EndFollowsClass` | app/services/idempotency_service.py:76-91 | which work ends in a release |
| `EndToEnd.SafeIffNoLeak` | app/services/idempotency_service.py:76-91 | work is safe under a key if and only if it does not leak, whatever providers do |
| `EndToEnd.SafeIffNotInterrupted` | app/services/idempotency_service.py:76-91 | so every plain request, and every stream without an early break, is safe if and only if it is not interrupted after its provider ran |
| `EndToEnd.AtMostOnceEndToEnd` | app/services/idempotency_service.py:63-147 | over every interleaving, until a lapse, at most one provider call executes for a key |
| `EndToEnd.LeakDefeatsAtMostOnce` | app/services/idempotency_service.py:76-91 | every work that leaks has a run with a second execution |
| `EndToEnd.CancellationDefeatsAtMostOnce` | app/services/idempotency_service.py:84-87 | the concrete run in which a cancelled call executes a second time |
| `EndToEnd.EarlyBreakExecutesTwice` | app/services/gateway_service.py:166-173 | a stream that breaks early and one that serves: two executions in one request under at-most-once |
| `EndToEnd.EarlyBreakDefeatsAtMostOnce` | app/services/gateway_service.py:166-173 | the run in which it happens under an idempotency key |
| `EndToEnd.ClassesAgree` | app/services/gateway_service.py:119-129 | failover sees a call and a stream of one candidate alike exactly if the reply parses, or the stream fails without text |
| `EndToEnd.StreamAgreesWithComplete` | app/services/gateway_service.py:119-129 | for such candidates streams and calls succeed together and fail in the same class |

## Left out

- FastAPI routers, schemas, SSE encoding, health probes, logging, tracing, database and deployment code: plumbing.
- Provider SDKs, HTTP and the translation of request messages: a call or stream is a script of what the SDK delivers.
- Routing strategies, pricing and token counting: the ranked candidates and the recorder are inputs.
- Laziness of generators: each layer is a loop that runs to the point where its consumer stops, and the generator below is seen as what it would yield; suspension between events is represented by where it is closed.
- ResilientAdapters.Complete: what other callers do to the breaker between admission and report is one arbitrary change; BreakerTraffic interleaves their steps.
- ResilientLimiters.ResilientRateLimiter.Check: a check that is cancelled has no outcome here; cancellation is a step of LimiterFleets.
- IdempotencyTimes.OwnersArePrompt: bounds the time of the calls by the provider timeout; how long a stream lasts has no bound in the code and is a hypothesis, and time spent waiting for locks and the event loop counts as overhead.
- IdempotencyServices.SerializeRoundTrips: the JSON text and Python's lack of type checks on stored fields are not modelled; a field of the wrong type counts as missing.
- IdempotencyStores.KeysAreScoped: SHA-256 fingerprints are taken to be injective.
- BucketWindows.PassesExactlyWhenEveryWindowAllows: exact reals, no float rounding and no Lua number formatting.
- Wall-clock skew between workers and between them and Redis: the fleet has one clock, though its stamps may arrive in any order.
- Cancellation of a provider call inside the breaker's own lock, and of a recorder or store command while it is under way.
