# Verified model of the bulk metrics engine

This project models the part of solana-token-market-go where its concurrency and its optimisations live, and proves
that the optimised paths return what the plain ones would:

- **the bulk engine**: `GetMetricsByPools` validates its pools, groups them by route, starts one goroutine per group
  behind a semaphore, primes a preload cache per group, computes each item and writes the outcome into shared results;
- **the RPC client stack** underneath it: failover, retry with backoff, chunked and deduplicated batch lookups, and the
  request-scoped preload cache with its repair of incomplete batches;
- **`parallelx.Run`**, the fork/join helper with first-error cancellation;
- two kernels: Meteora DAMM v1 **vault arithmetic** and the Orca **Whirlpool account layout**;
- the **error chains** that carry kinds and codes through all of these.

## How it is modelled

*Clients.* An RPC client is a record of three functions that thread an arbitrary world `W` through every call
(`Rpc.Client`). The world stands for whatever a backend remembers or is disturbed by, so a client may fail at any call.
What clients promise is stated against a fixed ledger, and only about successful answers:

| promise | single account | batch entry i |
|---|---|---|
| `Weak` | the ledger's record, nil for an absent account | right when it reports an existing account; may be missing, nil or falsely absent otherwise |
| `Faithful` | the same | the ledger's record; nil, or a reply too short to reach i, for an absent account |
| `Exact` | the ledger's record, never nil | the ledger's record, never nil, in a reply of the right length |

Each wrapper is a function from clients to clients, and each looping implementation is a method proved equal to the
function its wrapper uses.

*Calculators.* A calculator reads accounts one after another and, wherever it likes, splits into branches that run at
once and are joined by `parallelx.Run`, as all ten built-in calculators do for their price and their supply
(`Calculations.Blueprint`). What it reads next, and whether a branch fails by itself, may depend in any way on what it
has learnt, errors included; all that is asked is that it comes to an end. Metrics are opaque. When several branches
fail by themselves, either error may come back, from the source and from the model: `May` says which outcomes the
ledger allows, `Decided` when it allows only one course and so one outcome, and `Steady` when no schedule can change
what is counted: no branch fails, or failing makes the calculation give up and cuts no other branch short of a counted
read.

*Goroutines.* `BulkProtocol`, `Processes`, `PreloadConcurrent` and `ParallelX` are step systems: a step is one access
to something shared or one reply of the RPC client, and the theorems quantify over every sequence of enabled steps.
The branches of a calculator share the cache of their group's preload client step by step through
`fetchMissingAccounts`. In `BulkProtocol` the launch order is an arbitrary listing of the groups, because the source
takes it from a map iteration, and every call of the client may find the backend in any world, whatever other
goroutines did to it meanwhile. Inside one call, between the attempts of a retry or the chunks of a batch,
`Outages.Amid` lets others make any calls they like.

*State.* The preload client and the service are classes with the source's fields; results are arrays written by index;
the step-by-step loops of the source are loops here, each tied to a specification function.

## Main results

1. **Bulk refines single** (`BulkProtocol.BulkRefinesSingle`). For every calculator, launch order, limit and
   interleaving, an item that was turned away, or that no failed read disturbed, has metrics or an error that
   `GetMetricsByPool` alone can give through a client answering from the same ledger, and exactly what it gives where
   the calculator's branches leave no choice of error. What the single path can give is in turn exactly what the
   ledger allows (`Schedules.OutcomesExactly`), and over a client that never fails the schedules of a bulk call bring
   about all of it and nothing else (`BulkSchedules.BulkGivesWhatSingleGives`): just what the calculator registered for
   the pool's route, run on that pool, may come to (`BulkAnswers.ServedInBulk`, `ServedAlone`). Over any client at all,
   every item ends with its own input and exactly one of metrics and error (`EveryItemSettled`), refusals read as the
   source words them, and a failed priming shows every item of its group the client's own error, under the code of its
   kind (`BulkAnswers.FailureIsTheClients`, `PrimingFailureShows`). And over a client that answers from the ledger but
   may fail at any call, every item is accounted for: it shows its group's priming failure, or what its calculator
   concludes from the ledger's answers and the client's own errors (`BulkAnswers.EveryItemAccounted`, resting on
   `Mishaps.RunIsHonest`). The mint-based path has the same (`BondingCurves.CurveSlot`, `CurveAccounted`).
2. **When schedules do not matter** (`BulkProtocol.SchedulesAgree`). Undisturbed calls for the same pools agree on
   every decided item, and on the summed counters where the pools are steady, whatever their schedules, limits, clients
   and worlds. For calculators that give up when something fails, as the built-in ones do, being steady is exactly what
   it takes (`CostSchedules.CountersExactly`, and for a call for one pool `BulkSchedules.LoneTotalsExactly`).
3. **The semaphore protocol** (`TokensAreWorkers`, `NeverStuck`, `EveryRunReturns`). Workers between launch and release
   are exactly the held tokens and never exceed a capacity of at least one, no state before the return is stuck, and no
   run is longer than a bound fixed at the start.
4. **Every layer at once** (`EndToEnd`). The same over the client `NewClient` builds on two endpoints with failover,
   with others calling in between; and where one endpoint, whichever it is, fails no request more often than it is
   retried, whoever makes it, and the primary's failures are worth a retry at all, no schedule loses an item
   (`OutagesOutlived`).
5. **The preload cache under concurrency** (`PreloadConcurrent.EveryInterleaving`) and its repair of weak batches
   (`Preload.FetchAgrees`, `FetchAllOrNothing`). In every interleaving of a bulk call, over any client, no read of a
   primed address reaches the client again (`BulkSchedules.NoPrimedReadAsks`, `PrimedItemUndisturbed`).
6. **`parallelx.Run` returns the root cause** (`ParallelX.RunReturnsRootCause`): nil exactly when every task succeeded,
   and never a cancellation-induced error unless the caller's own context ended. What comes back is the error that was
   sent first, as its task returned it (`FirstErrorWins`).
7. **Retry** (`Retry`, `Outages`): exact call counts, exactly when transient failures are masked and when a client
   never fails, whose error a failure is (`RetryIsLastAttempt`, `RetryClientFails`), a closed form for the backoff, the
   bound on the total wait, and the waits of the client in its configuration's own numbers (`ClientWaits`, `FirstWait`).
8. **Vault shares** (`Vault`): holders never take out more than the vault, rounding keeps back at most n - 1 units, and
   locked profit decays for every pair of clock readings, to numbers stated outright (`LockedInNumbers`,
   `ReleasedLinearly`).
9. **Whirlpool layout** (`Whirlpool`): decoding and encoding are mutually inverse on bytes 0 to 269, and each field is
   where the layout has it (`AcceptedExactly`, `SmallFields`, `TickField`, `LargeFields`).

## Where the code does not meet a tempting property

- *A calculator registered by hand can be refused in bulk.* `canRebuildRoute` counts a nil entry of
  `PoolCalculatorFactories`, and a factory that returns nil, as able to rebuild a route; `NewService` gives the route
  no calculator then. `Service.RefusedInBulkExactly` says exactly when the bulk path refuses what the single path
  serves, and `NilFactoryBreaksBulk` builds a case. It takes a calculator entry that `NewService` by itself never
  makes: every service it returns is `Wired` (`NewServiceIsWired`), nil factories included, and then the paths agree
  (`GroupServiceAgrees`).
- *SOL as a bonding-curve token.* The bulk path turns it away, the single path goes on to derive and compute; and a zero
  mint gets the same code in different words. `BondingCurves.RefusalsCompared` gives both conditions exactly.
- *When several branches of a calculator fail by themselves, the error they are joined with depends on the schedule.*
  `Calculations.DecidedExactly` says exactly when no schedule can change the course of a calculation, and
  `Schedules.EitherErrorComesBack` has two branches of which either error comes back.
- *When one branch fails by itself, the counters can depend on the schedule though the outcome does not*: a supply
  task cancelled before its query is answered never makes its counted read. `CostSchedules.FailureSwaysCounters` is
  that case, `CountersExactly` says for every calculator that gives up when something fails exactly when it cannot
  happen.
- *Some chunk sizes panic.* `ChunkPubkeys` computes a capacity in 64 bits that wraps for sizes near 2^63:
  `Batching.ChunkPanicsExactly` says for which numbers of keys, `PanicFreeExactly` for which sizes never, and
  `ChunkCanPanic` shows two keys and the largest int. The panic stands in the model as an error that no call recovers
  from; the results of `EndToEnd` ask for a size that does not panic.
- *Outlasting outages takes more than a backend that recovers for a lone caller*: others may use up its recoveries
  between two attempts. `Outages.LoneRecoveryIsNotEnough` shows it; `RetryNeverFails` says exactly when retrying never
  fails. With failover, a fallback that recovers is not enough either where the primary fails for good, because the
  primary's error is the one that decides about a retry (`PermanentPrimaryEndsIt`).
- *Doubling the backoff overflows* 64 bits outside the range `Retry.NextBackoffExact` states.
- *A share can shrink when the vault grows*, because `amountByShare` answers 0 past 64 bits. `Vault.ShareGrowsExactly`
  says exactly when, `ShareCanShrink` shows it; shares of at most the supply are never affected (`ShareIsFloor`).
- *A key can be in two successful inner batches of a run*: when a batch succeeded but a single lookup repairing it
  failed, nothing is cached. `Preload.BatchedOnceExactly` says for every run exactly when, `FailedRepairRefetches` shows
  it, and `BatchedOnce` rules it out for runs whose repairs succeed.
- *`parallelx.Run` can return a cancellation-induced error* once the caller's context ended:
  `ParallelX.ParentCancellationShows`.

## Model

| member | source | states |
|---|---|---|
| Errors.WrappingKeepsKind | sdk/rpc/errors.go:35-89 | any number of WrapClientError layers keeps kind and retryability, and only the first adds a node |
| Errors.AroundKeepsClientError | sdk/rpc/errors.go:35-40 | errors.As still finds the same outermost ClientError below any mix of formatted and coded layers |
| Errors.ClientErrorDecidesCode | sdk/market/error_classification.go:9-22 | a rate-limited, timeout or unavailable ClientError gets the matching market code through any layers above it |
| Errors.RetryableIsNeverLost | sdk/rpc/errors.go:35-74 | for every chain, classified by type, by deadline or by its text, a retryable error stays retryable under any layers |
| Errors.ToSDKErrorIdempotent | sdk/market/metrics_service.go:341-361 | toSDKError applied to its own result changes nothing |
| Errors.CodeReachesCaller | sdk/market/metrics_service.go:341-361 | a calculator's failure, coded by classification and formatted on the way up, is shown by the item exactly as coded, so an RPC failure shows the market code of its kind however deep it lies |
| Errors.CodedErrorSurvives | sdk/market/metrics_service.go:345-355 | formatting around a coded error leaves code, message and cause that toSDKError extracts unchanged |
| Errors.TextDecidesKind | sdk/rpc/errors.go:35-69 | the kind of an error that only has a text, by the very words that occur in it, rate limits before timeouts before outages |
| Errors.TextDecidesCode | sdk/market/error_classification.go:9-42 | the code such an error is shown with, by its kind or else by further words, each in its place |
| Errors.CaseIsIgnored | sdk/rpc/errors.go:53-68 | texts that differ in capital letters only are classified alike |
| Errors.UncodedIsShown | sdk/market/metrics_service.go:356-360 | an error no coded error is in is shown with its own text and itself as the cause, literally so for the three kinds of a ClientError |
| Errors.CodedIsShown | sdk/market/metrics_service.go:345-355 | a coded error is shown as it is, unless it is coded internal around a cause, which then decides the code |
| Errors.CodesInWords | sdk/market/errors.go:7-18 | the words a caller reads for each code |
| Errors.DeadlinesAreTimeouts | sdk/rpc/errors.go:35-69 | an exceeded deadline or a timed-out connection, wrapped or not, is a timeout whatever the text says |
| Errors.TextOfChains | sdk/rpc/errors.go:26-31 | what a chain says of itself, layer by layer, with the words of its codes and kinds |
| Errors.WorthARetry | sdk/rpc/errors.go:71-74 | what is retried: the three kinds and no other, whatever lies below, and of bare texts those with one of the eight phrases in them |
| Rpc.NoopIsExact | sdk/rpc/client.go:194-219 | the no-op client answers every call, as if from an empty ledger |
| Retry.WithRetry | sdk/rpc/retry_client.go:89-122 | the loop's answer, world, errors and waits are those of the recursive specification of one retried call |
| Retry.RetryStops | sdk/rpc/retry_client.go:89-105 | 1 to MaxRetries+1 calls, all but the last failing with retryable errors; a failure is the last attempt's, or wraps the error of the context that ended in the wait after it |
| Retry.RetryAnswers | sdk/rpc/retry_client.go:93-96 | a successful answer is the wrapped call's own, in the world its earlier attempts left behind |
| Retry.RetryMasks | sdk/rpc/retry_client.go:89-105 | with no context end, an answer comes if and only if the transient failures do not outnumber the retries left, after exactly one more call |
| Retry.RetryAnswersExactly | sdk/rpc/retry_client.go:89-105 | with no context end, from any attempt on an answer comes if and only if one of the calls left answers and those before it fail retryably |
| Retry.RetryReports | sdk/rpc/retry_client.go:89-105 | whether or not a context ends, the recorded errors are those of the wrapped call, attempt by attempt, and so are the answer and the world the call leaves |
| Retry.RetryIsLastAttempt | sdk/rpc/retry_client.go:89-105 | with no context end the reply, failure or answer, and the world are those of the last attempt, and every recorded error is its own attempt's |
| Retry.NextBackoffExact | sdk/rpc/retry_client.go:124-130 | doubling capped at max, if and only if the doubling does not leave 64 bits below the cap |
| Retry.BackoffClosedForm | sdk/rpc/retry_client.go:89-130 | the first backoff is the initial one, the k-th after it min(initial 2^k, max), with no overflow below 2^62 |
| Retry.JitterRange | sdk/rpc/retry_client.go:132-143 | a jittered wait lies within the jitter fraction of its backoff, rounded down, and is never negative |
| Retry.EachWait | sdk/rpc/retry_client.go:100-103 | the k-th wait of a call is a jittered k-th backoff |
| Retry.TotalWait | sdk/rpc/retry_client.go:89-143 | from any attempt on, the waits sum to at most (1 + j) times the unjittered backoffs ahead |
| Retry.CallWait | sdk/rpc/retry_client.go:89-143 | the waits of a whole call sum to at most (1 + j) (initial + (MaxRetries - 1) max) |
| Retry.RetryClientAnswers | sdk/rpc/retry_client.go:25-87 | every successful answer of the retry client is one the inner client gave to the same call, within MaxRetries + 1 attempts from the same world |
| Retry.RetryClientFails | sdk/rpc/retry_client.go:47-105 | in contexts that do not end, every failure of the retry client is its inner client's at the attempt it gave up at, under the name of the operation |
| Retry.ClientWaits | sdk/rpc/retry_client.go:25-45 | without jitter the client waits initial, then min(initial 2^k, max), with 100 ms and 2 s where none is configured: a context that bears waits up to a limit ends the call at the first longer one, with its own error |
| Retry.JitterIs | sdk/rpc/retry_client.go:132-143 | the jittered wait is the draw between backoff (1 - j), cut off at zero, and backoff (1 + j), rounded down |
| Retry.FirstWait | sdk/rpc/retry_client.go:25-53 | the client's first wait in the configuration's own numbers, jitter included: a context that bears waits up to a limit ends the call if and only if that wait is longer |
| Retry.NoWaitNoEnd | sdk/rpc/retry_client.go:145-148 | a wait of no length never looks at the context |
| Batching.ChunkPubkeys | sdk/rpc/batching.go:5-18 | the stepping loop cuts exactly the chunks of the recursive specification, 100 standing in for a size that is not positive, unless the capacity panics |
| Batching.ChunkPanicsExactly | sdk/rpc/batching.go:9 | n keys and size s panic if and only if n + s - 1 reaches 2^63 and the wrapped sum is at least s below zero |
| Batching.PanicFreeExactly | sdk/rpc/batching.go:9 | a size never panics, for any number of keys that fits in memory, if and only if it is at most 2^63 + 1 - 2^58 |
| Batching.ChunkCanPanic | sdk/rpc/batching.go:9 | two keys and the largest int do panic |
| Batching.ChunksTile | sdk/rpc/batching.go:5-18 | the chunks concatenate to the keys, hold 1 to size keys, all but the last are full, and there are ceil(n / size) of them |
| Batching.FreshMembers | sdk/rpc/batching_client.go:55-65 | deduplication keeps each key once, loses none and invents none |
| Batching.FreshOrder | sdk/rpc/batching_client.go:55-65 | the kept keys are in the order of their first occurrences |
| Batching.GetMultipleAccounts | sdk/rpc/batching_client.go:42-96 | the gather and scatter loops compute the specified chunked lookup, error paths and world included |
| Batching.ChunkedLookupIsPointwise | sdk/rpc/batching_client.go:42-96 | every successful chunked answer is the pointwise ledger lookup, so length, order and equal answers for equal keys are kept and the chunk size has no say; a panicking size answers nothing |
| Batching.ChunkingClientAgrees | sdk/rpc/batching_client.go:25-96 | chunking keeps faithfulness, and with a positive size makes batches complete and free of nil |
| Batching.ChunkingClientWeak | sdk/rpc/batching_client.go:25-96 | chunking over a weak client yields a weak client |
| Batching.ChunkedCalls | sdk/rpc/batching_client.go:55-82 | on success the inner calls spell out the distinct keys once each in ceil(distinct / size) calls of 1 to size keys; on failure they are a non-empty prefix of that, and the error is the inner client's at the last of them, unless the size panics |
| Batching.HundredAtATime | sdk/rpc/batching.go:6-8 | a size that is not positive cuts chunks of 100, and never panics |
| Batching.OverrideWins | sdk/rpc/batching_client.go:47-50 | a positive size in the context goes before the one configured, any other does not |
| Batching.NilIsNonExistent | sdk/rpc/batching_client.go:76-94 | over a client whose entries are all nil the lookup answers with blank records of no existing account |
| Failover.FailoverNeedsOne | sdk/rpc/failover.go:19-89 | one endpoint that never fails under its own timeout, whichever it is, makes a client that never fails |
| Failover.FailsOver | sdk/rpc/failover.go:19-137 | a call in the endpoints' own replies: the primary's answer under its deadline, 4 s by default, else the fallback's under its own, else the primary's error |
| Failover.FailoverKeepsPromises | sdk/rpc/failover.go:19-137 | failing over between two clients keeps weakness, faithfulness and exactness |
| Preload.PreloadedClient.constructor | sdk/rpc/preload_client.go:26-34 | an empty cache and zero counters; the no-op client when no inner client is given |
| Preload.PreloadedClient.FetchMissingAccounts | sdk/rpc/preload_client.go:87-146 | scan, batch, repair, commit and read loops leave the reply, cache and world of the specification |
| Preload.PreloadedClient.PrimeAccounts | sdk/rpc/preload_client.go:36-39 | the new cache and world, the counters untouched, the error passed on |
| Preload.PreloadedClient.GetAccount | sdk/rpc/preload_client.go:47-61 | a cached account is returned without an inner call, any other is fetched; one single call is counted either way |
| Preload.PreloadedClient.GetMultipleAccounts | sdk/rpc/preload_client.go:63-69 | the whole new state and reply, with one batch call and its size counted |
| Preload.FetchAllOrNothing | sdk/rpc/preload_client.go:106-145 | on an error the cache is unchanged; on success exactly the requested keys are added, nothing cached changes and no returned entry is nil |
| Preload.FetchFails | sdk/rpc/preload_client.go:106-124 | a fetch fails with the inner client's own error, that of its one batch or of a lookup repairing it |
| Preload.CompleteBatchSuffices | sdk/rpc/preload_client.go:106-138 | where the batch reports every account as existing there is no further call, and its records are what is cached |
| Preload.RepairAgrees | sdk/rpc/preload_client.go:118-128 | after the repair loop every entry agrees with the ledger, when single lookups do |
| Preload.FetchAgrees | sdk/rpc/preload_client.go:87-146 | over a weak client every answer is the ledger's and the cache stays true |
| Preload.FetchCached | sdk/rpc/preload_client.go:87-146 | when everything asked for is cached, the inner client is left alone |
| Preload.AskedOnce | sdk/rpc/preload_client.go:87-146 | over a whole run no key is asked for again once a fetch of it succeeded |
| Preload.BatchedOnce | sdk/rpc/preload_client.go:106-138 | while no repair fails after its batch, each key is in at most one successful inner batch of the run |
| Preload.BatchedOnceExactly | sdk/rpc/preload_client.go:106-138 | over any run, each key is in at most one successful inner batch if and only if what a failed repair threw away is not successfully fetched again |
| Preload.FailedRepairRefetches | sdk/rpc/preload_client.go:118-124 | a client over which that happens |
| Preload.OneBatchPerOp | sdk/rpc/preload_client.go:106-110 | an operation makes at most one inner batch call, for exactly its uncached keys in first-occurrence order |
| Preload.BatchesOfRun | sdk/rpc/preload_client.go:87-146 | while no call fails, the inner batch calls of a run together ask for pairwise distinct keys |
| Preload.PrimedReadsStayLocal | sdk/rpc/preload_client.go:36-69 | after a successful PrimeAccounts(A), any sequence of reads within A makes no inner account call and changes no entry |
| Preload.StatsAddUp | sdk/rpc/preload_client.go:47-69 | over a run, TotalAccountsRequested grows by the single calls plus the sum of the batch sizes |
| Preload.CallsCounted | sdk/rpc/preload_client.go:36-69 | what each kind of call adds to each of the three counters, and that priming adds nothing |
| PreloadConcurrent.CallerStep | sdk/rpc/preload_client.go:87-153 | each locked access or inner reply of a caller keeps its progress sound, whatever others have cached meanwhile |
| PreloadConcurrent.StepKeepsInv | sdk/rpc/preload_client.go:87-153 | each step of any caller keeps the cache true and growing and every caller's progress sound |
| PreloadConcurrent.EveryInterleaving | sdk/rpc/preload_client.go:87-153 | in every interleaving the cache agrees with the ledger and only grows, the final read never misses, and replies are the ledger's |
| PreloadConcurrent.FailuresAreTheClients | sdk/rpc/preload_client.go:87-146 | in every interleaving a caller's batch asks for keys of its own, each once, and a caller that fails hands on an error the inner client answered it with |
| PreloadConcurrent.StepsRunOut | sdk/rpc/preload_client.go:87-146 | every step brings its caller closer to its end, whatever the inner client answers |
| PreloadConcurrent.RunIsBounded | sdk/rpc/preload_client.go:87-146 | no interleaving is longer than three steps a requested address plus four a caller |
| PreloadConcurrent.NeverStuck | sdk/rpc/preload_client.go:87-146 | a caller that has not returned can always take a step |
| Stack.RetryKeepsPromises | sdk/rpc/retry_client.go:25-105 | retrying keeps weakness, faithfulness and exactness for any number of failures |
| Stack.StackKeepsPromises | sdk/market/client.go:31-37 | chunking over retry keeps every promise of the configured client |
| Stack.StackIsRetry | sdk/market/client.go:31-37 | single accounts and queries go through the retry client as it is configured, batches through chunking of the configured size over it |
| Stack.StackIsExact | sdk/market/client.go:31-37 | with a positive chunk size the stack is exact over endpoints whose faithful batches may still be short or hold nil |
| Stack.TowerAgrees | sdk/market/client.go:31-37 | preload over chunking over retry over failover answers from the ledger, given only weak endpoints |
| Stack.StackRecovers | sdk/market/client.go:31-37 | where the configured client answers within the retries, the stack NewClient builds never fails, for chunk sizes that do not panic |
| Outages.AmidKeepsPromises | sdk/rpc/retry_client.go:89-105 | promises about answers survive any calls others make in between |
| Outages.RetryNeverFails | sdk/rpc/retry_client.go:25-105 | in contexts that do not end, the retry client never fails if and only if of any MaxRetries + 1 calls in a row one answers, after retryable failures |
| Outages.LoneEndpointRecovers | sdk/rpc/retry_client.go:89-105 | an endpoint on which no request fails more than n times, whoever makes it, answers each caller within n + 1 attempts, whatever others call in between |
| Outages.EitherEndpointRecovers | sdk/rpc/failover.go:19-137 | with failover one such endpoint is enough, whichever it is, as long as the primary fails in ways worth a retry |
| Outages.PermanentPrimaryEndsIt | sdk/rpc/failover.go:19-89 | a primary that fails for good, a fallback that answers every second call, and a retried call that fails all the same |
| Outages.LoneRecoveryIsNotEnough | sdk/rpc/retry_client.go:89-105 | a backend that answers every lone caller on one retry, and a caller it fails because another called in between |
| ParallelX.StepKeepsInv | sdk/internal/parallelx/parallelx.go:12-48 | the queue holds each sent report once, and its first entry is not cancellation-induced, after every step |
| ParallelX.NoSendDropped | sdk/internal/parallelx/parallelx.go:27-35 | in every reachable state there is room for every pending send, so the default branch never drops an error |
| ParallelX.RunReturnsRootCause | sdk/internal/parallelx/parallelx.go:12-48 | nil if and only if every non-nil task succeeded; otherwise a failed task's error, never cancellation-induced while the caller's context lives |
| ParallelX.FirstErrorWins | sdk/internal/parallelx/parallelx.go:12-48 | in every interleaving the error that comes back is one a task returned, the one that was sent first; nil means that every task returned nil |
| ParallelX.ParentCancellationShows | sdk/internal/parallelx/parallelx.go:12-48 | the condition on the caller's context is needed: an execution that returns an induced error |
| ParallelX.RunIsBounded | sdk/internal/parallelx/parallelx.go:18-46 | no execution is longer than five steps a task plus two |
| ParallelX.NeverStuck | sdk/internal/parallelx/parallelx.go:18-46 | until Run returned, some step of a task or of Run is possible |
| Vault.LockedProfitRange | sdk/protocols/meteora/damm_v1/metrics.go:439-456 | locked profit is the exact floor of the linear decay, within [0, last locked profit], zero from the point of full release on |
| Vault.LockedInNumbers | sdk/protocols/meteora/damm_v1/metrics.go:439-456 | in plain numbers: locked is the profit times (10^12 - seconds since the report times the rate) over 10^12, rounded down; nothing from the point of full release on; all of it before time has passed |
| Vault.ReleasedLinearly | sdk/protocols/meteora/damm_v1/metrics.go:439-464 | so a profit no larger than the vault is let go linearly from the report on, to the second and to the unit, until the whole total can be withdrawn |
| Vault.LockedProfitDecays | sdk/protocols/meteora/damm_v1/metrics.go:439-456 | locked profit never rises with the clock, non-positive clocks included |
| Vault.WithdrawableGrows | sdk/protocols/meteora/damm_v1/metrics.go:458-464 | the withdrawable amount never falls with the clock and never exceeds the vault |
| Vault.ShareIsFloor | sdk/protocols/meteora/damm_v1/metrics.go:466-476 | a share of at most the supply gets the exact floor; the 64-bit guard stays out of it |
| Vault.ShareOrNothing | sdk/protocols/meteora/damm_v1/metrics.go:466-476 | for any share the exact floor, or 0 where that is 2^64 or more |
| Vault.ShareGrowsExactly | sdk/protocols/meteora/damm_v1/metrics.go:466-476 | when a larger vault pays a share no less: if and only if the larger amount stays below 2^64, or the smaller rounds to nothing or is past it already |
| Vault.ShareCanShrink | sdk/protocols/meteora/damm_v1/metrics.go:466-476 | a share that drops from 2^63 to nothing when the vault gains a unit |
| Vault.ReserveGrows | sdk/protocols/meteora/damm_v1/metrics.go:439-476 | a pool's reserve never falls with the clock and is at most the vault |
| Vault.ReserveIs | sdk/protocols/meteora/damm_v1/metrics.go:458-476 | a pool's reserve is its share of the withdrawable amount out of the supply, rounded down |
| Vault.PayoutsConserve | sdk/protocols/meteora/damm_v1/metrics.go:466-476 | any list of holders within the supply takes out at most the vault amount, each the exact floor, and nothing when there is no supply |
| Vault.PayoutsShortfall | sdk/protocols/meteora/damm_v1/metrics.go:466-476 | n holders of the whole supply leave at most n - 1 units behind |
| Whirlpool.ReadU128IsLittleEndian | sdk/protocols/orca/whirlpool/metrics.go:324-333 | shifting and or-ing two 64-bit halves is the base-256 little-endian value of the 16 bytes |
| Whirlpool.FieldsTile | sdk/protocols/orca/whirlpool/metrics.go:276-303 | the decoded fields follow each other without gap or overlap from byte 8 to 269 |
| Whirlpool.AcceptedExactly | sdk/protocols/orca/whirlpool/metrics.go:276-282 | a buffer is accepted if and only if it has 653 bytes or more and begins with the eight bytes of the discriminator; which error says which |
| Whirlpool.SmallFields | sdk/protocols/orca/whirlpool/metrics.go:283-303 | bump, tick spacing, fee tier and fee rates, byte by byte |
| Whirlpool.TickField | sdk/protocols/orca/whirlpool/metrics.go:283-303 | the tick index is the signed reading of bytes 81 to 84 |
| Whirlpool.LargeFields | sdk/protocols/orca/whirlpool/metrics.go:283-303 | keys, protocol fees, liquidity, price and fee growth, byte by byte |
| Whirlpool.DecodeEncode | sdk/protocols/orca/whirlpool/metrics.go:276-333 | decoding an encoded state, followed by anything, returns it, signed tick and 128-bit fields included |
| Whirlpool.EncodeDecode | sdk/protocols/orca/whirlpool/metrics.go:276-333 | re-encoding any accepted buffer reproduces it |
| Whirlpool.DecodeExactly | sdk/protocols/orca/whirlpool/metrics.go:276-333 | accepted buffers decode alike if and only if their first 269 bytes are equal |
| Calculators.ReadIsTrue | sdk/market/metrics_service.go:198-225 | an answered read of any kind, direct or preloaded, is the ledger's answer, costs what the counters say and keeps the cache true |
| Calculators.ExecuteIsEval | sdk/protocols/pumpfun/bonding_curve/metrics.go:53-100 | a calculator that only reads one thing after another computes, undisturbed, through any exact client what it computes from the ledger |
| Calculators.ReadFails | sdk/rpc/preload_client.go:47-146 | a failed read, direct or preloaded, carries an error the client itself gave to it, or the custom supply provider's |
| Calculators.ExecuteCounts | sdk/rpc/preload_client.go:47-69 | undisturbed, it leaves the counters where the reads it makes of the ledger put them |
| Calls.ProceedIsTrue | sdk/rpc/preload_client.go:47-146 | one step of a read, among others sharing its cache: the cache stays true and grows, and an answered read is the ledger's |
| Calls.ProceedKeeps | sdk/rpc/preload_client.go:87-146 | one step of a read over any client: it asks for nothing known to be cached, fails only if it has to ask, and leaves cached what it wanted and no more |
| Calls.ProceedSaid | sdk/rpc/preload_client.go:87-146 | step by step, over any client and among any others, a read fails only with an error the client itself gave for what it asked, or with that of the context that cut it short |
| Calculations.DecidedValue | sdk/internal/parallelx/parallelx.go:39-47 | where failing branches agree on their error, a calculation has exactly one outcome on a ledger |
| Calculations.DecidedExactly | sdk/internal/parallelx/parallelx.go:39-47 | that is just when the course of a calculation is unique |
| Processes.FirstReportIsOwn | sdk/internal/parallelx/parallelx.go:27-35 | the first error in the queue comes from a branch cancellation took nothing from |
| Processes.JoinIsPossible | sdk/internal/parallelx/parallelx.go:39-47 | what Run returns undisturbed is all payloads, or the error of a branch that fails by itself |
| Processes.RunIsTrue | sdk/protocols/orca/whirlpool/metrics.go:114-236 | in every interleaving of a calculator's branches, an undisturbed calculation stays on a course the ledger allows and ends so |
| Processes.AdvanceRunsOut | sdk/protocols/orca/whirlpool/metrics.go:206-231 | every step of a calculation brings it closer to its end, whatever its client answers |
| Processes.CanGoOn | sdk/protocols/orca/whirlpool/metrics.go:206-231 | until it is concluded, a calculation can go on |
| Processes.AdvanceCalm | sdk/internal/parallelx/parallelx.go:24-36 | over a client that never fails, cancellation may cut reads short but none goes unanswered by itself |
| Processes.AdvanceCallsKeep | sdk/rpc/preload_client.go:47-146 | in every interleaving of a calculation's branches, over any client, no read in progress asks for what is known to be cached |
| Processes.AdvanceStaysWithin | sdk/rpc/preload_client.go:47-146 | a calculation that reads only what is cached has every read answered, over any client |
| Mishaps.RunIsHonest | sdk/internal/parallelx/parallelx.go:12-48 | over a client that may fail at any call, in every interleaving, a calculation concludes from the ledger's answers and the client's own errors; an error it is joined with is one a branch ended in by itself |
| Mishaps.ExecuteHonest | sdk/protocols/pumpfun/bonding_curve/metrics.go:53-100 | the same of a calculator that only reads one thing after another |
| Mishaps.UnfailingMeetsLedger | sdk/internal/parallelx/parallelx.go:12-48 | where the client never fails this leaves nothing but what the ledger allows |
| Costs.AdvanceKeeps | sdk/internal/parallelx/parallelx.go:24-36 | in every interleaving of a steady calculation, a branch cut short has been charged all it would be, and any other leaves cached what it read |
| Costs.CoursesCostTheSame | sdk/internal/parallelx/parallelx.go:39-47 | all courses the ledger allows a steady calculation cost the same |
| Costs.AdvanceAccounted | sdk/rpc/preload_client.go:47-69 | in every interleaving of a steady calculation the counters hold what its reads so far cost, and no more |
| Schedules.OutcomesExactly | sdk/internal/parallelx/parallelx.go:12-48 | the outcomes of a calculation over all interleavings are exactly those the ledger allows |
| Schedules.EitherErrorComesBack | sdk/internal/parallelx/parallelx.go:27-47 | two branches that fail by themselves: some interleaving brings back each of the two errors |
| CostSchedules.CountersExactly | sdk/protocols/orca/whirlpool/metrics.go:206-231 | a calculator that gives up when something fails leaves the same counters in every interleaving if and only if it is steady |
| CostSchedules.FailureSwaysCounters | sdk/protocols/orca/whirlpool/metrics.go:206-225 | beside a branch that fails, a query and then a counted read: the outcome is decided and the counters are not |
| Service.MarketService.constructor | sdk/market/service.go:14-30 | in any map order, a custom factory wins over the default one and nil factories are skipped |
| Service.CustomFactoriesWin | sdk/market/service.go:14-30 | for every route: the custom factory's calculator, be it nil; else the built-in one; else none; built for the configured client and supply provider |
| Service.SingleIsExpected | sdk/market/metrics_service.go:54-81 | alone, a pool comes to something the ledger allows unless a read went unanswered, and to its one value where branches leave no choice |
| Service.SingleExactly | sdk/market/metrics_service.go:54-81 | over a client that never fails, what a pool can come to alone is exactly what the ledger allows |
| Service.NewServiceIsWired | sdk/market/service.go:14-30 | whatever NewService builds on the direct client, nil factories included, and what it is after registering calculators on other routes, meets the wiring condition |
| Service.GroupServiceAgrees | sdk/market/metrics_service.go:218-222 | every grouped route has an entry in the service that computes it, and a pool meets the same refusal or calculation there; only the client differs |
| Service.RefusedInBulkExactly | sdk/market/metrics_service.go:383-400 | a route with a calculator registered by hand is refused in bulk if and only if its factory returns nil, or is nil and there is no default |
| Service.NilFactoryBreaksBulk | sdk/market/metrics_service.go:392-400 | a service where that happens |
| Service.ConcurrencyRange | sdk/market/metrics_service.go:363-381 | with work to do the limit is between 1 and the number of items and within a positive cap; the chunk size asked for wins |
| Service.BulkNumbers | sdk/market/metrics_service.go:363-381 | the exact limit and chunk size of a call, from the caller's numbers, the service's or the default |
| Bulk.Partition | sdk/market/metrics_service.go:137-172 | the loop leaves the refusals in the slots and each route's indices in the map, nothing else |
| Bulk.GroupMapMeaning | sdk/market/metrics_service.go:143-167 | appending index by index yields, for every route, exactly the group of that route |
| Bulk.GroupIndicesMeaning | sdk/market/metrics_service.go:143-167 | a group is the strictly increasing list of exactly the accepted indices of its route |
| Bulk.PartitionIsExact | sdk/market/metrics_service.go:143-172 | refusals and groups partition the request; groups are non-empty, single-route and have a calculator entry; refusals are the single path's errors |
| Bulk.CountFailures | sdk/market/metrics_service.go:402-409 | the loop's map holds, for every code, how many items failed with it |
| Bulk.CountsAddUp | sdk/market/metrics_service.go:402-409 | the counts by code sum to the number of failed items |
| BulkProtocol.NewJobIsFit | sdk/market/metrics_service.go:142-181 | the semaphore has at least one slot, at most one per group, and respects a positive cap |
| BulkProtocol.StepKeepsBalanced | sdk/market/metrics_service.go:187-244 | every step keeps tokens equal to running workers, within the limit, and the wait group equal to the unfinished ones |
| BulkProtocol.TokensAreWorkers | sdk/market/metrics_service.go:181-244 | the same in every reachable state; a returned call has only finished workers; a bound on the length of any run |
| BulkProtocol.NeverStuck | sdk/market/metrics_service.go:187-244 | until the call returns some step is enabled |
| BulkProtocol.EveryRunReturns | sdk/market/metrics_service.go:187-246 | from every reachable state wg.Wait can be reached, and every run is bounded |
| BulkProtocol.IndicesApart | sdk/market/metrics_service.go:190-233 | no two places in the groups hold the same index, so goroutines write disjoint slots |
| BulkProtocol.MoveKeepsSlots | sdk/market/metrics_service.go:198-233 | each worker step writes at most the slot of its own item, from blank to settled, and touches no refusal |
| BulkProtocol.StepKeepsCache | sdk/market/metrics_service.go:201-233 | over any client, every step keeps a primed group's addresses cached and its calculations from asking for them |
| BulkProtocol.EveryItemSettled | sdk/market/metrics_service.go:132-246 | over any client each returned item keeps its input and has exactly one of metrics and error; refusals are the single path's |
| BulkProtocol.GroupSettled | sdk/market/metrics_service.go:203-216 | when priming fails, every item of the group has the recorded error and no metrics (whose error it is: BulkAnswers.FailureIsTheClients) |
| BulkProtocol.FailuresAddUp | sdk/market/metrics_service.go:402-409 | on return, the reported failure counts miss no failed item |
| BulkProtocol.StepKeepsTruth | sdk/market/metrics_service.go:187-243 | every step of every worker keeps finished items fair, the item in hand on course and the counters on budget |
| BulkProtocol.UndisturbedItem | sdk/market/metrics_service.go:132-246 | an item whose group was primed and whose reads were answered holds something the ledger allows it |
| BulkProtocol.BulkRefinesSingle | sdk/market/metrics_service.go:54-246 | such an item, and every refused one, has what GetMetricsByPool alone can give it, and exactly what it gives where branches leave no choice of error |
| BulkProtocol.RunUndisturbed | sdk/market/metrics_service.go:187-244 | over a client that never fails no run is disturbed |
| BulkProtocol.TotalOfAnyOrder | sdk/market/metrics_service.go:184-240 | the summed counters do not depend on the order of the groups |
| BulkProtocol.UndisturbedTotal | sdk/market/metrics_service.go:209-240 | where the pools are steady, an undisturbed call's counters are the sum of what its groups' reads cost on the ledger |
| BulkProtocol.SchedulesAgree | sdk/market/metrics_service.go:143-246 | two undisturbed calls agree on every decided item, and on the totals where the pools are steady, for every order, limit and interleaving |
| BulkSchedules.NoPrimedReadAsks | sdk/market/metrics_service.go:201-233 | in every reachable state, over any client, no read of a primed group's addresses is about to ask the client, be it the calculator's or a branch's |
| BulkSchedules.PrimedItemUndisturbed | sdk/market/metrics_service.go:201-233 | an item that reads primed addresses only is disturbed by nothing but a failed priming, over any client |
| BulkSchedules.BulkOutcomesExactly | sdk/market/metrics_service.go:132-246 | over a client that never fails, what an item can hold on return, over all schedules, is exactly what the ledger allows it |
| BulkSchedules.BulkGivesWhatSingleGives | sdk/market/metrics_service.go:54-246 | that is exactly what GetMetricsByPool can give it alone |
| BulkSchedules.LoneTotalsExactly | sdk/market/metrics_service.go:187-246 | a call for one pool whose calculator gives up when something fails reports the same counters in every schedule if and only if the pool is steady |
| BulkAnswers.ServedInBulk | sdk/market/metrics_service.go:54-246 | a well-formed pool of a registered route, over a client that never fails: the item can show metrics or an error if and only if the route's own calculator, run on that pool, may come to them on the ledger |
| BulkAnswers.ServedAlone | sdk/market/metrics_service.go:54-81 | the same of GetMetricsByPool alone |
| BulkAnswers.TurnedAwayAlone | sdk/market/metrics_service.go:308-319 | alone, a pool without dex, version or address gets its literal refusal, in that order |
| BulkAnswers.CurvesTurnedAwayAlone | sdk/market/metrics_service.go:58-64 | so does a bonding-curve pool |
| BulkAnswers.UnroutedAlone | sdk/market/metrics_service.go:66-74 | and a pool of a route without a calculator, with the route in the message |
| BulkAnswers.TurnedAwayInBulk | sdk/market/metrics_service.go:144-148 | in bulk the same refusals, over any client and on every schedule |
| BulkAnswers.CurvesTurnedAwayInBulk | sdk/market/metrics_service.go:149-156 | the same for bonding-curve pools |
| BulkAnswers.UnroutedInBulk | sdk/market/metrics_service.go:157-165 | the same for routes the service does not know |
| BulkAnswers.JobNumbers | sdk/market/metrics_service.go:142-181 | the semaphore holds the least of the limit asked for, the number of pools and the number of groups; the chunk size asked for, or the service's, goes into the context |
| BulkAnswers.GroupAddresses | sdk/market/metrics_service.go:198-202 | a group primes the addresses of the well-formed pools of its route, and no others |
| BulkAnswers.FailureIsTheClients | sdk/market/metrics_service.go:198-207 | in every reachable state, over any client, a group's priming failure is an error the client itself gave, in a batch of the group's addresses or on one of them |
| BulkAnswers.PrimingFailureShows | sdk/market/metrics_service.go:198-216 | on return an item of such a group shows that error, as rate_limited, timeout or rpc_unavailable where its chain holds an uncoded ClientError of that kind; in any other group the item's own address is cached |
| BulkAnswers.EveryItemAccounted | sdk/market/metrics_service.go:132-246 | over an exact client that may fail at any call, on every schedule: a served item shows its group's priming failure, or what its route's calculator, run on that pool, concludes from the ledger's answers and the client's own errors |
| BulkAnswers.AloneAccounted | sdk/market/metrics_service.go:54-81 | the second half of that for GetMetricsByPool alone |
| EndToEnd.BulkOverTheStack | sdk/market/client.go:21-47 | the same refinement over failover, retry, chunking and preload together, with any calls of others in between, for chunk sizes that do not panic |
| EndToEnd.AccountedOverTheStack | sdk/market/client.go:21-47 | over that client, failing as it may, every served item shows its group's priming failure or what its calculator concludes from the ledger's answers and the client's own errors |
| EndToEnd.OutagesOutlived | sdk/market/client.go:21-47 | where one of two endpoints fails no request more often than it is retried, whoever makes it and whatever is called in between, and the primary fails retryably, no schedule disturbs an item |
| BondingCurves.GetMetricsByPumpfunBondingCurves | sdk/market/metrics_service.go:249-306 | every slot holds its item's refusal or the outcome of its turn; counters and world are those after the last turn |
| BondingCurves.Sift | sdk/market/metrics_service.go:255-276 | the validation loop's slots, valid indices and addresses |
| BondingCurves.PrimeAll | sdk/market/metrics_service.go:278-285 | a failed priming reaches every valid item and no other |
| BondingCurves.ServeAll | sdk/market/metrics_service.go:286-303 | items are served one after another from the state the previous one left |
| BondingCurves.SingleIsExpected | sdk/market/metrics_service.go:83-130 | alone, a curve gets the ledger's metrics or error unless a read went unanswered |
| BondingCurves.OneCurveForBothOrders | sdk/market/metrics_service.go:84-98 | whichever of the two mints is SOL, it is the other one's curve that is derived, and a failure to derive is coded by classification |
| BondingCurves.CurveOutcome | sdk/market/metrics_service.go:83-130 | alone, in either order of the mints, over a client that never fails: what the calculator of the token's derived address makes of the ledger, a failure wrapped and coded |
| BondingCurves.MintsRefused | sdk/market/metrics_service.go:321-329 | the mints turned away, with their literal refusals and no call made |
| BondingCurves.CurvesRefineSingle | sdk/market/metrics_service.go:249-306 | a valid, undisturbed item has exactly what GetMetricsByPumpfunBondingCurve(token, SOL) gives alone |
| BondingCurves.RefusedSlots | sdk/market/metrics_service.go:255-273 | in bulk, over any client: the literal refusals of a zero mint, of SOL and of a token whose curve cannot be derived |
| BondingCurves.CurveSlot | sdk/market/metrics_service.go:249-306 | over a client that never fails an item with a curve shows what the calculator of its derived address makes of the ledger |
| BondingCurves.CurvesPrimed | sdk/market/metrics_service.go:257-276 | the addresses primed are those of the derived curves, and no others |
| BondingCurves.CurvesPriming | sdk/market/metrics_service.go:278-285 | priming fails when its one batch does, and only with an error of the client itself; otherwise every curve is cached |
| BondingCurves.PrimingReaches | sdk/market/metrics_service.go:280-284 | after a failed priming every item with a curve shows its error |
| BondingCurves.CurveAccounted | sdk/market/metrics_service.go:286-303 | after a successful one, over a client that may fail at any call, such an item shows what its calculator concludes from the ledger's answers and the client's own errors |
| BondingCurves.CurvesCount | sdk/market/metrics_service.go:286-305 | the counters are what the calculators read, item after item, and priming adds nothing |
| BondingCurves.RefusalsCompared | sdk/market/metrics_service.go:321-339 | the two paths refuse alike if and only if the token is neither zero nor SOL, with the same code if and only if it is not SOL |

## Left out

- The JSON-RPC transport and reply decoding (`sdk/rpc/client.go`): the backend is an arbitrary client over a ledger.
- Batch replies longer than the request: the source would index out of range or ignore the excess; `NeverLong` assumes
  there are none.
- Calculators that return a nil response without an error: the source would dereference it.
- Price, liquidity, market-cap and supply formulas, which rest on an external decimal library: metrics are opaque.
- Floating-point rounding in `applyJitter`: jitter is computed over the reals and rounded down.
- Base58, program-address derivation and `String()` of keys: keys are compared directly, derivation is a parameter.
- Lower-casing beyond ASCII, `errors.Join` inside foreign errors, and error kinds or codes outside the declared
  constants.
- Timers and deadlines themselves: a wait either passes or reports the error its context ended with.
- Forks inside a branch of a calculator: no built-in calculator makes any, so branches here read one thing after
  another.
- Retry.JitterRange: does not model waits past 64 bits, which only a jitter fraction far above 1 reaches and whose
  conversion Go leaves to the platform.
- A supply provider of the default kind built around a different client than the service's: withRPCClient would move it.
- Quote bridges keep their own client in a rebuilt service; what they read appears here as pass-through queries.
- Services whose calculators were replaced by hand on routes a factory can rebuild: the bulk path would rebuild them and
  ignore the replacement; `Service.Wired` excludes them.
- The debug metadata attached to responses, the order of `protocol_groups`, and the request recorder.
- Accounts that change while a call runs: the ledger is fixed, the slot of each record included.
- Aliasing of returned account records and byte slices.
- The other decoders of the protocol packages, fee subtraction, `cachex`, `mathx`, options and the example program: they
  would add easier members only.
