# Verified models of the goddgs crawler and search client

This project models the stateful cores of goddgs in Dafny and proves what they keep over every run:
the concurrent crawl of `spider.go`, the retry protocol of `client.go` with the circuit breaker of
`antibot.go`, the pacing and allocation arithmetic around them, the provider failover of `engine.go`,
and the self-healing selectors of `adaptive_parser.go`.

`dafny verify dfyconfig.toml` checks everything.

## How the program is modelled

**The crawl.** `SpiderModel` describes one `Spider.Run` as a transition system: `Concurrency` worker
goroutines, the coordinator (seeding, receiving, dispatching, closing), the goroutine that closes the
result channel, and an environment that cancels, pauses and resumes. A `Step` is one atomic action of one
of them; `Execute` runs a schedule, so a statement about every `Reachable` state is a statement about
every interleaving. Channels are bounded sequences, a send is enabled while there is room, and `select`
is the choice among the enabled steps. The state also keeps the history of what was dispatched, fetched,
delivered and lost. `SpiderInvariant` and `SpiderDiscovery` hold the invariant part by part,
`SpiderTheorems` the safety results, `SpiderProgress` termination and the shape of a deadlock, `SpiderLoad`
runs that fill a crawl up, `SpiderAccounts` further accounts that every run keeps, and `SpiderWedge` exactly
which crawls can deadlock. `SpiderAnswers` says what `Run` answers and in which order things happen, in terms of
the steps taken. `DomainPacing` is the pause between fetches from one host. `SpiderStore` is the object whose
`seen` set outlives a run.

**The search client.** `ClientModel` defines the retry protocol as a function of a script that lists,
for each attempt, the delays, reply, solver answer and jitter it meets. The loop calls the request
builder, and the `d.js` builder calls the loop again to fetch its token, on the same breaker, token cache
and clock. `ClientObject` is the client as a class updated in place; each of its methods is proved to
compute the corresponding function, so the theorems of `ClientSafety`, `ClientCounts`, `ClientFetches`,
`ClientExtremes`, `ClientBounds` and `ClientBackoff` are about it. `ClientAnswers` states reply by reply what the
client answers, and `ClientTokens` whose token a request carries. Time is an integer number of nanoseconds that never goes back.

**The rest** follows the source file by file: `CircuitBreaker`, `RateLimiter`, `WeightedPick` with
`ProxyPool` and `UserAgents`, `SessionPool`, `AccessGuard`, `Engine`, `AdaptiveParser`.
`EngineAnswers` reads the engine's answer off its trace and its providers' errors. Objects that are
updated in place are classes whose methods are proved against functions, and the bounds over whole runs
are lemmas about those functions. `Text` has `TrimSpace`, and the printing and scanning of depths.

## What the proofs found

- An uncancelled `Run` can get stuck dispatching links, with nothing but outside cancellation to release
  it, exactly when three things hold: `MaxPages > 5*Concurrency`; at least one and at most
  `13*Concurrency` start URLs are accepted; and pages can link to enough other URLs, admitted by the host
  policy and not seen before, to make up `13*Concurrency + 2` with the accepted ones (`DispatchWedgesIff`).
  What pages can link to is up to the Parse function, of which only this is known: its links come out of
  `normalizeURLs`. Without a Parse function (`NoParseNeverSticks`), or with an allow list that rejects every
  URL, no run sticks; where pages can link to all the pages below some admitted address the limits alone
  decide (`DispatchWedgesOnHost`). A run that is stuck has exactly `13*Concurrency` tasks in flight
  (`StuckCostsPages`), and cancelling releases it (`CancelledRunReturns`).
- The seeding send has no cancel branch, and nothing takes results out during seeding. A cancelled run can
  be stuck in it exactly when more than `8*Concurrency` start URLs are accepted (`SeedingWedgesIff`). A run
  that nobody cancels can be stuck in it exactly when more than
  `8*Concurrency + min(5*Concurrency, MaxPages + 1)` are: either everything is full, or the exhausted budget
  cancels the run from inside (`SeedingWedgesAloneIff`). Either way it is stuck for good: cancelling does not
  help a run whose coordinator is blocked there (`SeedingWedgeIsPermanent`).
- Together these are all the ways in which a run that nobody cancels fails to return (`NeverStuckIff`,
  `NeverStuckReturns`). With at most `5*Concurrency` pages and `8*Concurrency` accepted start URLs `Run`
  always returns, cancelled or not (`ReturnsWithinCapacity`).
- Where no challenge is solved, one Search sends at most `retryMax*(retryMax+2)` requests, and that is
  reached (`SearchCost`, `SearchBoundIsTight`). It is more than `3*retryMax` only through further token
  fetches, one for each lifetime that the d.js part takes and one for each block that invalidates the tokens
  (`SearchFetchCost`, `QuickSearchCost`).
- With a solver that answers within the cooldown, the requests of a call whose builder fetches no token are
  bounded exactly when there is a breaker (`PlainBoundedIff`); the bound is `retryMax + threshold - 1`, one
  less than the sum of the two limits, and it is reached (`SolvedCallCost`, `SolvedBoundIsTight`). Without a
  breaker (a threshold of 0), or with a solver as slow as the cooldown, no number bounds them
  (`UncheckedSolverIsUnbounded`).
- The requests of a `d.js` call are bounded exactly when no challenge is ever solved, or there is a breaker
  that either has a threshold of one or is never reset because no page issues a token (`DjsBoundedIff`). For
  a threshold of one the bound is `retryMax*(retryMax+1)` (`DjsCallCost`). With a threshold of two or more
  the success of a token fetched again, after an invalidation or after its lifetime, resets the breaker each
  time (`TokenSuccessDefeatsBreaker`).
- With a single caller a success is recorded only while the breaker is closed, so the "success_reset"
  circuit event never fires (`NothingSentWhileOpen`). The comment at antibot.go:105-107 says the breaker
  resets on the first success after the cooldown; the code resets the counter on every success, and the
  model follows the code.
- The key of a cached token is `query + "|" + ua`, which does not tell a bar in the query from one in the user
  agent. A token is served to another query exactly when the two keys overlap in this way (`KeysEqualIff`,
  `SharedIff`, `SharedToken`). That takes a solver that changes the user agent and a query with a bar in it; in
  every other run each `d.js` request carries a token that was issued for its own query (`TokenIsOwn`).
- `FallbackUsed` compares positions, not attempts: it is set although no other provider was tried exactly
  when all providers before the serving one are disabled and there are some (`FallbackFlag`).
- A selector that heals to a candidate that does not compile fails on every later `Select`; otherwise it
  keeps finding an element in the document that healed it (`HealedIsFoundAgain`, `NeverMissedAgain`,
  `BadSelectorIsStuck`).
- The stealth guard lets `2*limit` requests of one address through within two clock ticks
  (`MinuteBoundIsTight`). It reads the clock before it takes its lock, so concurrent calls may be served out
  of the order of their readings; then `3*limit` requests fit into a minute, and no more as long as readings
  are at most a minute late (`MinuteBound`, `LateBoundIsTight`).

## Model

| member | source | states |
|---|---|---|
| SpiderTheorems.ReachableInv | spider.go:110-224 | every state of every interleaving satisfies the whole invariant: capacities, counter, conservation of each task, seen set, chains, links |
| SpiderTheorems.InFlightIsExact | spider.go:190-221 | at the head of the receive loop inFlight equals queued + held + waiting results and is positive; after a cancellation it can only overcount |
| SpiderTheorems.NilMeansComplete | spider.go:134-223 | when Run returns nil the dispatched, fetched and delivered tasks are the same multiset, seen grew by exactly the delivered URLs and covers every allowed start URL and every allowed link of a page below MaxDepth |
| SpiderTheorems.NilSawUrl | spider.go:190-217 | then every start URL, and every link of a page below MaxDepth, is seen or blank if its host is in a non-empty allow list and not denied |
| SpiderAnswers.AnswerOfRun | spider.go:149-223 | for every schedule after which Run has returned: without a dispatched task it answered nil, otherwise an error if and only if the context was cancelled, from outside or for lack of budget, before the return step |
| SpiderAnswers.PauseStops | spider.go:146-152 | from a Pause to the next Resume only workers that had passed the pause check fetch, each at most one page |
| SpiderAnswers.FirstInFirstOut | spider.go:138-217 | in every schedule tasks are taken off the queue in the order of their dispatch and results received in the order in which they were sent |
| SpiderTheorems.NoChannelPanic | spider.go:158-222 | no reachable step sends on or closes a closed channel |
| SpiderTheorems.BudgetBounds | spider.go:122-132 | results received <= fetches started = MaxPages - pageBudget <= MaxPages |
| SpiderTheorems.FetchedIsJustified | spider.go:191-214 | every fetched URL has a key, a host that is in a non-empty allow list and not denied, and a depth at most MaxDepth that is the length of a chain of delivered links from a start URL |
| SpiderTheorems.FetchedOnce | spider.go:328-340 | in one Run no trimmed URL is fetched twice and none that was seen before is fetched |
| SpiderTheorems.FetchedOnceOverRuns | spider.go:328-340 | over all Runs of a spider no trimmed URL is fetched twice and none from the checkpoint is fetched |
| SpiderTheorems.SeenFixedAfterReturn | spider.go:222-223 | workers that outlive a cancelled Run change neither the seen set nor the history of dispatches |
| SpiderInvariant.StepCounter | spider.go:168-221 | each step of each goroutine keeps the counter exact, or an overcount once cancelled |
| SpiderInvariant.StepConserved | spider.go:138-217 | each step keeps every dispatched task in exactly one place |
| SpiderInvariant.StepKeys | spider.go:194-217 | each step keeps seen equal to the starting set plus the keys of marked tasks, without repetition |
| SpiderInvariant.StepOutcome | spider.go:178-223 | nil is returned only over a system with no task anywhere |
| SpiderDiscovery.StepChains | spider.go:194-214 | each step keeps a discovery chain for every dispatched task; the depth survives its print and parse |
| SpiderDiscovery.StepLinks | spider.go:202-217 | each allowed link of a received result is in seen or still to be looked at |
| SpiderProgress.StuckIffWedged | spider.go:134-223 | a reachable unpaused run that has not returned can move unless, and only unless, the coordinator is blocked on a full queue and every worker has exited or is blocked on a full out |
| SpiderProgress.DispatchCapacity | spider.go:115-116 | while dispatching blocks, at most 13C tasks are in flight, and some worker can step exactly if there are fewer or some worker is not waiting to send |
| SpiderProgress.SeedingNeverBlocks | spider.go:168-177 | with at most 8C accepted start URLs the seeding send is always possible |
| SpiderProgress.StepDecreases | spider.go:134-223 | every step of the crawl decreases the order on budget, fetches under way and remaining work |
| SpiderProgress.EveryRunEnds | spider.go:134-223 | under every schedule that does not stop early an unpaused run ends, returned or wedged |
| SpiderLoad.Absorb | spider.go:138-162 | a queued task moves on to the result channel, a worker or the queue, whichever has room first |
| SpiderLoad.SeedAll | spider.go:168-177 | up to 13C accepted start URLs can all be seeded while nothing is taken out |
| SpiderLoad.DispatchAll | spider.go:202-217 | fresh links can be dispatched until 13C tasks are in flight and one more is pending |
| SpiderAccounts.StepBooks | spider.go:122-217 | each step keeps the account of what was dispatched, spent, received and lost, and inFlight equal to dispatched minus received |
| SpiderAccounts.StepSeedsFit | spider.go:168-190 | each step keeps that a run past seeding, if not cancelled, accepted at most 13C start URLs |
| SpiderAccounts.StepLinksOk | spider.go:267-273 | each step keeps that results link only to what Parse and normalizeURLs can give |
| SpiderWedge.ReachDispatchWedge | spider.go:202-217 | every configuration within the condition has a run, not cancelled, that reaches the stuck state |
| SpiderWedge.DispatchWedgesIff | spider.go:202-217 | for every configuration and seen set: an uncancelled run can get stuck dispatching if and only if MaxPages > 5C, 1 to 13C start URLs are accepted and pages can link to 13C + 2 less the accepted ones of fresh admitted keys |
| SpiderWedge.NoParseNeverSticks | spider.go:267-273 | without a Parse function none gets stuck dispatching |
| SpiderWedge.DispatchWedgesOnHost | spider.go:202-217 | where pages can link to every page below some admitted address, if and only if MaxPages > 5C and 1 to 13C start URLs are accepted |
| SpiderWedge.StuckNeedsKeys | spider.go:194-214 | a stuck dispatch has marked, beyond the accepted start URLs, enough different admitted keys that pages linked to |
| SpiderWedge.StuckCostsPages | spider.go:149-162 | a stuck dispatch has 13C tasks in flight and has cost more than 5C pages |
| SpiderWedge.SeedingWedgesIff | spider.go:168-177 | a cancelled run can be stuck seeding if and only if more than 8C start URLs are accepted |
| SpiderWedge.SeedingWedgesAloneIff | spider.go:149-177 | a run that nobody cancels from outside can be stuck seeding if and only if more than 8C + min(5C, MaxPages + 1) start URLs are accepted |
| SpiderWedge.SeedingWedgeIsPermanent | spider.go:173-176 | no schedule of the crawl and its environment, cancelled or not, leads out of a seeding wedge, so Run never returns |
| SpiderWedge.NeverStuckIff | spider.go:110-224 | without outside cancellation no unpaused state is stuck before the return if and only if neither wedge condition holds |
| SpiderWedge.NeverStuckReturns | spider.go:110-224 | then Run returns under every schedule |
| SpiderWedge.ReturnsWithinCapacity | spider.go:110-224 | with at most 5C pages and 8C accepted start URLs Run returns under every schedule, cancelled or not |
| SpiderWedge.CancelledRunReturns | spider.go:212-223 | past seeding a cancelled run returns under every schedule |
| SpiderStore.WithDefaults | spider.go:65-98 | an error exactly for a missing fetcher, no start URLs or a writer that does not open; otherwise a valid configuration that keeps a valid one and fills in 4, 200, 4 and 350 ms |
| SpiderStore.CheckpointRoundTrip | spider.go:387-418 | restoring a snapshot, in whatever order, gives back exactly the seen set |
| SpiderStore.Spider.constructor | spider.go:84-100 | a new spider has seen exactly the trimmed checkpoint entries |
| SpiderStore.Spider.AllowsUrl | spider.go:237-252 | true exactly for parseable URLs with a host in a non-empty allow list and not in the deny list |
| SpiderStore.Spider.MarkSeen | spider.go:328-340 | true exactly for a new non-empty trimmed key, which is the only one added |
| SpiderStore.Spider.SnapshotSeen | spider.go:387-395 | lists each seen key exactly once |
| SpiderStore.Spider.RestoreCheckpoint | spider.go:397-420 | adds exactly the trimmed entries |
| SpiderStore.Spider.WaitDomain | spider.go:312-326 | lets a fetch through no earlier than one interval after the last from its host, and remembers when |
| DomainPacing.StartsSpaced | spider.go:312-326 | fetches from one host start at least DomainMinInterval apart |
| DomainPacing.StartIs | spider.go:312-326 | a fetch starts at once if an interval has passed since the last start from its host, otherwise then, but for its own oversleeping; calls for other hosts change nothing |
| DomainPacing.HostBound | spider.go:312-326 | in a period of length L at most L/interval + 1 fetches from one host start |
| Text.TrimIsTrimmed | spider.go:329-329 | a trimmed key has no space at either end, and trimming it again changes nothing |
| Text.TrimIs | spider.go:329-329 | trimming takes off exactly the spaces around a trimmed text |
| Text.ScanDecimal | spider.go:157-197 | a depth printed with %d is read back unchanged |
| CircuitBreaker.ReplayMeaning | antibot.go:134-175 | for every history consecutive is the number of blocks since the last success, and openUntil is one cooldown after the last block exactly when that number reaches the threshold |
| CircuitBreaker.OpenMeaning | antibot.go:134-138 | open exactly from a block that reaches the threshold until a cooldown after the last block or a success |
| CircuitBreaker.TripMeaning | antibot.go:142-159 | an opening is reported for the block that reaches the threshold, and for later ones exactly when the last cooldown is over |
| CircuitBreaker.New | antibot.go:123-131 | 5 blocks and 60 seconds in place of non-positive settings |
| CircuitBreaker.OpeningsAreSpaced | antibot.go:142-159 | two opened reports have a success between them or are a cooldown apart |
| CircuitBreaker.Circuit.constructor | antibot.go:123-131 | non-positive settings become 5 blocks and 60 seconds; nothing is recorded |
| CircuitBreaker.Circuit.Open | antibot.go:134-138 | open exactly before openUntil |
| CircuitBreaker.Circuit.RecordBlock | antibot.go:142-159 | counts one block, reopens from the threshold on, reports an opening only if it was not open, and returns the new state |
| CircuitBreaker.Circuit.RecordSuccess | antibot.go:162-175 | clears the counter and closes; reports whether it had been open |
| ClientSafety.NothingSentWhileOpen | client.go:469-508 | in every run of one caller no request is sent and no success is recorded while the breaker, as replayed from the log, is open; the reset event never fires |
| ClientSafety.TokenPostdatesBlocks | client.go:360-386 | with VQDInvalidateOnBlock every d.js request carries a token issued after the latest block |
| ClientSafety.CachedTokenIsInDate | client.go:433-466 | a token served from the cache was issued less than one TTL before |
| ClientTokens.TokenBelongs | client.go:360-386 | in every run each d.js request carries a token that was read from a reply to an earlier token request for its own query, or for one whose key with its user agent is the same string |
| ClientTokens.TokenIsOwn | client.go:433-466 | without a solver, or where no query has a bar, the token was read from a reply to a request for the same query |
| ClientTokens.KeysEqualIff | client.go:434-434 | two cache keys are equal exactly for equal parts, or where one query and the other user agent share a part next to a bar |
| ClientTokens.SharedIff | client.go:433-466 | a kept token is served to another query and user agent exactly then |
| ClientTokens.SharedToken | client.go:433-466 | a concrete pair: the token of a query is served to another after the user agent changed |
| ClientAnswers.SettleAnswers | client.go:505-626 | reply by reply: blocked statuses and detected pages are blocks, other 2xx pages are returned, transport failures, 429 and 5xx give the index up, every other status ends the call; with the exact breaker, log, cache, clock and user agent each leaves |
| ClientAnswers.PassAnswers | client.go:471-626 | a plain attempt on a closed breaker sends one request and goes by its reply so |
| ClientAnswers.DjsPassAnswers | client.go:360-386 | so does a d.js attempt once it has a token; otherwise it ends with the token's error |
| ClientAnswers.NothingIsTried | client.go:471-498 | on an open breaker, or when the wait is cancelled, nothing is sent, and the call fails with the error that says so |
| ClientAnswers.RefusedAtOnce | client.go:565-569 | a status that is not blocked, not 2xx, not 429 and below 500 ends the call with its one request and that error |
| ClientAnswers.RetriedAfterFailure | client.go:563-626 | a transport failure, 429 or 5xx that is not blocked leads to the next index, or to its error on the last |
| ClientAnswers.PageIsReturned | client.go:532-562 | a 2xx page that is neither blocked nor detected is returned at once |
| ClientAnswers.OnlyPagesAreReturned | client.go:505-626 | nothing but the body of such a page is ever returned |
| ClientAnswers.SearchAnswers | client.go:277-331 | a search shows the first results of the d.js page, in order and as many as asked for (10 by default); without any, unless the fallback is off, those of the HTML page; otherwise the error of the last call |
| ClientAnswers.NoFallbackNoHtml | client.go:317-319 | with the fallback off no request asks the HTML endpoint |
| ClientAnswers.CallAsks | client.go:360-431 | a call asks its own endpoint only, a d.js call also for the token of its query |
| ClientSafety.RetryKeeps | client.go:469-628 | the nested loops keep the whole log invariant, and a call that succeeds leaves the breaker closed |
| ClientCounts.SearchCost | client.go:277-331 | where no challenge is solved one Search sends at most retryMax*(retryMax+2) requests |
| ClientExtremes.SearchBoundIsTight | client.go:277-331 | some script reaches that number: each d.js attempt finds its token expired, fetches another at the last try and fails |
| ClientFetches.SearchFetchCost | client.go:277-331 | where no challenge is solved at most 2*retryMax, and retryMax for each token that may have to be fetched: one, one for each token lifetime the d.js part takes, one for each block in it that invalidates tokens |
| ClientFetches.QuickSearchCost | client.go:277-331 | at most 3*retryMax if tokens are neither invalidated nor expire during the d.js part |
| ClientCounts.PlainCost | client.go:401-421 | where no challenge is solved one call of a plain builder sends at most the remaining indices |
| ClientCounts.NestedCost | client.go:360-386 | where no challenge is solved a d.js call pays at most retryMax + 1 requests for each index |
| ClientFetches.DjsFetchCost | client.go:360-390 | a d.js call sends one request for each index left, and fetches a token only when none is cached, it is out of date or a block invalidated it |
| ClientFetches.SettleKeepsTokens | client.go:575-604 | an attempt leaves the token cache alone unless a block invalidates it |
| ClientCounts.AttemptIsPaid | client.go:583-617 | each further attempt uses up an index, or a block the breaker can still take |
| ClientCounts.SolvedCallCost | client.go:471-627 | with prompt solvers a call of a plain builder sends at most retryMax + threshold - 1 requests although solved challenges undo the loop increment |
| ClientExtremes.SolvedBoundIsTight | client.go:609-617 | some script of solved challenges and failures reaches that number |
| ClientExtremes.UncheckedSolverIsUnbounded | client.go:471-487 | without a breaker, or with a solver that takes a cooldown or more, for every n some call sends n requests |
| ClientExtremes.TokenSuccessDefeatsBreaker | client.go:547-559 | without a breaker or with threshold at least 2, for every n some d.js call sends 2n requests: tokens are fetched again after an invalidation or after their lifetime, and each success resets the breaker |
| ClientExtremes.FetchToken | client.go:433-466 | fetching a token resets the breaker and caches the token for its lifetime |
| ClientBounds.RunsAreGoverned | antibot.go:123-175 | every state of a client has the configured breaker with a non-negative counter |
| ClientBounds.PlainBoundedIff | client.go:471-627 | with prompt solvers the requests of plain calls are bounded if and only if there is a breaker or no challenge is ever solved |
| ClientBounds.DjsBoundedIff | client.go:360-627 | those of d.js calls if and only if no challenge is ever solved, or there is a breaker and its threshold is one or no page issues a token |
| ClientBounds.DjsCallCost | client.go:364-386 | with a threshold of one a d.js call sends at most retryMax*(retryMax+1) requests |
| ClientBounds.TokenlessCost | client.go:433-466 | where no page issues a token a d.js call is paid for by indices, blocks and one failing fetch |
| ClientBackoff.BackoffBound | client.go:611-625 | one call backs off at most (1+jitterFrac)*baseDelay*(2^(retryMax-1)-1), however often indices repeat |
| ClientBackoff.SettleSlept | client.go:575-625 | an attempt sleeps only when it gives up its index, and never on the last |
| ClientAnswers.BackoffRange | client.go:710-715 | the delay at an index lies within the jitter around baseDelay times 2 to the index |
| ClientAnswers.BackoffExact | client.go:710-715 | and is exactly that without jitter |
| ClientModel.Pass | client.go:471-626 | one pass of the loop ends the call or goes on at an index the loop accepts, with a shorter script and no earlier clock |
| ClientModel.Retry | client.go:469-628 | the retry loop ends on every script; the clock does not go back |
| ClientModel.WithDefaults | client.go:219-234 | usable options are kept, others become 3 tries, 250 ms, a jitter of 0.2 and 10 minutes, and nothing else changes |
| ClientObject.Client.constructor | client.go:174-275 | a new client has the options with their defaults, a trimmed or default user agent, an empty cache and a fresh breaker |
| ClientObject.Client.ClearAllVQD | client.go:666-670 | empties the token cache |
| ClientObject.Client.ApplySolution | client.go:632-663 | takes over a non-empty user agent of the solver |
| ClientObject.Client.NoteSuccess | client.go:542-564 | the success path updates breaker and log as the protocol function says |
| ClientObject.Client.NoteBlock | client.go:575-601 | a block is counted with its opening report, and drops the tokens when they are to be invalidated |
| ClientObject.Client.SleepBackoff | client.go:710-725 | sleeps for the jittered delay if positive, and reports a cancelled context |
| ClientObject.Client.Attempt | client.go:505-625 | a reply leads to the verdict of the protocol function, the index put back for a solved challenge |
| ClientObject.Client.PassOnce | client.go:471-626 | one pass of the loop updates the client as the protocol function says |
| ClientObject.Client.DoWithRetry | client.go:469-628 | the loop with its decremented index computes the recursive protocol function |
| ClientObject.Client.FetchVQD | client.go:433-467 | the cached token when in date, otherwise a fetched one whose expiry counts from before the request |
| ClientObject.Client.FromDJS | client.go:360-399 | result, error and new state of the d.js search |
| ClientObject.Client.FromHTML | client.go:401-431 | result, error and new state of the HTML search |
| ClientObject.Client.Find | client.go:277-331 | the trimmed query, d.js first, the HTML fallback unless switched off, at most max results |
| RateLimiter.AdaptiveRateLimiter.Wait | timing.go:83-111 | reserves the later of now and the previous slot plus the clamped draw, and waits exactly until then |
| RateLimiter.AdaptiveRateLimiter.OnBlock | timing.go:114-118 | doubles the delay within its limits, never lowering it |
| RateLimiter.AdaptiveRateLimiter.OnSuccess | timing.go:121-129 | shrinks the delay to 0.85 of it but not below base |
| RateLimiter.Clamp | timing.go:23-31 | the lower limit below it, the upper limit above it, values between them unchanged |
| RateLimiter.SlotIs | timing.go:83-98 | the first call goes at once, each later one at its own time or one draw, kept between base/2 and 2*max, after the slot before |
| RateLimiter.SlotsApart | timing.go:83-98 | slots i and j are at least j-i minimal gaps apart |
| RateLimiter.WindowBound | timing.go:83-98 | an interval of length L holds at most L/gap + 1 slots, cancelled callers included |
| RateLimiter.WaitBound | timing.go:83-111 | a caller that finds k slots in the future waits at most k+1 largest gaps |
| RateLimiter.UsualGaps | timing.go:87-87 | when base/2 <= 2*max these gaps are base/2 and 2*max |
| WeightedPick.Choose | proxypool.go:131-147 | returns the first entry whose running total exceeds the draw; the fallback return is reached exactly by draws that select no entry, and by none below the sum |
| WeightedPick.DrawShare | proxypool.go:131-147 | with non-negative weights entry k is selected by exactly weights[k] of the draws |
| WeightedPick.SelectsInterval | proxypool.go:139-145 | the draws of entry k are those from its running total up to the next |
| ProxyPool.Pool.constructor | proxypool.go:58-71 | one unused entry of weight 1 for each URL, total their sum, a cooldown of 60 seconds after 3 failures in a row |
| ProxyPool.Pool.Create | proxypool.go:57-72 | an error exactly when some URL does not parse, otherwise such a pool |
| ProxyPool.Pool.SetWeight | proxypool.go:83-93 | changes the weight of the first entry with the URL only, and keeps total equal to the sum of weights |
| ProxyPool.Pool.Available | proxypool.go:118-129 | exactly the entries not in cooldown, in order |
| ProxyPool.UsableInOrder | proxypool.go:118-129 | the list keeps the order of the entries and leaves out exactly those cooling down |
| ProxyPool.Pool.Next | proxypool.go:97-115 | a panic exactly for a negative sum of the available weights, nil exactly when all entries cool down; otherwise an available entry, the next in turn or the one the draw selects |
| ProxyPool.Pool.PickByWeight | proxypool.go:131-147 | a panic exactly for a negative sum, otherwise the entry the draw selects by weight, or by position when all weights cancel out |
| ProxyPool.Pool.MarkSuccess | proxypool.go:150-158 | clears the failure run and counts a request |
| ProxyPool.Pool.MarkFailed | proxypool.go:161-171 | extends the failure run from now on and counts a failed request |
| ProxyPool.Pool.Stats | proxypool.go:174-190 | an entry is reported in cooldown exactly when it would not be available |
| UserAgents.UserAgentPool.constructor | ua.go:26-33 | keeps the entries in order with total the sum of their weights |
| UserAgents.UserAgentPool.Single | ua.go:133-138 | a valid pool of one entry |
| UserAgents.UserAgentPool.Pick | ua.go:72-81 | the entry that the weighted draw selects |
| UserAgents.SingleAlwaysPicks | ua.go:130-138 | a pinned pool only ever yields its user agent |
| SessionPool.FetcherSessionPool.Add | session_pool.go:32-40 | appends to one pool only and leaves the rotation where it was |
| SessionPool.FetcherSessionPool.Acquire | session_pool.go:42-52 | hands out the fetcher at the rotation's position and advances it; an error exactly for an empty pool |
| SessionPool.EveryoneElseOnce | session_pool.go:32-52 | between two successive grants of a position every other position present at the first is granted exactly once, with Adds interleaved |
| SessionPool.GrantsRotate | session_pool.go:42-52 | each grant follows the one before, by one position or back to the start |
| SessionPool.NextStaysInside | session_pool.go:49-50 | the next index stays inside the pool |
| AccessGuard.StealthAccessGuard.Allow | service_stealth_guard.go:22-36 | the new window and counts, and whether the caller is within the limit; a limit of zero or less changes nothing |
| AccessGuard.FirstLimitAdmitted | service_stealth_guard.go:29-35 | inside a window exactly the first limit calls of an address are admitted |
| AccessGuard.WindowRolls | service_stealth_guard.go:29-32 | a new window begins exactly with a call 60 seconds or more after the start of the last |
| AccessGuard.MinuteBound | service_stealth_guard.go:22-36 | in any half-open minute at most 2*limit requests of an address are admitted when calls are served in the order of their clock readings, and at most 3*limit when readings are up to a minute late |
| AccessGuard.MinuteBoundIsTight | service_stealth_guard.go:30-33 | 2*limit is reached by calls in order |
| AccessGuard.LateBoundIsTight | service_stealth_guard.go:27-33 | 3*limit is reached with readings two clock ticks late |
| Engine.Engine.Search | engine.go:36-98 | appends exactly the specified trace; the result, flags and diagnostics are those of the first serving provider, or list every enabled provider with its failure |
| Engine.Engine.Try | engine.go:54-92 | one provider's events and its effect on the diagnostics |
| Engine.Engine.EnabledProviders | engine.go:100-108 | names of the enabled providers in order |
| Engine.TraceIsWellFormed | engine.go:46-98 | the trace is SearchStart (ProviderStart [Blocked] ProviderEnd [Fallback])* SearchFinish with matching names and error kinds |
| Engine.AttemptsAreEnds | engine.go:57-68 | Attempts = length of ProviderChain = number of ProviderEnd events |
| Engine.ErrorsLineUp | engine.go:69-97 | Errors lines up with the chain, which equals EnabledProviders on exhaustion; a search is served exactly if some provider serves |
| Engine.FallbackFlag | engine.go:65-68 | when FallbackUsed differs from having tried another provider |
| EngineAnswers.TraceTellsAnswer | engine.go:46-98 | the providers that the trace starts are the chain, those it ends are the failures in order with their kinds and then the one that served, and the block is the one reported last |
| EngineAnswers.EnabledIs | engine.go:54-56 | the enabled providers are exactly those listed that say so |
| EngineAnswers.ServedBy | engine.go:65-68 | the first enabled provider without an error and with results serves its results; FallbackUsed tells whether it is not the first listed |
| EngineAnswers.ServedByNone | engine.go:94-97 | without one the search fails as exhausted, or as having no enabled provider exactly when all are disabled |
| EngineAnswers.FailureIs | errors_api.go:48-74 | a provider tried in vain is recorded in its place: no error and ErrNoResults as no_results, BlockedError as blocked, ErrNoVQD and ErrUnexpectedBody as parse, a SearchError with its own kind, any other as provider_unavailable |
| EngineAnswers.EventsAre | engine.go:57-92 | its events follow one another: start, Blocked with the detector or "blocked" exactly for a block, end with that kind, and Fallback unless it is listed last |
| EngineAnswers.BlockIs | engine.go:75-84 | BlockInfo is that of the last provider tried that was blocked |
| EngineAnswers.NoBlockIs | engine.go:74-84 | and absent when none was |
| AdaptiveParser.ScoreFingerprint | adaptive_parser.go:177-198 | the maximum of the weighted agreements over all references |
| AdaptiveParser.ThresholdMeansTwoAgree | adaptive_parser.go:119-121 | the threshold is met exactly when one reference agrees on two of tag, id and class |
| AdaptiveParser.ScoreOrder | adaptive_parser.go:177-198 | scores compare how many of tag and id agree, then the class, then the text; an empty part never agrees |
| AdaptiveParser.ForestFirst | adaptive_parser.go:169-171 | pre-order visits children from left to right |
| AdaptiveParser.Finder.Visit | adaptive_parser.go:157-172 | visits a subtree in pre-order, keeping the first maximum of all visited nodes |
| AdaptiveParser.FindSimilar | adaptive_parser.go:148-175 | the first element in document pre-order with the positive maximal score, or none when no element scores |
| AdaptiveParser.FirstMaximumIsUnique | adaptive_parser.go:148-175 | that description fixes the answer |
| AdaptiveParser.KeepsTheLatest | adaptive_parser.go:142-145 | however often it learns, a selector keeps the latest eight fingerprints |
| AdaptiveParser.AdaptiveParser.Register | adaptive_parser.go:82-95 | accepts exactly non-blank names with a compiling selector, trimmed, and starts without fingerprints |
| AdaptiveParser.AdaptiveParser.Learn | adaptive_parser.go:134-146 | adds one fingerprint to a registered selector, dropping the oldest of eight |
| AdaptiveParser.AdaptiveParser.Select | adaptive_parser.go:97-132 | errors, match, healed match or nothing as specified, and the selector as it is left |
| AdaptiveParser.AnswerIsUnique | adaptive_parser.go:97-132 | a selector and a document have one answer |
| AdaptiveParser.HealsIffRecognizable | adaptive_parser.go:117-131 | where the stored selector matches nothing, an element is found exactly when some element agrees with a fingerprint on two of tag, id and class |
| AdaptiveParser.HealedIsFoundAgain | adaptive_parser.go:123-131 | a healed selector finds an element in the same document again, unless its new CSS does not compile |
| AdaptiveParser.NeverMissedAgain | adaptive_parser.go:112-131 | over any number of Selects on one document: once an element was found none comes back empty, unless the healed selector does not compile |
| AdaptiveParser.BadSelectorIsStuck | adaptive_parser.go:108-111 | a selector that does not compile always fails and is never changed by Select |

## Left out

- HTTP, TLS, proxies as transports, cookies, header profiles and browser control: replies are given by the script or by oracle functions.
- Challenge solvers and provider adapters: a solver answers or does not, a provider returns results or an error that is fixed beforehand.
- Session warm-up (client.go:291-300) and session invalidation: these requests do not go through the retry loop and are not counted.
- JSON, HTML and regular-expression parsing, CSS compilation and matching, `cssCandidate` and SHA-1: functions given from outside, or equality of fingerprint fields.
- Files: the checkpoint is the list of seen strings it holds; the JSONL writer, the rename and the parser's Save and Load are not modelled.
- The content of results other than links and metadata, and the parsing of URLs: a fetch returns any links that the oracle for `normalizeURLs` admits, and host lists are given lower-cased.
- How long a fetch waits for its host is not part of a step of the crawl: `DomainPacing` is about the clock alone.
- Two Runs of one spider at the same time, and a pause that never ends: progress is proved for unpaused runs.
- `waitIfPaused` is one phase of a worker: a worker in it may leave on cancellation whether or not it saw the pause, which only adds runs.
- Scheduling policy: a schedule picks the next step as a function of the state; no state repeats, since every step of the crawl makes progress.
- Several concurrent callers of one search client: the protocol theorems are for a single caller, so its mutexes do not appear.
- Endless scripts: an execution of the client is a finite list of attempts, after which the context counts as cancelled at the next rate-limit wait.
- `SearchPages`, TimeRange, Region and the other request parameters: they do not influence the protocol.
- Integer overflow of durations, of `1<<attempt` and of counters.
- ClientObject.Client.ApplySolution: the solver's cookies and the pinned transport pool are not part of the client's state; `UserAgents.SingleAlwaysPicks` is about that pool.
- ClientObject.Client.NoteSuccess: notifying the rate limiter and the proxy pool is left to the modules about them.
- ClientObject.Client.NoteBlock: so it is here, and sessions are not modelled.
- ClientObject.Client.Find: the warm-up before the search and the text of a combined error are not modelled.
- ClientObject.Client.constructor: building the HTTP client, base addresses, headers, and the default block codes and patterns are not modelled; the latter are given with the configuration.
- RateLimiter.AdaptiveRateLimiter.Wait: the Gaussian draw is arbitrary before it is clamped; only its bounds are used.
- RateLimiter.AdaptiveRateLimiter.OnSuccess: the factor 0.85 is a real number, and the truncation to nanoseconds is its floor.
- ProxyPool.Pool.Next: fairness of the random and round-robin strategies is not stated, since the list of available entries changes between calls.
- UserAgents.UserAgentPool.constructor: the built-in list is a parameter with non-negative weights and a positive sum.
- Engine.Engine.Search: hooks are one trace; nil providers, which NewEngine removes, and timing values do not appear, only which providers were timed.
- AdaptiveParser.ScoreFingerprint: the weights are hundredths (35, 35, 20, 10 against 55); 0.35 + 0.2 rounds to the same double as 0.55, so the threshold agrees.
- AccessGuard.MinuteBound: clock readings more than a minute late are not covered.
- AccessGuard.StealthAccessGuard.Allow: the limit read from the environment is a parameter, the same for all calls in the bounds.
