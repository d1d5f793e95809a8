# Verified model of the search client's resilience machinery

This project models the parts of the search client that decide whether, when and how a request is sent, and
proves what they promise:

- the **retry loop** with its circuit breaker, rate limits, block handling, challenge solvers, token cache and
  backoff, and the token fetch nested inside it (`RetryLoop`, `SearchClient`, `RetrySafety`, `Guarantees`,
  `SharedTokens`, `Budgets`, `LoopResults`, `Endings`, `Livelocks`, `Termination`, `SearchResults`, `Paging`; `Scripts`
  builds environments);
- the **circuit breaker** as a timed automaton (`Breaker`), the **adaptive rate limiter** as a slot protocol
  (`RateLimiter`), the **proxy pool** and weighted choice (`Proxies`, `WeightedChoice`), the **solver chain**
  (`ChallengeSolver`), **error classification** (`Errors`) and the 64-bit **backoff** (`Backoff`);
- the **failover engine**, its event trace, its hooks and the metrics collected from them (`Engine`,
  `EngineTraces`, `Metrics`).

How it is built. The objects of the program that change in place are classes here (`CircuitBreaker`,
`AdaptiveRateLimiter`, `ProxyPool`, `UserAgentPool`, `Client`, `Engine`, `PrometheusCollector`), and each method
states the whole new state. The client is proved against a reference machine, `RetryLoop`, which computes what a
call does to a `World` value; the lemmas about runs are about that machine. The network, the solvers, the clock,
random draws and cancellations are an arbitrary environment: a script with one `Round` per loop iteration. A
script may be of any length; a call whose script ends is `Unfinished`, so a safety theorem holds at every moment,
also of runs that never end. Breaker and limiter run under a mutex, so any interleaving of any number of callers is
one sequence of their operations; the claims about them are about all such sequences. The claims about the pool
are about sequences of its operations, those about the client are for one caller at a time.

Time is an integer number of nanoseconds since Go's zero time; the zero time means "never". The proof files use
`hide` to keep each obligation small.

## What turned out otherwise than documented

Where code and comments disagree, the model follows the code.

- antibot.go:105-107 says that the breaker resets on the first success after the cooldown. Any success resets it,
  and the count survives the cooldown (`Breaker.OneBlockReopens`).
- antibot.go:63-65 says that a block clears the token of the affected query. It clears all tokens
  (`SearchClient.Client.ClearAllVqd`).
- timing.go:53 says that a block increases the delay. With a base above the ceiling it decreases it
  (`RateLimiter.BlockNeverSpeedsUp` has the exact condition).
- A page size above thirty makes `SearchPages` stop after one page (`Paging.PagingIsSlicing` has the exact
  condition).
- With solvers the retry loop need not end, although a breaker is configured (`Livelocks`). For tokens and HTML
  pages it then always ends exactly when there is a breaker and solving takes less than its cooldown
  (`Termination.LatencyDecides`); for d.js exactly when, besides, a single block opens the breaker
  (`Termination.ThresholdDecides`), because every token fetch that succeeds restarts the count. Retries have to
  fetch not only when blocks throw tokens away, but also when solutions change the user-agent, which is part of the
  cache key.
- `ChainSolver` can say that no solver is registered when one is (`ChallengeSolver.MissingSolverMisreported`).
- `FallbackUsed` can be set although no other provider was tried (`EngineTraces.FallbackFlagMisleads`).
- A client with a proxy pool sends without any proxy while all proxies are in cooldown
  (`Guarantees.ProxyOfEachRequest`).
- A query can be sent with another query's token, exactly when one of them followed by `|` begins the other followed
  by `|` (`SharedTokens.OverlapDecides`).

## Model

| member | source | states |
|---|---|---|
| `Breaker.CircuitBreaker.constructor` | antibot.go:123-131 | A new breaker is closed, with an empty history, and non-positive settings are replaced by 5 and 60 s |
| `Breaker.CircuitBreaker.IsOpen` | antibot.go:134-138 | True exactly when the history ends with at least `threshold` blocks and the clock is before the last one plus the cooldown |
| `Breaker.CircuitBreaker.RecordBlock` | antibot.go:142-159 | Extends the history by one block; reports `opened` exactly when the threshold is reached and the breaker was not open at the first clock reading; the deadline comes from the second reading |
| `Breaker.CircuitBreaker.RecordSuccess` | antibot.go:162-175 | Extends the history by one success, restarts the count, and reports `closed` exactly when the history had the breaker open |
| `Breaker.CircuitBreaker.Read` | antibot.go:178-187 | The snapshot shows the length of the trailing run of blocks and the deadline |
| `Breaker.RefinesHistory` | antibot.go:134-175 | For every history of any callers, the two fields say exactly what the history says: count = trailing run of blocks, open = run long enough and still fresh |
| `Breaker.TrippedRunWasReported` | antibot.go:145-151 | A run of blocks that reached the threshold contains the block that reported the opening |
| `Breaker.ClosingFollowsOpening` | antibot.go:142-175 | Each `closed` report is preceded by an `opened` report since the previous `closed` report |
| `Breaker.CooldownIsHeld` | antibot.go:145-151 | Between reports, an opened breaker keeps the deadline of its opening or the clock has passed it |
| `Breaker.OpeningsAreSpaced` | antibot.go:145-151 | Two `opened` reports with no `closed` report between them are at least one cooldown apart |
| `Breaker.OneBlockReopens` | antibot.go:145-151 | The count survives the cooldown: one further block re-opens the breaker at once, for every threshold, although the comment at antibot.go:105-107 promises a reset after the cooldown |
| `RateLimiter.AdaptiveRateLimiter.constructor` | timing.go:70-79 | A new limiter starts at the base delay and has reserved nothing |
| `RateLimiter.AdaptiveRateLimiter.Wait` | timing.go:83-111 | Reserves the later of now and the last slot plus the clamped draw around the present delay; the first caller never waits; the wait is exactly the distance to the slot |
| `RateLimiter.AdaptiveRateLimiter.OnBlock` | timing.go:114-118 | The new delay is the doubled one, clamped; the slots stay |
| `RateLimiter.AdaptiveRateLimiter.OnSuccess` | timing.go:121-129 | The new delay is 0.85 of the old, not below base; the slots stay |
| `RateLimiter.DelayStaysNear` | timing.go:114-129 | In every run the delay lies between base and ceiling, in whichever order they are configured |
| `RateLimiter.NextSlot` | timing.go:83-97 | After any run with a slot, a draw x (the present delay plus z standard deviations of a quarter of it, rounded toward zero) reserves exactly max(now, last + x); below base/2 or above 2*max that end counts |
| `RateLimiter.MeanDrawWaitsForTheDelay` | timing.go:83-97 | With base <= max the mean draw waits exactly for the present delay, in every run |
| `RateLimiter.OutcomesMoveTheWait` | timing.go:83-129 | With base <= max, a block never shortens the next wait and a success never lengthens it, for every draw at most one deviation low |
| `RateLimiter.BlockNeverSpeedsUp` | timing.go:114-118 | A block never makes the client faster, in any run, if and only if base <= max; the configuration (antibot.go:221-229) accepts the other case too |
| `RateLimiter.BlocksDouble` | timing.go:114-118 | With base <= max, k blocks from base give exactly min(base * 2^k, max) |
| `RateLimiter.SuccessesRelax` | timing.go:121-129 | n successes in a run apply the shrinking n times |
| `RateLimiter.RelaxedBound` | timing.go:121-129 | n successes give at most max(base, 0.85^n * current) |
| `RateLimiter.RelaxReachesBase` | timing.go:121-129 | n successes give exactly base as soon as 0.85^n * current < base + 1 |
| `RateLimiter.SuccessesReachBase` | timing.go:121-129 | From every delay, enough successes reach base, and more stay there |
| `RateLimiter.FiveSuccessesRepayABlock` | timing.go:114-129 | One block followed by five successes leaves the delay at most where it started, after every run, if and only if base <= max |
| `RateLimiter.FourSuccessesDoNot` | timing.go:114-129 | Four successes are not enough: after the first block of a new limiter the delay ends higher |
| `RateLimiter.SlotsAreSpaced` | timing.go:87-97 | Under any interleaving, reserved slots keep their distance, and the last one is the limiter's field |
| `RateLimiter.HalfBaseIsKept` | timing.go:87-97 | That distance is at least base/2 in every run if and only if base/2 <= 2*max |
| `RateLimiter.RateBound` | timing.go:87-97 | A window of length L holds at most floor(L / gap) + 1 slots, under any interleaving |
| `RateLimiter.QueueIsShort` | timing.go:87-97 | The last slot is at most max(base/2, 2*max), the longest delay there is, per pending slot away |
| `RateLimiter.WaitIsBounded` | timing.go:87-111 | A caller with q slots still ahead of it waits at most (q+1) * max(base/2, 2*max) |
| `WeightedChoice.Choose` | ua.go:72-81 | The loop returns the entry into whose interval the draw falls, with non-negative or negative weights alike; the return after the loop is unreachable |
| `WeightedChoice.FallsInInterval` | ua.go:73-79 | With non-negative weights, a draw falls on entry j exactly when it lies between the sums before and after it |
| `WeightedChoice.ChoiceIsExact` | ua.go:72-81 | Over all draws below the total, entry j is returned for exactly weight_j of them; entries of weight zero never |
| `WeightedChoice.UserAgentPool.constructor` | ua.go:26-33 | The total of a new pool is the sum of its weights |
| `WeightedChoice.UserAgentPool.Single` | ua.go:133-138 | The pool pinned by a solution has one entry of weight one |
| `WeightedChoice.UserAgentPool.Pick` | ua.go:72-81 | Returns the entry on which the draw falls; a pool pinned to one user-agent always returns it |
| `Proxies.NewProxyPool` | proxypool.go:57-72 | Fails with an address exactly when one does not parse; otherwise one untried entry of weight 1 per address, in order, and the total equals their number |
| `Proxies.ProxyEntry.constructor` | proxypool.go:67-68 | A new entry is untried and has weight 1 |
| `Proxies.ProxyPool.constructor` | proxypool.go:58-62 | Defaults: 60 s cooldown after 3 failures, rotation at 0 |
| `Proxies.ProxyPool.SetCooldown` | proxypool.go:75-80 | Replaces the two settings and nothing else |
| `Proxies.ProxyPool.SetWeight` | proxypool.go:83-93 | Only the first entry with the address changes; the total stays the sum of the weights; an unknown address changes nothing |
| `Proxies.Available` | proxypool.go:118-129 | Exactly the positions not in cooldown, in order |
| `Proxies.ProxyPool.AvailableEntries` | proxypool.go:118-129 | The loop returns the entries at those positions |
| `Proxies.PickFrom` | proxypool.go:97-129 | A pick is always an available proxy; unless a weighted rotation has negative weights, no pick means that every proxy is in cooldown |
| `Proxies.CooldownByHistory` | proxypool.go:118-171 | For every history of outcomes, a proxy is refused exactly when they end with at least maxFails failures and the last one is no older than the cooldown |
| `Proxies.RandomIsUniform` | proxypool.go:107-138 | Of the draws below the number of proxies, each proxy gets exactly one, in the random rotation and in a weighted one whose total is zero |
| `Proxies.WeightedIsExact` | proxypool.go:131-147 | Of the draws below the total, each proxy gets exactly as many as its weight |
| `Proxies.Choice` | proxypool.go:105-147 | A strategy fails to choose exactly when it draws by weights whose total is negative |
| `Proxies.ProxyPool.Next` | proxypool.go:97-115 | Nil exactly when nothing is available; otherwise the entry of the pure pick by strategy, rotation and draw; only a round robin that found an entry moves rrIndex; panics exactly on a negative weight total of the available entries |
| `Proxies.ProxyPool.ChooseAmong` | proxypool.go:105-114 | The three strategies choose what the pure choice says |
| `Proxies.ProxyPool.WeightedPick` | proxypool.go:131-147 | The weighted draw among the available entries; uniform when all weights are zero |
| `Proxies.ProxyPool.MarkSuccess` | proxypool.go:150-158 | Only this entry changes: one more request, no consecutive failures; a nil entry changes nothing |
| `Proxies.ProxyPool.MarkFailed` | proxypool.go:161-171 | Only this entry changes: one more request and failure, stamped now; a nil entry changes nothing |
| `Proxies.ProxyPool.Stats` | proxypool.go:174-190 | A true snapshot with consecutiveFails <= failures <= requests; all are InCooldown exactly when nothing is available for Next at that instant |
| `Proxies.NegativeTotal` | proxypool.go:83-93 | A weighted draw panics only after some weight was set negative |
| `Proxies.RoundRobinIsFair` | proxypool.go:110-113 | While the same m entries stay available, whatever outcomes are marked between the calls, k calls return each floor(k/m) or ceil(k/m) times, from any starting rrIndex |
| `ChallengeSolver.Supports` | solver.go:45-52 | True exactly when some solver supports the signal |
| `ChallengeSolver.Solve` | solver.go:54-70 | Returns the first supporting success; solves exactly when there is one |
| `ChallengeSolver.FirstWinner` | solver.go:56-63 | The first solver that supports the signal and returns a solution without error |
| `ChallengeSolver.LastSupporting` | solver.go:56-65 | The last solver that took part, whose error is the one kept |
| `ChallengeSolver.MissingSolverMisreported` | solver.go:64-69 | "No solver registered" is reported although one is, exactly when nobody wins and the last one that took part returned neither solution nor error |
| `Errors.AsSearchIsFirst` | errors_api.go:52-53 | The structured error used is the first of the chain |
| `Errors.ClassifyAgainIsIdentity` | errors_api.go:52-58 | Classifying again changes nothing, for every second provider, if and only if the first classification had a provider name to record |
| `Errors.InPlaceAgrees` | errors_api.go:54-57 | The provider filled in in place is the same in the error returned and in the error the caller kept |
| `Errors.WrappingKeepsKind` | client.go:317-321 | Wrapping an error does not change its class, so after a failed HTML fallback the kind depends on the fallback error alone |
| `Errors.KindByPrecedence` | errors_api.go:59-73 | The order of precedence among unstructured errors: blocked, no results, parse, unavailable |
| `Errors.StructuredIsKept` | errors_api.go:52-58 | A chain with a structured error gives the first one, unchanged but for a missing provider |
| `Errors.ClassifiedAnew` | errors_api.go:59-73 | Any other error becomes the cause; it is temporary exactly when the kind is not no_results; the detector is that of the first block report of the chain |
| `Errors.OpenBreakerIsUnavailable` | errors_api.go:73 | An open breaker surfaces as provider_unavailable, however often wrapped |
| `Backoff.DelayBound` | client.go:710-716 | No delay exceeds (1 + jitter) * baseDelay * 2^attempt, even when the shift or the conversion overflows |
| `Backoff.ShiftIsExact` | client.go:711 | The shifted base is exact if and only if it is below 2^63 |
| `Backoff.ShiftWraps` | client.go:711 | Otherwise it differs from the exact one by a multiple of 2^64 |
| `Backoff.TooLong` | client.go:713-716 | When the product does not fit, a processor that saturates sleeps the longest time, any other not at all |
| `Backoff.DelaysFit` | client.go:711-713 | No delay of a run wraps or overflows when the longest one with full jitter is below 2^63 |
| `Backoff.FactorBound` | client.go:712 | The jitter factor lies between 1 - jitter and 1 + jitter; it is 1 for the middle draw and 1 - jitter for the lowest |
| `Backoff.DelayRange` | client.go:710-716 | As long as the longest pause fits in 64 bits: (1 - jitter) * base * 2^attempt - 1 < delay <= (1 + jitter) * base * 2^attempt |
| `RetryLoop.Challenge` | client.go:606-617 | An attempt is refunded exactly when solvers are configured and one of them succeeds; only then may the user-agent change |
| `SearchClient.Client.constructor` | antibot.go:203-262 | A client built from any options equals a fresh world with the enabled subsystems, and is safe |
| `SearchClient.Client.CheckBreaker` | client.go:473-487 | Does what `Gate` says, on the breaker object |
| `SearchClient.Client.Pace` | client.go:490-498 | Does what `Pace` says, on the limiter object; the limiter takes priority over the fixed gap |
| `SearchClient.Client.WaitForTurn` | client.go:684-708 | The fixed gap between turns; a cancelled wait takes no turn |
| `SearchClient.Client.PickProxy` | transport.go:118-136 | The pool's next proxy, or none, is the one remembered for the outcome of the exchange; with weights that are not negative the pool never panics |
| `SearchClient.Client.Do` | transport.go:139-141 | A proxy is picked before the request goes out |
| `SearchClient.Client.RecordClean` | client.go:543-563 | Limiter, breaker and pool each hear of a clean response once, and callbacks as reported |
| `SearchClient.Client.RecordBlocked` | client.go:575-604 | Callback, limiter, breaker and pool each hear of a block once; tokens and session are dropped as configured |
| `SearchClient.Client.Forget` | client.go:599-604 | Token cache and session are dropped exactly as configured |
| `SearchClient.Client.ClearAllVqd` | client.go:666-670 | The whole token cache is emptied, not only the affected query's token as antibot.go:63-65 says |
| `SearchClient.Client.ApplySolution` | client.go:632-663 | A solution's user-agent, when it has one, becomes the client's |
| `SearchClient.Client.SolveChallenge` | client.go:609-615 | Solved exactly when the first supporting solver succeeds |
| `SearchClient.Client.SleepBackoff` | client.go:710-725 | The backoff of attempt i, unless not positive |
| `SearchClient.Client.Exchange` | client.go:505-571 | Sends one request and classifies its reply, with the Retry-After pause |
| `SearchClient.Client.DoWithRetry` | client.go:469-628 | The imperative loop, with its refunds and its nested fetch, does exactly what the reference machine does, for every kind of request |
| `SearchClient.Client.BuildRequest` | client.go:364-386 | Only a d.js request fetches a token, afresh on every attempt |
| `SearchClient.Client.GetVqd` | client.go:433-467 | A cached token is used only while fresh; a new one is stored under the key and the clock reading from before its fetch |
| `SearchClient.Client.SearchDjs` | client.go:360-399 | The d.js search of the reference machine |
| `SearchClient.Client.SearchHtml` | client.go:401-431 | The HTML search of the reference machine |
| `SearchClient.Client.Warmup` | session.go:78-101 | Two homepage requests unless the session is fresh; the first must be answered |
| `SearchClient.Client.Search` | client.go:277-331 | The search of the reference machine; it keeps the client safe |
| `SearchClient.Client.SearchPages` | client.go:333-358 | The page loop of the reference machine; it keeps the client safe |
| `SearchClient.CallbackFirst` | client.go:576-604 | Calling the block callback before the subsystems makes no difference to them |
| `RetrySafety.LoopSafe` | client.go:469-628 | Every retry loop, with solver refunds and nested fetches, keeps all invariants: subsystems are folds of the trace, clock readings are in order, cached tokens are backed, requests went out lawfully |
| `RetrySafety.FetchSafe` | client.go:433-467 | A token fetch keeps the invariants, and its token was stored or found by the very last event |
| `RetrySafety.SearchSafe` | client.go:277-331 | A search keeps the invariants |
| `RetrySafety.InitialSafe` | client.go:254-274 | A new client satisfies them |
| `RetrySafety.RanSafe` | client.go:277-628 | So every run of a new client does, at every moment |
| `RetrySafety.RewardMoves` | client.go:543-563 | A clean response moves every subsystem by exactly one step |
| `RetrySafety.PunishMoves` | client.go:575-604 | A handled block moves every subsystem by exactly one step |
| `Guarantees.NoRequestWhileOpen` | client.go:471-508 | In every run, no token, d.js or HTML request goes out while the breaker is open by its history |
| `Guarantees.RefusedWhileOpen` | client.go:473-487 | Conversely, an iteration is refused only while the breaker is open by the history: exactly then |
| `Guarantees.TokenIsFresh` | client.go:360-467 | In every run, each d.js request carries a token issued to a clean token response, and it is the token of that response's body; the response was for the same query or one that overlaps with it, and always for the same query when there are no solvers; with invalidation on no block was handled since; and if it came from the cache, before fetch start plus TTL, where the fetch started before its request went out |
| `Guarantees.KeysCollide` | client.go:434 | Two queries have the same cache key for some user-agents if and only if one of them, with the separator behind it, begins the other with the separator behind it (they overlap) |
| `Guarantees.SameAgentSameQuery` | client.go:434 | With one and the same user-agent, a key belongs to one query |
| `Guarantees.PlainQueriesDiffer` | client.go:434 | Queries without the separator overlap only with themselves |
| `SharedTokens.OverlapDecides` | client.go:433-467 | In some run of some client a d.js request for one query carries the token issued for another, if and only if the two overlap |
| `SharedTokens.TokenIsBorrowed` | client.go:433-467 | Such a run, for every overlapping pair: solved challenges change the user-agent, and with it the meaning of the cached key |
| `Guarantees.OneTraceDrivesAll` | client.go:505-618 | In every run, breaker, limiter, proxies and both callbacks are folds of one trace: each handled block and each clean response counts exactly once, nothing else counts. An outcome stands straight after its request and is charged to the proxy that carried it; it is a block only after a blocked reply and a success only after a clean one, so no other failure counts and no request has two. Conversely each clean reply is counted, and each blocked one too unless it asks for a pause |
| `Guarantees.CountersBalance` | proxypool.go:150-171 | A proxy's requests and failures grow by the requests that it carried and that had an outcome, or a block; consecutiveFails <= failures <= requests stays |
| `Guarantees.ProxyOfEachRequest` | transport.go:116-141 | In every run, each request, homepage requests included, goes through a proxy that is not in cooldown, and directly only when all are. Cooldown is said of the trace: the outcomes charged to the proxy end with at least maxFails blocks, the last no older than the cooldown |
| `Guarantees.LoopWhileOpen` | client.go:473-487 | A loop within an open period sends nothing and fails with the breaker's error |
| `Guarantees.SearchWhileOpen` | client.go:277-331 | A search within an open period sends nothing but warmup requests, and its error is provider_unavailable |
| `Guarantees.OptionsEnable` | antibot.go:203-263 | Which options enable which subsystem, and the defaults of 5 blocks, 60 s, 300 ms, 30 s and 20 min |
| `Guarantees.SessionDecides` | session.go:78-101 | A search sends homepage requests exactly when the session is not warm or older than its life; two make it warm as of then, a lost first one changes nothing |
| `Guarantees.BlocksForget` | client.go:599-604 | A handled block ends the session, and drops all tokens, exactly when configured; a clean response does neither |
| `RetrySafety.ReplyDecides` | client.go:509-571 | A reply is handled as a block exactly when status or body show one and its pause is not cut short; it is a success exactly when it is 2xx and shows none; the loop simply goes on exactly after a lost reply, or a 429 or 5xx that is no block |
| `RetrySafety.ReplyTells` | client.go:509-571 | The error of each reply, with its status, detector and attempt; a clean reply gives its own body; the Retry-After pause is exact |
| `Guarantees.TurnsKeepTheGap` | client.go:684-708 | In every run any two turns are at least the fixed gap apart, and the field is the time of the last one |
| `Guarantees.RequestsTakeTurns` | client.go:490-505 | With the fixed gap, each request goes out at least the gap after every turn before its own; the exception is a d.js request that had to fetch its token, which follows the clean reply to the token request straight away |
| `Guarantees.RequestsWaitForSlots` | client.go:490-505 | With the adaptive limiter, each request goes out no earlier than a slot of its own, which keeps the limiter's gap to every slot before; the exception is the same |
| `Guarantees.WaitsNoLonger` | client.go:684-708 | Nobody waits longer than to the slot or to the end of the gap, and nobody waits when that is past |
| `Guarantees.PausesAreExponential` | client.go:620-725 | In every run, each pause stands straight after a failed request of its kind, and its length is baseDelay * 2^exponent within the jitter, from below and from above |
| `Guarantees.RetryAfterIsHonoured` | client.go:526-531 | A block that asks for a pause is handled only after it and nothing is sent before; if cancelled, nobody hears of the block |
| `Budgets.LoopBudget` | client.go:471-627 | Without solvers a loop costs at most its attempts, a d.js attempt paying for a token fetch |
| `Budgets.SearchBudget` | client.go:277-467 | Without solvers one search costs at most retryMax * (retryMax + 2) requests |
| `Budgets.LoopKeepsCache` | client.go:469-628 | Without solvers, and while no block throws tokens away (invalidation off, or no block handled), token and HTML loops leave cache and user-agent alone |
| `Budgets.PrepareOnce` | client.go:433-467 | Then a token fetched within a call outlives it |
| `Budgets.DjsBudget` | client.go:360-467 | So a d.js loop pays for at most one fetch |
| `Budgets.WarmSearchBudget` | client.go:277-467 | And one search for at most 3 * retryMax requests, if until its d.js loop is done no token expires or is thrown away, whatever the HTML loop meets |
| `Endings.LoopClimbs` | client.go:620-625 | The exponents of a loop's own pauses strictly increase, from the attempt it starts at to below retryMax - 1, refunds and nested fetches included; loops other than d.js sleep for no other kind |
| `Endings.LoopRests` | client.go:620-625 | So these pauses add up to at most one of each exponent |
| `Endings.TotalBackoff` | client.go:620-725 | Total backoff of one loop is at most (1 + jitter) * baseDelay * (2^(retryMax-1) - 1) |
| `LoopResults.LoopAccounts` | client.go:469-628 | In whatever world, a loop that succeeds ends with a clean response to its own request and returns that body; one that fails with a reply's error ends with that reply; and if the error allows a retry, all attempts went out, with the least pauses between them |
| `LoopResults.UnbuiltIsUnsent` | client.go:500-503 | A request that cannot be built ends the loop and is not sent |
| `LoopResults.GivesUpLate` | client.go:469-725 | A loop that gives up has sent at least retryMax requests and taken at least (1 - jitter) * baseDelay * (2^(retryMax-1) - 1), rounded down once per pause |
| `Endings.LoopEnds` | client.go:471-627 | A loop whose request building leaves the breaker alone ends even with a solver that always succeeds, when less than the cooldown passes between a block and the next check: at most retryMax + max(1, threshold - consecutive) requests. Token and HTML loops are always like that, d.js loops while their token lasts |
| `Livelocks.SlowSolverNeverEnds` | client.go:609-615 | Without a breaker, or when solving and checking take as long as its cooldown, a loop sends n requests for every n, for every client with solvers |
| `Livelocks.SlowFetchNeverEnds` | client.go:365-368 | A d.js loop then never gets past its first token fetch |
| `Livelocks.NestedFetchNeverEnds` | client.go:365-368 | When every retry of a d.js loop has to fetch, because blocks throw tokens away or because each solution brings a new user-agent, each fetch restarts the block count, and a solved d.js loop sends 2n requests for every n, with any threshold above one |
| `Termination.LatencyDecides` | client.go:471-627 | Token and HTML loops always end within their bound if and only if there are no solvers, or there is a breaker and the latency between a block and the next check is below its cooldown |
| `Termination.ThresholdDecides` | client.go:360-627 | d.js loops always end within (retryMax + threshold) * (retryMax + 1) iterations if and only if there are no solvers, or there is a breaker, that latency is below its cooldown and a single block opens the breaker (or no reply is ever a success) |
| `Termination.LoopUses` | client.go:471-627 | Under that condition, how many iterations a loop uses up, nested fetches included |
| `SearchResults.SearchDelivers` | client.go:277-331 | In whatever world, a search that succeeds returns the first max (or 10) results of the response that is the last thing that happened, to its own d.js or HTML request |
| `SearchResults.DjsAnswers` | client.go:302-308 | A d.js page with results is the answer, and no HTML page is asked for |
| `SearchResults.FallbackAnswers` | client.go:310-330 | When d.js comes to nothing: its reason without a fallback; else the first max results of the HTML page, or the wrapped reason why it has none |
| `SearchResults.SearchSucceeds` | client.go:277-331 | A search succeeds if and only if one of its pages has results, the HTML page counting only with the fallback on; an empty query is refused before anything happens |
| `Paging.ServedSearch` | client.go:302-330 | A search whose replies come from a list, by d.js or by the HTML page, returns the slice asked for, or fails with no results |
| `Paging.PagesCollect` | client.go:341-356 | Against replies from a stable list and perPage <= 30, the early breaks lose nothing |
| `Paging.PagingIsSlicing` | client.go:333-358 | Paging returns the slices asked for if and only if perPage <= 30, or one page is asked for, or one page holds everything left |
| `Paging.StableServerExists` | client.go:333-358 | For every list and every request there is a run whose replies come from that list |
| `Paging.FullPagesAreContiguous` | client.go:344 | Full pages are one contiguous slice of the list |
| `Paging.PagesStop` | client.go:333-358 | In whatever world, paging stops at the first page that is not full, with the results so far; a failure there is the outcome of the whole unless its chain holds ErrNoResults |
| `Paging.PagingWhileOpen` | client.go:333-358 | Within an open period paging has no results and fails with the breaker's error |
| `Engine.Engine.New` | engine.go:20-34 | Nil providers are dropped in order; fails exactly when none is left |
| `Engine.Engine.Emit` | engine.go:110-116 | Every hook that is not nil hears the event, as often as it is registered |
| `Engine.Engine.Ask` | engine.go:54-92 | One turn of the loop emits its group of events and extends the diagnostics, for every answer |
| `Engine.Engine.Lose` | engine.go:79-92 | A failure is told as blocked (if it is), ended, and handed on (unless configured last) |
| `Engine.Engine.Walk` | engine.go:53-97 | The loop returns the first enabled provider with results, or one of two errors: exhausted, or none enabled |
| `Engine.Engine.Search` | engine.go:36-98 | A search tells every hook the whole trace and returns winner, diagnostics and error; a blank query tells nothing |
| `Engine.Winner` | engine.go:53-67 | The first provider that is enabled and returns results |
| `Engine.HeardOnce` | engine.go:110-116 | A hook registered once hears the trace itself |
| `EngineTraces.TraceIsBracketed` | engine.go:36-98 | For all providers and outcomes: one start, then exactly the enabled providers in their order, each start/[blocked]/end, a fallback exactly after each failure but one of the last configured, one finish; nothing but the finish follows a success |
| `EngineTraces.StartsAreTheChain` | engine.go:53-58 | The chain in the diagnostics is the providers that the trace says were asked, in that order |
| `EngineTraces.DiagCounts` | engine.go:52-93 | Attempts equal the chain length and the enabled providers walked; timings cover the chain; block information exactly when some error is a block |
| `EngineTraces.ErrorsMatchAttempts` | engine.go:52-97 | Errors number the attempts, or one less when there is a winner |
| `EngineTraces.ErrorOfEach` | engine.go:69-78 | The errors stand in the order of the losers asked; an empty answer counts as no_results, any other has its class and detector |
| `EngineTraces.TimingOfEach` | engine.go:60-63 | The timing under a name is the duration of the last provider of that name that was asked |
| `EngineTraces.EventsDescribe` | engine.go:65-92 | The events about a provider carry its duration, whether it won, and the kind of the error recorded of it |
| `EngineTraces.BlockInfoIsLast` | engine.go:79-87 | The block information is that of the last blocked error, with the detector or "blocked" |
| `EngineTraces.FallbackFlagMisleads` | engine.go:67 | The fallback flag is set on a first attempt exactly when all providers before the winner are disabled |
| `EngineTraces.AskedCounts` | engine.go:57-92 | The events of one provider count what the diagnostics record of it |
| `EngineTraces.EmittedCounts` | engine.go:36-98 | So do the events of one search |
| `EngineTraces.WinsOnce` | engine.go:65-68 | Only the winner counts as a success, once |
| `Metrics.PrometheusCollector.constructor` | observability_prometheus.go:17-32 | A new collector has counted nothing |
| `Metrics.PrometheusCollector.Hook` | observability_prometheus.go:34-56 | The counters stay the fold of the events received |
| `Metrics.CountersCount` | observability_prometheus.go:34-56 | Every counter is the number of its own events |
| `EngineTraces.MetricsBalance` | observability_prometheus.go:34-56 | After any searches, success plus error counters equal the occurrences in the chains, block counters the blocked errors, fallback counters the failures before the last position, kind by kind |
| `EngineTraces.SuccessesBalance` | observability_prometheus.go:36-41 | The success counters add up to the searches that returned no error |

## Left out

- SearchClient.Client.ApplySolution: cookies and tokens of a solution are not modelled, nor is the transport's user-agent pool that it pins; only the client's own user-agent is.
- Engine.Engine.Emit: hooks are metrics collectors; what another function does with the events it hears is not modelled, only which events it hears.
- SearchClient.Client.constructor: the pool may have been used before, but other users of the pool while the client works are not modelled; a pool with a weighted rotation has no negative weights, since a draw may then panic.
- Changes of the pool's cooldown and weights while a client uses it, and a caller's own HTTP client, which bypasses the pool.
- Redirects, which make one exchange pick several proxies: an exchange picks once.
- HTTP, TLS, cookies, decompression, header profiles and user-agent parsing: a response is a status, a Retry-After value, a flag for the block patterns and what the three parsers make of the body.
- The site-key and challenge-type patterns, the block-signal table, and the solver clients for outside services.
- The providers behind the engine: each is any answer.
- Floating point: 0.85 is 17/20 rounded down, the backoff product is exact over the reals before it is truncated, and the conversion of a value out of range either saturates or gives the least integer, by a flag of the configuration.
- The distribution of the random draws and the quality of their source: the standard normal draw is any real, others are any number.
- Wrap-around of counters, of `rrIndex`, of the Retry-After product and of time arithmetic; only the backoff is modelled in 64 bits.
- Concurrent use of one client, including unlocked fields; a call made by the block callback back into the client.
- Pool operations that overlap: `MarkSuccess` and `MarkFailed` lock one entry and `Next` and `Stats` read entry by entry, so they need not be one step each across entries; here they are, with one clock reading.
- The stopping of a wait by the context is one flag per wait; a context that is already cancelled when a request is sent shows as a failed exchange.
- Trimming of the query, the region default, and the defaults of `NewClient`, which appear as the types of `Config`.
- Durations in the metrics, the gauges of `SetProviderEnabled` and `ObserveCircuitEvent`, and the label for an error without a kind.
- Messages of errors and of provider errors, and details other than the detector.
- Command line, daemon, HTTP service and environment parsing.
