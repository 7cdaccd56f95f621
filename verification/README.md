# L7-Proxy: a verified model of admission, retries and selection

The proxy admits a request through a per-IP token bucket, routes it by longest prefix, picks a first upstream with
one of four balancers, and then tries upstreams in turn, steered by passive health tracking and a retry budget that
all requests share. This project models that machinery in Dafny and proves what it guarantees: to one client, to one
request, and to the whole system over every interleaving.

Modules follow the source files; the theorems about a component sit beside it.

- `RateLimiter` (the bucket and limiter objects), `TokenBucketHistory` (what one bucket means), `Eviction` and
  `EvictionVisible` (whole runs of the shared limiter).
- `RetryBudget` (the budget object), `RetryBudgetHistory` (pruning and amplification), `RetryBudgetPromise` (when the
  percentage is kept, counting every retry that is let through).
- `Health` (the tracker object and the history it stands for).
- `RoundRobin`, `LeastConnections`, `ConsistentHash` (the balancer objects and their guarantees).
- `LeastConnectionsLoad` (runs of requests over least connections, with retries, skips and drops, and what every run
  keeps), `LeastConnectionsPeak` (the exact peak), `LeastConnectionsSlow` (choices whose reads are interrupted).
- `Router`, `Backoff` (route choice and path rewriting; retry delays on machine words).
- `ProxyLoop` (the retry loop of `proxy_request` as a method over the shared objects, against a specification
  function), `RetryLoop` (what it guarantees to one request), `RetryAnswers` (the same told by what the upstreams
  answered, in statuses and seconds).
- `ProxySystem` (the whole proxy as a state machine: many requests, reloads, active health checks, cancellation),
  `SystemInvariants` and `SystemTheorems` (what holds in every reachable state), `Witnesses` (states
  that show how far it can go), `LoopRefinement` (the method is a run of the machine).
- `Prelude`, `Division` (helpers).

Conventions. Every clock reading is a parameter, one for each `Instant::now()`, on a clock that never goes back;
seconds and token amounts are real numbers in place of `f64`. A step of a run is one section under a mutex, one
atomic operation or one wait that ends; memory is sequentially consistent. Upstream answers, the jitter and the hash
function are parameters. Machine words wrap where the source's would (`WORD` is 2^64).

Where a natural claim is false of the code, the exact condition is proved instead:

- Eviction of idle buckets cannot be noticed exactly when `burst <= 300 * rate` (`EvictionInvisibleIff`); otherwise
  one client gains at most one burst per five minutes (`EvictionCost`).
- The repository's own README promises retries as a percentage of the requests in a sliding window (lines 150 and 390).
  The code rounds up in every window and lets a retry through uncounted when its window holds no request. Over runs in
  which every retry has a request in its window, the window of each retry let through keeps the percentage exactly for
  whole multiples of one hundred, and for negative percentages, which grant nothing (`WindowKeptAtGrantsIff`); the
  window at every instant only for 0 percent, because a request leaves the window before the retry it paid for
  (`WindowKeptAlwaysIff`). The totals of a run keep it exactly for whole multiples of one hundred
  (`PercentageKeptIff`), and over all runs for no percentage (`PercentageNeverKept`). What always holds of the counted
  retries is `WindowPaidFor` at every instant, and `RetriesWithinFactor` and `RetriesWithinShare` in total.
- A retry is granted without being counted, even with a budget of 0 percent, exactly when no request arrived within
  the last window (`UnrecordedIff`). `AmplificationBounded` counts those retries separately as `unrecorded`, and
  `NoFactorBounds` shows that a single request can have as many of them as its pool and cap allow.
- Round robin is even across the wrap of its counter exactly for pool sizes that divide 2^64 (`RoundRobinEvenIff`);
  weighted round robin deals out whole turns exactly, from every counter position, when and only when the total weight
  divides 2^64 or a single upstream has all of it (`ExactSharesIff`).
- The retry delay is exact exactly while it stays within two thirds of the largest word and 64 retries
  (`NeverOverflowsIff`).
- When nobody interferes, a request makes an attempt exactly when its pool is not empty and `max_retries + 1` does not
  wrap to zero (`TriesSomething`). Under interference an answered request made none exactly when its cap is zero or it
  skipped its whole pool (`NoAttemptIff`), which can happen although its scan found an upstream (`ScanCanMislead`).
- Least connections chooses in one step and starts in another, and a request that retries or skips starts on a later
  position without asking the balancer again. With at most K > 0 requests open, r > 0 of them between the start of their
  choice and their own start, m under way on positions they did not choose and d dropped in flight, the highest count
  that uninterrupted choices lead to is exactly (K - q + d) / n + q for m = 0 and min(K, (K - q) / n + q + m) + d
  otherwise, q being the smaller of K and r (`StaysBelowIff`). Only for r = 1 and m = d = 0 is that always the
  rounded-up share of K, and then also when choices are interrupted (`PeakIsFair`); `FairShareIff` says exactly when
  runs without drops keep the share: never with a retry, if there are two upstreams and two requests. Choices whose
  reads are interrupted can exceed the peak (`SlowChoiceBreaksPeak`).
- Stripping the prefix succeeds except for a request without a path, such as "http://host?q", on a route with prefix "/",
  whose query is then forwarded by itself (`StrippingFailsIff`).
- A growing hash ring moves keys only to its new upstream exactly when no two of the others share a hash
  (`MinimalDisruptionIff`).

## Model

| member | source | states |
|---|---|---|
| `RateLimiter.TokenBucket.constructor` | src/rate_limiter.rs:15-22 | A new bucket is full at its creation. |
| `RateLimiter.TokenBucket.TryAcquire` | src/rate_limiter.rs:24-32 | Refills in place, then spends one token if there is a whole one and says so. |
| `RateLimiter.TokenBucket.Refill` | src/rate_limiter.rs:34-39 | Adds elapsed time times rate, capped at the burst, and moves the refill time. |
| `RateLimiter.RateLimiter.constructor` | src/rate_limiter.rs:51-59 | Starts enabled, with no buckets and the counter at zero. |
| `RateLimiter.RateLimiter.Disabled` | src/rate_limiter.rs:61-69 | Starts disabled. |
| `RateLimiter.RateLimiter.Cleanup` | src/rate_limiter.rs:89-93 | Keeps exactly the buckets refilled within the last 300 seconds, untouched. |
| `RateLimiter.RateLimiter.AcquireFor` | src/rate_limiter.rs:82-86 | Under the lock: the client's bucket, inserted full if missing, is tried; no other bucket changes and no two clients share one. |
| `RateLimiter.RateLimiter.Check` | src/rate_limiter.rs:71-87 | Disabled: always true, nothing changes. Enabled: every 1000th count sweeps first, then the bucket decides. |
| `TokenBucketHistory.GrantedIff` | src/rate_limiter.rs:24-39 | Closed form: check k passes iff, from every check j up to k, the grants and this one stay within the burst plus the rate times the time since j. |
| `TokenBucketHistory.GrantsBounded` | src/rate_limiter.rs:24-39 | Any stretch of checks passes at most the burst plus rate times its length. |
| `TokenBucketHistory.TokensInRange` | src/rate_limiter.rs:24-39 | Tokens stay between zero and the burst. |
| `Eviction.EvictionInvisible` | src/rate_limiter.rs:71-93 | If burst <= 300 x rate, every interleaved run over any clients and sweeps answers as one private, never evicted bucket per client would. |
| `Eviction.EvictionCost` | src/rate_limiter.rs:71-93 | For any limits, one client's grants over a span T are at most (1 + floor(T/300)) bursts plus rate x T. |
| `EvictionVisible.CallStep` | src/rate_limiter.rs:71-87 | Uninterrupted calls are runs of sweeps and acquisitions at the 1000-call cadence. |
| `EvictionVisible.LimiterGrantsTwice` | src/rate_limiter.rs:71-93 | A client that spends its burst, idles five minutes and returns at a sweep is granted the whole burst again. |
| `EvictionVisible.FirstThousandInvisible` | src/rate_limiter.rs:76-80 | For every burst, an ordered run of at most 1000 calls on a fresh limiter answers as private, never evicted buckets. |
| `EvictionVisible.EvictionInvisibleIff` | src/rate_limiter.rs:71-93 | Sequential callers cannot notice eviction if and only if burst <= 300 x rate. |
| `RetryBudget.RetryBudget.constructor` | src/retry_budget.rs:18-27 | Starts with empty lists. |
| `RetryBudget.RetryBudget.RecordRequest` | src/retry_budget.rs:30-33 | Appends one reading to the requests. |
| `RetryBudget.RetryBudget.AllowRetry` | src/retry_budget.rs:36-55 | Prunes both lists to the window; grants without a record when no request is left, grants with a record below the quota, refuses otherwise. |
| `RetryBudgetHistory.SameVerdict` | src/retry_budget.rs:36-55 | Every retry is judged as by a budget that never forgets anything. |
| `RetryBudgetHistory.PrunedIsWindow` | src/retry_budget.rs:38-41 | After each retry decision the two lists are the full logs cut to the current window. |
| `RetryBudgetHistory.GrantWithinQuota` | src/retry_budget.rs:48-51 | A recorded grant leaves at most ceil(percent x requests / 100) retries in its window. |
| `RetryBudgetHistory.WindowPaidFor` | src/retry_budget.rs:36-55 | At every instant the counted retries in the window are within ceil(percent x requests / 100) of the window of some earlier grant. |
| `RetryBudgetHistory.UnrecordedIff` | src/retry_budget.rs:43-46 | A retry is granted uncounted iff every earlier request is at least a window old. |
| `RetryBudgetHistory.RefusedIff` | src/retry_budget.rs:36-55 | A retry is refused iff its window holds a request and the counted retries in it are at least percent x its requests / 100. |
| `RetryBudgetHistory.RetriesWithinFactor` | src/retry_budget.rs:36-55 | Over every run, recorded retries are at most ceil(percent/100) times the requests. |
| `RetryBudgetHistory.RetriesWithinShare` | src/retry_budget.rs:36-55 | Over every run, recorded retries are at most percent/100 of the requests, plus 1, plus the windows between first and last grant. |
| `RetryBudgetPromise.WindowKeptAtGrantsIff` | src/retry_budget.rs:36-55 | Over the runs in which every retry has a request inside its window: at each retry let through, the retries in the window are within the configured percentage of its requests iff the percentage is a whole multiple of 100, or negative. |
| `RetryBudgetPromise.WindowKeptAlwaysIff` | src/retry_budget.rs:36-55 | Over the same runs, the window keeps the percentage at every instant iff it is 0. |
| `RetryBudgetPromise.PercentageKeptIff` | src/retry_budget.rs:36-55 | Over the same runs, the totals since the start keep the percentage iff it is a whole multiple of 100. |
| `RetryBudgetPromise.PercentageNeverKept` | src/retry_budget.rs:43-46 | Without that restriction, for every percentage the totals of some run exceed it: one request, then retries once it has left the window. |
| `Health.HealthTracker.RecordFailure` | src/health.rs:25-38 | Counts a failure, caps at the threshold, and marks or re-marks from the threshold on. |
| `Health.HealthTracker.RecordSuccess` | src/health.rs:40-46 | Clears a known upstream, leaves an unknown one unknown. |
| `Health.HealthTracker.IsHealthy` | src/health.rs:48-68 | Answers, and wipes an expired mark. |
| `Health.LedgerIsHistory` | src/health.rs:25-68 | An upstream has an entry iff it ever failed: its failure streak since the last reset capped at the threshold, marked iff the streak reached it, at the latest failure. |
| `Health.UnhealthyIff` | src/health.rs:48-68 | An upstream is refused iff it failed too often since its last reset and its latest failure is younger than the cooldown. |
| `RoundRobin.RoundRobin.NextIndex` | src/balancer.rs:39-42 | Returns the pick for the current count and steps the wrapping counter. |
| `RoundRobin.WeightedRoundRobin.constructor` | src/balancer.rs:95-106 | The nested loops build the schedule that repeats each index by its weight. |
| `RoundRobin.WeightedRoundRobin.NextIndex` | src/balancer.rs:110-113 | Returns the scheduled entry for the current count and steps the wrapping counter. |
| `RoundRobin.ExpandShares` | src/balancer.rs:95-106 | The schedule has as many entries as the weights sum to, and upstream i occurs weight-i times. |
| `RoundRobin.ExactShares` | src/balancer.rs:95-113 | From any counter position, c whole turns choose upstream i exactly c x weight times, unless a wrap that does not fit falls in between. |
| `RoundRobin.ExactSharesIff` | src/balancer.rs:95-113 | From every counter position, wrap included, this holds iff the total weight divides 2^64 or one upstream has all the weight. |
| `RoundRobin.DefaultIsRoundRobin` | src/balancer.rs:176-180 | Without configured weights the schedule is round robin's. |
| `RoundRobin.RoundRobinEven` | src/balancer.rs:39-42 | Any k consecutive picks choose each of n upstreams floor(k/n) or ceil(k/n) times. |
| `RoundRobin.RoundRobinEvenIff` | src/balancer.rs:39-42 | Over all counter positions, wrap included, this holds iff n divides 2^64. |
| `LeastConnections.LeastConnections.constructor` | src/balancer.rs:51-56 | All counts start at zero. |
| `LeastConnections.LeastConnections.NextIndex` | src/balancer.rs:59-71 | Returns the first position with the smallest count. |
| `LeastConnections.LeastConnections.RecordStart` | src/balancer.rs:73-77 | Adds one at a valid position, nothing elsewhere. |
| `LeastConnections.LeastConnections.RecordDone` | src/balancer.rs:79-83 | Subtracts one on a machine word at a valid position. |
| `LeastConnections.DoneUndoesStarted` | src/balancer.rs:73-83 | On words, an end undoes a start and a start an end, at its position only. |
| `LeastConnections.NoPlacementBeatsShare` | src/balancer.rs:59-71 | No placement of K requests has a smaller peak than ceil(K/n). |
| `LeastConnectionsLoad.StepSound` | src/proxy.rs:175-265 | Every choice, start, skip, failed attempt, retry, end and drop keeps each count equal to the flights and the dropped flights on its upstream, and those that stay on the chosen position below a bound. |
| `LeastConnectionsPeak.StaysBelowIff` | src/proxy.rs:175-265 | Over all runs with at most K requests open, r undecided, m on positions they did not choose and d dropped in flight, with uninterrupted choices, a bound holds of every count iff it is at least (K - q + d) / n + q for m = 0, min(K, (K - q) / n + q + m) + d otherwise, where q is the smaller of K and r (0 for K = 0). |
| `LeastConnectionsPeak.PeakIsFair` | src/balancer.rs:59-83 | With one undecided request at a time and no retries or skips, the same bound is exact for interrupted choices too; without drops no upstream carries more than ceil(K/n). |
| `LeastConnectionsPeak.FairShareIff` | src/proxy.rs:175-265 | Without drops, every run with uninterrupted choices keeps every count within ceil(K/n) iff n = 1, or K <= 1, or nobody moves on and either one choice is made at a time or two and n divides K - 1. |
| `LeastConnectionsSlow.SlowChoiceBreaksPeak` | src/balancer.rs:59-71 | Choices whose loads are interrupted can exceed that peak: 9 instead of 8 for three upstreams, 14 requests and 5 undecided. |
| `ConsistentHash.ConsistentHash.constructor` | src/balancer.rs:130-141 | The loops and the sort build the ring of all virtual nodes. |
| `ConsistentHash.ConsistentHash.BinarySearch` | src/balancer.rs:153 | Finds an entry with the hash, or the gap where it belongs. |
| `ConsistentHash.ConsistentHash.NextIndexForKey` | src/balancer.rs:150-163 | Returns the owner of the key's clockwise successor, with wrap-around. |
| `ConsistentHash.RingPermutes` | src/balancer.rs:130-141 | The ring is a sorted permutation of all pool x replicas virtual nodes. |
| `ConsistentHash.RingNodes` | src/balancer.rs:130-141 | Its nodes are exactly those of upstreams below the pool size. |
| `ConsistentHash.RingStable` | src/balancer.rs:130-141 | On the ring, upstreams that share a hash stand in their own order. |
| `ConsistentHash.KeyTells` | src/balancer.rs:132-136 | A virtual node is hashed from the decimal of its upstream, a colon and the decimal of its number. |
| `ConsistentHash.KeysDiffer` | src/balancer.rs:132-136 | Different virtual nodes are hashed from different strings. |
| `ConsistentHash.SuccessorIsNearest` | src/balancer.rs:150-163 | The owner of a key is that of the nearest node going up from the key's hash around 2^64 points. |
| `ConsistentHash.OwnerUnique` | src/balancer.rs:150-163 | When different upstreams share no hash, the owner of a key is determined. |
| `ConsistentHash.MinimalDisruption` | src/balancer.rs:130-163 | Then, when a pool grows by one, each key keeps its owner or moves to the new upstream. |
| `ConsistentHash.MinimalDisruptionIff` | src/balancer.rs:130-163 | Over every key hash and every result the library search may return, this holds iff no two upstreams of the smaller ring share a hash. |
| `ConsistentHash.SeparatedIsMinimal` | src/balancer.rs:130-163 | So it holds whenever the hash tells the texts of the pool's virtual nodes apart. |
| `Router.LongestPrefixWins` | src/router.rs:18-24 | A route is found iff some prefix starts the path; it has the longest such prefix, and of equal ones the last. |
| `Router.PathRecomposes` | src/proxy.rs:148-163 | If the matched prefix starts the path and query, prefix and forwarded path compose to them, or nothing was left and "/" is sent; otherwise they are forwarded whole. It does start them whenever the path does. |
| `Router.StrippingFailsIff` | src/proxy.rs:148-163 | Of any path and query, stripping fails iff they have no path and the matched prefix is "/". |
| `Router.QueryAlone` | src/proxy.rs:148-163 | Such a request matches the route "/" and its query is forwarded whole. |
| `Backoff.NeverOverflowsIff` | src/proxy.rs:221-224 | Shift, multiplication and addition are exact for every retry and jitter iff the last delay is within two thirds of the largest word and retries are at most 64 (or there is nothing to delay). |
| `Backoff.SleptBounds` | src/proxy.rs:221-232 | For every base and jitter, total sleep is at most one and a half times the geometric sum; and at least the sum while the arithmetic is exact. |
| `Backoff.DelayRises` | src/proxy.rs:222 | The product saturates: over the first 64 retries the delay without jitter never falls, up to the largest word. |
| `Backoff.DelayRepeats` | src/proxy.rs:222 | 64 retries later the shift starts over. |
| `Backoff.JitterWraps` | src/proxy.rs:224 | The sum with the jitter wraps at 2^64. |
| `ProxyLoop.AppState.ScanHealth` | src/proxy.rs:177-178 | Looks at upstreams in order until one is healthy. |
| `ProxyLoop.AppState.ForwardOnce` | src/proxy.rs:96-104 | The upstream's answer if it comes within the timeout, a timeout otherwise; and the seconds waited. |
| `ProxyLoop.AppState.Settle` | src/proxy.rs:267-311 | A good answer is a success to the health tracker and one request; anything else is a failure and one error under its label. |
| `ProxyLoop.AppState.TryUpstream` | src/proxy.rs:252-311 | One attempt with its connection count, wait, health record, metric and resulting loop state. |
| `ProxyLoop.AppState.AskBudget` | src/proxy.rs:207 | Asks the budget with its two clock readings. |
| `ProxyLoop.AppState.WaitToRetry` | src/proxy.rs:215-232 | Counts the retry and sleeps the word-sized exponential delay plus jitter. |
| `ProxyLoop.AppState.VisitUpstream` | src/proxy.rs:187-313 | One offset: skip the unhealthy, stop on refusal, or try. |
| `ProxyLoop.AppState.ProxyRequest` | src/proxy.rs:174-334 | The whole loop leaves the shared objects and the reply that the specification function gives. |
| `RetryLoop.LoopShape` | src/proxy.rs:174-314 | Positions are pairwise distinct, attempts within the cap and the pool, and an error exit means the cap, a refusal or the end of the pool. |
| `RetryLoop.Bookkeeping` | src/proxy.rs:206-334 | One request counted under the status the client receives, one error per failed attempt by label, one retry per attempt after the first, no connection left counted; an error reply is the last attempt's error. |
| `RetryLoop.HealthHearsAttempts` | src/proxy.rs:267-311 | The health tracker hears exactly one report per attempt, in order, about the upstream that was tried and whether it answered well. |
| `RetryLoop.SleepsBounded` | src/proxy.rs:221-232 | A request with a attempts sleeps at most one and a half times base x (2^(a-1) - 1), whatever the base, and no less than that product while the arithmetic is exact. |
| `RetryLoop.Latency` | src/proxy.rs:96-104 | The loop's waits and sleeps take at most one timeout per attempt plus the sleeps, and exactly that when every attempt times out. |
| `RetryLoop.LatencyBounded` | src/proxy.rs:187-233 | However upstreams behave, they take at most m timeouts plus one and a half times base x (2^(m-1) - 1) milliseconds, m being the smaller of the cap and the pool size. |
| `RetryAnswers.OutcomesAreAnswers` | src/proxy.rs:96-104 | The k-th visit is to position start + k; an attempt there is answered with the status that the position sent within the timeout, disconnected if it broke within it, and timed out otherwise. |
| `RetryAnswers.EndsWithGoodAnswer` | src/proxy.rs:267-295 | An attempt ends the loop, with the status sent, iff its answer came in time with a status below 500 or from 600 on. |
| `RetryAnswers.ServedIsAnswer` | src/proxy.rs:267-295 | A served request receives the status that the last visited upstream sent in time, never one from 500 to 599. |
| `RetryAnswers.FailedIsAnswer` | src/proxy.rs:316-334 | A failed one receives 504 if its last attempt was not answered in time, 502 if that failed otherwise or there was none. |
| `RetryAnswers.RequestCounted` | src/proxy.rs:283-327 | One request is counted, under the status that the client receives. |
| `RetryAnswers.CountersAreAnswers` | src/proxy.rs:267-311 | The error counter grows by one timeout per answer not in time, one connection error per broken connection and one 5xx per status from 500 to 599; the wait is the sum of the answers' times cut off at the timeout. |
| `RetryAnswers.ReportsAreAnswers` | src/proxy.rs:267-311 | The health tracker hears one report per attempt in order, a success iff the answer came in time with a status not from 500 to 599. |
| `RetryLoop.Failover` | src/proxy.rs:175-314 | With retries for the whole pool, a healthy upstream (or any, when none is healthy) that answers well gets the request served from every start index, unless the budget refuses. |
| `RetryLoop.FailoverFunded` | src/proxy.rs:175-314 | The same without exception when, on arrival, the requests that stay in the window until the loop's last reading pay for the retries then in the window and one more on every other upstream. |
| `RetryLoop.RoomOfOne` | src/retry_budget.rs:48-51 | That holds in particular when the retries on the books and one on every other upstream are within ceil(percent/100). |
| `RetryLoop.TriesSomething` | src/proxy.rs:177-203 | Without interference at least one attempt is made iff the pool is not empty and the cap is not zero. |
| `SystemInvariants.StepKeepsJobs` | src/proxy.rs:118-314 | Every step of any request, reload or check keeps, for every request, its trace in turn and within the pool, its attempts, grants and last error as the trace tells them, the reason of its answer, and its snapshot. |
| `SystemTheorems.ConnectionsConserved` | src/proxy.rs:252-265 | In every reachable state each connection count is the attempts in flight plus those dropped in flight, in every router generation; without drops it is exactly the load. |
| `SystemTheorems.AmplificationBounded` | src/proxy.rs:185-235 | In every reachable state all attempts are at most (1 + ceil(percent/100)) x requests, and 2 x requests up to 100 percent, plus the retries granted uncounted, which are among those decided a window late. |
| `SystemTheorems.AmplificationShare` | src/proxy.rs:185-235 | The finer bound with the percentage itself and one rounding per window. |
| `Witnesses.NoFactorBounds` | src/retry_budget.rs:43-46 | Whatever the percentage, 0 included, for every n below 2^64 a state is reachable in which one counted request has made n attempts, n - 1 of them uncounted. |
| `SystemTheorems.MetricsConserved` | src/proxy.rs:206-334 | At any moment, label by label: retries are the grants, errors the failed attempts, and requests the answers under the status that the client received; when all are answered, retries are the attempts after each first, and each request was counted once except those whose body could not be read. |
| `SystemTheorems.VisitsDistinct` | src/proxy.rs:187-235 | Under any interference no request visits a position twice or exceeds its cap. |
| `SystemTheorems.RepliesExplained` | src/proxy.rs:187-334 | Under any interference an answer is 404 without a route, the good answer of the last visit, or the status of the last attempt's error after a refusal, the cap or the end of the pool. |
| `SystemTheorems.NoAttemptIff` | src/proxy.rs:187-314 | Under any interference an answered request was sent nowhere iff its cap is zero or it skipped its whole pool. |
| `Witnesses.ScanCanMislead` | src/proxy.rs:178-203 | For every threshold and cooldown, a check between scan and loop gives a state in which a request whose scan found an upstream, with a cap of one, is answered 502 after no attempt. |
| `SystemTheorems.NoOlderRouter` | src/config_reloader.rs:22-26 | No routed request pairs a config with an older router, before its answer or after. |
| `SystemTheorems.ReloadReaches` | src/config_reloader.rs:11-26 | The next request to load after a reload has its cap and its upstreams, with no connection counted. |
| `SystemTheorems.SnapshotStays` | src/proxy.rs:118-120 | A request that has loaded keeps its cap and its upstreams through every step of others. |
| `SystemTheorems.CheckHeard` | src/health_check.rs:55-75 | A successful active check makes its upstream healthy at any later look; a failed one counts once and marks it at the threshold for one cooldown; no other upstream notices. |
| `LoopRefinement.TurnIsRun` | src/proxy.rs:187-313 | One turn of the loop is a run of one to six atomic steps that ends in the turn's result. |
| `LoopRefinement.RequestIsRun` | src/proxy.rs:174-334 | What the method computes is a run of the state machine: same answer, visits, health, budget, connection counts and labelled metrics. |

## Left out

- Sockets, TLS, the HTTP client and server, body streaming, signals, graceful drain and the metrics server: input and
  output with no visible semantics; an attempt is an answer after some time, and a wait is a step that can be replaced
  by a drop.
- Header rewriting in `forward_once`: library map operations.
- Configuration parsing, logging, request identifiers, the text of metrics and the duration histogram.
- `f64` rounding and relaxed memory ordering: reals and sequentially consistent steps stand in for them.
- The active health checker's probing: its results enter the state machine as arbitrary failures and successes.
- `ProxyLoop.AppState.ProxyRequest`: starts at the health scan; matching the route, cutting the path and the balancer's
  pick come before it and are modelled by `Router` and the balancer modules, so that its start index is arbitrary.
- `ProxySystem` gives every route the connection counts of least connections; for the other balancers `record_start`
  and `record_done` do nothing. The pick itself is an arbitrary start index there.
- `LeastConnectionsPeak.StaysBelowIff`: choices whose loads other requests interrupt are only covered for r = 1 and m = 0;
  the retry cap and the retry budget, which keep some of these runs from happening, are not part of it.
- `RoundRobin.ExactSharesIff`: schedules of at most 2^64 entries, more than memory holds.
- `RetryLoop.LatencyBounded`: counts the waits for upstreams and the sleeps; the sections between them take no time, and
  the clock readings are inputs that these durations do not drive.
- Panics: an empty pool with a counting balancer, an all-zero weight list, a clock less than one window or five minutes
  after its origin, and the overflow of the failure count at a threshold of 2^32 - 1.
- Debug builds stop on the overflows that the model lets wrap.
