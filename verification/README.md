# Verified model of the LLM gateway

The gateway forwards chat requests to language-model providers. Almost all of its state is in Redis (counters, sorted
sets and hashes with deadlines); the rest is a few Python lists and fields. This project models the parts whose
correctness spans many operations and proves what they promise over every run:

| file | part of the gateway |
|---|---|
| `Prelude.dfy`, `Redis.dfy` | options, runs and sizes; a Redis key as a slot with an optional deadline |
| `SlidingWindow.dfy`, `TokenWindow.dfy`, `TokenBucket.dfy`, `Quotas.dfy`, `RateLimiter.dfy` | admission control by request, token and quota counters |
| `Budgets.dfy` | spend counters, the four-level budget check, settlement and resets |
| `Router.dfy`, `Cooldowns.dfy`, `BusyCounter.dfy`, `RouteAndCall.dfy` | deployment selection, failure counters, calls in flight, retries and fallbacks |
| `MemoryCache.dfy`, `ResponseCache.dfy`, `StreamReplay.dfy` | the in-memory cache, the Redis cache with its model index, caching and replaying streams |
| `Translation.dfy`, `AnthropicStream.dfy` | translation between the Messages and the chat formats, whole and streamed |
| `VirtualKeys.dfy` | the life of virtual keys: generate, validate, block, rotate, delete |
| `Guardrails.dfy` | redaction of detected spans |

Code that changes state is a class whose methods are proved against functions on its state; the properties are lemmas
about those functions over runs (`Prelude.Run`, oldest step innermost). Redis's clock never runs back; a request's own clock
is read once, before its checks, and may be behind. A key whose deadline has been reached is absent for every command.

What runs between what:

- A Lua script, a single command and a transaction (the pipelines of the repository) are one step each.
- Commands that the source awaits one by one are separate steps, with any others in between, for the busy counter, failure
  counters and cooldowns, quotas (`Quotas`), budgets (`OverspendIsBounded`), deletions of cached models, deletion and rotation
  of keys, and between the checks of one rate-limited request.
- Several awaited commands are taken as one step in these places only: ZADD and PEXPIRE of a token check; in `RateLimiter` the
  read and write of one token check (apart in `TokenWindow.OverlapIsBounded`) and the commands of one quota check (apart in
  `Quotas`); SETEX, SADD and EXPIRE of a cache write; GET and HGETALL of a validation; the reset of one key by a sweep, of
  which one runs at a time; the flushes of the whole cache and of all spend counters; and, where a method or lemma says that
  nothing comes between them, both halves of a whole operation.

What the proofs found:

- The fallback loop ends in every world exactly when the primary model is not among its own standard or default
  fallbacks; the branch without a deployment (routes/chat.py:333-334) adds that list without a duplicate test.
- A check that reaches Redis late trims by an old clock. If no check is more than `late` milliseconds behind, every window
  shorter by that much respects its limit, in every interleaving; a window one millisecond longer need not.
- A token check reads less than was admitted in its window exactly when a (millisecond, tokens) pair repeats there, because
  set members merge.
- The expiry of a token bucket is invisible exactly when the bucket refills within its 120 seconds less the delay of its callers.
- The busy counter is right throughout a run exactly when, whenever a call is open, the last EXPIRE since the counter was
  created was less than 300 seconds ago. Short calls are not enough: the counter may run out between the two commands that
  open a call. It then comes back as -1 without a deadline and stays one too low through the next call.
- A failure starts a cooldown exactly when its own INCR completes a row of `allowed_fails`; failures counted before another
  one has reset the counter each start one too. The counter exceeds the threshold by no more than the failures in flight.
- A daily quota is kept in every interleaving but for what requests in flight add. A monthly one is not: its counter lives
  for 30 days, and a month of 31 can grant it twice.
- The index of a model's cache entries is complete throughout a run exactly when no write moves its deadline before the end of
  another live entry and no deletion drops the index while an entry of the model is live, as one written between its commands
  is. Times to live that differ by at most 60 seconds and no write of the model during a deletion guarantee both.
- A cached stream keeps tool-call fragments, not calls: a reader of the cached response sees whole calls exactly when
  each call came in one fragment. Where a choice of index 0 comes first in its chunk, a replay means the same as the stream
  exactly when no chunk puts text or fragments of another choice first and the last finish reasons agree. Every stream of a
  given shape replays as itself exactly when each of its chunks has index 0 first and nowhere else, or no choice.
- Text beside tool results is dropped by the request translation; results survive as text only.
- Streamed text and non-streamed text agree exactly when a message has at most one text block, since one joins with line
  breaks and the other does not. The streamed prompt tokens are right exactly when `message_delta` repeats them.
- A deleted key stays dead exactly as long as nothing sets a field of its record. A lone field write brings the id back for
  every raw key whose index entry is still live: unblocking, an update, a budget reset, or a rotation that read the record
  before the deletion, whose new key is then accepted for good. Two rotations that overlap leave the middle key valid for ever.
  After a well-used history the write of a rotation keeps acceptance as promised exactly when the id still exists and the key it
  read is still current, or the difference does not outlive the id.
- A finding nested in another, among any disjoint ones, is harmless exactly when its placeholder is as long as its span, or
  shorter at the end of the text, and it is replaced first: it starts later, or is given first, or both are of one kind. A
  longer placeholder leaves the end of the outer finding readable, as for the telephone number in
  `a.555-123-4567@example.com`, which becomes `[EMAIL_REDACTED].com`; a shorter one takes text behind the outer finding away.
  With equal starts the outer one may be replaced first: `555-123-4567@example.com` becomes `[PHONE_REDACTED]TED]`.

Preconditions that the code itself imposes: limits in team and organisation records are numbers (an unset limit is
stored as the empty string, which the conversion at middleware/rate_limiter.py:196 rejects); the memory cache has room
for at least one item; a cooldown time is positive; the Anthropic adapter serves one stream at a time, since its state lives on a shared instance.

## Model

| member | source | states |
|---|---|---|
| SlidingWindow.RunScript | middleware/rate_limiter.py:20-37 | the script's commands in order are one atomic step: trim, count, refuse without a trace or add the member and set the deadline |
| SlidingWindow.Limiter.CheckSlidingWindow | middleware/rate_limiter.py:67-72 | a check runs that step on its own key and changes no other |
| SlidingWindow.RunTracks | middleware/rate_limiter.py:27-35 | after any run, the stored set is part of everything ever admitted and still holds whatever lies in Redis's window |
| SlidingWindow.EveryReplyMatchesTheLog | middleware/rate_limiter.py:27-36 | trimming and PEXPIRE are invisible: a reply counts at most the caller's and at least Redis's window of an unbounded log, which without delay are the same |
| SlidingWindow.WindowNeverExceeded | middleware/rate_limiter.py:30-35 | with fresh members and calls at most `late` behind, no window shorter than the given length by `late` ever holds more than the largest limit applied to the key |
| SlidingWindow.RefusedOnlyWhenFull | middleware/rate_limiter.py:30-32 | without delay, a request is refused if and only if exactly `limit` admitted ones lie in its window |
| SlidingWindow.DelayBoundIsTight | middleware/rate_limiter.py:123-143 | for every delay there is a run in which a window one millisecond longer than that holds three under a limit of two |
| TokenWindow.SumTokens | middleware/rate_limiter.py:84-91 | the loop over the members adds up their token counts |
| TokenWindow.RunLook | middleware/rate_limiter.py:79-91 | the pipeline drops what is too old for the caller and totals the rest |
| TokenWindow.RunCheck | middleware/rate_limiter.py:79-99 | with nothing between its read and its write, one check trims, sums, and refuses or adds its own pair and sets the deadline |
| TokenWindow.Limiter.CheckTpm | middleware/rate_limiter.py:75-99 | a check runs that step on its own key and changes no other |
| TokenWindow.EveryReplyMatchesTheLog | middleware/rate_limiter.py:79-98 | over every run, the total a check reads is at most that of the caller's and at least that of Redis's window of an unbounded log, and the check passes if and only if its own tokens fit beside it |
| TokenWindow.WindowNeverExceeded | middleware/rate_limiter.py:84-99 | for checks made one at a time, the distinct pairs charged in any window, shorter by the delay, come to at most the largest limit applied to the key |
| TokenWindow.OverlapIsBounded | middleware/rate_limiter.py:79-99 | however reads and writes interleave, with at most n checks between the two at once, the distinct pairs charged in any window, shorter by the delay, come to at most the limit plus n minus one times the largest request |
| TokenWindow.ReadIsExactIff | middleware/rate_limiter.py:84-97 | over every run, the total a check without delay reads is at most what was admitted in its window, and equal if and only if no (millisecond, tokens) pair repeats there |
| TokenWindow.AdmittedTokensFit | middleware/rate_limiter.py:93-97 | requests admitted in a window without a repeated pair carry at most the limit |
| TokenWindow.RepeatedPairOvershoots | middleware/rate_limiter.py:96-97 | three requests of 60 tokens in one millisecond all pass a limit of 130 |
| TokenBucket.Limiter.Check | middleware/rate_limiter.py:39-64 | a check performs the whole script on its key and changes no other |
| TokenBucket.RunWellFormed | middleware/rate_limiter.py:46-63 | after any run the level is at most the capacity, and below 0 by no more than flowed in while the last call was on its way |
| TokenBucket.LateCallOverdraws | middleware/rate_limiter.py:50-62 | a refused call whose clock is a second behind stores a level below 0 |
| TokenBucket.ExpiryInvisibleIff | middleware/rate_limiter.py:57-62 | forgetting an expired bucket never changes the level a caller at most `late` behind computes if and only if the bucket refills within its time to live less the delay |
| TokenBucket.PerMinuteExpiryInvisible | middleware/rate_limiter.py:132-133 | the limits the gateway uses, with a rate of a sixtieth of the capacity, meet that condition for delays of up to a minute |
| TokenBucket.ReplyTellsTheLevel | middleware/rate_limiter.py:54-63 | the reply tells the level left: that of the bucket, less what was asked for if it was granted |
| TokenBucket.LevelIsLeastRoom | middleware/rate_limiter.py:50-55 | in whatever order the callers' clocks come, the level is the least of the capacity and, over every interval that starts at an earlier call, capacity plus refill minus grants |
| TokenBucket.AdmittedIffEveryIntervalHasRoom | middleware/rate_limiter.py:54-63 | a request is admitted if and only if it fits the capacity and overdraws no such interval |
| TokenBucket.GrantsAreBounded | middleware/rate_limiter.py:50-59 | the amount granted over any stretch of a run is at most the capacity plus rate times duration, from the first call's clock to the serving of the last |
| Quotas.CheckQuota | middleware/rate_limiter.py:102-110 | a quota check alone reads, adds when its tokens fit, and renews the deadline either way |
| Quotas.CheckIsItsSteps | middleware/rate_limiter.py:236-259 | which is its read, its addition and its renewal with nothing in between |
| Quotas.GrantsAreBounded | middleware/rate_limiter.py:102-110 | however GET, INCRBY and EXPIRE of the requests interleave, in a period no longer than the time to live the requests that fitted carry at most the limit plus n minus one times the largest request, when at most n are between GET and INCRBY at once |
| Quotas.QuotaIsKeptIff | middleware/rate_limiter.py:236-259 | that bound holds in every interleaving if and only if the period is no longer than the time to live |
| Quotas.DailyButNotMonthly | middleware/rate_limiter.py:236-259 | so it holds for days of 24 hours, and fails for months of 31 days, in which one key can be granted its quota twice |
| RateLimiter.PlanAppliesEveryLimit | middleware/rate_limiter.py:127-259 | a check is made if and only if a non-zero limit is in force for it, token checks and quotas only without a cache hit |
| RateLimiter.PlanSeparatesCounters | middleware/rate_limiter.py:127-259 | the checks come in the fixed order of dimensions and one request never meets the same counter twice |
| RateLimiter.Limiter.Try | middleware/rate_limiter.py:102-110 | one dimension's check passes or refuses and charges only its own counter |
| RateLimiter.Limiter.TryQuotas | middleware/rate_limiter.py:236-259 | daily then monthly quota, each only when set and not on a cache hit |
| RateLimiter.Limiter.CheckAndIncrement | middleware/rate_limiter.py:113-261 | the whole check runs the applicable dimensions in order and stops at the first refusal, with all earlier ones charged |
| RateLimiter.RunPlanConcat | middleware/rate_limiter.py:127-261 | the dimensions run one after the other: a later group runs only if the earlier one passed, on the counters it left |
| RateLimiter.UninterruptedIsRunPlan | middleware/rate_limiter.py:113-261 | a request whose checks nothing interrupts does in the interleaved runs what the whole check does, and passes if and only if it does |
| RateLimiter.PassedRequestsFitEveryWindow | middleware/rate_limiter.py:113-234 | in every interleaving of the checks of any requests, each with the checks its identity and records ask for, the requests with a request limit in force at a scope that pass everything satisfy the largest such limit in every window, shorter by the delay |
| RateLimiter.PassedTokensFitEveryWindow | middleware/rate_limiter.py:113-212 | and those with a token limit in force carry at most the largest such limit, with each token check as one step, as long as no two of the passing requests charged there share their start and token count |
| RateLimiter.RequestPassesIfRoom | middleware/rate_limiter.py:67-72 | in those interleavings, a request passes a request check only if fewer than its limit of those that passed it started in Redis's last 60,000 milliseconds, and is refused only if that many started in its own |
| RateLimiter.TokensPassIfRoom | middleware/rate_limiter.py:75-99 | and a token check only if its tokens fit beside the distinct pairs of Redis's last 60,000 milliseconds, refused only if they do not fit beside those of its own |
| RateLimiter.PassedTokensFitTheQuota | middleware/rate_limiter.py:102-110 | with each quota check as one step, the requests with a daily or monthly quota in force for one key and period that pass everything, within the time to live from its start, carry together at most the largest such quota |
| RateLimiter.QuotaCounterIsItsPassers | middleware/rate_limiter.py:102-110 | the quota counter then holds the tokens of the requests that passed that check, those refused by a later one included |
| RateLimiter.QuotaPassesIff | middleware/rate_limiter.py:236-259 | a request passes its quota check if and only if its tokens fit in its quota beside those |
| RateLimiter.LateRefusalStillCharges | middleware/rate_limiter.py:146-257 | a refusal at one dimension leaves what the earlier ones charged and runs nothing after it |
| Budgets.Ledger.CheckBudget | auth/budgets.py:74-118 | passes if and only if each level the request names, its key and its user, team and organisation when present, that has a budget has spend plus estimate within it |
| Budgets.Ledger.IncrementSpend | auth/budgets.py:50-65 | raises the counter of the request's own key, user, team and organisation by the cost, and no other |
| Budgets.Ledger.ResetBudget | auth/budgets.py:168-171 | sets one key's counter to zero and no other |
| Budgets.Ledger.Sweep | auth/budgets.py:191-217 | one pass resets exactly the counters of due keys and reschedules exactly the due records, however often a scan repeats a key |
| Budgets.ResetsAgainIff | auth/budgets.py:203-214 | over any sweeps, the next one resets the key if and only if its first deadline has come and a day or a month has passed since the last reset; without a period every later sweep does |
| Budgets.UninterruptedReadsAreTheCheck | auth/budgets.py:74-118 | a request whose reads nothing interrupts is in flight after them if and only if each level it names has room |
| Budgets.SettlementCharges | middleware/cost_tracker.py:54-66 | a settlement raises exactly the counters of the request's own key, user, team and organisation by its cost |
| Budgets.OverspendIsBounded | auth/budgets.py:74-118 | in every interleaving of reads, settlements and resets, a counter stays within its limit plus what at most n requests in flight, of cost at most max each, can add |
| Budgets.StepKeepsHeadroom | middleware/cost_tracker.py:54-66 | every single step keeps the spend within limit plus the cost still open |
| Budgets.CounterIsWhatWasSettled | auth/budgets.py:50-65 | a counter is the sum of the costs settled to it since its last reset |
| Budgets.GroupSpendIsItsKeysSpend | auth/budgets.py:59-65 | without resets, the counter of a user, a team or an organisation is the sum of the counters of the keys that settle for it |
| Cooldowns.Tracker.IncrementFailure | routing/cooldowns.py:11-16 | when nothing comes between its INCR and its EXPIRE, counts one more failure and restarts the idle expiry of that deployment alone |
| Cooldowns.Tracker.MaybeCooldown | routing/cooldowns.py:19-32 | at the threshold, and only there, sets the flag and drops the counter |
| Cooldowns.Tracker.Record | routes/chat.py:362-395 | a success clears the counter, a failure that nothing interrupts counts and may pause, and other deployments are untouched |
| Cooldowns.Tracker.IsCooledDown | routing/cooldowns.py:35-36 | a deployment is cooled down if and only if its flag is there and has not expired |
| Cooldowns.CounterIsTheRow | routing/cooldowns.py:11-41 | in every interleaving of the commands of any failures and successes, the counter is the number of failures counted since it was last deleted or ran out, 300 seconds after the last EXPIRE that found it |
| Cooldowns.StartsIffOwnCount | routing/cooldowns.py:27-31 | in every interleaving, a failure starts a cooldown if and only if its own INCR completed a row of allowed_fails |
| Cooldowns.CounterIsBounded | routing/cooldowns.py:11-32 | in every interleaving, the counter is less than the threshold, or 1, plus the number of failures in flight |
| Cooldowns.OverlappingFailuresStartTwice | routing/cooldowns.py:27-31 | with a threshold of two and three failures in flight at once, the second and the third both start a cooldown |
| Cooldowns.EventsAreCommands | routes/chat.py:362-395 | visits recorded one after the other, each at one instant, are the interleavings in which nothing overlaps |
| Cooldowns.CountIsTheRow | routing/cooldowns.py:11-41 | for those, the counter is the length of the unbroken row of failures less than 300 seconds apart since the last success or cooldown |
| Cooldowns.CooldownStartsExactlyAt | routing/cooldowns.py:27-31 | for those, a cooldown starts if and only if a failure completes a row of allowed_fails, or at every failure when that is at most one |
| Cooldowns.CooledDownIff | routing/cooldowns.py:27-41 | in every interleaving, a deployment is cooled down if and only if one of its cooldowns still lasts; successes do not shorten it |
| Router.Filter | routing/router.py:54-83 | a filter loop keeps exactly the passing deployments, in order |
| Router.Healthy | routing/router.py:46-72 | after the hard filters exactly the configured, allowed deployments remain that are not cooling down and in the region |
| Router.Candidates | routing/router.py:74-89 | the soft filters never empty the list, and prefer deployments with quota left and a large enough context window whenever there is one |
| Router.CountBusy | routing/router.py:92-98 | the loop adds up the busy counters of the candidates |
| Router.RunningBest | routing/strategies.py:150-185 | the running-best loop returns the first deployment with the least latency, price or open calls, or the first of all when none has a score |
| Router.SelectDeployment | routing/router.py:27-112 | the pipeline answers the strategy's choice among the candidates, or nothing |
| Router.EligibleIff | routing/router.py:46-72 | the hard filters: configured for the model, on the allowlist if there is one, not cooling down, and in the identity's region, or else in one of the team's if it has any |
| Router.CandidatesAre | routing/router.py:74-89 | the candidates are the eligible deployments whose provider has requests left, or all if none has, and of these the ones whose window takes the tokens, or all if none does |
| Router.KeptInOrder | routing/router.py:54-83 | a filter keeps them in the configured order, as often as they are listed |
| Router.BusyAddsUp | routing/router.py:92-98 | the busy count is the sum of the counters, a missing one being 0 |
| Router.AnswerHasLeastValue | routing/strategies.py:150-185 | the answer is the first candidate with the fewest open calls, the least median latency, or the lowest price of its provider model or else its model; the first of all when none is known |
| Router.SelectionRespectsHardFilters | routing/router.py:46-112 | every answer passes the hard filters; there is none if and only if they leave nothing or the parallel cap is reached |
| BusyCounter.Counters.EnterCall | routing/router.py:151-153 | opening a call that no other interrupts increments the counter and then renews its deadline |
| BusyCounter.Counters.ExitCall | routing/router.py:157 | closing a call decrements it, creating it when it has expired |
| BusyCounter.CounterIsCallsInFlight | routing/router.py:149-157 | while calls last less than 300 seconds and no time passes between INCR and EXPIRE, the counter is always the number of open calls, and it has expired only if none is open |
| BusyCounter.RightIffRenewed | routing/router.py:149-157 | in every interleaving of INCR, EXPIRE and DECR, the counter is right throughout if and only if, whenever a call is open, the last EXPIRE since the counter was created, if any, was less than 300 seconds ago |
| BusyCounter.LapseLeavesOneTooFew | routing/router.py:151-157 | after a lapse the closing of the only open call leaves -1 without a deadline, and the opening of the next 0 with one |
| BusyCounter.ShortCallsMayLapse | routing/router.py:149-157 | two short calls, the second renewing two seconds after it counted: the counter reads 0 with one call open and ends at -1 without a deadline |
| RouteAndCall.Extend | routes/chat.py:374-376 | the append loop adds exactly the models not yet listed |
| RouteAndCall.Context.CallWithRetries | routes/chat.py:347-409 | the outcome is that of the attempt that decides, told by its reply; retries are counted, and the failure counter is cleared or counted once |
| RouteAndCall.Context.ExtendAfter | routes/chat.py:331-417 | a visit that did not succeed widens the list as its end requires and records the fallbacks used |
| RouteAndCall.Context.TryModel | routes/chat.py:329-417 | one pass selects, calls, and either finishes or widens the list, charging exactly that visit |
| RouteAndCall.Context.TryModels | routes/chat.py:323-417 | for any configuration, n passes over the growing list are the first n visits of the run below, and retries_used, fallbacks_used and the failure counters are their totals |
| RouteAndCall.Context.RouteAndCall | routes/chat.py:313-419 | in every world in which the loop ends, whatever the configuration, it does so with the finished run of visits below, and retries_used, fallbacks_used and the failure counters are the totals of its visits |
| RouteAndCall.EndsWithinBound | routes/chat.py:323-417 | if the primary model is not its own fallback, every run ends within 1 plus the lengths of the standard and context-window lists visits |
| RouteAndCall.EndsInEveryWorldIff | routes/chat.py:331-335 | the loop ends whatever selection and providers answer if and only if the primary model is not among its standard fallbacks |
| RouteAndCall.VisitsFollowTheList | routes/chat.py:329-330 | models are visited in list order, each place at most once, although the list grows |
| RouteAndCall.VisitsFollowTheReplies | routing/retries.py:100-119 | told by the replies alone: a visit to a selected deployment is decided by its first reply that is an answer or a status other than 429, 500, 502, 503 and 504, or by the last attempt; all attempts before are retried; it ends in success, context overflow at a 400 about the context, or failure by status or exception |
| RouteAndCall.AppendNewFacts | routes/chat.py:411-416 | the list keeps its front and gains exactly the new models |
| RouteAndCall.AttemptsAccount | routes/chat.py:347-409 | a visit sends between one and num_retries plus one times, all but the answered last send counted as retries |
| RouteAndCall.SendsAreAccountedFor | routes/chat.py:347-409 | total sends are the retries used plus the visits not ended by an exception, and at most num_retries plus one for each visit |
| RouteAndCall.WorkIsBounded | routes/chat.py:323-419 | visits and sends of a whole call are bounded by the configured lists and the number of retries |
| RouteAndCall.OnlyTheLastSucceeds | routes/chat.py:359-363 | a result is that of the last visit, and no earlier visit succeeded |
| RouteAndCall.NoResultMeansAllFailed | routes/chat.py:411-419 | None is returned only after the primary, every standard and default fallback and, once a context overflowed, every context-window fallback were visited without success |
| RouteAndCall.ConfiguredOrder | routing/fallbacks.py:18-31 | without a context overflow the models visited are the primary and then the configured fallbacks, in their order |
| RouteAndCall.WorkListIs | routes/chat.py:331-417 | whatever the visits end in, the work list is the primary model and, each once and in order, what the failed visits call for: context-window fallbacks at an overflow, or the standard ones if there are none, and standard ones at the primary model, the default behind either |
| RouteAndCall.FallbacksAre | routing/fallbacks.py:18-31 | a fallback list is the configured one and then the default, unless it is listed |
| RouteAndCall.UsesAreExact | routes/chat.py:373-417 | fallbacks_used names a context window for each visit that overflowed it, and the standard fallbacks for each visit of the primary model that found a deployment in vain, if any fallback is configured |
| RouteAndCall.EffectsAreExact | routes/chat.py:362-408 | each failed visit counts once against its deployment id, and a failure counter is cleared if and only if the successful last visit went there |
| RouteAndCall.CallOnMarks | routes/chat.py:362-408 | when nothing else touches a deployment's counter during a call and it does not run out meanwhile, the failures found and made are used up by cooldowns, a threshold of them by each, and the rest is on the counter, unless the call succeeded there; a cooldown starts if and only if they reach the threshold |
| RouteAndCall.EverySendIsEligible | routes/chat.py:329-356 | every send, fallbacks included, goes to a deployment that passed the hard filters when it was selected |
| MemoryCache.MemoryCache.Get | middleware/memory_cache.py:17-25 | answers the live value and moves it to the end, or drops an expired one |
| MemoryCache.MemoryCache.Set | middleware/memory_cache.py:27-30 | makes room first, then overwrites in place or appends |
| MemoryCache.MemoryCache.Delete | middleware/memory_cache.py:32-36 | removes the key and says whether it was there |
| MemoryCache.MemoryCache.Flush | middleware/memory_cache.py:38-41 | empties the cache and counts what it held |
| MemoryCache.SizeStaysBounded | middleware/memory_cache.py:28-30 | in every run the size limit holds and no key appears twice |
| MemoryCache.ReadAnswersTheLastSet | middleware/memory_cache.py:17-36 | a read answers the value last set for the key if and only if it has not expired and was not evicted, deleted or flushed since |
| MemoryCache.ItemsAreInOrderOfUse | middleware/memory_cache.py:24-30 | everything behind an item was inserted or hit after it |
| MemoryCache.EvictedIsLeastRecent | middleware/memory_cache.py:28-29 | a key is evicted only after at least max_size minus one distinct other keys were inserted or hit since it was |
| MemoryCache.LiveMissMeansCrowdedOut | middleware/memory_cache.py:17-30 | a live value is missed only if its key was crowded out in that way after it was last set |
| ResponseCache.ResponseCache.SetCachedResponse | middleware/cache.py:113-139 | writes the entry, indexes its key and moves the index deadline; a time to live that is not positive writes nothing |
| ResponseCache.ResponseCache.GetCachedResponse | middleware/cache.py:94-97 | answers the live entry |
| ResponseCache.ResponseCache.ListIndex | middleware/cache.py:156 | answers the keys in the model's live index |
| ResponseCache.ResponseCache.DeleteEntries | middleware/cache.py:159 | removes the given entries and counts those that were live |
| ResponseCache.ResponseCache.DropIndex | middleware/cache.py:160 | removes the model's index |
| ResponseCache.ResponseCache.DeleteModel | middleware/cache.py:154-161 | with nothing in between, removes the indexed entries and the index, and counts the entries that were live |
| ResponseCache.WriteIsTold | middleware/cache.py:126-139 | an entry lasts for the override or else its model's time to live, and the index that lists it 60 seconds longer |
| ResponseCache.DeletionCounts | middleware/cache.py:156-161 | a deletion counts the keys whose entries have not expired |
| ResponseCache.PutKeepsCoverageIff | middleware/cache.py:136-139 | a write keeps every live entry of its model in a live index if and only if every other live entry of the model expires within the new time to live plus 60 seconds |
| ResponseCache.AlwaysCoveredIff | middleware/cache.py:136-161 | with each write as one step and deletions command by command, the index covers a model's live entries throughout a run if and only if every write leaves that margin to every other live entry and every drop of the index finds none of the model's entries live |
| ResponseCache.OnlyListedAreLive | middleware/cache.py:154-161 | between the commands of a deletion during which the model is not written, only entries it has listed and not yet deleted are live |
| ResponseCache.QuietDropFindsNothing | middleware/cache.py:154-161 | so the drop of the index that ends such a deletion finds no live entry |
| ResponseCache.IndexCoversLiveEntries | middleware/cache.py:113-161 | in every run in which one model's times to live differ by at most 60 seconds and no write of it falls between the first and the last command of a deletion, its live entries are in its live index |
| ResponseCache.InvalidationIsComplete | middleware/cache.py:154-161 | in such a run, the end of a deletion leaves no live entry of the model |
| ResponseCache.InvalidationIsPrecise | middleware/cache.py:154-161 | when keys determine models, no command of a deletion touches an entry of another model |
| ResponseCache.WideTtlsLeaveAnEntry | middleware/cache.py:138-139 | for any two times to live further apart than 60 seconds a live entry can survive the deletion of its model |
| ResponseCache.WriteDuringDeletionEscapes | middleware/cache.py:156-160 | an entry written between the commands of a deletion is live, in no index, and missed by the next deletion |
| StreamReplay.Assembler.AddChunk | middleware/cache.py:199-216 | after every chunk the assembler's fields are the id, text, fragments, finish reason and usage of all chunks so far |
| StreamReplay.Assembler.Finalize | middleware/cache.py:218-240 | stores the response assembled from the chunks, and nothing under no-store |
| StreamReplay.RechunkForStreaming | middleware/cache.py:264-284 | emits the role, the text in pieces of 20, one chunk for each tool call, and the finish reason |
| StreamReplay.ResponseIsTold | middleware/cache.py:199-240 | the cached response has the contents and tool calls of the first choices one after the other, null when there are none, and the model, id, finish reason and usage below |
| StreamReplay.IdIsTheFirst | middleware/cache.py:202-203 | the id is that of the first chunk that has one |
| StreamReplay.FinishIsTheLast | middleware/cache.py:212-213 | the finish reason is that of the last first choice that has one |
| StreamReplay.UsageIsTheLast | middleware/cache.py:215-216 | the usage is that of the last chunk that has one |
| StreamReplay.TextIsCutEvenly | middleware/cache.py:270-275 | piece k of a replayed text is its characters from 20 k on, 20 of them or what is left |
| StreamReplay.ReplayMergesToTheResponse | middleware/cache.py:268-284 | a client that merges the replay has the cached text, tool calls and finish reason |
| StreamReplay.ReplayKeepsTheMeaning | middleware/cache.py:199-284 | assembling and replaying a stream in which the first choice of each chunk is its only one of index 0 gives the same merged text, fragments in order and finish reason |
| StreamReplay.ReplayKeepsTheMeaningIff | middleware/cache.py:205-213 | where a choice of index 0 comes first in its chunk, the replay means the same if and only if no other first choice says anything and the last finish reasons agree |
| StreamReplay.EveryStreamOfShapeReplaysIff | middleware/cache.py:205-213 | whatever the indexes of the choices: every stream of a shape replays as itself if and only if each chunk of the shape has index 0 first and nowhere else, or no choice |
| StreamReplay.CachedCallsAreWholeIff | middleware/cache.py:210-211 | the stored tool calls are whole calls if and only if each call came in one fragment |
| Translation.MessagesOfTurn | routes/messages.py:43-89 | one turn becomes tool messages, a message with calls, or a plain message |
| Translation.TurnsOfMessages | providers/anthropic_provider.py:49-90 | each message becomes a turn: tool results for the user, text and tool uses for the assistant |
| Translation.AnthropicToOpenAIRequest | routes/messages.py:34-123 | a Messages request becomes the chat request with its system prompt first |
| Translation.TransformRequest | providers/anthropic_provider.py:34-121 | a chat request becomes a Messages request for the deployment's model, with 4096 as the default token limit |
| Translation.TransformResponse | providers/anthropic_provider.py:123-179 | a Messages response becomes a chat response with joined text, calls, finish reason and token counts |
| Translation.OpenAIToAnthropicResponse | routes/messages.py:126-173 | a chat response becomes a Messages response |
| Translation.PiecesAreListed | routes/messages.py:56-79 | texts, tool uses and tool results come out in order, none left out: a call has the id, name and printed input of its use; a result its id and its text, or its parts in order with exactly one blank between neighbours |
| Translation.TurnIsTold | routes/messages.py:43-89 | a turn with tool results becomes these alone; otherwise one message of its role with its tool uses and its texts with one line break between, null without texts beside tool uses |
| Translation.ConversationIsTold | routes/messages.py:43-89 | the messages of a conversation are those of its turns, one turn after the other |
| Translation.MessagesAreTold | providers/anthropic_provider.py:49-90 | each message becomes one turn: a tool message a result for the user, an assistant's calls a text unless empty and one tool use each with parsed arguments or the empty object |
| Translation.ChatRequestIsTold | routes/messages.py:92-123 | a Messages request as a chat request field by field, the system prompt in front and each tool with its name, description and schema |
| Translation.MessagesRequestIsTold | providers/anthropic_provider.py:34-121 | a chat request as a Messages request field by field, a leading system message as the prompt and 4096 for a missing token limit |
| Translation.ChatResponseIsTold | providers/anthropic_provider.py:123-179 | a Messages response as a chat response field by field: its texts with one line break between, its calls, and the token counts with their sum |
| Translation.FinishIsTold | providers/anthropic_provider.py:146-154 | the finish reason is length for max_tokens, tool_calls for tool_use, and stop for every other stop reason |
| Translation.MessagesResponseIsTold | routes/messages.py:126-173 | a chat response as a Messages response field by field; without a choice it is empty |
| Translation.StopIsTold | routes/messages.py:155-158 | the stop reason is max_tokens for length, tool_use for tool_calls, and end_turn for every other finish reason |
| Translation.FinishComesBack | providers/anthropic_provider.py:146-154 | starting from the chat side, a finish reason comes back if and only if it is stop, length or tool_calls |
| Translation.ThereAndBack | routes/messages.py:43-89 | translating a turn to chat messages and back gives its normal form: tool results alone, or one text and the tool uses, or plain text |
| Translation.FixedIffCanonical | providers/anthropic_provider.py:49-90 | a conversation comes back unchanged if and only if every turn is canonical |
| Translation.UsesAndResultsSurvive | providers/anthropic_provider.py:56-85 | every tool use and tool result survives, in order, with its id; uses keep their input, results their text, or their parts in order with one blank between |
| Translation.TextSurvivesIff | routes/messages.py:72-89 | a turn keeps its role and text if and only if it has no text or no tool results |
| Translation.RequestThereAndBack | routes/messages.py:92-123 | the round trip keeps system prompt, sampling and tools, normalises the turns, fills in the token limit and drops metadata |
| Translation.RequestNormalFormIsStable | providers/anthropic_provider.py:34-121 | doing the request round trip twice is doing it once, and its result is canonical |
| Translation.RequestFixedIffCanonical | routes/messages.py:34-123 | a request comes back unchanged if and only if it is canonical |
| Translation.ResponseThereAndBack | routes/messages.py:126-173 | the response round trip keeps text, tool uses with order and ids, and all token counts, and is canonical |
| Translation.ResponseFixedIffCanonical | providers/anthropic_provider.py:146-179 | a response comes back unchanged if and only if it is canonical, and the round trip is idempotent |
| AnthropicStream.Adapter.TransformStreamChunk | providers/anthropic_provider.py:181-322 | one line updates the event, id and model the adapter remembers and yields at most one chunk |
| AnthropicStream.StateIsTold | providers/anthropic_provider.py:194-226 | the adapter remembers the last event name and, from message_start, the id and model of the message or else fresh ones |
| AnthropicStream.ChunkIsTold | providers/anthropic_provider.py:210-320 | which chunk each kind of data line yields: the role, a text, the head or arguments of a call, the finish reason (length, tool_calls, or stop for every other) with usage, or the end |
| AnthropicStream.AdapterReadsDispatchedEvents | providers/anthropic_provider.py:194-208 | on streams that name each event before its data line, reading line by line is reading the events that section 9.2.6 of the WHATWG HTML Living Standard dispatches |
| AnthropicStream.NoiseIsInvisible | providers/anthropic_provider.py:319-322 | pings and unknown events change nothing a client sees |
| AnthropicStream.WholeBlock | providers/anthropic_provider.py:226-290 | however a block is cut into deltas, the client gains its text or its call |
| AnthropicStream.StreamMerges | providers/anthropic_provider.py:210-320 | what the client holds at the end of a stream of the message: ids, texts one after the other, calls with their fragments joined, the finish reason (length for max_tokens, tool_calls for tool_use, stop for every other) and usage |
| AnthropicStream.TextsAgreeIff | providers/anthropic_provider.py:167 | texts joined with and without line breaks are equal if and only if there is at most one |
| AnthropicStream.StreamAgreesWithResponse | providers/anthropic_provider.py:123-322 | merging the chunks gives the ids, tool calls up to JSON meaning, finish reason and completion tokens of transform_response; the text if and only if there is at most one text block, the prompt tokens if and only if message_delta repeats them |
| AnthropicStream.LinesAgreeWithResponse | providers/anthropic_provider.py:181-322 | the same for the lines of the stream and an adapter in any earlier state |
| VirtualKeys.KeyStore.GenerateKey | auth/virtual_keys.py:44-89 | writes the record and the index entry, both with the key's expiry if it has one |
| VirtualKeys.KeyStore.ValidateKey | auth/virtual_keys.py:94-112 | follows the index to a record that is unblocked and unexpired |
| VirtualKeys.KeyStore.BlockKey | auth/virtual_keys.py:140-142 | sets the flag, creating a record for an unknown id |
| VirtualKeys.KeyStore.UnblockKey | auth/virtual_keys.py:145-147 | clears the flag, creating a record for an unknown id |
| VirtualKeys.KeyStore.ReadRecord | auth/virtual_keys.py:152-155 | answers the live record, the first half of deleting and rotating |
| VirtualKeys.KeyStore.EraseKey | auth/virtual_keys.py:157-163 | the second half of deleting removes the record and the index entry of the key that was read |
| VirtualKeys.KeyStore.WriteRotation | auth/virtual_keys.py:234-248 | the second half of rotating writes the new current key, creating a record that is gone, and gives the key that was read the grace period |
| VirtualKeys.KeyStore.DeleteKey | auth/virtual_keys.py:150-163 | with nothing in between, removes the record and the current key's index entry; rotated-out entries stay |
| VirtualKeys.KeyStore.RotateKey | auth/virtual_keys.py:224-248 | with nothing in between, makes the new raw key current, without a deadline, and gives the old one the grace period |
| VirtualKeys.AcceptedIff | auth/virtual_keys.py:94-112 | in any state, a raw key is accepted for an id if and only if its live index entry names it and the id's live record is unblocked and not past its expiry |
| VirtualKeys.GenerationIsTold | auth/virtual_keys.py:44-89 | a new id's record and index entry are there until the requested expiry, or for good |
| VirtualKeys.ErasureIsTold | auth/virtual_keys.py:157-163 | a deletion takes the record and the index entry of the key it read, and nothing else |
| VirtualKeys.RotationIsTold | auth/virtual_keys.py:234-248 | a rotation points its new key at the id for good and gives the key it read the grace period |
| VirtualKeys.OperationsExtendRuns | auth/virtual_keys.py:82-248 | the store after an operation is the store its history describes |
| VirtualKeys.RecordsAgree | auth/virtual_keys.py:44-277 | in histories in which field writes come while the id exists and rotations while the key they read is current, a record is live if and only if its id was generated, not deleted and has not expired, and says what the history says |
| VirtualKeys.HoldersAgree | auth/virtual_keys.py:238-246 | in such histories, the index entry of an existing id's raw key is live if and only if the key is current or in grace |
| VirtualKeys.ValidIff | auth/virtual_keys.py:94-112 | in such histories, a raw key is accepted for an id if and only if the id exists unblocked and the key is its current one or within its grace period |
| VirtualKeys.RotationKeepsAgreementIff | auth/virtual_keys.py:224-248 | after such a history, the write of a rotation keeps records and index as the history says for all time if and only if the id then exists and the key it read is its current one, or the difference does not outlive the id |
| VirtualKeys.DeletionKeepsAgreement | auth/virtual_keys.py:150-163 | the write of a deletion keeps them so, however long after its read |
| VirtualKeys.BlockSwitchesOff | auth/virtual_keys.py:140-142 | after a block none of the id's raw keys is accepted, those in grace included |
| VirtualKeys.ErasedStaysGoneIff | auth/virtual_keys.py:140-163 | a deleted record stays gone if and only if no block, unblock, update, budget reset or rotation writes it |
| VirtualKeys.DeletionSwitchesOff | auth/virtual_keys.py:150-163 | in any history, after a deletion's write no raw key of the id is accepted as long as nothing sets a field of its record |
| VirtualKeys.UnblockRestores | auth/virtual_keys.py:145-147 | unblocking undoes a block for every raw key |
| VirtualKeys.LoneWriteRevivesIff | auth/virtual_keys.py:145-147 | in any state, unblocking or updating a dead id makes a raw key acceptable if and only if its index entry is still live |
| VirtualKeys.RotationRevives | auth/virtual_keys.py:236-246 | in any state, the write of a rotation of a dead id makes its new key acceptable for good, and every other whose index entry is live |
| VirtualKeys.RotationOutlivesDeletion | auth/virtual_keys.py:150-248 | a rotation reads, the key is deleted, the rotation writes: its new key is accepted for good |
| VirtualKeys.OverlappingRotationsKeepTheMiddleKey | auth/virtual_keys.py:224-248 | two rotations read, then both write: the key of the first is accepted for ever, though neither current nor in grace |
| VirtualKeys.ExpiredKeyComesBack | auth/virtual_keys.py:238-246 | a rotated key that expired is accepted for good once its id is unblocked |
| Guardrails.DetectPii | middleware/guardrails.py:41-52 | the nested loops collect the findings of all patterns |
| Guardrails.DetectedIff | middleware/guardrails.py:44-51 | a finding is collected if and only if its own pattern matched that span |
| Guardrails.EveryKindIsLookedFor | middleware/guardrails.py:32-52 | every span that any of the five patterns matched is found, and nothing else |
| Guardrails.DetectedInOrder | middleware/guardrails.py:41-52 | findings come out pattern by pattern, and within a pattern as it matched |
| Guardrails.PlaceholdersAre | middleware/guardrails.py:59 | the placeholder of each kind |
| Guardrails.RedactPii | middleware/guardrails.py:55-61 | the loop replaces the spans from the latest start to the earliest |
| Guardrails.RedactionIsASplice | middleware/guardrails.py:55-61 | for disjoint findings in any order, the result is the original gaps in order with each finding replaced by its placeholder |
| Guardrails.OutsideSurvives | middleware/guardrails.py:60 | every character outside the findings is in the result, at its shifted place |
| Guardrails.NothingInsideSurvives | middleware/guardrails.py:60 | every character of the result is one of a placeholder or comes from outside the findings |
| Guardrails.ClusterIsRedactedAlone | middleware/guardrails.py:55-61 | findings that overlap one another between disjoint ones are redacted as if alone in the text whose part behind them is redacted already |
| Guardrails.NestedIsHarmlessIff | middleware/guardrails.py:55-61 | among disjoint findings, one inside another leaves the result as it is without it if and only if its placeholder is as long as its span, or shorter at the end of the text, and it is replaced first or of the same kind |
| Guardrails.NestedLeaksOrEats | middleware/guardrails.py:55-61 | the exact result in all cases, equal starts in either order included: a longer placeholder leaves the end of the outer finding, a shorter one takes text behind it, and one replaced last is followed by the end of the outer placeholder |
| Guardrails.OverlapKeepsTheRestIff | middleware/guardrails.py:58-60 | of two findings that overlap, exactly the text behind both is kept if and only if the earlier one ends within the later one's placeholder or no text follows |
| Guardrails.PhoneInEmailLeaks | middleware/guardrails.py:32-60 | an address with a telephone number inside keeps its last four characters |
| Guardrails.PhoneFirstInEmailIsCut | middleware/guardrails.py:32-60 | an address that begins with a telephone number becomes the number's placeholder and the end of the address's |

## Left out

- HTTP, FastAPI routing, boto3, Google auth, JWT decoding, Presidio, Langfuse, Prometheus and Slack: I/O and libraries whose code is not part of this model.
- Sleeping, backoff jitter and Retry-After parsing: they only change waiting time. Provider replies are an arbitrary sequence of outcomes.
- Hashing and random keys: hashing is taken as injective, so raw keys index the store, and new ids and keys are fresh.
- Regular expressions, tiktoken counts and JSON text: spans, token counts and JSON values are given, with the law that parsing printed JSON gives it back.
- Floating point and Lua's number printing: money, rates and levels are exact reals. The price table lookup gives a cost that is only assumed non-negative and bounded.
- Custom routing plugins, mirroring, canary split and the weights of the shuffle: the shuffle may choose any candidate.
- The OpenAI, Vertex, Bedrock and Ollama adapters, the Responses translation, and replay in the Anthropic event format (middleware/cache.py:286-304): simpler copies of what is modelled.
- Team, organisation and user CRUD, audit, role tables, health probes, configuration, model and session budgets, capped spend logs: thin or one-branch claims.
- TokenWindow.WindowNeverExceeded: is about checks made one at a time; OverlapIsBounded is about those that overlap.
- RateLimiter.Limiter.CheckAndIncrement: is one request on its own, with all its checks at its start; interleavings are in the run model. The `use_token_bucket` branch, which no caller in the repository selects, is only modelled as TokenBucket. Response headers and hit logging are omitted.
- RateLimiter.PassedRequestsFitEveryWindow: a check may reach Redis late but not before its request read the clock; a gateway clock ahead of Redis's is not modelled.
- StreamReplay.ReplayKeepsTheMeaningIff: says nothing of single streams with a choice of index 0 behind another one, whose texts may agree by chance; EveryStreamOfShapeReplaysIff decides all shapes.
- Budgets.Ledger.CheckBudget: reads all counters in one step; the reads of one request interleave with other requests in the run model of OverspendIsBounded.
- Budgets.OverspendIsBounded: says nothing about the counter of an empty user id, which is charged but never checked.
- Cooldowns.Tracker.Record: is one visit at one instant; the commands of several visits interleave in the run model.
- BusyCounter.Counters.EnterCall: is one call that no other interrupts; the commands of several calls interleave in the run model.
- Router.SelectDeployment: takes the values it reads from Redis, each at its own time, as given, and latency medians and prices too.
- RouteAndCall.Context.RouteAndCall: covers only worlds in which the loop ends, since the method must; EndsInEveryWorldIff says for which configurations these are all. Selection uses an estimate of 0 tokens, as the route passes none. Errors before the first send, such as a missing API key, end the request outside the loop.
- ResponseCache.ResponseCache.SetCachedResponse: takes SETEX, SADD and EXPIRE together, so a deletion that falls between them is not modelled. The flush of all keys is one step, and the choice of a time to live by model prefix is given.
- StreamReplay.ReplayKeepsTheMeaning: usage is not replayed by the source and is not part of the merged reply.
- Translation.TransformRequest: message contents are strings or absent, a lone stop string is a list of one, and image parts are not modelled.
- Translation.AnthropicToOpenAIRequest: a system prompt given as a list of blocks, which the adapter would print, is not modelled.
- Translation.FixedIffCanonical: assumes roles user and assistant, tool uses by the assistant only and tool results by the user only, as the Messages format requires.
- AnthropicStream.Adapter.TransformStreamChunk: lines come with their field and parsed payload; stripping blanks and splitting off the field name is not modelled. A field name must be followed by a space.
- VirtualKeys.ValidIff: assumes fresh ids and keys, field writes while the id exists and rotations while the key they read is current; RotationKeepsAgreementIff, LoneWriteRevivesIff and RotationRevives are about the other cases. The GET and HGETALL of a validation see one state. Limits and budgets carried by the record do not affect validity and are omitted.
- RouteAndCall.CallOnMarks: is about one call that no other disturbs; what calls do to the same counter together is in Cooldowns.
- Quotas.GrantsAreBounded: counts a request for the period whose key it reads, and takes calendar days as 24 hours.
- Booleans returned by blocking and unblocking and the dictionary returned by the spend increment: the stored state is described instead.
- Mutation of cached values by callers: cached values are immutable here.
