# A verified model of the Checkmarx One SDK's request, paging, comparison and polling code

This project models, in Dafny, the parts of the Go SDK that have real state or concurrency, and proves
what they keep in every run. HTTP, JSON, clocks, randomness and the network appear as adversaries: an
API may answer anything, a fetch may fail in any way, time may pass anywhere, maps may be walked in any
order and goroutines may be scheduled in any order.

`dafny verify dfyconfig.toml` checks everything.

## How it is put together

**Request funnel and token cache.** Three views of the same code are connected.

- `TokenCache` gives the atomic register (token, generation) and the class `Cached` that implements it.
- `CacheProtocol` breaks Token, Refresh and Close into machine steps (lock, look, fetch, store the token,
  bump the generation, unlock) for any number of goroutines and shows that every step either is invisible
  or performs one atomic register operation, so the steps linearize to the register.
- `Funnel` is one `Executor.Do` call as an automaton over the answers it gets; budgets, error kinds and
  the 401 rule are proved for every sequence of answers. `Executor` is `Do` as written, with response
  bodies and the timeout's cancel function as objects; what it talks to records every answer it gives, and the
  call is proved to be the run of that automaton that this record is, while other goroutines use the cache
  before and after each of its own uses. `FunnelSystem` runs any number of these automata over the machine
  steps of `CacheProtocol`.
- `Retry` is the generic attempt loop and `TokenFetch` the token request with its own retries; both a token
  request and a finished call of `Funnel` are proved to be runs of that loop.

**Pagination.** `Pages` says what a paginated upstream is; `Pagination` has the iterator class; `Users`
has the second paging loop, the user cache and its indices; `Budgets` stacks the page retries on the
funnel's attempts, and the auth retries on the funnel's token fetches.

**Scan comparison.** `Compare` (the diff), `NotExploitable` (grouping and sorting), `CompareFetch` (the
two-way concurrent fetch as an interleaving model).

**Pollers and the worker pool.** `Inspector` (verdicts on a scan), `Pollers` (the three waiting loops over
a clock), `Presets` (one preset's cache), `PresetPool` (`LoadAllDetails` as a step system with its
semaphore, wait group and per-preset mutexes).

`Errors` holds the shared result and error types, `Numbers` the arithmetic of the bounds. Imperative code is
modelled by classes and methods with loops; each is proved against a function or predicate on values, and the
laws are lemmas about those. Concurrent code is modelled by `Enabled`/`Next` step systems whose runs are
sequences of actions; "every run" means every sequence of enabled actions.

## Where code and documentation differ

The model follows the code. Each case has a concrete example or an exact condition.

- `postForm` is documented to end in an AuthError; a lost last response surfaces raw
  (`TokenFetch.FailureIsAuthErrorIff`, `TokenFetch.FailureNeedNotBeAuthError`).
- `Executor.Do` is documented to return an AuthError for every failure of the auth flow and to propagate a
  cancellation.  An AuthError comes back exactly when the error the call met is one
  (`Funnel.FailuresKeepTheirKind`, `Funnel.AuthFailureNeedNotBeAuthError`); that error comes back as it is
  exactly when it is a catalog error and not from a hopeless send, one that is neither retried nor taken for
  the caller's cancellation; so a bare cancellation never comes back (`Funnel.RawErrorReturnedIff`,
  `Funnel.CancellationIsWrapped`).
- `cached.Close` is documented to make later Token calls fail without asking IAM.  Both fetchers' close
  functions do nothing: the first Token or Refresh after a Close always asks IAM, and fails exactly when IAM
  does (`CacheProtocol.CloseNeverSilences`, `CacheProtocol.TokenAfterCloseExample`).
- `LoadAllDetails` is documented to return the first error if any fetch fails; when the context ends while it
  waits for a free slot it returns the context's error instead (`PresetPool.FirstErrorWins`).
- A Partial scan is documented to be successful only if every requested engine completed; an engine that
  never reported does not count (`Inspector.SuccessIsDocumentedIff`, `Inspector.SilentEngineDoesNotBlock`).
- `Preset.Detail` is documented to cache; after a failure followed by a success the next call returns the
  old failure (`Presets.CacheServesIff`, `Presets.CallsAskIff`, `Presets.StaleErrorExample`).
- A negative `PageRetriesMax` reads as the end of the stream without a single fetch, which is the truth exactly
  when the first page is empty (`Pagination.Iterator.EndIsTrueIff`, `Pagination.NegativeRetriesExample`).
- The two paging loops stop differently and agree exactly when nothing follows the first short page
  (`Pages.StopRulesAgreeIff`, `Pages.StopRulesDiffer`).
- Many simultaneous 401s are documented to send one token fetch; they share one successful fetch, and while
  fetches fail every waiting refresh asks IAM itself (`FunnelSystem.RefreshAsksIff`).

## Model

| member | source | states |
|---|---|---|
| `Retry.Do` | internal/retry/retry.go:209-235 | the loop stops at the first attempt that the context, the function or the timer ended, or at the last one the setting allows, and returns what ended it; a non-positive MaxAttempts means one attempt |
| `Retry.StopsAtOnce` | internal/retry/retry.go:209-235 | where a run stops is determined by what it meets |
| `Retry.DelaysAreExactlyTheDraws` | internal/retry/retry.go:65-81 | the policy's delays are exactly the values in-range draws produce, nothing overflows int64, jitter is never below one second when the maximum allows it |
| `TokenFetch.Judge` | auth/fetch.go:62-134 | which answers of the token endpoint end a fetch well, which are retried, that every other ending is an AuthError or a cancellation, and which status and cause each error carries |
| `TokenFetch.PostForm` | auth/fetch.go:42-148 | a fetch succeeds exactly when the last attempt got a 2xx with a non-empty token, and returns that token; otherwise which error comes back |
| `TokenFetch.FailureIsAuthErrorIff` | auth/fetch.go:135-146 | a failed fetch is an AuthError except when the last retryable failure was a lost response and nothing with a verdict of its own followed |
| `TokenFetch.FailureCarriesTheStatus` | auth/fetch.go:94-146 | a fetch that ended on an answer, or on the context right after one, fails with that answer's status |
| `TokenFetch.CancellationSurvivesIff` | auth/fetch.go:78-146 | a cancelled fetch reads as cancelled exactly when nothing had been retried before or the cancellation came inside an AuthError |
| `TokenFetch.FailureNeedNotBeAuthError` | auth/fetch.go:138-144 | one refused connection comes back as the raw transport error |
| `TokenCache.OperationLaws` | auth/token_cache.go:37-78 | generations never fall and rise only on a successful fetch, a failure changes nothing, Refresh of an issued generation moves strictly past it, a grant is the register's content |
| `TokenCache.Cached.Token` | auth/token_cache.go:37-44 | Token is one atomic register operation that asks IAM exactly when nothing is cached |
| `TokenCache.Cached.Refresh` | auth/token_cache.go:48-55 | Refresh is one atomic register operation that asks IAM unless the cache is past the stale generation |
| `TokenCache.Cached.FetchLocked` | auth/token_cache.go:59-67 | one IAM request; success stores its token under the next generation, failure leaves everything |
| `TokenCache.Cached.Close` | auth/token_cache.go:73-78 | the token is dropped and the generation kept |
| `CacheProtocol.StepKeepsInv` | auth/token_cache.go:24-78 | every machine step of every goroutine keeps the invariant and refines the atomic register |
| `CacheProtocol.OperationsLinearize` | auth/token_cache.go:19-55 | whatever generations are refreshed, the commits are a sequential run of the register that explains the memory; a returned operation took effect exactly once between its call and its return |
| `CacheProtocol.GenerationsAreNames` | auth/token_cache.go:59-67 | a generation never names two tokens, even across Close, and counts IAM's grants |
| `CacheProtocol.FetchesArePaidFor` | auth/token_cache.go:48-67 | successful fetches are at most one plus the distinct generations that drew a 401 plus the Closes plus the generations a Refresh replaced without a 401 on the one it named; the last are none where every Refresh follows a 401 |
| `CacheProtocol.CloseNeverSilences` | auth/token_cache.go:69-78 | in every run the first Token or Refresh after a Close asks IAM exactly once, fails exactly when IAM does, and is otherwise granted the next generation |
| `CacheProtocol.TokenAfterClose` | auth/token_cache.go:37-78 | a Token after a Close asks IAM exactly when nothing was granted since that Close; whatever it is granted is newer than what was dropped |
| `CacheProtocol.TokenAfterCloseExample` | auth/token_cache.go:69-78 | Token, Close, Token: the third operation asks IAM again and succeeds under generation 2 |
| `CacheProtocol.RefreshersShareOneFetch` | auth/token_cache.go:46-55 | without Close, all refreshes of one issued generation share one successful fetch, which creates the next generation; none after it asks IAM |
| `CacheProtocol.RefreshAsksIff` | auth/token_cache.go:46-55 | without Close, a refresh of an issued generation asks IAM exactly when no fetch before it was granted the next one |
| `CacheProtocol.SomebodyCanMove` | auth/token_cache.go:37-78 | no operation is ever stuck |
| `CacheProtocol.EveryScheduleEnds` | auth/token_cache.go:37-78 | operations finish under every scheduler: without new calls n goroutines take at most 7 n more steps |
| `Funnel.DoStaysInBudget` | internal/transport/executor.go:146-239 | with N attempts: at most N+1 sends, one refresh, N token requests, (N-1) maximal delays and 4N+2 answers; a returned response cost exactly one send per attempt plus one for the refresh |
| `Funnel.OutcomeIsCatalogued` | internal/transport/executor.go:215-262 | Do returns its last answer, never a retryable status; every error is a catalog error; a status error only after the whole budget |
| `Funnel.AnswersDecide` | internal/transport/executor.go:146-239 | what every answer leads to in every run: a transient lost response and the statuses 500, 502, 503 and 504 are retried while fewer tokens were asked for than attempts allowed and fail the call only then; a first 401 is refreshed away; every other status is handed back; every other error ends the call |
| `Funnel.TransientFailureIsRetried` | internal/transport/executor.go:170-174 | a refused connection on the first of three attempts leads to a sleep |
| `Funnel.FailuresKeepTheirKind` | internal/transport/executor.go:241-261 | every failure that is not a status carries an error the call met, and reads as an AuthError, or as cancelled, exactly when that error does |
| `Funnel.RawErrorReturnedIff` | internal/transport/executor.go:162-261 | the error met is returned as it is exactly when it is from the catalog and not from a hopeless send; every other one is wrapped; Canceled and DeadlineExceeded never come back bare |
| `Funnel.CancellationEndsTheCall` | internal/transport/executor.go:149-212 | a cancellation ends the call wherever it is noticed, and the caller's error still reads as one |
| `Funnel.CancellationIsWrapped` | internal/transport/executor.go:77-79 | a call under a cancelled context returns a CommunicationError |
| `Funnel.AuthFailureNeedNotBeAuthError` | internal/transport/executor.go:77-79 | an unreachable token endpoint returns no AuthError |
| `Funnel.CallIsARetryLoop` | internal/transport/executor.go:146-261 | a finished call stops at the attempt where the attempt loop stops, with a response exactly when the loop succeeds and otherwise with its error, wrapped |
| `Funnel.GenerationsNeverFall` | internal/transport/executor.go:152-200 | the generations sent in one call never fall and rise strictly at the re-send |
| `Funnel.Returned401MeansTwoRejections` | internal/transport/executor.go:184-237 | a 401 comes back only after two different generations were rejected in that call |
| `Executor.Executor.Do` | internal/transport/executor.go:84-272 | the record of what the context, the authenticator, the API and the timer answered during the call is a run of the automaton that ends in what Do returns; every token sent is the one IAM granted under its generation and every denial is IAM's; the status and the body returned are those of the last answer; afterwards that body is the only open one, and the timeout is cancelled before every error return and left to the body on success; a call that fails on an answer worth retrying used up its attempts |
| `Executor.Environment.Token` | auth/token_cache.go:37-44 | the authenticator's reply is the cache's: a grant carries IAM's token under its generation, a denial the error IAM gave during the call; other goroutines use the cache before and after |
| `Executor.Environment.Refresh` | auth/token_cache.go:48-55 | the same for a refresh, whose grant is strictly newer than the generation named |
| `Executor.Environment.SendOnce` | internal/transport/executor.go:294-376 | a send can fail anywhere; only an answer opens a body; a token may be sent only under the generation it was granted |
| `Executor.Executor.Attempts` | internal/transport/executor.go:139-261 | the retry loop around the closure: on success the last answer's body is open, every other one closed |
| `Executor.Executor.Attempt` | internal/transport/executor.go:146-239 | one iteration ends answered with the last answer, given up or at the head of the next one, with what it opened accounted for |
| `Executor.Executor.Authorize` | internal/transport/executor.go:149-158 | the context is asked first, then the authenticator; a denial ends the call, and the token handed on is what IAM granted under its generation |
| `Executor.Executor.Transmit` | internal/transport/executor.go:160-160 | one send carries the token held, is remembered with its answer, and opens a body only when answered |
| `Executor.Executor.SendAndJudge` | internal/transport/executor.go:160-238 | the first send uses the token just obtained |
| `Executor.Executor.Judge` | internal/transport/executor.go:183-238 | only a first 401 is refreshed away, and its body is closed; what is handed back is the last answer with its own body |
| `Executor.Executor.TransportError` | internal/transport/executor.go:162-181 | cancellation and unknown failures end the call, transient ones are retried |
| `Executor.Executor.RefreshAndResend` | internal/transport/executor.go:183-213 | after a 401: one refresh and one send off the budget |
| `Executor.Executor.Reauthorize` | internal/transport/executor.go:191-195 | the authenticator's refresh is asked once; its generation is strictly above the one sent and its token is what IAM granted under it |
| `Executor.Executor.Resend` | internal/transport/executor.go:200-212 | the second send carries the refreshed token |
| `Executor.Executor.Finish` | internal/transport/executor.go:218-238 | a retryable status is drained and retried, any other is handed back open |
| `Executor.Executor.BackOff` | internal/retry/retry.go:224-231 | the last attempt gives up with its own error; an earlier one sleeps an allowed delay, and gives up with the timer's error only if it was interrupted |
| `Executor.Close` | internal/transport/executor.go:283-289 | closing the returned body cancels the timeout, and exactly once however often it is closed |
| `Executor.Canceller.Cancel` | internal/transport/executor.go:113-118 | the cancel function fires at most once |
| `FunnelSystem.GrantsAreBounded` | internal/transport/executor.go:146-213 | for any number of calls in any interleaving IAM grants at most one token more than there are generations some call was answered 401 to, plus one per Close |
| `FunnelSystem.RefreshersShareOneFetch` | internal/transport/executor.go:183-195 | without Close, of all Do calls answered 401 under one generation at most one fetches successfully and none after it asks IAM; that fetch creates the next generation and everybody is granted something newer |
| `FunnelSystem.RefreshAsksIff` | internal/transport/executor.go:183-195 | without Close, of those Do calls exactly the ones that refresh before the first grant of the next generation ask IAM |
| `FunnelSystem.CallsAreWellServed` | internal/transport/executor.go:152-200 | every request of every call carries the token IAM granted under its generation, and generations rise within a call |
| `FunnelSystem.Returned401MeansTwoRejections` | internal/transport/executor.go:183-238 | the 401 rule holds in every interleaving, with both rejections on record |
| `FunnelSystem.AtMostTwoFetches` | internal/transport/executor.go:152-191 | without Close one call makes at most two token requests to IAM, failed ones included |
| `FunnelSystem.EveryScheduleEnds` | internal/transport/executor.go:146-239 | calls finish under every scheduler: with N attempts a call takes at most 32 N + 16 steps, those of other goroutines aside |
| `FunnelSystem.SomebodyCanMove` | internal/transport/executor.go:146-239 | no unfinished call is ever stuck |
| `FunnelSystem.NothingIsRefused` | internal/transport/executor.go:191-191 | what the calls ask of the cache is always possible; they only refresh generations that were issued and rejected |
| `FunnelSystem.StepKeepsInv` | auth/token_cache.go:37-67 | every step of the whole system keeps the cache's and every call's invariant |
| `Pages.BothStylesServe` | pagination/iterator.go:225-238 | offset addressing and page-number addressing both cut the list into its pages |
| `Pages.EndOfList` | pagination/iterator.go:11-14 | a list of m items ends at page ceil(m/P), has its first short page at floor(m/P), and either way the pages make up the list |
| `Pages.StopRulesAgreeIff` | workflows/users/reader.go:132-135 | stopping at the first short page and at the first empty page read the same stream exactly when nothing follows the first short page |
| `Pages.StopRulesDiffer` | workflows/users/reader.go:132-135 | with a short page in the middle the first rule reads one item and the second two |
| `Pagination.Iterator.constructor` | pagination/iterator.go:151-158 | a new iterator stands at the initial offset with the defaults filled in |
| `Pagination.Iterator.TryOnce` | pagination/iterator.go:199-214 | one attempt either gets the page at the offset and advances, or reports one failure and consumes nothing; a failure ends the fetch exactly when it is the context's or may not be retried |
| `Pagination.Iterator.FetchNextPage` | pagination/iterator.go:192-223 | success is exactly the next page; an error is the last failure met and consumes nothing; one that may be retried surfaces after exactly the whole retry allowance unless the context or a sleep was interrupted |
| `Pagination.Iterator.Refill` | pagination/iterator.go:174-183 | a non-empty page is buffered, an empty one marks the iterator exhausted, an error is the last failure met and consumes nothing |
| `Pagination.Iterator.Next` | pagination/iterator.go:169-187 | an item extends what was handed out by exactly the next item of the stream; an error is the last failure met and consumes nothing; the end is reported exactly as truly as `EndIsTrueIff` says |
| `Pagination.Iterator.EndIsTrueIff` | pagination/iterator.go:169-223 | a reported end is the end of the stream, with everything before it handed out, exactly when the retry setting is not negative or the first page is empty |
| `Pagination.NegativeRetriesExample` | pagination/iterator.go:196-222 | with a negative retry setting the first Next reports the end of a stream of one item |
| `Pagination.Iterator.All` | pagination/iterator.go:253-270 | the consumer sees exactly what was handed out, and another item exactly while it wants one; an error is the last failure met; a walk neither broken nor failed ends at the end |
| `Pagination.Iterator.Collect` | pagination/iterator.go:278-290 | Collect returns the rest of the stream, or what came before the last failure met; the number of fetch calls is bounded below and above, the failing page's retries included |
| `Pagination.Iterator.WalksTheList` | pagination/iterator.go:278-290 | what was handed out is always a prefix of the upstream list; at the end it is the list, after ceil(m/P)+1 successful fetches |
| `Pagination.CollectList` | pagination/iterator.go:94-290 | New and Collect over any upstream that serves a list, in terms of the configuration's own fields: without an error the list after ceil(m/P)+1 pages; an error is the last failure met; a cancellation or an error the retry test refuses ends the walk at once; otherwise only more failures than retries do, 5 by default; one sleep of the configured length, three seconds by default, before each retry |
| `Pagination.FewFailuresDoNoHarm` | pagination/iterator.go:192-223 | without a retry test, an uninterrupted walk that meets no cancellation and no more failures than retries returns the list |
| `Pagination.CollectInEitherStyle` | pagination/iterator.go:151-290 | the same for item offsets from any starting point and for page numbers |
| `Budgets.CollectSends` | pagination/iterator.go:192-223 | a Collect of an iterator over a list of m items makes at most (ceil(m/P)+1)(R+1)(N+1) API sends when every fetch call is a Do, whatever they meet |
| `Budgets.TokenRequestsOfOneDo` | auth/fetch.go:42-148 | without Close, in every interleaving one Do takes at most 2 * (attempts of the auth policy) requests to the token endpoint |
| `Users.FetchAllUsers` | workflows/users/reader.go:121-138 | all pages up to and including the first short one, exactly when none of those fetches fails; otherwise the error of the first failing fetch and nothing else |
| `Users.ReadBothWays` | workflows/users/reader.go:121-138 | for every list-backed upstream fetchAllUsers and Collect both return that list unless a fetch fails, in floor(m/100)+1 and ceil(m/100)+1 fetches |
| `Users.LastMatchIsTheLast` | workflows/users/reader.go:52-64 | an index lookup is the last user with that value; the empty email and username are never found |
| `Users.UserReader.EnsureLoaded` | workflows/users/reader.go:38-67 | a load succeeds exactly when it was done before or none of its fetches fails; then the three indices agree with the list; otherwise the first failure comes back and the cache stays unloaded |
| `Users.UserReader.List` | workflows/users/reader.go:70-79 | the loaded list, the same on every later call; an error only if the load fails |
| `Users.UserReader.By` | workflows/users/reader.go:82-109 | every lookup answers with the last match of a scan of the list; an error only if the load fails |
| `Compare.ByIdHoldsTheIds` | workflows/scans/compare.go:207-220 | the map holds exactly the filtered identities, each with a finding of that identity |
| `Compare.LastWins` | workflows/scans/compare.go:207-220 | the map holds the last passing finding of every identity |
| `Compare.LaterFindingIsCounted` | workflows/scans/compare.go:214-220 | of two findings of one identity the later one's severity is counted |
| `Compare.DiffResults` | workflows/scans/compare.go:204-256 | whatever order the maps are walked in: every identity is counted once, under the severity of the last passing finding that has it, as new, recurrent or resolved; a severity is listed exactly when something is counted under it; Totals is the set algebra of the identities |
| `Compare.IdentitiesAreConserved` | workflows/scans/compare.go:230-254 | New plus Recurrent is the number of distinct identities of the new scan, Resolved plus Recurrent of the old |
| `Compare.TotalsSumTheBuckets` | workflows/scans/compare.go:250-254 | every enumeration of the buckets sums to Totals |
| `Compare.SwappingSwaps` | workflows/scans/compare.go:230-254 | swapping the scans swaps New and Resolved per severity and keeps total Recurrent |
| `Compare.RecurrentIsNotSymmetricPerSeverity` | workflows/scans/compare.go:231-239 | Recurrent per severity is not kept by swapping |
| `Compare.ChainsTelescope` | workflows/scans/compare.go:230-254 | over any chain of scans net changes telescope and New overall is at most the sum of New over the steps |
| `Compare.FilteringCommutes` | workflows/scans/compare.go:207-220 | when identity determines severity, filtering by severity before the diff equals restricting the diff |
| `Compare.FilteredTotals` | workflows/scans/compare.go:207-254 | and its Totals are the sum of the kept buckets of the unfiltered comparison |
| `NotExploitable.Tally` | workflows/scans/compare.go:264-282 | the grouping map has one row per suppressed name with its count and first severity |
| `NotExploitable.GroupNotExploitable` | workflows/scans/compare.go:263-294 | the table: distinct names, right counts, counts never rising and equal counts in alphabetical order |
| `NotExploitable.RowsMean` | workflows/scans/compare.go:265-282 | a row's count is the number of findings in one of the two suppressed states that pass the filters and have its name, its severity that of the first of them |
| `NotExploitable.TableIsUnique` | workflows/scans/compare.go:283-292 | no map order and no choice of the unstable sort can change the table |
| `NotExploitable.OutlineIsPermutable` | workflows/scans/compare.go:264-293 | permuting the findings changes neither names nor counts nor their order |
| `NotExploitable.CountsAddUp` | workflows/scans/compare.go:265-282 | the counts sum to the suppressed findings that pass the filters |
| `CompareFetch.FirstErrorIsGenuine` | workflows/scans/compare.go:142-191 | on return both goroutines have ended, both lists come back exactly when both fetches succeeded, and the error is never the one the internal cancel provoked |
| `CompareFetch.FirstErrorCancels` | workflows/scans/compare.go:153-160 | once the first error is recorded and its goroutine has left the lock the shared context is cancelled, and nothing else cancels it |
| `CompareFetch.SomebodyCanMove` | workflows/scans/compare.go:142-191 | the two-way fetch cannot deadlock |
| `CompareFetch.EveryScheduleEnds` | workflows/scans/compare.go:142-191 | it ends under every scheduler, within eleven steps |
| `Inspector.PartialBucket` | workflows/scans/inspector.go:192-241 | the one-pass loop computes the quantified meaning of the bucket |
| `Inspector.BucketIgnoresOrder` | workflows/scans/inspector.go:205-226 | the bucket does not depend on the order or repetition of entries and engines |
| `Inspector.UnrequestedEntriesAreIgnored` | workflows/scans/inspector.go:205-208 | entries of engines nobody asked for change nothing when the scan names its engines |
| `Inspector.OneVerdict` | workflows/scans/inspector.go:112-147 | at most one of Executing, Successful and Failed holds, and one does exactly for the known statuses |
| `Inspector.VerdictsMean` | workflows/scans/inspector.go:112-241 | exactly when a scan is executing, successful and failed, for a Partial one in terms of its relevant entries |
| `Inspector.SuccessIsDocumentedIff` | workflows/scans/inspector.go:173-179 | the code's success is the documented rule exactly when every requested engine has an entry |
| `Inspector.DocumentedSuccessIsSuccess` | workflows/scans/inspector.go:173-179 | whenever the documented rule holds the code agrees |
| `Inspector.SilentEngineDoesNotBlock` | workflows/scans/inspector.go:205-238 | a requested engine without an entry does not block success |
| `Pollers.Clock.SleepUntil` | workflows/scans/waiter.go:102-119 | one timer, for the interval or for what is left before the deadline when that is less, and none after it |
| `Pollers.ScanInspector.Refresh` | workflows/scans/inspector.go:100-107 | a refresh replaces the snapshot or leaves it |
| `Pollers.WaitUntilComplete` | workflows/scans/waiter.go:46-85 | at most ceil(D/I) refreshes even if the scan runs forever, the wait ends at the first terminal snapshot, and the verdict is that snapshot's; every timer is set for the poll interval, 10 s by default, or for what is left before the deadline, and a refresh follows each that fires; without a verdict the error is the context's, or DeadlineExceeded at or after the deadline |
| `Pollers.ScheduleBounds` | workflows/scans/waiter.go:102-119 | after k sleeps k is at most ceil(D/I) |
| `Pollers.Handle.Poll` | workflows/reports/reports.go:222-242 | a poll overwrites both fields or neither |
| `Pollers.Handle.Wait` | workflows/reports/reports.go:261-292 | at most ceil(D/I)+1 polls, one more than timers fired, all set for the poll interval or what is left; the last poll decides, every earlier one was undecided; an undecided wait ends with the context or the deadline |
| `Pollers.WaitForRequest` | workflows/audit/waiter.go:26-63 | one poll more than completed sleeps, exactly half as many heartbeats, at most ceil(D/I)+1 polls, all timers set for the poll interval or what is left; the last poll decides; an undecided wait ends with the context or the deadline |
| `Presets.Preset.Detail` | workflows/presets/reader.go:225-248 | one call as a function of the cache and the platform's answer |
| `Presets.CacheServesIff` | workflows/presets/reader.go:228-247 | after a successful fetch the next call is served from the cache exactly when the call before that fetch did not fail |
| `Presets.CallsAskIff` | workflows/presets/reader.go:225-248 | the platform is asked by the first call and after every error handed out, by no other; what every other call answers |
| `Presets.OneFetchWhenNoneFails` | workflows/presets/reader.go:225-248 | where no fetch fails, the platform is asked once and every call answers alike |
| `Presets.StaleErrorExample` | workflows/presets/reader.go:229-235 | failure, success, and then the old failure again |
| `PresetPool.StepKeepsInv` | workflows/presets/reader.go:148-189 | every step keeps the semaphore, the wait group, the mutexes and the caches consistent |
| `PresetPool.AtMostEightInFlight` | workflows/presets/reader.go:153-170 | never more than 8 of the pool's Detail calls are in flight |
| `PresetPool.ReturnsAfterAll` | workflows/presets/reader.go:164-188 | on return every started goroutine is gone; nil means every preset's call succeeded |
| `PresetPool.NilIff` | workflows/presets/reader.go:160-189 | nil exactly when the context is alive and every preset's call succeeded; otherwise the context's error or some goroutine's |
| `PresetPool.FirstErrorWins` | workflows/presets/reader.go:164-189 | unless the loop was given up, the error is that of the goroutine that recorded one first, if any, and the context's otherwise; if it was, it is the context's |
| `PresetPool.WarmsEveryCache` | workflows/presets/reader.go:141-189 | while no fetch fails and the context lives, it returns nil with every preset's detail cached and asked for exactly once |
| `PresetPool.EmptyPoolReturnsNil` | workflows/presets/reader.go:184-188 | no presets and a live context give nil |
| `PresetPool.AtMostOneRequestEach` | workflows/presets/reader.go:225-248 | where no fetch fails each preset is asked for at most once, whoever calls Detail |
| `PresetPool.NeverStuck` | workflows/presets/reader.go:164-184 | the pool cannot deadlock |
| `PresetPool.EveryScheduleEnds` | workflows/presets/reader.go:148-189 | it ends under every scheduler once no new calls come from outside |
| `PresetPool.TenStepsAPreset` | workflows/presets/reader.go:148-189 | alone, a run over n presets is at most 10 n + 2 steps |

## Left out

- HTTP, JSON, URL and header building, TLS and proxies: a send is a status, a lost response or a
  cancellation, a page fetch a list or an error.
- The text-based test for transient network errors: an arbitrary verdict that is false on cancellation.
- Logging, metrics, tracing and the After interceptors: side channels; a failing Before interceptor is one of
  the ways a send can fail.
- Responses without a body: net/http always supplies one.
- Wrap-around of the uint64 generation counter and of int offsets and counts: generations, offsets and
  counts are unbounded; delays are shown to stay within int64.
- Real time and random numbers: a clock that advances at least by each completed sleep, and any draw in range.
- `Executor.Executor.Do`: other goroutines act on the cache between its steps one whole operation at a time;
  that this is no restriction is what `CacheProtocol.OperationsLinearize` says.
- `Pagination.Iterator.Collect`: takes the index of the first empty page, without which the Go loop does not
  end either; an upstream that changes under the walk is not modelled.
- `Users.FetchAllUsers`: takes the index of the first short page for the same reason.
- `Pollers.WaitUntilComplete`, `Pollers.Handle.Wait`, `Pollers.WaitForRequest`: without a deadline they take
  the index of an answer that ends the wait, for the same reason.
- Requests that never come back: in the step systems an answer, whatever it is, is one step.
- Page fetchers that make more than one Do call; the iterator accepts any function.
- `Users.UserReader`: the mutex; calls are whole operations, as the lock makes them.
- `NotExploitable.Sort`: a stand-in for the library sort; its contract promises only an ordered rearrangement.
- Validation of the arguments of Compare, the progress callback, the time stamp and the identity label of the
  comparison.
- The level-1 preset list, its name sort and the name and id maps: a lazy load as in the user reader.
- Nil inspectors in the waiters and loggers: one-branch guards.
- Endpoints, models, regions, links, redaction, the invoker and report builders, roles, clients, groups,
  ProjectRepoConfig, the migration waiter and the GraphQL iterator: thin wrappers, tables, setters, or loops
  of a kind already modelled.
