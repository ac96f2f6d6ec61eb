# Correctness kernel of the governance proxy

A Dafny 4.11 model of the backend's concurrent protocols and of the algorithms they rest on, with
proofs over every input, every run and every interleaving. Check it with `dafny verify dfyconfig.toml`.

| file | subject |
|---|---|
| `refresh_rotation.dfy` | refresh-token rotation: find, claim, persist, family revocation, grace window |
| `admin_transactions.dfy` | audited role, team, status, policy and retention changes under snapshot isolation |
| `idempotency.dfy` | reserve, complete and release scripts, driven by concurrent chat requests |
| `chat_stream.dfy` | one chat request from preparation over the streaming loop to accounting |
| `provider_retry.dfy`, `provider_fallback.dfy`, `circuit_breaker.dfy` | bounded retry, ordered fallback, circuit breaker with many operations in flight |
| `pii_masking.dfy`, `pii_detection.dfy` | span merging and masking; overlap resolution and the Luhn check |
| `request_log.dfy`, `billing.dfy` | row validity, sums by group, budgets, reservations and rollups |
| `analytics.dfy` | daily aggregates and their guarded upsert |
| `job_ledgers.dfy` | ledgers of the billing and analytics workers, and the rollups they write |
| `recovery.dfy` | recovery records, the discovery loop, concurrent scanners |
| `audit_csv.dfy` | the audit export and an independent RFC 4180 reader |
| `pagination.dfy` | keyset pagination with nullable keys |
| `prelude.dfy` | options, fresh ids, the stable library sort |

How the protocols are modelled. Each store operation is one atomic step. A state holds the store and every
request or worker in flight; a total function gives the next state for an event, an event that is not enabled
changes nothing, and a run is any list of events. Theorems are about all runs. Operations may fail before or
after their effect, requests may stop anywhere, records may expire. Fields that only record history (issue
order, completions, positions in the log) are never read by a step. Objects that are updated in place are
classes, and loops are methods; their postconditions tie them to the functions the theorems are about.

Every protocol has two kinds of theorems. One says what an operation answers, and what it leaves behind, when
nothing comes in between, for every outcome of its calls: `RefreshIsAnswered`, `AloneAnswers`, `StreamChat`,
`StartedRequestEnds`, `BillingJobEnds`, `ScanRecovers`, `AloneBringsUpToDate`. The other says what holds in every
run, whatever comes in between.

Where a natural claim is false of the code, the code is kept, and the exact condition under which it holds is proved:

- A family revocation does not reach a replacement stored afterwards: `RevocationRemovesIff`, `RevocationIsFinalIff`.
- A retention change to the mode already stored saves an unmodified organisation document, which writes nothing and
  so takes part in no conflict; its audit row can then name a stale old value: `FullChainBreaksIff`.
- A reservation that expires before its request has decided lets two requests start the provider in one period of
  the key: `ExpiryIsSafeIff`.
- An operation begun before the half-open period can free a trial slot it never took: `OverAdmissionIff`.
- A late success of an earlier operation closes an open circuit before its cooldown is over: `StaysOpenIff`,
  `ClosesEarlyIff`.
- The analytics guard does not protect the first write of a day: the newer of two concurrent first writers can
  finish without being reflected: `FirstWriteCanBeLost`, `LostIff`.
- The two analytics queries may see different logs: `ProvidersAgreeIff`.
- The billing rollup is overwritten without a guard: `RollupCanGoBack`, `WriteGoesBackIff`.
- Billing retries run beside the holder of the claim: `RetryOverlaps`, `ExclusiveIff`.
- Recovery marks have no state filter: `CompletedCanReopen`, `ReopensIff`.
- A job whose enqueuing fails and whose failure cannot be recorded either is dropped without an error:
  `AccountingIsSound`, `BlockedHands`.
- A formula and the same text behind an apostrophe export alike: `NeutralizedCollides`.

Assumptions. Generated ids are distinct and tokens are identified by their hash. A multi-document update is one
step. The write to the organisation document made by `lockOrganisation` always changes it. Aggregations read one
state of the log. Group sums reach the application rounded to a representable number; rounding is exact up to
2^53 and never falls below that from above. A pattern's global matches do not overlap. Sending the response
headers does not itself fail. Characters stand for code units; ids and dates for their place in their order;
periods are half-open intervals.

## Model

| member | source | states |
|---|---|---|
| `RefreshRotation.RefreshTokenStore.ClaimForRotation` | `backend/src/features/auth/auth.repository.ts:82-109` | compare-and-set: succeeds exactly for an unexpired, unused, unrevoked token of that organisation, returns the document before the update, sets `usedAt` and the successor together, and cannot succeed a second time |
| `RefreshRotation.RefreshTokenStore.PersistReplacement` | `backend/src/features/auth/auth.repository.ts:111-129` | inserts a fresh unused token, or fails on a taken id and changes nothing |
| `RefreshRotation.RefreshTokenStore.RevokeFamily` | `backend/src/features/auth/auth.repository.ts:131-157` | marks every not yet revoked token of the family, organisation, user and session; afterwards none of them is live |
| `RefreshRotation.StepKeepsInv` | `backend/src/features/auth/auth.service.ts:577-807` | every step of every login, refresh, logout, revocation, expiry or crash keeps each family one chain of tokens in issue order, its stored tokens linked to their successors, and every rotation in progress at the end of its chain |
| `RefreshRotation.RunKeepsInv` | `backend/src/features/auth/auth.service.ts:577-880` | that invariant holds along every run, whatever the interleaving and the failures |
| `RefreshRotation.ClaimableIsLast` | `backend/src/features/auth/auth.repository.ts:82-109` | a token that can be claimed is the last of its chain and no rotation of its family is pending |
| `RefreshRotation.AtMostOneHolder` | `backend/src/features/auth/auth.service.ts:577-807` | in every run a family has, in all, at most one live token or unfinished rotation |
| `RefreshRotation.FamilyIsAChain` | `backend/src/features/auth/auth.repository.ts:111-129` | in every run a family shares one organisation, user and session, no token has two predecessors, and a token is used exactly when it has a successor |
| `RefreshRotation.ClaimedAtMostOnce` | `backend/src/features/auth/auth.repository.ts:82-109` | over every run a token is claimed effectively at most once |
| `RefreshRotation.SpentIsFinal` | `backend/src/features/auth/auth.repository.ts:82-109` | a used token is never claimed again, even after it expired from the store |
| `RefreshRotation.GrantsAreRotations` | `backend/src/features/auth/auth.service.ts:663-807` | in every run no token is handed to two requests, and each one handed out was stored as the successor of an earlier token of its family |
| `RefreshRotation.RevocationLeavesNoneLive` | `backend/src/features/auth/auth.repository.ts:131-157` | the four-field filter of a revocation reaches every stored token of the family |
| `RefreshRotation.BarrenForever` | `backend/src/features/auth/auth.service.ts:577-807` | a family without live tokens and pending rotations stays so, and grants nothing more once no rotation is unanswered |
| `RefreshRotation.StaysDeadIff` | `backend/src/features/auth/auth.service.ts:663-807` | from a state without a live token of the family, none is ever live again if and only if no rotation is between its claim and its persist |
| `RefreshRotation.GrantsNoMoreIff` | `backend/src/features/auth/auth.service.ts:663-807` | from such a state the family grants nothing more if and only if no rotation is unanswered |
| `RefreshRotation.RevocationRemovesIff` | `backend/src/features/auth/auth.service.ts:906-930` | after a logout, a revocation by a refresh or one by an administrator, no token of the family is ever live again if and only if it did not land between a claim and its persist |
| `RefreshRotation.RevocationIsFinalIff` | `backend/src/features/auth/auth.service.ts:809-880` | after any of these revocations no refresh of the family ever succeeds if and only if no rotation was in progress |
| `RefreshRotation.ReuseDetection` | `backend/src/features/auth/auth.service.ts:612-643` | presenting a used token again changes no token within the grace window and revokes the whole family after it |
| `RefreshRotation.RefreshIsRefused` | `backend/src/features/auth/auth.service.ts:577-661` | a refresh with nothing in between whose query fails is Unavailable; an unknown, revoked or expired token is Invalid; a used one is Concurrent within five seconds of its use and Invalid after; no token changes, except that late reuse marks exactly the unmarked tokens of its family and owner |
| `RefreshRotation.RefreshIsAnswered` | `backend/src/features/auth/auth.service.ts:663-807` | a live token in time: granted exactly when the claim is answered, organisation and user are active, and storing and signing work; the presented token is then used and the new one stored live, of the same family and owner, with the new expiry; an inactive account is Invalid, any other failure Unavailable, and a failure after the claim revokes exactly the family |
| `RefreshRotation.LateClaimIsAnswered` | `backend/src/features/auth/auth.service.ts:674-711` | a claim that comes too late changes no token and is answered Concurrent |
| `RefreshRotation.RaceHasOneClaim` | `backend/src/features/auth/auth.service.ts:674-711` | of two refreshes that find the same live token, the second to claim is answered Concurrent |
| `RefreshRotation.LoginCanRefresh` | `backend/src/features/auth/auth.service.ts:663-807` | right after a login its token can be refreshed until it expires |
| `RefreshRotation.LogoutAnswers` | `backend/src/features/auth/auth.service.ts:809-880` | a logout answers LoggedOut for a known or unknown token, Unavailable when a call fails, and marks exactly the family of the token presented |
| `RefreshRotation.AdminRevokeIsExact` | `backend/src/features/admin/admin.mutation.service.ts:347-359` | an administrator's revocation marks exactly the user's unmarked tokens of the organisation |
| `RefreshRotation.GrantedTheWholeWay` | `backend/src/features/auth/auth.service.ts:577-807` | in every run, whoever is granted a token made its own find, an answered claim, a load of an active account, a store and a signature, in this order |
| `AdminTransactions.Session.ChangeUserRole` | `backend/src/features/admin/admin.mutation.service.ts:29-59` | answers the request: refused for an unknown user, for an active lead without a team, or when the last active administrator would go; otherwise the user has the requested role with its permissions, nothing else is different, and one row names the old and new role |
| `AdminTransactions.Session.ChangeUserTeam` | `backend/src/features/admin/admin.mutation.service.ts:61-97` | the same for a team change: refused for an unknown user or team, or when an active lead would have none; otherwise only the team is as requested |
| `AdminTransactions.Session.ChangeUserStatus` | `backend/src/features/admin/admin.mutation.service.ts:99-134` | the same for the status: ACTIVE or DISABLED as requested, under the same two conditions |
| `AdminTransactions.Session.UpdateOrganisationPolicy` | `backend/src/features/admin/admin.mutation.service.ts:161-233` | each requested threshold, limit and budget is stored and the others are kept, if they fit together, and otherwise nothing changes; one row for changed policy and one for a changed budget |
| `AdminTransactions.Session.UpdateOrganisationRetention` | `backend/src/features/admin/admin.mutation.service.ts:235-260` | stores the requested mode, and nothing else is different; one row, also for an unchanged mode |
| `AdminTransactions.ApplyAnswers` | `backend/src/features/admin/admin.mutation.service.ts:29-260` | what a transaction does with the data it reads is the answer to its request, stated from the request and the data alone |
| `AdminTransactions.PermissionTable` | `backend/src/features/users/user.types.ts:30-38` | who may do what |
| `AdminTransactions.AloneAnswers` | `backend/src/features/audit/audit.service.ts:23-49` | a transaction that meets no other one commits that answer with its rows, or leaves data and log as they are |
| `AdminTransactions.ApplyKeepsRule` | `backend/src/features/admin/admin.mutation.service.ts:322-345` | every mutation on its own keeps an active administrator, teams for active leads, and permissions equal to the role's |
| `AdminTransactions.StepKeepsInv` | `backend/src/features/audit/audit.service.ts:23-49` | under snapshot isolation whoever holds the organisation document reads current data, and at most one transaction holds it |
| `AdminTransactions.RulesHoldInEveryRun` | `backend/src/features/admin/admin.mutation.service.ts:29-134` | over every interleaving of any number of transactions, retries included, the three rules survive |
| `AdminTransactions.CommitAnswersStoredData` | `backend/src/features/audit/audit.service.ts:23-49` | in every run, a commit that wrote the organisation document answers its request from the data stored at that very moment, and any other changes no data |
| `AdminTransactions.WritesMakeStale` | `backend/src/features/audit/audit.service.ts:23-49` | whoever writes a user's document, every other transaction about the user that has not written it is stale from then on |
| `AdminTransactions.StaleNeverWrites` | `backend/src/features/audit/audit.service.ts:23-49` | a stale transaction never writes, whatever happens, until it is aborted and begun anew |
| `AdminTransactions.SkewLosesAdmins` | `backend/src/features/admin/admin.mutation.service.ts:337-345` | without the organisation write two self-demotions leave no active administrator |
| `AdminTransactions.LastAdminSafeIff` | `backend/src/features/admin/admin.mutation.service.ts:322-345` | the last-administrator check is safe in all runs if and only if user mutations write the organisation document |
| `AdminTransactions.ApplyReplays` | `backend/src/features/admin/admin.mutation.service.ts:46-57` | a mutation's audit rows carry its data from before to after |
| `AdminTransactions.AuditLogReplays` | `backend/src/features/audit/audit.service.ts:23-49` | in every run the committed log replays from the initial to the stored data, every row that records a change starting from the value left by the rows before it |
| `AdminTransactions.FullChainReplays` | `backend/src/features/admin/admin.mutation.service.ts:235-260` | the chain is gapless for all rows when saving always writes, or when nobody asks for the stored retention mode |
| `AdminTransactions.FullChainBreaksIff` | `backend/src/features/admin/admin.mutation.service.ts:248-256` | when an unchanged document is not written, the full chain can break from a state exactly when a retention change to the mode it read is in flight |
| `Idempotency.IdempotencyStore.Reserve` | `backend/src/shared/idempotency/idempotency.service.ts:119-204` | reserves an absent key; otherwise leaves the store unchanged and refuses with the one reason that applies: in progress, already completed, other fingerprint, unreadable record |
| `Idempotency.IdempotencyStore.Complete` | `backend/src/shared/idempotency/idempotency.service.ts:40-54` | completes the key only for the request that holds it in processing |
| `Idempotency.IdempotencyStore.Release` | `backend/src/shared/idempotency/idempotency.service.ts:56-69` | deletes the key only for the request that holds it in processing |
| `Idempotency.Reservation.MarkCompleted` | `backend/src/shared/idempotency/idempotency.service.ts:231-308` | completes through the script and reports whether this request held the key |
| `Idempotency.Reservation.ReleaseBeforeExecution` | `backend/src/shared/idempotency/idempotency.service.ts:231-308` | releases only while the provider run has not begun |
| `Idempotency.RunKeepsInv` | `backend/src/shared/idempotency/idempotency.service.ts:119-308` | the ownership invariant over every run of any number of requests, with lost calls, lost answers, expiries and crashes |
| `Idempotency.ReserveTakesTheKey` | `backend/src/shared/idempotency/idempotency.service.ts:119-204` | a free key is taken for this request, with its fingerprint |
| `Idempotency.StartedRequestEnds` | `backend/src/features/chat/chat.service.ts:561-715` | a started request completes its key exactly when its row is stored and the completion arrives; otherwise the key stays reserved, and it is never given back |
| `Idempotency.BlockedRequestEnds` | `backend/src/features/chat/chat.service.ts:246-305` | a blocked request completes its key when its row is stored, and gives it back when storing fails or the completion is lost |
| `Idempotency.FailedRequestEnds` | `backend/src/features/chat/chat.service.ts:400-430` | a request that fails before its start gives its key back |
| `Idempotency.AppendIsAskedOnce` | `backend/src/features/chat/chat.service.ts:561-715` | in every run each request sends its usage row at most once |
| `Idempotency.AtMostOneStart` | `backend/src/features/chat/chat.service.ts:369-372` | of all requests that reserved a key between two expiries at most one starts the provider, and it keeps the key until the next expiry |
| `Idempotency.CompletedIsLogged` | `backend/src/features/chat/chat.service.ts:561-715` | every completed key belongs to a request whose usage row is stored |
| `Idempotency.OnlyTheOwnerTouches` | `backend/src/shared/idempotency/idempotency.service.ts:40-69` | a stored key changes only by its own request or by expiry, and is never deleted by a request that started |
| `Idempotency.EarlyExpiryBreaks` | `backend/src/features/chat/chat.service.ts:176-189` | a record that expires under an undecided request lets two requests start within one period |
| `Idempotency.ExpiryIsSafeIff` | `backend/src/shared/idempotency/idempotency.service.ts:32-69` | one start per period of the key in every continuation of its expiry, if and only if it had so far and no undecided request holds or held the key |
| `Idempotency.OneStartBetweenExpiries` | `backend/src/features/chat/chat.service.ts:400-430` | in every run in which the key's records outlive their undecided requests, each of its periods sees at most one start, whatever becomes of other keys |
| `ChatStream.RecordUsageAndComplete` | `backend/src/features/chat/chat.service.ts:561-715` | performs exactly the specified effects in order for every combination of failures, and says when it throws |
| `ChatStream.AccountingIsSound` | `backend/src/features/chat/chat.service.ts:561-736` | accounting asks for one usage row and without it nothing follows; with it a job is handed over if and only if it was enqueued or its failure was recorded, as a failed recording is swallowed, and completing the key comes last in any case |
| `ChatStream.AccountingCalls` | `backend/src/features/chat/chat.service.ts:561-736` | messages are persisted exactly for a completed request with a stored row, with its content; each queue is called once, and its failure recorded exactly when that call fails |
| `ChatStream.PrepareChatStream` | `backend/src/features/chat/chat.service.ts:157-431` | ready exactly when the request is allowed and its key reserved, checks pass, the policy allows, routing works and the first chunk arrives; its effects are the specified ones |
| `ChatStream.BlockedIsSound` | `backend/src/features/chat/chat.service.ts:246-305` | a blocked request appends one row, completes only after it, and never starts the provider |
| `ChatStream.BlockedHands` | `backend/src/features/chat/chat.service.ts:246-305` | a blocked request's analytics job is handed over if and only if its row was stored and the job was enqueued or recorded, and billing is not called |
| `ChatStream.PreparationIsSound` | `backend/src/features/chat/chat.service.ts:157-431` | however preparation ends: nothing follows a refused reservation, a started request is never released, an unready started or blocked one has asked for its usage row once, and every other reserved key is completed or released |
| `ChatStream.PullChunks` | `backend/src/features/chat/chat.controller.ts:134-204` | the loop reaches a done chunk exactly when everything before it was a token that could be written, and then holds the concatenation of all tokens; it reports a disconnect, and an exception, exactly when one came first |
| `ChatStream.TextAdds` | `backend/src/features/chat/chat.controller.ts:134-204` | the content is the concatenation of the tokens' texts |
| `ChatStream.StreamChunks` | `backend/src/features/chat/chat.controller.ts:131-289` | after the headers accounting is asked for exactly once; COMPLETED exactly when a done chunk was reached, with all preceding text; otherwise INTERRUPTED exactly after a disconnect or an exception during shutdown, and FAILED else |
| `ChatStream.StreamChat` | `backend/src/features/chat/chat.controller.ts:61-289` | the whole request: the provider starts exactly for an allowed, routed request, and the headers follow exactly its first chunk; the one usage row is BLOCKED, FAILED before a first chunk, INTERRUPTED before the headers, COMPLETED with the done chunk's usage when one is reached and otherwise INTERRUPTED or FAILED; messages are persisted exactly for a completed stream, with all its text; jobs are handed over and the key completed exactly when the row is stored; nothing started is released |
| `ProviderRetry.RetryDelay` | `backend/src/features/providers/provider-retry.policy.ts:145-177` | every delay lies between the base delay and the maximum delay plus jitter |
| `ProviderRetry.DelayRule` | `backend/src/features/providers/provider-retry.policy.ts:145-177` | the first delay is the base delay, each further one twice the one before up to the cap, plus the whole part of the jitter kept within its own cap |
| `ProviderRetry.ShouldRetryIsTransient` | `backend/src/features/providers/provider-retry.policy.ts:121-143` | what is worth retrying, by category and status code |
| `ProviderRetry.DelaysDoNotShrink` | `backend/src/features/providers/provider-retry.policy.ts:145-162` | for equal jitter a later attempt never waits less |
| `ProviderRetry.RetryProviderOperation` | `backend/src/features/providers/provider-retry.policy.ts:62-112` | the n-th operation begins exactly when attempts are left, all before it failed transiently, every wait was slept through and the signal was not aborted; the result is the last one's, if it is final, and otherwise the abort; the total delay is the sum of the waits taken; an invalid policy begins nothing |
| `ProviderRetry.TimesIsProduct` | `backend/src/features/providers/provider-retry.policy.ts:62-112` | the bound on the total delay is that product |
| `ProviderFallback.OrderedFallback` | `backend/src/features/providers/provider-fallback.ts:114-189` | candidates have their turn in order until one is successful; each record tells what its candidate's operations really led to: skipped exactly for an open circuit, succeeded, or failed with the category and status of the error; the adapter calls are those operations and no others |
| `ProviderFallback.FirstWorkingIsSelected` | `backend/src/features/providers/provider-fallback.ts:114-189` | with no abort and no wait cut short, the first candidate with a closed circuit that works is selected, with its first successful operation; every one before it, or every one if none is, really failed, and its record says how |
| `ProviderFallback.AllCallsElements` | `backend/src/features/providers/provider-fallback.ts:114-189` | an adapter is called by exactly the operations that its breaker lets through |
| `ProviderFallback.StreamWithOrderedFallback` | `backend/src/features/providers/provider-fallback.ts:191-295` | the same, and the yielded chunks are a prefix of exactly one call's stream, the whole of it on a normal end, with no other provider called after the first chunk; unavailable exactly when no candidate was successful |
| `CircuitBreaker.RecStepsOk` | `backend/src/features/providers/provider-circuit-breaker.ts:141-209` | beginning and ending an operation keep a record consistent: not closed iff opened iff enough failures, trials only while half open and within the limit |
| `CircuitBreaker.ProviderCircuitBreaker.GetRecord` | `backend/src/features/providers/provider-circuit-breaker.ts:216-234` | returns the provider's record, creating a fresh one only when there is none |
| `CircuitBreaker.ProviderCircuitBreaker.PrepareRequest` | `backend/src/features/providers/provider-circuit-breaker.ts:141-165` | admits exactly by state, cooldown and free trial slots; a rejection leaves the record as it was, and no other provider's record changes |
| `CircuitBreaker.ProviderCircuitBreaker.FinishRequest` | `backend/src/features/providers/provider-circuit-breaker.ts:88-109` | applies a success, a counted failure or an uncounted one, and the final slot release, to the record the operation began on |
| `CircuitBreaker.ProviderCircuitBreaker.OpenCircuit` | `backend/src/features/providers/provider-circuit-breaker.ts:202-209` | opens the circuit and clears its trials |
| `CircuitBreaker.ProviderCircuitBreaker.IsOpen` | `backend/src/features/providers/provider-circuit-breaker.ts:119-124` | reads as open exactly when the circuit is open and still cooling down, and changes no record |
| `CircuitBreaker.ProviderCircuitBreaker.Reset` | `backend/src/features/providers/provider-circuit-breaker.ts:126-139` | forgets one provider's record or all, without touching the records themselves |
| `CircuitBreaker.RunKeepsInv` | `backend/src/features/providers/provider-circuit-breaker.ts:88-209` | the invariant over every interleaving of begins, ends and resets |
| `CircuitBreaker.RecordsAreConsistent` | `backend/src/features/providers/provider-circuit-breaker.ts:126-209` | in every run each record is consistent and uses no more slots than trials of the current half-open period in flight |
| `CircuitBreaker.RecordsTellTheirStory` | `backend/src/features/providers/provider-circuit-breaker.ts:167-209` | in every run a record is closed exactly while fewer counted failures than the threshold ended on it since its last success, and then counts just those; otherwise it is open since the last of them, and half open once an operation came after the cooldown |
| `CircuitBreaker.FailuresOpen` | `backend/src/features/providers/provider-circuit-breaker.ts:178-209` | as many counted failures as the threshold open a fresh record, at the time of the last, and fewer do not |
| `CircuitBreaker.AdmissionIff` | `backend/src/features/providers/provider-circuit-breaker.ts:141-165` | an operation is admitted exactly on a closed record, or after the cooldown while a trial slot is free |
| `CircuitBreaker.NewProviderAdmits` | `backend/src/features/providers/provider-circuit-breaker.ts:216-234` | a provider never used, or reset, gets a record of its own and is admitted |
| `CircuitBreaker.ProbeStartsPeriod` | `backend/src/features/providers/provider-circuit-breaker.ts:141-165` | the first operation after the cooldown begins a half-open period of which it is the only trial |
| `CircuitBreaker.IdleBreakerAdmits` | `backend/src/features/providers/provider-circuit-breaker.ts:141-165` | a breaker with nothing in flight admits the next operation once its cooldown is over |
| `CircuitBreaker.RejectionCountsNothing` | `backend/src/features/providers/provider-circuit-breaker.ts:88-101` | an open-circuit rejection changes nothing |
| `CircuitBreaker.CompletionsBeforeResetAreHarmless` | `backend/src/features/providers/provider-circuit-breaker.ts:126-139` | operations begun before a reset never touch the record in use after it, however late they end |
| `CircuitBreaker.ForeignFreesSlot` | `backend/src/features/providers/provider-circuit-breaker.ts:103-108` | an operation from before the half-open period that ends in an uncounted error frees a slot it never took, and no trial ends with it |
| `CircuitBreaker.OverAdmissionIff` | `backend/src/features/providers/provider-circuit-breaker.ts:103-108` | from any state of a half-open period, more trials than the limit can be in flight within it if and only if they already are, or the record is in use and a slot was freed without its trial ending or an operation is in flight that is not a trial of the period |
| `CircuitBreaker.StaysOpenIff` | `backend/src/features/providers/provider-circuit-breaker.ts:141-176` | along any run within the cooldown an open circuit stays open and admits nothing if and only if no operation begun on it ends in success |
| `CircuitBreaker.ClosesEarlyIff` | `backend/src/features/providers/provider-circuit-breaker.ts:141-176` | an open circuit can be closed before its cooldown is over if and only if an operation begun on it is still in flight |
| `PiiMasking.RemoveExactDuplicates` | `backend/src/features/pii/pii-masker.ts:140-160` | keeps each distinct span once |
| `PiiMasking.SortOk` | `backend/src/features/pii/pii-masker.ts:162-170` | sorting distinct spans keeps the elements and yields the strict order |
| `PiiMasking.MergedOk` | `backend/src/features/pii/pii-masker.ts:85-111` | merged ranges are ordered, disjoint, inside the text, and cover exactly the characters some span covers |
| `PiiMasking.MergeSpans` | `backend/src/features/pii/pii-masker.ts:85-111` | the merging loop computes the merge, and fails exactly when some span does not fit the text |
| `PiiMasking.NormalizeMaskRanges` | `backend/src/features/pii/pii-masker.ts:85-133` | fails exactly for an invalid span; otherwise gives the ranges determined by the set of spans |
| `PiiMasking.RangesCoverExactly` | `backend/src/features/pii/pii-masker.ts:85-111` | the ranges are in place and mask a character if and only if a span covers it |
| `PiiMasking.ReplaceFromRight` | `backend/src/features/pii/pii-masker.ts:53-59` | the right-to-left splice equals the left-to-right interleaving of gaps and placeholders |
| `PiiMasking.LocateMasks` | `backend/src/features/pii/pii-masker.ts:61-78` | each mask's offset is its range start shifted by the growth of all earlier ranges |
| `PiiMasking.PlaceholdersInPlace` | `backend/src/features/pii/pii-masker.ts:61-78` | each placeholder is what the masked text holds at its offsets |
| `PiiMasking.RestSurvives` | `backend/src/features/pii/pii-masker.ts:53-59` | what lies outside the placeholders is what lay outside the ranges, in order |
| `PiiMasking.MaskClassifiedPii` | `backend/src/features/pii/pii-masker.ts:48-83` | succeeds exactly for valid spans, with the interleaved text and one mask per range |
| `PiiMasking.MasksDescribeTheText` | `backend/src/features/pii/pii-masker.ts:48-83` | the reported offsets cut out exactly the placeholders and leave exactly the unmasked text |
| `PiiMasking.CategoriesAreExact` | `backend/src/features/pii/pii-masker.ts:113-133` | a range names exactly the categories of the spans inside it |
| `PiiMasking.PlaceholdersAreExact` | `backend/src/features/pii/pii-masker.ts:113-138` | a range that stands for one span has the placeholder approved for its detector, one that stands for several the generic one |
| `PiiMasking.OrderAndDuplicatesDoNotMatter` | `backend/src/features/pii/pii-masker.ts:85-160` | permuting or duplicating spans changes nothing |
| `PiiMasking.DisjointSpansKeepTheirMasks` | `backend/src/features/pii/pii-masker.ts:113-138` | spans that do not overlap keep one mask each, with their detector's placeholder |
| `PiiDetection.LuhnCheck` | `backend/src/features/pii/pii-detector.ts:240-260` | the right-to-left loop equals the positional sum |
| `PiiDetection.OnlyZerosSumToZero` | `backend/src/features/pii/pii-detector.ts:259-259` | the test for a positive sum excludes exactly the all-zero numbers |
| `PiiDetection.SingleDigitErrorsFail` | `backend/src/features/pii/pii-detector.ts:240-260` | changing any one digit of a passing number makes it fail |
| `PiiDetection.SwapsFailUnlessZeroNine` | `backend/src/features/pii/pii-detector.ts:240-260` | swapping two neighbouring digits of a passing number passes if and only if they are equal or 0 and 9 |
| `PiiDetection.Validate` | `backend/src/features/pii/pii-detector.ts:226-238` | card candidates need 13 to 19 digits, not all of them zero, that pass the Luhn sum, phone candidates 10 to 15 digits, and others nothing |
| `PiiDetection.DigitsOnlyAdds` | `backend/src/features/pii/pii-detector.ts:226-238` | a value is reduced to its digits, in order |
| `PiiDetection.CollectCandidates` | `backend/src/features/pii/pii-detector.ts:124-167` | the candidates are exactly the accepted non-empty matches of the rules |
| `PiiDetection.RemoveOverlaps` | `backend/src/features/pii/pii-detector.ts:169-188` | the loop keeps the greedy selection in precedence order |
| `PiiDetection.GreedyMaximal` | `backend/src/features/pii/pii-detector.ts:169-188` | a candidate left out overlaps a kept one that came no later |
| `PiiDetection.DroppedForHigherPriority` | `backend/src/features/pii/pii-detector.ts:190-197` | when equal priorities do not overlap, a candidate is dropped only for a kept one of strictly higher priority |
| `PiiDetection.GreedyIsSelection` | `backend/src/features/pii/pii-detector.ts:169-213` | the kept candidates are disjoint, and a candidate is kept if and only if nothing kept of higher priority overlaps it |
| `PiiDetection.SelectionIsUnique` | `backend/src/features/pii/pii-detector.ts:169-197` | only one set of candidates obeys that rule |
| `PiiDetection.CandidatesAreSeparate` | `backend/src/features/pii/pii-detector.ts:56-108` | candidates of one priority come from one rule, so they do not overlap |
| `PiiDetection.DetectPii` | `backend/src/features/pii/pii-detector.ts:110-122` | the reported spans lie left to right without overlap, and a match is reported if and only if no reported span of a higher-ranked detector overlaps it |
| `PiiDetection.DetectedSpansKeepTheirMasks` | `backend/src/features/pii/pii-masker.ts:85-133` | masking detected spans merges nothing: the i-th span becomes the i-th range with its detector's placeholder |
| `AuditCsv.QuotedRoundTrip` | `backend/src/features/audit/audit.export.service.ts:102-105` | reading an escaped cell gives back the cell, whatever quotes, commas and line breaks it holds |
| `AuditCsv.RowRoundTrip` | `backend/src/features/audit/audit.export.service.ts:97-99` | reading a row gives back its neutralized cells |
| `AuditCsv.FileRoundTrip` | `backend/src/features/audit/audit.export.service.ts:97-99` | reading the joined rows gives back the neutralized rows |
| `AuditCsv.ExportRoundTrip` | `backend/src/features/audit/audit.export.service.ts:73-100` | an RFC 4180 reader applied to the export returns exactly the header and one neutralized row per record |
| `AuditCsv.ExportIsInert` | `backend/src/features/audit/audit.export.service.ts:102-105` | every row read has nine cells and none of them looks like a formula |
| `AuditCsv.FormulasAre` | `backend/src/features/audit/audit.export.service.ts:102-105` | a cell counts as a formula exactly when its first character that is not white space is one of = + - @ |
| `AuditCsv.SpacesAre` | `backend/src/features/audit/audit.export.service.ts:102-105` | the white space of the pattern, by code point |
| `AuditCsv.ColumnsMatchHeader` | `backend/src/features/audit/audit.export.service.ts:74-95` | every column holds the field that the header names |
| `AuditCsv.NeutralizedCollides` | `backend/src/features/audit/audit.export.service.ts:102-105` | two different values export alike if and only if one is a formula and the other is it behind an apostrophe |
| `Pagination.AdmitsIsAfter` | `backend/src/features/conversations/conversation.repository.ts:84-118` | the cursor filter, with its null cases, says exactly "after the cursor in list order" |
| `Pagination.RestAfter` | `backend/src/features/conversations/conversation.repository.ts:69-118` | the documents past an item's cursor are exactly the ones listed after it, for any starting cursor |
| `Pagination.PageTakes` | `backend/src/features/conversations/conversation.service.ts:54-76` | a page takes the next `limit` documents, ends with a null cursor exactly when nothing is left, and otherwise leaves a cursor for exactly the others |
| `Pagination.PagesMakeTheList` | `backend/src/features/admin/admin.repository.ts:220-238` | following cursors terminates, the pages concatenate to exactly the rest of the list, and all but the last are full |
| `Pagination.WholeListOnce` | `backend/src/features/conversations/conversation.repository.ts:69-82` | from the start, the pages hold every selected document exactly once in list order |
| `Pagination.WalkNeverRepeats` | `backend/src/features/conversations/conversation.repository.ts:69-118` | whatever is written between the pages, the items of a walk come in strict list order, so none comes twice |
| `Pagination.WalkMissesOnlyChanges` | `backend/src/features/conversations/conversation.repository.ts:69-118` | a finished walk lists every selected document that stayed in the store unchanged |
| `Pagination.RacingWalk` | `backend/src/features/conversations/conversation.service.ts:54-76` | both, for the pages really asked for, each on its own state of the store; every item listed is selected and was in one of those states |
| `RequestLog.RequestLogStore.Append` | `backend/src/features/billing/request-log.model.ts:72-148` | appends exactly the valid rows with a new request id, and changes no stored row |
| `RequestLog.ValidRowsAre` | `backend/src/features/billing/request-log.model.ts:72-148` | exactly two kinds of rows are valid: blocked requests without a trace of a provider, and provider outcomes whose usage is missing or adds up |
| `Billing.FoldIsDirectSum` | `backend/src/features/billing/billing.repository.ts:106-184` | folding the groups in any order gives the direct sums over the period's rows |
| `Billing.PeriodCounts` | `backend/src/features/billing/billing.repository.ts:106-184` | a period counts exactly the organisation's rows that reached a provider, from its start and before its end |
| `Billing.RowCosts` | `backend/src/features/billing/billing.service.ts:163-184` | a row with usage costs its input and output, one without its model's maximum, and none both |
| `Billing.ReservationTracks` | `backend/src/features/billing/billing.service.ts:163-184` | the reservation is the exact ceiling of the unresolved requests, or the error |
| `Billing.StatusIsExact` | `backend/src/features/billing/billing.service.ts:28-81` | a status is given if and only if every unresolved request can be priced and the exact total is a safe integer, and then used, reserved and remaining tokens, the remaining percentage and the verdict are exact, whatever the order of groups and the rounding of large sums |
| `Billing.StatusIgnoresOrder` | `backend/src/features/billing/billing.repository.ts:157-183` | the order of the groups is immaterial |
| `Billing.ReservationZeroIff` | `backend/src/features/billing/billing.service.ts:53-60` | the reservation is zero if and only if known and source counts agree if and only if all usage is known |
| `Billing.NotExceededIsSafe` | `backend/src/features/billing/billing.service.ts:130-161` | if no unresolved request used more than its model allows, "not exceeded" means that true usage is below the budget |
| `Billing.ExceededStays` | `backend/src/features/billing/billing.service.ts:130-161` | whatever is logged later, an exceeded budget never reads as not exceeded |
| `Billing.NothingRemainsIffExceeded` | `backend/src/features/billing/billing.service.ts:130-161` | remaining tokens and percentage are zero exactly when the budget is exceeded, and the percentage lies within 0 and 100 |
| `Billing.RollupStore.UpsertRollup` | `backend/src/features/billing/billing.repository.ts:185-204` | overwrites the rollup, or refuses unsafe numbers and changes nothing |
| `Billing.RollupStore.ReadAuthoritativeBudgetStatus` | `backend/src/features/billing/billing.service.ts:28-81` | gives that status or the error, with the same exact numbers, and refreshes the rollup exactly when all usage is known and the sums are safe |
| `Billing.RollupStore.ReconcileAuthoritativeTokenRollup` | `backend/src/features/billing/billing.service.ts:90-115` | applies the exact rollup under the same condition, and otherwise changes nothing |
| `Analytics.SummariesAddUp` | `backend/src/features/analytics/analytics.repository.ts:181-226` | over valid rows total = completed + blocked + failed + interrupted = known + unknown + blocked, and tokens = input + output |
| `Analytics.OutcomesAreCounted` | `backend/src/features/analytics/analytics.repository.ts:188-192` | each outcome counter is the number of the rows with that status |
| `Analytics.UsageIsCounted` | `backend/src/features/analytics/analytics.repository.ts:193-220` | masked requests, and requests with known and unknown usage, are the numbers of just those rows |
| `Analytics.TokenCountersAdd` | `backend/src/features/analytics/analytics.repository.ts:221-226` | each valid row adds its own input, output and sum to the token counters |
| `Analytics.DayRows` | `backend/src/features/analytics/analytics.repository.ts:333-349` | a day counts exactly the rows of its organisation, and of its user if it has one, within its bounds |
| `Analytics.OrganisationIsItsUsers` | `backend/src/features/analytics/analytics.repository.ts:333-350` | every counter of an organisation's day is the sum of its users' counters |
| `Analytics.ProviderRowsAddUp` | `backend/src/features/analytics/analytics.repository.ts:227-254` | over one snapshot the provider rows add up to the requests that were not blocked |
| `Analytics.DailyStore.FindOneAndUpdate` | `backend/src/features/analytics/analytics.repository.ts:293-307` | updates exactly an existing document that counts no more requests |
| `Analytics.DailyStore.Insert` | `backend/src/features/analytics/analytics.repository.ts:321-330` | creates the document exactly when there is none |
| `Analytics.DailyStore.UpsertDailyAggregate` | `backend/src/features/analytics/analytics.repository.ts:277-331` | run alone, keeps the document with the larger total |
| `Analytics.AloneBringsUpToDate` | `backend/src/features/analytics/analytics.repository.ts:172-331` | a worker that nothing disturbs brings the stored day up to date with the log, whatever was stored, and touches no other day |
| `Analytics.StepKeepsInv` | `backend/src/features/analytics/analytics.repository.ts:172-331` | every step of every worker keeps stored and pending values tied to a past state of the log |
| `Analytics.StoredIsASnapshot` | `backend/src/features/analytics/analytics.repository.ts:277-331` | in every run each stored day equals the aggregate of a past log, and adds up |
| `Analytics.CountersNeverShrink` | `backend/src/features/analytics/analytics.repository.ts:293-307` | along every run no counter of a stored day ever decreases, although workers write in any order |
| `Analytics.LaterWritesAreCovered` | `backend/src/features/analytics/analytics.repository.ts:293-319` | when the day's document exists before the upsert, the finished write is never lost, in any counter |
| `Analytics.SafeWritesAreCovered` | `backend/src/features/analytics/analytics.repository.ts:277-331` | a write that meets an existing document, or has no rival in flight for its day that counted fewer requests, is covered in every run once it is done |
| `Analytics.LostIff` | `backend/src/features/analytics/analytics.repository.ts:313-330` | some run loses the write of an upserting worker if and only if a rival in flight for the same day counted fewer requests and no document exists yet, or one that counts less was stored after its update found none |
| `Analytics.FirstWriteCanBeLost` | `backend/src/features/analytics/analytics.repository.ts:313-330` | a run in which the newer of two first writers finishes without being reflected |
| `Analytics.ProvidersAgreeIff` | `backend/src/features/analytics/analytics.repository.ts:181-254` | counters and provider rows agree if and only if no request that reached a provider was logged between the two queries |
| `JobLedgers.JobLedger.AcquireJobProcessing` | `backend/src/features/billing/billing.repository.ts:220-251` | claims an absent scope, or reports the existing state unchanged |
| `JobLedgers.JobLedger.CompleteJobProcessing` | `backend/src/features/billing/billing.repository.ts:252-276` | completes exactly a claimed scope |
| `JobLedgers.JobLedger.ReleaseJobProcessing` | `backend/src/features/billing/billing.repository.ts:277-282` | deletes exactly a claimed scope |
| `JobLedgers.BillingJobEnds` | `backend/src/features/billing/billing.worker.ts:74-162` | a billing job that nothing disturbs goes to work exactly for a free scope or a retried claim; it then writes the rollup its request's period calls for and completes, completes without one when usage is missing, and releases its claim when the request is not logged or the sums are unsafe |
| `JobLedgers.AnalyticsJobEnds` | `backend/src/features/analytics/analytics.worker.ts:66-191` | an analytics job that nothing disturbs completes a free scope and leaves any other alone |
| `JobLedgers.BudgetCheckEnds` | `backend/src/features/billing/billing.service.ts:28-81` | a budget check that nothing disturbs refreshes the rollup exactly when one is due, and touches no ledger |
| `JobLedgers.FailingJobEnds` | `backend/src/features/billing/billing.worker.ts:128-150` | a failing job gives its claim back, unless that fails as well, and never a completed row |
| `JobLedgers.LostCompletionEnds` | `backend/src/features/billing/billing.worker.ts:121-150` | a completion whose reply is lost stays, although the job fails; one that finds no claim changes nothing |
| `JobLedgers.CompletedIsFinal` | `backend/src/features/billing/billing.worker.ts:74-162` | COMPLETED survives every retry, release, crash and late reply |
| `JobLedgers.AtMostOneCompletion` | `backend/src/features/billing/billing.repository.ts:252-276` | in every run a scope is completed successfully at most once, exactly once when its row is COMPLETED |
| `JobLedgers.ExclusiveIff` | `backend/src/features/billing/billing.worker.ts:90-96` | along any run at most one worker is inside a scope, over its claim, if and only if no retry ever looks the claim up while a worker holds it; a retry that takes over an orphaned claim does no harm |
| `JobLedgers.ExclusiveWithoutRetries` | `backend/src/features/analytics/analytics.worker.ts:81-95` | without billing retries of the scope at most one worker is ever between acquiring it and completing or releasing it |
| `JobLedgers.AnalyticsJobsNeverOverlap` | `backend/src/features/analytics/analytics.worker.ts:66-191` | no two deliveries of an analytics job are ever inside together |
| `JobLedgers.RetryOverlaps` | `backend/src/features/billing/billing.worker.ts:90-96` | a billing retry enters whenever the claim is held |
| `JobLedgers.BillingJobsCanOverlap` | `backend/src/features/billing/billing.worker.ts:90-96` | a run in which two deliveries of one billing job are inside together |
| `JobLedgers.RollupsAreSnapshots` | `backend/src/features/billing/billing.service.ts:90-115` | every rollup ever written is exact for a state the log once had, with all usage known |
| `JobLedgers.AppliedJobsAreCounted` | `backend/src/features/billing/billing.worker.ts:98-126` | a billing job that completed as APPLIED has had its own request counted in a rollup that was written, exact for that log |
| `JobLedgers.WriteGoesBackIff` | `backend/src/features/billing/billing.repository.ts:185-204` | a write takes the stored count back if and only if a request of the period was logged between its aggregation and the stored one, and the stored usage if and only if one of those has tokens |
| `JobLedgers.RollupCanGoBack` | `backend/src/features/billing/billing.repository.ts:185-204` | a run in which a slow budget check takes the stored usage back |
| `Recovery.TransitionsKeepRecords` | `backend/src/features/recovery/enqueue-recovery.repository.ts:170-260` | every transition leaves timestamps and error fields that match the state, and at most three attempts |
| `Recovery.RecoveryStore.EnsurePending` | `backend/src/features/recovery/enqueue-recovery.repository.ts:111-127` | inserts a pending record only when there is none |
| `Recovery.RecoveryStore.ClaimAttempt` | `backend/src/features/recovery/enqueue-recovery.repository.ts:170-200` | claims exactly an open, due record with attempts left, and counts the attempt |
| `Recovery.RecoveryStore.ApplyMark` | `backend/src/features/recovery/enqueue-recovery.repository.ts:202-260` | applies a mark whatever the record's state |
| `Recovery.ClaimIsExact` | `backend/src/features/recovery/enqueue-recovery.repository.ts:170-200` | a claim counts the attempt, hides the record for its window and forgets the last error |
| `Recovery.ScannersTakeTurns` | `backend/src/features/recovery/enqueue-recovery.service.ts:90-121` | an idle scanner takes a batch and then its records one by one; one at work takes none |
| `Recovery.RecoveryStore.EnsureBatch` | `backend/src/features/recovery/enqueue-recovery.service.ts:137-147` | ensures the expected records of one batch and counts them |
| `Recovery.RecoveryStore.DiscoverMissingRecoveryRecords` | `backend/src/features/recovery/enqueue-recovery.service.ts:123-155` | while rows go on being logged and the clock goes on, the paging loop ends, visits no row twice and every row that was there at the start, leaves exactly the records the visited rows call for, and returns 2 x not blocked + blocked |
| `Recovery.EnsuredAllOk` | `backend/src/features/recovery/enqueue-recovery.service.ts:264-289` | discovery adds exactly the missing expected records, each as of the first time it is called for, and touches no other |
| `Recovery.ExpectedIff` | `backend/src/features/recovery/enqueue-recovery.service.ts:264-289` | the log calls for an analytics record of every row, and a billing record of each that reached a provider, with the job type of its outcome |
| `Recovery.BatchIsNext` | `backend/src/features/recovery/enqueue-recovery.repository.ts:87-101` | a batch holds rows behind the cursor in order, and leaves out none of them except rows beyond its own end when it is full |
| `Recovery.QuietLogIsVisitedWhole` | `backend/src/features/recovery/enqueue-recovery.service.ts:123-155` | when nothing is logged meanwhile, the rows visited are the log |
| `Recovery.StepKeepsRecords` | `backend/src/features/recovery/enqueue-recovery.service.ts:157-262` | with any number of scanners every step keeps every record consistent |
| `Recovery.StepKeepsAttempts` | `backend/src/features/recovery/enqueue-recovery.repository.ts:170-200` | each attempt number is given out once, held by one scanner, and enqueues at most once |
| `Recovery.AtMostThreeEnqueues` | `backend/src/features/recovery/enqueue-recovery.service.ts:214-262` | in every run recovery enqueues a scope at most as often as it has attempts, and at most three times |
| `Recovery.ScanRecovers` | `backend/src/features/recovery/enqueue-recovery.service.ts:157-262` | a scan that nothing disturbs leaves the record as its findings call for: failed without a source or with a failed job, completed with its ledger, looked at again in a minute when somebody has it, and else enqueued, if it is due and has an attempt left; it enqueues only then, and touches no other record |
| `Recovery.UnmarkedEnqueueFails` | `backend/src/features/recovery/enqueue-recovery.service.ts:223-261` | when the mark after an enqueue fails, the attempt counts as failed: again after one second, then two, then never |
| `Recovery.ClosedForCause` | `backend/src/features/recovery/enqueue-recovery.service.ts:157-262` | in every run a record is COMPLETED only after its ledger was seen completed, FAILED only after the cause its error names was seen, and given up for enqueuing only after three attempts |
| `Recovery.ReopensIff` | `backend/src/features/recovery/enqueue-recovery.repository.ts:202-260` | some run opens a closed record again if and only if a scanner has it in its batch, or holds it in a phase that can still end in an open mark |
| `Recovery.TerminalIsFinalAlone` | `backend/src/features/recovery/enqueue-recovery.service.ts:90-121` | after a run of one scanner a COMPLETED or FAILED record is never changed again, whoever runs later |
| `Recovery.CompletedCanReopen` | `backend/src/features/recovery/enqueue-recovery.service.ts:157-262` | a run in which two scanners reopen a completed record |

## Left out

- Login password checks, failed-login counters and account lockout: a short case split; login only opens a family here.
- Encryption readiness check of the retention change, session revocation audit rows and alert resolution: easy further mutations of the same shape.
- Rate limiting, risk scoring and policy thresholds: they appear only as the outcome they decide.
- Confidence and metadata fields of detected spans: carried along unchanged.
- Regular-expression matching of the detectors, JSON and date formatting: library behaviour, taken as input.
- TEXTDATA range of RFC 4180: the reader accepts any character inside quotes, as the export may contain any.
- Message and audit-log pagination: the same construction as the lists modelled.
- Anomaly jobs, queue workers' heartbeats, metrics, logging, routing and schemas of the HTTP layer, and the user interface: observation and input/output.
- Stuck ledgers and recovery liveness: a record with three attempts and a missing job stays open, a crashed analytics job stays PROCESSING.
- Request counts beyond the safe-integer range: sums of tokens may round, counts are exact.
