# A verified model of the in-cluster image vulnerability webhook

The webhook is asked about every workload before it is admitted. It looks up the vulnerability scan
results of the workload's container images, writes them into an annotation, and a Gatekeeper policy
then decides from the annotation whether the workload may run. The answer has to arrive within three
seconds, so the lookup races a timer; what happens when the timer wins is a small protocol over a
shared, expiring cache that many requests use at once.

The model follows the program from the admission request to the policy's decision:

- **The answer protocol** (`Protocol`, `ProtocolInvariants`, `ProtocolSafety`, `ProtocolProgress`,
  `ProtocolScenario`, `BlockBudget`, `ProtocolBound`, `ProtocolPaths`, `ProtocolTightness`): a step
  system of requests, the
  worker each cache miss starts, its channel of capacity one, the timer, the two-strike timeout counter
  that is read and then written without a lock, and the goroutines that store results and reset the
  counter. A write is sent up to r times, each send a step of its own that may store the value
  without being acknowledged. With Redis, r is the attempts of the retry policy (3 as shipped) times
  the sends in each attempt of the Redis library, which resends what got no reply, three times unless
  it is configured otherwise: 12 as shipped. With freecache, r is 1. A run is any sequence of events,
  so statements about all sequences are statements about all interleavings, cache failures, expiries,
  evictions and writes of other users of the cache included.
- **The provider's cache client** (`ProviderCache`), with the pod keys (`PodKeys`), the shared key space
  (`KeySpace`), the stored JSON (`JsonCodec`), integers as text (`Decimal`) and the store with its
  times-to-live (`CacheStore`); and all users of the one cache together (`SharedCacheUsers`).
- **Scanning a pod** (`FanIn`): one goroutine per container, one buffered channel, one receiver.
- **Digest resolution** (`DigestResolution`), **retry** (`RetryPolicy`), the **cache clients**
  (`CacheClients`), the **paged query** (`ArgClient`) and the **scan-result provider** (`ArgDataProvider`).
- **The policy** (`Policy`), **the admission handler** (`Handler`) and the way from the provider's answer
  to the policy's decision (`EndToEnd`).

`GoErrors`, `Contracts` and `Seqs` hold Go's error values, the values passed around, and facts about
sequences. Times and durations are nanoseconds of a logical clock.

Where the program does something its comments or documentation do not say, the model follows the
program, and a lemma says exactly when the two differ:

- Two strikes are documented as two blocked requests. With at most k handlers of one pod key at once
  and at most r sends of a write, the exact maximum between two clearings of the record is
  k(k+3)/2 + (r-1)k(k-1)/2 (`TimeoutBlocksBounded`, `BoundIsReached`), which is two only for k = 1;
  for two overlapping handlers it is 5 with one send and 16 with twelve.
- The documented scenario, block, block, then errors until the record is cleared, holds event by event
  for handlers that do not overlap, except for the write of a second strike whose first has been
  cleared since it was read (`NonOverlappingScenario`, `LeavesTheTableIff`, `MidwayHappens`).
- The policy's container filter does not drop healthy and excluded containers from a pod; one of them
  makes the whole filter undefined and silences every violation of the pod
  (`OneHealthyContainerSilencesAll`).
- A retry policy with no attempt configured reports success without calling its action. A Redis client
  then stores nothing and says it did (`SetWithoutAttempts`), and says of every key that it holds the
  empty string. For statuses, results and scans that is a failed read, so each timeout answers an
  error and each scan is queried (`ReadsAreProtocolReads`, `ScanReadThroughRedis`); but the resolver
  takes it for a digest and answers every reference with the empty one, without asking the registry
  (`EmptyWithoutCacheAttempts`). A registry client without attempts can resolve a tag to the empty
  digest too; `EmptyAnswerIff` says exactly when either happens. A query without attempts is an error
  without a cause (`QueryWithoutAttempts`).
- Pods whose container names hold no colon and whose images no comma are told apart by their keys
  (`KeyIsCanonical`). With any images, a pod shares its key with a different one exactly when it has
  two containers or more, or one whose entry can be cut at a comma of its image into two entries in
  order (`KeyIsSharedIff`); a colon in a container name always makes it share its key
  (`ColonInNameCollides`).
- Scan results are kept by digest alone although the query also asks for registry and repository. A
  hit is right for every query exactly when both are those of the image the result was stored for,
  letter case aside for the query in use (`HitIsRightIff`).
- Digests are kept by reference alone although the Kubernetes authentication goes by the workload's
  namespace, pull secrets and service account. A digest kept for one workload is what every other would
  have resolved exactly when the reference holds it or the ACR authentication found it
  (`SharedDigestIsRightIff`).
- A positive time-to-live whose product with its unit overflows 64 bits loses its meaning
  (`ValidatedTtl`, `OverflowingTtl`), and freecache keeps for ever what is to live less than a second
  (`NeverExpiresIff`), the reset status among it, which therefore has to read as no timeout
  (`ResetLeavesZero`).
- Dry run is consulted only after a success; an error still removes a stale annotation (`EffectMeans`).

## Model

| member | source | states |
|---|---|---|
| `ProtocolBound.TimeoutBlocksBounded` | pkg/azdsecinfo/azd_sec_info_provider.go:445-482 | In every run with at most k handlers of a pod key at once and r sends of a write, timeout blocks number at most k(k+3)/2 + (r-1)k(k-1)/2 for the start and again for each time the record is cleared. |
| `ProtocolTightness.BoundIsReached` | pkg/azdsecinfo/azd_sec_info_cache_client.go:170-227 | For every pod, every k, every r and every number of clearings there is a run with that many clearings that reaches the bound, because the count is read and written without a lock and a stored send may be repeated. |
| `ProtocolBound.PotentialPays` | pkg/azdsecinfo/azd_sec_info_provider.go:449-481 | Every event, attempts of a write included, lowers the potential of readers, writers and their spare attempts by at least the blocks it causes, unless it clears the record, and then it blocks nothing. |
| `ProtocolScenario.NonOverlappingScenario` | docs/AzdSecInfoREADME.md:14-19 | Over whole runs without overlapping handlers, through any number of resets, expiries and evictions that do not fall between a read of one strike and the write of the second: every event clears the record, and blocks nothing, or keeps to the table: a timeout goes on to write exactly when its read works and fewer than two strikes are on record, blocks exactly when an attempt of that write is acknowledged, and only a stored attempt moves the strikes, by one. |
| `ProtocolScenario.LeavesTheTableIff` | docs/AzdSecInfoREADME.md:14-19 | With clearings at any time, an event that does not clear the record departs from the table exactly when it stores a second strike over a cleared record; that takes the record from none to two. |
| `ProtocolScenario.MidwayHappens` | pkg/azdsecinfo/azd_sec_info_provider.go:449-481 | For every pod there is a run from the start, without overlapping handlers, that departs from the table in this way. |
| `ProtocolInvariants.ApplyKeepsInv` | pkg/azdsecinfo/azd_sec_info_provider.go:99-177 | Every event of every request, the clock, evictions and foreign writes keep the invariant on requests, counters and stored results. |
| `ProtocolInvariants.RunKeepsInv` | pkg/azdsecinfo/azd_sec_info_provider.go:99-153 | Every run keeps it. |
| `ProtocolSafety.StatusAlwaysParses` | pkg/azdsecinfo/azd_sec_info_cache_client.go:191-201 | In every reachable state a read of a plain key's status that does not fail gives 0, 1 or 2, so parsing never fails and testing for exactly three timeouts decides as "at least three" would. |
| `ProtocolSafety.HitIsAWorkersOutcome` | pkg/azdsecinfo/azd_sec_info_provider.go:119-136 | A look-up that hits is served, unchanged, the outcome of a worker for the same key, stored less than the time-to-live ago, never a timeout placeholder, with exactly the containers of the pod when both pods are plain. |
| `ProtocolSafety.CachedAnswersAreOutcomes` | pkg/azdsecinfo/azd_sec_info_provider.go:128-136 | In every run every answer given from the cache has such a worker as its source. |
| `ProtocolSafety.StoreThenHit` | pkg/azdsecinfo/azd_sec_info_provider.go:158-177 | Over every further run that neither overwrites nor evicts it, the outcome a worker stored is what look-ups of the key find, exactly until the time-to-live has passed, also when its own request was answered before the store. |
| `ProtocolSafety.SendNeverBlocks` | pkg/azdsecinfo/azd_sec_info_provider.go:138-177 | A worker always finds room in its open channel, and a request still racing a finished worker can receive. |
| `ProtocolSafety.OneWorkerOneSend` | pkg/azdsecinfo/azd_sec_info_provider.go:138-176 | Each request starts at most one worker, which sends at most once; an answered request has no worker exactly when its answer came from the cache. |
| `ProtocolSafety.StartsOnlyOnMiss` | pkg/azdsecinfo/azd_sec_info_provider.go:119-141 | A worker starts exactly when its own request's look-up misses, and then moves on one stage at a time. |
| `ProtocolSafety.AnswersAreHonest` | pkg/azdsecinfo/azd_sec_info_provider.go:143-152 | Every answer is the request's own worker's outcome with one entry per container, the complete placeholder list, an error, or came from the cache without a worker. |
| `ProtocolSafety.AnswerIsFinal` | pkg/azdsecinfo/azd_sec_info_provider.go:143-152 | A late worker, store or reset never changes an answer. |
| `ProtocolSafety.OnlySuccessResets` | pkg/azdsecinfo/azd_sec_info_provider.go:485-517 | Exactly the requests answered with fresh results start a reset of the timeout record and close their channel. |
| `ProtocolProgress.LookUpMeans` | pkg/azdsecinfo/azd_sec_info_provider.go:119-141 | A look-up is answered at once exactly when its read works and finds a result that decodes, with that list as it is or an error of the stored cause; otherwise it starts the worker and the race. |
| `ProtocolProgress.ResultInTimeIsAnswered` | pkg/azdsecinfo/azd_sec_info_provider.go:143-148 | While a request is racing, receiving its worker's list answers that list, closes the channel and starts a reset; receiving an error answers an error of that cause. |
| `ProtocolProgress.InTimeRun` | pkg/azdsecinfo/azd_sec_info_provider.go:119-177 | From any reachable state and for any pod, a request that misses the cache and whose worker ends before the timer is answered what the worker found, and has it to store. |
| `ProtocolProgress.NoTimerNoTimeout` | pkg/azdsecinfo/azd_sec_info_provider.go:143-152 | Over every run: a request whose timer does not fire is answered neither with the placeholders nor with the timeout error. |
| `ProtocolProgress.TooLate` | pkg/azdsecinfo/azd_sec_info_provider.go:143-152 | Over every run: once the timer has won, the answer is the placeholders or the timeout error, whatever the worker does later. |
| `ProtocolProgress.ResetReadMeans` | pkg/azdsecinfo/azd_sec_info_provider.go:485-517 | The reset after fresh results goes on to write exactly when its read works and a strike is on record. |
| `ProtocolProgress.ResetAttemptMeans` | pkg/azdsecinfo/azd_sec_info_cache_client.go:264-279 | Every attempt of that write that is not lost leaves no strike on record; one that is not acknowledged is tried again while attempts are left. |
| `ProtocolProgress.ResetHappens` | docs/AzdSecInfoREADME.md:14-19 | Over every run: when the read of a reset works, the record is without a strike at some time from that read to the end of the reset, unless every attempt of its write was lost. |
| `ProtocolProgress.StoreAttemptMeans` | pkg/azdsecinfo/azd_sec_info_provider.go:158-177 | Every attempt to store a worker's outcome that is not lost leaves it for look-ups to find; one that is not acknowledged is tried again while attempts are left. |
| `ProtocolProgress.StoreHappens` | pkg/azdsecinfo/azd_sec_info_provider.go:158-177 | Over every run: once a worker has ended, its outcome is found in the cache at some time until its store is over, unless every attempt was lost. |
| `ProtocolProgress.StrikesUntilExpiry` | pkg/azdsecinfo/azd_sec_info_cache_client.go:205-227 | Over every further run that neither overwrites nor evicts it, a stored count is what is on record exactly until its time-to-live has passed, and then there is none. |
| `ProtocolProgress.WaitingClears` | docs/AzdSecInfoREADME.md:14-19 | Waiting for the whole time-to-live clears the record. |
| `ProtocolProgress.ForeignWriteIsRead` | main.go:177-240 | What another user of the cache writes is read back until it expires, and changes nothing else. |
| `ProviderCache.TimeoutEncountered` | pkg/azdsecinfo/azd_sec_info_provider.go:445-482 | The handler's answer and the cache it leaves; the answer, when not an error, is the placeholder list, and the error is the third timeout's exactly when two strikes are read. |
| `ProviderCache.TimeoutScenario` | docs/AzdSecInfoREADME.md:14-19 | A timeout blocks exactly when the cache answers, fewer than two strikes are on record and the new count is stored; then one more strike reads back. |
| `ProviderCache.ConsecutiveTimeouts` | pkg/azdsecinfo/azd_sec_info_provider.go:462-481 | Timeouts handled one after the other before the entry expires answer block, block, and from then on errors. |
| `ProviderCache.BuildListOfContainerVulnerabilityScanInfoWhenTimeout` | pkg/azdsecinfo/azd_sec_info_provider.go:412-438 | The placeholders are one unscanned entry per init and regular container, in order, with the timeout reason. |
| `ProviderCache.AzdSecInfoProviderCacheClient.GetTimeOutStatus` | pkg/azdsecinfo/azd_sec_info_cache_client.go:170-202 | A missing key is status 0 and a stored decimal is its number; an error exactly for a failed read or text that is no number. |
| `ProviderCache.AzdSecInfoProviderCacheClient.SetTimeOutStatusAfterEncounteredTimeout` | pkg/azdsecinfo/azd_sec_info_cache_client.go:205-227 | Writes the count under the timeout key with the timeout time-to-live, and nothing else. |
| `ProviderCache.AzdSecInfoProviderCacheClient.ResetTimeOutInCacheAfterGettingScanResults` | pkg/azdsecinfo/azd_sec_info_cache_client.go:232-279 | Writes 0 for one nanosecond exactly when a non-zero count is read, and leaves the cache alone otherwise; an error exactly when the read fails or does not parse, or a needed write is not acknowledged. |
| `ProviderCache.AzdSecInfoProviderCacheClient.GetContainerVulnerabilityScanInfoFromCache` | pkg/azdsecinfo/azd_sec_info_cache_client.go:102-143 | Returns the stored list, the stored error, or an error for a missing, failed or unparsable read. |
| `ProviderCache.AzdSecInfoProviderCacheClient.SetContainerVulnerabilityScanInfoInCache` | pkg/azdsecinfo/azd_sec_info_cache_client.go:147-167 | Stores list and flattened error under the result key with the result time-to-live; an error exactly when the write is not acknowledged. |
| `ProviderCache.WrittenStatusIsRead` | pkg/azdsecinfo/azd_sec_info_cache_client.go:213-227 | A written status is read back exactly until its time-to-live has passed, and then as none. |
| `ProviderCache.ResetLeavesZero` | pkg/azdsecinfo/azd_sec_info_cache_client.go:232-279 | Whatever count was on record, after a reset that runs and is not lost every later read gives 0; a reset that writes leaves nothing in Redis after a nanosecond and a zero for ever in freecache. |
| `CacheStore.ValidatedTtl` | pkg/infra/utils/time_utils.go:22-34 | A configured positive count keeps its meaning exactly when its product with the unit fits in 64 bits; then it is at least a second and expires at exactly the time asked for. |
| `CacheStore.OverflowingTtl` | main.go:116-129 | A count that passes the validation and becomes a negative duration. |
| `PodKeys.KeyIsCanonical` | pkg/azdsecinfo/azd_sec_info_cache_client.go:310-316 | Two pods whose names have no colon and images no comma have equal keys exactly when their (name, image) multisets over init and regular containers are equal. |
| `PodKeys.KeyReadsBack` | pkg/azdsecinfo/azd_sec_info_cache_client.go:310-316 | Such a key parses back into the pod's containers. |
| `PodKeys.SortIsTheSort` | pkg/azdsecinfo/azd_sec_info_cache_client.go:313 | Any sorted rearrangement of the entries is the one the key is built from, whichever algorithm sorts them. |
| `PodKeys.LeqIff` | pkg/azdsecinfo/azd_sec_info_cache_client.go:313 | The order of that sort: the first difference decides, by the smaller character, and a beginning comes before the whole. |
| `PodKeys.KeyIsSharedIff` | pkg/azdsecinfo/azd_sec_info_cache_client.go:308-316 | Among pods whose names have no colon, whatever their images: some pod with other containers has the same key exactly for two containers or more, and for a single one when a comma of its image cuts its entry into two entries in order. |
| `PodKeys.CommaInImageCollides` | pkg/azdsecinfo/azd_sec_info_cache_client.go:308-316 | For any two containers with entries in order, one container whose image goes on with a comma and the second entry has the key of the pod of the two. |
| `PodKeys.ColonInNameCollides` | pkg/azdsecinfo/azd_sec_info_cache_client.go:308-316 | Every pod with a colon in a container name shares its key with a different pod, which has no colon in that name. |
| `PodKeys.ExtractContainersFromPodSpecAsString` | cmd/webhook/admisionrequest/extractor_contract.go:85-97 | The entries name:image of init containers, then regular ones, in order. |
| `PodKeys.GetPodSpecCacheKey` | pkg/azdsecinfo/azd_sec_info_cache_client.go:310-316 | The key is the sorted entries joined by commas. |
| `PodKeys.PlainNamesPlainKey` | pkg/azdsecinfo/azd_sec_info_cache_client.go:356-363 | Names without '.', '/' and ':' give keys that the separation lemmas cover. |
| `KeySpace.ProviderKeysSeparate` | pkg/azdsecinfo/azd_sec_info_cache_client.go:20-25 | Timeout and result keys never collide, and each determines its pod key. |
| `KeySpace.IsAcrIff` | pkg/infra/registry/utils/utils.go:40-42 | A host is one of ACR exactly when it ends in ".azurecr.io" in any mixture of cases. |
| `KeySpace.ForeignKeysSeparate` | main.go:177-180 | No image reference of ACR, digest or token key is a timeout or result key of a plain pod. |
| `KeySpace.OtherUsersKeys` | main.go:202-238 | The keys of digest resolution (an ACR host, a slash and the rest), scan results (a sha256 digest) and tokens (an ACR host) have the shapes that the separation is about. |
| `KeySpace.UsersSeparate` | main.go:177-240 | No key has two of the five shapes of key that the users of the persistent cache write: status, result, image, digest and host. |
| `SharedCacheUsers.ForeignKeepsPodEntries` | main.go:177-240 | After a write under another user's key every read of every plain pod's status and result gives what it gave before, and the entries stay well formed. |
| `SharedCacheUsers.KeepsPodEntries` | pkg/azdsecinfo/azd_sec_info_cache_client.go:20-25 | A status or result written for one plain pod changes no read of any other pod, nor of that pod's other entry. |
| `SharedCacheUsers.KeepsDigests` | pkg/tag2digest/tag2digestresolver.go:58-107 | No write under a key of another shape, and no eviction, breaks what the resolver relies on. |
| `SharedCacheUsers.KeepsScans` | pkg/dataproviders/arg/arg_data_provider_cache_client.go:62-125 | Nor what the scan-result provider relies on. |
| `SharedCacheUsers.Deployment.constructor` | main.go:177-240 | The provider's client, the resolver and the scan-result provider over one empty cache satisfy all invariants together. |
| `SharedCacheUsers.Deployment.StoreDigest` | pkg/tag2digest/tag2digestresolver.go:94-104 | Storing a digest changes its key only and keeps the invariant of every user. |
| `SharedCacheUsers.Deployment.StoreScan` | pkg/dataproviders/arg/arg_data_provider_cache_client.go:94-125 | So does storing a scan result. |
| `SharedCacheUsers.Deployment.SetTimeOutStatus` | pkg/azdsecinfo/azd_sec_info_cache_client.go:205-227 | So does storing a timeout status. |
| `SharedCacheUsers.Deployment.ResetTimeOut` | pkg/azdsecinfo/azd_sec_info_cache_client.go:232-279 | So does resetting one. |
| `SharedCacheUsers.Deployment.StoreResult` | pkg/azdsecinfo/azd_sec_info_cache_client.go:147-167 | So does storing a pod's result, which decodes. |
| `SharedCacheUsers.Deployment.StoreToken` | main.go:173-190 | So does storing a token, which shares the cache in local development. |
| `SharedCacheUsers.Deployment.Evict` | main.go:173-190 | So does losing any entry. |
| `SharedCacheUsers.Deployment.Resolve` | pkg/tag2digest/tag2digestresolver.go:58-107 | A look-up of a digest keeps them too, and unless the cache client has no attempt it answers a digest produced for that reference. |
| `SharedCacheUsers.Deployment.GetScanResults` | pkg/dataproviders/arg/arg_data_provider.go:84-118 | So does one of a scan, which answers what the query gave for some caller of the digest. |
| `SharedCacheUsers.Deployment.GetTimeOutStatus` | pkg/azdsecinfo/azd_sec_info_cache_client.go:170-202 | A status that is read without a failure is 0, 1 or 2, whatever the other users have stored. |
| `SharedCacheUsers.Deployment.GetResult` | pkg/azdsecinfo/azd_sec_info_cache_client.go:102-143 | A result is found exactly when a live one is stored and the read does not fail: a stored one always decodes. |
| `SharedCacheUsers.Deployment.PerformAll` | main.go:173-240 | After any sequence of all users' operations and evictions every user's invariant holds. |
| `JsonCodec.StoreThenLoad` | pkg/azdsecinfo/azd_sec_info_cache_client.go:282-353 | Storing and loading any list and error gives the error's message, or the list with empty data maps turned nil. |
| `JsonCodec.ListSurvivesIff` | pkg/azdsecinfo/contracts/containers_vulnerability_scan_info.go:35-52 | A list comes back unchanged, nil and empty findings kept apart, exactly when no entry holds an empty data map. |
| `JsonCodec.ErrorSurvivesIff` | pkg/azdsecinfo/azd_sec_info_cache_client.go:334-353 | An error is read back as an error with the same message exactly when the message is not empty, as every wrapped one's is. |
| `JsonCodec.ScanFindingsRoundTrip` | pkg/dataproviders/arg/arg_data_provider_cache_client.go:94-140 | Status and findings survive the scan-result cache. |
| `JsonCodec.ResultsParseIff` | pkg/azdsecinfo/azd_sec_info_cache_client.go:318-353 | Exactly which stored documents are read as results; any other is an error and so a miss. |
| `JsonCodec.FindingsParseIff` | pkg/dataproviders/arg/arg_data_provider_cache_client.go:128-140 | Exactly which stored documents are read as scan results. |
| `JsonCodec.AnnotationReadsBack` | cmd/webhook/annotations/azd_annotations_jsonpatch_generator.go:27-49 | The annotation holds the time it was made and the list, empty data maps dropped. |
| `Decimal.AtoiItoa` | pkg/azdsecinfo/azd_sec_info_cache_client.go:192-218 | A 64-bit count written as text parses back to itself. |
| `Decimal.AtoiAccepts` | pkg/azdsecinfo/azd_sec_info_cache_client.go:191-198 | A text is a number exactly when it is one digit or more after at most one sign, within 64 bits. |
| `GoErrors.WrappingKeepsCause` | pkg/infra/registry/errors/errors.go:70-76 | However deep an error is wrapped, its cause and its identity as a sentinel survive. |
| `FanIn.SingleMeans` | pkg/azdsecinfo/azd_sec_info_provider.go:309-406 | Every exit of the path: a container carries digest and findings, those that were found, exactly when the whole path succeeded; "not in ACR" exactly for a parsed reference to another registry; a digest or scan error of a known cause is that reason, and any other an error of the same cause. |
| `FanIn.ContainerReason` | pkg/azdsecinfo/azd_sec_info_provider.go:334-347 | The reason an unresolved container is reported with is decided by the root cause of the last registry call; an unknown cause is an error. |
| `FanIn.StepKeepsFan` | pkg/azdsecinfo/azd_sec_info_provider.go:239-306 | Every step keeps each container counted once among working, sent and taken, and the receiver going exactly while its results are good. |
| `FanIn.SendersNeverBlock` | pkg/azdsecinfo/azd_sec_info_provider.go:255-265 | In no schedule does a sender wait on a full channel or meet a closed one, also after an early return. |
| `FanIn.NeverStuck` | pkg/azdsecinfo/azd_sec_info_provider.go:264-298 | No step is possible exactly when all senders have sent and the receiver has answered. |
| `FanIn.Terminates` | pkg/azdsecinfo/azd_sec_info_provider.go:264-298 | Every schedule takes at most 2n + 1 steps. |
| `FanIn.AnswerMeans` | pkg/azdsecinfo/azd_sec_info_provider.go:277-299 | On success no container failed and the list is every container's result, each once and as it is, in some order; a finished schedule succeeds exactly when no container failed; a failure is a failed container's wrapped error. |
| `FanIn.FanInIsAWorker` | pkg/azdsecinfo/azd_sec_info_provider.go:211-235 | Every schedule of every pod ends a worker as the answer protocol takes it to: with the results of all init and regular containers as they are, or with an error of the cause that one of them failed of. |
| `RetryPolicy.RetryActionString` | pkg/infra/retrypolicy/retrypolicy.go:68-100 | Result, number of calls and total pause of the loop; nil arguments are an error without a call. |
| `RetryPolicy.RetriedMeans` | pkg/infra/retrypolicy/retrypolicy.go:77-99 | With an attempt, the last call decides: its value on success, its cause on failure; every earlier call failed in a retryable way, and retrying stops early only at a call that did not. |
| `RetryPolicy.PausesInMilliseconds` | pkg/infra/retrypolicy/retrypolicy.go:90-94 | m retryable failures pause d*m*(m+3)/2 in total, for d the configured milliseconds. |
| `CacheClients.FreeCacheInMemCacheClient.Get` | pkg/infra/cache/freecache_in_mem_cache_client.go:46-70 | A live entry's value, the missing-key error, or the fault as it is. |
| `CacheClients.FreeCacheInMemCacheClient.Set` | pkg/infra/cache/freecache_in_mem_cache_client.go:73-98 | A negative expiration or a fault is an error and stores nothing; otherwise the entry expires in whole seconds. |
| `CacheClients.RedisCacheClient.Get` | pkg/infra/cache/redis_cache_client.go:56-88 | The retried read, each attempt at its own instant with writes of others between them; a missing key told apart from a failure. |
| `CacheClients.GetIsOneRead` | pkg/infra/cache/redis_cache_client.go:56-88 | Whatever others write meanwhile, a GET answers as if all its attempts had met the store of the last one. |
| `CacheClients.ReadsWhatWasWritten` | pkg/infra/cache/redis_cache_client.go:56-88 | What another writer puts under the key after a failed attempt is what the next attempt reads. |
| `CacheClients.RedisCacheClient.Set` | pkg/infra/cache/redis_cache_client.go:94-123 | The retried write: its error, and the store after all attempts and all sends of each, every one at its own instant and with any writes of others between them; a success with an attempt has stored the value. |
| `CacheClients.SetStores` | pkg/infra/cache/redis_cache_client.go:106-123 | When no other writer touches the key, it is left as it was exactly as long as no send was stored, and otherwise holds the value, expiring as asked from the instant of the last stored send; on a success with an attempt that is the very last send. |
| `CacheClients.SetLeavesOthers` | pkg/infra/cache/redis_cache_client.go:106-123 | Every other key is changed by other writers only. |
| `CacheClients.WrittenInBetween` | pkg/infra/cache/redis_cache_client.go:106-112 | What another writer puts under the key between two attempts stays unless the second is stored. |
| `CacheClients.WrittenBetweenSends` | pkg/infra/cache/wrappers/wrapper_redis_client_factory.go:53-60 | The same between two sends of one attempt. |
| `CacheClients.RedisGetReads` | pkg/infra/cache/redis_cache_client.go:56-88 | With an attempt, a GET is a read that is faulty exactly when every attempt met a fault, and reports a missing key only when the server said so. |
| `CacheClients.SendsAreProtocolSteps` | pkg/infra/cache/wrappers/wrapper_redis_client_factory.go:53-60 | Each send of a SET is one write step of the answer protocol, whose attempts are those of the policy times the sends of the library: the protocol tries again exactly when another send follows, or could; the SET succeeds exactly when the last send of its last attempt is acknowledged. |
| `CacheClients.SetWithoutAttempts` | pkg/infra/cache/redis_cache_client.go:106-123 | A SET reports success without having stored anything exactly when no attempt is configured. |
| `CacheClients.ReadsAreProtocolReads` | pkg/infra/cache/redis_cache_client.go:56-88 | Reads of statuses and results through Redis are the answer protocol's reads, faulty exactly when every attempt meets a fault; without any attempt all are, so every timeout answers an error. |
| `DigestResolution.CraneWrapperDigest` | pkg/infra/registry/wrappers/crane_wrapper.go:48-80 | The retried digest call with known errors mapped and one layer of wrapping. |
| `DigestResolution.CraneStops` | pkg/infra/registry/wrappers/crane_wrapper.go:56-66 | The registry is asked again exactly after an unknown error or an empty digest; "unauthorized" and "image not found" are final. |
| `DigestResolution.AttemptReason` | pkg/infra/registry/wrappers/errors/errors.go:19-70 | A crane error is "unauthorized" exactly when a transport error holds that code, and "image not found" exactly when it holds a not-found code and not that one. |
| `DigestResolution.GetDigest` | pkg/tag2digest/tag2digestresolver.go:139-211 | A digest reference gives its own digest without a call. A tag is tried with a beginning of ACR (for an ACR registry), Kubernetes, default; with an attempt configured it resolves exactly when the last one's keychain can be made and the registry's last answer to it holds a digest, and to that digest. |
| `DigestResolution.AuthenticationMeans` | pkg/infra/registry/wrappers/crane_wrapper.go:48-105 | The same for a single authentication. |
| `DigestResolution.GoesOnIff` | pkg/tag2digest/tag2digestresolver.go:150-187 | The chain goes on after an authentication exactly when its keychain failed for another reason than a missing registry, or the registry's last answer holds no digest and is not "image not found". |
| `DigestResolution.TraceMeans` | pkg/tag2digest/tag2digestresolver.go:150-211 | The authentications tried are a non-empty prefix of the chain; all but the last failed with a cause that allows going on; the last decides the answer and keeps its cause. |
| `DigestResolution.EmptyDigestIff` | pkg/infra/registry/wrappers/crane_wrapper.go:83-105 | The chain gives the empty digest for a tag exactly when no attempt is configured and a keychain before the default one could be made. |
| `DigestResolution.EmptyAnswerIff` | pkg/tag2digest/tag2digestresolver.go:71-104 | A reference is answered with the empty digest exactly when the cache client has no attempt, or serves a stored empty digest, or, where it serves nothing, the chain gives one; with an attempt for the registry, exactly when the cache client has none. |
| `DigestResolution.SharedDigestIsRightIff` | pkg/tag2digest/tag2digestresolver.go:139-184 | What one workload resolved is what every other would have, whatever its pull secrets give, exactly when the reference holds the digest or the ACR authentication found it. |
| `DigestResolution.ReasonMeans` | pkg/infra/registry/errors/errors.go:70-90 | The reason of a failed resolution is the root cause of the last authentication: no registry, no image or unauthorized, each exactly when keychain and last registry answer say so. |
| `DigestResolution.Tag2DigestResolver.Resolve` | pkg/tag2digest/tag2digestresolver.go:58-107 | Over the cache that all users share: what is found there is served without a call; otherwise a digest reference gives its digest and a tag what the deciding registry answer held, queued for storing. Unless the cache client has no attempt, every answer is a digest that a resolution of the same reference produced; with an attempt for the registry the answer is empty exactly when the cache client has none. |
| `DigestResolution.Tag2DigestResolver.StoreDigest` | pkg/tag2digest/tag2digestresolver.go:94-104 | Storing writes the reference's key only, or nothing when the cache client has no attempt, and keeps the digest entries of the shared cache to digests that a resolution of the same reference produced. |
| `ArgClient.FetchAllResults` | pkg/dataproviders/arg/arg_client.go:119-157 | The tokens sent, the rows, the error and the token left in the shared request. |
| `ArgClient.FetchConcatenates` | pkg/dataproviders/arg/arg_client.go:126-156 | A successful fetch returns the rows of all its pages in order. |
| `ArgClient.FetchLinks` | pkg/dataproviders/arg/arg_client.go:126-154 | Each call sends the token that the page before it gave. |
| `ArgClient.FetchOutcome` | pkg/dataproviders/arg/arg_client.go:128-156 | A fetch fails exactly when its last call gives no page, with that call's error and its cause, and a successful one leaves no token. |
| `ArgClient.QueryResources` | pkg/dataproviders/arg/arg_client.go:73-115 | Retrying over the shared request sends, attempt by attempt, the tokens of fetches from the first page. |
| `ArgClient.QueryMeans` | pkg/dataproviders/arg/arg_client.go:73-115 | With an attempt: all attempts before the last were complete and empty; an error on any page is returned without retry; otherwise the answer is the last attempt's rows, a non-nil list, empty only when every attempt was. |
| `ArgDataProvider.GetImageScanDataFromARGQueryScanResult` | pkg/dataproviders/arg/arg_data_provider.go:208-252 | The classification loop computes the classification. |
| `ArgDataProvider.RowsReadBack` | pkg/dataproviders/arg/queries/image_vulnerability_scan_query.go:32-49 | Rows as the query projects them, their flag as text and other columns beside, parse back to their fields, all of them and in order. |
| `ArgDataProvider.RowParsesIff` | pkg/dataproviders/arg/queries/image_vulnerability_scan_query.go:32-49 | Exactly which rows parse, and that the flag is set exactly by the text "true". |
| `ArgDataProvider.ScanMeans` | pkg/dataproviders/arg/arg_data_provider.go:121-252 | An error exactly for a failed query, whose cause is kept, a nil list or an unparsable row; otherwise unscanned with nil findings for no rows, healthy with empty findings for one row that spells "healthy" in any mixture of cases, unhealthy with one finding per row in order. |
| `ArgDataProvider.ARGDataProvider.GetImageVulnerabilityScanResults` | pkg/dataproviders/arg/arg_data_provider.go:84-118 | On a miss and on a cache failure the answer is the query's for the caller's registry, repository and digest; on a hit it is the query's for those of an earlier caller of the digest. For a query that depends on the digest only these agree. |
| `ArgDataProvider.ARGDataProvider.SetScanFindingsInCache` | pkg/dataproviders/arg/arg_data_provider_cache_client.go:94-125 | The entry stored, under the digest only, and that every scan entry of the shared cache stays one that the query gave for some caller of the digest. |
| `ArgDataProvider.ScanReadThroughRedis` | pkg/dataproviders/arg/arg_data_provider_cache_client.go:62-90 | A scan read through Redis is faulty exactly when every attempt meets a fault, hence always without an attempt. |
| `ArgDataProvider.ServedUntilTtl` | pkg/dataproviders/arg/arg_data_provider_cache_client.go:108-113 | A stored result is served exactly until the time-to-live of its status, minutes for unscanned and hours otherwise, has passed. |
| `ArgDataProvider.HitIsRightIff` | pkg/dataproviders/arg/queries/image_vulnerability_scan_query.go:13 | A result stored for one image is right for another of the digest, whatever a query that sees registry and repository up to a folding answers, exactly when both fold alike; the query in use compares them without regard to case. |
| `ArgDataProvider.SameDigestSharesResult` | pkg/dataproviders/arg/arg_data_provider_cache_client.go:62-90 | Until the time-to-live of its status has passed, every image of a digest is served what the query gave for the image it was stored for. |
| `ArgDataProvider.UnscannedIff` | pkg/dataproviders/arg/arg_data_provider.go:223-231 | An image is reported unscanned exactly when every allowed attempt went through all its pages and found no row. |
| `Policy.OneHealthyContainerSilencesAll` | policy/container-no-vulnerable-images/v1/rego/src.rego:43-57 | The policy reports what its filters are meant to leave exactly when no container is healthy or excluded, or no other container violates anything; otherwise it reports nothing. |
| `Policy.HealthyBesideUnscanned` | policy/container-no-vulnerable-images/v1/rego/src.rego:43-52 | An unscanned container is reported alone and not beside a healthy one. |
| `Policy.ViolationsMean` | policy/container-no-vulnerable-images/v1/rego/src.rego:4-112 | Every violation written out: there is none unless every container is neither healthy nor matched by an excluded pattern; then one for each unscanned container, and one for each unhealthy one with more counted findings of a severity than its limit. |
| `Policy.VulnerableIff` | policy/container-no-vulnerable-images/v1/rego/src.rego:63-112 | An unhealthy container violates exactly when for high, medium or low more findings count than the limit: not excluded, and with a patch or strictly worse than the level for findings without one. |
| `Policy.LenienceIsMonotone` | policy/container-no-vulnerable-images/v1/rego/src.rego:53-112 | Raising a limit or the no-patch level, or adding exclusions, never adds a violation. |
| `Policy.FindingFiltersCommute` | policy/container-no-vulnerable-images/v1/rego/src.rego:63-94 | The two finding filters give the same list in either order. |
| `Policy.MoreFindingsNeverHelp` | policy/container-no-vulnerable-images/v1/rego/src.rego:94-112 | Adding findings never takes a container back under the thresholds. |
| `Policy.OrderDoesNotMatter` | policy/container-no-vulnerable-images/v1/rego/src.rego:4-27 | Rearranging containers and their findings changes no violation. |
| `Handler.Handle` | cmd/webhook/handler.go:87-166 | Every request is allowed with at most one patch; applied by section 4.1 of RFC 6902 the patches have the stated effect on the annotations. Code, error and reason say which exit was taken: own namespace, kind, operation, error with or without a stale annotation, dry run, patched. |
| `Handler.EffectMeans` | cmd/webhook/handler.go:122-166 | Only the scan information changes: set on success, removed on a provider error also under dry run, untouched when filtered, not extracted or a successful dry run. |
| `Handler.CalledAgain` | cmd/webhook/annotations/azd_annotations_jsonpatch_generator.go:24-68 | Handling a patched object again replaces the older results, and a provider error takes them back and nothing else. |
| `Handler.UpdateAnnotations` | cmd/webhook/annotations/azd_annotations_jsonpatch_generator.go:87-98 | Sets one key of the resource's own map, made first when it is nil. |
| `Handler.CreatePatchAdd` | cmd/webhook/annotations/azd_annotations_jsonpatch_generator.go:27-49 | The patch holds the resource's map itself, with the scan information added and every other entry kept. |
| `Handler.CreatePatchToDeleteIfNeeded` | cmd/webhook/annotations/azd_annotations_jsonpatch_generator.go:53-118 | There is a patch exactly when the scan information is present, and it removes that key only. |
| `Handler.WriteAfterPatch` | cmd/webhook/annotations/azd_annotations_jsonpatch_generator.go:46-48 | A later write to the resource's annotations changes the patch. |
| `Handler.ResponseWhenErrorEncountered` | cmd/webhook/handler.go:189-221 | Allowed with the original error, and the delete patch exactly when it is needed. |
| `Handler.HandleWorkLoadResourceRequest` | cmd/webhook/handler.go:169-251 | One patch on success; a provider error keeps its cause and leaves the annotations alone. |
| `EndToEnd.PolicySeesTheAnswer` | policy/container-no-vulnerable-images/v1/rego/src.rego:29-41 | The policy judges the list the provider answered, empty data maps dropped. |
| `EndToEnd.ErrorNeverBlocks` | cmd/webhook/handler.go:145-152 | After a provider error the policy has nothing to report, whatever the object carried before. |
| `EndToEnd.TimeoutBlocksIff` | pkg/azdsecinfo/azd_sec_info_provider.go:412-438 | A timeout answer is a violation for every container when no image of the pod is excluded, and for none otherwise. |
| `EndToEnd.WhatBlocks` | cmd/webhook/handler.go:122-166 | Over every run and for every request: one whose workload reaches the provider is judged by the answer alone, by scan results or by the placeholders of its own pod, and errors of the provider let it in; one that is filtered, not extracted, or a successful dry run is judged by the annotation it came with. |

## Left out

- Tracing, metrics, configuration loading, certificates, servers, Helm charts and the recovery of panics: no effect on the answers.
- JSON text: documents are trees; text that is not JSON is a value that does not decode.
- Nil pointers inside lists of containers, rows and findings, a nil or missing image in stored scan information, and a nil pod spec.
- `append(podSpec.InitContainers, podSpec.Containers...)` may write into spare capacity of the init-container slice; lists are values here.
- `sort.Strings` compares bytes; the model compares characters, which orders valid UTF-8 alike.
- PodKeys.GetPodSpecCacheKey: the slice is sorted as a value, not in place.
- Freecache and Redis themselves: a store with expiry times, arbitrary evictions, and faults as inputs. Freecache's clock counts whole seconds and its client computes seconds in floating point; the model truncates exactly.
- The Redis library: how often it sends a command and after which errors it sends it again are inputs; its own default is cited from its documentation.
- Protocol.Apply: a retried read is one step, at the instant of its last attempt (`GetIsOneRead`); sends that a failed attempt leaves out are steps that are lost.
- ProviderCache.AzdSecInfoProviderCacheClient.Set: a client without attempts, which stores nothing and reports no error; so too the writes of `ArgDataProvider`.
- DigestResolution.Tag2DigestResolver.Resolve: is called with references to ACR images, as the provider calls it, whose text starts with the registry host; digests are sha256 digests or, from a resolver without attempts, empty.
- SharedCacheUsers.Deployment: pods with a '.', '/' or ':' before the colon that ends their first container name, which Kubernetes does not admit, could meet keys of other users.
- RetryPolicy.RetryActionString: the multiplication of a pause by its count does not wrap around at 64 bits.
- ArgClient.QueryResources: a service that hands out skip tokens for ever is excluded, because the loop does not end for it; the service never returns the client's own empty-result error.
- DigestResolution.SharedDigestIsRightIff: a tag is not moved to another image while its digest is kept.
- ArgDataProvider.ARGDataProvider.GetImageVulnerabilityScanResults: the query's answer does not change over time; the text of the query and its template are part of the query.
- The ACR token exchange and its cache: the error of making the ACR keychain is an input, "registry not found" among its causes.
- The registry client's checks for a nil image reference, and the parsing of image references: the parsed reference is an input.
- Extraction of the workload from the admission request: its error and the annotations are inputs; only the turning of an empty map into nil is modelled.
- Handler.Handle: a handler without any supported kind, which would panic when it logs the first one.
- Policy.Violations: annotations of a shape the webhook does not write, the wording of the messages, and regular expressions, which are an arbitrary predicate.
- Error texts are abbreviated; what matters is which error is wrapped and that a wrapped message is never empty.
