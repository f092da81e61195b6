# Verified model of the asyncio OTLP client

This project models the parts of the client in which a mistake is silent: the
two wire encoders, the batch processor, the OAuth2 token cache, the export loop
with its one re-authentication, and the header-list parser. To verify it, use
`dafny verify dfyconfig.toml`.

**Encoders.** `Model.dfy` is the model tree of `otlp_client.model`. `JsonEncoder.dfy`
turns it into a JSON document (`Json.dfy`), `ProtobufEncoder.dfy` into a message
with explicit presence (`Proto.dfy`). `ProtoJson.dfy` is written from the JSON
Protobuf Encoding section of the OTLP specification, not from the encoders: a
strict reader from documents to messages that refuses unknown members, wrong
types, 64-bit numbers that are not decimal strings, enum names, and two members
of one oneof. The main theorems say that for every tree both encoders succeed or
both raise, that the document then reads as exactly the message, and that the
message is read back as the tree (`Restore.dfy`). `Compact.dfy` says what the
documents leave out.

**Batch processor.** `Processor.dfy` is a transition system whose steps are the
code between two awaits, for any number of tasks; `Lane.dfy` is one signal's
queue together with its whole submission history and the log of every removal.
`ProcessorTheorems.dfy` states what holds after any sequence of events, and
`ProcessorSteps.dfy` what a user sees of each step.
`BatchProcessor.dfy` is the class with its real fields; each method is proved to
perform the step it is the code of. `Rejections.dfy` says when the counters
count every record once, `Closing.dfy` what shutdown does for queued
records, and that it returns.

**Credentials.** `Credentials.dfy` is the same for the token cache, with a clock
and an endpoint that answers anything; `TokenCache.dfy` is the class.

**Export and retry.** `Retry.dfy` is the retry loop over what the surroundings
decide in each turn. `Export.dfy` is `_export` with a trace of its effects:
headers asked for, payloads sent, invalidations, sleeps. All its theorems hold
for every prefix of every run, whether or not the run ends. `Client.dfy` is the
closure with its flag and the loop around it. `SharedCache.dfy` puts any number
of exports and one token cache into one system.

**Headers.** `Headers.dfy` is `_parse_headers`, with `str.split`, `str.strip`,
`str.partition` and `urllib.parse.unquote` (percent-decoding to bytes, then
UTF-8 with replacement) written out, and a percent-encoding printer.

Where the code does not do what one might expect of it, the exact condition is a
theorem. A burst of rejections collapses into one mint exactly when no token is
committed between two of them (`BurstCollapses`). The encoders raise the same
error for a metrics tree except when the first thing wrong in it is a number
point with two faults (`MetricsErrors`). A batch is counted once exactly when no
collector reports a negative rejection count (`RecordsAreCountedOnce`). No
wake-up is lost exactly when the batch size is at least one (`NoLostWakeup`).
Retries at no cost go on for ever (`HurriedLoopGoesOn`).

## Model

| member | source | states |
|---|---|---|
| MetricsAgreement.MetricsEncodersAgree | tests/test_encoder_oracle.py:69-84 | For every metrics tree, of all five data kinds with exemplars, buckets and nested attributes, both encoders raise or both succeed, and then the JSON document reads as exactly the protobuf message, presence and -0.0 included |
| LogsAgreement.LogsEncodersAgree | src/otlp_client/encoding/json.py:265-303 | The same for every logs tree, with a body of any kind and optional ids |
| TracesAgreement.TracesEncodersAgree | src/otlp_client/encoding/json.py:306-372 | The same for every traces tree, with parent ids, links, events and a status that is absent, default or set |
| Restore.MetricsAreReadBack | src/otlp_client/encoding/protobuf.py:224-336 | Both encodings of every metrics tree that can be encoded are read back as that tree, by the field names and enum numbers of the proto files, up to what the wire cannot tell apart |
| Restore.LogsAreReadBack | src/otlp_client/encoding/protobuf.py:339-375 | The same for every logs tree, severities included |
| Restore.TracesAreReadBack | src/otlp_client/encoding/protobuf.py:378-442 | The same for every traces tree, span kinds and status codes included |
| Compact.MetricsAreCompact | src/otlp_client/encoding/json.py:57-262 | No object of a metrics document has a null or empty member, or an integer or threshold that a reader would assume, wherever the encoder has the choice |
| Compact.LogsAreCompact | src/otlp_client/encoding/json.py:265-303 | The same for logs documents |
| Compact.TracesAreCompact | src/otlp_client/encoding/json.py:306-372 | The same for traces documents |
| MetricsAgreement.ExemplarAgrees | src/otlp_client/encoding/json.py:76-94 | An exemplar with a boolean value or a bad attribute is refused by both encoders, any other reads as the message built for it |
| MetricsAgreement.NumberPointAgrees | src/otlp_client/encoding/json.py:97-115 | Number points agree: integers arrive as integers, doubles as doubles, booleans are refused by both |
| MetricsAgreement.HistogramPointAgrees | src/otlp_client/encoding/json.py:118-135 | Histogram points agree, with absent and zero sum, min and max told apart |
| MetricsAgreement.ExponentialPointAgrees | src/otlp_client/encoding/json.py:147-175 | Exponential points agree on all fourteen fields, with both bucket sides and the zero threshold's sign |
| MetricsAgreement.SummaryPointAgrees | src/otlp_client/encoding/json.py:178-201 | Summary points agree, a sum of -0.0 included |
| MetricsAgreement.MetricDataAgrees | src/otlp_client/encoding/protobuf.py:224-314 | Each of the five data kinds reads as the one case of the oneof that the protobuf encoder sets |
| MetricsAgreement.BucketsAgree | src/otlp_client/encoding/protobuf.py:170-188 | A bucket side is present in the message exactly when its JSON encoding is not the empty object, and then they agree |
| Agreement.ResourceAgrees | src/otlp_client/encoding/protobuf.py:131-148 | The emptiness test holds exactly when the JSON encoding is the empty object, and otherwise the resource reads as the message |
| Agreement.ScopeAgrees | src/otlp_client/encoding/protobuf.py:151-167 | The same for a scope, where an absent and an empty version are one |
| LogsAgreement.LogRecordAgrees | src/otlp_client/encoding/protobuf.py:339-353 | Log records agree on all ten fields |
| LogsAgreement.BodyField | src/otlp_client/encoding/json.py:272 | A body is never dropped, not even an empty text or container |
| TracesAgreement.SpanAgrees | src/otlp_client/encoding/json.py:328-350 | Spans agree on all thirteen fields |
| TracesAgreement.StatusAgrees | src/otlp_client/encoding/protobuf.py:411-420 | A status is in the message exactly when its JSON encoding is not the empty object, that is when it has a code or a message |
| Agreement.ValueAgrees | src/otlp_client/encoding/primitives.py:32-52 | The encoders agree on every attribute value, however deeply nested |
| Agreement.KeyValuesAgree | src/otlp_client/encoding/protobuf.py:123-128 | The encoders agree on every attribute mapping, in its order |
| Agreement.ImplicitDoubleField | src/otlp_client/encoding/json.py:165-173 | The bit pattern of a double of implicit presence survives: +0.0 by being dropped, -0.0 by being kept |
| Agreement.U64Field | src/otlp_client/encoding/primitives.py:17-19 | A 64-bit field is a decimal string that reads as the number, zero included |
| Json.OmitEmpty | src/otlp_client/encoding/primitives.py:60-66 | Nothing that is null, empty text or an empty container is left, and every other member is kept with its value |
| Json.OmitEmptyKeeps | src/otlp_client/encoding/primitives.py:60-66 | A member stays, with its value, exactly when it is not null, empty text, an empty list or an empty object |
| Json.OmitEmptyIsEmpty | src/otlp_client/encoding/primitives.py:60-66 | Nothing is left exactly when every member was empty |
| Decoding.DecodeInvertsEncode | src/otlp_client/encoding/primitives.py:32-57 | Decoding inverts the encoding of every value and every attribute mapping of the supported types |
| Decoding.EncodeAnyValueInjective | src/otlp_client/encoding/primitives.py:32-52 | Two different values never have the same encoding, so a boolean is never taken for an integer |
| Text.IntRoundTrip | src/otlp_client/encoding/primitives.py:17-19 | Reading a decimal string gives the number it was printed from |
| Text.HexRoundTrip | src/otlp_client/encoding/primitives.py:22-24 | Reading a hex id gives its bytes |
| Text.Base64RoundTrip | src/otlp_client/encoding/primitives.py:27-29 | Reading base64 with padding (section 4 of RFC 4648) gives the bytes, whatever their number |
| EncoderErrors.ExemplarErrors | src/otlp_client/encoding/protobuf.py:191-204 | An exemplar that cannot be encoded raises the same error in both encoders |
| EncoderErrors.PointErrors | src/otlp_client/encoding/protobuf.py:207-221 | A number point that cannot be encoded raises the same error in both encoders if and only if its value is no boolean or nothing else is wrong with it |
| EncoderErrors.MetricsErrors | src/otlp_client/encoding/protobuf.py:317-336 | A metrics tree that cannot be encoded raises the same error in both encoders if and only if the first thing in it that cannot be encoded is not a number point with a boolean value and another fault |
| EncoderErrors.ErrorsCanDiffer | src/otlp_client/encoding/json.py:97-115 | A gauge of one boolean point with an unsupported attribute is a tree on which the errors differ |
| EncoderErrors.LogsErrors | src/otlp_client/encoding/protobuf.py:356-375 | A logs tree that cannot be encoded raises the error of an unsupported attribute in both |
| EncoderErrors.TracesErrors | src/otlp_client/encoding/protobuf.py:423-442 | The same for a traces tree |
| ProtobufEncoder.AppendExponentialPoints | src/otlp_client/encoding/protobuf.py:264-287 | The loop builds, point by point, the list the specification function gives, or raises the first error |
| ProtobufEncoder.FillMetric | src/otlp_client/encoding/protobuf.py:224-314 | The dictionary filled step by step is the message that the agreement theorems are about |
| ProtobufEncoder.FillSpan | src/otlp_client/encoding/protobuf.py:378-420 | The same for a span and its conditional status |
| ProcessorTheorems.Conservation | src/otlp_client/processor.py:96-110 | In every reachable state, submitted = exported + dropped + rejected by the collector, capped at its batch + queued + in flight |
| Rejections.RecordsAreCountedOnce | src/otlp_client/processor.py:176-180 | In every reachable state, no batch counts as more exported records than it has if and only if no collector has reported a negative count, and then exported + dropped + queued + in flight never exceed submitted |
| Rejections.NothingIsCountedTwice | src/otlp_client/processor.py:164-180 | In every run in which every reported rejection count is at least zero, the rejected records are a number of records, and nothing is counted twice |
| Rejections.NegativeRejectionOvercounts | src/otlp_client/processor.py:178-180 | For every negative count there is a run after which more records are exported than were submitted |
| ProcessorTheorems.EveryRecordHasOneFate | src/otlp_client/processor.py:102-107 | Per signal, the queue is the tail of the submission history, and every record before it left in exactly one removal; removals come in order and do not overlap |
| ProcessorTheorems.GapsAreEvictions | src/otlp_client/processor.py:103-106 | A record that is neither in a batch nor queued was evicted, when the record max_queue places after it came |
| ProcessorTheorems.BatchIsSegment | src/otlp_client/processor.py:152-156 | The batch being exported is a contiguous segment of the history that ends where the history ended when it was drained |
| ProcessorTheorems.NoLostWakeup | src/otlp_client/processor.py:198-216 | In every reachable state in which the loop waits and a queue holds max_batch records the wake event is set, if and only if max_batch is at least one |
| ProcessorTheorems.ShutdownAccountsForEverything | src/otlp_client/processor.py:222-242 | Once shutdown has returned, and after anything that follows: queues are empty, nothing is in flight, submits are refused and change nothing, and submitted = exported + dropped + rejected |
| ProcessorTheorems.HealthIsTheHistory | src/otlp_client/processor.py:168-191 | For the outcomes of all exports resolved in a run, in their order: consecutive_failures counts the failures since the last success, each run of failures is logged once at WARNING, last_error tells the last outcome |
| ProcessorTheorems.VerdictsAreOutcomes | src/otlp_client/processor.py:157-180 | The history of outcomes in a state is the sequence of outcomes its run has resolved |
| ProcessorSteps.SubmitDoes | src/otlp_client/processor.py:96-110 | A submit to a closed processor changes nothing and is refused; an open one keeps the newest max_queue records of its own signal, counts what it took and pushed out, returns True exactly when nothing was pushed out, and wakes the loop when a batch is queued |
| ProcessorSteps.FlushDoes | src/otlp_client/processor.py:151-158 | A flush empties the first non-empty queue, in the order of the signals, into the batch in flight, or is over when all are empty |
| ProcessorSteps.ResolveDoes | src/otlp_client/processor.py:157-180 | What each of the three outcomes does to counters, failures, last error and warnings, after which the flush goes on with the signals that follow |
| ProcessorSteps.CancelDoes | src/otlp_client/processor.py:159-167 | A cancelled export drops its batch and frees the lock; a cancelled wait changes no counter; queues stay |
| ProcessorSteps.CanBeCancelled | src/otlp_client/processor.py:151-202 | A task can be cancelled exactly while it waits for the lock, exports, or idles as the loop |
| ProcessorSteps.OtherStepsDo | src/otlp_client/processor.py:198-242 | A turn of the loop clears both events and asks for the lock; shutdown closes first, and flushes once the loop is no longer alive |
| ProcessorSteps.WakeChanges | src/otlp_client/processor.py:108-109 | The wake event is set by a submit that leaves a full batch, cleared by a turn of the loop, and by nothing else |
| ProcessorInvariant.RunKeepsInv | src/otlp_client/processor.py:142-180 | Every run keeps the ledger of removals, the roles of lock and tasks, the health history and the shutdown guarantee |
| Lane.OverflowKeepsNewest | src/otlp_client/processor.py:102-107 | A submit of any length leaves the newest max_queue records in the queue and drops one for each beyond |
| Lane.PutAllOk | src/otlp_client/processor.py:96-107 | A submit appends to the history, keeps the queue its tail, and drops as many records as it evicts |
| BatchProcessors.BatchProcessor.constructor | src/otlp_client/processor.py:53-84 | A new processor is in the initial state |
| BatchProcessors.BatchProcessor.SubmitRecords | src/otlp_client/processor.py:96-110 | The method performs the submit step on its fields and returns whether the step accepts everything |
| BatchProcessors.BatchProcessor.AppendAll | src/otlp_client/processor.py:101-107 | The loop leaves the queue the specification gives, counts every record and every eviction, and reports one |
| BatchProcessors.BatchProcessor.FlushAcquired | src/otlp_client/processor.py:151-158 | Taking the lock performs the step up to the first export, and names the batch that is awaited |
| BatchProcessors.BatchProcessor.FlushLoop | src/otlp_client/processor.py:152-158 | The loop passes empty queues, drains the first other one before awaiting its export, or ends the flush |
| BatchProcessors.BatchProcessor.ExportResolved | src/otlp_client/processor.py:157-181 | A resolved export is counted and the loop taken up at the next queue, as one step |
| BatchProcessors.BatchProcessor.CountOutcome | src/otlp_client/processor.py:168-180 | The counters and health fields after an outcome are those of the step, and a warning is logged exactly when the step says so |
| BatchProcessors.BatchProcessor.ExportCancelled | src/otlp_client/processor.py:159-167 | A cancelled export counts its drained batch as dropped |
| BatchProcessors.BatchProcessor.LoopTurn | src/otlp_client/processor.py:198-208 | A turn of the background loop clears both events and waits for the lock |
| BatchProcessors.BatchProcessor.ExitCalled | src/otlp_client/processor.py:229-233 | Shutdown closes the processor before it awaits the loop |
| Closing.QueuedRecordsLeaveInBatches | src/otlp_client/processor.py:229-242 | Every record still queued when the processor is closed has left in a batch whose export is over when shutdown has returned: none is pushed out, none stays behind |
| Closing.NothingIsStuck | src/otlp_client/processor.py:151-158 | In every reachable state a running export can be resolved with any outcome, and a free lock can be taken by each task that waits for it |
| Closing.ShutdownReturns | src/otlp_client/processor.py:222-242 | From every reachable state in which shutdown has begun it returns: after the loop's cancellation, at most three resolved exports of the flush that holds the lock, and at most three of its own, whatever their outcomes |
| Credentials.SingleFlight | src/otlp_client/credentials.py:147-151 | Under any interleaving at most one token request is unanswered, and its caller holds the lock and has no usable token |
| Credentials.MintsAreAccountedFor | src/otlp_client/credentials.py:144-158 | Over any run, mints are exactly the tokens discarded by an invalidate while they could be used, the tokens that expired, and the one that can be used now |
| Credentials.BurstCollapses | src/otlp_client/credentials.py:149-150 | Rejections of any number that begin while a token is usable cost at most one mint if and only if no token is committed between two of them, no token expiring meanwhile |
| Credentials.ColdBurstCollapses | src/otlp_client/credentials.py:147-151 | A burst of calls without a usable token costs one mint if and only if no invalidate comes after a commit |
| Credentials.MintBound | src/otlp_client/credentials.py:144-158 | Mints are at most 1 + discarded usable tokens + expired tokens, so at most 1 + invalidates + expired tokens |
| Credentials.EachMintIsCharged | src/otlp_client/credentials.py:144-158 | Each mint after the first comes after an invalidate since the mint before it, or after that mint's own expiry |
| Credentials.MintBoundIsReached | src/otlp_client/credentials.py:157-158 | For every n there is a run of n late rejections, each of them after a commit, that costs n mints after the first |
| Credentials.HeadersCarryFreshToken | src/otlp_client/credentials.py:144-155 | Every header map carries the token committed last, after the most recent invalidate; from the cache only while more than the skew is left of the lifetime its answer gave it, or else in the step that committed it |
| Credentials.HeadersDo | src/otlp_client/credentials.py:144-147 | A call with a fresh token returns it at once and does nothing else; without one it waits for the lock |
| Credentials.AcquireDoes | src/otlp_client/credentials.py:147-152 | With the lock, a token that has become fresh is returned without a request; otherwise one request is made |
| Credentials.RespondDoes | src/otlp_client/credentials.py:195-248 | A good answer is committed with its lifetime from now and its token returned; any other leaves token and expiry and returns nothing |
| Credentials.ClassifyTable | src/otlp_client/credentials.py:200-242 | Which answers are transport errors, which are permanent, and what the others grant: a lifetime of expires_in, or the default, and never less than zero |
| Credentials.OtherStepsDo | src/otlp_client/credentials.py:157-158 | An invalidate clears the token and nothing else; a call or a request that is given up changes nothing else |
| Credentials.MintsWereAnswered | src/otlp_client/credentials.py:229-248 | Every mint of a run comes from an answer of that run |
| Credentials.TokenAndExpiryBelongTogether | src/otlp_client/credentials.py:242-248 | A cached token and its expiry come from one mint, with a lifetime of at least zero |
| Credentials.FailedRefreshLeavesCache | src/otlp_client/credentials.py:190-248 | A refresh that fails at any stage, or is cancelled, leaves token and expiry as it found them, apart from invalidates that came meanwhile |
| Credentials.NothingChangesDuringRefresh | src/otlp_client/credentials.py:147-151 | While a refresh runs nobody else mints, whatever other callers do |
| TokenCache.OAuth2ClientCredentials.HeadersCalled | src/otlp_client/credentials.py:144-146 | The fast path performs its step and returns the header the step returns, or none when it must wait |
| TokenCache.OAuth2ClientCredentials.LockAcquired | src/otlp_client/credentials.py:147-151 | The second check, under the lock, likewise |
| TokenCache.OAuth2ClientCredentials.RefreshAnswered | src/otlp_client/credentials.py:195-248 | The stages of a refresh perform the step: commit and header on success, on failure the classified error with token and expiry untouched |
| TokenCache.OAuth2ClientCredentials.InvalidateToken | src/otlp_client/credentials.py:157-158 | Invalidation clears the token and nothing else |
| Export.AtMostOneReauthentication | src/otlp_client/client.py:160-166 | Every export, at every moment, has invalidated at most once and sent at most once more than it has made attempts |
| Export.OnlyTransientSendsAreRepeated | src/otlp_client/client.py:154-171 | Every send before the last effect was answered Retryable, or refused for its credentials and followed by the one invalidate |
| Export.SecondRejectionIsPermanent | src/otlp_client/client.py:160-182 | Credentials refused after the re-authentication end the export with that send and a permanent error |
| Export.SendsCarryTheLatestHeaders | src/otlp_client/client.py:118-171 | Every send carries the same payload and exactly the configured headers overridden by the provider's, given directly before it; none uses headers from before an invalidate |
| Export.RefusalIsReauthenticated | src/otlp_client/client.py:160-166 | With a provider, the first send of an export that is answered 401 or 403 is always followed by an invalidate |
| Export.ProvidedHeadersAreSent | src/otlp_client/client.py:156-171 | Headers that the provider gives are always sent, after an invalidate too |
| Export.AttemptDoes | src/otlp_client/client.py:154-171 | An attempt case by case: its effects in order, its outcome, and the flag it leaves |
| Export.ReauthenticationIsImmediate | src/otlp_client/client.py:160-170 | An invalidate comes directly after a refused send and is followed by new headers and a send without a pause; without a provider there is none |
| Export.ProviderFailures | src/otlp_client/client.py:137-152 | A provider's transient failure is retried after a pause, without a send; any other failure ends the export as itself |
| Export.SuccessIsTheLastReply | src/otlp_client/client.py:173-185 | An export returns normally if and only if its last effect is a send that was accepted in full or in part, and returns that answer |
| Export.SleepsFitBudget | src/otlp_client/client.py:173-178 | The sleeps in an export's trace sum to at most max_elapsed |
| Export.ExportsEnd | src/otlp_client/retry.py:79-94 | When attempts cost at least eps, an export ends within ceil(max_elapsed / eps) attempts, or after the first |
| Export.AfterInvariant | src/otlp_client/client.py:130-178 | In every export the trace is in order, pauses where the loop pauses and ends as the loop ends |
| Retry.DelaysFitBudget | src/otlp_client/retry.py:84-93 | On a clock that advances at least by each sleep, the requested sleeps of a run sum to at most max_elapsed |
| Retry.AttemptsStartInBudget | src/otlp_client/retry.py:84-93 | Every attempt after the first starts no later than max_elapsed plus what the sleep before it took beyond the request, so with exact sleeps no later than max_elapsed |
| Retry.RetryAfterIsNeverShortened | src/otlp_client/retry.py:88-93 | After a server asked for a pause, the next attempt starts no sooner than that |
| Retry.DelaysAreDrawnOrAsked | src/otlp_client/retry.py:88-89 | A delay is exactly what the server asked for, or the jitter's share of the cap of that attempt, so between zero and the cap, which is at most max_backoff |
| Retry.PausesExactlyWhen | src/otlp_client/retry.py:80-93 | The loop sleeps after an attempt if and only if that was Retryable, the budget is not used up, and the pause that is due fits into the rest of it |
| Retry.EndsExactlyWhen | src/otlp_client/retry.py:79-94 | The loop goes on exactly while it sleeps uninterrupted; it ends with the last outcome or with the interruption |
| Retry.CapsGrowByTheMultiplier | src/otlp_client/retry.py:88 | The first cap is the first backoff, and each next one the multiple of the one before, up to max_backoff |
| Retry.CapIsNotNegative | src/otlp_client/retry.py:88 | With settings that are not negative no cap is negative |
| Retry.CapsDoNotFall | src/otlp_client/retry.py:88 | With a multiplier of at least one and a first backoff of at least zero the caps do not fall from attempt to attempt |
| Retry.AttemptsAreBounded | src/otlp_client/retry.py:79-94 | When each attempt costs at least eps, there are at most ceil(max_elapsed / eps), or one |
| Retry.HurriedLoopGoesOn | src/otlp_client/retry.py:79-94 | The bound is exact: after n attempts of cost eps and no delay the loop goes on if and only if n * eps is below max_elapsed, so at no cost it never ends |
| Retry.ResultIsLastOutcome | src/otlp_client/retry.py:80-82 | The result is the last attempt's outcome, and every earlier outcome was Retryable |
| Retry.GivesUpOnlyForBudget | src/otlp_client/retry.py:84-92 | A Retryable outcome is returned only when the budget is used up or the delay that was due does not fit into the rest of it |
| Client.Closure.ResolveHeaders | src/otlp_client/client.py:137-152 | The method asks the provider once, if there is one, and gives the headers, the retryable outcome or the error |
| Client.Closure.Try | src/otlp_client/client.py:154-171 | The closure's outcome, flag and effects are those of the specification |
| Client.Closure.LoopTurn | src/otlp_client/retry.py:80-94 | One turn of the loop performs the specification's turn, with the clock and the attempt counter it needs for the next |
| Client.Closure.WithRetry | src/otlp_client/retry.py:59-94 | The loop of any run that ends returns the result of that run and has its trace |
| Client.RunsEndInTime | src/otlp_client/retry.py:79-94 | A run whose attempts each take some least time ends |
| Client.OTLPClient.ExportData | src/otlp_client/client.py:130-185 | No data and a failed encoding have no effects; otherwise result and trace are those of the whole run, with Permanent and Retryable raised |
| SharedCache.MintsPerExport | src/otlp_client/client.py:160-166 | When any number of exports share one cache, in any interleaving with other callers, mints are at most 1 + exports + expired tokens |
| SharedCache.SentTokensAreCurrent | src/otlp_client/client.py:154-171 | In that system every send carries a token committed after all invalidates of its export, so a re-authenticated send carries a token minted after the refusal |
| SharedCache.AnExportIsServed | src/otlp_client/client.py:154-159 | The system can run: an export on an empty cache is given a minted token and sends it |
| Headers.ParseHeaders | src/otlp_client/config.py:308-318 | The loop computes the specified map, or raises for the first malformed entry |
| Headers.FailsExactlyOnMalformedEntries | src/otlp_client/config.py:311-316 | Parsing fails if and only if some entry has no '=' and holds a character that is no space, and names the first of them |
| Headers.PartitionSplits | src/otlp_client/config.py:314 | An entry is split exactly when it has a separator, at the first one, and nothing is lost |
| Headers.StripTrims | src/otlp_client/config.py:312-317 | Stripping takes all spaces from both ends and nothing else |
| Headers.EntryParts | src/otlp_client/config.py:314-317 | The key of an entry is what stands before its first '=', without the spaces around it, percent-decoded, and the value likewise |
| Headers.MalformedUtf8 | src/otlp_client/config.py:317 | Overlong, truncated, surrogate and out-of-range sequences become replacement characters, one for each longest valid prefix |
| Headers.LastOccurrenceWins | src/otlp_client/config.py:310-318 | The keys are exactly those some entry gives, each with the value of the last entry that gives it |
| Headers.ParseInvertsPrint | src/otlp_client/config.py:308-318 | Parsing a percent-encoded list printed from any pairs, none included, gives their map, whatever characters they contain, whatever harmless ones the printer leaves, in either case of hex digits and with blanks around keys and values |
| Headers.HeaderMapsRoundTrip | src/otlp_client/config.py:308-318 | Every header map comes back, in whatever order it is printed |
| Headers.UnquoteInvertsQuote | src/otlp_client/config.py:317 | Percent-decoding inverts every percent-encoding of UTF-8 |
| Headers.PlainTextUnquotesToItself | src/otlp_client/config.py:317 | A text without an escape means itself: percent signs without two hex digits stay, and so do non-ASCII characters |
| Headers.Utf8RoundTrip | src/otlp_client/config.py:317 | Decoding UTF-8 inverts encoding for every text |
| Headers.JoinInvertsSplit | src/otlp_client/config.py:311 | Splitting at commas loses nothing and leaves no comma |

## Left out

- JSON text and protobuf bytes: the model stops at the document and at the message object. `orjson`, `json` and `SerializeToString` are libraries.
- Model values outside the ranges of their wire fields, where protobuf raises `ValueError` and the JSON encoder does not; NaN, infinities and rounding of doubles.
- JSON member names are an enumeration whose constructors are spelled as the names, so a misspelt name is not expressible.
- The reader of documents refuses some things the mapping allows: 64-bit numbers, 32-bit strings, strings for doubles, a null case of a oneof. The encoders write none of them.
- `decode_response` of both encoders: they deliberately differ on a partial success that is present but zero.
- The transports, TLS, gzip, HTTP and gRPC status classification, `endpoint_for`, `from_env` and the other environment parsers, `BearerToken`, `BasicAuth`, request forms and sessions, profiles: I/O, library calls, or settled by reading one branch.
- The text of log messages and of exceptions; only which exception is raised and at which level a failed export is logged.
- `parse_retry_after`: its result is any pause of at least zero, or none.
- A sleep of a negative time, which negative backoff settings can ask for, ends at once, as `asyncio.sleep` does.
- Floating-point rounding of times and the overflow of `multiplier**attempt`: times are reals.
- The last-resort handlers of the background loop and of shutdown for exceptions that `flush` never raises (src/otlp_client/processor.py:209-215, 236-241).
- Queues are sequences with the bound of `deque(maxlen)`, not the storage of a deque. A processor is entered once and left once.
- A suspended flush, a waiting `headers` call and a running export are described by the states of the transition systems; the classes have one method for the code between two suspensions, and the interleaving of these methods is the transition system's.
- The clock does not move within a step, so `_usable` and the commit of a refresh read one time.
- Token endpoint answers are classified by status, kind of body, token and expiry; the parsing of their JSON is not modelled.
- Client.Closure.WithRetry: is about runs that end, since a method has to; `RunsEndInTime` gives a condition for that, and the theorems of modules Retry and Export are stated for every prefix of every run, ending or not.
- Headers: Dafny characters are Unicode scalar values, so lone surrogates in an environment variable are not covered.
