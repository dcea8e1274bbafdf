# provider-openai: job lifecycle and connection resumption, in Dafny

This project models the core of `@derouter/provider-openai`. That program is a
marketplace provider. It receives completion jobs for OpenAI-compatible
models, forwards each one to an upstream completion API, bills the usage and
lets the requester read the answer as a sequence of frames. The frames are a
prologue, then the chunks or the response, then an epilogue.

The model covers:

- the `jobs` table (`JobSchema`, `JobStore`): one row per job, keyed by rowid.
  The identity columns are mandatory; the result columns are nullable.
- the replay buffer each job writes into (`ReplayBuffer`): a log of frames
  plus an end marker. Every reader gets the log from its first frame.
- the two job processors (`Jobs`):
  - `process` drives one upstream call and records its outcome in the buffer,
    the table and the marketplace.
  - `prefetch` rebuilds the buffer from a stored row.
  - `connect` hands a reader the buffer.
- the orchestrator (`Provider`): the `onCreateJob` validation chain, the
  nonce mint `onPrepareJobConnection`, and `onJobConnection`. The last one
  redeems a nonce by reusing or rehydrating the row's processor.
- the older connection loop (`Legacy`): one connection carries a sequence
  of requests. Each request creates a marketplace job before it is checked.
- supporting values (`Protocol`, `Decimal`, `Marketplace`, `Wrappers`): JSON
  values, frames, the public payload's allow-lists, nonce text, and the
  marketplace calls.

Everything outside the program becomes a value or a parameter:

- the upstream API's behaviour for one job, as `StreamingUpstream` or
  `NonStreamingUpstream`;
- the marketplace's answers (`completedAtSync`, the ids returned on job
  creation);
- the JSON parser and the request-body schema check;
- the cost function.

Each `process` and `onConnection` is specified by a function of these inputs
that describes the whole run (`StreamingRun`, `NonStreamingRun`, `Serve`).
The methods are proved to do what the function says, and lemmas state what
the function implies.

Some behaviours of the code are easy to miss. The model keeps them as written:

- The `openai_error` update in `process` has no rowid filter, so it marks
  every row. `ErrorMarksCompletedRows` and `ForeignFailureRewritesReplay`
  state the consequences.
- A non-streaming replay has no epilogue (`NonStreamingReplayLacksEpilogue`).
- The (provider peer, provider job id) index is not unique. The lookup
  returns some matching row.
- The legacy loop creates the marketplace job before it validates the body
  or the model id (`JobCreatedBeforeValidation`).
- `onCreateJob` never compares the body's model with the offer's
  (`AdmitIgnoresModelId`).

## Model

| member | source | states |
|---|---|---|
| JobSchema.SetErrorOnAll | src/jobs.ts:104-106 | the error write without a `where` clause: every row keeps its key, identity columns, output, balance delta, public payload and completion time, and gets `openaiError == message` |
| JobSchema.CompleteWhere | src/jobs.ts:228-236 | the completion write filtered by rowid: only that row changes, its four result columns become the given values, and every other row is unchanged |
| JobSchema.ApplyEffect | src/lib/drizzle/schema/jobs.ts:7-16 | no table write adds or removes a rowid or changes the mandatory provider peer id, provider job id, input or streaming flag of any row |
| JobSchema.EffectKeepsShape | src/jobs.ts:228-236 | a completion write whose output shape matches the row's streaming flag keeps every stored output consistent with its flag; the error write never touches outputs |
| JobSchema.ErrorMarksCompletedRows | src/jobs.ts:144-145 | another job's error write leaves a completed row with both its output and the error message |
| JobStore.JobStore.constructor | src/lib/drizzle/schema/jobs.ts:4-18 | an empty table whose rowids start at 1 |
| JobStore.JobStore.Insert | src/provider.ts:120-132 | the insert adds exactly one row under a fresh rowid, with the given identity columns and every nullable column absent |
| JobStore.JobStore.SetOpenAiErrorOnAll | src/jobs.ts:316-318 | the table becomes `SetErrorOnAll` of the old table |
| JobStore.JobStore.CompleteRow | src/jobs.ts:407-415 | the table becomes `CompleteWhere` of the old table for this rowid |
| JobStore.JobStore.FindByRowid | src/jobs.ts:18-20 | the lookup by primary key finds a row iff the rowid is present, and then returns that row |
| JobStore.JobStore.FindFirstByKey | src/provider.ts:157-166 | returns some row matching (peer id, job id) when one exists, and nothing iff no row matches |
| Protocol.Pick | src/jobs.ts:171-180 | `pick` keeps exactly the listed keys that the object has, with their values |
| Protocol.BuildPublicPayload | src/jobs.ts:167-205 | the public payload keeps the usage; its request part holds only allow-listed fields of the input, with their values, and every allow-listed field the input has |
| Protocol.PublicPayloadHidesContent | src/index.ts:268-306 | the prompt and the chat messages never enter the public payload |
| Protocol.ChunkFrames | src/jobs.ts:45-47 | one frame per chunk, in order, each carrying that chunk |
| Protocol.LastUsageIsLastCarrier | src/jobs.ts:135-139 | the billed usage is `u` iff some chunk carries `u` and no later chunk carries usage |
| Protocol.LastUsageNoneIffNoCarrier | src/jobs.ts:165 | `assert(usage)` fails iff no chunk carries usage |
| Decimal.DigitChar | src/provider.ts:178 | each digit value below ten renders as a digit character that reads back as that value |
| Decimal.NatToDecimal | src/provider.ts:178 | `nonce.toString()` of a counter value is a non-empty string of digits |
| Decimal.DigitPrefix | src/provider.ts:192 | the longest digit prefix: all digits, a prefix of the input, followed by a non-digit or the end |
| Decimal.ParseInt | src/provider.ts:192 | empty text reads as NaN, a string of digits reads as its decimal value, and unsigned text never reads as a negative number |
| Decimal.DigitPrefixOfDigits | src/provider.ts:192 | a string made only of digits is its own digit prefix |
| Decimal.DecimalValue | src/provider.ts:178 | the digits of a counter value's rendering have that value |
| Decimal.NonceRoundTrip | src/provider.ts:169-192 | `parseInt(n.toString()) == n` for every counter value |
| Decimal.NonceTextInjective | src/provider.ts:169-178 | two counter values have the same nonce text iff they are equal |
| ReplayBuffer.ReplayBuffer.constructor | src/jobs.ts:13 | a new buffer is empty and open |
| ReplayBuffer.ReplayBuffer.Write | src/jobs.ts:27-29 | a write appends one frame to the log |
| ReplayBuffer.ReplayBuffer.End | src/jobs.ts:31 | `end()` closes the buffer and keeps the log |
| ReplayBuffer.ReplayBuffer.Rewind | src/jobs.ts:64 | `rewind()` hands over the whole log from its first frame, and whether it has ended |
| Marketplace.Rpc.constructor | src/provider.ts:42 | no marketplace call made yet |
| Marketplace.Rpc.FailJob | src/jobs.ts:108-116 | appends one `failJob` call with its peer id, job id, reason and class |
| Marketplace.Rpc.ProviderCompleteJob | src/jobs.ts:209-218 | appends one `providerCompleteJob` call with the balance delta and public payload |
| Jobs.RunsAreWellOrdered | src/jobs.ts:95-243 | every frame sequence `process` writes is empty or starts with its only prologue, and has at most one epilogue, last |
| Jobs.EmptyRunsIff | src/jobs.ts:300-337 | `process` writes no frame iff the create call throws a non-OpenAI error, or a non-streaming answer has no usage; a stream that breaks before its first chunk has already written Ok |
| Jobs.CreateErrorFailsService | src/jobs.ts:95-119 | an OpenAIError from the create call, in either processor, writes a lone ServiceError prologue, leaves the buffer open, sets the error on all rows and fails the job with the ServiceError class |
| Jobs.ReplaysAreWellOrdered | src/jobs.ts:26-60 | every frame sequence `prefetch` writes is non-empty, starts with a prologue and is well ordered |
| Jobs.StreamingCompletesIff | src/jobs.ts:134-165 | a streaming job completes iff the stream ends without error and some chunk carried usage; only then does it write the output, close the buffer and call `providerCompleteJob` |
| Jobs.StreamingSuccessFrames | src/jobs.ts:127-139 | streaming success writes Ok, each upstream chunk in arrival order, then a `derouter.epilogue` frame billing the last usage seen |
| Jobs.MidStreamErrorWritesNothingMore | src/jobs.ts:140-159 | a mid-stream OpenAIError writes no frame after the forwarded chunks, leaves the buffer open, sets the error on all rows and fails the job with the ServiceError class |
| Jobs.NonStreamingUsageCheckedFirst | src/jobs.ts:337-338 | a response without usage fails the assertion before any frame, table write or marketplace call |
| Jobs.StreamingReplayEqualsLive | src/jobs.ts:32-56 | for a completed streaming row without error text and with a nonzero completion time, prefetch rebuilds exactly the frames `process` wrote |
| Jobs.NonStreamingReplayLacksEpilogue | src/jobs.ts:267-274 | for a completed non-streaming row without error text, prefetch rebuilds the live frames without the third frame, the epilogue |
| Jobs.ServiceFailureReplay | src/jobs.ts:26-31 | after an OpenAIError the job's pending row replays as a lone ServiceError frame, which ends the stream, though the live buffer stays open; an empty message reads as in progress |
| Jobs.ForeignFailureRewritesReplay | src/jobs.ts:261-266 | one job's OpenAIError with a non-empty message makes every row replay as a lone ServiceError frame, even a completed row, because the error is checked before the output |
| Jobs.UnfinishedRowsDoNotReplay | src/jobs.ts:22-24 | a missing row, or one with neither error text nor output, makes both prefetches throw, the streaming one having written nothing |
| Jobs.SingleResponseStallsStreamingReplay | src/jobs.ts:32-47 | a finished single response met by the streaming prefetch writes the Ok prologue and then throws, leaving a lone Ok frame on a buffer that never ends |
| Jobs.StreamingCompletionJob.constructor | src/jobs.ts:13-15 | a processor for the rowid with an empty, open buffer |
| Jobs.StreamingCompletionJob.Prefetch | src/jobs.ts:17-61 | appends and closes exactly the frames `StreamingReplay` gives for the stored row, or reports its fault with the buffer left open, having appended only the Ok prologue when a stored single response is not iterable |
| Jobs.StreamingCompletionJob.Connect | src/jobs.ts:63-65 | a reader receives the whole log from its first frame, and the end marker |
| Jobs.StreamingCompletionJob.ForwardChunks | src/jobs.ts:131-139 | forwards every delivered chunk in order as a frame and returns the last usage carried |
| Jobs.StreamingCompletionJob.Relay | src/jobs.ts:125-243 | after the create call succeeds, the buffer, end marker, table, marketplace calls and outcome are those of `StreamedRun` for the delivered chunks and the way the stream ended |
| Jobs.StreamingCompletionJob.Process | src/jobs.ts:67-244 | the buffer, the end marker, the table, the marketplace calls and the outcome are those of `StreamingRun` for the upstream's behaviour |
| Jobs.NonStreamingCompletionJob.constructor | src/jobs.ts:248-250 | a processor for the rowid with an empty, open buffer |
| Jobs.NonStreamingCompletionJob.Prefetch | src/jobs.ts:252-279 | appends and closes exactly the frames `NonStreamingReplay` gives for the stored row, or reports its fault with the buffer untouched and open |
| Jobs.NonStreamingCompletesIff | src/jobs.ts:306-423 | a non-streaming job completes iff the call answers with usage; only then does it write the output, close the buffer and call `providerCompleteJob` |
| Jobs.NonStreamingCompletionJob.Connect | src/jobs.ts:281-283 | a reader receives the whole log from its first frame, and the end marker |
| Jobs.NonStreamingCompletionJob.Process | src/jobs.ts:285-423 | the buffer, the end marker, the table, the marketplace calls and the outcome are those of `NonStreamingRun` |
| Provider.Admit | src/provider.ts:77-116 | args are refused only after the protocol and offer checks pass, and an admitted job carries the offer its id names |
| Provider.AdmittedIff | src/provider.ts:77-118 | a job is admitted iff protocol, offer, args presence, JSON and schema all pass; a foreign protocol or unknown offer throws, and every args problem returns InvalidJobArgs |
| Provider.AdmitIgnoresModelId | src/provider.ts:104-118 | a body naming another model than the offer's is admitted all the same |
| Provider.ReplayFaultsOnWellShapedRows | src/provider.ts:203-207 | rehydrating a well-shaped row of the stored variant can only fail because the row is unfinished or lacks completion fields |
| Provider.StartKeepsConsistent | src/provider.ts:120-147 | inserting a pending row, running its job and registering its processor keeps every nonce and processor pointing at an existing row of the matching variant |
| Provider.Launch | src/provider.ts:134-145 | creates the processor of the selected variant for the rowid and runs its `process` to completion |
| Provider.OpenAiProxyProvider.constructor | src/provider.ts:18-49 | counter at 0, no processors, no awaiting connections |
| Provider.OpenAiProxyProvider.OnCreateJob | src/provider.ts:72-152 | rejections and refusals change nothing; an admitted body inserts one row with `streaming = input.stream ?? false`, registers a processor of that variant under the new rowid, returns Ok, and has the run's effects |
| Provider.OpenAiProxyProvider.StartJob | src/provider.ts:118-151 | exactly one new row and one new processor, under the same fresh rowid, with the run's frames, table write and calls |
| Provider.OpenAiProxyProvider.OnPrepareJobConnection | src/provider.ts:154-185 | JobNotFound iff no row matches, and then nothing changes; otherwise returns the counter's decimal text, increments the counter and binds that nonce to a matching row and its streaming flag |
| Provider.OpenAiProxyProvider.OnJobConnection | src/provider.ts:187-213 | fails iff the nonce does not parse to a registered one, and never removes it; reuses the row's processor or creates, prefetches and registers one of the stored variant; the reader receives that processor's log |
| Provider.ReconnectSeesSameFrames | src/provider.ts:192-212 | redeeming a nonce twice gives both readers the same frames and end marker |
| Provider.PreparedNonceRedeems | src/provider.ts:169-196 | a nonce just issued for a job redeems into a connection, and JobNotFound yields nothing to redeem |
| Provider.SuccessiveNoncesDiffer | src/provider.ts:169 | two nonces issued one after the other are different |
| Legacy.ReasonCode | src/index.ts:13-30 | the class a legacy `failJob` call carries is the enum's numeric code: below four, and 0 only for UnhandledError |
| Legacy.ReasonCodesDistinct | src/index.ts:13-30 | distinct failure classes travel as distinct codes, so the marketplace can tell them apart |
| Legacy.StepFailuresAreClassified | src/index.ts:159-236 | every job a request fails carries the code of a class other than UnhandledError, and that class matches the detail: schema issues, model mismatch or upstream error |
| Legacy.ReadsAfterEndAreIgnored | src/index.ts:137-140 | nothing after an empty request or the end of input is consumed |
| Legacy.JobCreatedBeforeValidation | src/index.ts:142-146 | every non-empty request first calls `providerCreateJob` with the connection id and the request |
| Legacy.InvalidBodyEndsConnection | src/index.ts:148-173 | a schema-invalid body fails the job with ProtocolRequestBody, writes one ProtocolViolation frame and ends the loop |
| Legacy.ModelMismatchEndsConnection | src/index.ts:175-198 | a model id other than the offer's fails the job with ProtocolModelId, writes one ProtocolViolation frame and ends the loop |
| Legacy.UpstreamErrorKeepsConnection | src/index.ts:228-243 | an upstream call error fails the job with OpenAIError, writes ServiceError (after an Ok prologue when non-streaming) and serves the next request |
| Legacy.ChargedIffUsage | src/index.ts:245-333 | a request is completed and billed iff upstream delivered usage; then the epilogue is the last frame and bills that usage |
| Legacy.StreamingSuccessFrames | src/index.ts:245-264 | streaming success writes Ok carrying the provider job id and creation time, each chunk in order, then the epilogue, and is well ordered |
| Legacy.ContinuingStepsAreWellOrdered | src/index.ts:339-381 | every request that returns to the loop wrote one prologue, first, except a non-streaming upstream error, which wrote Ok and then ServiceError |
| Legacy.ServeRequest | src/index.ts:142-466 | serving one request writes, calls and decides exactly what `ServeStep` says |
| Legacy.ServeStreaming | src/index.ts:199-336 | serving a streaming request writes, calls and decides exactly what `StreamingStep` says |
| Legacy.ForwardChunks | src/index.ts:245-264 | writes the Ok prologue with the job's ids, then every delivered chunk in order, and returns the last usage carried |
| Legacy.ServeNonStreaming | src/index.ts:337-466 | serving a non-streaming request writes, calls and decides exactly what `NonStreamingStep` says |
| Legacy.ChunkFramesSnoc | src/index.ts:256-262 | forwarding one more chunk appends its frame |
| Legacy.LastUsageSnoc | src/index.ts:258 | a chunk with usage replaces the usage kept so far |
| Legacy.OnConnection | src/index.ts:115-470 | the whole loop writes, calls and ends exactly as `Serve` says for the reads it sees |

## Left out

- I/O is not modelled: CBOR encoding, piping, backpressure, the RPC transport, the SQLite adapter and the OpenAI client. Frames, rows and calls are values, and upstream behaviour is an input.
- Concurrency is not modelled. `Promise.all` writes are sequenced as frame, then table, then marketplace. The unawaited `process` and `prefetch` run to completion inside the call that starts them; how their promise settles is a ghost out-parameter.
- A rejected `process` or `prefetch` is an unhandled rejection, and its effect on the Node process is not modelled.
- Floating point is not modelled: the configuration's price check, `parseEther` and `parseWeiToEth`. Prices are the wei strings configuration produced.
- `calcCost` is a parameter of the cost function. Its fixed-point arithmetic is external, so no property of amounts is claimed.
- `JSON.stringify` and `JSON.parse` of stored values are identity. A row stores typed values, and the private payloads sent to the marketplace are not modelled.
- The JSON parser of `job_args` and the valibot schemas are parameters. The schema's issue list appears only as text in the legacy `failJob` reason.
- Protocol.RequestBody.Streams: the request-body schema makes `stream` an optional boolean, so only `true` selects streaming. The schema check is a parameter that does not enforce this; a body with a truthy non-boolean `stream` would stream in the source and not in the model.
- Configuration loading, argument parsing, `init` with `providerProvideOffer`, and logging are not modelled.
- `src/lib/drizzle.ts` and the migration runner are not part of this model.
- Provider.OpenAiProxyProvider.OnCreateJob: the offers lookup is a map lookup. JavaScript prototype keys such as `constructor` are not modelled.
- Provider.OpenAiProxyProvider.OnJobConnection: `parseInt` is modelled for decimal text with an optional sign. Leading whitespace, hexadecimal prefixes and loss of precision above 2^53 are not modelled.
- JobStore.JobStore.Insert: SQLite assigns one more than the largest rowid; the model uses a counter. Rows are never deleted, so the two agree.
- Jobs.NonStreamingCompletionJob.Prefetch: writing a chunk list where a single response was expected is reported as the fault ShapeMismatch. The source would write the whole array as one frame. Such a row cannot arise in a well-shaped table.
- Legacy.OnConnection: a rejected marketplace call is not modelled; every call is assumed to answer.
- Legacy.ServeRequest: the interleaving of frame writes and marketplace calls is not kept. Frames and calls are two separate sequences, each in order.
