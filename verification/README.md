# ModelHub in Dafny

ModelHub is a gateway in front of several AI providers. This project models its hard parts and
proves what they promise:

- **The generation task protocol** (`TaskStore`, `GenerationProtocol`, `ProtocolInvariant`,
  `ProtocolSafety`, `ProtocolTiming`, `ProtocolAnswers`, `ProtocolRuns`). `SubmitGeneration` and `GetGeneration` run on any number
  of pods over one table and coordinate only by a unique key and by conditional updates. The
  model is a transition system. A statement is sent, takes effect at any later time or never,
  and its sender hears the result or an error whichever really happened; a request that crashes
  takes no further step; pods have clocks of their own. The theorems hold in every reachable
  state or over every run: what is never said or done, what each step answers, and why a row
  is as it is.
- **Streaming loops**: the look-ahead chunker of videos (`VideoChunks`), the polling job
  (`VideoJob`), the submit loop of LTX and its composition with the protocol (`LtxSubmit`), the
  numbered text stream (`TextStream`, `TextStreamMeaning`) and the concurrent speech stream
  (`SpeechStream`).
- **Routing under hot reload** (`Config`, `Routing`, `Factory`, `HotReload`): validation, the
  routing relation, reloads that interleave their load, check and store, and what a request
  resolves to against clients that were built at start-up.
- **Meaning-preserving transformations**: the Gemini tool schema sanitizer (`ToolSchema`), the
  DashScope cache marker (`CacheMarkers`), the OminiLink parameter normaliser (`VideoParams`)
  and the bearer key parser (`BearerKey`).

`Options`, `GoStrings`, `ProviderErrors` and `Delivery` hold what the others share; `Delivery` is
the log of calls made to a receiver of events, which may answer each call in any way. Loops and objects of the
source are methods and classes proved against specification functions; concurrency is modelled
by steps that interleave; everything else is functions and lemmas.

## Where the code differs from what is said about it

- The age limit of a PENDING task is applied by Get only: a repeated Submit answers PENDING at
  any age (`ProtocolTiming.PendingCanBeToldExactlyWhen`).
- "Outcome unknown" is a guess from the error. For LTX it misses jobs that may exist: a success
  without a usable body, and the codes 400, 401, 403 and 422, are stored as definite failures
  although only 404 and 429 are taken for certain rejections. And it covers certain rejections:
  three times 404, and a context that ended before a try
  (`LtxSubmit.PossibleJobIsNotMarkedExactlyWhen`, `LtxSubmit.CertainRejectionIsMarkedExactlyWhen`).
- A video body that is cut short by the connection ends with `io.ErrUnexpectedEOF`, which the
  chunker treats as the normal end. It is the only read error after which the caller gets a
  final block (`VideoChunks.SuccessExactly`, `VideoChunks.TruncatedBodyIsDeliveredAsComplete`).
- A `task_failed` message of the speech provider is overlooked exactly when it also carries
  audio (`SpeechStream.FailureIsMissedExactlyWhen`).
- A text stream that ends without `[DONE]` can count as complete
  (`TextStreamMeaning.UnmarkedBodySucceedsExactlyWhen`); a tool index is cut to 32 bits
  (`TextStreamMeaning.FragmentIsVerbatim`).
- `ParseAndValidateYAML` is said to reject several documents. When the second document decodes
  into an empty struct, it returns the zero configuration without an error
  (`HotReload.AlwaysValidExactlyWhen`).
- Keys of `model_routes` that become equal by trimming may make the route depend on map
  iteration order (`Routing.RoutesAreDeterminedExactlyWhen`, `Routing.AmbiguousHasTwoRoutings`).
- `ProviderSupports` and `buildProvider` disagree on an OpenAI section beside a VertexAI or Ark
  section; validation excludes such a provider (`Factory.SlotsAgreeExactlyWhen`).
- The sanitizer does not loosen every schema: values listed by `enum` are rewritten too, and
  below `not` a dropped restriction becomes a stricter schema
  (`ToolSchema.EnumLoosensExactlyWhen`, `ToolSchema.NegationLoosensExactlyWhen`). Outside
  `properties` every key of that name is dropped, so a definition called `additionalProperties`
  below `$defs` is lost (`ToolSchema.KeptExactlyOutsideTheKeyword`).
- The comment on the cache marker speaks of the first system message that contains text. The
  code looks at the first system message only (`CacheMarkers.MarksTheFirstTextExactlyWhen`).
- An assistant message with tool calls is sent without its images
  (`CacheMarkers.ConversionKeepsTokensExactlyWhen`).

## Model

| member | source | states |
|---|---|---|
| ProviderErrors.SubmitVerdictIsProper | internal/service/modelhub/generation.go:402-408 | every failure, of a submit or of a finished job, is stored with a code other than OK and a reason |
| ProviderErrors.NormalizeDescribes | internal/service/modelhub/generation.go:402-408 | what is stored for a failed job: code, message and reason from the chain of wrapped errors, kind by kind, with an ended context first |
| ProviderErrors.SubmitVerdictDescribes | internal/service/modelhub/generation.go:129-136 | what is stored for a refused submission: "outcome unknown" when the chain holds an ended context, no error of this service, or an unavailable or timed out one first; else the same description |
| ProviderErrors.DescriptionIsUnique | internal/provider/status.go:16-59 | that description leaves no choice of code, message or reason |
| TaskStore.CommitIsLegal | internal/taskstore/store.go:149-209 | every statement makes one of four moves on one row, keeps the unique index, changes no other row and never rewrites identity or a terminal row |
| TaskStore.Postgres.InsertPending | internal/taskstore/store.go:86-118 | at most one row per key; the same hash gives the first task back, another hash a conflict, and neither changes the table |
| TaskStore.SameStateMeansSameRow | internal/taskstore/store.go:120-209 | after a read, whatever statements follow, the whole row is as it was read or its state has moved on for good, so comparing the state is enough |
| TaskStore.WriteHitsTheRowRead | internal/taskstore/store.go:169-188 | a conditional write that expects the state which was read changes only the row which was read |
| TaskStore.Postgres.MarkRunning | internal/taskstore/store.go:149-167 | only a PENDING row becomes RUNNING, together with its provider id; an error may hide that it did |
| TaskStore.Postgres.MarkFailed | internal/taskstore/store.go:169-188 | only a row in the expected state becomes FAILED; "not found" means that nothing changed |
| TaskStore.Postgres.MarkSucceeded | internal/taskstore/store.go:190-209 | only a RUNNING row becomes SUCCEEDED |
| ProtocolInvariant.SendInsertKeeps | internal/service/modelhub/generation.go:101-110 | sending the insert keeps the invariant: a new PENDING row in flight, recorded as its request asked |
| ProtocolInvariant.HearInsertKeeps | internal/service/modelhub/generation.go:110-126 | so does its answer: a submitter goes on to its provider only when the row is its own |
| ProtocolInvariant.LookUpKeeps | internal/taskstore/store.go:107-117 | so does the look-up after a conflict: the reported state is that of the row with this key and hash |
| ProtocolInvariant.StartSubmissionKeeps | internal/service/modelhub/generation.go:126 | so does the start of a submission: its task was never submitted before |
| ProtocolInvariant.ProviderAnswersKeeps | internal/service/modelhub/generation.go:126-147 | so does the provider's answer: the statement sent carries exactly that id or a proper failure |
| ProtocolInvariant.HearSaveKeeps | internal/service/modelhub/generation.go:137-158 | so does hearing whether it was stored: RUNNING or FAILED is answered only when the row is known to be so (which answer comes when is `ProtocolAnswers.SaveIsAnswered`) |
| ProtocolInvariant.ReadKeeps | internal/service/modelhub/generation.go:179-195 | so does the read of a Get, with the check of a public caller |
| ProtocolInvariant.DecideKeeps | internal/service/modelhub/generation.go:197-294 | so does the decision of a Get: it reports what it read or sends a write that expects it (which of them when is the subject of `ProtocolAnswers`) |
| ProtocolInvariant.HearSettleKeeps | internal/service/modelhub/generation.go:234-287 | so does the report after a write: a terminal state is told only when the row has it |
| ProtocolInvariant.StatementTakesEffect | internal/taskstore/store.go:86-209 | a statement may reach the table at any time after it was sent, and keeps the invariant |
| ProtocolInvariant.StepKeepsInv | internal/service/modelhub/generation.go:101-294 | every step of every request keeps the invariant on rows, statements in flight, requests and the provider log |
| ProtocolInvariant.ReachableInv | internal/service/modelhub/generation.go:101-294 | the invariant holds in every reachable state |
| ProtocolSafety.TerminalVerdictsAgree | internal/service/modelhub/generation.go:129-158 | no task is ever reported FAILED by one response and SUCCEEDED by another, on any pods |
| ProtocolSafety.VerdictIsForever | internal/service/modelhub/generation.go:197-287 | a reported end is the row's state then and in every later state of every run |
| ProtocolSafety.AtMostOneSubmission | internal/service/modelhub/generation.go:121-126 | no two upstream submissions ever have the same (caller, request_id) |
| ProtocolSafety.LatecomerChangesNothing | internal/taskstore/store.go:101-117 | a request that meets an existing row of its key submits nothing and changes nothing; when it answers at all, it names that row's task exactly when the hashes agree |
| ProtocolSafety.ReplaysAgree | internal/service/modelhub/generation.go:110-124 | all answers for one key that name a task name the same task and had the same hash |
| ProtocolSafety.RowsAreConsistent | internal/taskstore/store.go:86-100 | what a stored row says in every reachable state: identity, provider id of the one submission, error columns exactly on FAILED rows |
| ProtocolSafety.RowsMoveLegally | internal/taskstore/store.go:149-209 | rows appear as PENDING and make the four moves only; the id is written once, from PENDING to RUNNING, and is the accepted one |
| ProtocolSafety.OnlyStatementsChangeRows | internal/taskstore/store.go:86-209 | between statements the table stands still |
| ProtocolSafety.RunningRowHasId | internal/service/modelhub/generation.go:244-248 | a RUNNING row has a blank id exactly when the provider returned a blank one |
| ProtocolSafety.RunningWithoutIdIsUnreachable | internal/service/modelhub/generation.go:244-248 | with non-blank provider ids the branch "running without provider task id" is never taken |
| ProtocolSafety.PublicCallerSeesOwnTasks | internal/service/modelhub/generation.go:190-195 | a public caller is told the state of its own tasks only |
| ProtocolSafety.ObservationsAreMonotone | internal/service/modelhub/generation.go:155-158 | a response that starts after another has ended never reports an earlier stage |
| ProtocolTiming.LiveIsSpared | internal/service/modelhub/generation.go:217-242 | within the time budget no write of the collector exists for a live submission, not even in flight, and its row is PENDING until the provider has answered |
| ProtocolTiming.CollectorStrikes | internal/service/modelhub/generation.go:217-242 | beyond the budget there is a run in which the collector fails a live submission |
| ProtocolTiming.CollectorIsSafeExactlyWithin | internal/service/modelhub/generation.go:30-40 | live submissions are spared in all runs if and only if budget plus clock skew fit in twelve minutes |
| ProtocolTiming.TwelveMinutesCoverTheLongestSubmit | internal/service/modelhub/generation.go:30-40 | the constants cover a ten-minute submit, the persist window, and insert latency plus skew of the rest |
| ProtocolTiming.PendingIsReportedExactlyWhileYoung | internal/service/modelhub/generation.go:217-224 | a PENDING row is reported as such exactly up to twelve minutes by the reader's clock; otherwise a failing write is sent |
| ProtocolTiming.SettledGetTellsTheTruth | internal/service/modelhub/generation.go:226-242 | FAILED is reported only when the write is known to have succeeded, and then the row is FAILED |
| ProtocolTiming.OldTaskIsNeverPolledAsPending | internal/service/modelhub/generation.go:217-242 | a Get that arrives more than twelve minutes plus skew after the insert never reports PENDING |
| ProtocolTiming.ReplayReportsPendingAtAnyAge | internal/service/modelhub/generation.go:121-124 | a repeated Submit can answer PENDING at any age |
| ProtocolTiming.GetReportsPendingWhileYoung | internal/service/modelhub/generation.go:217-224 | a Get can report PENDING up to twelve minutes plus the clock skew |
| ProtocolTiming.PendingCanBeToldExactlyWhen | internal/service/modelhub/generation.go:217-242 | over all runs: PENDING can be told of a task of some age by a Submit always, and by a Get exactly up to that limit |
| ProtocolAnswers.InsertIsSent | internal/service/modelhub/generation.go:101-110 | the insert carries exactly the submission, PENDING, without an id or an error, created now by the pod's clock |
| ProtocolAnswers.InsertIsAnswered | internal/service/modelhub/generation.go:110-126 | a created row makes the request its owner, a conflict leads to the look-up, anything else is answered as unavailable |
| ProtocolAnswers.LookUpIsAnswered | internal/service/modelhub/generation.go:110-124 | a look-up that finds the row of the key answers its task and state when the hashes agree and a conflict when not |
| ProtocolAnswers.SubmissionIsStarted | internal/service/modelhub/generation.go:126 | an owner starts its one upstream submission and does nothing else |
| ProtocolAnswers.ProviderAnswerIsStored | internal/service/modelhub/generation.go:126-147 | an accepted id is stored with its provider, a refusal with what describes its error |
| ProtocolAnswers.SaveIsAnswered | internal/service/modelhub/generation.go:137-158 | RUNNING is answered exactly when the write of the id is known to have hit, FAILED exactly when that of the refusal is; a lost id is failed from PENDING first; the rest is unavailable |
| ProtocolAnswers.ReadIsAnswered | internal/service/modelhub/generation.go:179-195 | a Get goes on with the row it read, or answers an error or "not found", the latter also for a foreign task of a public caller |
| ProtocolAnswers.EndIsReported | internal/service/modelhub/generation.go:197-205 | a FAILED or SUCCEEDED row is reported as such without poll or write |
| ProtocolAnswers.BlankIdIsFailed | internal/service/modelhub/generation.go:244-248 | a RUNNING row with a blank id is failed without a poll |
| ProtocolAnswers.PendingDecides | internal/service/modelhub/generation.go:217-242 | a PENDING row is reported while the difference of the two pods' clocks is at most twelve minutes, and failed from PENDING after that |
| ProtocolAnswers.PollDecides | internal/service/modelhub/generation.go:255-287 | with an id the provider is asked about exactly this job, and its answer decides: an error, RUNNING, the write of what describes the failure, or the write of success |
| ProtocolAnswers.EndIsToldAfterTheWrite | internal/service/modelhub/generation.go:234-287 | the written end is reported exactly when the write is known to have hit, and then the row has it |
| ProtocolAnswers.StepKeepsExplained | internal/service/modelhub/generation.go:126-287 | every step keeps the reasons: each statement in flight or done has its cause in what a provider said or in the clock |
| ProtocolAnswers.ReachableIsExplained | internal/service/modelhub/generation.go:126-287 | in every reachable state every statement has its cause |
| ProtocolAnswers.JobEndsAsTheProviderSaid | internal/service/modelhub/generation.go:244-287 | in every run a task leaves RUNNING only as its provider said of its id, to the writer of that very statement, or because the id is blank; the stored error describes the provider's |
| ProtocolAnswers.SubmissionFailsForAReason | internal/service/modelhub/generation.go:129-152 | in every run a task fails from PENDING only because its submission was refused, its id could not be stored, or it was stale, with the matching error |
| ProtocolRuns.DoneIsTold | internal/service/modelhub/generation.go:137-287 | a whole run: submitted, accepted, stored, polled as done, and told SUCCEEDED to its public owner |
| ProtocolRuns.FailureIsTold | internal/service/modelhub/generation.go:137-287 | the same with a job that was rate limited: told FAILED, with that error stored |
| LtxSubmit.Submit | internal/infra/ltx/provider.go:212-260 | the whole exchange: before each POST a look at the context, after each rejection but the third a wait of 300 ms times the try; the error of the context only when a look or wait found it ended, otherwise what the last POST means |
| LtxSubmit.TryOnce | internal/infra/ltx/provider.go:212-258 | one try: it ends the submit in one of these ways or was rejected, waited for and followed by another |
| LtxSubmit.SubmitMeans | internal/infra/ltx/provider.go:212-260 | from the log: at most three POSTs, all but the last rejected; with a living context at least one POST, the last one decides the result, and a rejection was the third |
| LtxSubmit.AnswersDecide | internal/infra/ltx/provider.go:212-260 | for every server and a context that lives: how many POSTs are sent and which result |
| LtxSubmit.AcceptedAfterRejections | internal/infra/ltx/provider.go:229-250 | a job that is accepted after at most two rejections is returned |
| LtxSubmit.NotFoundThenAccepted | internal/infra/ltx/provider.go:229-258 | 404, a wait of 300 ms, and 200 with "job-1" is a submit, and its one result is "job-1" |
| LtxSubmit.RefusalIsStoredAs | internal/provider/error.go:69-83 | the error kind of every HTTP code, and the code and reason stored for it |
| LtxSubmit.OneSubmitCreatesAtMostOne | internal/infra/ltx/provider.go:245-250 | one submit has at most one POST that may have created a job |
| LtxSubmit.AtMostOneJobPerKey | internal/infra/ltx/provider.go:212-260 | of all POSTs ever sent for one key, in any run, at most one may have created a job |
| LtxSubmit.StoredAsUnknownExactlyWhen | internal/service/modelhub/generation.go:129-136 | which POSTs lead to a failure that is stored as "outcome unknown" |
| LtxSubmit.PossibleJobIsNotMarkedExactlyWhen | internal/infra/ltx/provider.go:229-250 | when a POST that may have created a job is stored as a definite failure |
| LtxSubmit.CertainRejectionIsMarkedExactlyWhen | internal/infra/ltx/provider.go:245-257 | when POSTs that cannot have created a job are stored as unknown |
| LtxSubmit.AcceptedWithoutIdIsNotMarked | internal/infra/ltx/provider.go:238-240 | a success without a job id is such a POST |
| LtxSubmit.ThriceNotFoundIsMarked | internal/provider/error.go:69-83 | three times 404 is such a rejection |
| LtxSubmit.NothingSentIsMarked | internal/infra/ltx/provider.go:212-215 | so is a context that ended before the first POST |
| VideoJob.PollOnce | internal/provider/video_job.go:37-61 | one poll ends the job, with a read exactly after success, or is followed by the wait that the job asks for; a running job ends only when that wait reports the end of the context |
| VideoJob.AwaitJob | internal/provider/video_job.go:36-62 | the loop ends before its deadline runs out: a run of polls at the intervals asked for, at most one read, the result of the last call or of the last wait |
| VideoJob.RunVideoJob | internal/provider/video_job.go:28-63 | the loop ends before its deadline runs out; calls are one submit, polls of one job, at most one read; the result is that of the last call or of the last wait |
| VideoJob.PollsAreBounded | internal/provider/video_job.go:36-62 | a budget of T milliseconds allows at most T + 1 polls |
| VideoJob.PollComesWhenAsked | internal/provider/video_job.go:49-60 | the next poll comes when the milliseconds asked for have passed, or a second when none were |
| VideoJob.RunningEndsWithTheContext | internal/provider/video_job.go:49-60 | the loop ends with a running job exactly when the last wait reports the end of the context, with that error |
| VideoJob.OneSubmitAndAtMostOneRead | internal/provider/video_job.go:32-43 | exactly one submit, and a read only as the last call directly after a poll that found success |
| VideoJob.GenerateVideo | internal/infra/ltx/provider.go:60-69 | the same trace, with a passed deadline reported as a timeout |
| VideoChunks.BlockReader.ReadBlock | internal/provider/video_emit.go:20-45 | each block is a fresh copy of the next bytes of the stream, full or last, or the cap or a read error is reported |
| VideoChunks.EmitVideoChunks | internal/provider/video_emit.go:12-91 | for every stream, split into reads in any way, and a caller that may answer each call in any way: which calls are made, none after a refusal, and which result |
| VideoChunks.EmitOnly | internal/provider/video_emit.go:47-56 | a stream of one short block is offered once, as final |
| VideoChunks.OfferNext | internal/provider/video_emit.go:83-87 | one more block is offered, or the refusal ends the calls |
| VideoChunks.EmitRest | internal/provider/video_emit.go:61-90 | the look-ahead loop: the held-back block survives the reuse of the read buffer |
| VideoChunks.EmitTail | internal/provider/video_emit.go:63-79 | the end: the last non-empty block alone is final, and nothing is offered after a refusal |
| VideoChunks.SuccessDeliversTheStream | internal/provider/video_emit.go:47-90 | on success every call was accepted and the data add up to the stream of 1 byte to 200 MiB in blocks of 1 MiB numbered from 0, each with the mime type, the last one not empty and alone final with response id and elapsed time |
| VideoChunks.FailureNeverLooksComplete | internal/provider/video_emit.go:20-90 | on failure at most 199 full blocks were accepted, a prefix of the stream, none of them final, and only the last call can have been refused |
| VideoChunks.SuccessExactly | internal/provider/video_emit.go:20-90 | success exactly for such streams that did not end in a read failure, when the caller accepts every call |
| VideoChunks.TruncatedBodyIsDeliveredAsComplete | internal/provider/video_emit.go:25-34 | a body that was cut short is delivered with a final block |
| TextStream.EmitTools | internal/infra/openai/provider.go:110-126 | tool fragments go out in order, up to the first refused send |
| TextStream.EmitChunk | internal/infra/openai/provider.go:102-126 | text, then tool fragments, of the first choice, in order, up to the first refused send |
| TextStream.TakeLine | internal/infra/openai/provider.go:89-132 | one line adds its text and tool fragments to what was sent, and its metadata to what was collected, or a send was refused on the way |
| TextStream.EmitLines | internal/infra/openai/provider.go:77-133 | the loop stops at the first stopping line and has sent exactly the output of the lines before it, or as much of it as the caller took |
| TextStream.GenerateStream | internal/infra/openai/provider.go:75-137 | what the loop emits and returns for every list of lines (which result comes when is `TextStreamMeaning.ResultExactlyWhen`) |
| TextStream.Emitter.Emit | internal/service/modelhub/service.go:101-115 | events are numbered in order and a refused send is remembered |
| TextStream.SendAll | internal/service/modelhub/service.go:97-140 | the sends of one call: numbered items, then the final event after a clean end, none after a refusal; and the result |
| TextStream.GenerateText | internal/service/modelhub/service.go:97-140 | for every body and a stream that may answer each send in any way: which sends are made and which result |
| TextStreamMeaning.SuccessDeliversEverything | internal/service/modelhub/service.go:97-140 | on success every send was accepted, texts and tool fragments add up to what was sent, numbers are 0, 1, 2, ..., and exactly one final event follows with the collected metadata |
| TextStreamMeaning.FailureDeliversAPrefix | internal/service/modelhub/service.go:116-125 | on failure no final event is accepted, what was accepted is a prefix of the output, and only the last send can have been refused |
| TextStreamMeaning.NumbersAreExactBelowWrap | internal/service/modelhub/service.go:99-112 | numbers do not repeat exactly up to 2^32 sends |
| TextStreamMeaning.FragmentIsVerbatim | internal/infra/openai/provider.go:108-125 | a tool fragment goes out unchanged exactly when its index fits in 32 bits |
| TextStreamMeaning.MetaIsLastSent | internal/infra/openai/provider.go:93-132 | id, finish reason and usage of the final event are the last non-empty ones sent |
| TextStreamMeaning.ResultExactlyWhen | internal/infra/openai/provider.go:77-137 | each of the five results exactly when there is its reason in the lines, the context, the read error and the answers; success when nothing is wrong before the first `[DONE]` or the end |
| TextStreamMeaning.ConsumedExactly | internal/infra/openai/provider.go:77-88 | the delivered lines are those before the first that stops the loop |
| TextStreamMeaning.UnmarkedBodySucceedsExactlyWhen | internal/infra/openai/provider.go:77-137 | when a body without `[DONE]` is a success: valid lines, a living context, no read error, every send accepted |
| TextStreamMeaning.CutAfterOneChunk | internal/infra/openai/provider.go:77-137 | such a body: one chunk and a closed connection give that text and a final event |
| TextStreamMeaning.DoneAfterOneChunk | internal/infra/openai/provider.go:86-137 | one chunk, `[DONE]` and anything after it succeed with that text and a final event |
| SpeechStream.StepKeepsInv | internal/infra/minimaxtts/provider.go:295-416 | every step of reader, watcher and caller keeps the invariant on buffer, flags and positions |
| SpeechStream.SpeechIsComplete | internal/infra/minimaxtts/provider.go:114-179 | under every interleaving, returned speech is all decoded audio in order, not empty, within the cap, and the reader stopped by task_finished or a normal close |
| SpeechStream.SpeechExactlyWhen | internal/infra/minimaxtts/provider.go:160-172 | the call returns speech exactly when the reader ended well, nothing failed, the context lives and some audio arrived |
| SpeechStream.SpeakableExactly | internal/infra/minimaxtts/provider.go:344-383 | which lists of messages can end in speech, in some run: exactly those that end well and whose audio is within the cap |
| SpeechStream.SpeechAtAnyTime | internal/infra/minimaxtts/provider.go:295-383 | such messages can end in speech however many of them arrive before the text is sent and before the flush |
| SpeechStream.FailureIsMissedExactlyWhen | internal/infra/minimaxtts/provider.go:362-381 | a task_failed message is overlooked exactly when it also carries audio |
| Config.CountOneMeansOneConcrete | config/config.go:499-533 | the counter is one exactly when one provider type is configured |
| Config.ValidateProvider | config/config.go:437-497 | the switch accepts exactly one provider section, with every field filled that its kind needs |
| Config.ValidateModels | config/config.go:312-326 | accepts exactly lists of models that are not empty, without blanks and repeats |
| Config.ValidateProviders | config/config.go:307-327 | accepts exactly good providers, and then knows every declarer of every model |
| Config.ValidateOverrides | config/config.go:329-357 | accepts exactly overrides that name a provider which declares the model |
| Config.Validate | config/config.go:295-370 | accepts exactly the valid configurations, in any map order |
| Routing.TrimOverrides | config/config.go:410-413 | exactly the overridden models, each with the value of one of its entries, as some order of iteration gives it |
| Routing.CollectDeclarations | config/config.go:414-423 | only declared models, and for a valid configuration every declarer of every model once, as some order of iteration gives it |
| Routing.SelectRoutes | config/config.go:424-434 | the routes do not depend on the order of the last loop |
| Routing.RoutesInFit | config/config.go:409-435 | in every order of iteration a valid configuration is routed rightly |
| Routing.ModelRoutes | config/config.go:409-435 | the result is that of some order; for a valid configuration exactly the declared models are routed, each to a provider that declares it, as an override says if there is one |
| Routing.RoutesAreDeterminedExactlyWhen | config/config.go:409-435 | all orders of iteration give the same routes exactly when overrides that trim to one key agree |
| Routing.TwoOrdersDiffer | config/config.go:410-413 | otherwise two orders that give different routes |
| Routing.AmbiguousHasTwoRoutings | config/config.go:410-413 | such a valid configuration, with the overrides "m" and " m" |
| Routing.DistinctKeysDetermineRoutes | config/config.go:409-435 | keys that stay distinct after trimming are enough |
| Factory.SlotsAgreeExactlyWhen | internal/infra/factory/factory.go:33-128 | for any provider the built slots are the announced capabilities except for one family of sections |
| Factory.ValidatedSlotsAgree | internal/infra/factory/factory.go:33-128 | for a validated provider they always are |
| Factory.Build | internal/infra/factory/factory.go:21-31 | one client set per provider, or none at all |
| HotReload.ParseAndValidateYAML | config/live_config.go:64-79 | what a text parses to, the case of an empty second document included |
| HotReload.LiveConfig.ApplyYAML | config/live_config.go:42-62 | one reload replaces the configuration as a whole, keeping the addresses, or leaves it alone (`Reloaded`, which the next lemmas describe) |
| HotReload.ReloadExactlyWhen | config/live_config.go:42-120 | a valid text is applied exactly when database, telemetry, provider names and every provider section agree; then models, overrides and the rest are those of the text, and the addresses stay |
| HotReload.OtherTextsChangeNothing | config/live_config.go:42-79 | a text that does not decode, has a second document or is not valid changes nothing |
| HotReload.ReloadCanRun | config/live_config.go:42-62 | from every state of interleaved reloads such a text can be published |
| HotReload.ReloadIsRouted | config/live_config.go:82-120 | after it requests are routed by the text: a model that it adds to a provider was unknown before and is routed to a provider that declares it |
| HotReload.ModelCanBeAdded | config/live_config.go:82-120 | such texts exist |
| HotReload.StepKeepsInv | config/live_config.go:42-62 | every step of interleaved reloads keeps what start-up has bound |
| HotReload.PublishedIsSound | config/live_config.go:42-120 | every configuration that interleaved reloads publish is bound as at start-up, and is valid if that one was |
| HotReload.AlwaysValidExactlyWhen | config/live_config.go:64-79 | only valid configurations are ever published exactly when no empty document followed the start-up text |
| HotReload.EmptyStartIsStuck | config/live_config.go:98-112 | where the zero configuration was published first, no reload ever adds a provider or a model |
| HotReload.ResolveIsSafe | internal/service/modelhub/service.go:279-307 | over all runs: no unknown provider, unknown models exactly as declared live, the frozen capability answer is the live one, and the client has the slot asked for |
| ToolSchema.SanitizeNode | internal/infra/genai/schema.go:14-45 | the loop over a map, in any order, computes the transformation |
| ToolSchema.SanitizeTable | internal/infra/genai/schema.go:25-31 | the names in a `properties` table are all kept |
| ToolSchema.KeptExactlyOutsideTheKeyword | internal/infra/genai/schema.go:18-41 | every place of a tree is kept, sanitized, exactly when it is not below the keyword; properties of that name are kept |
| ToolSchema.SanitizedIsClean | internal/infra/genai/schema.go:20-22 | no keyword `additionalProperties` is left |
| ToolSchema.KeptExactlyWhenClean | internal/infra/genai/schema.go:14-45 | exactly the trees without the keyword stay as they are |
| ToolSchema.SanitizeIsIdempotent | internal/infra/genai/schema.go:14-45 | sanitizing twice is sanitizing once |
| ToolSchema.OnlyTheKeywordIsLost | internal/infra/genai/schema.go:3-6 | the result accepts exactly what the input accepts without its `additionalProperties` |
| ToolSchema.SanitizingLoosens | internal/infra/genai/schema.go:3-6 | what was valid stays valid, when listed values and negated schemas are free of the keyword |
| ToolSchema.EnumLoosensExactlyWhen | internal/infra/genai/schema.go:35-41 | a list of allowed values is loosened exactly when no value contains the keyword |
| ToolSchema.NegationLoosensExactlyWhen | internal/infra/genai/schema.go:34 | a negated object schema is loosened exactly when it admits other properties |
| CacheMarkers.ConvertMessage | internal/infra/openai/provider.go:342-388 | the loops build the specified message |
| CacheMarkers.ConvertedHeader | internal/infra/openai/provider.go:342-356 | role and tool calls of a converted message |
| CacheMarkers.ConversionKeepsTokensExactlyWhen | internal/infra/openai/provider.go:342-388 | all characters and images are kept in order, except images beside tool calls |
| CacheMarkers.ToolImagesFollowTheirItem | internal/infra/openai/provider.go:153-177 | a tool output is sent where its item stands, with its images directly after it, in order |
| CacheMarkers.BuildMessages | internal/infra/openai/provider.go:153-182 | the messages of a request, marked exactly for five models, with caching enabled, at the official host |
| CacheMarkers.ConvertedIsUnmarked | internal/infra/openai/provider.go:153-177 | before marking there is no marker |
| CacheMarkers.ApplySystemCacheControl | internal/infra/openai/provider.go:303-340 | the in-place edit of the message list computes the marking |
| CacheMarkers.MarkerPlace | internal/infra/openai/provider.go:303-340 | the marker is on the last non-blank text of the first system message and nowhere else |
| CacheMarkers.OneMarkerOrNone | internal/infra/openai/provider.go:303-340 | exactly one marker when that text exists, none otherwise |
| CacheMarkers.MarkingKeepsMeaning | internal/infra/openai/provider.go:303-340 | without markers, and with lone text blocks as plain texts, the messages are the same |
| CacheMarkers.MarksTheFirstTextExactlyWhen | internal/infra/openai/provider.go:303-312 | the documented target is marked exactly when the first system message has text or none has |
| CacheMarkers.EligibleRequestIsMarked | internal/infra/openai/provider.go:153-182 | from the items of an eligible request: one marker, on the last non-blank text of the first system item, and otherwise the messages of an unmarked request |
| VideoParams.SnapToAllowed | internal/infra/ominilinkvideo/constraints.go:168-182 | the loop computes the specified choice, wrap-around included |
| VideoParams.SnapIsEarliestMinimum | internal/infra/ominilinkvideo/constraints.go:168-189 | for every list and integer the choice is the earliest element at minimal wrapped distance |
| VideoParams.SnapIsClosestExactlyWhen | internal/infra/ominilinkvideo/constraints.go:168-189 | exactly when that is the earliest element at minimal distance |
| VideoParams.SnapIsEarliestClosest | internal/infra/ominilinkvideo/constraints.go:168-182 | it is, when every distance is one that an integer can hold |
| VideoParams.SnapIsMonotone | internal/infra/ominilinkvideo/constraints.go:168-182 | for increasing lists it is monotone between any two values that meet that condition |
| VideoParams.NearestDuration | internal/infra/ominilinkvideo/constraints.go:48-166 | for every family the duration is the nearest allowed one, the shorter of two nearest |
| VideoParams.DurationIsMonotone | internal/infra/ominilinkvideo/constraints.go:8-29 | asking for a longer video never gives a shorter one, from one second on |
| VideoParams.ResolutionIsKeptOrReplaced | internal/infra/ominilinkvideo/constraints.go:31-145 | accepted resolutions are kept; what replaces the others |
| VideoParams.AspectIsKeptOrReplaced | internal/infra/ominilinkvideo/constraints.go:59-100 | accepted aspect ratios are kept; what replaces the others |
| VideoParams.NormalizedIsAccepted | internal/infra/ominilinkvideo/constraints.go:8-29 | the result is always among the values that the model accepts |
| VideoParams.KeptExactlyWhenAccepted | internal/infra/ominilinkvideo/constraints.go:8-29 | exactly the accepted parameters are left alone, and normalising is idempotent |
| VideoParams.DurationsByPrefix | internal/infra/ominilinkvideo/constraints.go:8-145 | the accepted durations by the prefix of the model name |
| VideoParams.ResolutionsByPrefix | internal/infra/ominilinkvideo/constraints.go:8-145 | the accepted resolutions by the prefix of the model name |
| VideoParams.SpellingDoesNotMatter | internal/infra/ominilinkvideo/models.go:14-49 | letter case and surrounding white space make no difference |
| BearerKey.Cut | internal/apikeystore/keyformat.go:40 | the key id ends at the first underscore |
| BearerKey.AcceptsExactlyTheHeaders | internal/apikeystore/keyformat.go:28-47 | which headers are accepted, and as which key: both directions |
| BearerKey.RoundTripExactlyWhen | internal/apikeystore/keyformat.go:28-47 | a printed key parses back exactly when it is well formed |
| BearerKey.ReprintedParsesTheSame | README.md:76-77 | what is accepted prints to a form with the same parse |

## Left out

- HTTP, WebSocket, gRPC, SQL and YAML mechanics: upstream calls are any outcome, sockets are lists of messages, the table is a map with atomic conditional updates, and a YAML text is what it decodes to.
- Request checks before the insert, and streaming a stored video after SUCCEEDED was reported: they change no task.
- UUIDs, SHA-256 and protobuf marshalling: a task id is the number of its request, a request hash is any string.
- Sending a response: a reply that is lost on its way to the caller counts as given, which makes the statements about reports stronger.
- TaskStore.Postgres.GetByTaskId: one snapshot of a row; what a later write may rely on is stated by the two lemmas on reads.
- TaskStore.Postgres.InsertPending: its insert and its look-up follow each other directly here; in GenerationProtocol they are separate steps.
- ProtocolTiming.LiveIsSpared: insert latency, submit time and persist window are one budget that is assumed, since no code enforces the sum.
- VideoJob.PollsAreBounded: it needs polls that fail once the deadline of their context has passed; a context without deadline is not modelled.
- LtxSubmit.Submit: loading the first frame and building the multipart body are not modelled, error texts are shortened, and a wait is known by its length only.
- SpeechStream.SpeechIsComplete: the ping loop, dialling and the two handshake messages are not modelled beyond success or failure of the handshake; nobody but the caller reads the audio.
- TextStream.GenerateStream: JSON decoding, first-token metrics, safety fields and providers that mark an event as final are not modelled; a line is already a decoded chunk, a marker or an invalid line.
- Routing.ModelRoutes: for configurations that are not valid only the domain is stated, because no caller relies on more.
- Config.Validate: error texts are not modelled; numbers are real, so a NaN duration is not.
- HotReload.ResolveIsSafe: it starts from a valid configuration and from clients that were built from it, as the server does.
- ToolSchema.OnlyTheKeywordIsLost: `patternProperties`, `oneOf`, `if`, `$ref`, `unevaluatedProperties` and further keywords of JSON Schema have no meaning in this model; sanitizing them is covered by the statements about trees.
- ToolSchema.SanitizingLoosens: the converse holds for whole families of schemas only (the two lemmas after it), not schema by schema.
- CacheMarkers.BuildMessages: media URLs are given, thought signatures and the other fields of the request body are not modelled; aliasing between message maps does not arise, since each is made afresh.
- VideoParams.SnapIsMonotone: between values of which one does not meet the condition of
  `VideoParams.SnapIsClosestExactlyWhen` nothing is said; the one call in the source always meets it.
- VideoParams.Lower: letters outside ASCII that stay outside ASCII are left as they are.
- Image generation, cached content, non-streaming text, the payloads of the other providers, telemetry, start-up and shutdown, migrations, CORS and the model catalogue: wide and mostly one-branch code.
- Secret comparison and key expiry: short branches beside the parser.
