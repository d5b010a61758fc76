# iskoces translation service — a Dafny model

iskoces is a machine-translation service. Clients speak gRPC to it:

- they register;
- they send heartbeats;
- they ask for a title check;
- they translate titles and Markdown documents, synchronously or as asynchronous jobs;
- they can stream chunks.

An HTTP side server exposes each asynchronous job as a JSON status document or as a Server-Sent-Events stream. Translation goes to a pool of Python workers over Unix sockets, or to a Python subprocess over its standard input and output. Each worker runs `scripts/translate_worker.py` around the argostranslate library.

This project models that core and proves properties of the model. One Dafny module stands for each core source file:

- **`JobProcessor`:** chunking of long documents, chunked translation and the job's status and progress transitions.
- **`JobQueue`:** the job record with its setters, and the job map with age-based cleanup.
- **`TranslationService`:** client registry, heartbeats, title check, synchronous translation, chunk-echo stream.
- **`Translator`:** language-tag to backend-code mapping.
- **`Factory`:** engine-name parsing and backend selection.
- **`Http`:** job path routing, the status document, SSE framing and the change-only event rule.
- **`TranslateWorker`:** the Python socket worker.
- **`WorkerPool`:** `/proc` memory parsing, worker reply decoding, dead-worker removal, socket naming.
- **`PythonWrapper`:** the generated program, the line protocol and the `initialized` flag.
- **`Metrics`:** worker counting and counter labels.
- **`TestClient`:** `toUpper` and `toProtoLangCode`.

Shared modules:

- **`Text`:** Go's `strings` functions on strings of Unicode scalar values, with UTF-8 byte length as Go's `len`.
- **`Decimal`:** `%d` rendering, `strconv.ParseInt` base 10, 32- and 64-bit wrap-around.
- **`Json`:** decoded JSON values.
- **`Wrappers`:** Option and Result.

Conventions:

- Code that changes state in place is a class whose methods are proved against specification functions. This covers the job record, the job map, the registry, the worker list, the subprocess translator and the counters.
- Loops are `while` loops with invariants: the chunking scans, the chunk-translation loop, the cleanup loops, the health check, `toUpper`, the `/proc` scan, the SSE poll loop and the stream loop.
- Clocks are integer parameters.
- The translation engine is a function parameter returning a Result.
- Outcomes of I/O are parameters: socket reads and writes, pipe creation, process start and kill, JSON parsing.

## Model

| member | source | states |
|---|---|---|
| JobProcessor.SplitBySentences | pkg/service/job_processor.go:245-268 | the scan returns the sentence list of the text as the specification function `Sentences` defines it |
| JobProcessor.Sentences | pkg/service/job_processor.go:245-268 | every sentence is non-empty and trimmed, and every sentence but the last ends in '.', '!' or '?' |
| JobProcessor.ScanSentencesShape | pkg/service/job_processor.go:249-265 | from any point of the scan, given closed sentences so far, the final list is a well-formed sentence list |
| JobProcessor.CutPiece | pkg/service/job_processor.go:253-257 | a piece cut after a terminator is, once trimmed, non-empty and still ends in that terminator |
| JobProcessor.SplitIntoChunks | pkg/service/job_processor.go:189-242 | the method returns `Chunks(text, max)`: `[text]` when the UTF-8 length is at most max, otherwise the greedy packing of the paragraphs and then a final flush |
| JobProcessor.PackParagraph | pkg/service/job_processor.go:200-234 | one paragraph step of the loop equals the specification step `AddParagraph` |
| JobProcessor.PackSentence | pkg/service/job_processor.go:217-226 | one sentence step of the inner loop equals `AddSentence` |
| JobProcessor.PackLongParagraph | pkg/service/job_processor.go:216-226 | the inner loop over the sentences of an over-long paragraph equals `PackSentences` |
| JobProcessor.Chunks | pkg/service/job_processor.go:189-242 | above the limit no chunk is empty; every chunk fits the limit or is one sentence of a paragraph that alone exceeds it |
| JobProcessor.AddSentence | pkg/service/job_processor.go:217-226 | one sentence step closes at most one chunk, the one being built, and keeps every chunk closed before it |
| JobProcessor.PackSentences | pkg/service/job_processor.go:217-226 | the sentence loop only appends to the closed chunks |
| JobProcessor.AddParagraph | pkg/service/job_processor.go:200-234 | one paragraph step only appends to the closed chunks |
| JobProcessor.PackParagraphs | pkg/service/job_processor.go:200-234 | the paragraph loop only appends to the closed chunks |
| JobProcessor.AddParagraphOk | pkg/service/job_processor.go:202-233 | one paragraph step keeps every closed chunk non-empty and fitting |
| JobProcessor.PackParagraphsOk | pkg/service/job_processor.go:200-234 | the paragraph loop keeps every closed chunk non-empty and fitting |
| JobProcessor.PackSentencesOk | pkg/service/job_processor.go:217-226 | the sentence loop keeps every closed chunk non-empty and fitting |
| JobProcessor.ChunksRejoin | pkg/service/job_processor.go:198-239 | when every paragraph is non-empty and fits, joining the chunks with "\n\n" gives the text back: paragraphs are packed in order, none lost or reordered |
| JobProcessor.PackParagraphsJoin | pkg/service/job_processor.go:200-233 | packing fitting paragraphs preserves their "\n\n"-join |
| JobProcessor.PackSentencesJoin | pkg/service/job_processor.go:217-226 | packing sentences preserves their " "-join |
| JobProcessor.LongParagraphRepacked | pkg/service/job_processor.go:208-226 | an over-long paragraph first closes the current chunk, then is repacked sentence by sentence into chunks whose " "-join is the sentences' join |
| JobProcessor.ProgressOpsAt | pkg/service/job_processor.go:161-164 | before chunk i the job receives progress `ChunkProgress(i, n)` with the message "Translating chunk i+1/n..." |
| JobProcessor.ChunkProgressBounds | pkg/service/job_processor.go:163 | chunk progress lies in 10..90, never decreases, and the last chunk reports 90 |
| JobProcessor.ProgressOpsRise | pkg/service/job_processor.go:161-164 | the progress updates of a chunked run rise monotonically within 10..90 |
| JobProcessor.ChunkTranslations | pkg/service/job_processor.go:161-173 | on success there is one translation per chunk, each the engine's output for that chunk; on failure the index is the first chunk the engine refuses, and all earlier chunks were accepted |
| JobProcessor.TranslateChunks | pkg/service/job_processor.go:143-186 | at most one engine call per chunk, and a successful run called the engine once for every chunk |
| JobProcessor.FirstFailure | pkg/service/job_processor.go:166-170 | the first refused chunk i (0-based) aborts the run with "chunk i+1 translation failed: " + the engine's error, after i+1 progress updates |
| JobProcessor.AllTranslated | pkg/service/job_processor.go:161-185 | when every chunk is translated, or there is no translator, the result is the translations concatenated with no separator |
| JobProcessor.TranslateChunked | pkg/service/job_processor.go:143-186 | the method returns the chunked result and leaves the job with exactly the progress updates of the chunks it started |
| JobProcessor.TranslateEachChunk | pkg/service/job_processor.go:159-176 | the chunk loop returns `TranslateChunks` and applies one progress update per chunk started |
| JobProcessor.ProcessJob | pkg/service/job_processor.go:33-139 | the job ends in the state obtained by applying the setter calls `ProcessOps` to its old state |
| JobProcessor.ProcessTitle | pkg/service/job_processor.go:57-70 | the title branch applies exactly `TitleOps` |
| JobProcessor.ProcessDocument | pkg/service/job_processor.go:72-124 | the document branch applies exactly `DocOps` |
| JobProcessor.TranslateMarkdown | pkg/service/job_processor.go:95-124 | the markdown branch applies exactly `MarkdownOps` |
| JobProcessor.TranslateInChunks | pkg/service/job_processor.go:100-108 | the chunked branch applies exactly `ChunkedOps` |
| JobProcessor.ProcessOpsShape | pkg/service/job_processor.go:45-131 | the job is first set to processing with "Starting translation..."; then come only progress updates; the last call is `SetError` or a `SetResult` with no tokens |
| JobProcessor.ProcessJobFinishes | pkg/service/job_processor.go:33-139 | every run ends completed or failed, with `completedAt` the end time; `startedAt` is kept if already set, else becomes the start time; a completed job has 100% progress, no tokens and the elapsed time; the job stays well formed |
| JobProcessor.ProcessOpsLast | pkg/service/job_processor.go:56-131 | the last setter call is the one `ClosingOp` picks for the job's primitive |
| JobProcessor.ProcessJobResults | pkg/service/job_processor.go:56-131 | an unrecognised primitive completes with empty results; without a translator only a document job with no document fails, and completions carry empty results; a document job with no document fails with "document is required for PRIMITIVE_DOC_TRANSLATE" |
| JobProcessor.ClosingOpWithoutTranslator | pkg/service/job_processor.go:56-131 | without a translator the closing call is the missing-document error or an empty result |
| JobProcessor.ProcessTitleJob | pkg/service/job_processor.go:57-70 | a title job fails exactly when the engine refuses the title, with "title translation failed: " + error; otherwise it carries the translated title and no markdown |
| JobProcessor.ProcessShortDocumentJob | pkg/service/job_processor.go:72-124 | a document within the chunk size completes exactly when the engine accepts its title (if any) and body (if any); the first refusal is reported with its prefix; the translations are stored |
| JobProcessor.ProcessLongDocumentJob | pkg/service/job_processor.go:72-124 | an over-long document completes exactly when the title and every chunk are accepted; the result is the chunk translations concatenated; the first refused chunk is reported as "markdown translation failed: chunk k translation failed: …" |
| JobProcessor.ChunkedFailureMessage | pkg/service/job_processor.go:106 | the chunked error wrapped by `ProcessJob` reads "markdown translation failed: chunk k translation failed: " + the engine's error |
| JobQueue.RunConcat | pkg/service/job_queue.go:131-184 | applying two sequences of setter calls one after the other equals applying their concatenation |
| JobQueue.WithStatus | pkg/service/job_queue.go:131-149 | after `UpdateStatus` the job has the new status and is well formed whatever it was before: processing has a start time, completed and failed an end time; times already set are kept |
| JobQueue.WithProgress | pkg/service/job_queue.go:152-158 | `UpdateProgress` keeps the status, and the job is well formed after it exactly when it was before |
| JobQueue.WithError | pkg/service/job_queue.go:161-169 | after `SetError` the job is finished and well formed |
| JobQueue.WithResult | pkg/service/job_queue.go:172-184 | after `SetResult` the job is finished and well formed |
| JobQueue.RunPreservesWellFormed | pkg/service/job_queue.go:131-184 | any sequence of setter calls keeps "processing ⇒ startedAt set" and "completed or failed ⇒ completedAt set" |
| JobQueue.StartedAtSetOnce | pkg/service/job_queue.go:139-143 | `startedAt` is the time of the first switch to processing and is never overwritten |
| JobQueue.CompletedAtSetOnceByStatus | pkg/service/job_queue.go:144-147 | under status and progress updates alone, `completedAt` is the time of the first switch to completed or failed and is never overwritten |
| JobQueue.ProgressUpdatesTouchOnlyProgress | pkg/service/job_queue.go:152-158 | progress updates change only the percentage and message, and the last update wins |
| JobQueue.TranslationJob.constructor | pkg/service/job_queue.go:79-87 | a new job is queued, with no timestamps set, no error and no result |
| JobQueue.TranslationJob.UpdateStatus | pkg/service/job_queue.go:131-149 | sets status and message; `startedAt` only on the first switch to processing; `completedAt` only on the first switch to completed or failed |
| JobQueue.TranslationJob.UpdateProgress | pkg/service/job_queue.go:152-158 | sets percentage and message and nothing else |
| JobQueue.TranslationJob.SetError | pkg/service/job_queue.go:161-169 | records the message, sets failed, and overwrites `completedAt` |
| JobQueue.TranslationJob.SetResult | pkg/service/job_queue.go:172-184 | stores the four results, sets completed, 100% and `completedAt` |
| JobQueue.TranslationJob.GetStatus | pkg/service/job_queue.go:187-192 | returns status, message and percentage and changes nothing |
| JobQueue.Queue.constructor | pkg/service/job_queue.go:63-68 | a new queue holds no jobs |
| JobQueue.Queue.CreateJob | pkg/service/job_queue.go:76-115 | exactly one new queued job under the fresh id, every other entry unchanged; the request id, languages and primitive are copied; the title comes from the title request or from the document's title |
| JobQueue.Queue.GetJob | pkg/service/job_queue.go:118-128 | succeeds exactly when the id is present, returning that job; otherwise the error is "job not found: " + id; nothing changes |
| JobQueue.CleanupStates | pkg/service/job_queue.go:195-210 | keeps exactly the jobs that are not completed-or-failed with `completedAt` older than maxAge, unchanged; queued and processing jobs are never removed |
| JobQueue.CleanupIdempotent | pkg/service/job_queue.go:195-210 | a second cleanup at the same time removes nothing more |
| JobQueue.Queue.CleanupOldJobs | pkg/service/job_queue.go:195-218 | the map loop leaves exactly the jobs that are not expired, and their states are those `CleanupStates` keeps |
| JobQueue.Queue.DropIfExpired | pkg/service/job_queue.go:204-209 | one iteration deletes the job exactly when it is expired |
| JobQueue.KeptJobsStep | pkg/service/job_queue.go:202-210 | the loop's specification steps by one key: visiting an expired job removes it, any other visit keeps the map |
| JobQueue.CleanupSnapshot | pkg/service/job_queue.go:195-210 | once every key is visited, the kept map is the filter of the original by expiry |
| TranslationService.QuoteRoundTrip | pkg/service/translation_service.go:116 | the `%q` quoting of a client name is undone by unquoting, so the registration message determines the name |
| TranslationService.SerialOfClientId | pkg/service/translation_service.go:87 | the serial number after the last dash of an "iskoces-client-<seconds>-<n>" id is n |
| TranslationService.RegisterAddsFreshClient | pkg/service/translation_service.go:68-128 | an empty name is refused with InvalidArgument and nothing changes; otherwise one new client is inserted under an id not present before, with the prefix "iskoces-client-"; the counter rises by one; `registeredAt` and `lastHeartbeat` are now; the reply carries the interval and an expiry 24h later; registry validity (ids unique, serials within the counter) is kept |
| TranslationService.Register | pkg/service/translation_service.go:68-128 | refused exactly for an empty name, leaving the registry as it was; an accepted registration raises the counter by one and stores the client under the id it returns |
| TranslationService.RegisterAccepts | pkg/service/translation_service.go:82-127 | the accepted registration's exact reply, including `Client %q registered successfully`, and the new registry |
| TranslationService.FreshClient | pkg/service/translation_service.go:86-102 | an id whose serial is the next counter value is absent from a valid registry, and inserting it keeps the registry valid |
| TranslationService.HeartbeatOutcomes | pkg/service/translation_service.go:132-214 | empty id or name is refused with InvalidArgument; success holds exactly for a known id with the matching name registered at most 24h ago, and then only that client's `lastHeartbeat` changes; an expired registration is deleted with "Registration expired"; unknown ids and name mismatches leave the map unchanged; re-registration is required exactly on failure |
| TranslationService.HeartbeatStep | pkg/service/translation_service.go:132-214 | refused exactly for an empty id or name; a heartbeat never adds a client; a reply asks to register again exactly when it does not succeed |
| TranslationService.HeartbeatKeepsValid | pkg/service/translation_service.go:132-214 | a heartbeat keeps the registry valid |
| TranslationService.RegisterThenHeartbeat | pkg/service/translation_service.go:68-214 | a heartbeat with the id just issued succeeds exactly while the registration is at most 24h old; after that it restores the registry from before the registration |
| TranslationService.HeartbeatOfNewClient | pkg/service/translation_service.go:148-199 | a heartbeat of a newly inserted client succeeds exactly within 24h of its registration, and otherwise deletes it |
| TranslationService.Service.constructor | pkg/service/translation_service.go:52-64 | no clients, counter 0, a 30-second heartbeat interval, a valid registry |
| TranslationService.Service.RegisterClient | pkg/service/translation_service.go:68-128 | the method's reply and new registry are those of `Register` |
| TranslationService.Service.Heartbeat | pkg/service/translation_service.go:132-214 | the method's reply and new client map are those of `HeartbeatStep`; the counter is unchanged |
| TranslationService.Service.GetRegisteredClients | pkg/service/translation_service.go:515-526 | one copy per registered client, and nothing else |
| TranslationService.CleanupClients | pkg/service/translation_service.go:537-547 | keeps exactly the clients with now − lastHeartbeat ≤ maxIdle, unchanged |
| TranslationService.CleanupClientsProperties | pkg/service/translation_service.go:530-555 | cleanup keeps the registry valid and is idempotent |
| TranslationService.Service.CleanupExpiredClients | pkg/service/translation_service.go:530-555 | the map loop leaves exactly `CleanupClients` of the old map; the counter is unchanged |
| TranslationService.Service.DropIfIdle | pkg/service/translation_service.go:538-546 | one iteration deletes the client exactly when it has been idle too long |
| TranslationService.KeptClientsStep | pkg/service/translation_service.go:537-547 | the loop's specification steps by one key: an idle client is removed, any other visit keeps the map |
| TranslationService.EstimatedSeconds | pkg/service/translation_service.go:253-259 | the estimate always lies in 2..30 |
| TranslationService.EstimatedSecondsValue | pkg/service/translation_service.go:253-259 | for titles whose length keeps the sum within int32, the estimate is 2 + len/20 capped at 30 |
| TranslationService.CheckTitleOutcomes | pkg/service/translation_service.go:218-271 | refused with InvalidArgument exactly when title, language tag or source language is empty, in that order of messages; ready exactly when the health check passes; a failed check gives estimate 0 and "Translator not ready: " + error |
| TranslationService.CheckTitle | pkg/service/translation_service.go:218-271 | refused exactly when the title, language tag or source language is empty; a reply is ready exactly when the translator is healthy |
| TranslationService.TranslateRefusals | pkg/service/translation_service.go:275-435 | refused exactly for a missing job id, target, source, title or document, or an unsupported primitive, checked in that order, all with InvalidArgument; every reply is for the request's job with no tokens; without a translator the reply is "Translator not configured"; a success has no error message and the elapsed time |
| TranslationService.Translate | pkg/service/translation_service.go:275-435 | every reply carries the request's job id, no tokens and the end time |
| TranslationService.PrimitiveName | pkg/service/translation_service.go:403-407 | the printed name of a primitive is never empty; it starts with 'P', as every declared enum name does, exactly for the two supported values and the zero value, and a number otherwise |
| TranslationService.PrimitiveNameIdentifies | pkg/service/translation_service.go:403-407 | no two primitives print alike, so the error names the primitive the client sent |
| TranslationService.UnsupportedPrimitive | pkg/service/translation_service.go:403-407 | a complete request for any other primitive is refused with InvalidArgument and "unsupported primitive type: " + its name: PRIMITIVE_UNSPECIFIED for 0, the decimal number for an undeclared value |
| TranslationService.TranslateTitle | pkg/service/translation_service.go:317-345 | a title request succeeds exactly when the engine accepts the title; a refusal reads "Translation failed: " + error |
| TranslationService.TranslateDocument | pkg/service/translation_service.go:347-401 | a document request succeeds exactly when the engine accepts the title (if non-empty) and the body (if non-empty); the first refusal is reported with its capitalised prefix; the translations are returned |
| TranslationService.TranslateAgreesWithJob | pkg/service/translation_service.go:347-432 | for a document within the chunk size, the synchronous call and the asynchronous job agree: same success, same translations, and the same error up to the capitalised first letter |
| TranslationService.CapitaliseMessage | pkg/service/translation_service.go:372 | the synchronous prefixes are the job prefixes with a capital first letter |
| TranslationService.TranslateStream | pkg/service/translation_service.go:441-512 | the loop's sent chunks and error are those of the specification `Stream` |
| TranslationService.StreamStep | pkg/service/translation_service.go:447-505 | one iteration: EOF ends quietly; another receive error or a failed send ends with Internal and its message; a final chunk is answered with "[Stream completed]" and ends the loop; any other chunk k is echoed as content + " [translated chunk k]" |
| TranslationService.Stream | pkg/service/translation_service.go:441-512 | the stream sends at most one reply per chunk received; only the last reply can be final; every error it ends with has code Internal |
| TranslationService.StreamEchoes | pkg/service/translation_service.go:462-504 | a stream of non-final chunks followed by a final one is answered by the numbered echoes 0, 1, … and then "[Stream completed]"; anything after the final chunk is never read |
| TranslationService.StreamJobId | pkg/service/translation_service.go:462-467 | every reply carries the job id of the first chunk, when it has one |
| TranslationService.StreamKeepsJobId | pkg/service/translation_service.go:462-467 | once the job id is set, later chunks cannot change it |
| Translator.Lower | pkg/translate/translator.go:42 | ASCII lower-casing: same length, each character mapped on its own |
| Translator.ToBackendCode | pkg/translate/translator.go:39-50 | the result is the lower-cased tag cut at its first '-' or '_': a prefix of the lower-cased input, with no separator in it |
| Translator.ToBackendCodeIdempotent | pkg/translate/translator.go:42-49 | mapping twice equals mapping once |
| Translator.ToBackendCodeExamples | pkg/translate/translator.go:35-38 | "EN"→"en", "fr-CA"→"fr", "en-US"→"en", and "zh_Hant"→"zh" |
| Factory.ParseEngineType | pkg/translate/factory.go:95-104 | accepts exactly three spellings per engine, mapped to that engine; every other string is an error naming it |
| Factory.NewTranslator | pkg/translate/factory.go:40-91 | the pool is chosen exactly when it is asked for or no base URL is set, and keeps any engine; max workers 0 becomes 4; the pool fails with "failed to create socket directory: " + the error exactly when the directory cannot be created; in HTTP mode the engine picks the client and the configured URL is used, so the default URL is never reached; an unknown engine in HTTP mode is the error "unknown translation engine: " + its name |
| Factory.PoolBackend | pkg/translate/worker_pool.go:67-77 | `NewWorkerPool` succeeds exactly when the socket directory is created, and then carries the engine and worker count; otherwise its error wraps the directory error |
| Http.ParseJobPath | pkg/server/http.go:67-73 | the events flag holds exactly for a remainder longer than "/events" that ends in it; the id plus the suffix gives the remainder back; an events id is never empty |
| Http.ParseJobPathExamples | pkg/server/http.go:68-73 | "<id>/events" selects the events of id; "/events" alone is a job id |
| Http.HandleJobRequest | pkg/server/http.go:54-87 | non-GET gives 405 before any lookup; an empty id gives 400; an unknown id gives 404 with "Job not found: job not found: <id>"; otherwise the events stream or the status document of the job |
| Http.DispatchJob | pkg/server/http.go:67-86 | for a non-empty remainder: 404 for an unknown id, otherwise the events or status of the job the path names |
| Http.StatusDocumentKeys | pkg/server/http.go:90-120 | the status document always has the six common keys plus created_at; started_at, completed_at and error appear exactly when set; the four result keys appear exactly when completed; the status, progress, error and markdown values are the job's |
| Http.StatusDocument | pkg/server/http.go:90-120 | the status document always has the job id, request id, status, percent, message and creation time, with the job's status and percent |
| Http.WithOutcome | pkg/server/http.go:105-117 | the error and result fields are only added, never removing a field already there |
| Http.JobStatusJson | pkg/server/http.go:90-124 | the method builds the document `StatusDocument` of the job's current state |
| Http.EventDocumentKeys | pkg/server/http.go:171-193 | an event has the common keys plus timestamp, error exactly when set, and the result keys exactly when completed |
| Http.EventDocument | pkg/server/http.go:171-193 | an event always has the common keys and the timestamp it was sent with |
| Http.Frame | pkg/server/http.go:203-204 | a frame starts with "event: ", ends with a blank line and is 16 characters longer than its type and data |
| Http.FrameRoundTrip | pkg/server/http.go:203-204 | "event: <type>\ndata: <json>\n\n" can be parsed back into its type and data when neither holds a newline |
| Http.WatchShape | pkg/server/http.go:145-164 | the poll loop emits only when (status, progress) differs from the last emitted pair; nothing follows a completed or failed emission; every emission is a polled state |
| Http.Watch | pkg/server/http.go:139-167 | the poll loop sends at most one event per tick |
| Http.WatchFirstTick | pkg/server/http.go:139-158 | the first tick always emits, because the loop starts from ("", -1); a terminal first tick is the last emission |
| Http.HandleJobEvents | pkg/server/http.go:127-168 | the handler sends the initial event, then exactly the emissions `Watch` selects from the ticks |
| TranslateWorker.Recv | scripts/translate_worker.py:43 | one read returns at most 4096 bytes, a prefix of what was sent, and all of it when less was sent |
| TranslateWorker.TranslateText | scripts/translate_worker.py:17-37 | the library's result passes through; its failure is re-raised with the prefix "Translation failed: " |
| TranslateWorker.HandleRequestOutcomes | scripts/translate_worker.py:39-79 | no reply exactly for an empty read, and then False; every reply has exactly "success" and one of "translated_text"/"error", with success equal to the return value; the request is handled exactly when it decodes to an object and the library translates it |
| TranslateWorker.HandleRequest | scripts/translate_worker.py:39-79 | a request that is handled was non-empty and got a reply |
| TranslateWorker.HandleRequestErrors | scripts/translate_worker.py:66-79 | a JSON syntax error replies "Invalid JSON: " + detail; any other exception, such as non-UTF-8 bytes or JSON that is not an object, replies with its own text and no prefix |
| TranslateWorker.HandleRequestLibraryFailure | scripts/translate_worker.py:36-37 | a library failure reaches the client as "Translation failed: " + its message |
| TranslateWorker.HandleRequestDefaults | scripts/translate_worker.py:49-51 | missing members default to '', 'en' and 'fr' |
| TranslateWorker.HandleRequestReadsOnePrefix | scripts/translate_worker.py:43-48 | only the first 4096 bytes matter: requests that agree on them get the same reply |
| TranslateWorker.ParseArgs | scripts/translate_worker.py:83-87 | accepted exactly when there are at least three arguments with "--socket" second; the path is the third; otherwise the usage line |
| TranslateWorker.Serve | scripts/translate_worker.py:81-119 | bad arguments exit 1 and serve nothing; otherwise each connection gets the reply `HandleRequest` gives it, in order, and the exit status is 0 |
| WorkerPool.ProcessMemory | pkg/translate/worker_pool.go:167-190 | an unreadable file gives 0; otherwise the scan over the lines returns `MemoryOf` the lines |
| WorkerPool.MemoryFromFirstUsableLine | pkg/translate/worker_pool.go:175-186 | the result is the 64-bit product of 1024 and the kilobytes of the first "VmRSS:" line with a parsable second field; earlier unusable lines are skipped |
| WorkerPool.MemoryWithoutUsableLine | pkg/translate/worker_pool.go:176-189 | with no usable line the result is 0 |
| WorkerPool.LineKB | pkg/translate/worker_pool.go:175-184 | a line gives kilobytes only when it starts with "VmRSS:", and the value fits in 64 bits |
| WorkerPool.MemoryOf | pkg/translate/worker_pool.go:175-189 | the memory reading is a 64-bit integer |
| WorkerPool.DecodeResponse | pkg/translate/worker_pool.go:355-364 | JSON null decodes to the zero response; anything that is neither null nor an object is a decoding error |
| WorkerPool.ResponseRoundTrip | pkg/translate/worker_pool.go:59-64 | decoding the encoding of a response gives it back, omitted empty fields included |
| WorkerPool.PoolResultOutcomes | pkg/translate/worker_pool.go:357-374 | text is returned exactly for a decoded response with success, and it is the translated text; success false gives "translation failed: " + the worker's error; a bare success decodes to the empty translation |
| WorkerPool.PoolResult | pkg/translate/worker_pool.go:293-374 | text is returned only when a worker answered with a decodable response whose success is true |
| WorkerPool.PoolThroughWorker | pkg/translate/worker_pool.go:342-374 | a request the Python worker decodes as the pool sent it is translated with exactly its three strings; a library failure arrives as "translation failed: Translation failed: " + its message |
| WorkerPool.CheckHealth | pkg/translate/worker_pool.go:378-382 | healthy exactly when the test translation succeeds, and otherwise that translation's error |
| WorkerPool.RemoveFirstAt | pkg/translate/worker_pool.go:279-284 | removal drops exactly the first worker with the id, keeping the rest in order |
| WorkerPool.RemoveFirst | pkg/translate/worker_pool.go:279-284 | removal drops at most one worker and adds none |
| WorkerPool.RemoveDead | pkg/translate/worker_pool.go:264-290 | the health pass removes no more workers than its snapshot holds, and adds none |
| WorkerPool.Pool.RemoveWorker | pkg/translate/worker_pool.go:278-285 | the splice loop leaves the list without its first worker with the id, others in order |
| WorkerPool.Pool.HealthCheck | pkg/translate/worker_pool.go:264-290 | the scan over a copy removes one worker per dead worker found |
| WorkerPool.HealthCheckKeepsLive | pkg/translate/worker_pool.go:264-290 | with unique ids, the health check leaves exactly the workers that have not exited, in order |
| WorkerPool.SocketPath | pkg/translate/worker_pool.go:197 | a socket path is "/tmp/iskoces-workers/worker-" + id + ".sock" |
| WorkerPool.SocketPathInjective | pkg/translate/worker_pool.go:197 | different workers get different socket paths |
| WorkerPool.SupportedLanguagesShape | pkg/translate/worker_pool.go:385-392 | thirty two-letter lower-case codes, each already its own backend code |
| PythonWrapper.GeneratedScripts | pkg/translate/python_wrapper.go:50-132 | "" exactly for an engine other than libretranslate and argos; both known engines get the same program, which holds the stdin loop |
| PythonWrapper.GeneratePythonScript | pkg/translate/python_wrapper.go:50-132 | a generated program ends with the loop over standard input |
| PythonWrapper.ScriptRun | pkg/translate/python_wrapper.go:108-130 | the generated program answers each input line with exactly one reply line |
| PythonWrapper.ScriptReply | pkg/translate/python_wrapper.go:105-131 | every reply line is an object with "success", and a successful one carries "translated_text" |
| PythonWrapper.DecodeReplyOutcomes | pkg/translate/python_wrapper.go:205-223 | text exactly when "success" is the boolean true and "translated_text" is a string; otherwise "translation failed: " + the error string or "unknown error", even for JSON null |
| PythonWrapper.DecodeReply | pkg/translate/python_wrapper.go:205-223 | text comes back only from an object whose "translated_text" is that text |
| PythonWrapper.ClientsDisagree | pkg/translate/python_wrapper.go:210-221 | the pool and the subprocess client read `{"success": true}` differently: the empty translation versus "invalid response format" |
| PythonWrapper.TranslateThroughScript | pkg/translate/python_wrapper.go:183-223 | against the generated program, a request line is translated exactly when the library translates its three strings; a failure has the single prefix "translation failed: " |
| PythonWrapper.LaunchedWorkerRefusesArguments | pkg/translate/python_wrapper.go:147 | the command line `ensureProcess` builds fails the socket worker's argument check, which answers with its usage line |
| PythonWrapper.EnsureStepOutcomes | pkg/translate/python_wrapper.go:135-171 | a reusable subprocess (initialized, present, not exited) is kept; otherwise the call succeeds exactly when the start does, and the next call then reuses it |
| PythonWrapper.EnsureStep | pkg/translate/python_wrapper.go:135-171 | a call without error leaves a reusable subprocess; `initialized` is set afterwards exactly when it was before or the call succeeded |
| PythonWrapper.FailedRestartLooksReusable | pkg/translate/python_wrapper.go:139-165 | after a failed restart of an initialized translator, the unstarted command passes the reuse test |
| PythonWrapper.CloseStepOutcomes | pkg/translate/python_wrapper.go:244-262 | with no process, Close changes nothing; a failed kill leaves `initialized` as it was; a successful kill clears it, so the next call starts a new subprocess; the pipes end closed |
| PythonWrapper.CloseStep | pkg/translate/python_wrapper.go:244-262 | Close never sets `initialized`, and with a process no pipe is left open |
| PythonWrapper.PythonTranslator.constructor | pkg/translate/python_wrapper.go:31-47 | nothing started, not initialized |
| PythonWrapper.PythonTranslator.EnsureProcess | pkg/translate/python_wrapper.go:135-171 | the fields change as `EnsureStep` says, with the matching error |
| PythonWrapper.PythonTranslator.Translate | pkg/translate/python_wrapper.go:174-224 | the result is `TranslateOutcome` of the ensure, write and read outcomes; the request line is written exactly when the subprocess is ready |
| PythonWrapper.PythonTranslator.Close | pkg/translate/python_wrapper.go:244-262 | the fields change as `CloseStep` says |
| PythonWrapper.SameLanguagesAsPool | pkg/translate/python_wrapper.go:234-241 | the subprocess translator lists the same thirty codes as the pool |
| Metrics.PoolStats | pkg/translate/metrics.go:175-202 | the counting loop returns the gauges `Stats` of the worker list |
| Metrics.Stats | pkg/translate/metrics.go:175-202 | total is the number of workers, busy + idle = total, 0 ≤ active ≤ total, and every uptime belongs to a running worker of the list |
| Metrics.StatsCounts | pkg/translate/metrics.go:175-194 | total is the number of workers; busy + idle = total; active ≤ total; all busy means no idle |
| Metrics.StatsUptimes | pkg/translate/metrics.go:192-199 | an uptime is recorded exactly for running workers with a last-used time, and it is now minus that time |
| Metrics.StatusLabel | pkg/translate/metrics.go:220-223 | "success" exactly on success, otherwise "error" |
| Metrics.WorkerLabelIdentifies | pkg/translate/metrics.go:233 | the worker label is the decimal rendering of the id, which can be parsed back and names a single id |
| Metrics.SeriesSeparate | pkg/translate/metrics.go:219-254 | requests with different outcomes, and workers with different ids, land in different series; starts and restarts never share one |
| Metrics.Inc | pkg/translate/metrics.go:225 | incrementing adds one to the named series, starting from 0, and leaves every other series unchanged |
| Metrics.Collector.constructor | pkg/translate/metrics.go:161-166 | a new collector is bound to its engine and every counter series starts absent, that is at zero |
| Metrics.Collector.RecordTranslationRequest | pkg/translate/metrics.go:219-229 | increments the request counter labelled with engine and status |
| Metrics.Collector.RecordWorkerStart | pkg/translate/metrics.go:232-234 | increments the start counter labelled with engine and worker id |
| Metrics.Collector.RecordWorkerRestart | pkg/translate/metrics.go:237-239 | increments the restart counter labelled with engine and worker id |
| Metrics.Collector.RecordSocketConnection | pkg/translate/metrics.go:247-254 | increments the socket counter labelled with engine, worker id and status |
| TestClient.ToUpper | cmd/testclient/main.go:161-171 | the array loop returns `UpperRunes` of its input |
| TestClient.StoreRune | cmd/testclient/main.go:164-168 | one iteration stores the character's upper-cased rune at its byte offset, leaving zero runes after it |
| TestClient.UpperRunes | cmd/testclient/main.go:162 | the result has one rune per byte of the input |
| TestClient.UpperRunesStep | cmd/testclient/main.go:163-168 | each character adds its rune and RuneLen − 1 zero runes |
| TestClient.ToProtoLangCode | cmd/testclient/main.go:150-158 | source codes are upper-cased, target codes returned unchanged |
| TestClient.UpperRunesAscii | cmd/testclient/main.go:161-170 | on ASCII input: same length, 'a'..'z' shifted down by 32, every other character unchanged, no lower-case letter left |
| TestClient.UpperRunesIdempotent | cmd/testclient/main.go:161-170 | on ASCII input a second pass changes nothing |
| TestClient.UpperRunesMultibyte | cmd/testclient/main.go:162-167 | "né" becomes "Né" followed by a zero rune |
| TestClient.Upper | cmd/testclient/main.go:160-171 | the intended upper-casing: one output character per input character |
| TestClient.UpperIntended | cmd/testclient/main.go:160-171 | the intended upper-casing adds no zero rune, leaves no lower-case letter, is idempotent, and coincides with `toUpper` on ASCII |
| TestClient.BackendCodeOfUpperCode | cmd/testclient/main.go:150-158 | the service maps an upper-cased lower-case code back to itself |
| Text.Utf8LenConcat | pkg/service/job_processor.go:202 | Go's `len` of a concatenation is the sum of the lengths |
| Text.TrimSpaceProperties | pkg/service/job_processor.go:256 | `TrimSpace` leaves no white space at either end, and gives "" exactly for white-space-only text |
| Text.SplitJoin | pkg/service/job_processor.go:198 | joining the pieces of `strings.Split` with the same separator gives the text back |
| Text.Fields | pkg/translate/worker_pool.go:178 | `strings.Fields` yields only non-empty fields |
| Text.IndexAny | pkg/translate/translator.go:45 | the index of the first character in the set, or -1 when there is none |
| Decimal.FormatInt | pkg/translate/metrics.go:233 | `%d` is non-empty and starts with '-' exactly for negative numbers |
| Decimal.DigitsRoundTrip | pkg/translate/metrics.go:233 | the digits of a natural number read back to that number |
| Decimal.ParseInt64 | pkg/translate/worker_pool.go:181 | a parsed value is within the 64-bit range |
| Decimal.FormatParseRoundTrip | pkg/translate/worker_pool.go:181 | parsing the `%d` rendering of any 64-bit integer gives it back |
| Decimal.FormatIntInjective | pkg/translate/metrics.go:233 | different integers have different renderings |
| Decimal.Wrap64 | pkg/translate/worker_pool.go:183 | 64-bit two's-complement wrap-around: in range, congruent, identity in range |
| Decimal.Wrap32 | pkg/service/translation_service.go:253 | 32-bit two's-complement wrap-around: in range, congruent, identity in range |
| Json.Reply | scripts/translate_worker.py:57-60 | a reply object has exactly "success" and one other member, with the given values |

## Left out

- I/O and plumbing are not modelled: sockets, pipes, `exec`, `bind`/`listen`/`chmod`/`accept`, the file read of `/proc`, `sendall` and HTTP response writing. Their outcomes are parameters: read bytes, read or write errors, start and kill errors, the status file's text or its absence.
- Concurrency is not modelled: mutexes, goroutines, channels, the `workerReady` hand-off, the 10-second worker wait (an outcome parameter) and the 10-minute job context. Each operation is atomic.
- Wall-clock time is an integer parameter, and so is a generated UUID. RFC3339 timestamp formatting is a function parameter.
- JSON encoding and decoding to and from text are outside the model: values are decoded JSON. Go's case-insensitive field matching and the details of `json.Unmarshal` error messages are library behaviour; the messages are parameters.
- Floating point is outside the model:
  - JobProcessor.ProgressOps: the progress formula uses the exact integer quotient 10 + (i+1)·80/n in place of float64 arithmetic truncated to int32. The proved bounds (10..90, monotone, last is 90) are the ones the float formula is meant to have. A rounding below an integer would give one less.
  - Inference time, uptime and Prometheus durations are integers.
  - Histograms, gauges, `RecordQueueWait` and `UpdateWorkerMemory` only observe or set values and are not modelled.
- Text.Utf8Len: strings are sequences of Unicode scalar values, so invalid UTF-8 input is not modelled.
- Translator.Lower: `strings.ToLower` is modelled for ASCII letters only. Other scripts' case mappings are not modelled.
- TranslationService.QuoteRoundTrip: `%q` is modelled with escapes for '"', '\\', control characters and DEL; Go's escaping of non-printable characters above ASCII is not.
- JobQueue.Queue.CreateJob: starting the processor goroutine is left out. `ProcessJob` is modelled as a separate call on the created job.
- WorkerPool.Pool.HealthCheck: the restart by `startWorker` after each removal is left out, since it is process plumbing. So are `startWorker`, `monitor`, `manageWorkers`, `updateMetricsLoop` and `Close`.
- The pool's `Translate` is modelled by its result mapping, `PoolResult`, over the outcome of the exchange. The metric calls on its paths are modelled by the `Metrics` counters but not wired to each path.
- PythonWrapper.PythonTranslator.Translate: a new `bufio.Scanner` per call may buffer and lose later lines; the model reads one line per call.
- Go's `int` counters (`clientIDCounter`, Prometheus counters) are unbounded here; their overflow is not modelled.
- In TranslateStream, receive errors are compared by their text; an `io.EOF` from the library is the event whose message is "EOF".
- The double call to `time.Now` in `RegisterClient` (id seconds, then `now`) is a single clock reading in the model.
- pkg/translate/libretranslate.go, pkg/translate/argos.go and cmd/server/main.go are not part of this model: HTTP clients over a library, and process setup.
- The argostranslate package index, download and install are inside the library parameter.
- TranslationService.PrimitiveName: the generated enum's names other than the two supported values and the zero value PRIMITIVE_UNSPECIFIED are not known, because the .proto file is not part of this model; any other value prints as its number.
- JobProcessor.ProcessOps carries no contract of its own: its shape is stated by ProcessOpsShape and ProcessOpsLast, because a contract on it would be carried into every proof about finished jobs.

## Findings

| source | as written | input that shows it | evidently intended | confidence | as-written member | corrected member |
|---|---|---|---|---|---|---|
| pkg/translate/python_wrapper.go:147 | `ensureProcess` launches `python3 /app/scripts/translate_worker.py` with no arguments. That script is the socket worker, whose `main` demands `--socket <path>`, prints its usage line and exits with status 1 | any call of `Translate` on a fresh `PythonTranslator` | the subprocess runs the stdin/stdout program that `generatePythonScript` produces, which answers each request line | not executed | PythonWrapper.LaunchedWorkerRefusesArguments | PythonWrapper.TranslateThroughScript |
| cmd/testclient/main.go:162-167 | `toUpper` sizes its rune array by byte length and stores each rune at its byte offset, so a character of k bytes leaves k − 1 zero runes behind it | `toUpper("né")` is "Né\0" | one output character per input character, upper-cased on its own | not executed | TestClient.UpperRunesMultibyte | TestClient.UpperIntended |
