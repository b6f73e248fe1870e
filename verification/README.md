# White Rabbit text-to-speech core, in Dafny

This project models the text-to-speech path of the White Rabbit API, together with the error taxonomy and the error responses it relies on:

- **`TtsModel`** (`tts_model.dfy`) is the speech-engine lifecycle manager.
  - The class `TTSModelManager` holds the loaded engine, a loading flag and the error of a failed load.
  - `ManagerRegistry` is the class-level slot for the single manager.
  - `GetPipelineStep` specifies one `get_pipeline` call. The manager's methods are proved against it.
  - `Run` replays a series of calls, which is how the cross-call properties are stated: a failure is permanent, a loaded engine is kept, and the engine is loaded at most once.
- **`TtsService`** (`tts_service.dfy`) is the cache-first generation service. It checks the text length, resolves the voice, keys the cache on a digest of `text + ":" + voice`, serves `<key>.wav` from a flat cache directory, and generates and writes the file on a miss. On failure it removes the key's file before raising again.
  - `ServeRequest` specifies one request on the directory and the manager state.
  - `GenerateTtsAudio` is proved against it.
  - The lemmas after it state the hit, miss, failure and repeat behaviour.
- **`GenerateAudio`** (`generate_audio.dfy`) is the batch script.
  - It loads the quotes and generates one `<mystery_id>.wav` per quote that has none.
  - The `main` loop counts generated, skipped and failed quotes.
  - The counts add up to the number of quotes, and the skip count is the number of files that already existed.
- **`Exceptions`** (`exceptions.dfy`) is the exception hierarchy: one record per exception, with its kind, message, status code and details.
- **`ExceptionHandlers`** (`exception_handlers.dfy`) contains the four handlers that turn exceptions into response bodies, including the dotted field path of a validation error.
- **`Externals`** (`externals.dfy`) holds what the core uses but does not define:
  - opaque audio samples and engine handles;
  - the outcomes of the engine, its constructor and file writes;
  - the directory of audio files, as a class whose `files` map the methods update.
- **`Text`** (`text.dfy`) holds the Python string operations the messages use (`str(int)`, `sep.join`), with their inverses. **`Wrappers`** (`wrappers.dfy`) holds `Option` and `Result`.

Inputs and configuration:

- The following are parameters rather than computed values:
  - the engine's output for a call: its chunks and an optional exception;
  - the outcome of constructing the engine;
  - the outcome of each file write and removal;
  - the configuration: maximum text length, default voice, URL prefix, lazy-load flag and debug flag.
- SHA-256 is the `digest` field of `TtsSettings`, an arbitrary function of the joined string.

Behaviour of the code that the model keeps:

- The cache is never evicted. A request only adds the key's file, or removes it again after a failed generation.
- A cache file is written in place, with no temporary file and rename. A write that fails part-way can leave a partial file. The service then tries once to remove it; the batch script does not, and a later run takes such a file as done (`GenerateAudio.PartialFileTakenAsDone`).
- The cache key is a digest of `text + ":" + voice`, which is not injective on pairs (`TtsService.ColonInVoiceCollides`). It is injective for a fixed voice and for voices without `:`, given an injective digest.
- The error for an engine run with no chunks is raised inside the worker's own `except Exception`. It therefore reaches the caller re-wrapped, with the message `Audio generation failed: No audio chunks generated` and `error_type` `TTSGenerationError`.
- A "not ready" error from the manager reaches the caller of the service as a `TTSGenerationError`.

## Model

| member | source | states |
|---|---|---|
| `Text.IntToString` | api/src/exceptions.py:85 | `str(int)`: non-empty, starts with `-` exactly for negative numbers, otherwise only digits |
| `Text.ParseIntToString` | api/src/exceptions.py:85 | reading a rendered integer back gives the integer |
| `Text.IntToStringInjective` | api/src/exceptions.py:85 | distinct integers render differently |
| `Text.Join` | api/src/exception_handlers.py:110 | `sep.join(parts)`: empty for no parts, and the first part opens the result |
| `Text.JoinEndsWithLast` | api/src/exception_handlers.py:110 | the last part closes the joined string |
| `Text.JoinEmptyIff` | api/src/exception_handlers.py:110-114 | a join with a non-empty separator is empty exactly when there is nothing to join or one empty part |
| `Text.SplitJoin` | api/src/exception_handlers.py:110 | splitting a joined string on the separator gives the parts back when no part contains it |
| `Exceptions.ClassName` | api/src/exception_handlers.py:36 | `type(exc).__name__`: the class name of an exception identifies its kind (`KindOfName` reads it back) |
| `Exceptions.StoredDetails` | api/src/exceptions.py:27 | omitted details become the empty dictionary, never `None` |
| `Exceptions.WhiteRabbitException` | api/src/exceptions.py:19-28 | the base exception keeps message and details; status defaults to 500 |
| `Exceptions.DatabaseConnectionError` | api/src/exceptions.py:31-34 | status 503, default message "Database connection failed" |
| `Exceptions.DatabaseQueryError` | api/src/exceptions.py:37-40 | status 500, default message "Database query failed" |
| `Exceptions.ResourceNotFoundError` | api/src/exceptions.py:43-47 | status 404, message "{type} with id '{id}' not found" |
| `Exceptions.ValidationError` | api/src/exceptions.py:50-53 | status 422, the given message |
| `Exceptions.InvalidNodeTypeError` | api/src/exceptions.py:56-60 | status 400, message lists the valid types joined by ", " |
| `Exceptions.InvalidParameterError` | api/src/exceptions.py:63-67 | status 400, message names the parameter and the reason |
| `Exceptions.TTSGenerationError` | api/src/exceptions.py:70-73 | status 500, default message "TTS audio generation failed" |
| `Exceptions.TTSModelNotReadyError` | api/src/exceptions.py:76-79 | status 503, default message "TTS model is not ready" |
| `Exceptions.TextTooLongError` | api/src/exceptions.py:82-86 | status 400, message built from the length and the maximum |
| `Exceptions.TextTooLongMessageInjective` | api/src/exceptions.py:85 | the text-too-long message determines both the actual length and the maximum |
| `ExceptionHandlers.WhiteRabbitExceptionHandler` | api/src/exception_handlers.py:21-53 | response has the exception's status, class name, message and path; details are dropped exactly when empty |
| `ExceptionHandlers.WhiteRabbitResponseRoundTrip` | api/src/exception_handlers.py:35-41 | the exception can be read back from its response body |
| `ExceptionHandlers.HttpExceptionHandler` | api/src/exception_handlers.py:56-87 | error "HTTPException", the detail (or its rendering) as message, the exception's status, no details |
| `ExceptionHandlers.LocText` | api/src/exception_handlers.py:110 | `str(loc)`: a name as is; an index renders as a non-empty string with no `.` |
| `ExceptionHandlers.FieldText` | api/src/exception_handlers.py:110 | a field text exactly for a non-empty location, the only element of a one-element location; an empty location raises `IndexError` |
| `ExceptionHandlers.FieldOf` | api/src/exception_handlers.py:114 | an empty field text is no field; any other is kept |
| `ExceptionHandlers.FieldAbsentIff` | api/src/exception_handlers.py:110-116 | a validation error's field is absent exactly when its one location is empty, or its second of two renders empty |
| `ExceptionHandlers.FieldPathRoundTrip` | api/src/exception_handlers.py:110 | the dotted field splits back into the location after its first element |
| `ExceptionHandlers.ValidationExceptionHandler` | api/src/exception_handlers.py:90-138 | status 422, one detail per error in order, `error_count` equal to their number; an empty location raises `IndexError` |
| `ExceptionHandlers.GenericExceptionHandler` | api/src/exception_handlers.py:141-175 | always 500 with the fixed message; `error_type` present exactly in debug mode |
| `Externals.Concat` | api/src/services/tts_service.py:98 | joining the chunks end to end: the combined audio is as long as all chunks together |
| `Externals.ConcatAt` | api/src/services/tts_service.py:98 | each chunk appears unchanged, in order, at the offset of the chunks before it |
| `Externals.Directory.Exists` | api/src/services/tts_service.py:51 | `path.exists()`: true exactly when the directory holds the name |
| `Externals.Directory.Write` | api/src/services/tts_service.py:101-105 | a successful write stores the audio under the name; a failed one leaves at most a partial file |
| `Externals.Directory.Unlink` | api/src/services/tts_service.py:198-203 | a successful removal deletes the name only; a failed one changes nothing |
| `TtsModel.LazyLoadDisabled` | api/src/services/tts_model.py:88-92 | "not ready" (503) with the lazy-loading message and no details |
| `TtsModel.EarlierFailure` | api/src/services/tts_model.py:94-99 | "not ready" (503) repeating the earlier error's message and naming its class |
| `TtsModel.LoadPipelineSync` | api/src/services/tts_model.py:53-71 | the engine when construction succeeds; otherwise a generation error naming the original exception's class |
| `TtsModel.GetPipelineStep` | api/src/services/tts_model.py:73-134 | loads only when unloaded, lazy and without an earlier error; never clears a recorded error or drops a loaded engine |
| `TtsModel.Released` | api/src/services/tts_model.py:136-145 | cleanup drops the engine and keeps the recorded error |
| `TtsModel.ServesLoadedPipeline` | api/src/services/tts_model.py:85-86 | a loaded engine is returned with no load, whatever the flag or a recorded error |
| `TtsModel.LazyLoadOffRefuses` | api/src/services/tts_model.py:88-92 | unloaded with lazy loading off: "not ready" (503), no load, no change |
| `TtsModel.EarlierFailureRefuses` | api/src/services/tts_model.py:94-99 | after a failed load: "not ready" naming the earlier error's class, no load |
| `TtsModel.FailingLoadPropagates` | api/src/services/tts_model.py:120-134 | the call whose load fails raises the loader's generation error and records it |
| `TtsModel.SuccessfulLoadKeepsPipeline` | api/src/services/tts_model.py:120-128 | a successful load returns the engine and keeps it |
| `TtsModel.InitializedIffServedWithoutLoad` | api/src/services/tts_model.py:147-154 | the probe is true exactly when a call would be served without loading |
| `TtsModel.StickyFailure` | api/src/services/tts_model.py:94-99 | after a failed load, no series of calls loads again; every request raises "not ready"; the probe stays false |
| `TtsModel.SameHandleUntilCleanup` | api/src/services/tts_model.py:85-86 | until cleanup, every request returns the same engine, nothing loads, the probe stays true |
| `TtsModel.AtMostOneLoad` | api/src/services/tts_model.py:120-134 | without cleanup, a series of calls loads at most once, and not at all once loaded or failed |
| `TtsModel.TTSModelManager.constructor` | api/src/services/tts_model.py:31-35 | a new manager is unloaded, not loading, with no error |
| `TtsModel.TTSModelManager.GetPipeline` | api/src/services/tts_model.py:73-134 | state and result as `GetPipelineStep`; the loading flag is false on return; the load count rises exactly when it loads |
| `TtsModel.TTSModelManager.Cleanup` | api/src/services/tts_model.py:136-145 | state becomes `Released` of the old state; no load |
| `TtsModel.TTSModelManager.IsInitialized` | api/src/services/tts_model.py:147-154 | true exactly when an engine is loaded |
| `TtsModel.ManagerRegistry.constructor` | api/src/services/tts_model.py:27 | the class-level slot starts with no manager |
| `TtsModel.ManagerRegistry.GetInstance` | api/src/services/tts_model.py:37-51 | the existing manager when there is one, otherwise a new one; no state change |
| `TtsModel.ManagerRegistry.IsTtsModelReady` | api/src/services/tts_model.py:197-206 | false without a manager; otherwise whether an engine is loaded; never loads |
| `TtsModel.GetTtsPipeline` | api/src/services/tts_model.py:157-169 | the singleton's `GetPipeline`: same manager, state and result as `GetPipelineStep` |
| `TtsModel.WarmupTtsModel` | api/src/services/tts_model.py:172-184 | state, error and load count as the accessor's step (`GetPipelineStep`) |
| `TtsModel.CleanupTtsModel` | api/src/services/tts_model.py:187-194 | the singleton's state becomes `Released` of the old state; no load |
| `TtsService.GenerateCacheKey` | api/src/services/tts_service.py:23-35 | the key is the digest of the text and the voice joined by `:` |
| `TtsService.CacheFileName` | api/src/services/tts_service.py:49 | the key followed by `.wav` |
| `TtsService.CacheFileNameInjective` | api/src/services/tts_service.py:188 | distinct keys name distinct cache files |
| `TtsService.AudioUrl` | api/src/services/tts_service.py:184 | the URL prefix, a slash, then the file name |
| `TtsService.ResolveVoice` | api/src/services/tts_service.py:167-168 | a missing, empty or "default" voice becomes the configured default; any other is used verbatim |
| `TtsService.SameJoinSameKey` | api/src/services/tts_service.py:34-35 | pairs that join to the same string share a key |
| `TtsService.ColonInVoiceCollides` | api/src/services/tts_service.py:34-35 | ("a:b", "c") and ("a", "b:c") share a key under any digest |
| `TtsService.SameVoiceKeysSeparateTexts` | api/src/services/tts_service.py:34-35 | for one voice and an injective digest, distinct texts get distinct keys |
| `TtsService.ColonFreeVoicesKeysInjective` | api/src/services/tts_service.py:34-35 | with an injective digest and voices without `:`, the key determines text and voice |
| `TtsService.CheckCache` | api/src/services/tts_service.py:38-56 | a hit exactly when `<key>.wav` exists, and then that name |
| `TtsService.EngineAudio` | api/src/services/tts_service.py:82-98 | audio exactly when the engine did not fail and yielded a chunk, and then the concatenated chunks, as long as all chunks together; an engine failure is passed on as is; no chunks is the "No audio chunks generated" error |
| `TtsService.GenerationFailure` | api/src/services/tts_service.py:109-118 | every worker failure becomes a generation error (500) "Audio generation failed: …" whose details are the cause's class, the text length and the voice |
| `TtsService.SurfacedError` | api/src/services/tts_service.py:122-129 | every manager error leaves the worker as a generation error; one already of that kind passes unchanged; others name their class |
| `TtsService.GenerateSpec` | api/src/services/tts_service.py:82-118 | succeeds exactly when engine and write succeed, then stores the concatenated chunks; every failure is a generation error; only the key's entry can change |
| `TtsService.Generate` | api/src/services/tts_service.py:82-118 | collects the chunks in order and writes their concatenation; directory and error as `GenerateSpec` |
| `TtsService.GenerateAudioSync` | api/src/services/tts_service.py:59-129 | manager step as `GetPipelineStep`; a manager error is surfaced and leaves the directory unchanged; otherwise as `GenerateSpec`; the error is always a generation error |
| `TtsService.CleanedUp` | api/src/services/tts_service.py:196-203 | the failure cleanup touches only the key's file: it is gone after a successful removal, and the directory is unchanged when the removal fails |
| `TtsService.MissOutcome` | api/src/services/tts_service.py:187-206 | a miss either adds the key's file and answers `cached = false`, or raises a generation error; only the key's entry can change |
| `TtsService.ServeRequest` | api/src/services/tts_service.py:132-206 | only text-too-long or generation errors escape; a success names the key's URL and the file exists; only the key's entry can change |
| `TtsService.ServeMiss` | api/src/services/tts_service.py:187-206 | generation then cleanup on failure, as `MissOutcome` |
| `TtsService.GenerateTtsAudio` | api/src/services/tts_service.py:132-206 | response, directory, manager state and loads as `ServeRequest` |
| `TtsService.TooLongRefused` | api/src/services/tts_service.py:158-164 | text-too-long exactly when the length exceeds the maximum; then no lookup, load or write |
| `TtsService.HitServedWithoutEngine` | api/src/services/tts_service.py:179-185 | on a hit, the key's URL with `cached = true`; directory and manager untouched |
| `TtsService.MissStoresConcatenation` | api/src/services/tts_service.py:187-194 | a successful miss adds exactly the key's file, holding the chunks in order; `cached = false` |
| `TtsService.RepeatIsCached` | api/src/services/tts_service.py:179-194 | after a success, the same request is a hit with the same URL and changes nothing |
| `TtsService.FailedMissRestores` | api/src/services/tts_service.py:196-206 | a failed miss raises a generation error; other entries are untouched; the key's file survives only after a partial write whose removal failed; when the manager served an engine, the error is the worker's own |
| `TtsService.NoChunksNoFile` | api/src/services/tts_service.py:91-95 | an engine run with no chunks fails the request and writes nothing |
| `TtsService.ManagerFailureSurfacesAsGeneration` | api/src/services/tts_service.py:122-129 | a manager failure reaches the caller as a generation error ("not ready" wrapped with its class name); no file |
| `GenerateAudio.Lookup` | scripts/generate_audio.py:39 | absent exactly when no member has the key; otherwise the last member with that key |
| `GenerateAudio.LoadQuotes` | scripts/generate_audio.py:35-39 | the last "Quotes" member of the file, or an empty object when there is none |
| `GenerateAudio.OutputFileName` | scripts/generate_audio.py:63 | the mystery id followed by `.wav` |
| `GenerateAudio.OutputFileNameInjective` | scripts/generate_audio.py:63 | distinct mysteries write distinct files |
| `GenerateAudio.QuoteSpec` | scripts/generate_audio.py:42-94 | an existing file is success with no change; otherwise success exactly when engine and write succeed, storing the chunks in order; only that file can change |
| `GenerateAudio.GenerateAudioForQuote` | scripts/generate_audio.py:42-94 | result and directory as `QuoteSpec`; no error escapes |
| `GenerateAudio.PartialFileTakenAsDone` | scripts/generate_audio.py:63-94 | a partial file left by a failed write makes a later attempt report success without regenerating |
| `GenerateAudio.Visit` | scripts/generate_audio.py:146-162 | one visit raises exactly one counter: skip when the file exists, otherwise success or error as the quote's generation reports, with the directory that generation leaves; only that file can change |
| `GenerateAudio.TallyAll` | scripts/generate_audio.py:146-162 | the loop over the quotes in order creates or removes only files of the quotes it visits |
| `GenerateAudio.TallyConservation` | scripts/generate_audio.py:139-170 | generated + skipped + failed = number of quotes |
| `GenerateAudio.TallyFrame` | scripts/generate_audio.py:146-162 | the loop never creates or removes a file of a quote it did not visit |
| `GenerateAudio.SkipCountsExisting` | scripts/generate_audio.py:146-152 | the skip count is the number of quotes whose file existed before the run |
| `GenerateAudio.GenerateAll` | scripts/generate_audio.py:139-170 | counts and directory as the loop specification; the counts add up and the skips are the pre-existing files |

## Left out

Concurrency and foreign code:

- The `asyncio` lock, the `_is_loading` wait loop, the double check under the lock and the thread-pool executor are not modelled, because calls are sequential here. The "another thread is loading" wait (api/src/services/tts_model.py:107-118) cannot be reached even under concurrency, because the lock is held for the whole load (lines 121-134). `TtsModel.StickyFailure` and `TtsModel.AtMostOneLoad` describe calls made one after another. Under concurrent callers they hold less widely, because the check under the lock (api/src/services/tts_model.py:104) re-tests the engine but not the recorded error. A caller that passed the early checks before a load failed, and then waited on the lock, finds no engine and runs the loader again. So concurrent callers load once only when the load succeeds, and a failure stops only the calls that start after it is recorded.
- The Kokoro engine, `np.concatenate` over float arrays and `soundfile` encoding are not modelled. Samples are opaque and concatenation is sequence append. The sample rate (24000 in the script) and the script's voice (`bm_fable`) are not modelled, because they only reach the engine and the encoder. The engine's `gs` and `ps` outputs are ignored by the source too.
- SHA-256 is an arbitrary function, so its collision resistance is stated as an assumption (`TtsService.SameVoiceKeysSeparateTexts`, `TtsService.ColonFreeVoicesKeysInjective`).
- `mkdir` of the cache and output directories is not modelled: the directory is assumed to exist and its failure is not modelled.

Left out as not part of the core logic:

- Logging and `print` output are not modelled. `mystery_id` in the service is only logged, so it is an unused parameter.
- Reading the message file and parsing JSON are not modelled: the model starts from the parsed top-level object. Quote values that are not strings are outside `GenerateAudio.GenerateAll`, which takes string pairs.
- The parts of the script's `main` outside its counting loop are not modelled: the file checks, the engine construction, `sys.exit` and the final report.
- The framework wiring is not modelled: request paths arrive as strings, and `settings.debug` and the `tts_*` settings are parameters.
- The graph-database services, the routers, the schemas' declarative bounds and the middleware are not part of this model.
- A constructor that returns `None` instead of an engine would leave the manager unloaded. That case is not modelled: a successful load always yields an engine handle.
