/**
  The cache-first speech service. A request is checked for length, its
  voice is resolved, and the pair is keyed by a digest of
  `text + ":" + voice`. A file `<key>.wav` in the flat cache directory is
  served as is; otherwise the engine's chunks are concatenated and written
  there. On any failure the file at the key, if one exists, is removed
  and the error is raised again.

  The digest (SHA-256 in the service) is a function-valued setting. The
  engine's run, the outcomes of the file operations and the engine's
  construction are inputs. `ServeRequest` specifies one request on the
  directory and the manager state; the methods are proved against it.
 */
module TtsService {
  import opened Wrappers
  import opened Text
  import opened Exceptions
  import opened Externals
  import opened TtsModel

  /** The configuration the service reads. */
  datatype TtsSettings = TtsSettings(
    maxTextLength: int,
    defaultVoice: string,
    staticAudioUrlPrefix: string,
    lazyLoad: bool,
    digest: string -> string)

  datatype TtsResponse = TtsResponse(audioUrl: string, cached: bool)

  /** The string the key is a digest of. */
  function CacheString(text: string, voice: string): string
  {
    text + ":" + voice
  }

  /** `_generate_cache_key`: the hex digest of the text and the voice joined
      by a colon. The digest (SHA-256 in the service) is a parameter. */
  function GenerateCacheKey(digest: string -> string, text: string, voice: string): (k: string)
    ensures k == digest(text + ":" + voice)
  {
    digest(CacheString(text, voice))
  }

  /** The name of the cached file for a key. */
  function CacheFileName(key: string): (n: string)
    ensures |n| == |key| + 4 && n[..|key|] == key && n[|key|..] == ".wav"
  {
    key + ".wav"
  }

  /** Distinct keys name distinct cache files. */
  lemma CacheFileNameInjective(a: string, b: string)
    requires CacheFileName(a) == CacheFileName(b)
    ensures a == b
  {
    CancelSuffix(a, b, ".wav");
  }

  /** The URL of a cached file: the prefix, a slash, then the file name. */
  function AudioUrl(prefix: string, fileName: string): (u: string)
    ensures |u| == |prefix| + 1 + |fileName|
    ensures u[..|prefix|] == prefix && u[|prefix|] == '/' && u[|prefix| + 1..] == fileName
  {
    prefix + "/" + fileName
  }

  /** A missing or empty voice, or the word "default", stands for the
      configured default voice; any other voice is used verbatim. */
  function ResolveVoice(voice: Option<string>, defaultVoice: string): (v: string)
    ensures voice.None? || voice.value == "" || voice.value == "default" ==> v == defaultVoice
    ensures voice.Some? && voice.value != "" && voice.value != "default" ==> v == voice.value
  {
    if voice.None? || voice.value == "" || voice.value == "default" then defaultVoice else voice.value
  }

  /** The file a request is cached under. */
  function RequestFileName(settings: TtsSettings, text: string, voice: Option<string>): string
  {
    CacheFileName(GenerateCacheKey(settings.digest, text, ResolveVoice(voice, settings.defaultVoice)))
  }

  /** The key depends on nothing but the joined string: pairs that join to
      the same string share a key. */
  lemma SameJoinSameKey(digest: string -> string, t1: string, v1: string, t2: string, v2: string)
    requires CacheString(t1, v1) == CacheString(t2, v2)
    ensures GenerateCacheKey(digest, t1, v1) == GenerateCacheKey(digest, t2, v2)
  {
  }

  /** The join is ambiguous once a voice may contain `:`: two different
      requests then share a key, whatever the digest. */
  lemma ColonInVoiceCollides(digest: string -> string)
    ensures GenerateCacheKey(digest, "a:b", "c") == GenerateCacheKey(digest, "a", "b:c")
  {
    assert CacheString("a:b", "c") == CacheString("a", "b:c");
  }

  /** For one voice, an injective digest gives distinct texts distinct keys. */
  lemma SameVoiceKeysSeparateTexts(digest: string -> string, t1: string, t2: string, voice: string)
    requires forall a, b :: digest(a) == digest(b) ==> a == b
    requires GenerateCacheKey(digest, t1, voice) == GenerateCacheKey(digest, t2, voice)
    ensures t1 == t2
  {
    assert CacheString(t1, voice) == CacheString(t2, voice);
    assert t1 + ":" + voice == t1 + (":" + voice) && t2 + ":" + voice == t2 + (":" + voice);
    CancelSuffix(t1, t2, ":" + voice);
  }

  /** With an injective digest and voices free of `:`, the key determines
      both the text and the voice: the last `:` of the joined string is the
      separator. */
  lemma ColonFreeVoicesKeysInjective(digest: string -> string, t1: string, v1: string, t2: string, v2: string)
    requires forall a, b :: digest(a) == digest(b) ==> a == b
    requires forall k :: 0 <= k < |v1| ==> v1[k] != ':'
    requires forall k :: 0 <= k < |v2| ==> v2[k] != ':'
    requires GenerateCacheKey(digest, t1, v1) == GenerateCacheKey(digest, t2, v2)
    ensures t1 == t2 && v1 == v2
  {
    var s := CacheString(t1, v1);
    assert s == CacheString(t2, v2);
    assert s[|t1|] == ':' && s[|t2|] == ':';
    var k := if |t1| >= |t2| then |t1| else |t2|;
    assert s[k] == ':';
    assert |t1| == |t2|;
    assert t1 == s[..|t1|] && t2 == s[..|t2|];
    assert v1 == s[|t1| + 1..] && v2 == s[|t2| + 1..];
  }

  /** `_check_cache`: the cached file's name when it exists. */
  method CheckCache(cache: Directory, key: string) returns (hit: Option<string>)
    ensures hit.Some? <==> CacheFileName(key) in cache.files
    ensures hit.Some? ==> hit.value == CacheFileName(key)
  {
    var name := CacheFileName(key);
    if cache.Exists(name) {
      return Some(name);
    }
    return None;
  }

  /** The exception raised for an engine run that yields nothing. */
  const NoChunks := Raised(ClassName(TTSGeneration), "No audio chunks generated")

  /** What the engine gives the writer: the combined audio, or the exception
      that ends generation (the engine's own, or the one for no chunks). */
  function EngineAudio(run: EngineRun): (r: Result<seq<Sample>, Raised>)
    ensures r.Ok? <==> run.failure.None? && |run.chunks| > 0
    ensures r.Ok? ==> |r.value| == TotalLength(run.chunks)
    ensures run.failure.None? && |run.chunks| == 0 ==> r == Err(NoChunks)
    ensures run.failure.Some? ==> r == Err(run.failure.value)
    ensures r.Ok? ==> r.value == Concat(run.chunks)
  {
    if run.failure.Some? then Err(run.failure.value)
    else if |run.chunks| == 0 then Err(NoChunks)
    else Ok(Concat(run.chunks))
  }

  /** The generation error every failure inside the worker becomes. */
  function GenerationFailure(cause: Raised, text: string, voice: string): (e: AppError)
    ensures e.kind == TTSGeneration && e.statusCode == 500
    ensures e.message == "Audio generation failed: " + cause.text
    ensures e.details.Keys == {"error_type", "text_length", "voice_id"}
    ensures e.details["error_type"] == DStr(cause.typeName) && e.details["text_length"] == DInt(|text|)
    ensures e.details["voice_id"] == DStr(voice)
  {
    TTSGenerationError(Some("Audio generation failed: " + cause.text),
                       Some(map["error_type" := DStr(cause.typeName),
                                "text_length" := DInt(|text|),
                                "voice_id" := DStr(voice)]))
  }

  /** What the worker raises for an error of the engine's manager: a
      generation error passes through, any other kind is wrapped into one
      that names the original class. */
  function SurfacedError(e: AppError): (r: AppError)
    ensures r.kind == TTSGeneration
    ensures e.kind == TTSGeneration ==> r == e
    ensures e.kind != TTSGeneration ==> r.details == map["error_type" := DStr(ClassName(e.kind))]
  {
    if e.kind == TTSGeneration then e
    else TTSGenerationError(Some("Unexpected error during audio generation: " + e.message),
                            Some(map["error_type" := DStr(ClassName(e.kind))]))
  }

  /** The directory after the worker and the error it raised, if any. */
  datatype Generation = Generation(files: map<string, seq<Sample>>, error: Option<AppError>)

  /** Specification of the worker: collect the chunks, refuse an empty run,
      write the combined audio, and wrap every failure as a generation
      error. Only the entry under `name` can change. */
  function GenerateSpec(files: map<string, seq<Sample>>, name: string, text: string, voice: string,
                        run: EngineRun, write: WriteOutcome): (g: Generation)
    ensures g.error.None? <==> EngineAudio(run).Ok? && write.Written?
    ensures g.error.None? ==> g.files == files[name := Concat(run.chunks)]
    ensures g.error.Some? ==> g.error.value.kind == TTSGeneration
    ensures EngineAudio(run).Err? ==> g.files == files
    ensures g.files - {name} == files - {name}
  {
    match EngineAudio(run)
    case Err(cause) => Generation(files, Some(GenerationFailure(cause, text, voice)))
    case Ok(audio) =>
      match write
      case Written => Generation(files[name := audio], None)
      case WriteFailed(e, leftover) =>
        Generation(if leftover.Some? then files[name := leftover.value] else files,
                   Some(GenerationFailure(e, text, voice)))
  }

  /** The inner `generate`: run the engine, collecting its chunks in order,
      then write their concatenation to the cache file. */
  method Generate(cache: Directory, name: string, text: string, voice: string, run: EngineRun, write: WriteOutcome)
    returns (err: Option<AppError>)
    modifies cache
    ensures var g := GenerateSpec(old(cache.files), name, text, voice, run, write);
      cache.files == g.files && err == g.error
  {
    var chunks: seq<seq<Sample>> := [];
    for i := 0 to |run.chunks|
      invariant chunks == run.chunks[..i]
    {
      chunks := chunks + [run.chunks[i]];
    }
    assert chunks == run.chunks;
    if run.failure.Some? {
      return Some(GenerationFailure(run.failure.value, text, voice));
    }
    if |chunks| == 0 {
      return Some(GenerationFailure(NoChunks, text, voice));
    }
    var audio := Concat(chunks);
    var failed := cache.Write(name, audio, write);
    if failed.Some? {
      return Some(GenerationFailure(failed.value, text, voice));
    }
    return None;
  }

  /** `_generate_audio_sync`: obtain the engine, then run the worker; what
      escapes is always a generation error. */
  method GenerateAudioSync(registry: ManagerRegistry, lazyLoad: bool, load: LoadOutcome, cache: Directory,
                           name: string, text: string, voice: string, run: EngineRun, write: WriteOutcome)
    returns (err: Option<AppError>)
    requires registry.Valid()
    modifies registry, registry.instance, cache
    ensures registry.Valid() && registry.instance != null
    ensures old(registry.instance) != null ==> registry.instance == old(registry.instance)
    ensures old(registry.instance) == null ==> fresh(registry.instance)
    ensures var t := GetPipelineStep(old(registry.Current()), lazyLoad, load);
      && registry.Current() == t.next
      && registry.Loads() == old(registry.Loads()) + (if t.loaded then 1 else 0)
      && (t.result.Err? ==> err == Some(SurfacedError(t.result.error)) && cache.files == old(cache.files))
      && (t.result.Ok? ==> var g := GenerateSpec(old(cache.files), name, text, voice, run, write);
                           cache.files == g.files && err == g.error)
    ensures err.Some? ==> err.value.kind == TTSGeneration
  {
    var pipeline := GetTtsPipeline(registry, lazyLoad, load);
    if pipeline.Err? {
      return Some(SurfacedError(pipeline.error));
    }
    err := Generate(cache, name, text, voice, run, write);
  }

  /** The failure cleanup: remove the key's file if one exists; a failed
      removal is swallowed. */
  function CleanedUp(files: map<string, seq<Sample>>, name: string, unlinkOk: bool): (r: map<string, seq<Sample>>)
    ensures r - {name} == files - {name}
    ensures unlinkOk ==> name !in r
    ensures !unlinkOk ==> r == files
  {
    if name in files && unlinkOk then files - {name} else files
  }

  /** The effect of one request: the response or error, the directory, the
      manager's state and the number of engine loads. */
  datatype Outcome = Outcome(result: Result<TtsResponse, AppError>, files: map<string, seq<Sample>>,
                             model: ManagerState, loads: nat)

  /** Specification of a cache miss: obtain the engine, run the worker,
      and on failure clean up the key's file. */
  function MissOutcome(files: map<string, seq<Sample>>, model: ManagerState, lazyLoad: bool,
                       name: string, url: string, text: string, voice: string,
                       load: LoadOutcome, run: EngineRun, write: WriteOutcome, unlinkOk: bool): (o: Outcome)
    ensures o.result.Err? ==> o.result.error.kind == TTSGeneration
    ensures o.result.Ok? ==> o.result.value == TtsResponse(url, false) && name in o.files
    ensures o.files - {name} == files - {name}
  {
    var t := GetPipelineStep(model, lazyLoad, load);
    var loads := if t.loaded then 1 else 0;
    if t.result.Err? then
      Outcome(Err(SurfacedError(t.result.error)), CleanedUp(files, name, unlinkOk), t.next, loads)
    else
      var g := GenerateSpec(files, name, text, voice, run, write);
      if g.error.None? then Outcome(Ok(TtsResponse(url, false)), g.files, t.next, loads)
      else Outcome(Err(g.error.value), CleanedUp(g.files, name, unlinkOk), t.next, loads)
  }

  /** Specification of `generate_tts_audio`. */
  function ServeRequest(settings: TtsSettings, files: map<string, seq<Sample>>, model: ManagerState,
                        text: string, voice: Option<string>,
                        load: LoadOutcome, run: EngineRun, write: WriteOutcome, unlinkOk: bool): (o: Outcome)
    ensures o.result.Err? ==> o.result.error.kind == TextTooLong || o.result.error.kind == TTSGeneration
    ensures o.result.Ok? ==>
              o.result.value.audioUrl == AudioUrl(settings.staticAudioUrlPrefix, RequestFileName(settings, text, voice))
              && RequestFileName(settings, text, voice) in o.files
    ensures o.files - {RequestFileName(settings, text, voice)} == files - {RequestFileName(settings, text, voice)}
  {
    if |text| > settings.maxTextLength then
      Outcome(Err(TextTooLongError(|text|, settings.maxTextLength, None)), files, model, 0)
    else
      var resolved := ResolveVoice(voice, settings.defaultVoice);
      var name := CacheFileName(GenerateCacheKey(settings.digest, text, resolved));
      var url := AudioUrl(settings.staticAudioUrlPrefix, name);
      if name in files then Outcome(Ok(TtsResponse(url, true)), files, model, 0)
      else MissOutcome(files, model, settings.lazyLoad, name, url, text, resolved, load, run, write, unlinkOk)
  }

  /** The miss path of `generate_tts_audio`: generate, and on failure remove
      the key's file if one exists (a failed removal is only logged) before
      raising the original error. */
  method ServeMiss(registry: ManagerRegistry, lazyLoad: bool, cache: Directory, name: string, url: string,
                   text: string, voice: string, load: LoadOutcome, run: EngineRun, write: WriteOutcome, unlinkOk: bool)
    returns (r: Result<TtsResponse, AppError>)
    requires registry.Valid()
    modifies registry, registry.instance, cache
    ensures registry.Valid()
    ensures old(registry.instance) != null ==> registry.instance == old(registry.instance)
    ensures var o := MissOutcome(old(cache.files), old(registry.Current()), lazyLoad, name, url, text, voice,
                                 load, run, write, unlinkOk);
      && r == o.result && cache.files == o.files && registry.Current() == o.model
      && registry.Loads() == old(registry.Loads()) + o.loads
  {
    ghost var o := MissOutcome(cache.files, registry.Current(), lazyLoad, name, url, text, voice,
                               load, run, write, unlinkOk);
    var err := GenerateAudioSync(registry, lazyLoad, load, cache, name, text, voice, run, write);
    if err.None? {
      return Ok(TtsResponse(url, false));
    }
    ghost var failedFiles := cache.files;
    assert o.result == Err(err.value) && o.files == CleanedUp(failedFiles, name, unlinkOk);
    if cache.Exists(name) {
      var ignored := cache.Unlink(name, unlinkOk);
    }
    assert cache.files == CleanedUp(failedFiles, name, unlinkOk);
    return Err(err.value);
  }

  /** `generate_tts_audio`, on the cache directory and the engine's manager. */
  method GenerateTtsAudio(settings: TtsSettings, cache: Directory, registry: ManagerRegistry,
                          mysteryId: string, text: string, voice: Option<string>,
                          load: LoadOutcome, run: EngineRun, write: WriteOutcome, unlinkOk: bool)
    returns (r: Result<TtsResponse, AppError>)
    requires registry.Valid()
    modifies registry, registry.instance, cache
    ensures registry.Valid()
    ensures old(registry.instance) != null ==> registry.instance == old(registry.instance)
    ensures var o := ServeRequest(settings, old(cache.files), old(registry.Current()), text, voice, load, run, write, unlinkOk);
      && r == o.result && cache.files == o.files && registry.Current() == o.model
      && registry.Loads() == old(registry.Loads()) + o.loads
  {
    if |text| > settings.maxTextLength {
      return Err(TextTooLongError(|text|, settings.maxTextLength, None));
    }
    var resolved := ResolveVoice(voice, settings.defaultVoice);
    var key := GenerateCacheKey(settings.digest, text, resolved);
    var cached := CheckCache(cache, key);
    if cached.Some? {
      return Ok(TtsResponse(AudioUrl(settings.staticAudioUrlPrefix, cached.value), true));
    }
    var name := CacheFileName(key);
    r := ServeMiss(registry, settings.lazyLoad, cache, name, AudioUrl(settings.staticAudioUrlPrefix, name),
                   text, resolved, load, run, write, unlinkOk);
  }

  /** Length check: a text longer than the maximum is refused with both
      numbers, before any lookup, load or write; a text of exactly the
      maximum length is accepted. */
  lemma TooLongRefused(settings: TtsSettings, files: map<string, seq<Sample>>, model: ManagerState,
                       text: string, voice: Option<string>,
                       load: LoadOutcome, run: EngineRun, write: WriteOutcome, unlinkOk: bool)
    ensures var o := ServeRequest(settings, files, model, text, voice, load, run, write, unlinkOk);
      (o.result.Err? && o.result.error.kind == TextTooLong) <==> |text| > settings.maxTextLength
    ensures var o := ServeRequest(settings, files, model, text, voice, load, run, write, unlinkOk);
      |text| > settings.maxTextLength ==>
        o == Outcome(Err(TextTooLongError(|text|, settings.maxTextLength, None)), files, model, 0)
  {
  }

  /** Cache hit: the cached URL is returned with `cached` set, and neither
      the directory nor the manager is touched. */
  lemma HitServedWithoutEngine(settings: TtsSettings, files: map<string, seq<Sample>>, model: ManagerState,
                               text: string, voice: Option<string>,
                               load: LoadOutcome, run: EngineRun, write: WriteOutcome, unlinkOk: bool)
    requires |text| <= settings.maxTextLength
    requires RequestFileName(settings, text, voice) in files
    ensures ServeRequest(settings, files, model, text, voice, load, run, write, unlinkOk)
         == Outcome(Ok(TtsResponse(AudioUrl(settings.staticAudioUrlPrefix, RequestFileName(settings, text, voice)), true)),
                    files, model, 0)
  {
  }

  /** Successful miss: exactly one entry is added, holding the chunks in
      order, and the response is not marked cached. */
  lemma MissStoresConcatenation(settings: TtsSettings, files: map<string, seq<Sample>>, model: ManagerState,
                                text: string, voice: Option<string>,
                                load: LoadOutcome, run: EngineRun, write: WriteOutcome, unlinkOk: bool)
    requires RequestFileName(settings, text, voice) !in files
    requires ServeRequest(settings, files, model, text, voice, load, run, write, unlinkOk).result.Ok?
    ensures var o := ServeRequest(settings, files, model, text, voice, load, run, write, unlinkOk);
      && !o.result.value.cached
      && o.files == files[RequestFileName(settings, text, voice) := Concat(run.chunks)]
      && |o.files[RequestFileName(settings, text, voice)]| == TotalLength(run.chunks)
  {
  }

  /** A request that succeeded is served from the cache when repeated: same
      URL, `cached` set, nothing changed, whatever the engine would do. */
  lemma {:induction false} RepeatIsCached(settings: TtsSettings, files: map<string, seq<Sample>>, model: ManagerState,
                                          text: string, voice: Option<string>,
                                          load: LoadOutcome, run: EngineRun, write: WriteOutcome, unlinkOk: bool,
                                          load2: LoadOutcome, run2: EngineRun, write2: WriteOutcome, unlinkOk2: bool)
    requires ServeRequest(settings, files, model, text, voice, load, run, write, unlinkOk).result.Ok?
    ensures var o := ServeRequest(settings, files, model, text, voice, load, run, write, unlinkOk);
      ServeRequest(settings, o.files, o.model, text, voice, load2, run2, write2, unlinkOk2)
        == Outcome(Ok(TtsResponse(o.result.value.audioUrl, true)), o.files, o.model, 0)
  {
    var o := ServeRequest(settings, files, model, text, voice, load, run, write, unlinkOk);
    assert |text| <= settings.maxTextLength;
    HitServedWithoutEngine(settings, o.files, o.model, text, voice, load2, run2, write2, unlinkOk2);
  }

  /** Failed miss: a generation error is raised and every other entry is as
      it was; the key's file survives only when a write left one behind and
      its removal failed. */
  lemma FailedMissRestores(settings: TtsSettings, files: map<string, seq<Sample>>, model: ManagerState,
                           text: string, voice: Option<string>,
                           load: LoadOutcome, run: EngineRun, write: WriteOutcome, unlinkOk: bool)
    requires |text| <= settings.maxTextLength
    requires RequestFileName(settings, text, voice) !in files
    requires ServeRequest(settings, files, model, text, voice, load, run, write, unlinkOk).result.Err?
    ensures var o := ServeRequest(settings, files, model, text, voice, load, run, write, unlinkOk);
      && o.result.error.kind == TTSGeneration
      && o.files - {RequestFileName(settings, text, voice)} == files
      && (unlinkOk ==> o.files == files)
      && (RequestFileName(settings, text, voice) in o.files ==> !unlinkOk && write.WriteFailed? && write.leftover.Some?)
    ensures GetPipelineStep(model, settings.lazyLoad, load).result.Ok? ==>
              var g := GenerateSpec(files, RequestFileName(settings, text, voice), text,
                                    ResolveVoice(voice, settings.defaultVoice), run, write);
              g.error.Some? && ServeRequest(settings, files, model, text, voice, load, run, write, unlinkOk).result
                                 == Err(g.error.value)
  {
    var name := RequestFileName(settings, text, voice);
    assert files - {name} == files;
  }

  /** An engine run that yields no chunk fails the request with a
      generation error and leaves no file. */
  lemma NoChunksNoFile(settings: TtsSettings, files: map<string, seq<Sample>>, model: ManagerState,
                       text: string, voice: Option<string>,
                       load: LoadOutcome, run: EngineRun, write: WriteOutcome, unlinkOk: bool)
    requires |text| <= settings.maxTextLength
    requires RequestFileName(settings, text, voice) !in files
    requires run == EngineRun([], None)
    ensures var o := ServeRequest(settings, files, model, text, voice, load, run, write, unlinkOk);
      && o.result.Err? && o.result.error.kind == TTSGeneration
      && o.files == files
  {
  }

  /** Every failure of the engine's manager reaches the caller of the
      service as a generation error; "not ready" in particular is wrapped
      and names its class. */
  lemma ManagerFailureSurfacesAsGeneration(settings: TtsSettings, files: map<string, seq<Sample>>, model: ManagerState,
                                           text: string, voice: Option<string>,
                                           load: LoadOutcome, run: EngineRun, write: WriteOutcome, unlinkOk: bool)
    requires |text| <= settings.maxTextLength
    requires RequestFileName(settings, text, voice) !in files
    requires GetPipelineStep(model, settings.lazyLoad, load).result.Err?
    ensures var o := ServeRequest(settings, files, model, text, voice, load, run, write, unlinkOk);
      var e := GetPipelineStep(model, settings.lazyLoad, load).result.error;
      && o.result == Err(SurfacedError(e))
      && o.result.error.kind == TTSGeneration
      && (e.kind == TTSModelNotReady ==> o.result.error.details == map["error_type" := DStr("TTSModelNotReadyError")])
      && o.files == files
  {
  }
}
