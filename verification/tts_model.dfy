/**
  The speech-engine lifecycle manager: one process-wide manager holding the
  loaded engine (`pipeline`), a loading flag and the error of a failed
  load. `GetPipeline` serves the loaded engine, refuses when lazy loading
  is off or an earlier load failed, and otherwise loads the engine once.

  Calls are modelled one at a time, so the engine load is one atomic step
  whose outcome is an input. `GetPipelineStep` is the specification of one
  `GetPipeline` call on the manager's state; `Run` strings calls together
  so that properties across calls (a failure is permanent, a loaded engine
  is kept, at most one load) can be stated and proved.
 */
module TtsModel {
  import opened Wrappers
  import opened Exceptions
  import opened Externals

  /** The manager's observable state: the loaded engine and the recorded
      initialization error. */
  datatype ManagerState = ManagerState(pipeline: Option<Pipeline>, initializationError: Option<AppError>)

  const Unloaded := ManagerState(None, None)

  /** One `GetPipeline` call: the state after it, what it returned or
      raised, and whether it ran the engine's constructor. */
  datatype Step = Step(next: ManagerState, result: Result<Pipeline, AppError>, loaded: bool)

  /** Building the engine: a failure of the constructor is re-raised as a
      generation error naming the original exception's class. */
  function LoadPipelineSync(load: LoadOutcome): (r: Result<Pipeline, AppError>)
    ensures r.Ok? <==> load.Loaded?
    ensures load.Loaded? ==> r.value == load.pipeline
    ensures r.Err? ==> r.error.kind == TTSGeneration && r.error.statusCode == 500
    ensures r.Err? ==> r.error.details == map["error_type" := DStr(load.error.typeName)]
    ensures r.Err? ==> r.error.message == "Failed to initialize TTS model: " + load.error.text
  {
    match load
    case Loaded(p) => Ok(p)
    case LoadFailed(e) =>
      Err(TTSGenerationError(Some("Failed to initialize TTS model: " + e.text),
                             Some(map["error_type" := DStr(e.typeName)])))
  }

  /** Raised when nothing is loaded and lazy loading is off. */
  function LazyLoadDisabled(): (e: AppError)
    ensures e.kind == TTSModelNotReady && e.statusCode == 503
    ensures e.message == "TTS model not initialized and lazy loading is disabled"
    ensures |e.details| == 0
  {
    TTSModelNotReadyError(Some("TTS model not initialized and lazy loading is disabled"), None)
  }

  /** Raised on every call after a failed load. */
  function EarlierFailure(e: AppError): (r: AppError)
    ensures r.kind == TTSModelNotReady && r.statusCode == 503
    ensures r.message == "TTS model initialization failed: " + e.message
    ensures r.details == map["error_type" := DStr(ClassName(e.kind))]
  {
    TTSModelNotReadyError(Some("TTS model initialization failed: " + e.message),
                          Some(map["error_type" := DStr(ClassName(e.kind))]))
  }

  /** Specification of one `GetPipeline` call, checks in the source's order. */
  function GetPipelineStep(s: ManagerState, lazyLoad: bool, load: LoadOutcome): (t: Step)
    ensures t.loaded ==> lazyLoad && s.pipeline.None? && s.initializationError.None?
    ensures s.initializationError.Some? ==> t.next.initializationError == s.initializationError
    ensures s.pipeline.Some? ==> t.next.pipeline == s.pipeline
  {
    if s.pipeline.Some? then Step(s, Ok(s.pipeline.value), false)
    else if !lazyLoad then Step(s, Err(LazyLoadDisabled()), false)
    else if s.initializationError.Some? then Step(s, Err(EarlierFailure(s.initializationError.value)), false)
    else
      match LoadPipelineSync(load)
      case Ok(p) => Step(ManagerState(Some(p), None), Ok(p), true)
      case Err(e) => Step(ManagerState(None, Some(e)), Err(e), true)
  }

  /** `cleanup`: drop the engine, keep the recorded error. */
  function Released(s: ManagerState): (r: ManagerState)
    ensures r.pipeline.None? && r.initializationError == s.initializationError
  {
    ManagerState(None, s.initializationError)
  }

  /** A loaded engine is returned as is: no load, whatever the lazy-load
      setting or a recorded error. */
  lemma ServesLoadedPipeline(s: ManagerState, lazyLoad: bool, load: LoadOutcome)
    requires s.pipeline.Some?
    ensures GetPipelineStep(s, lazyLoad, load) == Step(s, Ok(s.pipeline.value), false)
  {
  }

  /** With nothing loaded and lazy loading off the call raises "not ready",
      loads nothing and changes nothing. */
  lemma LazyLoadOffRefuses(s: ManagerState, load: LoadOutcome)
    requires s.pipeline.None?
    ensures GetPipelineStep(s, false, load) == Step(s, Err(LazyLoadDisabled()), false)
    ensures LazyLoadDisabled().kind == TTSModelNotReady && LazyLoadDisabled().statusCode == 503
  {
  }

  /** After a failed load, a call raises "not ready" naming the earlier
      error's class, and does not load again. */
  lemma EarlierFailureRefuses(s: ManagerState, load: LoadOutcome)
    requires s.pipeline.None? && s.initializationError.Some?
    ensures var t := GetPipelineStep(s, true, load);
      && t == Step(s, Err(EarlierFailure(s.initializationError.value)), false)
      && t.result.error.kind == TTSModelNotReady
      && t.result.error.details == map["error_type" := DStr(ClassName(s.initializationError.value.kind))]
  {
  }

  /** The call whose load fails raises the loader's own generation error
      (not "not ready") and records it. */
  lemma FailingLoadPropagates(load: LoadOutcome)
    requires load.LoadFailed?
    ensures var t := GetPipelineStep(Unloaded, true, load);
      && t.loaded && t.result.Err?
      && t.result.error.kind == TTSGeneration
      && t.result.error.details == map["error_type" := DStr(load.error.typeName)]
      && t.next == ManagerState(None, Some(t.result.error))
  {
  }

  /** A successful load returns the new engine and keeps it. */
  lemma SuccessfulLoadKeepsPipeline(load: LoadOutcome)
    requires load.Loaded?
    ensures GetPipelineStep(Unloaded, true, load) == Step(ManagerState(Some(load.pipeline), None), Ok(load.pipeline), true)
  {
  }

  /** The probe and the accessor agree: the manager reports itself
      initialized exactly when a call would be served without loading. */
  lemma InitializedIffServedWithoutLoad(s: ManagerState, lazyLoad: bool, load: LoadOutcome)
    ensures s.pipeline.Some? <==> (GetPipelineStep(s, lazyLoad, load).result.Ok? && !GetPipelineStep(s, lazyLoad, load).loaded)
  {
  }

  /** The calls a client can make on the manager, and what each gives back. */
  datatype Call = GetPipelineCall(lazyLoad: bool, load: LoadOutcome) | CleanupCall | IsInitializedCall
  datatype Reply = Served(result: Result<Pipeline, AppError>) | CleanedUp | Probed(initialized: bool)

  /** The effect of one call: the next state, the reply and how many loads
      it performed. */
  datatype Effect = Effect(next: ManagerState, reply: Reply, loads: nat)

  function Apply(s: ManagerState, c: Call): Effect
  {
    match c
    case GetPipelineCall(lazyLoad, load) =>
      var t := GetPipelineStep(s, lazyLoad, load);
      Effect(t.next, Served(t.result), if t.loaded then 1 else 0)
    case CleanupCall => Effect(Released(s), CleanedUp, 0)
    case IsInitializedCall => Effect(s, Probed(s.pipeline.Some?), 0)
  }

  /** The outcome of a series of calls: final state, replies in order and
      the number of engine loads. */
  datatype Trace = Trace(final: ManagerState, replies: seq<Reply>, loads: nat)

  function Run(s: ManagerState, calls: seq<Call>): (tr: Trace)
    ensures |tr.replies| == |calls|
    decreases |calls|
  {
    if |calls| == 0 then Trace(s, [], 0)
    else
      var e := Apply(s, calls[0]);
      var rest := Run(e.next, calls[1..]);
      Trace(rest.final, [e.reply] + rest.replies, e.loads + rest.loads)
  }

  /** Failure is permanent: once a load has failed and nothing is loaded,
      no later call of any kind loads again, every request for the engine
      raises "not ready", and the probe always answers false. */
  lemma {:induction false} StickyFailure(s: ManagerState, calls: seq<Call>)
    requires s.pipeline.None? && s.initializationError.Some?
    ensures Run(s, calls).loads == 0 && Run(s, calls).final == s
    ensures forall i :: 0 <= i < |calls| && Run(s, calls).replies[i].Served? ==>
              Run(s, calls).replies[i].result.Err? && Run(s, calls).replies[i].result.error.kind == TTSModelNotReady
    ensures forall i :: 0 <= i < |calls| && Run(s, calls).replies[i].Probed? ==> !Run(s, calls).replies[i].initialized
    decreases |calls|
  {
    if |calls| > 0 {
      var e := Apply(s, calls[0]);
      assert e.next == s && e.loads == 0;
      StickyFailure(s, calls[1..]);
      var tr, rest := Run(s, calls), Run(s, calls[1..]);
      forall i | 1 <= i < |calls|
        ensures tr.replies[i] == rest.replies[i - 1]
      {
      }
    }
  }

  /** A loaded engine stays: until the manager is cleaned up, every request
      returns that same engine, nothing is loaded and the probe answers
      true. */
  lemma {:induction false} SameHandleUntilCleanup(s: ManagerState, calls: seq<Call>)
    requires s.pipeline.Some?
    requires forall i :: 0 <= i < |calls| ==> !calls[i].CleanupCall?
    ensures Run(s, calls).loads == 0 && Run(s, calls).final == s
    ensures forall i :: 0 <= i < |calls| && Run(s, calls).replies[i].Served? ==>
              Run(s, calls).replies[i].result == Ok(s.pipeline.value)
    ensures forall i :: 0 <= i < |calls| && Run(s, calls).replies[i].Probed? ==> Run(s, calls).replies[i].initialized
    decreases |calls|
  {
    if |calls| > 0 {
      SameHandleUntilCleanup(s, calls[1..]);
      var tr, rest := Run(s, calls), Run(s, calls[1..]);
      forall i | 1 <= i < |calls|
        ensures tr.replies[i] == rest.replies[i - 1]
      {
      }
    }
  }

  /** The sequential form of "the engine is loaded once": without a cleanup
      in between, a series of calls loads the engine at most once, and not
      at all when it is already loaded or an earlier load failed. */
  lemma {:induction false} AtMostOneLoad(s: ManagerState, calls: seq<Call>)
    requires forall i :: 0 <= i < |calls| ==> !calls[i].CleanupCall?
    ensures Run(s, calls).loads <= 1
    ensures s.pipeline.Some? || s.initializationError.Some? ==> Run(s, calls).loads == 0
    decreases |calls|
  {
    if |calls| > 0 {
      var e := Apply(s, calls[0]);
      if s.pipeline.Some? {
        SameHandleUntilCleanup(s, calls);
      } else if s.initializationError.Some? {
        StickyFailure(s, calls);
      } else {
        if e.loads == 1 {
          assert e.next.pipeline.Some? || e.next.initializationError.Some?;
        }
        AtMostOneLoad(e.next, calls[1..]);
      }
    }
  }

  /** The manager object. */
  class TTSModelManager {
    var pipeline: Option<Pipeline>
    var isLoading: bool
    var initializationError: Option<AppError>
    /** How many times the engine's constructor has run. */
    ghost var loadCount: nat

    /** Outside a call nobody is loading. */
    ghost predicate Valid()
      reads this
    {
      !isLoading
    }

    function State(): ManagerState
      reads this
    {
      ManagerState(pipeline, initializationError)
    }

    constructor()
      ensures Valid() && State() == Unloaded && loadCount == 0
    {
      pipeline := None;
      isLoading := false;
      initializationError := None;
      loadCount := 0;
    }

    method GetPipeline(lazyLoad: bool, load: LoadOutcome) returns (r: Result<Pipeline, AppError>)
      requires Valid()
      modifies this
      ensures Valid()
      ensures State() == GetPipelineStep(old(State()), lazyLoad, load).next
      ensures r == GetPipelineStep(old(State()), lazyLoad, load).result
      ensures loadCount == old(loadCount) + if GetPipelineStep(old(State()), lazyLoad, load).loaded then 1 else 0
    {
      if pipeline.Some? {
        return Ok(pipeline.value);
      }
      if !lazyLoad {
        return Err(LazyLoadDisabled());
      }
      if initializationError.Some? {
        return Err(EarlierFailure(initializationError.value));
      }
      isLoading := true;
      loadCount := loadCount + 1;
      var outcome := LoadPipelineSync(load);
      if outcome.Ok? {
        pipeline := Some(outcome.value);
        r := Ok(outcome.value);
      } else {
        initializationError := Some(outcome.error);
        r := Err(outcome.error);
      }
      isLoading := false;
    }

    method Cleanup()
      requires Valid()
      modifies this
      ensures Valid() && State() == Released(old(State())) && loadCount == old(loadCount)
    {
      if pipeline.Some? {
        pipeline := None;
      }
    }

    function IsInitialized(): (initialized: bool)
      reads this
      ensures initialized <==> State().pipeline.Some?
    {
      pipeline.Some?
    }
  }

  /** The class-level slot holding the single manager instance. */
  class ManagerRegistry {
    var instance: TTSModelManager?

    constructor()
      ensures instance == null
    {
      instance := null;
    }

    ghost predicate Valid()
      reads this, instance
    {
      instance != null ==> instance.Valid()
    }

    /** The manager's state; an absent manager is as good as unloaded. */
    function Current(): ManagerState
      reads this, instance
    {
      if instance == null then Unloaded else instance.State()
    }

    ghost function Loads(): nat
      reads this, instance
    {
      if instance == null then 0 else instance.loadCount
    }

    /** `get_instance`: create the manager on first use, then always return
        that same one. */
    method GetInstance() returns (m: TTSModelManager)
      requires Valid()
      modifies this
      ensures Valid() && instance == m
      ensures old(instance) != null ==> m == old(instance)
      ensures old(instance) == null ==> fresh(m)
      ensures Current() == old(Current()) && Loads() == old(Loads())
    {
      if instance == null {
        instance := new TTSModelManager();
      }
      m := instance;
    }

    /** `is_tts_model_ready`: never creates a manager and never loads. */
    function IsTtsModelReady(): (ready: bool)
      reads this, instance
      ensures ready <==> Current().pipeline.Some?
      ensures instance == null ==> !ready
    {
      if instance == null then false else instance.IsInitialized()
    }
  }

  /** `get_tts_pipeline`: the singleton's `GetPipeline`. */
  method GetTtsPipeline(registry: ManagerRegistry, lazyLoad: bool, load: LoadOutcome) returns (r: Result<Pipeline, AppError>)
    requires registry.Valid()
    modifies registry, registry.instance
    ensures registry.Valid() && registry.instance != null
    ensures old(registry.instance) != null ==> registry.instance == old(registry.instance)
    ensures old(registry.instance) == null ==> fresh(registry.instance)
    ensures var t := GetPipelineStep(old(registry.Current()), lazyLoad, load);
      && registry.Current() == t.next && r == t.result
      && registry.Loads() == old(registry.Loads()) + if t.loaded then 1 else 0
  {
    var manager := registry.GetInstance();
    r := manager.GetPipeline(lazyLoad, load);
  }

  /** `warmup_tts_model`: load ahead of the first request; raises what the
      accessor raises. */
  method WarmupTtsModel(registry: ManagerRegistry, lazyLoad: bool, load: LoadOutcome) returns (r: Result<(), AppError>)
    requires registry.Valid()
    modifies registry, registry.instance
    ensures registry.Valid() && registry.instance != null
    ensures old(registry.instance) != null ==> registry.instance == old(registry.instance)
    ensures old(registry.instance) == null ==> fresh(registry.instance)
    ensures var t := GetPipelineStep(old(registry.Current()), lazyLoad, load);
      && registry.Current() == t.next
      && (r.Ok? <==> t.result.Ok?)
      && (r.Err? ==> r.error == t.result.error)
      && registry.Loads() == old(registry.Loads()) + if t.loaded then 1 else 0
  {
    var p := GetTtsPipeline(registry, lazyLoad, load);
    r := if p.Ok? then Ok(()) else Err(p.error);
  }

  /** `cleanup_tts_model`: the singleton's `Cleanup`. */
  method CleanupTtsModel(registry: ManagerRegistry)
    requires registry.Valid()
    modifies registry, registry.instance
    ensures registry.Valid() && registry.instance != null
    ensures old(registry.instance) != null ==> registry.instance == old(registry.instance)
    ensures old(registry.instance) == null ==> fresh(registry.instance)
    ensures registry.Current() == Released(old(registry.Current()))
    ensures registry.Loads() == old(registry.Loads())
  {
    var manager := registry.GetInstance();
    manager.Cleanup();
  }
}
