/** `NativeRuntime` (native_runtime.rs:80-409): the status and model slots
    of the in-process llama.cpp runtime. Every llama.cpp call (backend
    initialisation, model loading, context creation, tokenisation,
    sampling) is an oracle argument; the model keeps the order of the
    checks and the state each outcome leaves behind. */
module Runtime {
  import opened Wrappers
  import opened Text
  import opened Generation

  datatype RuntimeStatus = Uninitialized | Loading | Ready | Error(message: string)

  /** A model loaded by llama.cpp, identified by the handle the loader gave it. */
  datatype Model = Model(handle: nat)

  /** The fields of `GenerateRequest` that the modelled code reads
      (temperature only tunes the sampler, which is an oracle here). */
  datatype GenerateRequest = GenerateRequest(
    modelPath: string,
    prompt: string,
    systemPrompt: Option<string>,
    maxTokens: Option<nat>,
    stop: Option<seq<string>>)

  /** `GenerateResponse` without its wall-clock `duration_ms`. */
  datatype GenerateResponse = GenerateResponse(text: string, tokensGenerated: nat)

  /** How the steps between the guards and the token loop went: context
      creation, tokenisation, an empty token list, adding the prompt to the
      batch, decoding the prompt. */
  datatype Prefill =
    | Prefilled
    | ContextFailed(contextError: string)
    | TokenizeFailed(tokenizeError: string)
    | NoTokens
    | PromptBatchFailed(batchError: string)
    | PromptDecodeFailed(decodeError: string)

  function PrefillError(p: Prefill): string
    requires !p.Prefilled?
  {
    match p
    case ContextFailed(e) => "Failed to create context: " + e
    case TokenizeFailed(e) => "Tokenization failed: " + e
    case NoTokens => "Empty prompt after tokenization"
    case PromptBatchFailed(e) => "Batch add failed: " + e
    case PromptDecodeFailed(e) => "Prompt decode failed: " + e
  }

  const NO_BACKEND: string := "llama.cpp backend not initialized"
  const NOT_READY: string := "Runtime not ready — no model loaded"
  const NO_REASONING_MODEL: string := "No reasoning model loaded"
  const NO_EMBEDDING_MODEL: string := "No embedding model loaded"

  /** `{:?}` of a path: the path in double quotes (escaping of special
      characters inside it is not modelled). */
  function DebugPath(path: string): string {
    "\"" + path + "\""
  }

  /** `max_tokens.unwrap_or(512)`. */
  function MaxTokens(request: GenerateRequest): nat {
    request.maxTokens.GetOr(DEFAULT_MAX_TOKENS)
  }

  class NativeRuntime {
    var status: RuntimeStatus
    /** `backend.is_some()`: llama.cpp initialised at construction. */
    var backend: bool
    var reasoningModel: Option<Model>
    var reasoningModelPath: Option<string>
    var embeddingModel: Option<Model>
    var embeddingModelPath: Option<string>

    /** What holds between calls: `Loading` is never seen from outside,
        each model slot and its path are set together, and without a
        backend nothing ever leaves the initial state. */
    ghost predicate Valid()
      reads this
    {
      && status != Loading
      && (reasoningModel.Some? <==> reasoningModelPath.Some?)
      && (embeddingModel.Some? <==> embeddingModelPath.Some?)
      && (!backend ==> status == Uninitialized && reasoningModel.None? && embeddingModel.None?)
    }

    /** `new`: `backendInit` is whether `LlamaBackend::init` succeeded. */
    constructor (backendInit: bool)
      ensures Valid()
      ensures status == Uninitialized && backend == backendInit
      ensures reasoningModel.None? && reasoningModelPath.None?
      ensures embeddingModel.None? && embeddingModelPath.None?
    {
      status := Uninitialized;
      backend := backendInit;
      reasoningModel, reasoningModelPath := None, None;
      embeddingModel, embeddingModelPath := None, None;
    }

    /** `load_reasoning_model`: a missing file, then a missing backend, fail
        with the status untouched; only then does loading start. A load
        that succeeds fills the slot and makes the runtime Ready; one that
        fails records its message in the status, returns the same message
        and leaves the previous model where it was. */
    method LoadReasoningModel(path: string, fileExists: bool, load: Result<Model, string>)
      returns (r: Result<(), string>)
      requires Valid()
      modifies this
      ensures Valid()
      ensures !fileExists ==>
                r == Err("Model file not found: " + DebugPath(path)) && unchanged(this)
      ensures fileExists && !backend ==>
                r == Err(NO_BACKEND) && unchanged(this)
      ensures fileExists && backend && load.Ok? ==>
                && r == Ok(())
                && reasoningModel == Some(load.value) && reasoningModelPath == Some(path)
                && status == Ready
                && embeddingModel == old(embeddingModel) && embeddingModelPath == old(embeddingModelPath)
      ensures fileExists && backend && load.Err? ==>
                && r == Err("Failed to load reasoning model: " + load.error)
                && status == Error(r.error)
                && reasoningModel == old(reasoningModel) && reasoningModelPath == old(reasoningModelPath)
                && embeddingModel == old(embeddingModel) && embeddingModelPath == old(embeddingModelPath)
      ensures backend == old(backend)
    {
      if !fileExists {
        return Err("Model file not found: " + DebugPath(path));
      }
      if !backend {
        return Err(NO_BACKEND);
      }
      status := Loading;
      match load {
        case Ok(model) =>
          reasoningModel := Some(model);
          reasoningModelPath := Some(path);
          status := Ready;
          r := Ok(());
        case Err(e) =>
          var message := "Failed to load reasoning model: " + e;
          status := Error(message);
          r := Err(message);
      }
    }

    /** `load_embedding_model`: the same checks, but the status is never
        touched, whatever the outcome. */
    method LoadEmbeddingModel(path: string, fileExists: bool, load: Result<Model, string>)
      returns (r: Result<(), string>)
      requires Valid()
      modifies this
      ensures Valid()
      ensures !fileExists ==>
                r == Err("Embedding model file not found: " + DebugPath(path)) && unchanged(this)
      ensures fileExists && !backend ==>
                r == Err(NO_BACKEND) && unchanged(this)
      ensures fileExists && backend && load.Ok? ==>
                r == Ok(()) && embeddingModel == Some(load.value) && embeddingModelPath == Some(path)
      ensures fileExists && backend && load.Err? ==>
                && r == Err("Failed to load embedding model: " + load.error)
                && embeddingModel == old(embeddingModel) && embeddingModelPath == old(embeddingModelPath)
      ensures status == old(status) && backend == old(backend)
      ensures reasoningModel == old(reasoningModel) && reasoningModelPath == old(reasoningModelPath)
    {
      if !fileExists {
        return Err("Embedding model file not found: " + DebugPath(path));
      }
      if !backend {
        return Err(NO_BACKEND);
      }
      match load {
        case Ok(model) =>
          embeddingModel := Some(model);
          embeddingModelPath := Some(path);
          r := Ok(());
        case Err(e) =>
          r := Err("Failed to load embedding model: " + e);
      }
    }

    /** `unload_reasoning_model`: the slot is cleared; the runtime stays
        Ready only while an embedding model is loaded. */
    method UnloadReasoningModel()
      requires Valid()
      modifies this
      ensures Valid()
      ensures reasoningModel.None? && reasoningModelPath.None?
      ensures status == if embeddingModel.Some? then Ready else Uninitialized
      ensures backend == old(backend)
      ensures embeddingModel == old(embeddingModel) && embeddingModelPath == old(embeddingModelPath)
    {
      reasoningModel := None;
      reasoningModelPath := None;
      if embeddingModel.Some? {
        status := Ready;
      } else {
        status := Uninitialized;
      }
    }

    /** `unload_embedding_model`: the slot is cleared; the status is not
        touched, even when nothing is left loaded. */
    method UnloadEmbeddingModel()
      requires Valid()
      modifies this
      ensures Valid()
      ensures embeddingModel.None? && embeddingModelPath.None?
      ensures status == old(status) && backend == old(backend)
      ensures reasoningModel == old(reasoningModel) && reasoningModelPath == old(reasoningModelPath)
    {
      embeddingModel := None;
      embeddingModelPath := None;
    }

    function Status(): RuntimeStatus
      reads this
    {
      status
    }

    /** `has_reasoning_model`: exactly when a reasoning model path is set. */
    function HasReasoningModel(): (loaded: bool)
      reads this
      requires Valid()
      ensures loaded <==> reasoningModelPath.Some?
    {
      reasoningModel.Some?
    }

    /** `has_embedding_model`: exactly when an embedding model path is set. */
    function HasEmbeddingModel(): (loaded: bool)
      reads this
      requires Valid()
      ensures loaded <==> embeddingModelPath.Some?
    {
      embeddingModel.Some?
    }

    function ReasoningModelPath(): Option<string>
      reads this
    {
      reasoningModelPath
    }

    function EmbeddingModelPath(): Option<string>
      reads this
    {
      embeddingModelPath
    }

    /** `generate`: refused unless the status is Ready, then without a
        backend, then without a reasoning model; then the prompt steps;
        then the token loop, whose text and count are the response. */
    method Generate(request: GenerateRequest, prefill: Prefill, sample: Sampler)
      returns (r: Result<GenerateResponse, string>)
      ensures status != Ready ==> r == Err(NOT_READY)
      ensures status == Ready && !backend ==> r == Err(NO_BACKEND)
      ensures status == Ready && backend && reasoningModel.None? ==> r == Err(NO_REASONING_MODEL)
      ensures status == Ready && backend && reasoningModel.Some? && !prefill.Prefilled? ==>
                r == Err(PrefillError(prefill))
      ensures status == Ready && backend && reasoningModel.Some? && prefill.Prefilled? ==>
                match Generation.Generate(MaxTokens(request), request.stop, sample)
                case Ok((text, count)) => r == Ok(GenerateResponse(text, count))
                case Err(e) => r == Err(e)
      // the loop's own promise, carried to the response
      ensures r.Ok? ==>
                && r.value.tokensGenerated <= MaxTokens(request)
                && Explains(MaxTokens(request), request.stop, sample, 0, "", r.value.text, r.value.tokensGenerated)
    {
      if status != Ready {
        return Err(NOT_READY);
      }
      if !backend {
        return Err(NO_BACKEND);
      }
      if reasoningModel.None? {
        return Err(NO_REASONING_MODEL);
      }
      if !prefill.Prefilled? {
        return Err(PrefillError(prefill));
      }
      var outcome := GenerateLoop(MaxTokens(request), request.stop, sample);
      match outcome {
        case Ok((text, count)) =>
          GenerationOutcome(MaxTokens(request), request.stop, sample, text, count);
          r := Ok(GenerateResponse(text, count));
        case Err(e) => r := Err(e);
      }
    }

    /** The checks at the top of `embed`: an embedding model, then a backend. */
    function EmbedGuard(): (r: Result<(), string>)
      reads this
      ensures r.Ok? <==> embeddingModel.Some? && backend
      ensures embeddingModel.None? ==> r == Err(NO_EMBEDDING_MODEL)
      ensures embeddingModel.Some? && !backend ==> r == Err(NO_BACKEND)
    {
      if embeddingModel.None? then Err(NO_EMBEDDING_MODEL)
      else if !backend then Err(NO_BACKEND)
      else Ok(())
    }
  }
}
