/** Runs of `NativeRuntime` from `new`, proved from the method contracts:
    the behaviour its unit tests pin, and two states the transitions can
    reach that a reader might not expect. */
module RuntimeScenarios {
  import opened Wrappers
  import opened Text
  import opened Generation
  import opened Runtime

  /** A new runtime is Uninitialized with neither model loaded. */
  method NewRuntimeIsUninitialized(backendInit: bool) returns (status: RuntimeStatus, reasoning: bool, embedding: bool)
    ensures status == Uninitialized && !reasoning && !embedding
  {
    var rt := new NativeRuntime(backendInit);
    status := rt.Status();
    reasoning := rt.HasReasoningModel();
    embedding := rt.HasEmbeddingModel();
  }

  /** Loading a file that does not exist fails with "not found", and the
      runtime stays Uninitialized. */
  method LoadMissingFileFails(backendInit: bool, path: string, load: Result<Model, string>)
    returns (r: Result<(), string>, status: RuntimeStatus)
    ensures r.Err? && Contains(r.error, "not found")
    ensures status == Uninitialized
  {
    var rt := new NativeRuntime(backendInit);
    r := rt.LoadReasoningModel(path, false, load);
    ContainsInfix("Model file ", "not found", ": " + DebugPath(path));
    assert "Model file " + "not found" + (": " + DebugPath(path)) == r.error;
    status := rt.Status();
  }

  /** Generating on a new runtime fails with "not ready". */
  method GenerateWithoutModelFails(backendInit: bool, request: GenerateRequest, prefill: Prefill, sample: Sampler)
    returns (r: Result<GenerateResponse, string>)
    ensures r.Err? && Contains(r.error, "not ready")
  {
    var rt := new NativeRuntime(backendInit);
    r := rt.Generate(request, prefill, sample);
    NotReadySaysNotReady();
  }

  /** The "not ready" message says "not ready". */
  lemma NotReadySaysNotReady()
    ensures Contains(NOT_READY, "not ready")
  {
    ContainsInfix("Runtime ", "not ready", " — no model loaded");
    assert "Runtime " + "not ready" + " — no model loaded" == NOT_READY;
  }

  /** A failed reload keeps the model that was loaded before, but the
      Error status it leaves makes `generate` refuse to use it. */
  method FailedReloadKeepsModel(path1: string, path2: string, model: Model, failure: string,
                                request: GenerateRequest, prefill: Prefill, sample: Sampler)
    returns (kept: Option<string>, status: RuntimeStatus, r: Result<GenerateResponse, string>)
    ensures kept == Some(path1)
    ensures status == Error("Failed to load reasoning model: " + failure)
    ensures r == Err(NOT_READY)
  {
    var rt := new NativeRuntime(true);
    var ok := rt.LoadReasoningModel(path1, true, Ok(model));
    var failed := rt.LoadReasoningModel(path2, true, Err(failure));
    kept := rt.ReasoningModelPath();
    status := rt.Status();
    r := rt.Generate(request, prefill, sample);
  }

  /** Unloading the reasoning model while an embedding model is loaded
      leaves the runtime Ready without a reasoning model; `generate` then
      gets past the status check and reports the missing model. Unloading
      the embedding model afterwards leaves it Ready with nothing loaded. */
  method ReadyWithoutReasoningModel(reasoningPath: string, embeddingPath: string, m1: Model, m2: Model,
                                    request: GenerateRequest, prefill: Prefill, sample: Sampler)
    returns (r: Result<GenerateResponse, string>, finalStatus: RuntimeStatus, anyLoaded: bool)
    ensures r == Err(NO_REASONING_MODEL)
    ensures finalStatus == Ready && !anyLoaded
  {
    var rt := new NativeRuntime(true);
    var a := rt.LoadReasoningModel(reasoningPath, true, Ok(m1));
    var b := rt.LoadEmbeddingModel(embeddingPath, true, Ok(m2));
    rt.UnloadReasoningModel();
    r := rt.Generate(request, prefill, sample);
    rt.UnloadEmbeddingModel();
    finalStatus := rt.Status();
    anyLoaded := rt.HasReasoningModel() || rt.HasEmbeddingModel();
  }

  /** Without a backend every load fails and the status never moves. */
  method NoBackendNoProgress(path: string, load: Result<Model, string>)
    returns (r1: Result<(), string>, r2: Result<(), string>, status: RuntimeStatus)
    ensures r1 == Err(NO_BACKEND) && r2 == Err(NO_BACKEND)
    ensures status == Uninitialized
  {
    var rt := new NativeRuntime(false);
    r1 := rt.LoadReasoningModel(path, true, load);
    r2 := rt.LoadEmbeddingModel(path, true, load);
    status := rt.Status();
  }
}
