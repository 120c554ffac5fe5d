# Semblance desktop core, modelled in Dafny

This project models three parts of the Semblance desktop host (the Tauri
application in `packages/desktop/src-tauri`). It proves properties of each.

- **The sidecar bridge** (`lib.rs`) connects the desktop host to its Node.js
  sidecar. The host writes newline-delimited JSON requests `{id, method,
  params}` to the sidecar's stdin. A background task reads stdout line by
  line. Each line is either an event, forwarded to the frontend under
  `semblance://<name>`, or a response, which completes the call waiting
  under its id. The model covers:
  - the correlation table and the id counter;
  - `call` and `call_fire` with their write errors and their deadlines;
  - the stdout dispatch loop and the disconnect notification;
  - the two phases of `shutdown`;
  - `find_project_root`.
- **The native runtime** (`native_runtime.rs`) is the in-process llama.cpp
  runtime. The model covers:
  - its status and its two model slots (reasoning and embedding);
  - loading and unloading each model;
  - the guards of `generate` and `embed`;
  - the token loop of `generate`: end-of-generation, the token budget,
    decoding errors and stop-sequence truncation.
- **Hardware classification** (`hardware.rs`) covers `classify_tier` and the
  VRAM estimate reported for Apple Silicon.

Module layout, one file each:

| file | module | contents |
|---|---|---|
| `wrappers.dfy` | `Wrappers` | `Option` and `Result` |
| `text.dfy` | `Text` | substring and suffix predicates (`contains`, `ends_with`) |
| `json.dfy` | `Json` | the JSON value, `get`, `as_u64`, and compact serialisation with serde_json's escape table |
| `framing.dfy` | `Framing` | newline framing on the pipes, and tokio's `next_line` splitting |
| `protocol.dfy` | `Protocol` | request, response and event shapes; the per-line dispatch decision |
| `sidecar_bridge.dfy` | `Bridge` | class `SidecarBridge`: the table, calls, dispatch and shutdown as events on one object |
| `bridge_scenarios.dfy` | `BridgeScenarios` | concrete sequences of bridge events and their proved outcomes |
| `project_root.dfy` | `ProjectRoot` | `find_project_root` as a loop over ancestors |
| `generation.dfy` | `Generation` | the token loop as a method, its reference function, and what it promises |
| `native_runtime.dfy` | `Runtime` | class `NativeRuntime` |
| `runtime_scenarios.dfy` | `RuntimeScenarios` | the runtime's unit tests, and further sequences of calls |
| `hardware.dfy` | `Hardware` | `classify_tier` and the Apple Silicon estimate |

The model replaces the source's concurrency and I/O as follows:

- **The bridge's async tasks, mutexes, oneshot channels and timers** are
  replaced by methods. Each method is one event that a sequential environment
  may fire whenever its precondition holds:
  - `BeginCall`: an id is taken and registered;
  - `WriteOk`, `WriteAllFail` or `FlushFail`: the request line is written, or
    `write_all` or `flush` fails;
  - `DispatchLine`: one stdout line is handled;
  - `Receive` or `Timeout`: the call gets its answer, or its deadline passes;
  - `StreamClosed`: stdout ends;
  - `BeginShutdown` and `FinishShutdown`: the two phases of `shutdown`.

  A call in flight is an entry of `callers`. An answer already sent into a
  call's channel is an entry of `slots`. The invariant `Valid()` says that a
  call in flight is answered either by its table entry or by its slot, never
  both. It also says that stdin holds exactly the frames of the requests
  written so far, unless a write failed after part of its line had gone out.
- **Oracles.** Parsing (`serde_json::from_str`), the filesystem, llama.cpp
  (backend start, model loading, the prompt steps, sampling and decoding) and
  the platform probe are not modelled. Each becomes an oracle parameter:
  - the parse outcome is an `Option<Value>`;
  - the filesystem is a `Manifests` function from directory to manifest text;
  - load outcomes are `Result` values;
  - the token loop takes a `Sampler` function from iteration number to the
    token sampled there.

Two paths leave a table entry that no call will remove:

- in `call` and `call_fire`, a failed `write_all` or `flush` returns through
  `?` (lib.rs:279, lib.rs:283), and the entry inserted a few lines earlier
  stays;
- `shutdown` (lib.rs:349-359) bounds its `call("shutdown")` by 5 seconds.
  When that bound fires, the inner call is dropped before its own 120-second
  deadline could remove the entry.

`SidecarBridge.Orphans()` is the set of such entries. Every event method
states how it changes that set. Only `WriteAllFail`, `FlushFail` and
`FinishShutdown` add to it. Only a response carrying the orphan's id
(`DispatchLine`) removes it. The scenarios `WriteFailureOrphansEntry` and
`UnansweredShutdown` show one path each.

## Model

The runtime's accessors `status`, `reasoning_model_path` and
`embedding_model_path` (native_runtime.rs:386-408) are plain field reads.
They are modelled as `Status`, `ReasoningModelPath` and `EmbeddingModelPath`
without contracts of their own, and have no rows below.

| member | source | states |
|---|---|---|
| Json.Value.Get | packages/desktop/src-tauri/src/lib.rs:211-223 | a member found under `key` is one of the object's members; a non-object or a missing key gives None |
| Json.Lookup | packages/desktop/src-tauri/src/lib.rs:210-211 | the value found is the last member with that key (a repeated key keeps its last value); None exactly when no member has the key |
| Json.Serialize | packages/desktop/src-tauri/src/lib.rs:273 | the serialised text is non-empty and holds no control character, so no raw newline can split a frame |
| Json.EscapeChar | packages/desktop/src-tauri/src/lib.rs:273 | an escape contains no control character, and a plain character other than `"` and `\` is written as itself |
| Framing.FrameLine | packages/desktop/src-tauri/src/lib.rs:273 | the line written for a message ends in `'\n'` and holds no other `'\n'` |
| Framing.FindNewline | packages/desktop/src-tauri/src/lib.rs:207-209 | the index found holds the first `'\n'`; None exactly when there is no `'\n'` |
| Framing.LinesOfFrames | packages/desktop/src-tauri/src/lib.rs:207-209 | reading the frames of any sequence of messages line by line gives back each message's text, in order and one per line |
| Protocol.RequestLine | packages/desktop/src-tauri/src/lib.rs:266-273 | the stdin line of a call ends in its only newline, and reading it line by line gives back exactly the serialised `{id, method, params}` object |
| Protocol.RequestRoundTrip | packages/desktop/src-tauri/src/lib.rs:266-270 | looking up `id`, `method` and `params` in the request object gives back exactly the values the call was made with |
| Protocol.Classify | packages/desktop/src-tauri/src/lib.rs:210-228 | a line with a string `"event"` is that event with its `"data"` (null when absent); otherwise a line whose `"id"` is a u64 is a response to that id with the outcome of its `"error"`/`"result"` members; any other line is ignored |
| Protocol.ResponseOutcome | packages/desktop/src-tauri/src/lib.rs:220-225 | a response fails exactly when its `"error"` member is a string, and then with that string; otherwise it succeeds with its `"result"`, or null when there is none |
| Protocol.ClassifyEventMessage | packages/desktop/src-tauri/src/lib.rs:211-215 | an `{event, data}` line is read as that event with that payload |
| Protocol.ClassifyResultMessage | packages/desktop/src-tauri/src/lib.rs:216-225 | an `{id, result}` line resolves call `id` with `Ok(result)` |
| Protocol.ClassifyErrorMessage | packages/desktop/src-tauri/src/lib.rs:216-222 | an `{id, error}` line with a string error resolves call `id` with that error |
| Protocol.EventWinsOverId | packages/desktop/src-tauri/src/lib.rs:211-216 | a line with a string `"event"` is an event whatever `"id"` it carries, and never resolves a call |
| Protocol.NonStringEventFallsThrough | packages/desktop/src-tauri/src/lib.rs:211-216 | a non-string `"event"` is ignored and the line is read by its `"id"` |
| Protocol.NonStringErrorSucceeds | packages/desktop/src-tauri/src/lib.rs:220-225 | a non-string `"error"` does not fail the call: `{id, error}` succeeds with null and `{id, error, result}` succeeds with that result |
| Protocol.NonU64IdIgnored | packages/desktop/src-tauri/src/lib.rs:211-216 | a line without a string `"event"` whose `"id"` is missing, negative, too large or not a number is a no-op |
| Bridge.Deadline | packages/desktop/src-tauri/src/lib.rs:287-337 | both call deadlines (120 s, 10 s) exceed the 5 s shutdown bound, so `Timeout` can never fire for the stop call of `shutdown` |
| Bridge.SidecarBridge.constructor | packages/desktop/src-tauri/src/lib.rs:193-201 | a new bridge has the counter at 1, an empty table, nothing written, no events, and the reader running |
| Bridge.SidecarBridge.BeginCall | packages/desktop/src-tauri/src/lib.rs:252-264 | the id taken is the counter's value, the counter moves past it, and the id is fresh in the table, the callers and the slots |
| Bridge.SidecarBridge.WriteOk | packages/desktop/src-tauri/src/lib.rs:266-284 | stdin grows by exactly the request line and stays the concatenation of all frames written; the call starts waiting |
| Bridge.SidecarBridge.WriteAllFail | packages/desktop/src-tauri/src/lib.rs:274-279 | the call returns the write error; the bytes already written stay on stdin as a prefix of the line; the table entry stays, and becomes an orphan, unless an answer had already arrived |
| Bridge.SidecarBridge.FlushFail | packages/desktop/src-tauri/src/lib.rs:280-283 | the whole request line is on stdin and the call returns the flush error; the table entry stays, and becomes an orphan, unless an answer had already arrived |
| Bridge.SidecarBridge.Receive | packages/desktop/src-tauri/src/lib.rs:287-289 | the call returns exactly the outcome the dispatcher sent it; the table is not touched |
| Bridge.SidecarBridge.Timeout | packages/desktop/src-tauri/src/lib.rs:287-296 | with no answer before the deadline, the call removes its own entry and no other, returns its mode's timeout message, and leaves the orphans as they were |
| Bridge.SidecarBridge.DispatchLine | packages/desktop/src-tauri/src/lib.rs:209-228 | an unparsable or unusable line changes nothing; an event is appended under `semblance://<name>`; a response removes its id's entry, delivers its outcome only to a call still in flight, and is the only way an orphan leaves the table |
| Bridge.SidecarBridge.StreamClosed | packages/desktop/src-tauri/src/lib.rs:231-235 | when stdout ends, exactly one disconnected status update is emitted and reading stops |
| Bridge.SidecarBridge.BeginShutdown | packages/desktop/src-tauri/src/lib.rs:349-354 | shutdown starts an ordinary call of `"shutdown"` with null params |
| Bridge.SidecarBridge.FinishShutdown | packages/desktop/src-tauri/src/lib.rs:349-360 | the child is killed whatever the stop call's outcome; an unanswered stop call's entry is left in the table as a new orphan |
| BridgeScenarios.ResultReachesCaller | packages/desktop/src-tauri/src/lib.rs:251-297 | a call answered with `{id, result}` returns that result and leaves the table empty |
| BridgeScenarios.ErrorReachesCaller | packages/desktop/src-tauri/src/lib.rs:220-221 | a call answered with a string error fails with exactly that error |
| BridgeScenarios.AnswersOutOfOrder | packages/desktop/src-tauri/src/lib.rs:216-226 | two calls answered in reverse order each receive their own answer |
| BridgeScenarios.EventWithoutCalls | packages/desktop/src-tauri/src/lib.rs:211-215 | an event line is emitted once, under the prefixed name, with its payload |
| BridgeScenarios.EventLeavesPendingCalls | packages/desktop/src-tauri/src/lib.rs:211-216 | an event line that also carries the id of a pending call leaves both table entries pending and answers nobody |
| BridgeScenarios.LateAnswerDropped | packages/desktop/src-tauri/src/lib.rs:290-294 | a call that timed out returns the 120 s message; its late answer is discarded and the table ends empty |
| BridgeScenarios.UnknownIdDropped | packages/desktop/src-tauri/src/lib.rs:216-219 | a response to an id nobody waits for changes neither the table nor any call |
| BridgeScenarios.IdsIncrease | packages/desktop/src-tauri/src/lib.rs:252-257 | `call` and `call_fire` share one counter: successive calls get ids 1, 2, 3 |
| BridgeScenarios.WriteFailureOrphansEntry | packages/desktop/src-tauri/src/lib.rs:260-279 | a failed write returns the write error and leaves its id orphaned in the table |
| BridgeScenarios.UnansweredShutdown | packages/desktop/src-tauri/src/lib.rs:349-360 | a shutdown the sidecar never answers still kills the child, and leaves the stop call's id orphaned |
| BridgeScenarios.DisconnectAfterEvent | packages/desktop/src-tauri/src/lib.rs:209-235 | the frontend sees the event, then exactly one disconnected status update |
| ProjectRoot.Ancestor | packages/desktop/src-tauri/src/lib.rs:1426 | the k-th ancestor keeps the path's kind and is its prefix with k fewer components |
| ProjectRoot.FindProjectRoot | packages/desktop/src-tauri/src/lib.rs:1415-1431 | a root found is the NEAREST of at most ten directories on the way up whose manifest mentions `"workspaces"`; None means none of those directories qualifies |
| Generation.FirstStop | packages/desktop/src-tauri/src/native_runtime.rs:272-273 | the stop found is the first in list order that the output ends with; None exactly when the output ends with none of them |
| Generation.GenerateLoop | packages/desktop/src-tauri/src/native_runtime.rs:250-287 | the loop's text and token count, or its error, are those of the reference definition `Generate` |
| Generation.RunExplained | packages/desktop/src-tauri/src/native_runtime.rs:255-287 | from any iteration, a successful run only adds counted tokens, and is explained by them: no earlier piece completed a stop sequence, and the text is their pieces uncut or cut at the first stop the last piece completed |
| Generation.GenerationOutcome | packages/desktop/src-tauri/src/native_runtime.rs:250-287 | on success `tokens_generated` is at most `max_tokens`; and `generate`'s loop returns a text and count exactly when those tokens explain it, so the stop rule is both necessary and sufficient |
| Generation.ExplainedRun | packages/desktop/src-tauri/src/native_runtime.rs:255-287 | from any iteration, every explanation of a text and count is what the run returns |
| Generation.EndOfGenerationAt | packages/desktop/src-tauri/src/native_runtime.rs:258-262 | an end-of-generation token at iteration k, after k pieces that decoded, were fed back and met no stop, is neither appended nor counted: the loop returns those k pieces and count k |
| Generation.EmptyStopEndsAfterFirstPiece | packages/desktop/src-tauri/src/native_runtime.rs:271-276 | an empty stop sequence first in the list ends generation after the first piece, with nothing cut |
| Runtime.NativeRuntime.constructor | packages/desktop/src-tauri/src/native_runtime.rs:90-112 | a new runtime is Uninitialized with both slots empty, whether or not the backend started |
| Runtime.NativeRuntime.LoadReasoningModel | packages/desktop/src-tauri/src/native_runtime.rs:116-149 | a missing file, then a missing backend, fail with nothing changed; success fills the slot and makes the runtime Ready; a failed load sets Error with the returned message and keeps the previous model |
| Runtime.NativeRuntime.LoadEmbeddingModel | packages/desktop/src-tauri/src/native_runtime.rs:154-182 | the same checks as the reasoning load, but the status is never touched |
| Runtime.NativeRuntime.UnloadReasoningModel | packages/desktop/src-tauri/src/native_runtime.rs:369-377 | the slot is emptied; the runtime stays Ready only while an embedding model is loaded |
| Runtime.NativeRuntime.UnloadEmbeddingModel | packages/desktop/src-tauri/src/native_runtime.rs:380-383 | the slot is emptied and the status is left as it was |
| Runtime.NativeRuntime.HasReasoningModel | packages/desktop/src-tauri/src/native_runtime.rs:391-393 | a reasoning model is loaded exactly when its path is recorded |
| Runtime.NativeRuntime.HasEmbeddingModel | packages/desktop/src-tauri/src/native_runtime.rs:396-398 | an embedding model is loaded exactly when its path is recorded |
| Runtime.NativeRuntime.Generate | packages/desktop/src-tauri/src/native_runtime.rs:186-296 | refused unless Ready, then without a backend, then without a reasoning model, then on a failed prompt step; otherwise the response is the token loop's text and count, the count is at most `max_tokens` (512 when absent), and the loop's tokens explain the text |
| Runtime.NativeRuntime.EmbedGuard | packages/desktop/src-tauri/src/native_runtime.rs:300-308 | `embed` proceeds exactly when an embedding model and a backend are present, and checks the model first |
| RuntimeScenarios.NewRuntimeIsUninitialized | packages/desktop/src-tauri/src/native_runtime.rs:424-427 | a new runtime reports Uninitialized and no models |
| RuntimeScenarios.LoadMissingFileFails | packages/desktop/src-tauri/src/native_runtime.rs:432-437 | loading a nonexistent file fails with a message containing "not found", and the status stays Uninitialized |
| RuntimeScenarios.GenerateWithoutModelFails | packages/desktop/src-tauri/src/native_runtime.rs:440-452 | generating on a new runtime fails with a message containing "not ready" |
| RuntimeScenarios.FailedReloadKeepsModel | packages/desktop/src-tauri/src/native_runtime.rs:144-148 | after a failed reload the old model's path is still reported, the status is Error, and `generate` is refused |
| RuntimeScenarios.ReadyWithoutReasoningModel | packages/desktop/src-tauri/src/native_runtime.rs:369-377 | after the reasoning model is unloaded while an embedding model stays, the runtime is Ready but `generate` fails with "No reasoning model loaded" |
| RuntimeScenarios.NoBackendNoProgress | packages/desktop/src-tauri/src/native_runtime.rs:121-124 | without a backend both loads fail with the backend error and the status stays Uninitialized |
| Hardware.ClassifyTier | packages/desktop/src-tauri/src/hardware.rs:75-92 | the tier is one of the four names; workstation exactly at 32768 MB or with a compute GPU of at least 8192 MB VRAM, otherwise performance, standard or constrained at 16384 and 8192 MB |
| Hardware.MoreRamNeverLowersTier | packages/desktop/src-tauri/src/hardware.rs:75-92 | more RAM never gives a lower tier |
| Hardware.GpuOnlyPromotes | packages/desktop/src-tauri/src/hardware.rs:78-84 | a GPU never lowers the tier, and one that is not compute-capable with 8 GB never changes it |
| Hardware.TierExamples | packages/desktop/src-tauri/src/hardware.rs:125-158 | the unit tests' boundary cases, including the GPU promotion at 16 GB |
| Hardware.AppleSiliconVramMb | packages/desktop/src-tauri/src/hardware.rs:105-107 | the estimate is exactly 768 MB per whole GiB of RAM: three quarters of it, with no rounding |
| Hardware.AppleSiliconGpu | packages/desktop/src-tauri/src/hardware.rs:105-113 | the Apple Silicon GPU is an Apple GPU that can compute, with memory at most three quarters of the RAM and short of that by less than 768 MB |
| Hardware.AppleSiliconTier | packages/desktop/src-tauri/src/hardware.rs:99-118 | on Apple Silicon the tier is workstation from 11 GiB, standard from 8 GiB, constrained below, and never performance |

## Left out

- Process spawning, the stderr logging task, `kill_on_drop` and the process handle are left out. Only the fact that `shutdown` kills the child is kept. All of this is I/O.
- The Tauri command handlers, `run()` and the status-update emitters it sets up are left out. They are glue around `call`/`call_fire`.
- JSON parsing is left out: `serde_json::from_str` is an oracle `Option<Value>`.
- JSON floating-point numbers are not modelled.
- Objects serialise their members in the order given. serde_json's default map sorts keys; every object the bridge writes (`id`, `method`, `params`) is already in sorted order.
- Time is not modelled: each deadline is an event (`Timeout`, `FinishShutdown`) the environment may fire. It says nothing about how long the wait was.
- The "Sidecar response channel closed" branch (lib.rs:289) is not modelled. A sender is only dropped unsent when its entry is removed, and the table's own eviction cannot run while the call still holds the receiver. Within this model the branch cannot happen.
- Bridge.SidecarBridge.BeginCall: `next_id` is a `u64` and is modelled as unbounded. Wrap-around after 2^64 calls is not modelled.
- The stdout loop stops on a read error (for example, invalid UTF-8) as well as at end of stream. Both are `StreamClosed`.
- Runtime.DebugPath: `{:?}` of a path is modelled as the path in double quotes, without Rust's escaping of special characters inside it.
- llama.cpp itself is left out: backend start, model files, context creation, tokenisation, the sampler chain and the UTF-8 decoder. Each is an oracle argument. Temperature, the system-prompt formatting and `duration_ms` are not modelled.
- The body of `embed` (one forward pass and pooling per input) is left out. It is foreign calls and floating point. Only its guards (`EmbedGuard`) are modelled.
- Runtime.NativeRuntime.Generate: `tokens_generated` is a `u32` and the count is unbounded here. The method's contract bounds the count by `max_tokens`, which is itself a `u32`, so no wrap-around can occur.
- `detect_hardware` and `detect_gpu`'s platform probing are left out. The RAM figure is a parameter; only the Apple Silicon branch of `detect_gpu` is modelled (`AppleSiliconGpu`). CPU cores, architecture and OS naming are left out.
