/** The message shapes of the sidecar protocol and the per-line decision of
    the stdout reader. Requests are `{id, method, params}` objects (there is
    no `"jsonrpc"` member); the sidecar answers with `{id, result}` or
    `{id, error}` and pushes `{event, data}` notifications. */
module Protocol {
  import opened Wrappers
  import opened Json
  import opened Framing

  /** The request object built by `json!({"id": id, "method": methodName, "params": params})`. */
  function Request(id: nat, methodName: string, params: Value): Value {
    Object([("id", Int(id)), ("method", Str(methodName)), ("params", params)])
  }

  /** The line written to the sidecar's stdin for one call: it holds
      exactly one `'\n'`, its last character, and the reading side gets back
      exactly the request's text as one line. */
  function RequestLine(id: nat, methodName: string, params: Value): (line: string)
    ensures |line| > 0 && line[|line| - 1] == '\n'
    ensures forall k | 0 <= k < |line| - 1 :: line[k] != '\n'
    ensures Lines(line) == [Serialize(Request(id, methodName, params))]
  {
    var request := Request(id, methodName, params);
    SplitFrame(request, "");
    assert FrameLine(request) + "" == FrameLine(request);
    FrameLine(request)
  }

  /** The request carries the id, method and params it was built from:
      reading its members back by name gives exactly those. */
  lemma RequestRoundTrip(id: nat, methodName: string, params: Value)
    ensures Request(id, methodName, params).Get("id") == Some(Int(id))
    ensures Request(id, methodName, params).Get("method") == Some(Str(methodName))
    ensures Request(id, methodName, params).Get("params") == Some(params)
  {
    var a, b, c := ("id", Int(id)), ("method", Str(methodName)), ("params", params);
    Lookup3(a, b, c, "id");
    Lookup3(a, b, c, "method");
    Lookup3(a, b, c, "params");
  }

  /** What the stdout reader makes of one parsed line. */
  datatype Inbound =
    | Event(name: string, data: Value)                       // forwarded to the frontend
    | Response(id: nat, outcome: Result<Value, string>)       // resolves one pending call
    | Ignored                                                 // neither: dropped

  /** The line has an `"event"` member that is a string (`as_str` succeeds). */
  predicate HasStringEvent(msg: Value) {
    msg.Get("event").Some? && msg.Get("event").value.Str?
  }

  /** The line has an `"id"` member that is a u64 (`as_u64` succeeds). */
  predicate HasU64Id(msg: Value) {
    msg.Get("id").Some? && msg.Get("id").value.AsU64().Some?
  }

  /** The decision of lib.rs:211-228: a string `"event"` member makes an
      event (its `"data"`, or null), whatever else the value holds;
      otherwise a u64 `"id"` makes a response to that id, whose outcome is
      ResponseOutcome; anything else is dropped. */
  function Classify(msg: Value): (r: Inbound)
    ensures HasStringEvent(msg) ==>
              r == Event(msg.Get("event").value.s, msg.Get("data").GetOr(Null))
    ensures !HasStringEvent(msg) && HasU64Id(msg) ==>
              r == Response(msg.Get("id").value.i, ResponseOutcome(msg))
    ensures !HasStringEvent(msg) && !HasU64Id(msg) ==> r == Ignored
    ensures r.Response? ==> r.id < U64_LIMIT
  {
    match msg.Get("event")
    case Some(Str(name)) => Event(name, msg.Get("data").GetOr(Null))
    case _ =>
      match msg.Get("id")
      case Some(idValue) =>
        (match idValue.AsU64()
         case Some(id) => Response(id, ResponseOutcome(msg))
         case None => Ignored)
      case None => Ignored
  }

  /** The value a response delivers to its caller: the `"error"` string when
      there is one, and otherwise the `"result"` member, or null. */
  function ResponseOutcome(msg: Value): (r: Result<Value, string>)
    ensures r.Err? <==> exists e :: msg.Get("error") == Some(Str(e))
    ensures r.Err? ==> msg.Get("error") == Some(Str(r.error))
    ensures r.Ok? ==> r.value == msg.Get("result").GetOr(Null)
  {
    match msg.Get("error")
    case Some(Str(e)) => Err(e)
    case _ => Ok(msg.Get("result").GetOr(Null))
  }

  // ---------------------------------------------------------------------
  // The three line shapes the sidecar sends, and how each is read back.
  // ---------------------------------------------------------------------

  function EventMessage(name: string, data: Value): Value {
    Object([("event", Str(name)), ("data", data)])
  }

  function ResultMessage(id: nat, result: Value): Value {
    Object([("id", Int(id)), ("result", result)])
  }

  function ErrorMessage(id: nat, error: string): Value {
    Object([("id", Int(id)), ("error", Str(error))])
  }

  /** An event line is read as that event. */
  lemma ClassifyEventMessage(name: string, data: Value)
    ensures Classify(EventMessage(name, data)) == Event(name, data)
  {
    var a, b := ("event", Str(name)), ("data", data);
    Lookup2(a, b, "event");
    Lookup2(a, b, "data");
  }

  /** A result line is read as a successful response to its id. */
  lemma ClassifyResultMessage(id: nat, result: Value)
    requires id < U64_LIMIT
    ensures Classify(ResultMessage(id, result)) == Response(id, Ok(result))
  {
    var a, b := ("id", Int(id)), ("result", result);
    Lookup2(a, b, "event");
    Lookup2(a, b, "id");
    Lookup2(a, b, "error");
    Lookup2(a, b, "result");
  }

  /** An error line is read as a failed response to its id. */
  lemma ClassifyErrorMessage(id: nat, error: string)
    requires id < U64_LIMIT
    ensures Classify(ErrorMessage(id, error)) == Response(id, Err(error))
  {
    var a, b := ("id", Int(id)), ("error", Str(error));
    Lookup2(a, b, "event");
    Lookup2(a, b, "id");
    Lookup2(a, b, "error");
  }

  /** A string `"event"` member decides, whatever `"id"` the value carries:
      such a line never resolves a pending call. */
  lemma EventWinsOverId(msg: Value, name: string)
    requires msg.Get("event") == Some(Str(name))
    ensures Classify(msg) == Event(name, msg.Get("data").GetOr(Null))
  {
  }

  /** An `"event"` member that is not a string is ignored, and the line is
      read by its `"id"` instead. */
  lemma NonStringEventFallsThrough(id: nat, event: Value, result: Value)
    requires id < U64_LIMIT && !event.Str?
    ensures Classify(Object([("event", event), ("id", Int(id)), ("result", result)])) == Response(id, Ok(result))
  {
    var a, b, c := ("event", event), ("id", Int(id)), ("result", result);
    Lookup3(a, b, c, "event");
    Lookup3(a, b, c, "id");
    Lookup3(a, b, c, "error");
    Lookup3(a, b, c, "result");
  }

  /** An `"error"` member that is not a string does not fail the call: the
      response succeeds with its `"result"`, or null when there is none. */
  lemma NonStringErrorSucceeds(id: nat, error: Value, result: Value)
    requires id < U64_LIMIT && !error.Str?
    ensures Classify(Object([("id", Int(id)), ("error", error)])) == Response(id, Ok(Null))
    ensures Classify(Object([("id", Int(id)), ("error", error), ("result", result)])) == Response(id, Ok(result))
  {
    var a, b, c := ("id", Int(id)), ("error", error), ("result", result);
    Lookup2(a, b, "event");
    Lookup2(a, b, "id");
    Lookup2(a, b, "error");
    Lookup2(a, b, "result");
    Lookup3(a, b, c, "event");
    Lookup3(a, b, c, "id");
    Lookup3(a, b, c, "error");
    Lookup3(a, b, c, "result");
  }

  /** Without a string `"event"`, a line whose `"id"` is missing, negative,
      too large for u64 or not a number has no effect. */
  lemma NonU64IdIgnored(msg: Value)
    requires !HasStringEvent(msg)
    requires msg.Get("id").None? || !(msg.Get("id").value.Int? && 0 <= msg.Get("id").value.i < U64_LIMIT)
    ensures Classify(msg) == Ignored
  {
  }
}
