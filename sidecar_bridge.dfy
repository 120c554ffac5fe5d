/** The sidecar bridge of lib.rs: a table correlating request ids with the
    calls waiting for them, fed by the stdout reader. The async tasks, locks,
    oneshot channels and timers of the source become explicit events, one
    method each, that a sequential environment fires in any order their
    preconditions allow:

      BeginCall  -> WriteOk | WriteAllFail | FlushFail
      WriteOk    -> ... DispatchLine* ... -> Receive | Timeout
      BeginShutdown -> ... -> FinishShutdown
      DispatchLine* -> StreamClosed

    Each call future in flight is an entry of `callers`; the value a oneshot
    channel holds until its receiver takes it is an entry of `slots`. */
module Bridge {
  import opened Wrappers
  import opened Json
  import opened Framing
  import opened Protocol

  /** `call` (long deadline) or `call_fire` (short acknowledgement deadline). */
  datatype Mode = Call | CallFire

  /** A call future is either writing its request or waiting for the answer. */
  datatype Phase = Writing | Awaiting

  /** A call in progress: its mode, its phase and the request it sends. */
  datatype Caller = Caller(mode: Mode, phase: Phase, methodName: string, params: Value)

  /** Where a write to stdin failed: in `write_all`, after `bytesWritten`
      bytes of the line had gone out, or in `flush`, after all of them. */
  datatype WriteStage = WriteAll(bytesWritten: nat) | Flush

  const CALL_TIMEOUT_SECS: nat := 120
  const CALL_FIRE_TIMEOUT_SECS: nat := 10
  const SHUTDOWN_GRACE_SECS: nat := 5

  /** The deadline of each call mode, in seconds. */
  function Deadline(mode: Mode): (secs: nat)
    ensures secs > SHUTDOWN_GRACE_SECS
  {
    match mode
    case Call => CALL_TIMEOUT_SECS
    case CallFire => CALL_FIRE_TIMEOUT_SECS
  }

  /** The error a call returns when its deadline passes. */
  function TimeoutMessage(mode: Mode): string {
    match mode
    case Call => "Sidecar request timed out (120s)"
    case CallFire => "Sidecar initial response timed out"
  }

  /** The error a call returns when its request cannot be written. */
  function WriteFailureMessage(stage: WriteStage, cause: string): string {
    match stage
    case WriteAll(_) => "Failed to write to sidecar stdin: " + cause
    case Flush => "Failed to flush sidecar stdin: " + cause
  }

  const EVENT_PREFIX: string := "semblance://"
  const STATUS_UPDATE: string := "semblance://status-update"

  /** The payload of the status update sent when the sidecar's stdout closes. */
  function Disconnected(): Value {
    Object([("ollamaStatus", Str("disconnected")),
            ("gatewayStatus", Str("disconnected")),
            ("error", Str("Sidecar process exited unexpectedly"))])
  }

  /** The ids that have a table entry but no call in flight. */
  function OrphanIds(pending: set<nat>, callers: map<nat, Caller>): set<nat> {
    set id | id in pending && id !in callers
  }

  /** Dropping a call in flight orphans its entry, if it still has one. */
  lemma DropCaller(pending: set<nat>, callers: map<nat, Caller>, id: nat)
    requires id in callers
    ensures OrphanIds(pending, callers - {id}) ==
              OrphanIds(pending, callers) + (if id in pending then {id} else {})
  {
  }

  class SidecarBridge {
    /** The id the next call takes (`next_id`). */
    var nextId: nat
    /** The ids that have an entry in the correlation table (`pending`). */
    var pending: set<nat>
    /** The call futures in flight, by id. */
    var callers: map<nat, Caller>
    /** Answers sent into a live receiver and not yet taken by its caller. */
    var slots: map<nat, Result<Value, string>>
    /** Everything written to the sidecar's stdin so far. */
    var stdin: string
    /** The events emitted to the frontend, in order: full name and payload. */
    var events: seq<(string, Value)>
    /** The stdout reader is still running. */
    var reading: bool
    /** The sidecar process has been killed. */
    var killed: bool

    /** The requests whose lines were written in full, in order. */
    ghost var sent: seq<Value>
    /** Some write failed after part of its line had gone out. */
    ghost var torn: bool
    /** The ids of the graceful-stop calls made by `shutdown`. */
    ghost var shutdownIds: set<nat>

    ghost predicate Valid()
      reads this
    {
      && 1 <= nextId
      && (forall id | id in pending :: 1 <= id < nextId)
      && (forall id | id in callers :: 1 <= id < nextId)
      // a call in flight is answered either by its table entry or by its slot, never both
      && (forall id | id in callers :: (id in pending) != (id in slots))
      && slots.Keys <= callers.Keys
      && (!torn ==> stdin == Frames(sent))
    }

    /** The bridge right after `spawn` (lib.rs:193-201): the counter at 1,
        an empty table, both readers running. */
    constructor ()
      ensures Valid()
      ensures nextId == 1 && pending == {} && callers == map[] && slots == map[]
      ensures stdin == [] && events == [] && reading && !killed
      ensures sent == [] && !torn && shutdownIds == {}
    {
      nextId, pending, callers, slots := 1, {}, map[], map[];
      stdin, events, reading, killed := [], [], true, false;
      sent, torn, shutdownIds := [], false, {};
    }

    /** The start of `call` and `call_fire`: take the next id, bump the
        counter, register the id in the table. The returned id is fresh: no
        entry, call or slot uses it. */
    method BeginCall(mode: Mode, methodName: string, params: Value) returns (id: nat)
      requires Valid()
      modifies this
      ensures Valid()
      ensures id == old(nextId) && nextId == id + 1
      ensures id !in old(pending) && id !in old(callers) && id !in old(slots)
      ensures pending == old(pending) + {id}
      ensures callers == old(callers)[id := Caller(mode, Writing, methodName, params)]
      ensures slots == old(slots) && stdin == old(stdin) && events == old(events)
      ensures reading == old(reading) && killed == old(killed)
      ensures sent == old(sent) && torn == old(torn) && shutdownIds == old(shutdownIds)
      ensures Orphans() == old(Orphans())
    {
      id := nextId;
      nextId := nextId + 1;
      pending := pending + {id};
      callers := callers[id := Caller(mode, Writing, methodName, params)];
    }

    /** The request line is written and flushed in one piece while the stdin
        lock is held; the call then waits for its answer. */
    method WriteOk(id: nat)
      requires Valid() && id in callers && callers[id].phase == Writing
      modifies this
      ensures Valid()
      ensures var c := old(callers[id]);
              && stdin == old(stdin) + RequestLine(id, c.methodName, c.params)
              && sent == old(sent) + [Request(id, c.methodName, c.params)]
              && callers == old(callers)[id := c.(phase := Awaiting)]
      ensures nextId == old(nextId) && pending == old(pending) && slots == old(slots)
      ensures events == old(events) && reading == old(reading) && killed == old(killed)
      ensures torn == old(torn) && shutdownIds == old(shutdownIds)
      ensures Orphans() == old(Orphans())
    {
      var c := callers[id];
      var request := Request(id, c.methodName, c.params);
      FramesSnoc(sent, request);
      stdin := stdin + RequestLine(id, c.methodName, c.params);
      sent := sent + [request];
      callers := callers[id := c.(phase := Awaiting)];
    }

    /** `write_all` fails after `n` bytes of the request line went out
        (lib.rs:276-279): the call returns the write error and drops its
        half of the exchange; the table entry stays unless an answer had
        already arrived. A partial write leaves a prefix of the line on
        the wire. */
    method WriteAllFail(id: nat, n: nat, cause: string) returns (r: Result<Value, string>)
      requires Valid() && id in callers && callers[id].phase == Writing
      requires n < |RequestLine(id, callers[id].methodName, callers[id].params)|
      modifies this
      ensures Valid()
      ensures r == Err(WriteFailureMessage(WriteAll(n), cause))
      ensures pending == old(pending) && (id in pending <==> id !in old(slots))
      ensures callers == old(callers) - {id} && slots == old(slots) - {id}
      ensures var c := old(callers[id]);
              stdin == old(stdin) + RequestLine(id, c.methodName, c.params)[..n]
      ensures sent == old(sent) && torn == (old(torn) || n > 0)
      ensures nextId == old(nextId) && events == old(events)
      ensures reading == old(reading) && killed == old(killed) && shutdownIds == old(shutdownIds)
      ensures id !in old(slots) ==> Orphans() == old(Orphans()) + {id}
      ensures id in old(slots) ==> Orphans() == old(Orphans())
    {
      DropCaller(pending, callers, id);
      var c := callers[id];
      stdin := stdin + RequestLine(id, c.methodName, c.params)[..n];
      torn := torn || n > 0;
      callers := callers - {id};
      slots := slots - {id};
      r := Err(WriteFailureMessage(WriteAll(n), cause));
    }

    /** `flush` fails after the whole request line was written
        (lib.rs:280-283): the request is on the wire, the call returns the
        flush error and drops its half of the exchange; the table entry
        stays unless an answer had already arrived. */
    method FlushFail(id: nat, cause: string) returns (r: Result<Value, string>)
      requires Valid() && id in callers && callers[id].phase == Writing
      modifies this
      ensures Valid()
      ensures r == Err(WriteFailureMessage(Flush, cause))
      ensures pending == old(pending) && (id in pending <==> id !in old(slots))
      ensures callers == old(callers) - {id} && slots == old(slots) - {id}
      ensures var c := old(callers[id]);
              && stdin == old(stdin) + RequestLine(id, c.methodName, c.params)
              && sent == old(sent) + [Request(id, c.methodName, c.params)]
      ensures torn == old(torn)
      ensures nextId == old(nextId) && events == old(events)
      ensures reading == old(reading) && killed == old(killed) && shutdownIds == old(shutdownIds)
      ensures id !in old(slots) ==> Orphans() == old(Orphans()) + {id}
      ensures id in old(slots) ==> Orphans() == old(Orphans())
    {
      DropCaller(pending, callers, id);
      var c := callers[id];
      var request := Request(id, c.methodName, c.params);
      FramesSnoc(sent, request);
      stdin := stdin + RequestLine(id, c.methodName, c.params);
      sent := sent + [request];
      callers := callers - {id};
      slots := slots - {id};
      r := Err(WriteFailureMessage(Flush, cause));
    }

    /** The answer is in the channel before the deadline: the call returns it. */
    method Receive(id: nat) returns (r: Result<Value, string>)
      requires Valid() && id in callers && callers[id].phase == Awaiting && id in slots
      modifies this
      ensures Valid()
      ensures r == old(slots[id])
      ensures callers == old(callers) - {id} && slots == old(slots) - {id}
      ensures nextId == old(nextId) && pending == old(pending) && stdin == old(stdin)
      ensures events == old(events) && reading == old(reading) && killed == old(killed)
      ensures sent == old(sent) && torn == old(torn) && shutdownIds == old(shutdownIds)
      ensures Orphans() == old(Orphans())
    {
      r := slots[id];
      callers := callers - {id};
      slots := slots - {id};
    }

    /** The deadline passes with no answer in the channel: the call removes
        its own table entry, and only that one, and returns the timeout
        error of its mode. */
    method Timeout(id: nat) returns (r: Result<Value, string>)
      requires Valid() && id in callers && callers[id].phase == Awaiting && id !in slots
      // the graceful-stop call of `shutdown` is dropped by its outer bound
      // before its own deadline: only a deadline shorter than that bound
      // could fire here, and Deadline shows none is
      requires id in shutdownIds ==> Deadline(callers[id].mode) < SHUTDOWN_GRACE_SECS
      modifies this
      ensures Valid()
      ensures r == Err(TimeoutMessage(old(callers[id].mode)))
      ensures id in old(pending) && pending == old(pending) - {id}
      ensures callers == old(callers) - {id} && slots == old(slots)
      ensures nextId == old(nextId) && stdin == old(stdin)
      ensures events == old(events) && reading == old(reading) && killed == old(killed)
      ensures sent == old(sent) && torn == old(torn) && shutdownIds == old(shutdownIds)
      ensures Orphans() == old(Orphans())
    {
      r := Err(TimeoutMessage(callers[id].mode));
      pending := pending - {id};
      callers := callers - {id};
    }

    /** One iteration of the stdout loop, given the outcome of parsing the
        line. An unparsable line changes nothing; an event is emitted under
        `semblance://<name>` and leaves the table alone; a response removes
        its id's entry, if there is one, and sends the outcome to that call
        if it is still in flight. Nothing else changes. */
    method DispatchLine(parsed: Option<Value>)
      requires Valid() && reading
      modifies this
      ensures Valid()
      ensures parsed.None? || Classify(parsed.value).Ignored? ==>
                pending == old(pending) && slots == old(slots) && events == old(events)
      ensures parsed.Some? && Classify(parsed.value).Event? ==>
                var e := Classify(parsed.value);
                events == old(events) + [(EVENT_PREFIX + e.name, e.data)] &&
                pending == old(pending) && slots == old(slots)
      ensures parsed.Some? && Classify(parsed.value).Response? ==>
                var resp := Classify(parsed.value);
                && events == old(events)
                && pending == old(pending) - {resp.id}
                && slots == if resp.id in old(pending) && resp.id in old(callers)
                            then old(slots)[resp.id := resp.outcome]
                            else old(slots)
      ensures nextId == old(nextId) && callers == old(callers) && stdin == old(stdin)
      ensures reading && killed == old(killed)
      ensures sent == old(sent) && torn == old(torn) && shutdownIds == old(shutdownIds)
      ensures parsed.Some? && Classify(parsed.value).Response? ==>
                Orphans() == old(Orphans()) - {Classify(parsed.value).id}
      ensures !(parsed.Some? && Classify(parsed.value).Response?) ==> Orphans() == old(Orphans())
    {
      if parsed.Some? {
        var inbound := Classify(parsed.value);
        match inbound {
          case Event(name, data) =>
            events := events + [(EVENT_PREFIX + name, data)];
          case Response(id, outcome) =>
            if id in pending {
              pending := pending - {id};
              if id in callers {
                slots := slots[id := outcome];
              }
            }
          case Ignored =>
        }
      }
    }

    /** stdout ends (or a line cannot be read): the loop exits and emits one
        disconnected status update. No line is dispatched after this. */
    method StreamClosed()
      requires Valid() && reading
      modifies this
      ensures Valid()
      ensures !reading && events == old(events) + [(STATUS_UPDATE, Disconnected())]
      ensures nextId == old(nextId) && pending == old(pending) && callers == old(callers)
      ensures slots == old(slots) && stdin == old(stdin) && killed == old(killed)
      ensures sent == old(sent) && torn == old(torn) && shutdownIds == old(shutdownIds)
      ensures Orphans() == old(Orphans())
    {
      reading := false;
      events := events + [(STATUS_UPDATE, Disconnected())];
    }

    /** Phase 1 of `shutdown`: an ordinary `call("shutdown", null)`. */
    method BeginShutdown() returns (id: nat)
      requires Valid()
      modifies this
      ensures Valid()
      ensures id == old(nextId) && nextId == id + 1
      ensures pending == old(pending) + {id}
      ensures callers == old(callers)[id := Caller(Call, Writing, "shutdown", Null)]
      ensures shutdownIds == old(shutdownIds) + {id}
      ensures slots == old(slots) && stdin == old(stdin) && events == old(events)
      ensures reading == old(reading) && killed == old(killed)
      ensures sent == old(sent) && torn == old(torn)
      ensures Orphans() == old(Orphans())
    {
      id := BeginCall(Call, "shutdown", Null);
      shutdownIds := shutdownIds + {id};
    }

    /** Phase 2 of `shutdown`, once the graceful-stop call has returned or
        its 5 s bound has passed, whichever comes first. A call still in
        flight is dropped by the outer timeout before its own eviction can
        run, so its table entry stays. The child is killed regardless, and
        this always returns. */
    method FinishShutdown(id: nat)
      requires Valid() && id in shutdownIds
      modifies this
      ensures Valid()
      ensures killed
      ensures pending == old(pending)
      ensures callers == old(callers) - {id} && slots == old(slots) - {id}
      ensures old(id in callers && id in pending) ==> id in pending && id !in callers
      ensures nextId == old(nextId) && stdin == old(stdin) && events == old(events)
      ensures reading == old(reading)
      ensures sent == old(sent) && torn == old(torn) && shutdownIds == old(shutdownIds)
      ensures old(id in callers && id in pending) ==> Orphans() == old(Orphans()) + {id}
      ensures !old(id in callers && id in pending) ==> Orphans() == old(Orphans())
    {
      callers := callers - {id};
      slots := slots - {id};
      killed := true;
    }

    /** The table entries no call in flight will ever remove: only a
        response carrying their id can. */
    function Orphans(): set<nat>
      reads this
    {
      OrphanIds(pending, callers)
    }
  }
}
