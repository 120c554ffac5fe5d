/** Runs of the bridge from a fresh `spawn`, each proved from the method
    contracts alone: what a caller receives, and what is left in the table. */
module BridgeScenarios {
  import opened Wrappers
  import opened Json
  import opened Protocol
  import opened Bridge

  /** `call("get_status", null)` answered by `{"id":1,"result":{"ok":true}}`
      returns `{"ok":true}` and leaves the table empty. */
  method ResultReachesCaller() returns (r: Result<Value, string>, table: set<nat>)
    ensures r == Ok(Object([("ok", Bool(true))]))
    ensures table == {}
  {
    var name := "get_status";
    var b := new SidecarBridge();
    var id := b.BeginCall(Call, name, Null);
    b.WriteOk(id);
    var answer := Object([("ok", Bool(true))]);
    ClassifyResultMessage(1, answer);
    b.DispatchLine(Some(ResultMessage(1, answer)));
    r := b.Receive(id);
    table := b.pending;
  }

  /** The same call answered by `{"id":1,"error":"boom"}` fails with "boom". */
  method ErrorReachesCaller() returns (r: Result<Value, string>)
    ensures r == Err("boom")
  {
    var name := "get_status";
    var b := new SidecarBridge();
    var id := b.BeginCall(Call, name, Null);
    b.WriteOk(id);
    ClassifyErrorMessage(1, "boom");
    b.DispatchLine(Some(ErrorMessage(1, "boom")));
    r := b.Receive(id);
  }

  /** Two calls answered in reverse order each receive their own answer. */
  method AnswersOutOfOrder(first: Value, second: Value) returns (r1: Result<Value, string>, r2: Result<Value, string>)
    ensures r1 == Ok(first) && r2 == Ok(second)
  {
    var name := "query";
    var b := new SidecarBridge();
    var id1 := b.BeginCall(Call, name, Null);
    var id2 := b.BeginCall(CallFire, name, Null);
    b.WriteOk(id1);
    b.WriteOk(id2);
    ClassifyResultMessage(2, second);
    b.DispatchLine(Some(ResultMessage(2, second)));
    ClassifyResultMessage(1, first);
    b.DispatchLine(Some(ResultMessage(1, first)));
    r2 := b.Receive(id2);
    r1 := b.Receive(id1);
  }

  /** An event line with no call outstanding is emitted under its prefixed name. */
  method EventWithoutCalls() returns (emitted: seq<(string, Value)>)
    ensures emitted == [("semblance://tick", Int(42))]
  {
    var b := new SidecarBridge();
    ClassifyEventMessage("tick", Int(42));
    b.DispatchLine(Some(EventMessage("tick", Int(42))));
    assert EVENT_PREFIX + "tick" == "semblance://tick";
    emitted := b.events;
  }

  /** An event line that also carries the id of a pending call resolves
      no call: both table entries stay and no answer is delivered. */
  method EventLeavesPendingCalls() returns (table: set<nat>, answered: set<nat>)
    ensures table == {1, 2} && answered == {}
  {
    var name := "query";
    var b := new SidecarBridge();
    var id1 := b.BeginCall(Call, name, Null);
    var id2 := b.BeginCall(CallFire, name, Null);
    b.WriteOk(id2);
    var eventName := "progress";
    var line := Object([("event", Str(eventName)), ("id", Int(2))]);
    Lookup2(("event", Str(eventName)), ("id", Int(2)), "event");
    EventWinsOverId(line, eventName);
    b.DispatchLine(Some(line));
    table := b.pending;
    answered := b.slots.Keys;
  }

  /** A call whose deadline passes gets the timeout error; the answer that
      arrives afterwards finds no entry and is dropped. */
  method LateAnswerDropped(late: Value) returns (r: Result<Value, string>, table: set<nat>, answered: set<nat>)
    ensures r == Err("Sidecar request timed out (120s)")
    ensures table == {} && answered == {}
  {
    var name := "query";
    var b := new SidecarBridge();
    var id := b.BeginCall(Call, name, Null);
    b.WriteOk(id);
    r := b.Timeout(id);
    ClassifyResultMessage(1, late);
    b.DispatchLine(Some(ResultMessage(1, late)));
    table := b.pending;
    answered := b.slots.Keys;
  }

  /** An answer for an id nobody registered changes nothing: the pending
      call still waits on its entry. */
  method UnknownIdDropped(v: Value) returns (table: set<nat>, answered: set<nat>)
    ensures table == {1} && answered == {}
  {
    var name := "query";
    var b := new SidecarBridge();
    var id := b.BeginCall(Call, name, Null);
    b.WriteOk(id);
    ClassifyResultMessage(7, v);
    b.DispatchLine(Some(ResultMessage(7, v)));
    table := b.pending;
    answered := b.slots.Keys;
  }

  /** Ids come from one counter shared by both call modes: 1, 2, 3, ... */
  method IdsIncrease() returns (id1: nat, id2: nat, id3: nat)
    ensures id1 == 1 && id2 == 2 && id3 == 3
  {
    var name := "query";
    var b := new SidecarBridge();
    id1 := b.BeginCall(Call, name, Null);
    id2 := b.BeginCall(CallFire, name, Null);
    var cause := "broken pipe";
    var r := b.FlushFail(id2, cause);
    id3 := b.BeginCall(Call, name, Null);
  }

  /** A failed write returns the error but leaves its entry in the table,
      with no call left to remove it. */
  method WriteFailureOrphansEntry(cause: string) returns (r: Result<Value, string>, orphans: set<nat>)
    ensures r == Err("Failed to write to sidecar stdin: " + cause)
    ensures orphans == {1}
  {
    var name := "query";
    var b := new SidecarBridge();
    var id := b.BeginCall(Call, name, Null);
    r := b.WriteAllFail(id, 0, cause);
    orphans := b.Orphans();
    assert 1 in orphans;
  }

  /** `shutdown` with a sidecar that never answers: it returns, the child is
      killed, and the "shutdown" entry stays in the table. */
  method UnansweredShutdown() returns (killed: bool, orphans: set<nat>)
    ensures killed && orphans == {1}
  {
    var b := new SidecarBridge();
    var id := b.BeginShutdown();
    b.WriteOk(id);
    b.FinishShutdown(id);
    killed := b.killed;
    orphans := b.Orphans();
    assert 1 in orphans;
  }

  /** The end of stdout emits exactly one disconnected status update. */
  method DisconnectAfterEvent() returns (emitted: seq<(string, Value)>)
    ensures emitted == [("semblance://tick", Int(1)), ("semblance://status-update", Disconnected())]
  {
    var b := new SidecarBridge();
    ClassifyEventMessage("tick", Int(1));
    b.DispatchLine(Some(EventMessage("tick", Int(1))));
    b.DispatchLine(None);
    b.StreamClosed();
    assert EVENT_PREFIX + "tick" == "semblance://tick";
    emitted := b.events;
  }
}
