/**
 * The execution monitor of handler.py: the `while True` loop that reads
 * the ComfyUI websocket until the queued prompt finishes or fails. What
 * each `ws.recv()` produced is an `Event`; the answers of the liveness
 * probe and of the reconnect helper are carried inside the event that
 * triggers them, so a run of the loop is a fold over a sequence of events.
 */
module Monitor {
  import opened Wrappers
  import opened Dict
  import opened Json
  import opened Probe

  /** `max_progress_timeouts` */
  const MaxProgressTimeouts: nat := 40

  /** What one turn of the loop received. */
  datatype Event =
    | TextFrame(message: Json)                            // a str frame that parsed as JSON
    | OtherFrame                                          // a non-str (binary) frame
    | InvalidJson                                         // a str frame json.loads rejected
    | RecvTimeout(probe: HttpOutcome)                     // WebSocketTimeoutException; `probe` answers a liveness check if one is made
    | ConnectionClosed(error: string, reconnect: Reconnect) // WebSocketConnectionClosedException and how the reconnect ended

  /** The exception that ends the loop abnormally. */
  datatype Failure =
    | ServerUnreachable        // the liveness check after too many timeouts failed
    | SocketClosed(message: string) // the reconnect helper gave up
    | Unexpected(message: string)   // any other exception, by its text

  /** The loop's variables: `execution_done`, `errors`, `progress_timeout_count` and the socket in use. */
  datatype Watch = Watch(done: bool, errors: seq<string>, timeouts: nat, socket: nat)

  /** After one or more events: still waiting, left through `break`, or raised. */
  datatype Step = Waiting(w: Watch) | Finished(w: Watch) | Failed(failure: Failure)

  function Start(socket: nat): Watch
  {
    Watch(false, [], 0, socket)
  }

  /** The text of the WebSocketException the outer handler reports. */
  function FailureText(f: Failure): string
  {
    match f
    case ServerUnreachable => "ComfyUI server became unreachable"
    case SocketClosed(message) => message
    case Unexpected(message) => message
  }

  /** The entry an `execution_error` frame appends to `errors`. */
  function ExecutionErrorMessage(data: Obj): string
  {
    "Workflow execution error: Node Type: " + PyStr(GetOr(data, "node_type", JNull))
      + ", Node ID: " + PyStr(GetOr(data, "node_id", JNull))
      + ", Message: " + PyStr(GetOr(data, "exception_message", JNull))
  }

  /** The dict a frame's `data` key holds, `{}` when absent. */
  function Data(message: Obj): Json
  {
    GetOr(message, "data", JObj([]))
  }

  /** `data.get("prompt_id") == prompt_id` */
  predicate ForPrompt(data: Obj, promptId: Json)
  {
    GetOr(data, "prompt_id", JNull) == promptId
  }

  /** One parsed frame, dispatched on its `type`. */
  function OnMessage(promptId: Json, w: Watch, message: Json): Step
  {
    if !message.JObj? then Failed(Unexpected(NoGet(message)))
    else
      var messageType := GetOr(message.fields, "type", JNull);
      var data := Data(message.fields);
      if messageType == JStr("status") then
        if !data.JObj? then Failed(Unexpected(NoGet(data)))
        else
          var status := GetOr(data.fields, "status", JObj([]));
          if !status.JObj? then Failed(Unexpected(NoGet(status)))
          else
            var execInfo := GetOr(status.fields, "exec_info", JObj([]));
            if !execInfo.JObj? then Failed(Unexpected(NoGet(execInfo)))
            else Waiting(w.(timeouts := 0))
      else if messageType == JStr("progress") then
        if !data.JObj? then Failed(Unexpected(NoGet(data)))
        else Waiting(w.(timeouts := 0))
      else if messageType == JStr("executing") then
        if !data.JObj? then Failed(Unexpected(NoGet(data)))
        else if GetOr(data.fields, "node", JNull) == JNull && ForPrompt(data.fields, promptId) then
          Finished(w.(done := true))
        else if GetOr(data.fields, "node", JNull) != JNull then Waiting(w.(timeouts := 0))
        else Waiting(w)
      else if messageType == JStr("execution_error") then
        if !data.JObj? then Failed(Unexpected(NoGet(data)))
        else if ForPrompt(data.fields, promptId) then
          Finished(w.(errors := w.errors + [ExecutionErrorMessage(data.fields)]))
        else Waiting(w)
      else if messageType == JStr("executed") then
        if !data.JObj? then Failed(Unexpected(NoGet(data)))
        else if ForPrompt(data.fields, promptId) then Waiting(w.(timeouts := 0))
        else Waiting(w)
      else Waiting(w)
  }

  /** One turn of the loop. */
  function OnEvent(promptId: Json, w: Watch, e: Event): Step
  {
    match e
    case TextFrame(message) => OnMessage(promptId, w, message)
    case OtherFrame => Waiting(w)
    case InvalidJson => Waiting(w)
    case RecvTimeout(probe) =>
      if w.timeouts + 1 >= MaxProgressTimeouts then
        if ComfyServerStatus(probe).reachable then Waiting(w.(timeouts := 0))
        else Failed(ServerUnreachable)
      else Waiting(w.(timeouts := w.timeouts + 1))
    case ConnectionClosed(_, reconnect) =>
      match reconnect
      case Reconnected(socket) => Waiting(w.(socket := socket))
      case Closed(message) => Failed(SocketClosed(message))
      case Raised(error) => Failed(Unexpected(error))
  }

  /** The loop over `events`, from the state `w`; `Waiting` when the events run out first. */
  function Run(promptId: Json, w: Watch, events: seq<Event>): Step
    decreases |events|
  {
    if events == [] then Waiting(w)
    else
      match OnEvent(promptId, w, events[0])
      case Waiting(next) => Run(promptId, next, events[1..])
      case stop => stop
  }

  /** A turn at event `i` that goes on waiting hands the loop on to event `i + 1`. */
  lemma {:induction false} RunContinues(promptId: Json, w: Watch, events: seq<Event>, i: nat, next: Watch)
    requires i < |events| && OnEvent(promptId, w, events[i]) == Waiting(next)
    ensures Run(promptId, w, events[i..]) == Run(promptId, next, events[i + 1..])
  {
    assert events[i..][0] == events[i];
    assert events[i..][1..] == events[i + 1..];
  }

  /** A turn at event `i` that does not go on waiting is where the loop ends. */
  lemma {:induction false} RunStops(promptId: Json, w: Watch, events: seq<Event>, i: nat)
    requires i < |events| && !OnEvent(promptId, w, events[i]).Waiting?
    ensures Run(promptId, w, events[i..]) == OnEvent(promptId, w, events[i])
  {
    assert events[i..][0] == events[i];
  }

  /** How many of the events are receive timeouts. */
  function TimeoutsIn(events: seq<Event>): nat
  {
    if events == [] then 0
    else (if events[0].RecvTimeout? then 1 else 0) + TimeoutsIn(events[1..])
  }

  /**
   * The `if isinstance(out, str)` branch of one turn: the parsed frame,
   * dispatched on its `type`, updating the loop's variables.
   */
  method HandleMessage(promptId: Json, w: Watch, message: Json) returns (step: Step)
    ensures step == OnMessage(promptId, w, message)
  {
    var executionDone, errors, progressTimeoutCount, ws := w.done, w.errors, w.timeouts, w.socket;
    if !message.JObj? {
      return Failed(Unexpected(NoGet(message)));
    }
    var messageType := GetOr(message.fields, "type", JNull);
    var data := Data(message.fields);
    if messageType == JStr("status") {
      if !data.JObj? {
        return Failed(Unexpected(NoGet(data)));
      }
      var status := GetOr(data.fields, "status", JObj([]));
      if !status.JObj? {
        return Failed(Unexpected(NoGet(status)));
      }
      var execInfo := GetOr(status.fields, "exec_info", JObj([]));
      if !execInfo.JObj? {
        return Failed(Unexpected(NoGet(execInfo)));
      }
      progressTimeoutCount := 0;
    } else if messageType == JStr("progress") {
      if !data.JObj? {
        return Failed(Unexpected(NoGet(data)));
      }
      progressTimeoutCount := 0;
    } else if messageType == JStr("executing") {
      if !data.JObj? {
        return Failed(Unexpected(NoGet(data)));
      }
      var node := GetOr(data.fields, "node", JNull);
      if node == JNull && GetOr(data.fields, "prompt_id", JNull) == promptId {
        executionDone := true;
        return Finished(Watch(executionDone, errors, progressTimeoutCount, ws));
      } else if node != JNull {
        progressTimeoutCount := 0;
      }
    } else if messageType == JStr("execution_error") {
      if !data.JObj? {
        return Failed(Unexpected(NoGet(data)));
      }
      if GetOr(data.fields, "prompt_id", JNull) == promptId {
        errors := errors + [ExecutionErrorMessage(data.fields)];
        return Finished(Watch(executionDone, errors, progressTimeoutCount, ws));
      }
    } else if messageType == JStr("executed") {
      if !data.JObj? {
        return Failed(Unexpected(NoGet(data)));
      }
      if GetOr(data.fields, "prompt_id", JNull) == promptId {
        progressTimeoutCount := 0;
      }
    }
    step := Waiting(Watch(executionDone, errors, progressTimeoutCount, ws));
  }

  /**
   * The monitor loop of the handler, from the connected socket `socket`,
   * for the prompt `promptId`.
   */
  method WaitForExecution(promptId: Json, socket: nat, events: seq<Event>) returns (outcome: Step)
    ensures outcome == Run(promptId, Start(socket), events)
  {
    var executionDone := false;
    var errors: seq<string> := [];
    var progressTimeoutCount: nat := 0;
    var ws := socket;
    var i := 0;
    while i < |events|
      invariant i <= |events|
      invariant Run(promptId, Watch(executionDone, errors, progressTimeoutCount, ws), events[i..])
                == Run(promptId, Start(socket), events)
      decreases |events| - i
    {
      ghost var before := Watch(executionDone, errors, progressTimeoutCount, ws);
      match events[i] {
      case TextFrame(message) =>
        var step := HandleMessage(promptId, Watch(executionDone, errors, progressTimeoutCount, ws), message);
        if !step.Waiting? {
          RunStops(promptId, before, events, i);
          return step;
        }
        executionDone, errors, progressTimeoutCount, ws := step.w.done, step.w.errors, step.w.timeouts, step.w.socket;
      case OtherFrame =>
      case InvalidJson =>
      case RecvTimeout(probe) =>
        progressTimeoutCount := progressTimeoutCount + 1;
        if progressTimeoutCount >= MaxProgressTimeouts {
          var status := ComfyServerStatus(probe);
          if !status.reachable {
            RunStops(promptId, before, events, i);
            return Failed(ServerUnreachable);
          }
          progressTimeoutCount := 0;
        }
      case ConnectionClosed(_, reconnect) =>
        match reconnect {
          case Reconnected(newSocket) =>
            ws := newSocket;
          case Closed(message) =>
            RunStops(promptId, before, events, i);
            return Failed(SocketClosed(message));
          case Raised(error) =>
            RunStops(promptId, before, events, i);
            return Failed(Unexpected(error));
        }
      }
      RunContinues(promptId, before, events, i, Watch(executionDone, errors, progressTimeoutCount, ws));
      i := i + 1;
    }
    assert events[i..] == [];
    outcome := Waiting(Watch(executionDone, errors, progressTimeoutCount, ws));
  }

  // ----- properties of one turn -----

  /**
   * A parsed frame never raises the timeout count and, when the loop goes
   * on waiting, leaves `execution_done`, `errors` and the socket alone; it
   * fails only with the AttributeError of a `.get` on a value that is not
   * a dict.
   */
  lemma {:induction false} FrameKeepsState(promptId: Json, w: Watch, message: Json)
    ensures var step := OnMessage(promptId, w, message);
            step.Waiting? ==>
              step.w.done == w.done && step.w.errors == w.errors && step.w.socket == w.socket &&
              step.w.timeouts <= w.timeouts
    ensures OnMessage(promptId, w, message).Failed? ==> OnMessage(promptId, w, message).failure.Unexpected?
  {
  }

  /** A turn that carries on keeps the timeout count below the limit. */
  lemma {:induction false} OnEventKeepsBound(promptId: Json, w: Watch, e: Event)
    requires w.timeouts < MaxProgressTimeouts
    ensures OnEvent(promptId, w, e).Failed? || OnEvent(promptId, w, e).w.timeouts < MaxProgressTimeouts
  {
    if e.TextFrame? {
      FrameKeepsState(promptId, w, e.message);
    }
  }

  /**
   * A turn leaves the loop through `break` only on a frame of this prompt:
   * an `executing` frame with no node, which sets `execution_done`, or an
   * `execution_error` frame, which appends its message to `errors`.
   */
  lemma {:induction false} FinishedOnlyForPrompt(promptId: Json, w: Watch, e: Event)
    requires OnEvent(promptId, w, e).Finished?
    ensures e.TextFrame? && e.message.JObj? && Data(e.message.fields).JObj?
    ensures ForPrompt(Data(e.message.fields).fields, promptId)
    ensures var next := OnEvent(promptId, w, e).w;
            (next == w.(done := true)) ||
            (next == w.(errors := w.errors + [ExecutionErrorMessage(Data(e.message.fields).fields)]))
  {
  }

  /**
   * This prompt's frames that end execution do end the loop: an
   * `executing` frame with no node sets `execution_done`, and an
   * `execution_error` frame appends exactly its one message; either breaks.
   */
  lemma {:induction false} MatchingFramesFinish(promptId: Json, w: Watch, message: Obj)
    requires Data(message).JObj? && ForPrompt(Data(message).fields, promptId)
    ensures GetOr(message, "type", JNull) == JStr("executing") && GetOr(Data(message).fields, "node", JNull) == JNull ==>
              OnEvent(promptId, w, TextFrame(JObj(message))) == Finished(w.(done := true))
    ensures GetOr(message, "type", JNull) == JStr("execution_error") ==>
              OnEvent(promptId, w, TextFrame(JObj(message)))
              == Finished(w.(errors := w.errors + [ExecutionErrorMessage(Data(message).fields)]))
  {
  }

  /**
   * Frames about another prompt change nothing: an `executing` frame with
   * no node, an `execution_error` and an `executed` frame whose data names
   * a different prompt leave the loop's state as it was.
   */
  lemma {:induction false} OtherPromptIgnored(promptId: Json, w: Watch, message: Obj)
    requires GetOr(message, "type", JNull) in [JStr("execution_error"), JStr("executed")] ||
             (GetOr(message, "type", JNull) == JStr("executing") &&
              Data(message).JObj? && GetOr(Data(message).fields, "node", JNull) == JNull)
    requires Data(message).JObj? && !ForPrompt(Data(message).fields, promptId)
    ensures OnEvent(promptId, w, TextFrame(JObj(message))) == Waiting(w)
  {
  }

  /**
   * Signs of progress reset the timeout count to 0 and change nothing else:
   * a `status` frame (with dict `status` and `exec_info`), a `progress`
   * frame, an `executing` frame naming a node, and an `executed` frame for
   * this prompt. A non-text frame, an unparsable one and a frame of any
   * other `type` leave the state as it was.
   */
  lemma {:induction false} FramesResetCount(promptId: Json, w: Watch, message: Obj)
    ensures var t := GetOr(message, "type", JNull);
            var data := Data(message);
            (t == JStr("status") && data.JObj? && GetOr(data.fields, "status", JObj([])).JObj? &&
             GetOr(GetOr(data.fields, "status", JObj([])).fields, "exec_info", JObj([])).JObj?) ||
            (t == JStr("progress") && data.JObj?) ||
            (t == JStr("executing") && data.JObj? && GetOr(data.fields, "node", JNull) != JNull) ||
            (t == JStr("executed") && data.JObj? && ForPrompt(data.fields, promptId))
            ==> OnEvent(promptId, w, TextFrame(JObj(message))) == Waiting(w.(timeouts := 0))
    ensures GetOr(message, "type", JNull) !in
              [JStr("status"), JStr("progress"), JStr("executing"), JStr("execution_error"), JStr("executed")]
            ==> OnEvent(promptId, w, TextFrame(JObj(message))) == Waiting(w)
    ensures OnEvent(promptId, w, OtherFrame) == Waiting(w) && OnEvent(promptId, w, InvalidJson) == Waiting(w)
  {
  }

  /**
   * A dropped connection that the helper re-established is transparent:
   * the loop carries on from the same state on the new socket.
   */
  lemma {:induction false} ReconnectTransparent(promptId: Json, w: Watch, error: string, socket: nat, rest: seq<Event>)
    ensures Run(promptId, w, [ConnectionClosed(error, Reconnected(socket))] + rest)
            == Run(promptId, w.(socket := socket), rest)
  {
    assert ([ConnectionClosed(error, Reconnected(socket))] + rest)[1..] == rest;
  }

  // ----- properties of whole runs -----

  /** The timeout count never reaches the limit while the loop waits. */
  lemma {:induction false} RunKeepsBound(promptId: Json, w: Watch, events: seq<Event>)
    requires w.timeouts < MaxProgressTimeouts
    ensures Run(promptId, w, events).Failed? || Run(promptId, w, events).w.timeouts < MaxProgressTimeouts
    decreases |events|
  {
    if events != [] {
      OnEventKeepsBound(promptId, w, events[0]);
      if OnEvent(promptId, w, events[0]).Waiting? {
        RunKeepsBound(promptId, OnEvent(promptId, w, events[0]).w, events[1..]);
      }
    }
  }

  /**
   * Whenever the loop is left through `break`, execution finished or an
   * error was recorded; so the handler's "loop exited without confirmation
   * of completion or error" ValueError can never be raised.
   */
  lemma {:induction false} FinishedConcludes(promptId: Json, w: Watch, events: seq<Event>)
    requires Run(promptId, w, events).Finished?
    ensures Run(promptId, w, events).w.done || Run(promptId, w, events).w.errors != []
    decreases |events|
  {
    var step := OnEvent(promptId, w, events[0]);
    if step.Finished? {
      FinishedOnlyForPrompt(promptId, w, events[0]);
    } else {
      OnEventKeepsOutcome(promptId, w, events[0]);
      FinishedConcludes(promptId, step.w, events[1..]);
    }
  }

  /** A turn that carries on neither clears `execution_done` nor drops errors. */
  lemma {:induction false} OnEventKeepsOutcome(promptId: Json, w: Watch, e: Event)
    requires OnEvent(promptId, w, e).Waiting?
    ensures OnEvent(promptId, w, e).w.done == w.done
    ensures OnEvent(promptId, w, e).w.errors == w.errors
  {
    if e.TextFrame? {
      FrameKeepsState(promptId, w, e.message);
    }
  }

  /**
   * The server is declared unreachable only after at least
   * `max_progress_timeouts` receive timeouts in all.
   */
  lemma {:induction false} UnreachableAfterTimeouts(promptId: Json, w: Watch, events: seq<Event>)
    requires Run(promptId, w, events) == Failed(ServerUnreachable)
    ensures w.timeouts + TimeoutsIn(events) >= MaxProgressTimeouts
    decreases |events|
  {
    var step := OnEvent(promptId, w, events[0]);
    OnEventTimeouts(promptId, w, events[0]);
    if step.Waiting? {
      assert Run(promptId, step.w, events[1..]) == Failed(ServerUnreachable);
      UnreachableAfterTimeouts(promptId, step.w, events[1..]);
    } else {
      assert step == Failed(ServerUnreachable);
    }
  }

  /**
   * A turn raises the count by one on a timeout and never otherwise. Below
   * the limit a timeout adds exactly one and changes nothing else; at the
   * limit the liveness probe decides: a reachable server resets the count
   * to 0, an unreachable one ends the loop with `ServerUnreachable`, which
   * nothing else raises.
   */
  lemma {:induction false} OnEventTimeouts(promptId: Json, w: Watch, e: Event)
    ensures OnEvent(promptId, w, e).Waiting? ==>
              OnEvent(promptId, w, e).w.timeouts <= w.timeouts + (if e.RecvTimeout? then 1 else 0)
    ensures OnEvent(promptId, w, e) == Failed(ServerUnreachable) ==>
              e.RecvTimeout? && w.timeouts + 1 >= MaxProgressTimeouts
    ensures e.RecvTimeout? && w.timeouts + 1 < MaxProgressTimeouts ==>
              OnEvent(promptId, w, e) == Waiting(w.(timeouts := w.timeouts + 1))
    ensures e.RecvTimeout? && w.timeouts + 1 >= MaxProgressTimeouts && ComfyServerStatus(e.probe).reachable ==>
              OnEvent(promptId, w, e) == Waiting(w.(timeouts := 0))
    ensures e.RecvTimeout? && w.timeouts + 1 >= MaxProgressTimeouts && !ComfyServerStatus(e.probe).reachable ==>
              OnEvent(promptId, w, e) == Failed(ServerUnreachable)
  {
    if e.TextFrame? {
      FrameKeepsState(promptId, w, e.message);
    }
  }

  /** The loop of the handler never reaches its post-loop ValueError. */
  lemma {:induction false} NoUnconfirmedExit(promptId: Json, socket: nat, events: seq<Event>)
    requires Run(promptId, Start(socket), events).Finished?
    ensures Run(promptId, Start(socket), events).w.done || Run(promptId, Start(socket), events).w.errors != []
  {
    FinishedConcludes(promptId, Start(socket), events);
  }
}
