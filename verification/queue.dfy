/**
 * Queueing a workflow: the checkpoint list `get_available_models` extracts
 * from ComfyUI's `/object_info`, the ValueError message `queue_workflow`
 * builds from a 400 reply, and the handler's check that the reply to a
 * successful POST names a prompt id.
 */
module Queue {
  import opened Wrappers
  import opened Dict
  import opened Json

  // ----- get_available_models -----

  /**
   * `get_available_models().get("checkpoints")`, None when that key is not
   * set. `objectInfo` is the parsed `/object_info` reply, or the text of
   * the exception raised fetching it. Every exception is swallowed into
   * `{}`: a subscript of a value that is not a dict, `in` on a value that
   * is no container, `len` of a number, `[0]` of a dict.
   */
  function AvailableCheckpoints(objectInfo: Result<Json, string>): Option<seq<Json>>
  {
    match objectInfo
    case Err(_) => None
    case Ok(info) =>
      if Contains(info, "CheckpointLoaderSimple") != Some(true) || !info.JObj? then None
      else
        var loader := GetOr(info.fields, "CheckpointLoaderSimple", JNull);
        if Contains(loader, "input") != Some(true) || !loader.JObj? then None
        else
          var input := GetOr(loader.fields, "input", JNull);
          if Contains(input, "required") != Some(true) || !input.JObj? then None
          else
            var required := GetOr(input.fields, "required", JNull);
            if !required.JObj? then None
            else
              var options := GetOr(required.fields, "ckpt_name", JNull);
              if !Truthy(options) then None
              else
                match options
                case JList(items) => Some(if items[0].JList? then items[0].items else [])
                case JStr(_) => Some([])
                case _ => None
  }

  /**
   * Any `/object_info` dict whose `CheckpointLoaderSimple` / `input` /
   * `required` / `ckpt_name` path holds a non-empty list, whatever other
   * node classes and keys it carries at every level: the checkpoints are
   * that list's first element when it is a list, and none otherwise.
   */
  lemma {:induction false} CheckpointsFound(info: Obj, loader: Obj, input: Obj, required: Obj, options: seq<Json>)
    requires Get(info, "CheckpointLoaderSimple") == Some(JObj(loader))
    requires Get(loader, "input") == Some(JObj(input))
    requires Get(input, "required") == Some(JObj(required))
    requires Get(required, "ckpt_name") == Some(JList(options)) && options != []
    ensures AvailableCheckpoints(Ok(JObj(info))) == Some(if options[0].JList? then options[0].items else [])
  {
    GetKeys(info, "CheckpointLoaderSimple");
    GetKeys(loader, "input");
    GetKeys(input, "required");
  }

  /** Without a `CheckpointLoaderSimple` node class, `checkpoints` is not set. */
  lemma {:induction false} NoLoaderNoCheckpoints(info: Obj)
    requires Get(info, "CheckpointLoaderSimple") == None
    ensures AvailableCheckpoints(Ok(JObj(info))) == None
  {
    GetKeys(info, "CheckpointLoaderSimple");
  }

  /** `sep.join(parts)` */
  function Join(sep: string, parts: seq<string>): string
  {
    if parts == [] then ""
    else if |parts| == 1 then parts[0]
    else Join(sep, parts[..|parts| - 1]) + sep + parts[|parts| - 1]
  }

  /** The step of `sep.join(items)` for item `i`: its text, or the TypeError for a non-string. */
  function JoinItem(items: seq<Json>, i: nat): Result<string, string>
    requires i < |items|
  {
    if items[i].JStr? then Ok(items[i].s)
    else Err("sequence item " + NatToString(i) + ": expected str instance, " + TypeName(items[i]) + " found")
  }

  /** The steps of `sep.join(items)`, one per item. */
  function JoinSteps(items: seq<Json>): seq<Result<string, string>>
  {
    seq(|items|, i requires 0 <= i < |items| => JoinItem(items, i))
  }

  /** `sep.join(items)` over JSON values, raising at the first that is not a string. */
  function JoinStrs(sep: string, items: seq<Json>): Result<string, string>
  {
    match Collect(JoinSteps(items))
    case Ok(parts) => Ok(Join(sep, parts))
    case Err(e) => Err(e)
  }

  /** Joining succeeds exactly when every item is a string. */
  lemma {:induction false} JoinStrsOk(sep: string, items: seq<Json>)
    ensures JoinStrs(sep, items).Ok? <==> forall i | 0 <= i < |items| :: items[i].JStr?
  {
    var steps := JoinSteps(items);
    CollectOk(steps);
    assert forall i | 0 <= i < |items| :: steps[i].Ok? == items[i].JStr?;
  }

  /** Joining raises the TypeError of the first item that is not a string. */
  lemma {:induction false} JoinStrsErr(sep: string, items: seq<Json>, k: nat)
    requires k < |items| && !items[k].JStr?
    requires forall i | 0 <= i < k :: items[i].JStr?
    ensures JoinStrs(sep, items) ==
              Err("sequence item " + NatToString(k) + ": expected str instance, " + TypeName(items[k]) + " found")
  {
    CollectErr(JoinSteps(items), k);
  }

  /** Joining the names of a list of strings joins the strings. */
  lemma {:induction false} JoinStrsNames(sep: string, names: seq<string>)
    ensures JoinStrs(sep, Strs(names).items) == Ok(Join(sep, names))
  {
    var steps := JoinSteps(Strs(names).items);
    CollectOk(steps);
    assert Collect(steps).value == names;
  }

  // ----- queue_workflow's 400 reply -----

  /** One line of `error_details` per entry of a dict node error. */
  function EntryDetails(nodeId: string, nodeError: Obj): seq<string>
  {
    if nodeError == [] then []
    else
      var (errorType, errorMsg) := nodeError[|nodeError| - 1];
      EntryDetails(nodeId, nodeError[..|nodeError| - 1]) + ["Node " + nodeId + " (" + errorType + "): " + PyStr(errorMsg)]
  }

  /** The lines one node of `node_errors` contributes. */
  function NodeDetails(nodeId: string, nodeError: Json): seq<string>
  {
    match nodeError
    case JObj(entries) => EntryDetails(nodeId, entries)
    case _ => ["Node " + nodeId + ": " + PyStr(nodeError)]
  }

  /** `error_details` for the dict `node_errors`, node by node. */
  function Details(nodeErrors: Obj): seq<string>
  {
    if nodeErrors == [] then []
    else
      var (nodeId, nodeError) := nodeErrors[|nodeErrors| - 1];
      Details(nodeErrors[..|nodeErrors| - 1]) + NodeDetails(nodeId, nodeError)
  }

  /** The inner loop over `node_error.items()`, appending to `details`. */
  method AppendEntryDetails(nodeId: string, nodeError: Obj, details: seq<string>) returns (r: seq<string>)
    ensures r == details + EntryDetails(nodeId, nodeError)
  {
    r := details;
    var i := 0;
    while i < |nodeError|
      invariant i <= |nodeError|
      invariant r == details + EntryDetails(nodeId, nodeError[..i])
    {
      assert nodeError[..i + 1][..i] == nodeError[..i];
      var (errorType, errorMsg) := nodeError[i];
      r := r + ["Node " + nodeId + " (" + errorType + "): " + PyStr(errorMsg)];
      i := i + 1;
    }
    assert nodeError[..i] == nodeError;
  }

  /** The loop over `error_data["node_errors"].items()`. */
  method NodeErrorDetails(nodeErrors: Obj) returns (details: seq<string>)
    ensures details == Details(nodeErrors)
  {
    details := [];
    var i := 0;
    while i < |nodeErrors|
      invariant i <= |nodeErrors|
      invariant details == Details(nodeErrors[..i])
    {
      assert nodeErrors[..i + 1][..i] == nodeErrors[..i];
      var (nodeId, nodeError) := nodeErrors[i];
      if nodeError.JObj? {
        details := AppendEntryDetails(nodeId, nodeError.fields, details);
      } else {
        details := details + ["Node " + nodeId + ": " + PyStr(nodeError)];
      }
      i := i + 1;
    }
    assert nodeErrors[..i] == nodeErrors;
  }

  /** No line is produced exactly when every node error is an empty dict. */
  lemma {:induction false} NoDetailsIff(nodeErrors: Obj)
    ensures Details(nodeErrors) == [] <==> forall i | 0 <= i < |nodeErrors| :: nodeErrors[i].1 == JObj([])
  {
    if nodeErrors != [] {
      var init := nodeErrors[..|nodeErrors| - 1];
      NoDetailsIff(init);
      var last := nodeErrors[|nodeErrors| - 1].1;
      if last.JObj? && last.fields != [] {
        EntryDetailsNonEmpty(nodeErrors[|nodeErrors| - 1].0, last.fields);
      }
      assert forall i | 0 <= i < |init| :: init[i] == nodeErrors[i];
    }
  }

  lemma {:induction false} EntryDetailsNonEmpty(nodeId: string, nodeError: Obj)
    requires nodeError != []
    ensures EntryDetails(nodeId, nodeError) != []
  {
  }

  /** The exception `queue_workflow` raises on a 400 reply: its ValueError, or another exception's text. */
  datatype Rejection = Invalid(message: string) | Crashed(text: string)

  const FailedValidationType := "prompt_outputs_failed_validation"
  const DefaultMessage := "Workflow validation failed"
  const ModelMissing := "\n\nThis usually means a required model or parameter is not available."
  const NoCheckpoints := "No checkpoint models appear to be available. Please check your model installation."

  /** `error_message` after the `"error"` key was read. */
  function ErrorMessage(data: Obj): Json
  {
    match Get<Json>(data, "error")
    case None => JStr(DefaultMessage)
    case Some(info) =>
      match info
      case JObj(fields) =>
        if GetOr(fields, "type", JNull) == JStr(FailedValidationType) then JStr(DefaultMessage)
        else GetOr(fields, "message", JStr(DefaultMessage))
      case _ => JStr(PyStr(info))
  }

  /** `error_details`, or the AttributeError of `.items()` on a `node_errors` that is not a dict. */
  function DetailLines(data: Obj): Result<seq<string>, string>
  {
    match Get<Json>(data, "node_errors")
    case None => Ok([])
    case Some(nodeErrors) =>
      match nodeErrors
      case JObj(entries) => Ok(Details(entries))
      case _ => Err("'" + TypeName(nodeErrors) + "' object has no attribute 'items'")
  }

  /** `message += suffix`: a string grows, a list is extended by the suffix's characters, anything else raises. */
  function AppendText(message: Json, suffix: string): Result<Json, string>
  {
    match message
    case JStr(s) => Ok(JStr(s + suffix))
    case JList(items) => Ok(JList(items + seq(|suffix|, i requires 0 <= i < |suffix| => JStr([suffix[i]]))))
    case _ => Err("unsupported operand type(s) for +=: '" + TypeName(message) + "' and 'str'")
  }

  /**
   * The checkpoint names joined with `", "`, None when the list is empty or
   * missing, or the exception the join raises.
   */
  function CheckpointText(checkpoints: Option<seq<Json>>): Result<Option<string>, string>
  {
    if checkpoints.None? || checkpoints.value == [] then Ok(None)
    else
      match JoinStrs(", ", checkpoints.value)
      case Ok(text) => Ok(Some(text))
      case Err(e) => Err(e)
  }

  /** The reply itself says `prompt_outputs_failed_validation`: its message and the checkpoint advice. */
  function FailedValidation(data: Obj, checkpoints: Option<seq<Json>>): Rejection
  {
    match AppendText(GetOr(data, "message", JStr(DefaultMessage)), ModelMissing)
    case Err(e) => Crashed(e)
    case Ok(withAdvice) =>
      match CheckpointText(checkpoints)
      case Err(e) => Crashed(e)
      case Ok(names) =>
        var tail := if names.Some? then "\nAvailable checkpoint models: " + names.value else "\n" + NoCheckpoints;
        match AppendText(withAdvice, tail)
        case Err(e) => Crashed(e)
        case Ok(message) => Invalid(PyStr(message))
  }

  /** A detail that names a `ckpt_name` outside the allowed list. */
  predicate CheckpointDetail(detail: string)
  {
    IsSubstring("not in list", detail) && IsSubstring("ckpt_name", detail)
  }

  /** The details as bullet lines. */
  function Bullets(details: seq<string>): seq<string>
  {
    seq(|details|, i requires 0 <= i < |details| => "• " + details[i])
  }

  /** The message listing the details, with the checkpoint advice when a detail calls for it. */
  function Detailed(message: Json, details: seq<string>, checkpoints: Option<seq<Json>>): Rejection
  {
    var listed := PyStr(message) + ":\n" + Join("\n", Bullets(details));
    if exists i | 0 <= i < |details| :: CheckpointDetail(details[i]) then
      match CheckpointText(checkpoints)
      case Err(e) => Crashed(e)
      case Ok(names) =>
        if names.Some? then Invalid(listed + "\n\nAvailable checkpoint models: " + names.value)
        else Invalid(listed + "\n\n" + NoCheckpoints)
    else Invalid(listed)
  }

  /**
   * What `queue_workflow` raises on a 400 reply whose text is `text` and
   * whose body parsed to `body` (None when it did not parse).
   */
  function BadRequest(body: Option<Obj>, text: string, objectInfo: Result<Json, string>): Rejection
  {
    match body
    case None => Invalid("ComfyUI validation failed (could not parse error response): " + text)
    case Some(data) =>
      match DetailLines(data)
      case Err(e) => Crashed(e)
      case Ok(details) =>
        if GetOr(data, "type", JNull) == JStr(FailedValidationType) then FailedValidation(data, AvailableCheckpoints(objectInfo))
        else if details != [] then Detailed(ErrorMessage(data), details, AvailableCheckpoints(objectInfo))
        else Invalid(PyStr(ErrorMessage(data)) + ". Raw response: " + text)
  }

  /** The 400 branch of `queue_workflow`, with its loop over the node errors. */
  method BadRequestError(body: Option<Obj>, text: string, objectInfo: Result<Json, string>) returns (r: Rejection)
    ensures r == BadRequest(body, text, objectInfo)
  {
    if body.None? {
      return Invalid("ComfyUI validation failed (could not parse error response): " + text);
    }
    var data := body.value;
    var errorMessage := ErrorMessage(data);
    var details: seq<string> := [];
    var nodeErrors := Get(data, "node_errors");
    if nodeErrors.Some? {
      if !nodeErrors.value.JObj? {
        return Crashed("'" + TypeName(nodeErrors.value) + "' object has no attribute 'items'");
      }
      details := NodeErrorDetails(nodeErrors.value.fields);
    }
    if GetOr(data, "type", JNull) == JStr(FailedValidationType) {
      return FailedValidation(data, AvailableCheckpoints(objectInfo));
    }
    if details != [] {
      return Detailed(errorMessage, details, AvailableCheckpoints(objectInfo));
    }
    r := Invalid(PyStr(errorMessage) + ". Raw response: " + text);
  }

  /**
   * The checkpoint list is consulted only for a reply of type
   * `prompt_outputs_failed_validation` or one with a detail about
   * `ckpt_name`: for any other reply the message does not depend on it.
   */
  lemma {:induction false} CheckpointsConsultedOnlyWhenNeeded(data: Obj, text: string, info1: Result<Json, string>, info2: Result<Json, string>)
    requires GetOr(data, "type", JNull) != JStr(FailedValidationType)
    requires DetailLines(data).Ok? ==> forall i | 0 <= i < |DetailLines(data).value| :: !CheckpointDetail(DetailLines(data).value[i])
    ensures BadRequest(Some(data), text, info1) == BadRequest(Some(data), text, info2)
  {
  }

  /**
   * A reply whose own type is `prompt_outputs_failed_validation` and whose
   * message is a string gives that message with the advice and the
   * available checkpoints, whatever its node errors say.
   */
  lemma {:induction false} FailedValidationMessage(data: Obj, text: string, names: seq<string>, objectInfo: Result<Json, string>)
    requires GetOr(data, "type", JNull) == JStr(FailedValidationType)
    requires DetailLines(data).Ok?
    requires GetOr(data, "message", JStr(DefaultMessage)).JStr?
    requires names != [] && AvailableCheckpoints(objectInfo) == Some(Strs(names).items)
    ensures BadRequest(Some(data), text, objectInfo) ==
              Invalid(GetOr(data, "message", JStr(DefaultMessage)).s + ModelMissing + "\nAvailable checkpoint models: " + Join(", ", names))
  {
    JoinStrsNames(", ", names);
    assert CheckpointText(Some(Strs(names).items)) == Ok(Some(Join(", ", names)));
  }

  // ----- the prompt id -----

  /** What the POST to `/prompt` did. */
  datatype QueueReply = Accepted(response: Json) | BadRequestReply(body: Option<Obj>, text: string) | RequestFailed(text: string)

  /**
   * The handler's `try` around `queue_workflow`: the prompt id, or the text
   * of the `{"error": …}` result. ValueErrors pass through; a
   * RequestException and any other exception are wrapped.
   */
  function QueuedPromptId(reply: QueueReply, objectInfo: Result<Json, string>): Result<Json, string>
  {
    match reply
    case RequestFailed(text) => Err("Error queuing workflow: " + text)
    case BadRequestReply(body, text) =>
      (match BadRequest(body, text, objectInfo)
       case Invalid(message) => Err(message)
       case Crashed(e) => Err("Unexpected error queuing workflow: " + e))
    case Accepted(response) =>
      if !response.JObj? then Err("Unexpected error queuing workflow: " + NoGet(response))
      else
        var promptId := GetOr(response.fields, "prompt_id", JNull);
        if Truthy(promptId) then Ok(promptId)
        else Err("Missing 'prompt_id' in queue response: " + PyStr(response))
  }

  /** The job proceeds exactly when the reply is a dict holding a non-empty prompt id, and then with that id. */
  lemma {:induction false} PromptIdRequired(reply: QueueReply, objectInfo: Result<Json, string>)
    ensures QueuedPromptId(reply, objectInfo).Ok? <==>
              reply.Accepted? && reply.response.JObj? && Truthy(GetOr(reply.response.fields, "prompt_id", JNull))
    ensures QueuedPromptId(reply, objectInfo).Ok? ==>
              QueuedPromptId(reply, objectInfo).value == GetOr(reply.response.fields, "prompt_id", JNull)
  {
  }
}
