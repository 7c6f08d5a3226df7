/**
 * What the handler does once the monitor loop has ended: it reads the
 * prompt's history manifest, fetches every non-temporary image and video
 * it lists, hands each one over as an S3 link or as base64 text, and
 * assembles the job's result dict, mapping any exception to an error
 * result. The ComfyUI `/view` endpoint, the S3 upload and the base64
 * encoder are oracles in `Services`.
 */
module Collect {
  import opened Wrappers
  import opened Dict
  import opened Json
  import opened Monitor

  type Bytes = seq<bv8>

  /** An entry of a node's `images` list or of its `gifs` list. */
  datatype Kind = Image | Video

  function Noun(kind: Kind): string
  {
    if kind == Image then "image" else "video"
  }

  /** The node-output key listing artifacts of this kind. */
  function Key(kind: Kind): string
  {
    if kind == Image then "images" else "gifs"
  }

  /** The `type` an entry is taken to have when it names none. */
  function DefaultType(kind: Kind): Json
  {
    if kind == Image then JNull else JStr("output")
  }

  /**
   * The outside world. `bucket` says whether `BUCKET_ENDPOINT_URL` is set;
   * `fetch(kind, filename, subfolder, type)` is `get_image_data` or
   * `get_video_data` (the content, None when the request failed);
   * `upload(filename, bytes)` writes a temporary file and uploads it (the
   * URL, or the text of the exception); `encode(bytes)` is the base64 step.
   */
  datatype Services = Services(
    bucket: bool,
    fetch: (Kind, Json, Json, Json) -> Option<Bytes>,
    upload: (string, Bytes) -> Result<string, string>,
    encode: Bytes -> Result<string, string>)

  /** What one manifest entry contributes: nothing, one output, or one error. */
  datatype Outcome = Skipped | Produced(item: Json) | Problem(message: string)

  /** An element of `output_data`. */
  function OutputItem(filename: string, itemType: string, data: string): Json
  {
    JObj([("filename", JStr(filename)), ("type", JStr(itemType)), ("data", JStr(data))])
  }

  /** The `type` every delivered artifact carries. */
  function DeliveryType(bucket: bool): string
  {
    if bucket then "s3_url" else "base64"
  }

  function MissingFilename(nodeId: string, kind: Kind, entry: Json): string
  {
    "Skipping " + Noun(kind) + " in node " + nodeId + " due to missing filename: " + PyStr(entry)
  }

  function FetchFailed(kind: Kind, filename: Json): string
  {
    "Failed to fetch " + Noun(kind) + " data for " + PyStr(filename) + " from /view endpoint."
  }

  /** `len(v)` on a value without a length. */
  function NoLen(v: Json): string
  {
    "object of type '" + TypeName(v) + "' has no len()"
  }

  /** The fetched bytes handed over by upload or by encoding. */
  function Persist(s: Services, filename: string, bytes: Bytes): Outcome
  {
    if s.bucket then
      match s.upload(filename, bytes)
      case Ok(url) => Produced(OutputItem(filename, "s3_url", url))
      case Err(e) => Problem("Error uploading " + filename + " to S3: " + e)
    else
      match s.encode(bytes)
      case Ok(text) => Produced(OutputItem(filename, "base64", text))
      case Err(e) => Problem("Error encoding " + filename + " to base64: " + e)
  }

  /**
   * One entry of node `nodeId`'s list: temporary entries are skipped, an
   * entry without a filename and a fetch that brought nothing are errors.
   * `os.path.splitext` runs outside every `try`, so a filename that is not
   * a string raises once its bytes have arrived; so does `.get` on an
   * entry that is not a dict.
   */
  function EntryOutcome(s: Services, nodeId: string, kind: Kind, entry: Json): Result<Outcome, string>
  {
    match entry
    case JObj(info) =>
      var filename := GetOr(info, "filename", JNull);
      var subfolder := GetOr(info, "subfolder", JStr(""));
      var fileType := GetOr(info, "type", DefaultType(kind));
      if fileType == JStr("temp") then Ok(Skipped)
      else if !Truthy(filename) then Ok(Problem(MissingFilename(nodeId, kind, entry)))
      else
        var fetched := s.fetch(kind, filename, subfolder, fileType);
        if fetched.None? || fetched.value == [] then Ok(Problem(FetchFailed(kind, filename)))
        else if !filename.JStr? then Err("expected str, bytes or os.PathLike object, not " + TypeName(filename))
        else Ok(Persist(s, filename.s, fetched.value))
    case _ => Err(NoGet(entry))
  }

  /** Every entry's outcome, in order. */
  function EntryResults(s: Services, nodeId: string, kind: Kind, entries: seq<Json>): (rs: seq<Result<Outcome, string>>)
    ensures |rs| == |entries|
    ensures forall j | 0 <= j < |entries| :: rs[j] == EntryOutcome(s, nodeId, kind, entries[j])
  {
    seq(|entries|, j requires 0 <= j < |entries| => EntryOutcome(s, nodeId, kind, entries[j]))
  }

  /**
   * The values `for x in v` visits after `len(v)` succeeded: a list's
   * items, a dict's keys, a string's characters.
   */
  function Iterated(v: Json): Result<seq<Json>, string>
  {
    match v
    case JList(items) => Ok(items)
    case JObj(fields) => Ok(seq(|fields|, i requires 0 <= i < |fields| => JStr(fields[i].0)))
    case JStr(text) => Ok(seq(|text|, i requires 0 <= i < |text| => JStr([text[i]])))
    case _ => Err(NoLen(v))
  }

  /** The entries under `images` (or `gifs`) of one node's output dict. */
  function Section(s: Services, nodeId: string, kind: Kind, node: Obj): Result<seq<Outcome>, string>
  {
    match Get<Json>(node, Key(kind))
    case None => Ok([])
    case Some(v) =>
      match Iterated(v)
      case Err(e) => Err(e)
      case Ok(entries) => Collect(EntryResults(s, nodeId, kind, entries))
  }

  /** The exception an output that is not a dict raises. */
  function NodeOutputError(v: Json): string
  {
    if Contains(v, "images").None? then "argument of type '" + TypeName(v) + "' is not iterable"
    else if Contains(v, "images") == Some(true) || Contains(v, "gifs") == Some(true) then
      (if v.JList? then "list indices must be integers or slices, not str" else "string indices must be integers, not 'str'")
    else "'" + TypeName(v) + "' object has no attribute 'keys'"
  }

  /** One node's output: its images, then its videos; any other key is only reported in the log. */
  function NodeOutcomes(s: Services, nodeId: string, nodeOutput: Json): Result<seq<Outcome>, string>
  {
    match nodeOutput
    case JObj(node) =>
      (match Section(s, nodeId, Image, node)
       case Err(e) => Err(e)
       case Ok(images) =>
         match Section(s, nodeId, Video, node)
         case Err(e) => Err(e)
         case Ok(videos) => Ok(images + videos))
    case _ => Err(NodeOutputError(nodeOutput))
  }

  /** Every node's result, in the manifest's order. */
  function NodeResults(s: Services, nodes: Obj): (rs: seq<Result<seq<Outcome>, string>>)
    ensures |rs| == |nodes|
    ensures forall j | 0 <= j < |nodes| :: rs[j] == NodeOutcomes(s, nodes[j].0, nodes[j].1)
  {
    seq(|nodes|, j requires 0 <= j < |nodes| => NodeOutcomes(s, nodes[j].0, nodes[j].1))
  }

  function Flatten<T>(groups: seq<seq<T>>): seq<T>
  {
    if groups == [] then [] else Flatten(groups[..|groups| - 1]) + groups[|groups| - 1]
  }

  /** The whole manifest: `outputs.items()` needs a dict, after `len(outputs)` needed a length. */
  function ManifestOutcomes(s: Services, outputs: Json): Result<seq<Outcome>, string>
  {
    match outputs
    case JObj(nodes) =>
      (match Collect(NodeResults(s, nodes))
       case Ok(groups) => Ok(Flatten(groups))
       case Err(e) => Err(e))
    case JList(_) => Err("'list' object has no attribute 'items'")
    case JStr(_) => Err("'str' object has no attribute 'items'")
    case _ => Err(NoLen(outputs))
  }

  /** The outputs among the outcomes, in order. */
  function Items(os: seq<Outcome>): seq<Json>
  {
    if os == [] then []
    else Items(os[..|os| - 1]) + (if os[|os| - 1].Produced? then [os[|os| - 1].item] else [])
  }

  /** The errors among the outcomes, in order. */
  function Problems(os: seq<Outcome>): seq<string>
  {
    if os == [] then []
    else Problems(os[..|os| - 1]) + (if os[|os| - 1].Problem? then [os[|os| - 1].message] else [])
  }

  /** `output_data` and `errors` as the collection loop leaves them. */
  datatype Collected = Collected(outputData: seq<Json>, errors: seq<string>)

  /** The lists after the outcomes `r` were appended to `c`, unless an exception escaped. */
  function Extend(c: Collected, r: Result<seq<Outcome>, string>): Result<Collected, string>
  {
    match r
    case Ok(os) => Ok(Collected(c.outputData + Items(os), c.errors + Problems(os)))
    case Err(e) => Err(e)
  }

  // ----- the collection loops -----

  /** The loop over one node's `images` (or `gifs`) list. */
  method CollectEntries(s: Services, nodeId: string, kind: Kind, entries: seq<Json>, c: Collected)
    returns (r: Result<Collected, string>)
    ensures r == Extend(c, Collect(EntryResults(s, nodeId, kind, entries)))
  {
    ghost var rs := EntryResults(s, nodeId, kind, entries);
    ghost var handled: seq<Outcome> := [];
    var outputData, errors := c.outputData, c.errors;
    var i := 0;
    while i < |entries|
      invariant i <= |entries|
      invariant Collect(rs[..i]) == Ok(handled)
      invariant outputData == c.outputData + Items(handled)
      invariant errors == c.errors + Problems(handled)
    {
      var outcome := EntryOutcome(s, nodeId, kind, entries[i]);
      if outcome.Err? {
        CollectFails(rs, i, handled);
        return Err(outcome.error);
      }
      match outcome.value {
        case Skipped =>
        case Produced(item) =>
          outputData := outputData + [item];
        case Problem(message) =>
          errors := errors + [message];
      }
      CollectStep(rs, i, handled);
      OutcomeAppended(c.outputData, c.errors, handled, outcome.value);
      handled := handled + [outcome.value];
      i := i + 1;
    }
    assert rs[..i] == rs;
    r := Ok(Collected(outputData, errors));
  }

  /** The body of the loop over the manifest, for the node `nodeId`. */
  method CollectNode(s: Services, nodeId: string, nodeOutput: Json, c: Collected) returns (r: Result<Collected, string>)
    ensures r == Extend(c, NodeOutcomes(s, nodeId, nodeOutput))
  {
    if !nodeOutput.JObj? {
      return Err(NodeOutputError(nodeOutput));
    }
    var node := nodeOutput.fields;
    var afterImages := c;
    var images := Get(node, "images");
    if images.Some? {
      var entries := Iterated(images.value);
      if entries.Err? {
        return Err(entries.error);
      }
      var step := CollectEntries(s, nodeId, Image, entries.value, c);
      if step.Err? {
        return step;
      }
      afterImages := step.value;
    } else {
      assert c.outputData + Items([]) == c.outputData && c.errors + Problems([]) == c.errors;
    }
    assert Ok(afterImages) == Extend(c, Section(s, nodeId, Image, node));
    var afterVideos := afterImages;
    var videos := Get(node, "gifs");
    if videos.Some? {
      var entries := Iterated(videos.value);
      if entries.Err? {
        return Err(entries.error);
      }
      var step := CollectEntries(s, nodeId, Video, entries.value, afterImages);
      if step.Err? {
        return step;
      }
      afterVideos := step.value;
    } else {
      assert afterImages.outputData + Items([]) == afterImages.outputData;
      assert afterImages.errors + Problems([]) == afterImages.errors;
    }
    assert Ok(afterVideos) == Extend(afterImages, Section(s, nodeId, Video, node));
    ExtendAppend(c, Section(s, nodeId, Image, node).value, Section(s, nodeId, Video, node).value);
    r := Ok(afterVideos);
  }

  /** The loop over `outputs.items()`. */
  method CollectOutputs(s: Services, nodes: Obj, c: Collected) returns (r: Result<Collected, string>)
    ensures r == Extend(c, ManifestOutcomes(s, JObj(nodes)))
  {
    ghost var rs := NodeResults(s, nodes);
    ghost var groups: seq<seq<Outcome>> := [];
    var collected := c;
    assert c.outputData + Items(Flatten(groups)) == c.outputData;
    assert c.errors + Problems(Flatten(groups)) == c.errors;
    var i := 0;
    while i < |nodes|
      invariant i <= |nodes|
      invariant Collect(rs[..i]) == Ok(groups)
      invariant Ok(collected) == Extend(c, Ok(Flatten(groups)))
    {
      var (nodeId, nodeOutput) := nodes[i];
      var step := CollectNode(s, nodeId, nodeOutput, collected);
      if step.Err? {
        CollectFails(rs, i, groups);
        ManifestOfNodes(s, nodes);
        return step;
      }
      ghost var g := NodeOutcomes(s, nodeId, nodeOutput).value;
      CollectStep(rs, i, groups);
      FlattenAppended(groups, g);
      ExtendAppend(c, Flatten(groups), g);
      groups := groups + [g];
      collected := step.value;
      i := i + 1;
    }
    assert rs[..i] == rs;
    ManifestOfNodes(s, nodes);
    r := Ok(collected);
  }

  /** The manifest of a dict is the loop over its nodes. */
  lemma {:induction false} ManifestOfNodes(s: Services, nodes: Obj)
    ensures ManifestOutcomes(s, JObj(nodes)) ==
              match Collect(NodeResults(s, nodes))
              case Ok(groups) => Ok(Flatten(groups))
              case Err(e) => Err(e)
  {
  }

  /** Appending one outcome to those behind `outputData` and `errors` extends one of them by it. */
  lemma {:induction false} OutcomeAppended(outputData: seq<Json>, errors: seq<string>, os: seq<Outcome>, o: Outcome)
    ensures outputData + Items(os + [o]) == outputData + Items(os) + (if o.Produced? then [o.item] else [])
    ensures errors + Problems(os + [o]) == errors + Problems(os) + (if o.Problem? then [o.message] else [])
  {
    assert (os + [o])[..|os|] == os;
  }

  lemma {:induction false} FlattenAppended<T>(groups: seq<seq<T>>, g: seq<T>)
    ensures Flatten(groups + [g]) == Flatten(groups) + g
  {
    assert (groups + [g])[..|groups|] == groups;
  }

  // ----- the result -----

  /** `{"error": message}` */
  function ErrorResult(message: string): Json
  {
    JObj([("error", JStr(message))])
  }

  /** `{"error": message, "details": details}` */
  function FailedResult(message: string, details: seq<string>): Json
  {
    JObj([("error", JStr(message)), ("details", Strs(details))])
  }

  /**
   * The result dict built after the `try`: the outputs and any errors; a
   * failure when errors came without outputs; `success_no_files` when
   * there was neither.
   */
  function Assemble(outputData: seq<Json>, errors: seq<string>): (r: Json)
    ensures r.JObj? && (Get(r.fields, "error").Some? <==> outputData == [] && errors != [])
    ensures outputData != [] ==>
              Get(r.fields, "images") == Some(JList(outputData)) &&
              Get(r.fields, "errors") == (if errors == [] then None else Some(Strs(errors)))
    ensures outputData == [] && errors != [] ==>
              Get(r.fields, "error") == Some(JStr("Job processing failed")) && Get(r.fields, "details") == Some(Strs(errors))
    ensures outputData == [] && errors == [] ==>
              Get(r.fields, "status") == Some(JStr("success_no_files")) && Get(r.fields, "images") == Some(JList([]))
  {
    if outputData == [] then
      if errors == [] then JObj([("status", JStr("success_no_files")), ("images", JList([]))])
      else FailedResult("Job processing failed", errors)
    else if errors == [] then JObj([("images", JList(outputData))])
    else
      var fields := [("images", JList(outputData)), ("errors", Strs(errors))];
      assert Get(fields[1..], "error") == None;
      JObj(fields)
  }

  /** The exceptions the handler's outer `try` catches, by the clause that catches them. */
  datatype Raised =
    | WebSocketError(text: string)
    | HttpError(text: string)
    | ValueErr(text: string)
    | OtherError(text: string)

  /** The result each `except` clause returns. */
  function ExceptionResult(e: Raised): Json
  {
    match e
    case WebSocketError(text) => ErrorResult("WebSocket communication error: " + text)
    case HttpError(text) => ErrorResult("HTTP communication error with ComfyUI: " + text)
    case ValueErr(text) => ErrorResult(text)
    case OtherError(text) => ErrorResult("An unexpected error occurred: " + text)
  }

  function NotInHistory(promptId: string): string
  {
    "Prompt ID " + promptId + " not found in history after execution."
  }

  function NoOutputs(promptId: string): string
  {
    "No outputs found in history for prompt " + promptId + "."
  }

  /**
   * From `get_history` on: `history` is what the request returned (the
   * text of a RequestException otherwise); `errors` is what the monitor
   * recorded.
   */
  function Conclude(s: Services, promptId: string, errors: seq<string>, history: Result<Json, string>): Json
  {
    match history
    case Err(e) => ExceptionResult(HttpError(e))
    case Ok(h) =>
      match Contains(h, promptId)
      case None => ExceptionResult(OtherError("argument of type '" + TypeName(h) + "' is not iterable"))
      case Some(false) =>
        if errors == [] then ErrorResult(NotInHistory(promptId))
        else FailedResult("Job processing failed, prompt ID not found in history.", errors + [NotInHistory(promptId)])
      case Some(true) =>
        if !h.JObj? then ExceptionResult(OtherError(NoGet(h)))
        else
          var entry := GetOr(h.fields, promptId, JObj([]));
          if !entry.JObj? then ExceptionResult(OtherError(NoGet(entry)))
          else
            var outputs := GetOr(entry.fields, "outputs", JObj([]));
            var reported := if !Truthy(outputs) && errors == [] then [NoOutputs(promptId)] else errors;
            match ManifestOutcomes(s, outputs)
            case Err(e) => ExceptionResult(OtherError(e))
            case Ok(os) => Assemble(Items(os), reported + Problems(os))
  }

  /** The handler from `get_history` to its `return`. */
  method FetchResults(s: Services, promptId: string, errors: seq<string>, history: Result<Json, string>)
    returns (result: Json)
    ensures result == Conclude(s, promptId, errors, history)
  {
    if history.Err? {
      return ExceptionResult(HttpError(history.error));
    }
    var h := history.value;
    var found := Contains(h, promptId);
    if found.None? {
      return ExceptionResult(OtherError("argument of type '" + TypeName(h) + "' is not iterable"));
    }
    var errs := errors;
    if !found.value {
      var message := NotInHistory(promptId);
      if errs == [] {
        return ErrorResult(message);
      }
      errs := errs + [message];
      return FailedResult("Job processing failed, prompt ID not found in history.", errs);
    }
    if !h.JObj? {
      return ExceptionResult(OtherError(NoGet(h)));
    }
    var entry := GetOr(h.fields, promptId, JObj([]));
    if !entry.JObj? {
      return ExceptionResult(OtherError(NoGet(entry)));
    }
    var outputs := GetOr(entry.fields, "outputs", JObj([]));
    if !Truthy(outputs) && errs == [] {
      errs := errs + [NoOutputs(promptId)];
    }
    assert errs == if !Truthy(outputs) && errors == [] then [NoOutputs(promptId)] else errors;
    if !outputs.JObj? {
      var raised := ManifestOutcomes(s, outputs);
      return ExceptionResult(OtherError(raised.error));
    }
    var collected := CollectOutputs(s, outputs.fields, Collected([], errs));
    if collected.Err? {
      return ExceptionResult(OtherError(collected.error));
    }
    assert [] + Items(ManifestOutcomes(s, outputs).value) == Items(ManifestOutcomes(s, outputs).value);
    result := Assemble(collected.value.outputData, collected.value.errors);
  }

  /** How the monitor's exceptions reach the outer handler. */
  function MonitorRaised(f: Failure): Raised
  {
    match f
    case Unexpected(text) => OtherError(text)
    case _ => WebSocketError(FailureText(f))
  }

  const UnconfirmedExit := "Workflow monitoring loop exited without confirmation of completion or error."

  /**
   * The handler after the workflow was queued as `promptId`, given how the
   * monitor loop ended; None while it is still waiting.
   */
  function AfterMonitor(s: Services, promptId: string, step: Step, history: Result<Json, string>): Option<Json>
  {
    match step
    case Waiting(_) => None
    case Failed(f) => Some(ExceptionResult(MonitorRaised(f)))
    case Finished(w) =>
      if !w.done && w.errors == [] then Some(ExceptionResult(ValueErr(UnconfirmedExit)))
      else Some(Conclude(s, promptId, w.errors, history))
  }

  // ----- properties -----

  lemma {:induction false} ItemsAppend(a: seq<Outcome>, b: seq<Outcome>)
    ensures Items(a + b) == Items(a) + Items(b)
    decreases |b|
  {
    if b == [] {
      assert a + b == a;
    } else {
      assert (a + b)[..|a + b| - 1] == a + b[..|b| - 1];
      ItemsAppend(a, b[..|b| - 1]);
    }
  }

  lemma {:induction false} ProblemsAppend(a: seq<Outcome>, b: seq<Outcome>)
    ensures Problems(a + b) == Problems(a) + Problems(b)
    decreases |b|
  {
    if b == [] {
      assert a + b == a;
    } else {
      assert (a + b)[..|a + b| - 1] == a + b[..|b| - 1];
      ProblemsAppend(a, b[..|b| - 1]);
    }
  }

  /** Appending outcomes in two steps is appending them at once. */
  lemma {:induction false} ExtendAppend(c: Collected, a: seq<Outcome>, b: seq<Outcome>)
    ensures Extend(c, Ok(a + b)) == Extend(Extend(c, Ok(a)).value, Ok(b))
  {
    ItemsAppend(a, b);
    ProblemsAppend(a, b);
    assert c.outputData + (Items(a) + Items(b)) == (c.outputData + Items(a)) + Items(b);
    assert c.errors + (Problems(a) + Problems(b)) == (c.errors + Problems(a)) + Problems(b);
  }

  /** `type == "temp"`, with the kind's default. */
  predicate IsTemp(kind: Kind, entry: Json)
  {
    entry.JObj? && GetOr(entry.fields, "type", DefaultType(kind)) == JStr("temp")
  }

  /** How many entries are not temporary. */
  function NonTemp(kind: Kind, entries: seq<Json>): nat
  {
    if entries == [] then 0
    else NonTemp(kind, entries[..|entries| - 1]) + (if IsTemp(kind, entries[|entries| - 1]) then 0 else 1)
  }

  /** An entry is skipped exactly when it is temporary; otherwise it yields an output or an error. */
  lemma {:induction false} SkippedIffTemp(s: Services, nodeId: string, kind: Kind, entry: Json)
    requires EntryOutcome(s, nodeId, kind, entry).Ok?
    ensures EntryOutcome(s, nodeId, kind, entry).value.Skipped? <==> IsTemp(kind, entry)
  {
  }

  lemma {:induction false} BalancePrefix(kind: Kind, entries: seq<Json>, os: seq<Outcome>, n: nat)
    requires |os| == |entries| && n <= |entries|
    requires forall j | 0 <= j < |entries| :: os[j].Skipped? <==> IsTemp(kind, entries[j])
    ensures |Items(os[..n])| + |Problems(os[..n])| == NonTemp(kind, entries[..n])
  {
    if n > 0 {
      BalancePrefix(kind, entries, os, n - 1);
      assert os[..n][..n - 1] == os[..n - 1];
      assert entries[..n][..n - 1] == entries[..n - 1];
    }
  }

  /**
   * When a node's list is processed without an exception, every
   * non-temporary entry yields exactly one output or exactly one error.
   */
  lemma {:induction false} SectionBalance(s: Services, nodeId: string, kind: Kind, entries: seq<Json>)
    requires Collect(EntryResults(s, nodeId, kind, entries)).Ok?
    ensures var os := Collect(EntryResults(s, nodeId, kind, entries)).value;
            |Items(os)| + |Problems(os)| == NonTemp(kind, entries)
  {
    var rs := EntryResults(s, nodeId, kind, entries);
    CollectOk(rs);
    var os := Collect(rs).value;
    forall j | 0 <= j < |entries| ensures os[j].Skipped? <==> IsTemp(kind, entries[j]) {
      SkippedIffTemp(s, nodeId, kind, entries[j]);
    }
    BalancePrefix(kind, entries, os, |entries|);
    assert os[..|entries|] == os;
    assert entries[..|entries|] == entries;
  }

  /** A delivered artifact's `type` is `s3_url` with a bucket and `base64` without. */
  predicate Delivered(bucket: bool, item: Json)
  {
    item.JObj? && Get(item.fields, "type") == Some(JStr(DeliveryType(bucket)))
  }

  predicate AllDelivered(bucket: bool, os: seq<Outcome>)
  {
    forall j | 0 <= j < |os| :: os[j].Produced? ==> Delivered(bucket, os[j].item)
  }

  /**
   * A delivered entry records its filename, the delivery type and what the
   * upload (its URL) or the encoder (its text) returned for the bytes
   * fetched with the entry's filename, subfolder and type.
   */
  lemma {:induction false} EntryDelivered(s: Services, nodeId: string, kind: Kind, entry: Json)
    requires EntryOutcome(s, nodeId, kind, entry).Ok?
    ensures AllDelivered(s.bucket, [EntryOutcome(s, nodeId, kind, entry).value])
    ensures var o := EntryOutcome(s, nodeId, kind, entry).value;
            o.Produced? ==>
              entry.JObj? &&
              var filename := GetOr(entry.fields, "filename", JNull);
              var fetched := s.fetch(kind, filename, GetOr(entry.fields, "subfolder", JStr("")),
                                     GetOr(entry.fields, "type", DefaultType(kind)));
              filename.JStr? && fetched.Some? && fetched.value != [] &&
              var data := if s.bucket then s.upload(filename.s, fetched.value) else s.encode(fetched.value);
              data.Ok? && o.item == OutputItem(filename.s, DeliveryType(s.bucket), data.value)
  {
    var o := EntryOutcome(s, nodeId, kind, entry).value;
    if o.Produced? {
      var item := o.item;
      assert item == OutputItem(item.fields[0].1.s, DeliveryType(s.bucket), item.fields[2].1.s);
      assert Get(item.fields[1..], "type") == Some(JStr(DeliveryType(s.bucket)));
    }
  }

  lemma {:induction false} SectionDelivered(s: Services, nodeId: string, kind: Kind, node: Obj)
    requires Section(s, nodeId, kind, node).Ok?
    ensures AllDelivered(s.bucket, Section(s, nodeId, kind, node).value)
  {
    match Get<Json>(node, Key(kind))
    case None =>
    case Some(v) =>
      var entries := Iterated(v).value;
      var rs := EntryResults(s, nodeId, kind, entries);
      CollectOk(rs);
      forall j | 0 <= j < |entries|
        ensures Collect(rs).value[j].Produced? ==> Delivered(s.bucket, Collect(rs).value[j].item)
      {
        EntryDelivered(s, nodeId, kind, entries[j]);
      }
  }

  lemma {:induction false} FlattenDelivered(bucket: bool, groups: seq<seq<Outcome>>)
    requires forall j | 0 <= j < |groups| :: AllDelivered(bucket, groups[j])
    ensures AllDelivered(bucket, Flatten(groups))
  {
    if groups != [] {
      FlattenDelivered(bucket, groups[..|groups| - 1]);
    }
  }

  lemma {:induction false} ItemsDelivered(bucket: bool, os: seq<Outcome>)
    requires AllDelivered(bucket, os)
    ensures forall j | 0 <= j < |Items(os)| :: Delivered(bucket, Items(os)[j])
  {
    if os != [] {
      ItemsDelivered(bucket, os[..|os| - 1]);
    }
  }

  /**
   * Every output of a manifest processed without an exception has the
   * `type` that the persistence strategy dictates: `s3_url` when a bucket
   * is configured, `base64` otherwise.
   */
  lemma {:induction false} ManifestDelivered(s: Services, outputs: Json)
    requires ManifestOutcomes(s, outputs).Ok?
    ensures forall j | 0 <= j < |Items(ManifestOutcomes(s, outputs).value)| ::
              Delivered(s.bucket, Items(ManifestOutcomes(s, outputs).value)[j])
  {
    var nodes := outputs.fields;
    var rs := NodeResults(s, nodes);
    CollectOk(rs);
    var groups := Collect(rs).value;
    forall j | 0 <= j < |groups|
      ensures AllDelivered(s.bucket, groups[j])
    {
      NodeDelivered(s, nodes[j].0, nodes[j].1);
    }
    ManifestOfNodes(s, nodes);
    FlattenDelivered(s.bucket, groups);
    ItemsDelivered(s.bucket, Flatten(groups));
  }

  lemma {:induction false} NodeDelivered(s: Services, nodeId: string, nodeOutput: Json)
    requires NodeOutcomes(s, nodeId, nodeOutput).Ok?
    ensures AllDelivered(s.bucket, NodeOutcomes(s, nodeId, nodeOutput).value)
  {
    var node := nodeOutput.fields;
    SectionDelivered(s, nodeId, Image, node);
    SectionDelivered(s, nodeId, Video, node);
  }

  /**
   * A node-output key other than `images` and `gifs`, wherever it sits in
   * the node's dict, changes nothing that is collected.
   */
  lemma {:induction false} OtherKeysIgnored(s: Services, nodeId: string, before: Obj, key: string, value: Json, after: Obj)
    requires key != "images" && key != "gifs"
    ensures NodeOutcomes(s, nodeId, JObj(before + [(key, value)] + after)) == NodeOutcomes(s, nodeId, JObj(before + after))
  {
    GetInsertOther(before, key, value, after, "images");
    GetInsertOther(before, key, value, after, "gifs");
  }

  /**
   * A prompt missing from the history dict ends the job with an error; the
   * errors recorded so far, followed by the message, become its details.
   */
  lemma {:induction false} MissingPromptFails(s: Services, promptId: string, errors: seq<string>, h: Obj)
    requires promptId !in Keys(h)
    ensures Conclude(s, promptId, errors, Ok(JObj(h))) ==
              if errors == [] then ErrorResult(NotInHistory(promptId))
              else FailedResult("Job processing failed, prompt ID not found in history.", errors + [NotInHistory(promptId)])
  {
  }

  /**
   * A prompt found in the history is concluded from its manifest: the
   * result's `images` are the items every node delivered, in manifest
   * order, and its errors are the monitor's errors (or the "No outputs
   * found" warning when there are neither outputs nor errors) followed by
   * each entry's own message.
   */
  lemma {:induction false} FoundPromptAssembles(s: Services, promptId: string, errors: seq<string>, h: Obj, entry: Obj)
    requires Get(h, promptId) == Some(JObj(entry))
    requires ManifestOutcomes(s, GetOr(entry, "outputs", JObj([]))).Ok?
    ensures var outputs := GetOr(entry, "outputs", JObj([]));
            var os := ManifestOutcomes(s, outputs).value;
            var reported := if !Truthy(outputs) && errors == [] then [NoOutputs(promptId)] else errors;
            Conclude(s, promptId, errors, Ok(JObj(h))) == Assemble(Items(os), reported + Problems(os))
  {
    FoundPrompt(h, promptId, entry);
  }

  /** An exception while collecting a found prompt's manifest becomes the "unexpected error" result. */
  lemma {:induction false} FoundPromptRaises(s: Services, promptId: string, errors: seq<string>, h: Obj, entry: Obj)
    requires Get(h, promptId) == Some(JObj(entry))
    requires ManifestOutcomes(s, GetOr(entry, "outputs", JObj([]))).Err?
    ensures Conclude(s, promptId, errors, Ok(JObj(h)))
            == ExceptionResult(OtherError(ManifestOutcomes(s, GetOr(entry, "outputs", JObj([]))).error))
  {
    FoundPrompt(h, promptId, entry);
  }

  lemma {:induction false} FoundPrompt(h: Obj, promptId: string, entry: Obj)
    requires Get(h, promptId) == Some(JObj(entry))
    ensures Contains(JObj(h), promptId) == Some(true)
    ensures GetOr(h, promptId, JObj([])) == JObj(entry)
  {
    GetKeys(h, promptId);
  }

  /**
   * A prompt with no outputs fails the job; the "No outputs found" warning
   * is its only detail when the monitor recorded no error, and is left out
   * when it did.
   */
  lemma {:induction false} NoOutputsFails(s: Services, promptId: string, errors: seq<string>, h: Obj)
    requires Get(h, promptId).Some? && Get(h, promptId).value.JObj?
    requires GetOr(Get(h, promptId).value.fields, "outputs", JObj([])) == JObj([])
    ensures Conclude(s, promptId, errors, Ok(JObj(h))) ==
              FailedResult("Job processing failed", if errors == [] then [NoOutputs(promptId)] else errors)
  {
    GetKeys(h, promptId);
    assert ManifestOutcomes(s, JObj([])) == Ok([]) by {
      assert Collect(NodeResults(s, [])) == Ok([]);
      assert Flatten<Outcome>([]) == [];
    }
    var reported := if errors == [] then [NoOutputs(promptId)] else errors;
    assert reported + Problems([]) == reported;
  }

  /**
   * When the monitor loop ran to its `break`, the handler goes on to the
   * history: the "exited without confirmation" ValueError is never
   * returned.
   */
  lemma {:induction false} MonitorLeadsToHistory(s: Services, promptId: string, socket: nat, events: seq<Event>, history: Result<Json, string>)
    requires Run(JStr(promptId), Start(socket), events).Finished?
    ensures AfterMonitor(s, promptId, Run(JStr(promptId), Start(socket), events), history) ==
              Some(Conclude(s, promptId, Run(JStr(promptId), Start(socket), events).w.errors, history))
  {
    NoUnconfirmedExit(JStr(promptId), socket, events);
  }
}
