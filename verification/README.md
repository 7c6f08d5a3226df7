# worker-comfyui job handler, modelled in Dafny

This project models the core of the worker-comfyui RunPod worker. It is the
job handler that receives a ComfyUI workflow and runs it on the local
ComfyUI server. It then returns the generated images and videos as base64
text or as S3 links. The model covers:

- **Input validation** (`validate_input`). A job's input is a dict, or its
  JSON text. It needs a `workflow` and, optionally, a list of `images`, each
  holding `name` and `image`.
- **Image upload** (`upload_images`). Each image's base64 text (after the
  first comma of a data URI) is decoded and posted to `/upload/image`. Every
  image leaves exactly one success or failure message.
- **Workflow node-id normalisation** (`normalize_workflow_for_caching`). It
  has two copies, in `send_request.py` and `test_workflow_normalization.py`.
  Every node gets a new id: a fixed name when its class_type is in a table,
  otherwise the class type's slug and a per-class counter. Every
  `[node_id, output_index]` input is then rewritten to the new ids. One
  generic normaliser takes the table as a parameter, and each copy is an
  instance of it.
- **Reachability probes** (`_comfy_server_status`, `check_server`) and the
  **websocket reconnect loop** (`_attempt_websocket_reconnect`).
- **Queueing**. This covers the checkpoint list extracted from
  `/object_info` (`get_available_models`) and the ValueError message
  `queue_workflow` builds from a 400 reply. It also covers the handler's
  check that the accepted reply names a `prompt_id`.
- **The execution monitor**. This is the `while True` loop over
  `ws.recv()`. It reacts to `status`, `progress`, `executing`,
  `execution_error` and `executed` frames, to receive timeouts with a
  liveness probe after 40 of them, and to dropped connections, which it
  hands to the reconnect loop.
- **Output collection and the final result**. The history entry's
  `outputs` are walked node by node, over `images` and then `gifs`. Temp
  files are skipped. Each file is fetched, then uploaded to S3 or base64
  encoded. The job's result is assembled from `output_data` and `errors`,
  or from the exception that ended the job.
- **The test client's `extract_images`**, which saves the base64 images of
  a job response.

Everything the worker gets from outside is a parameter of the model:

- the HTTP and websocket calls;
- the base64 and JSON codecs;
- the S3 upload;
- the file fetches.

Each such call is an oracle function, or an answer carried in the event
that triggers it. The receive loop of the monitor is a fold (`Monitor.Run`)
over the sequence of events it receives. Exceptions that Python would raise
on ill-typed JSON are modelled explicitly (as `Err` values carrying the
exception's text) wherever the worker catches them and turns them into a
result.

Each loop of the source is an imperative method proved equal to a
specification function. Examples: `Normalize.NormalizeIds`,
`Monitor.WaitForExecution`, `Collect.CollectOutputs`,
`Inputs.UploadImages`, `Queue.NodeErrorDetails`. Lemmas then state what
those functions guarantee. The per-frame dispatch and the result assembly
are therefore written twice: as the methods `Monitor.HandleMessage` and
`Collect.FetchResults`, which update variables as the handler does, and
as the functions `Monitor.OnMessage` and `Collect.Conclude`, which the
methods are proved equal to. Lemmas then pin those functions down in both
directions. `Monitor.MatchingFramesFinish` states that this prompt's
closing frames end the loop, and `Monitor.FinishedOnlyForPrompt` that
nothing else does. `Collect.FoundPromptAssembles` states that the result
of a found prompt is assembled from what its manifest delivered, and
`Collect.MissingPromptFails` and `Collect.NoOutputsFails` cover the other
outcomes.

Among the proved properties:

- Normalising never grows a workflow. It keeps every node exactly when the
  assigned ids are distinct.
- Every node of a class in the fixed table gets the same id. So two such
  nodes collapse into one (`NormalizeFacts.TablePeersCollapse`): the later
  node wins and the earlier one is dropped.
- The test script's table lacks `VHS_VideoCombine`, so it assigns the same
  ids as the handler's exactly when a workflow has at most one such node
  (`NormTest.IdsAgreeIff`), and so returns the same workflow whenever at
  most one such node exists (`NormTest.TablesAgree`). With more, the
  returned workflows can still coincide, for instance when later nodes of
  another class take over the colliding ids.
- The monitor's "loop exited without confirmation" error can never be
  raised.

## Model

| member | source | states |
|---|---|---|
| Normalize.NormalizeIds | handler.py:516-597 | the two passes of the normaliser compute `Normalized(t, w)` for the table `t` |
| Normalize.AssignIds | handler.py:554-575 | pass one builds exactly the old-to-new id map `IdMap(t, w)` |
| Normalize.NextId | handler.py:559-575 | one step of pass one: the node's new id, and the class counters advanced by that node alone |
| Normalize.RebuildWorkflow | handler.py:578-597 | pass two inserts every node under its new id, with its references rewritten, in iteration order |
| Normalize.RewriteNodeInputs | handler.py:581-593 | a node's copy has its reference-shaped inputs rewritten and nothing else changed |
| Normalize.RewriteReferences | handler.py:585-593 | the inner loop rewrites each two-element list whose stringified head is an old id, in place |
| Normalize.CountersAt | handler.py:555-572 | a class type has a counter exactly when it is outside the table and has been seen, and the counter is its count so far |
| Normalize.IdMapAt | handler.py:575 | each old id maps to the id its node was given |
| NormalizeFacts.RebuildKeys | handler.py:578-595 | the keys of pass two's output are the new ids of the nodes seen, without duplicates |
| NormalizeFacts.RebuildNodes | handler.py:578-595 | every output node is some input node with its references rewritten |
| NormalizeFacts.RebuildLastWins | handler.py:595 | a node whose id no later node shares ends up under that id |
| NormalizeFacts.RebuildInjective | handler.py:578-595 | with distinct new ids, pass two keeps every node in input order |
| NormalizeFacts.RebuildSize | handler.py:578-595 | pass two never grows the workflow, and keeps its size exactly when the new ids are distinct |
| NormalizeFacts.RewriteNodeFields | handler.py:581-593 | rewriting touches only `inputs`; the class type and every other field are kept |
| NormalizeFacts.RewriteValueResolves | handler.py:586-593 | a reference to an old id becomes a reference to a key of the output |
| NormalizeFacts.NormalizedKeys | handler.py:578-597 | the output's keys are exactly the assigned ids |
| NormalizeFacts.ReferencesResolve | handler.py:589-593 | every id a reference can be rewritten to is a key of the output |
| NormalizeFacts.NormalizedSize | handler.py:595 | the output is never larger than the input, and is as large exactly when the ids are distinct |
| NormalizeFacts.LaterNodeWins | handler.py:595 | nodes sharing an id collapse into one entry holding the last such node |
| NormalizeFacts.ResolutionPreserved | handler.py:584-593 | if every reference of the input names a node, so does every reference of the output |
| NormalizeFacts.SameClassesSameIds | handler.py:558-575 | the ids depend only on the sequence of class types |
| NormalizeFacts.IdsIdLike | handler.py:562-573 | every assigned id contains `_` and does not end in a bracket or brace, so only a string head can name one |
| NormalizeFacts.RewriteNodeFixed | handler.py:584-593 | a map sending each of its id-like keys to itself rewrites no node |
| NormalizeFacts.NormalizedInOrder | handler.py:578-597 | with distinct ids the output lists every node under its new id, in input order, class types kept |
| NormalizeFacts.NormalizeTwice | handler.py:516-597 | normalising an injectively normalised workflow again changes neither ids nor nodes |
| NormalizeFacts.TablePeersCollapse | handler.py:562-563 | two nodes of one table class get the same id, and the output has fewer nodes than the input |
| NormalizeFacts.RewriteNodeOk | handler.py:581-593 | a node the normaliser can process remains processable after rewriting |
| NormalizeFacts.NormalizedWellFormed | handler.py:558-597 | the output can be normalised again without raising |
| NormalizeFacts.HandlerTableIdLike | handler.py:537-551 | every fixed id of the handler's table has the shape of an assigned id |
| Client.NormalizeWorkflowNodeIds | send_request.py:175-247 | the client's copy returns exactly what the handler's normaliser returns |
| Client.NormalizeForSubmission | send_request.py:265-270 | the double normalisation before submission equals one pass whenever the first pass assigned distinct ids |
| Client.StripDataPrefix | send_request.py:155-158 | a `data:` value is cut after its first comma, and without a comma it raises IndexError; other values are kept |
| Client.ExtractImages | send_request.py:143-173 | the loop reports each entry's outcome in order, stopping at the first exception |
| Client.CommalessDataUriRaises | send_request.py:155-158 | a base64 entry whose `data:` text has no comma raises instead of being reported as unsaved |
| Client.DataUriPayloadSaved | send_request.py:155-166 | a `header,payload` entry hands exactly the payload to the decoder, and is saved exactly when decoding and writing succeed |
| NormTest.NormalizeWorkflowNodeIds | test_workflow_normalization.py:10-79 | the test script's copy is the generic normaliser over its own table |
| NormTest.TestTableIsHandlerTableWithoutVhs | test_workflow_normalization.py:20-33 | the test table is the handler's table without `VHS_VideoCombine` |
| NormTest.SlugVhs | test_workflow_normalization.py:55 | the first counted id of `VHS_VideoCombine` is the handler's fixed id for it |
| NormTest.IdsAgreeAt | test_workflow_normalization.py:40-57 | both tables give a node the same id except for a `VHS_VideoCombine` node after the first |
| NormTest.IdsAgreeIff | test_workflow_normalization.py:20-57 | both tables assign a workflow the same ids if and only if it has at most one `VHS_VideoCombine` node |
| NormTest.TablesAgree | test_workflow_normalization.py:10-79 | with at most one `VHS_VideoCombine` node the test copy and the handler agree |
| NormTest.TwoVhsNodesDiverge | test_workflow_normalization.py:40-77 | two `VHS_VideoCombine` nodes collapse into one in the handler and stay two in the test copy |
| NormTest.TwoVhsDiverge | test_workflow_normalization.py:10-79 | a concrete two-node workflow on which the copies disagree |
| NormTest.ReferenceErrors | test_workflow_normalization.py:138-148 | the nested scan loops collect exactly the dangling-reference messages |
| NormTest.InputReferenceErrors | test_workflow_normalization.py:141-148 | the inner scan loop collects the messages of one node's inputs |
| NormTest.InputErrorsEmpty | test_workflow_normalization.py:142-148 | a node's scan reports nothing exactly when each of its references resolves |
| NormTest.ScanErrorsEmpty | test_workflow_normalization.py:138-154 | the scan finds no error exactly when every reference-shaped input names a node |
| NormTest.TestNormalization | test_workflow_normalization.py:81-161 | the test passes exactly when the normalised workflow's references all resolve, and always when the original's do |
| Probe.ComfyServerStatus | handler.py:48-57 | reachable exactly on HTTP 200; the status code when the server answered, the exception text when it did not |
| Probe.CheckServer | handler.py:174-207 | true exactly when some attempt within `retries` got a 200; it stops at the first one and sleeps after every miss |
| Probe.AttemptWebsocketReconnect | handler.py:60-129 | probes before every connect, and returns the first socket; it gives up on an unreachable server, passes other exceptions on, and names the last error when the attempts run out |
| Monitor.HandleMessage | handler.py:743-785 | one parsed frame updates the loop's variables as `OnMessage` says, breaking only for this prompt |
| Monitor.WaitForExecution | handler.py:736-825 | the monitor loop ends as the fold `Run` over the received events |
| Monitor.FrameKeepsState | handler.py:743-785 | a parsed frame never raises the timeout count; when the loop goes on it keeps `execution_done`, the errors and the socket; it fails only with the error of a `.get` on a non-dict |
| Monitor.OnEventKeepsBound | handler.py:789-802 | a turn that carries on keeps the timeout count below 40 |
| Monitor.MatchingFramesFinish | handler.py:762-778 | this prompt's `executing` frame with no node sets `execution_done` and breaks; its `execution_error` frame appends exactly its one message and breaks |
| Monitor.FinishedOnlyForPrompt | handler.py:762-778 | the loop breaks only on this prompt's `executing` frame with no node (marking it done) or its `execution_error` (recording the error) |
| Monitor.OtherPromptIgnored | handler.py:762-785 | frames about another prompt leave the loop's state unchanged |
| Monitor.ReconnectTransparent | handler.py:803-816 | after a successful reconnect the loop carries on from the same state on the new socket |
| Monitor.RunKeepsBound | handler.py:789-802 | the timeout count stays below the limit while the loop waits |
| Monitor.OnEventKeepsOutcome | handler.py:740-825 | a turn that carries on neither clears `execution_done` nor drops errors |
| Monitor.OnEventTimeouts | handler.py:789-802 | only a timeout raises the count: below 40 by exactly one with nothing else changed; at 40 a reachable server resets it to 0 and an unreachable one ends the loop with "server became unreachable", which nothing else raises |
| Monitor.FramesResetCount | handler.py:747-787 | `status`, `progress`, `executing` with a node and `executed` for this prompt reset the count to 0 and change nothing else; non-text frames and frames of any other `type` change nothing |
| Monitor.UnreachableAfterTimeouts | handler.py:789-797 | "server became unreachable" comes only after at least 40 receive timeouts in all |
| Monitor.FinishedConcludes | handler.py:740-830 | whenever the loop breaks, execution finished or an error was recorded |
| Monitor.NoUnconfirmedExit | handler.py:827-830 | the post-loop "exited without confirmation" ValueError can never be raised |
| Collect.CollectEntries | handler.py:864-946 | the loop over one node's `images` or `gifs` appends the items and error messages of its entries, stopping at the first exception |
| Collect.CollectNode | handler.py:858-1047 | one node contributes its images and then its videos |
| Collect.CollectOutputs | handler.py:858-1047 | the loop over `outputs.items()` accumulates every node's items and messages in order |
| Collect.Assemble | handler.py:1070-1093 | the result has `error` exactly when no file was produced and some error was recorded; otherwise it has the files, their errors, or `success_no_files` |
| Collect.FetchResults | handler.py:834-1093 | the history lookup, the no-outputs warning, the collection and the final result together give `Conclude` |
| Collect.SkippedIffTemp | handler.py:870-874 | an entry is skipped silently exactly when its type is `temp` |
| Collect.SectionBalance | handler.py:864-946 | every entry that is not temp yields exactly one delivered file or one error message |
| Collect.EntryDelivered | handler.py:882-943 | a delivered file records its filename, the delivery type (`s3_url` with a bucket, `base64` without) and its data |
| Collect.SectionDelivered | handler.py:887-943 | every file delivered from a node section is a well-formed output item |
| Collect.ManifestDelivered | handler.py:858-1047 | every file in `output_data` is a well-formed output item of the configured delivery type |
| Collect.OtherKeysIgnored | handler.py:1038-1047 | an output key other than `images` and `gifs`, wherever it sits in the node's dict, changes nothing that is collected |
| Collect.MissingPromptFails | handler.py:836-846 | a prompt missing from the history fails the job, with the monitor's errors as details when there are any |
| Collect.FoundPromptAssembles | handler.py:848-1093 | for a prompt found in the history, the result assembles the items every node delivered, in manifest order, with the monitor's errors (or the "No outputs found" warning) followed by each entry's own message |
| Collect.FoundPromptRaises | handler.py:848-1064 | an exception while collecting a found prompt's outputs gives the "An unexpected error occurred" result |
| Collect.NoOutputsFails | handler.py:848-856 | a prompt with no outputs fails the job; the "No outputs found" warning is its detail only when nothing else was recorded |
| Collect.MonitorLeadsToHistory | handler.py:827-834 | every monitor run that breaks goes on to the history lookup with the errors it recorded |
| Inputs.AllNamedHolds | handler.py:162-164 | the `all(...)` check passes exactly when every image holds `name` and `image` |
| Inputs.ValidatedExactly | handler.py:144-171 | a dict input is accepted exactly when it has a workflow and well-formed images, and what is accepted is its own workflow and images |
| Inputs.TextInputParsed | handler.py:148-152 | a JSON text input is validated as the dict it parses to |
| Inputs.UploadImages | handler.py:210-291 | the loop appends one message per image to the successes or the failures, and reports `UploadReport` |
| Inputs.NonAsciiUnexpected | handler.py:232-276 | base64 text with a non-ASCII character is reported as "Unexpected error uploading <name>: string argument should contain only ASCII characters", whatever the decoder would say |
| Inputs.OneMessageEach | handler.py:228-276 | every image leaves exactly one message |
| Inputs.NoFailuresIffAllUploaded | handler.py:278-291 | there are no failure messages exactly when every image was uploaded |
| Inputs.UploadAccounting | handler.py:220-291 | the report is an error exactly when some image failed, with one message per image in all |
| Inputs.DataUriPayload | handler.py:234-236 | a data URI is decoded from just after its first comma, later commas kept |
| Inputs.PlainBase64Kept | handler.py:237-239 | text without a comma is decoded as it stands |
| Queue.CheckpointsFound | handler.py:294-320 | from any `/object_info` dict, whatever other classes and keys it has, whose `CheckpointLoaderSimple`/`input`/`required`/`ckpt_name` path holds a non-empty list, the checkpoints are its first element when that is a list and `[]` otherwise |
| Queue.NoLoaderNoCheckpoints | handler.py:308-320 | without a `CheckpointLoaderSimple` class, `checkpoints` is not set |
| Queue.JoinStrsOk | handler.py:388 | joining the checkpoint names succeeds exactly when every name is a string |
| Queue.JoinStrsErr | handler.py:388 | joining raises the TypeError of the first name that is not a string |
| Queue.NodeErrorDetails | handler.py:369-377 | the loop over `node_errors` produces one line per error entry of a dict node error and one per other node error |
| Queue.AppendEntryDetails | handler.py:372-375 | the inner loop appends one `Node id (type): message` line per entry |
| Queue.NoDetailsIff | handler.py:369-377 | no detail line is produced exactly when every node error is an empty dict |
| Queue.BadRequestError | handler.py:348-421 | the 400 branch raises the message `BadRequest` describes |
| Queue.CheckpointsConsultedOnlyWhenNeeded | handler.py:380-412 | the checkpoint list affects the message only for `prompt_outputs_failed_validation` or a `ckpt_name ... not in list` detail |
| Queue.FailedValidationMessage | handler.py:380-393 | that error type gives its message, the model advice and the available checkpoints, whatever the node errors say |
| Queue.PromptIdRequired | handler.py:714-721 | the job proceeds exactly when the accepted reply is a dict with a non-empty `prompt_id`, and proceeds with that id |

## Left out

- Networking, time, randomness, the S3 upload, file reads and writes, and
  the base64 and JSON codecs are oracle parameters. Sleeps are counted,
  not timed, and nothing is executed.
- Printing and logging (every `print`, including the unhandled-output-key
  warning) are left out, because they do not affect results.
- The `finally` that closes the websocket, and the temporary files written
  before an S3 upload, are not modelled.
- `configure_model_caching`, `get_history`, `get_image_data` and
  `get_video_data` are not part of this model. Their answers are oracles.
- The `send_request.py` client's job submission and polling are not part of
  this model. Only its normaliser, its double normalisation and
  `extract_images` are.
- Monitor.HandleMessage: does not model the percentage computed from a
  `progress` frame (`value / max * 100`), which exists only to be printed.
  A non-numeric `value` or `max` would raise TypeError there; the model
  instead resets the timeout count as for any progress frame.
- Monitor.WaitForExecution: the events are a finite sequence. When they
  run out before the loop ends, the result is `Waiting`, where the source
  would block on `ws.recv()`.
- Probe.AttemptWebsocketReconnect: the text of an exception other than
  the caught connection errors is taken as given, not derived.
- Collect.FetchResults: the prompt id is a string. The handler's check
  only guarantees a truthy value, and ComfyUI always returns a string.
- Queue.BadRequestError: a 400 body that parses to a value other than a
  dict is not modelled; `body` is a dict or absent.
- Normalize.NormalizeIds: requires a well-formed workflow (dict nodes,
  string class types, dict inputs). On anything else the source raises
  outside every `try` and the job crashes, which is not modelled.
- Dict keys and lists are compared by position, so two Python dicts with
  the same entries in another order are distinct values in the model.
- Strings are sequences of characters. The slug lowers ASCII letters only,
  with no Unicode case mapping.
