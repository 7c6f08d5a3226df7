/**
 * The checks a job's input goes through before its workflow is queued:
 * `validate_input`, which accepts a dict (or its JSON text) holding a
 * workflow and an optional list of named images, and `upload_images`,
 * which posts each image to ComfyUI and collects one message per image.
 */
module Inputs {
  import opened Wrappers
  import opened Dict
  import opened Json

  type Bytes = seq<bv8>

  // ----- validate_input -----

  /** What `validate_input` returns (data or error message), or the exception it raises. */
  datatype Validation = Validated(workflow: Json, images: Json) | Rejected(message: string) | Raised(text: string)

  const ImagesShape := "'images' must be a list of objects with 'name' and 'image' keys"

  /** `"name" in image and "image" in image` holds. */
  predicate Named(image: Json)
  {
    Contains(image, "name") == Some(true) && Contains(image, "image") == Some(true)
  }

  /**
   * `all("name" in image and "image" in image for image in images)`: stops
   * at the first image that fails; `in` raises on a value that is not a
   * container.
   */
  function AllNamed(images: seq<Json>): Result<bool, string>
  {
    if images == [] then Ok(true)
    else
      match Contains(images[0], "name")
      case None => Err("argument of type '" + TypeName(images[0]) + "' is not iterable")
      case Some(hasName) =>
        if !hasName || Contains(images[0], "image") != Some(true) then Ok(false)
        else AllNamed(images[1..])
  }

  /**
   * `validate_input(job_input)`; `parse` is `json.loads`, None when it
   * raises. A parsed value that is not a dict makes `.get` raise.
   */
  function ValidateInput(jobInput: Json, parse: string -> Option<Json>): Validation
  {
    if jobInput == JNull then Rejected("Please provide input")
    else
      var parsed := if jobInput.JStr? then parse(jobInput.s) else Some(jobInput);
      match parsed
      case None => Rejected("Invalid JSON format in input")
      case Some(input) =>
        if !input.JObj? then Raised(NoGet(input))
        else
          var workflow := GetOr(input.fields, "workflow", JNull);
          var images := GetOr(input.fields, "images", JNull);
          if workflow == JNull then Rejected("Missing 'workflow' parameter")
          else if images == JNull then Validated(workflow, images)
          else if !images.JList? then Rejected(ImagesShape)
          else
            match AllNamed(images.items)
            case Err(e) => Raised(e)
            case Ok(named) => if named then Validated(workflow, images) else Rejected(ImagesShape)
  }

  /** The check passes exactly when every image has both keys. */
  lemma {:induction false} AllNamedHolds(images: seq<Json>)
    ensures AllNamed(images) == Ok(true) <==> forall i | 0 <= i < |images| :: Named(images[i])
  {
    if images != [] {
      AllNamedHolds(images[1..]);
      if forall i | 0 <= i < |images[1..]| :: Named(images[1..][i]) {
        if Named(images[0]) {
          forall i | 0 <= i < |images|
            ensures Named(images[i])
          {
            if i > 0 {
              assert images[i] == images[1..][i - 1];
            }
          }
        }
      }
      if forall i | 0 <= i < |images| :: Named(images[i]) {
        assert Named(images[0]);
        forall i | 0 <= i < |images[1..]|
          ensures Named(images[1..][i])
        {
          assert images[1..][i] == images[i + 1];
        }
      }
    }
  }

  /**
   * A dict input is accepted exactly when it has a workflow and its images,
   * if any, are a list of values each holding `name` and `image`; what is
   * accepted is the input's own workflow and images.
   */
  lemma {:induction false} ValidatedExactly(input: Obj, parse: string -> Option<Json>)
    ensures var images := GetOr(input, "images", JNull);
            ValidateInput(JObj(input), parse).Validated? <==>
              GetOr(input, "workflow", JNull) != JNull &&
              (images == JNull || (images.JList? && forall i | 0 <= i < |images.items| :: Named(images.items[i])))
    ensures ValidateInput(JObj(input), parse).Validated? ==>
              ValidateInput(JObj(input), parse) == Validated(GetOr(input, "workflow", JNull), GetOr(input, "images", JNull))
  {
    var images := GetOr(input, "images", JNull);
    if images.JList? {
      AllNamedHolds(images.items);
    }
  }

  /** A JSON string is validated as the dict it parses to. */
  lemma {:induction false} TextInputParsed(text: string, parse: string -> Option<Json>)
    requires parse(text).Some? && parse(text).value.JObj?
    ensures ValidateInput(JStr(text), parse) == ValidateInput(parse(text).value, parse)
  {
  }

  // ----- upload_images -----

  /** What the POST to `/upload/image` did. */
  datatype PostOutcome = Posted | TimedOut | RequestError(text: string) | PostRaised(text: string)

  /** The message one image leaves: in `responses` or in `upload_errors`. */
  datatype ImageReport = Uploaded(message: string) | UploadFailed(message: string)

  /**
   * The text handed to the base64 decoder: what follows the first comma
   * when the value holds one (for a string, `"," in s` is a character
   * test), the value itself otherwise. Splitting anything but a string
   * raises, and so does `in` on a value that is not a container.
   */
  function Base64Text(uri: Json): Result<Json, string>
  {
    if uri.JStr? then
      if ',' in uri.s then Ok(JStr(AfterFirstComma(uri.s))) else Ok(uri)
    else
      match Contains(uri, ",")
      case None => Err("argument of type '" + TypeName(uri) + "' is not iterable")
      case Some(hasComma) =>
        if hasComma then Err("'" + TypeName(uri) + "' object has no attribute 'split'") else Ok(uri)
  }

  /** Whether every character of `s` is ASCII, as `b64decode` demands of a `str`. */
  predicate IsAscii(s: string)
  {
    forall i | 0 <= i < |s| :: s[i] as int < 128
  }

  /** The ValueError `b64decode` raises on a `str` holding a non-ASCII character. */
  const NonAsciiText := "string argument should contain only ASCII characters"

  /**
   * One pass of the loop of `upload_images`. `decode` is
   * `base64.b64decode` on ASCII text (its binascii error text), `post`
   * the upload.
   * KeyError prints as the quoted key. An image that is not a dict fails
   * at `image["name"]`, and the `except` clause's own `image.get` raises.
   */
  function UploadOne(image: Json, decode: string -> Result<Bytes, string>, post: (Json, Bytes) -> PostOutcome)
    : Result<ImageReport, string>
  {
    match image
    case JObj(fields) =>
      var shown := PyStr(GetOr(fields, "name", JStr("unknown")));
      (match Get<Json>(fields, "name")
       case None => Ok(UploadFailed("Unexpected error uploading " + shown + ": 'name'"))
       case Some(name) =>
         match Get<Json>(fields, "image")
         case None => Ok(UploadFailed("Unexpected error uploading " + shown + ": 'image'"))
         case Some(uri) =>
           match Base64Text(uri)
           case Err(e) => Ok(UploadFailed("Unexpected error uploading " + shown + ": " + e))
           case Ok(text) =>
             if !text.JStr? then
               Ok(UploadFailed("Unexpected error uploading " + shown
                 + ": argument should be a bytes-like object or ASCII string, not '" + TypeName(text) + "'"))
             else if !IsAscii(text.s) then
               Ok(UploadFailed("Unexpected error uploading " + shown + ": " + NonAsciiText))
             else
               match decode(text.s)
               case Err(e) => Ok(UploadFailed("Error decoding base64 for " + shown + ": " + e))
               case Ok(blob) =>
                 match post(name, blob)
                 case Posted => Ok(Uploaded("Successfully uploaded " + PyStr(name)))
                 case TimedOut => Ok(UploadFailed("Timeout uploading " + shown))
                 case RequestError(t) => Ok(UploadFailed("Error uploading " + shown + ": " + t))
                 case PostRaised(t) => Ok(UploadFailed("Unexpected error uploading " + shown + ": " + t)))
    case _ => Err(NoGet(image))
  }

  function UploadResults(images: seq<Json>, decode: string -> Result<Bytes, string>, post: (Json, Bytes) -> PostOutcome)
    : (rs: seq<Result<ImageReport, string>>)
    ensures |rs| == |images|
    ensures forall j | 0 <= j < |images| :: rs[j] == UploadOne(images[j], decode, post)
  {
    seq(|images|, j requires 0 <= j < |images| => UploadOne(images[j], decode, post))
  }

  /** `responses`: the success messages, in order. */
  function Successes(rs: seq<ImageReport>): seq<string>
  {
    if rs == [] then []
    else Successes(rs[..|rs| - 1]) + (if rs[|rs| - 1].Uploaded? then [rs[|rs| - 1].message] else [])
  }

  /** `upload_errors`: the failure messages, in order. */
  function Failures(rs: seq<ImageReport>): seq<string>
  {
    if rs == [] then []
    else Failures(rs[..|rs| - 1]) + (if rs[|rs| - 1].UploadFailed? then [rs[|rs| - 1].message] else [])
  }

  /** The dict `upload_images` returns. */
  function Report(status: string, message: string, details: seq<string>): Json
  {
    JObj([("status", JStr(status)), ("message", JStr(message)), ("details", Strs(details))])
  }

  /** `upload_images(images)`: the report, or the exception that escaped. */
  function UploadReport(images: seq<Json>, decode: string -> Result<Bytes, string>, post: (Json, Bytes) -> PostOutcome)
    : Result<Json, string>
  {
    if images == [] then Ok(Report("success", "No images to upload", []))
    else
      match Collect(UploadResults(images, decode, post))
      case Err(e) => Err(e)
      case Ok(rs) =>
        if Failures(rs) != [] then Ok(Report("error", "Some images failed to upload", Failures(rs)))
        else Ok(Report("success", "All images uploaded successfully", Successes(rs)))
  }

  /** The loop of `upload_images`, appending to `responses` and `upload_errors`. */
  method UploadImages(images: seq<Json>, decode: string -> Result<Bytes, string>, post: (Json, Bytes) -> PostOutcome)
    returns (r: Result<Json, string>)
    ensures r == UploadReport(images, decode, post)
  {
    if images == [] {
      return Ok(Report("success", "No images to upload", []));
    }
    ghost var rs := UploadResults(images, decode, post);
    ghost var reports: seq<ImageReport> := [];
    var responses: seq<string> := [];
    var uploadErrors: seq<string> := [];
    var i := 0;
    while i < |images|
      invariant i <= |images|
      invariant Collect(rs[..i]) == Ok(reports)
      invariant responses == Successes(reports) && uploadErrors == Failures(reports)
    {
      var one := UploadOne(images[i], decode, post);
      if one.Err? {
        CollectFails(rs, i, reports);
        UploadReportOfResults(images, decode, post);
        return Err(one.error);
      }
      match one.value {
        case Uploaded(message) =>
          responses := responses + [message];
        case UploadFailed(message) =>
          uploadErrors := uploadErrors + [message];
      }
      CollectStep(rs, i, reports);
      ReportAppended(reports, one.value);
      reports := reports + [one.value];
      i := i + 1;
    }
    assert rs[..i] == rs;
    UploadReportOfResults(images, decode, post);
    if uploadErrors != [] {
      return Ok(Report("error", "Some images failed to upload", uploadErrors));
    }
    r := Ok(Report("success", "All images uploaded successfully", responses));
  }

  /** One more report extends the successes or the failures by its message. */
  lemma {:induction false} ReportAppended(rs: seq<ImageReport>, x: ImageReport)
    ensures Successes(rs + [x]) == Successes(rs) + (if x.Uploaded? then [x.message] else [])
    ensures Failures(rs + [x]) == Failures(rs) + (if x.UploadFailed? then [x.message] else [])
  {
    assert (rs + [x])[..|rs|] == rs;
  }

  /** For a non-empty list the report is decided by the loop over the images. */
  lemma {:induction false} UploadReportOfResults(images: seq<Json>, decode: string -> Result<Bytes, string>, post: (Json, Bytes) -> PostOutcome)
    requires images != []
    ensures UploadReport(images, decode, post) ==
              match Collect(UploadResults(images, decode, post))
              case Err(e) => Err(e)
              case Ok(rs) =>
                if Failures(rs) != [] then Ok(Report("error", "Some images failed to upload", Failures(rs)))
                else Ok(Report("success", "All images uploaded successfully", Successes(rs)))
  {
  }

  /** Every image leaves exactly one message, a success or a failure. */
  lemma {:induction false} OneMessageEach(rs: seq<ImageReport>)
    ensures |Successes(rs)| + |Failures(rs)| == |rs|
  {
    if rs != [] {
      OneMessageEach(rs[..|rs| - 1]);
    }
  }

  /** There are no failure messages exactly when every image was uploaded. */
  lemma {:induction false} NoFailuresIffAllUploaded(rs: seq<ImageReport>)
    ensures Failures(rs) == [] <==> forall j | 0 <= j < |rs| :: rs[j].Uploaded?
  {
    if rs != [] {
      var init := rs[..|rs| - 1];
      NoFailuresIffAllUploaded(init);
      assert forall j | 0 <= j < |init| :: init[j] == rs[j];
    }
  }

  /**
   * When no exception escapes, the report is an error exactly when some
   * image failed, and it carries one message per image.
   */
  lemma {:induction false} UploadAccounting(images: seq<Json>, decode: string -> Result<Bytes, string>, post: (Json, Bytes) -> PostOutcome)
    requires images != [] && Collect(UploadResults(images, decode, post)).Ok?
    ensures var rs := Collect(UploadResults(images, decode, post)).value;
            |Successes(rs)| + |Failures(rs)| == |images| &&
            ((UploadReport(images, decode, post).value == Report("error", "Some images failed to upload", Failures(rs))) <==>
             (exists j | 0 <= j < |images| :: UploadOne(images[j], decode, post).Ok? && UploadOne(images[j], decode, post).value.UploadFailed?))
  {
    var results := UploadResults(images, decode, post);
    CollectOk(results);
    var rs := Collect(results).value;
    OneMessageEach(rs);
    NoFailuresIffAllUploaded(rs);
    if Failures(rs) == [] {
      assert UploadReport(images, decode, post).value != Report("error", "Some images failed to upload", Failures(rs)) by {
        assert "success" != "error";
      }
    }
  }

  /** The text of a data URI is decoded from just after its first comma, commas and all. */
  lemma {:induction false} DataUriPayload(header: string, payload: string)
    requires ',' !in header
    ensures Base64Text(JStr(header + "," + payload)) == Ok(JStr(payload))
  {
    AfterFirstCommaSplit(header, payload);
  }

  /**
   * Base64 text holding a non-ASCII character never reaches the decoder:
   * `b64decode` raises a ValueError, which is not a `binascii.Error`, so
   * the image is reported under "Unexpected error uploading".
   */
  lemma {:induction false} NonAsciiUnexpected(fields: Obj, name: Json, uri: Json, text: string,
                                              decode: string -> Result<Bytes, string>, post: (Json, Bytes) -> PostOutcome)
    requires Get(fields, "name") == Some(name) && Get(fields, "image") == Some(uri)
    requires Base64Text(uri) == Ok(JStr(text)) && !IsAscii(text)
    ensures UploadOne(JObj(fields), decode, post)
            == Ok(UploadFailed("Unexpected error uploading " + PyStr(name) + ": " + NonAsciiText))
  {
  }

  /** A string without a comma is decoded as it stands. */
  lemma {:induction false} PlainBase64Kept(text: string)
    requires ',' !in text
    ensures Base64Text(JStr(text)) == Ok(JStr(text))
  {
  }
}
