/**
 * The test client of send_request.py: its copy of the node-id normaliser,
 * the double normalisation `main` applies before submitting a workflow,
 * and `extract_images`, which walks the `images` list of a job response and
 * saves base64 images or reports S3 links.
 */
module Client {
  import opened Wrappers
  import opened Dict
  import opened Json
  import opened Normalize
  import opened NormalizeFacts

  /** The table of send_request.py, kept in step with handler.py's by hand. */
  const ClientTable: Table := map[
    "LoadDiffusionModelShared //Inspire" := "model_loader_1",
    "CLIPLoader" := "clip_loader_1",
    "VAELoader" := "vae_loader_1",
    "CLIPVisionLoader" := "clip_vision_loader_1",
    "WanImageToVideo" := "wan_i2v_1",
    "LoadImage" := "load_image_1",
    "CLIPVisionEncode" := "clip_vision_encode_1",
    "ModelSamplingSD3" := "model_sampling_1",
    "KSampler" := "ksampler_1",
    "VAEDecode" := "vae_decode_1",
    "CLIPTextEncode" := "clip_text_encode",
    "SaveAnimatedWEBP" := "save_webp_1",
    "VHS_VideoCombine" := "vhs_videocombine_1"
  ]

  /** The client's normaliser returns exactly what the server's would for the same workflow. */
  method NormalizeWorkflowNodeIds(w: Workflow) returns (r: Workflow)
    requires WellFormed(w)
    ensures r == Normalized(HandlerTable, w)
  {
    r := NormalizeIds(w, ClientTable);
  }

  /**
   * `main` normalises the loaded workflow twice. The second pass always
   * applies (its input is again well formed), and when the first pass
   * assigned distinct ids it changes nothing.
   */
  method NormalizeForSubmission(w: Workflow) returns (r: Workflow)
    requires WellFormed(w)
    ensures r == Normalized(HandlerTable, Normalized(HandlerTable, w))
    ensures Injective(Ids(HandlerTable, w)) ==> r == Normalized(HandlerTable, w)
  {
    var once := NormalizeWorkflowNodeIds(w);
    NormalizedWellFormed(HandlerTable, w);
    r := NormalizeWorkflowNodeIds(once);
    if Injective(Ids(HandlerTable, w)) {
      HandlerTableIdLike();
      NormalizeTwice(HandlerTable, w);
    }
  }

  // ----- extract_images -----

  /** What `extract_images` reports for one entry of `images`. */
  datatype Shown =
    | Saved(filename: Json, size: nat)
    | SaveFailed(filename: Json)
    | S3Link(url: Json)
    | UnknownType(imageType: Json)

  /**
   * The base64 text to decode: after the first comma when the value starts
   * with `data:`. The split is outside the `try`, so such a value without a
   * comma raises IndexError.
   */
  function StripDataPrefix(data: string): (r: Result<string, string>)
    ensures !StartsWith(data, "data:") ==> r == Ok(data)
    ensures StartsWith(data, "data:") && ',' !in data ==> r == Err("IndexError")
    ensures StartsWith(data, "data:") && ',' in data ==>
              r.Ok? && |r.value| < |data| &&
              var cut := |data| - |r.value|;
              data[cut - 1] == ',' && ',' !in data[..cut - 1] && data[cut..] == r.value
  {
    if StartsWith(data, "data:") then
      if ',' in data then Ok(AfterFirstComma(data)) else Err("IndexError")
    else Ok(data)
  }

  /**
   * One entry of `images`, at position `i`. `save(filename, text)` stands
   * for the `try` block that base64-decodes `text` and writes the bytes to
   * `filename`: the number of bytes written, or None when it raised.
   * Exceptions raised outside that block are an `Err` naming their class.
   */
  function ShowImage(i: nat, image: Json, save: (Json, string) -> Option<nat>): Result<Shown, string>
  {
    match image
    case JObj(fields) =>
      var filename := GetOr(fields, "filename", JStr("image_" + NatToString(i)));
      var imageType := GetOr(fields, "type", JStr("unknown"));
      if imageType == JStr("base64") then
        match GetOr(fields, "data", JStr(""))
        case JStr(data) =>
          (match StripDataPrefix(data)
           case Ok(text) =>
             (match save(filename, text)
              case Some(size) => Ok(Saved(filename, size))
              case None => Ok(SaveFailed(filename)))
           case Err(e) => Err(e))
        case _ => Err("AttributeError")
      else if imageType == JStr("s3_url") then Ok(S3Link(GetOr(fields, "data", JStr(""))))
      else Ok(UnknownType(imageType))
    case _ => Err("AttributeError")
  }

  /** Every entry's outcome, in order. */
  function Outcomes(items: seq<Json>, save: (Json, string) -> Option<nat>): (rs: seq<Result<Shown, string>>)
    ensures |rs| == |items|
    ensures forall j | 0 <= j < |items| :: rs[j] == ShowImage(j, items[j], save)
  {
    seq(|items|, j requires 0 <= j < |items| => ShowImage(j, items[j], save))
  }

  /**
   * `extract_images(response)`. `'images' in output` and `output['images']`
   * raise TypeError on anything but a dict (a list or str holding "images"
   * passes the first test and fails the second); `len(images)` needs a
   * sized value, and iterating a non-empty dict or str yields strings,
   * whose `.get` raises AttributeError.
   */
  function Extract(response: Obj, save: (Json, string) -> Option<nat>): Result<seq<Shown>, string>
  {
    match GetOr(response, "output", JObj([]))
    case JObj(output) =>
      (match Get<Json>(output, "images")
       case None => Ok([])
       case Some(JList(items)) => Collect(Outcomes(items, save))
       case Some(JObj(f)) => if f == [] then Ok([]) else Err("AttributeError")
       case Some(JStr(s)) => if s == [] then Ok([]) else Err("AttributeError")
       case Some(_) => Err("TypeError"))
    case JList(items) => if JStr("images") in items then Err("TypeError") else Ok([])
    case JStr(s) => if IsSubstring("images", s) then Err("TypeError") else Ok([])
    case _ => Err("TypeError")
  }

  /** The loop of `extract_images`, stopping at the first exception. */
  method ExtractImages(response: Obj, save: (Json, string) -> Option<nat>) returns (r: Result<seq<Shown>, string>)
    ensures r == Extract(response, save)
  {
    var output := GetOr(response, "output", JObj([]));
    if !output.JObj? {
      r := Extract(response, save);
      return;
    }
    var images := Get(output.fields, "images");
    if !(images.Some? && images.value.JList?) {
      r := Extract(response, save);
      return;
    }
    var items := images.value.items;
    ghost var rs := Outcomes(items, save);
    var shown: seq<Shown> := [];
    var i := 0;
    while i < |items|
      invariant i <= |items|
      invariant Collect(rs[..i]) == Ok(shown)
    {
      var s := ShowImage(i, items[i], save);
      if s.Err? {
        CollectFails(rs, i, shown);
        ExtractOfList(response, output.fields, items, save);
        return Err(s.error);
      }
      CollectStep(rs, i, shown);
      shown := shown + [s.value];
      i := i + 1;
    }
    assert rs[..i] == rs;
    ExtractOfList(response, output.fields, items, save);
    r := Ok(shown);
  }

  /** When `output['images']` is a list, the result is the loop over it. */
  lemma {:induction false} ExtractOfList(response: Obj, output: Obj, items: seq<Json>, save: (Json, string) -> Option<nat>)
    requires GetOr(response, "output", JObj([])) == JObj(output)
    requires Get(output, "images") == Some(JList(items))
    ensures Extract(response, save) == Collect(Outcomes(items, save))
  {
  }

  /**
   * A base64 entry whose text starts with `data:` but holds no comma
   * raises IndexError instead of being reported as a failed save.
   */
  lemma {:induction false} CommalessDataUriRaises(i: nat, fields: Obj, data: string, save: (Json, string) -> Option<nat>)
    requires GetOr(fields, "type", JStr("unknown")) == JStr("base64")
    requires GetOr(fields, "data", JStr("")) == JStr(data)
    requires StartsWith(data, "data:") && ',' !in data
    ensures ShowImage(i, JObj(fields), save) == Err("IndexError")
  {
  }

  /**
   * A base64 entry `header,payload` with a comma-free `data:` header hands
   * exactly `payload` to the decoder, and is reported as saved exactly when
   * decoding and writing succeed.
   */
  lemma {:induction false} DataUriPayloadSaved(i: nat, fields: Obj, header: string, payload: string, save: (Json, string) -> Option<nat>)
    requires GetOr(fields, "type", JStr("unknown")) == JStr("base64")
    requires GetOr(fields, "data", JStr("")) == JStr(header + "," + payload)
    requires StartsWith(header, "data:") && ',' !in header
    ensures var filename := GetOr(fields, "filename", JStr("image_" + NatToString(i)));
            ShowImage(i, JObj(fields), save) ==
              if save(filename, payload).Some? then Ok(Saved(filename, save(filename, payload).value))
              else Ok(SaveFailed(filename))
  {
    AfterFirstCommaSplit(header, payload);
    assert StartsWith(header + "," + payload, "data:") by {
      assert (header + "," + payload)[..|header|] == header;
    }
  }
}
