/** The image tool `generate_image_with_lora`: build a one-LoRA configuration, send its request map to the
    image model, take the first image's url, base64-decode the text after its first comma (up to the next one, if any), and turn every
    failure on the way into an error string instead of an exception. */
module ImageTool {
  import W = Wrappers
  import opened PyValues
  import opened Base64
  import opened FalPayload

  /** The image handed back to the caller. */
  datatype Image = Image(data: seq<Byte>, format: string)

  /** What the tool returns: an image, or the error text it returns in place of raising. */
  datatype Outcome = Ok(image: Image) | Err(message: string)

  const ModelId: string := "fal-ai/flux-lora"
  const TriggerWord: string := "Esteban"
  const ErrorPrefix: string := "Error generating image: "

  /** The image model's reply to one request: the response map, or the message of the exception the
      client raised. */
  type Subscribe = (string, Value) -> W.Result<Value>

  /** The configuration the tool builds: the caller's prompt and image count, the dataclass defaults
      otherwise, and exactly one LoRA at `loraPath` with scale 1.0 and trigger word "Esteban". */
  function RequestConfig(prompt: string, numImages: int, loraPath: string): (c: Config)
    ensures c.prompt == prompt && c.numImages == numImages
    ensures c.loras == [Lora(loraPath, 1.0, TriggerWord)]
    ensures c.syncMode && c.imageSize == "landscape_4_3" && c.numInferenceSteps == 28
    ensures c.guidanceScale == 3.5 && c.enableSafetyChecker && c.outputFormat == "png"
  {
    Config(prompt, [Lora(loraPath, triggerWord := TriggerWord)], syncMode := true, numImages := numImages)
  }

  /** The request map sent to the model. */
  function Request(prompt: string, numImages: int, loraPath: string): (r: Value)
    ensures r.Dict? && r.fields.Keys == ConfigKeys()
    ensures r.fields["prompt"] == Str(prompt) && r.fields["num_images"] == Int(numImages)
    ensures r.fields["loras"] == List([Dict(map["path" := Str(loraPath), "scale" := Float(1.0)])])
  {
    Dict(ConfigToDict(RequestConfig(prompt, numImages, loraPath)))
  }

  /** The message of the AttributeError raised by calling `.split` on a non-string. */
  function NoSplitMessage(v: Value): string
  {
    "'" + TypeName(v) + "' object has no attribute 'split'"
  }

  /** The body of the `try`: `result["images"][0]["url"].split(",")[1]`, base64-decoded. */
  function ExtractImage(result: Value): (r: W.Result<Image>)
    ensures r.Ok? ==> r.value.format == "png"
  {
    var images :- GetItem(result, "images");
    var imageData :- GetFirst(images);
    var url :- GetItem(imageData, "url");
    if !url.Str? then W.Err(NoSplitMessage(url))
    else
      var parts := Split(url.s, ',');
      if |parts| < 2 then W.Err(IndexOutOfRange)
      else
        var bytes :- Decode(parts[1]);
        W.Ok(Image(bytes, "png"))
  }

  /** The `except` clause: any exception becomes the prefixed message, returned rather than raised. */
  function Contain(reply: W.Result<Value>): (r: Outcome)
    ensures r.Err? ==> ErrorPrefix <= r.message
    ensures r.Ok? ==> r.image.format == "png"
    ensures reply.Err? ==> r == Err(ErrorPrefix + reply.msg)
  {
    match reply
    case Err(e) => Err(ErrorPrefix + e)
    case Ok(result) =>
      match ExtractImage(result)
      case Err(e) => Err(ErrorPrefix + e)
      case Ok(image) => Ok(image)
  }

  /** `generate_image_with_lora(prompt, num_images)`, with the model call and the `LORA_PATH` setting as
      parameters. */
  function GenerateImageWithLora(prompt: string, loraPath: string, subscribe: Subscribe, numImages: int := 1)
    : (r: Outcome)
    ensures r.Err? ==> ErrorPrefix <= r.message
    ensures r.Ok? ==> r.image.format == "png"
  {
    Contain(subscribe(ModelId, Request(prompt, numImages, loraPath)))
  }

  /** The model receives the configuration built from the caller's arguments, trigger word left out. */
  lemma RequestCarriesConfig(prompt: string, numImages: int, loraPath: string)
    ensures ParseConfig(Request(prompt, numImages, loraPath))
         == W.Some(Config(prompt, [Lora(loraPath)], numImages := numImages))
  {
    var c := RequestConfig(prompt, numImages, loraPath);
    ConfigRoundTrip(c);
    assert WithoutTriggers(c).loras == [Lora(loraPath)];
  }

  /** The reply holds `url` as the url of its first image. */
  predicate FirstImageUrl(reply: W.Result<Value>, url: string)
  {
    && reply.Ok? && reply.value.Dict? && "images" in reply.value.fields
    && reply.value.fields["images"].List? && |reply.value.fields["images"].items| > 0
    && reply.value.fields["images"].items[0].Dict? && "url" in reply.value.fields["images"].items[0].fields
    && reply.value.fields["images"].items[0].fields["url"] == Str(url)
  }

  /** Unfolds `Contain` and `ExtractImage` for a reply whose first image url is a string: the result depends
      only on piece `[1]` of the url. A helper for the round-trip and error-containment lemmas below. */
  lemma ContainUrl(reply: W.Result<Value>, url: string)
    requires FirstImageUrl(reply, url)
    ensures Contain(reply) == match (if |Split(url, ',')| < 2 then W.Err(IndexOutOfRange) else Decode(Split(url, ',')[1]))
      case Err(e) => Err(ErrorPrefix + e)
      case Ok(bytes) => Ok(Image(bytes, "png"))
  {
  }

  /** An inline `data:` url round-trips its payload to the exact bytes, tagged "png" whatever the media type. */
  lemma InlineDataRoundTrip(prompt: string, loraPath: string, subscribe: Subscribe, numImages: int,
                            mediaType: string, bytes: seq<Byte>)
    requires ',' !in mediaType
    requires FirstImageUrl(subscribe(ModelId, Request(prompt, numImages, loraPath)),
                           "data:" + mediaType + ";base64," + Encode(bytes))
    ensures GenerateImageWithLora(prompt, loraPath, subscribe, numImages) == Ok(Image(bytes, "png"))
  {
    var head := "data:" + mediaType + ";base64";
    assert ',' !in head;
    assert "data:" + mediaType + ";base64," + Encode(bytes) == head + [','] + Encode(bytes);
    SplitAtFirst(head, ',', Encode(bytes));
    EncodeHasNoComma(bytes);
    SplitNoSeparator(Encode(bytes), ',');
    DecodeEncode(bytes);
    ContainUrl(subscribe(ModelId, Request(prompt, numImages, loraPath)), head + [','] + Encode(bytes));
  }

  /** A failing model call is reported, not raised. */
  lemma RemoteFailureContained(prompt: string, loraPath: string, subscribe: Subscribe, numImages: int)
    requires subscribe(ModelId, Request(prompt, numImages, loraPath)).Err?
    ensures GenerateImageWithLora(prompt, loraPath, subscribe, numImages)
         == Err(ErrorPrefix + subscribe(ModelId, Request(prompt, numImages, loraPath)).msg)
  {
  }

  /** A reply with an empty image list is reported as the IndexError of `images[0]`. */
  lemma NoImagesContained(prompt: string, loraPath: string, subscribe: Subscribe, numImages: int,
                          fields: map<string, Value>)
    requires subscribe(ModelId, Request(prompt, numImages, loraPath)) == W.Ok(Dict(fields))
    requires "images" in fields && fields["images"] == List([])
    ensures GenerateImageWithLora(prompt, loraPath, subscribe, numImages) == Err(ErrorPrefix + IndexOutOfRange)
  {
  }

  /** A reply without an image list is reported as the KeyError of `result["images"]`. */
  lemma MissingImagesContained(prompt: string, loraPath: string, subscribe: Subscribe, numImages: int,
                               fields: map<string, Value>)
    requires subscribe(ModelId, Request(prompt, numImages, loraPath)) == W.Ok(Dict(fields))
    requires "images" !in fields
    ensures GenerateImageWithLora(prompt, loraPath, subscribe, numImages) == Err(ErrorPrefix + "'images'")
  {
  }

  /** A url without a comma (a plain link) is reported as the IndexError of `split(",")[1]`. */
  lemma UrlWithoutCommaContained(prompt: string, loraPath: string, subscribe: Subscribe, numImages: int,
                                 url: string)
    requires ',' !in url
    requires FirstImageUrl(subscribe(ModelId, Request(prompt, numImages, loraPath)), url)
    ensures GenerateImageWithLora(prompt, loraPath, subscribe, numImages) == Err(ErrorPrefix + IndexOutOfRange)
  {
    SplitNoSeparator(url, ',');
    ContainUrl(subscribe(ModelId, Request(prompt, numImages, loraPath)), url);
  }

  /** A payload that is not base64 is reported with the decoder's message. */
  lemma BadPayloadContained(prompt: string, loraPath: string, subscribe: Subscribe, numImages: int,
                            head: string, payload: string)
    requires ',' !in head && ',' !in payload && Decode(payload).Err?
    requires FirstImageUrl(subscribe(ModelId, Request(prompt, numImages, loraPath)), head + [','] + payload)
    ensures GenerateImageWithLora(prompt, loraPath, subscribe, numImages) == Err(ErrorPrefix + Decode(payload).msg)
  {
    SplitAtFirst(head, ',', payload);
    SplitNoSeparator(payload, ',');
    ContainUrl(subscribe(ModelId, Request(prompt, numImages, loraPath)), head + [','] + payload);
  }
}
