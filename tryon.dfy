/**
 * The virtual try-on flow: the product image is fetched and inlined as a
 * `data:` URL (section 3 of RFC 2397, base64 form), then both images and a fixed
 * instruction go to the image model, whose media URL is the result.
 *
 * `fetch`, the base64 encoder (Node's `Buffer`) and the model call are
 * parameters; each may fail, and a failure is the thrown `Exception`.
 */
module TryOn {
  import opened Wrappers
  import opened Strings

  type Byte = b: int | 0 <= b < 256

  /** What `fetch(url)` gives: a response, or a rejection (a network error). */
  datatype FetchOutcome =
    | Response(ok: bool, statusText: string, contentType: Option<string>, body: seq<Byte>)
    | FetchRejected(error: Exception)

  datatype TryOnInput = TryOnInput(userImageDataUri: string, productImageUrl: string)

  datatype TryOnOutput = TryOnOutput(generatedImageUrl: string)

  /** A part of the model prompt. */
  datatype PromptPart = Media(url: string) | Text(text: string)

  /** The request made of the image model. */
  datatype GenerateRequest = GenerateRequest(model: string, prompt: seq<PromptPart>, responseModalities: seq<string>)

  /** The model's answer: the media URL of its output, if any, or a rejection. */
  datatype GenerateOutcome = Generated(mediaUrl: Option<string>) | GenerateRejected(error: Exception)

  const FetchFailedPrefix := "Failed to fetch image: "
  const DefaultContentType := "image/jpeg"
  const NoImageText := "Image generation failed to produce an image."
  const ImageModel := "googleai/gemini-2.5-flash-image-preview"
  const Instruction := "You are a virtual try-on assistant. Superimpose the clothing item from the second image (the product) onto the person in the first image (the user). The output image should realistically show the user wearing the clothing, preserving the user's original pose and the background. The clothing should fit naturally. Output only the generated image."

  /** `dataurl := "data:" mediatype ";base64," data` of RFC 2397, section 3. */
  function DataUri(mediaType: string, payload: string): string {
    "data:" + mediaType + ";base64," + payload
  }

  /**
   * Reads a base64 `data:` URL back into its media type and payload, splitting
   * at the last ','. The base64 alphabet of RFC 4648, section 4, has no ','.
   */
  function ParseDataUri(s: string): (r: Option<(string, string)>)
    ensures r.Some? ==> DataUri(r.value.0, r.value.1) == s && ',' !in r.value.1
  {
    if |s| < 5 || s[..5] != "data:" then None
    else match LastIndex(s, ',')
      case None => None
      case Some(k) =>
        if k < 12 || s[k - 7..k] != ";base64" then None
        else
          var mediaType, payload := s[5..k - 7], s[k + 1..];
          assert s == s[..5] + s[5..k - 7] + s[k - 7..k] + [s[k]] + s[k + 1..];
          Some((mediaType, payload))
  }

  /** A payload without ',' comes back out of the URL together with its media type. */
  lemma DataUriRoundTrip(mediaType: string, payload: string)
    requires ',' !in payload
    ensures ParseDataUri(DataUri(mediaType, payload)) == Some((mediaType, payload))
  {
    var s := DataUri(mediaType, payload);
    var k := |s| - |payload| - 1;
    assert s[k] == ',';
    assert s[k + 1..] == payload;
    assert LastIndex(s, ',') == Some(k);
    assert s[..5] == "data:";
    assert s[k - 7..k] == ";base64";
    assert s[5..k - 7] == mediaType;
  }

  /** The media type of a fetched image: the Content-Type header, else image/jpeg. */
  function ContentTypeOf(header: Option<string>): (r: string)
    ensures r != ""
    ensures header.Some? && header.value != "" ==> r == header.value
    ensures header.None? || header.value == "" ==> r == DefaultContentType
  {
    if header.Some? && header.value != "" then header.value else DefaultContentType
  }

  /** `imageUrlToDataUri`, given the outcome of fetching the URL. */
  function ImageUrlToDataUri(response: FetchOutcome, base64: seq<Byte> -> string): (r: Result<string, Exception>)
    ensures response.FetchRejected? ==> r == Err(response.error)
    ensures response.Response? && !response.ok ==> r == Err(Error(FetchFailedPrefix + response.statusText))
    ensures response.Response? && response.ok ==>
      r.Ok? && (',' !in base64(response.body) ==>
        ParseDataUri(r.value) == Some((ContentTypeOf(response.contentType), base64(response.body))))
  {
    match response
    case FetchRejected(e) => Err(e)
    case Response(ok, statusText, contentType, body) =>
      if !ok then Err(Error(FetchFailedPrefix + statusText))
      else
        var mediaType, payload := ContentTypeOf(contentType), base64(body);
        assert ',' !in payload ==> ParseDataUri(DataUri(mediaType, payload)) == Some((mediaType, payload)) by {
          if ',' !in payload { DataUriRoundTrip(mediaType, payload); }
        }
        Ok(DataUri(mediaType, payload))
  }

  /** The prompt: the user's image first, the product's second, then the instruction. */
  function TryOnRequest(userImageDataUri: string, productImageDataUri: string): GenerateRequest {
    GenerateRequest(ImageModel, [Media(userImageDataUri), Media(productImageDataUri), Text(Instruction)], ["IMAGE", "TEXT"])
  }

  /** `virtualTryOnFlow`: inline the product image, ask the model, return its media URL. */
  function VirtualTryOnFlow(
    input: TryOnInput,
    fetch: string -> FetchOutcome,
    base64: seq<Byte> -> string,
    generate: GenerateRequest -> GenerateOutcome): (r: Result<TryOnOutput, Exception>)
    ensures ImageUrlToDataUri(fetch(input.productImageUrl), base64).Err? ==>
      r == Err(ImageUrlToDataUri(fetch(input.productImageUrl), base64).error)
    ensures r.Ok? ==>
      var product := ImageUrlToDataUri(fetch(input.productImageUrl), base64);
      && product.Ok?
      && generate(TryOnRequest(input.userImageDataUri, product.value)) == Generated(Some(r.value.generatedImageUrl))
      && r.value.generatedImageUrl != ""
    ensures ImageUrlToDataUri(fetch(input.productImageUrl), base64).Ok? ==>
      var outcome := generate(TryOnRequest(input.userImageDataUri, ImageUrlToDataUri(fetch(input.productImageUrl), base64).value));
      && (outcome.GenerateRejected? ==> r == Err(outcome.error))
      && (outcome.Generated? && (outcome.mediaUrl.None? || outcome.mediaUrl == Some("")) ==> r == Err(Error(NoImageText)))
      && (outcome.Generated? && outcome.mediaUrl.Some? && outcome.mediaUrl.value != "" ==> r.Ok?)
  {
    match ImageUrlToDataUri(fetch(input.productImageUrl), base64)
    case Err(e) => Err(e)
    case Ok(productImageDataUri) =>
      match generate(TryOnRequest(input.userImageDataUri, productImageDataUri))
      case GenerateRejected(e) => Err(e)
      case Generated(media) =>
        if media.None? || media.value == "" then Err(Error(NoImageText))
        else Ok(TryOnOutput(media.value))
  }

  /** When the product image cannot be inlined the model is never consulted. */
  lemma FetchFailureSkipsGeneration(
    input: TryOnInput,
    fetch: string -> FetchOutcome,
    base64: seq<Byte> -> string,
    g1: GenerateRequest -> GenerateOutcome,
    g2: GenerateRequest -> GenerateOutcome)
    requires ImageUrlToDataUri(fetch(input.productImageUrl), base64).Err?
    ensures VirtualTryOnFlow(input, fetch, base64, g1) == VirtualTryOnFlow(input, fetch, base64, g2)
  {
  }

  /** An unreachable product image fails the flow with the status text, not with an empty result. */
  lemma UnreachableImageFails(input: TryOnInput, fetch: string -> FetchOutcome, base64: seq<Byte> -> string,
                              generate: GenerateRequest -> GenerateOutcome)
    requires fetch(input.productImageUrl).Response? && !fetch(input.productImageUrl).ok
    ensures VirtualTryOnFlow(input, fetch, base64, generate)
      == Err(Error(FetchFailedPrefix + fetch(input.productImageUrl).statusText))
  {
  }
}
