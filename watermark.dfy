/**
 * `WatermarkTool` of `watermark_tool.py`: it holds the watermark asset and an
 * opacity, and `Apply` turns a request's parameters into a response record,
 * either a success carrying the watermarked image as a data URI or an
 * `INVALID_INPUT` error carrying the text of whatever went wrong.
 */
module Watermark {
  import opened Wrappers
  import Base64
  import opened ImageUri
  import opened Imaging

  /** A parameter value as it arrives in the request dictionary. */
  datatype Value = Str(s: string) | Int(i: int) | Float(f: real)

  type Parameters = map<string, Value>

  /** `parameters.get(key, default)`. */
  function Get(params: Parameters, key: string, default: Value): Value
  {
    if key in params then params[key] else default
  }

  /** `str(e)` of the KeyError raised by `parameters[key]`: the key in quotes. */
  function KeyErrorText(key: string): string
  {
    "'" + key + "'"
  }

  /** `str(e)` of the AttributeError raised by calling `split` on a number. */
  function NoSplitText(v: Value): string
    requires !v.Str?
  {
    if v.Int? then "'int' object has no attribute 'split'"
    else "'float' object has no attribute 'split'"
  }

  /** `str(e)` of the ZeroDivisionError raised when the input has a side of length 0. */
  const ZeroDivisionText: string := "float division by zero"

  /** `str(e)` of the TypeError raised when a text opacity reaches the brightness factor. */
  const TextFactorText: string := "must be real number, not str"

  /** `str(e)` of the OverflowError raised when an int factor has no double value. */
  const IntOverflowText: string := "int too large to convert to float"

  function Pow2(n: nat): (r: nat)
    ensures r > 0
  {
    if n == 0 then 1 else 2 * Pow2(n - 1)
  }

  /**
   * 2^1024 - 2^970: the least magnitude an int must reach for its conversion to a
   * double to round past the largest finite double (2^1024 - 2^971), which makes
   * Python refuse it.
   */
  const DoubleOverflow: int := (Pow2(54) - 1) * Pow2(970)

  /** The int converts to a finite double. */
  predicate FitsDouble(i: int)
  {
    -DoubleOverflow < i < DoubleOverflow
  }

  /** The three lookups at the top of `apply` all succeed. */
  predicate PastLookups(params: Parameters)
  {
    "user_id" in params && "project_id" in params && "inputImageURI" in params
  }

  /** `parameters.get("configValue", 0.7)`: what `apply` stores in the opacity field. */
  function ConfiguredOpacity(params: Parameters): (v: Value)
    ensures "configValue" !in params ==> v == Float(0.7)
  {
    Get(params, "configValue", Float(0.7))
  }

  /**
   * `ImageEnhance.Brightness(alpha).enhance(opacity)`: every alpha value is scaled
   * on its own, so the band keeps its size. The factor is converted to a double
   * first: a text opacity is refused, and so is an int too large for a double.
   */
  function ScaledAlpha(alpha: seq<byte>, opacity: Value, host: Host): (r: Result<seq<byte>, string>)
    ensures r.Ok? <==> opacity.Float? || (opacity.Int? && FitsDouble(opacity.i))
    ensures opacity.Str? ==> r == Err(TextFactorText)
    ensures opacity.Int? && !FitsDouble(opacity.i) ==> r == Err(IntOverflowText)
    ensures r.Ok? ==> |r.value| == |alpha|
  {
    match opacity
    case Str(_) => Err(TextFactorText)
    case Int(i) =>
      if !FitsDouble(i) then Err(IntOverflowText)
      else Ok(seq(|alpha|, k requires 0 <= k < |alpha| => host.brighten(alpha[k], i as real)))
    case Float(f) => Ok(seq(|alpha|, k requires 0 <= k < |alpha| => host.brighten(alpha[k], f)))
  }

  function Max(a: int, b: int): int
  {
    if a >= b then a else b
  }

  /** A `random.randint(0, hi)` source: every draw lies in the closed range. */
  ghost predicate Draws(randint: nat -> nat)
  {
    forall hi: nat :: randint(hi) <= hi
  }

  /**
   * One coordinate of the watermark's position, `randint(0, max(0, canvas - mark))`:
   * the watermark fits on the canvas whenever it can, and is pinned to the edge
   * when it is as large as the canvas or larger.
   */
  function Offset(canvas: nat, mark: nat, randint: nat -> nat): (x: nat)
    requires Draws(randint)
    ensures x <= Max(0, canvas - mark)
    ensures mark <= canvas ==> x + mark <= canvas
    ensures mark >= canvas ==> x == 0
  {
    randint(Max(0, canvas - mark))
  }

  /** `string.ascii_lowercase + string.digits`. */
  const IdAlphabet: string := "abcdefghijklmnopqrstuvwxyz" + "0123456789"

  lemma IdAlphabetChars()
    ensures |IdAlphabet| == 36
    ensures forall k :: 0 <= k < |IdAlphabet| ==> 'a' <= IdAlphabet[k] <= 'z' || '0' <= IdAlphabet[k] <= '9'
  {
  }

  /** The randomness one call to `apply` consumes. */
  datatype Entropy = Entropy(randX: nat -> nat, randY: nat -> nat, picks: seq<nat>)

  /** Both coordinate draws stay in range and there are 32 choices from the identifier alphabet. */
  ghost predicate Fair(e: Entropy)
  {
    && Draws(e.randX) && Draws(e.randY)
    && |e.picks| == 32 && forall i :: 0 <= i < |e.picks| ==> e.picks[i] < 36
  }

  /** An identifier of 32 lower-case ASCII letters and digits. */
  predicate IsMessageId(id: string)
  {
    |id| == 32 && forall i :: 0 <= i < |id| ==> 'a' <= id[i] <= 'z' || '0' <= id[i] <= '9'
  }

  /** `''.join(random.choice(ascii_lowercase + digits) for _ in range(32))`, given the 32 choices. */
  function MessageId(picks: seq<nat>): (id: string)
    requires |picks| == 32 && forall i :: 0 <= i < |picks| ==> picks[i] < 36
    ensures IsMessageId(id)
  {
    IdAlphabetChars();
    seq(32, i requires 0 <= i < 32 => IdAlphabet[picks[i]])
  }

  datatype ErrorInfo =
    | NoError                                                    // {}
    | ErrorDetails(code: string, message: string, inputFileURI: Value)

  datatype Output =
    | NoOutput                                                   // {}
    | ImageOutput(kind: string, imageURI: string)                // {"type": ..., "imageURI": ...}

  /** The response dictionary that `apply` serialises. */
  datatype Response = Response(
    messageId: string,
    userId: Value,
    projectId: Value,
    status: string,
    error: ErrorInfo,
    output: Output,
    microservice: string)                                        // metadata.microservice

  /**
   * The response for the outcome of the `try` block: the output URI, or the text
   * of the exception that ended it.
   */
  function Respond(outcome: Result<string, string>, params: Parameters, messageId: string): (r: Response)
    requires outcome.Ok? ==> PastLookups(params)
    ensures r.messageId == messageId && r.microservice == "WatermarkTool"
    ensures r.userId == Get(params, "user_id", Str("unknown"))
    ensures r.projectId == Get(params, "project_id", Str("unknown"))
    ensures r.status == "success" <==> outcome.Ok?
    ensures r.status == "error" <==> outcome.Err?
    ensures outcome.Ok? ==> r.error == NoError && r.output == ImageOutput("image", outcome.value)
    ensures outcome.Err? ==> r.output == NoOutput
    ensures outcome.Err? ==>
      r.error == ErrorDetails("INVALID_INPUT", outcome.error, Get(params, "inputImageURI", Str("unknown")))
  {
    match outcome
    case Ok(uri) =>
      Response(messageId, params["user_id"], params["project_id"], "success", NoError,
               ImageOutput("image", uri), "WatermarkTool")
    case Err(message) =>
      Response(messageId, Get(params, "user_id", Str("unknown")), Get(params, "project_id", Str("unknown")),
               "error", ErrorDetails("INVALID_INPUT", message, Get(params, "inputImageURI", Str("unknown"))),
               NoOutput, "WatermarkTool")
  }

  /** The watermark's size on the decoded input: Python raises when the input has an empty side. */
  function ScaledSize(input: Bitmap, asset: Bitmap, host: Host): (r: Result<(nat, nat), string>)
    ensures r.Err? <==> input.width == 0 || input.height == 0
  {
    var smallest := if input.width <= input.height then input.width else input.height;
    if smallest == 0 then Err(ZeroDivisionText)
    else Ok((host.scale(asset.width, smallest), host.scale(asset.height, smallest)))
  }

  /**
   * What the `try` block of `apply` computes, given the watermark asset's contents
   * and the randomness: the output data URI, or the text of the first exception.
   */
  function Process(params: Parameters, asset: Bitmap, host: Host, rng: Entropy): (r: Result<string, string>)
    requires Fair(rng)
    ensures r.Ok? ==> PastLookups(params)
  {
    if "user_id" !in params then Err(KeyErrorText("user_id"))
    else if "project_id" !in params then Err(KeyErrorText("project_id"))
    else if "inputImageURI" !in params then Err(KeyErrorText("inputImageURI"))
    else
      var v := params["inputImageURI"];
      if !v.Str? then Err(NoSplitText(v))
      else match DataUriToBytes(v.s)
      case Err(m) => Err(m)
      case Ok(data) =>
        match host.open(data)
        case Err(m) => Err(m)
        case Ok(input) =>
          match ScaledSize(input, asset, host)
          case Err(m) => Err(m)
          case Ok((w, h)) =>
            match host.resize(asset, w, h)
            case Err(m) => Err(m)
            case Ok(resized) =>
              match ScaledAlpha(resized.alpha, ConfiguredOpacity(params), host)
              case Err(m) => Err(m)
              case Ok(band) =>
                var x := Offset(input.width, w, rng.randX);
                var y := Offset(input.height, h, rng.randY);
                Ok(ImageToDataUri(host.savePng(host.composite(input, resized.(alpha := band), x, y))))
  }

  /** A request missing one of the three ids fails with the first missing key, in quotes. */
  lemma MissingKeyTexts(params: Parameters, asset: Bitmap, host: Host, rng: Entropy)
    requires Fair(rng)
    ensures "user_id" !in params ==> Process(params, asset, host, rng) == Err("'user_id'")
    ensures "user_id" in params && "project_id" !in params ==>
      Process(params, asset, host, rng) == Err("'project_id'")
    ensures "user_id" in params && "project_id" in params && "inputImageURI" !in params ==>
      Process(params, asset, host, rng) == Err("'inputImageURI'")
  {
    assert KeyErrorText("user_id") == "'user_id'";
    assert KeyErrorText("project_id") == "'project_id'";
    assert KeyErrorText("inputImageURI") == "'inputImageURI'";
  }

  /** A number given as the input URI fails at `split` with the AttributeError naming its type. */
  lemma NumberUriText(params: Parameters, asset: Bitmap, host: Host, rng: Entropy)
    requires Fair(rng) && PastLookups(params)
    ensures params["inputImageURI"].Int? ==>
      Process(params, asset, host, rng) == Err("'int' object has no attribute 'split'")
    ensures params["inputImageURI"].Float? ==>
      Process(params, asset, host, rng) == Err("'float' object has no attribute 'split'")
  {
  }

  /**
   * An input URI without a comma never gets past the split: the response is an
   * `INVALID_INPUT` error with the unpacking message, echoing the URI.
   */
  lemma NoCommaIsInvalidInput(params: Parameters, asset: Bitmap, host: Host, rng: Entropy, uri: string)
    requires Fair(rng) && PastLookups(params)
    requires params["inputImageURI"] == Str(uri) && ',' !in uri
    ensures var r := Respond(Process(params, asset, host, rng), params, MessageId(rng.picks));
      && r.status == "error" && r.output == NoOutput
      && r.error == ErrorDetails("INVALID_INPUT", UnpackError, Str(uri))
  {
  }

  /**
   * Whatever stops the URI from unwrapping (no comma, non-ASCII text, a dangling
   * base64 quantum) is reported with its own text, and the offending URI is echoed.
   */
  lemma UndecodableUriIsInvalidInput(params: Parameters, asset: Bitmap, host: Host, rng: Entropy, uri: string)
    requires Fair(rng) && PastLookups(params)
    requires params["inputImageURI"] == Str(uri) && DataUriToBytes(uri).Err?
    ensures var r := Respond(Process(params, asset, host, rng), params, MessageId(rng.picks));
      && r.status == "error" && IsMessageId(r.messageId)
      && r.error == ErrorDetails("INVALID_INPUT", DataUriToBytes(uri).error, Str(uri))
  {
  }

  /**
   * A success always carries a PNG data URI whose payload unwraps to exactly the
   * bytes the image library saved for the composited picture.
   */
  lemma SuccessCarriesPng(params: Parameters, asset: Bitmap, host: Host, rng: Entropy)
    requires Fair(rng)
    ensures var r := Process(params, asset, host, rng);
      r.Ok? ==>
        && "data:image/png;base64," <= r.value
        && exists png :: DataUriToBytes(r.value) == Ok(png) && r.value == "data:image/png;base64," + Base64.Encode(png)
  {
    if Process(params, asset, host, rng).Err? {
      return;
    }
    var v := params["inputImageURI"];
    var data := DataUriToBytes(v.s).value;
    var input := host.open(data).value;
    var (w, h) := ScaledSize(input, asset, host).value;
    var resized := host.resize(asset, w, h).value;
    var band := ScaledAlpha(resized.alpha, ConfiguredOpacity(params), host).value;
    var x := Offset(input.width, w, rng.randX);
    var y := Offset(input.height, h, rng.randY);
    var png := host.savePng(host.composite(input, resized.(alpha := band), x, y));
    DefaultFormatIsPng(png);
    assert Process(params, asset, host, rng).value == ImageToDataUri(png);
  }

  /** The MIME type written in the input URI has no effect on what the tool does with it. */
  lemma MimeTypeIgnored(params: Parameters, asset: Bitmap, host: Host, rng: Entropy, header: string, other: string, payload: string)
    requires Fair(rng) && ',' !in header && ',' !in other
    ensures Process(params["inputImageURI" := Str(header + "," + payload)], asset, host, rng)
         == Process(params["inputImageURI" := Str(other + "," + payload)], asset, host, rng)
  {
    HeaderIgnored(header, other, payload);
  }

  class WatermarkTool {
    /** The asset, loaded once; `apply` never changes it. */
    var watermarkImage: Picture
    var opacity: Value

    /** The asset arrives already opened and converted to RGBA. */
    constructor (asset: Bitmap, opacity: Value := Float(0.7))
      ensures fresh(watermarkImage) && watermarkImage.Snapshot() == asset
      ensures this.opacity == opacity
    {
      watermarkImage := new Picture.FromBitmap(asset);
      this.opacity := opacity;
    }

    /**
     * `_apply_opacity`: scales the alpha band of `image` by the current opacity and
     * writes it back into that same image; a refused factor leaves it as it was.
     */
    method ApplyOpacity(image: Picture, host: Host) returns (r: Result<Picture, string>)
      modifies image
      ensures match ScaledAlpha(old(image.alpha), opacity, host)
        case Ok(band) => r == Ok(image) && image.Snapshot() == old(image.Snapshot()).(alpha := band)
        case Err(m) => r == Err(m) && image.Snapshot() == old(image.Snapshot())
    {
      var scaled := ScaledAlpha(image.alpha, opacity, host);
      match scaled {
        case Err(m) =>
          r := Err(m);
        case Ok(band) =>
          image.PutAlpha(band);
          r := Ok(image);
      }
    }

    /**
     * The `try` block of `apply`. The opacity field is overwritten once the three
     * lookups succeed, and keeps that value whatever happens next; the asset is only
     * ever copied, and the copy's resized image is what loses opacity.
     */
    method Attempt(params: Parameters, host: Host, rng: Entropy) returns (r: Result<string, string>)
      requires Fair(rng)
      modifies this
      ensures watermarkImage == old(watermarkImage)
      ensures PastLookups(params) ==>
        opacity == if "configValue" in params then params["configValue"] else Float(0.7)
      ensures !PastLookups(params) ==> opacity == old(opacity)
      ensures r == Process(params, old(watermarkImage.Snapshot()), host, rng)
    {
      if "user_id" !in params { return Err(KeyErrorText("user_id")); }
      if "project_id" !in params { return Err(KeyErrorText("project_id")); }
      if "inputImageURI" !in params { return Err(KeyErrorText("inputImageURI")); }
      opacity := ConfiguredOpacity(params);

      var uri := params["inputImageURI"];
      if !uri.Str? { return Err(NoSplitText(uri)); }
      var data := DataUriToBytes(uri.s);
      if data.Err? { return Err(data.error); }
      var decoded := host.open(data.value);
      if decoded.Err? { return Err(decoded.error); }
      var input := decoded.value;

      var watermark := watermarkImage.Copy();
      var size := ScaledSize(input, watermark.Snapshot(), host);
      if size.Err? { return Err(size.error); }
      var (w, h) := size.value;
      var resized := host.resize(watermark.Snapshot(), w, h);
      if resized.Err? { return Err(resized.error); }
      watermark := new Picture.FromBitmap(resized.value);
      var adjusted := ApplyOpacity(watermark, host);
      if adjusted.Err? { return Err(adjusted.error); }

      var x := Offset(input.width, w, rng.randX);
      var y := Offset(input.height, h, rng.randY);
      var blended := host.composite(input, watermark.Snapshot(), x, y);
      r := Ok(ImageToDataUri(host.savePng(blended)));
    }

    /**
     * `apply`: run the `try` block and build the success or error response, with a
     * fresh message identifier on either path.
     */
    method Apply(params: Parameters, host: Host, rng: Entropy) returns (response: Response)
      requires Fair(rng)
      modifies this
      ensures watermarkImage == old(watermarkImage) && watermarkImage.Snapshot() == old(watermarkImage.Snapshot())
      ensures PastLookups(params) ==>
        opacity == if "configValue" in params then params["configValue"] else Float(0.7)
      ensures !PastLookups(params) ==> opacity == old(opacity)
      ensures IsMessageId(response.messageId)
      ensures response == Respond(Process(params, old(watermarkImage.Snapshot()), host, rng), params, MessageId(rng.picks))
    {
      var outcome := Attempt(params, host, rng);
      var id := MessageId(rng.picks);
      response := Respond(outcome, params, id);
    }
  }
}
