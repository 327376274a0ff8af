# Watermark tool: a verified model

A Dafny model of the two pieces of logic of the PICTURAS watermark microservice:

* the data-URI helpers of `image_uri_utils.py`: unwrapping a `data:` URI
  (split at the first comma, base64-decode the rest) and wrapping saved image
  bytes as `data:image/<format>;base64,<payload>` (the URI syntax of section 3
  of RFC 2397, the base64 of section 4 of RFC 4648);
* `WatermarkTool` of `watermark_tool.py`: its `opacity` field, which `apply`
  overwrites once the three id lookups succeed; the shared watermark asset,
  which `apply` only copies (the resized copy is what `_apply_opacity` alters
  in place); the random placement rule; and the success and error response
  records.

Files: `wrappers.dfy` (Option, Result), `base64.dfy` (module `Base64`),
`image_uri.dfy` (module `ImageUri`), `imaging.dfy` (module `Imaging`: the
`Picture` class and the `Host` boundary), `watermark.dfy` (module
`Watermark`: the `WatermarkTool` class and its specification functions).

Base64 decoding is Python's `base64.b64decode` in its default non-validating
mode, as CPython 3.11 and later implement it: a str argument must be ASCII;
characters outside the alphabet are skipped; a `=` after two or three data
characters of a quantum counts towards padding, and once that quantum is
complete the rest of the input is ignored; one dangling data character, or two
or three without padding, raise `binascii.Error`. The round trip
`Decode(Encode(bs)) == Ok(bs)` is proved for every byte sequence.

`Apply` is proved equal to a specification function: `Process` gives the
outcome of the `try` block and `Respond` builds the record. The image
library, the floating-point size rule and the random generator are parameters:
`Host` holds the library calls and `Entropy` the random draws, and
`Fair(rng)` is the requirement that each draw stays in the range Python
promises.

Two behaviours of the code are worth stating outright:

* `apply` stores `configValue`, or the literal 0.7 when it is absent, in
  `self.opacity` as soon as the three lookups succeed. The value stays after
  the call, even when the call then fails, so the constructor's `opacity` is
  never read by an `apply` that gets past the lookups.
* `b64decode` is lenient: a payload of foreign characters decodes to no
  bytes at all, and the failure only comes later, from the image library.

## Model

| member | source | states |
|---|---|---|
| `Base64.Digit` | picturas-watermark-tool-ms-main/picturas_watermark_tool_ms/image_uri_utils.py:30 | the character chosen for a 6-bit value decodes back to that value, and is neither `=` nor a comma |
| `Base64.Sextet` | picturas-watermark-tool-ms-main/picturas_watermark_tool_ms/image_uri_utils.py:11 | the decoding table gives every character it knows a value below 64 |
| `Base64.AlphabetAt` | picturas-watermark-tool-ms-main/picturas_watermark_tool_ms/image_uri_utils.py:30 | the character the encoder chooses for each value is the one at that index of the RFC 4648 alphabet |
| `Base64.DigitOfSextet` | picturas-watermark-tool-ms-main/picturas_watermark_tool_ms/image_uri_utils.py:11 | a character the table knows is the one the encoder chooses for its value |
| `Base64.SextetTable` | picturas-watermark-tool-ms-main/picturas_watermark_tool_ms/image_uri_utils.py:11 | a character has a value exactly when it is in the alphabet, at that index; `=`, a comma and every other character have none and are skipped |
| `Base64.Encode` | picturas-watermark-tool-ms-main/picturas_watermark_tool_ms/image_uri_utils.py:30 | `b64encode` output has length 4*ceil(n/3) and uses only alphabet characters and `=` |
| `Base64.EncodeHasNoComma` | picturas-watermark-tool-ms-main/picturas_watermark_tool_ms/image_uri_utils.py:30-32 | the encoded payload holds no comma, so a URI built around it splits before the payload, never inside it |
| `Base64.Next` | picturas-watermark-tool-ms-main/picturas_watermark_tool_ms/image_uri_utils.py:11 | one character of the non-strict loop keeps the decoder state in range and only appends output; the loop stops only at a `=` after at least two data characters of a quantum |
| `Base64.Finish` | picturas-watermark-tool-ms-main/picturas_watermark_tool_ms/image_uri_utils.py:11 | at the end of the input the decoder accepts exactly when it stands at a quantum boundary, and then returns what it produced |
| `Base64.Advance` | picturas-watermark-tool-ms-main/picturas_watermark_tool_ms/image_uri_utils.py:11 | a data character moves the decoder to the next position of its quantum, keeping the carried bits in range |
| `Base64.Emitted` | picturas-watermark-tool-ms-main/picturas_watermark_tool_ms/image_uri_utils.py:11 | a data character completes an output byte at every position of the quantum but the first, and only ever appends |
| `Base64.Scan` | picturas-watermark-tool-ms-main/picturas_watermark_tool_ms/image_uri_utils.py:11 | the non-strict decoding loop never reports the non-ASCII error, which is checked before the loop |
| `Base64.ScanOutcome` | picturas-watermark-tool-ms-main/picturas_watermark_tool_ms/image_uri_utils.py:11 | the decoding loop only ever appends to its output, and a lone data character is reported with a count one more than a multiple of four |
| `Base64.Decode` | picturas-watermark-tool-ms-main/picturas_watermark_tool_ms/image_uri_utils.py:11 | `b64decode` of a str fails with the ASCII error exactly when the text holds a non-ASCII character |
| `Base64.Decimal` | picturas-watermark-tool-ms-main/picturas_watermark_tool_ms/image_uri_utils.py:11 | the count in the lone-character error message is written as a non-empty string of decimal digits |
| `Base64.DecimalInjective` | picturas-watermark-tool-ms-main/picturas_watermark_tool_ms/image_uri_utils.py:11 | different counts print differently |
| `Base64.MessageLength` | picturas-watermark-tool-ms-main/picturas_watermark_tool_ms/image_uri_utils.py:11 | the exception texts have lengths 52, 17 and 97 plus the count's digits, and the lone-character text carries its count after a fixed 58-character opening |
| `Base64.MessagesDistinct` | picturas-watermark-tool-ms-main/picturas_watermark_tool_ms/image_uri_utils.py:11 | `str(e)` identifies the decoding error: two errors have the same text exactly when they are the same error |
| `Base64.DataStep` | picturas-watermark-tool-ms-main/picturas_watermark_tool_ms/image_uri_utils.py:11 | one data character advances the decoder by one quantum position and emits at most one byte |
| `Base64.QuantumDecodes` | picturas-watermark-tool-ms-main/picturas_watermark_tool_ms/image_uri_utils.py:11 | the four characters of a full quantum decode to exactly the three bytes they encode |
| `Base64.ScanEncoded` | picturas-watermark-tool-ms-main/picturas_watermark_tool_ms/image_uri_utils.py:11 | decoding the encoder's output from a quantum boundary appends exactly the encoded bytes, padding included |
| `Base64.RoundTrip` | picturas-watermark-tool-ms-main/picturas_watermark_tool_ms/image_uri_utils.py:11-30 | `b64decode(b64encode(bs)) == bs` for every byte sequence |
| `ImageUri.SplitAtFirstComma` | picturas-watermark-tool-ms-main/picturas_watermark_tool_ms/image_uri_utils.py:10 | the two-name unpacking fails exactly when there is no comma; otherwise the header is comma-free and header, comma and payload rebuild the URI |
| `ImageUri.FirstCommaSplits` | picturas-watermark-tool-ms-main/picturas_watermark_tool_ms/image_uri_utils.py:10 | the split is at the first comma: a comma-free header comes back whole and the payload keeps any later commas |
| `ImageUri.DataUriToBytes` | picturas-watermark-tool-ms-main/picturas_watermark_tool_ms/image_uri_utils.py:6-13 | a URI fails with the unpacking error exactly when it has no comma |
| `ImageUri.PayloadAfterFirstComma` | picturas-watermark-tool-ms-main/picturas_watermark_tool_ms/image_uri_utils.py:10-11 | a URI with a comma-free header unwraps to the decoding of what follows the first comma |
| `ImageUri.HeaderIgnored` | picturas-watermark-tool-ms-main/picturas_watermark_tool_ms/image_uri_utils.py:10-11 | the header is never inspected: two URIs differing only in their header unwrap alike |
| `ImageUri.Lower` | picturas-watermark-tool-ms-main/picturas_watermark_tool_ms/image_uri_utils.py:31 | lower-casing keeps the format name's length |
| `ImageUri.LowerCharwise` | picturas-watermark-tool-ms-main/picturas_watermark_tool_ms/image_uri_utils.py:31 | lower-casing changes exactly the upper-case letters, to their lower-case forms, and adds no comma |
| `ImageUri.Header` | picturas-watermark-tool-ms-main/picturas_watermark_tool_ms/image_uri_utils.py:31-32 | the header `data:image/<format>;base64` starts with `data:image/`, is 18 characters longer than the format name, and holds a comma exactly when the format name does |
| `ImageUri.ImageToDataUri` | picturas-watermark-tool-ms-main/picturas_watermark_tool_ms/image_uri_utils.py:24-32 | the URI starts with `data:image/`, ends with the base64 of the saved bytes, and (for a comma-free format) unwraps to exactly those bytes |
| `ImageUri.LowerPng` | picturas-watermark-tool-ms-main/picturas_watermark_tool_ms/image_uri_utils.py:24-31 | the default format name `PNG` lower-cases to `png` |
| `ImageUri.DefaultFormatIsPng` | picturas-watermark-tool-ms-main/picturas_watermark_tool_ms/image_uri_utils.py:24-32 | with the default format the URI is `data:image/png;base64,` followed by the encoded bytes |
| `Imaging.Picture.FromBitmap` | picturas-watermark-tool-ms-main/picturas_watermark_tool_ms/watermark_tool.py:25 | a new image object holds exactly the given contents |
| `Imaging.Picture.Copy` | picturas-watermark-tool-ms-main/picturas_watermark_tool_ms/watermark_tool.py:54 | `copy` gives a fresh object with the same contents and leaves the original alone |
| `Imaging.Picture.PutAlpha` | picturas-watermark-tool-ms-main/picturas_watermark_tool_ms/watermark_tool.py:31 | `putalpha` replaces the alpha band and nothing else |
| `Watermark.ScaledAlpha` | picturas-watermark-tool-ms-main/picturas_watermark_tool_ms/watermark_tool.py:28-32 | the brightness step refuses a text opacity with the TypeError text and an int too large for a double (magnitude at least 2^1024 - 2^970) with the OverflowError text, accepts every other factor, and keeps the band's size |
| `Watermark.Offset` | picturas-watermark-tool-ms-main/picturas_watermark_tool_ms/watermark_tool.py:68-69 | the offset lies in `[0, max(0, W - w)]`, so `x + w <= W` when the watermark fits, and it is 0 when the watermark is as large as the input or larger |
| `Watermark.IdAlphabetChars` | picturas-watermark-tool-ms-main/picturas_watermark_tool_ms/watermark_tool.py:87 | `ascii_lowercase + digits` has 36 characters, each a lower-case letter or a digit |
| `Watermark.MessageId` | picturas-watermark-tool-ms-main/picturas_watermark_tool_ms/watermark_tool.py:87 | the identifier has exactly 32 characters, each from `[a-z0-9]` |
| `Watermark.Respond` | picturas-watermark-tool-ms-main/picturas_watermark_tool_ms/watermark_tool.py:86-118 | status is "success" exactly on success; a success has an empty error and an image output with the URI; a failure has an empty output and code INVALID_INPUT with the exception text; `user_id`, `project_id` and `inputFileURI` fall back to "unknown"; metadata names WatermarkTool |
| `Watermark.ScaledSize` | picturas-watermark-tool-ms-main/picturas_watermark_tool_ms/watermark_tool.py:58-63 | computing the watermark size raises exactly when the input has a side of length 0 |
| `Watermark.Process` | picturas-watermark-tool-ms-main/picturas_watermark_tool_ms/watermark_tool.py:41-83 | the `try` block can only succeed once the three lookups have |
| `Watermark.MissingKeyTexts` | picturas-watermark-tool-ms-main/picturas_watermark_tool_ms/watermark_tool.py:42-44 | a request missing `user_id`, `project_id` or `inputImageURI` fails with the first missing key in quotes, in that order |
| `Watermark.NumberUriText` | picturas-watermark-tool-ms-main/picturas_watermark_tool_ms/watermark_tool.py:48 | a number given as the input URI fails at `split` with the AttributeError naming `int` or `float` |
| `Watermark.NoCommaIsInvalidInput` | picturas-watermark-tool-ms-main/picturas_watermark_tool_ms/watermark_tool.py:48 | an input URI without a comma yields an INVALID_INPUT error with the unpacking message, echoing the URI |
| `Watermark.UndecodableUriIsInvalidInput` | picturas-watermark-tool-ms-main/picturas_watermark_tool_ms/watermark_tool.py:100-118 | any URI that fails to unwrap yields an error response with that failure's text, the URI echoed and a valid message id |
| `Watermark.SuccessCarriesPng` | picturas-watermark-tool-ms-main/picturas_watermark_tool_ms/watermark_tool.py:83-95 | a success's URI starts with `data:image/png;base64,` and unwraps to exactly the PNG bytes whose encoding it carries |
| `Watermark.MimeTypeIgnored` | picturas-watermark-tool-ms-main/picturas_watermark_tool_ms/watermark_tool.py:48 | the MIME type written in the input URI does not change the outcome |
| `Watermark.WatermarkTool.constructor` | picturas-watermark-tool-ms-main/picturas_watermark_tool_ms/watermark_tool.py:13-26 | the tool holds a fresh picture of the asset and the given opacity, 0.7 by default |
| `Watermark.WatermarkTool.ApplyOpacity` | picturas-watermark-tool-ms-main/picturas_watermark_tool_ms/watermark_tool.py:28-32 | `_apply_opacity` rewrites the alpha band of the image it is given in place, and leaves it untouched when the factor is refused |
| `Watermark.WatermarkTool.Attempt` | picturas-watermark-tool-ms-main/picturas_watermark_tool_ms/watermark_tool.py:41-83 | the `try` block computes `Process` on the asset's contents; once the three lookups succeed the opacity field holds `configValue` when present and 0.7 otherwise, and before that it is unchanged |
| `Watermark.WatermarkTool.Apply` | picturas-watermark-tool-ms-main/picturas_watermark_tool_ms/watermark_tool.py:34-119 | `apply` never changes the stored asset; once the three lookups succeed the opacity field holds `configValue` when present and 0.7 otherwise, and keeps it whether the call succeeds or fails; the response is `Respond` of `Process`, with a valid 32-character message id |

## Left out

- The image library (opening and RGBA conversion, resizing, brightness, transparent overlay, masked paste, `alpha_composite`, RGB conversion, PNG saving) is a foreign library; it is reached only through the functions of `Imaging.Host`, so no pixel property is proved (an opacity of 0 leaving the input unchanged, for instance).
- The overlay that `paste` alters in place is a local object of the library step; it is folded into `Host.composite`.
- The watermark size `int(side * (smallest * 0.3) / smallest)` is floating-point arithmetic; it is `Host.scale`. Only its division by zero is modelled.
- `Watermark.ScaledAlpha`: the per-value brightness rule stays abstract (`Host.brighten`), because it is the library's floating-point scaling; the contract says only which factors are refused and that the band keeps its size. A float factor is a real number here, so infinities and NaN are not modelled.
- The random generator is not modelled: each call receives its draws in an `Entropy` value, and `Fair` states that they lie in the ranges `randint` and `choice` promise. Distinct message ids across calls are therefore not a property of the model.
- `json.dumps` is a library call; `Apply` returns the response record itself.
- Loading the asset from a file path in the constructor is I/O; the constructor takes the opened RGBA asset.
- Parameter values are strings, integers and floats. Booleans, `None` and nested objects are not modelled, and neither is a parameters object that is not a dictionary.
- `ImageUri.Lower` lower-cases ASCII letters only; `str.lower` also folds other scripts, which registered image format names do not use.
- Base64 decoding follows CPython 3.11 and later; older versions handle a stray `=` in the middle of the payload slightly differently.
- `data_uri_to_image_array` and `image_array_to_data_uri` are NumPy conversions around the library; they are not used by the tool.
- The request and result message schemas and the queue publisher script are framework plumbing with no logic of their own.
- Concurrency between calls is not modelled; the frame of `Apply` (it may change only the tool's own fields) is what shows that the shared asset is never written.
