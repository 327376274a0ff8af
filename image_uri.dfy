/**
 * The data-URI helpers of `image_uri_utils.py`: unwrapping a `data:` URI into the
 * bytes of its base64 payload, and wrapping saved image bytes into a
 * `data:image/<format>;base64,<payload>` URI (the syntax of section 3 of RFC 2397).
 * The image library's own decoding and saving are not part of this module: the
 * unwrapped bytes are what it would be handed, and the saved bytes are an input.
 */
module ImageUri {
  import opened Wrappers
  import Base64

  /**
   * `s.split(",", 1)` unpacked into exactly two names: the text before the first
   * comma and everything after it. With no comma the split yields one piece and
   * the unpacking fails, which is None here.
   */
  function SplitAtFirstComma(s: string): (r: Option<(string, string)>)
    ensures r.None? <==> ',' !in s
    ensures r.Some? ==> ',' !in r.value.0 && s == r.value.0 + [','] + r.value.1
  {
    if s == [] then None
    else if s[0] == ',' then Some(([], s[1..]))
    else match SplitAtFirstComma(s[1..])
      case None => None
      case Some((header, payload)) => Some(([s[0]] + header, payload))
  }

  /** The ValueError text of a two-name unpacking that got a single piece. */
  const UnpackError: string := "not enough values to unpack (expected 2, got 1)"

  /** The payload step: base64-decode, with the decoder's exception text on failure. */
  function DecodePayload(encoded: string): Result<seq<Base64.byte>, string>
  {
    match Base64.Decode(encoded)
    case Ok(data) => Ok(data)
    case Err(e) => Err(Base64.Message(e))
  }

  /**
   * `data_uri_to_image_file`: split at the first comma, ignore the header, and
   * base64-decode the rest into the bytes the image file is read from.
   */
  function DataUriToBytes(uri: string): (r: Result<seq<Base64.byte>, string>)
    ensures ',' !in uri <==> r == Err(UnpackError)
  {
    match SplitAtFirstComma(uri)
    case None => Err(UnpackError)
    case Some((_, encoded)) => DecodePayload(encoded)
  }

  /** ASCII lower-casing, which is what `str.lower` does to the image library's format names. */
  function Lower(s: string): (r: string)
    ensures |r| == |s|
  {
    if s == [] then []
    else [if 'A' <= s[0] <= 'Z' then (s[0] as int + 32) as char else s[0]] + Lower(s[1..])
  }

  /** The URI header `data:image/<format lower-cased>;base64`, which holds a comma only if the format does. */
  function Header(format: string): (h: string)
    ensures |h| == |format| + 18 && h[..11] == "data:image/"
    ensures ',' in h <==> ',' in format
  {
    var h := "data:image/" + Lower(format) + ";base64";
    assert ',' in h <==> ',' in format by {
      LowerCharwise(format);
      assert forall c :: c in h <==> c in "data:image/" || c in Lower(format) || c in ";base64";
    }
    h
  }

  /**
   * `image_to_data_uri` once the image has been saved as `saved` in `format`:
   * `data:image/<format lower-cased>;base64,<b64encode(saved)>`.
   */
  function ImageToDataUri(saved: seq<Base64.byte>, format: string := "PNG"): (uri: string)
    ensures |uri| == |format| + 19 + |Base64.Encode(saved)|
    ensures "data:image/" <= uri && uri[|uri| - |Base64.Encode(saved)|..] == Base64.Encode(saved)
    ensures ',' !in format ==> DataUriToBytes(uri) == Ok(saved)
  {
    var h, e := Header(format), Base64.Encode(saved);
    var uri := h + "," + e;
    assert uri[..11] == h[..11];
    assert uri[|h| + 1..] == e;
    assert ',' !in format ==> DataUriToBytes(uri) == Ok(saved) by {
      if ',' !in format {
        PayloadAfterFirstComma(h, e);
        Base64.RoundTrip(saved);
      }
    }
    uri
  }

  /** Lower-casing maps upper-case letters to lower-case ones, keeps every other character, and so adds no comma. */
  lemma {:induction false} LowerCharwise(s: string)
    ensures forall i :: 0 <= i < |s| ==>
      && (s[i] != Lower(s)[i] <==> 'A' <= s[i] <= 'Z')
      && ('A' <= s[i] <= 'Z' ==> Lower(s)[i] as int == s[i] as int + 32)
    ensures ',' in Lower(s) <==> ',' in s
  {
    if s != [] {
      LowerCharwise(s[1..]);
      var r := Lower(s);
      assert r[1..] == Lower(s[1..]);
      forall i | 1 <= i < |s| ensures s[i] == s[1..][i - 1] && r[i] == r[1..][i - 1] { }
    }
  }

  /** The first comma is the split point: commas later in the payload stay in the payload. */
  lemma {:induction false} FirstCommaSplits(header: string, payload: string)
    requires ',' !in header
    ensures SplitAtFirstComma(header + [','] + payload) == Some((header, payload))
  {
    var s := header + [','] + payload;
    if header == [] {
      assert s[0] == ',' && s[1..] == payload;
    } else {
      assert s[0] == header[0] && s[1..] == header[1..] + [','] + payload;
      FirstCommaSplits(header[1..], payload);
      assert [header[0]] + header[1..] == header;
    }
  }

  /** Unwrapping a URI with a comma-free header decodes exactly what follows the first comma. */
  lemma PayloadAfterFirstComma(header: string, payload: string)
    requires ',' !in header
    ensures DataUriToBytes(header + "," + payload) == DecodePayload(payload)
  {
    FirstCommaSplits(header, payload);
  }

  /** The header is never inspected: any two comma-free headers, whatever MIME type they name, unwrap alike. */
  lemma HeaderIgnored(header: string, other: string, payload: string)
    requires ',' !in header && ',' !in other
    ensures DataUriToBytes(header + "," + payload) == DataUriToBytes(other + "," + payload)
  {
    PayloadAfterFirstComma(header, payload);
    PayloadAfterFirstComma(other, payload);
  }

  /** The default format name lower-cases to `png`. */
  lemma LowerPng()
    ensures Lower("PNG") == "png"
  {
    assert "PNG"[0] == 'P' && "PNG"[1..] == "NG";
    assert "NG"[0] == 'N' && "NG"[1..] == "G";
    assert "G"[0] == 'G' && "G"[1..] == [];
    assert Lower("G") == ['g'] + Lower([]);
  }

  /** With the default format the URI announces `image/png`. */
  lemma DefaultFormatIsPng(saved: seq<Base64.byte>)
    ensures ImageToDataUri(saved) == "data:image/png;base64," + Base64.Encode(saved)
  {
    LowerPng();
    assert Header("PNG") + "," == "data:image/png;base64,";
  }
}
