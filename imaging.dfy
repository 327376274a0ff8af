/**
 * The image library as the watermark tool sees it. Images are RGBA pictures whose
 * alpha band can be replaced in place; everything the library computes from pixels
 * (opening, resizing, brightness, pasting, compositing, PNG saving), together with
 * the floating-point size rule, is reached only through the functions of `Host`,
 * whose insides are not part of this model.
 */
module Imaging {
  import opened Wrappers
  import Base64

  type byte = Base64.byte

  datatype Rgb = Rgb(red: byte, green: byte, blue: byte)

  /** A snapshot of an RGBA image: its size, then its colour and alpha bands in pixel order. */
  datatype Bitmap = Bitmap(width: nat, height: nat, colour: seq<Rgb>, alpha: seq<byte>)

  /** A mutable RGBA image object. */
  class Picture {
    var width: nat
    var height: nat
    var colour: seq<Rgb>
    var alpha: seq<byte>

    /** The image's current contents as a value. */
    function Snapshot(): Bitmap
      reads this
    {
      Bitmap(width, height, colour, alpha)
    }

    constructor FromBitmap(b: Bitmap)
      ensures Snapshot() == b
    {
      width, height, colour, alpha := b.width, b.height, b.colour, b.alpha;
    }

    /** `Image.copy`: a new object with the same contents; the original is untouched. */
    method Copy() returns (p: Picture)
      ensures fresh(p) && p.Snapshot() == Snapshot()
    {
      p := new Picture.FromBitmap(Snapshot());
    }

    /** `Image.putalpha` with a band of the image's own size: only the alpha band changes. */
    method PutAlpha(band: seq<byte>)
      requires |band| == |alpha|
      modifies this
      ensures Snapshot() == old(Snapshot()).(alpha := band)
    {
      alpha := band;
    }
  }

  /** Everything the tool calls but this model does not see. */
  datatype Host = Host(
    // Image.open on the decoded bytes, then convert("RGBA"); fails on bytes that are no image
    open: seq<byte> -> Result<Bitmap, string>,
    // int(side * (smallest * 0.3) / smallest) in floating point, for a positive smallest
    scale: (nat, nat) -> nat,
    // Image.resize to the given width and height
    resize: (Bitmap, nat, nat) -> Result<Bitmap, string>,
    // ImageEnhance.Brightness on one alpha value, with a numeric factor
    brighten: (byte, real) -> byte,
    // a transparent overlay of the input's size, the watermark pasted on it at (x, y)
    // through its own alpha, alpha_composite of input and overlay, then convert("RGB")
    composite: (Bitmap, Bitmap, nat, nat) -> Bitmap,
    // Image.save(format="PNG") into a byte buffer
    savePng: Bitmap -> seq<byte>)
}
