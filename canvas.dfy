/** The receipt's raster: an `image::RgbaImage`, that is a width, a height and
    one packed buffer of red, green, blue and alpha bytes, row after row from
    the top. Text drawing is delegated to a glyph rasteriser whose pixel output
    is not modelled; each call is recorded on the image instead. */
module Canvas {
  import opened Ints

  newtype byte = x: int | 0 <= x < 256

  /** Bytes per pixel: red, green, blue, alpha. */
  const Channels: nat := 4

  datatype Rgba = Rgba(r: byte, g: byte, b: byte, a: byte)

  const White: Rgba := Rgba(255, 255, 255, 255)
  const Black: Rgba := Rgba(0, 0, 0, 255)

  /** The two faces the receipt loads: Malgun Gothic and Malgun Gothic Bold. */
  datatype Font = Regular | Bold

  /** One call of `draw_text_mut(image, colour, x, y, scale, font, text)`.
      The scale is the whole-number point size the caller passes. */
  datatype DrawCommand = Draw(colour: Rgba, x: int, y: int, size: nat, font: Font, text: string)

  /** Index of channel `c` of pixel (x, y) in a packed row-major buffer whose
      rows are `w` pixels wide. */
  function Offset(w: nat, x: nat, y: nat, c: nat): nat
  {
    (y * w + x) * Channels + c
  }

  /** Every channel of every pixel of a `w` by `h` image lies in its buffer. */
  lemma OffsetInBounds(w: nat, h: nat, x: nat, y: nat, c: nat)
    requires x < w && y < h && c < Channels
    ensures Offset(w, x, y, c) < w * h * Channels
  {
    assert y * w + x < (y + 1) * w;
    assert (y + 1) * w <= h * w;
  }

  /** Distinct channels of distinct pixels occupy distinct bytes. */
  lemma OffsetInjective(w: nat, x1: nat, y1: nat, c1: nat, x2: nat, y2: nat, c2: nat)
    requires x1 < w && x2 < w && c1 < Channels && c2 < Channels
    requires Offset(w, x1, y1, c1) == Offset(w, x2, y2, c2)
    ensures x1 == x2 && y1 == y2 && c1 == c2
  {
    DivMod(y1 * w + x1, c1, Channels);
    DivMod(y2 * w + x2, c2, Channels);
    DivMod(y1, x1, w);
    DivMod(y2, x2, w);
  }

  /** Quotient and remainder of `q * d + r` by `d` when `r < d`. */
  lemma DivMod(q: nat, r: nat, d: nat)
    requires r < d
    ensures (q * d + r) / d == q && (q * d + r) % d == r
  {
    var n := q * d + r;
    var q', r' := n / d, n % d;
    assert n == q' * d + r' && 0 <= r' < d;
    if q' < q {
      Below(q', r', q, d);
    } else if q < q' {
      Below(q, r, q', d);
    }
  }

  lemma Below(p: nat, r: nat, q: nat, d: nat)
    requires p < q && r < d
    ensures p * d + r < q * d
  {
    var k: nat := q - p - 1;
    assert q * d == p * d + k * d + d;
  }

  class Image {
    const width: u32
    const height: u32
    const data: array<byte>
    /** The text draws the image has received, in order. */
    var drawn: seq<DrawCommand>

    ghost predicate Valid()
    {
      data.Length == width * height * Channels
    }

    /** `ImageBuffer::new(w, h)`: a buffer of `w * h * 4` zero bytes. */
    constructor (w: u32, h: u32)
      ensures Valid() && width == w && height == h && drawn == []
      ensures fresh(data)
      ensures forall i :: 0 <= i < data.Length ==> data[i] == 0
    {
      width, height := w, h;
      data := new byte[w * h * Channels](_ => 0);
      drawn := [];
    }

    /** `img.fill(v)`: every byte of the buffer becomes `v`. */
    method Fill(v: byte)
      modifies data
      ensures forall i :: 0 <= i < data.Length ==> data[i] == v
    {
      var i := 0;
      while i < data.Length
        invariant 0 <= i <= data.Length
        invariant forall k :: 0 <= k < i ==> data[k] == v
      {
        data[i] := v;
        i := i + 1;
      }
    }

    /** The colour stored at pixel (x, y) in the packed row-major layout, as
        red, green, blue and alpha; used to state the canvas's whiteness and
        what the printer reads. */
    function Pixel(x: nat, y: nat): Rgba
      requires Valid() && x < width && y < height
      reads data
    {
      OffsetInBounds(width, height, x, y, 3);
      Rgba(data[Offset(width, x, y, 0)], data[Offset(width, x, y, 1)],
           data[Offset(width, x, y, 2)], data[Offset(width, x, y, 3)])
    }

    /** A buffer whose every byte is `v` shows the colour (v, v, v, v) at every pixel. */
    lemma UniformBytesUniformPixels(v: byte)
      requires Valid()
      requires forall i :: 0 <= i < data.Length ==> data[i] == v
      ensures forall x: nat, y: nat :: x < width && y < height ==> Pixel(x, y) == Rgba(v, v, v, v)
    {
      forall x: nat, y: nat | x < width && y < height
        ensures Pixel(x, y) == Rgba(v, v, v, v)
      {
        OffsetInBounds(width, height, x, y, 3);
      }
    }

    /** `img.as_raw()`: the packed buffer. */
    function Raw(): (bytes: seq<byte>)
      requires Valid()
      reads data
      ensures |bytes| == width * height * Channels
    {
      data[..]
    }

    /** `draw_text_mut(&mut img, ...)`: the call is recorded; the glyph pixels
        it writes into the buffer are not modelled, so nothing is promised
        about the buffer's bytes afterwards. */
    method DrawText(colour: Rgba, x: int, y: int, size: nat, font: Font, text: string)
      modifies this, data
      ensures drawn == old(drawn) + [Draw(colour, x, y, size, font, text)]
    {
      drawn := drawn + [Draw(colour, x, y, size, font, text)];
    }
  }
}
