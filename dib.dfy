/** The arguments the receipt builds for `SetDIBitsToDevice`: a
    `BITMAPINFO` describing the image as an uncompressed 32-bit
    device-independent bitmap, and the rectangle and scan lines to transfer.
    The device call itself is not modelled. */
module Dib {
  import opened Ints
  import Canvas

  /** `size_of::<BITMAPINFOHEADER>()`. */
  const HeaderSize: u32 := 40
  /** `biCompression == 0`: `BI_RGB`, uncompressed. */
  const BiRgb: u32 := 0
  /** `DIB_RGB_COLORS`. */
  const DibRgbColors: u32 := 0

  datatype BitmapInfoHeader = BitmapInfoHeader(
    biSize: u32, biWidth: i32, biHeight: i32, biPlanes: u16, biBitCount: u16,
    biCompression: u32, biSizeImage: u32, biXPelsPerMeter: i32, biYPelsPerMeter: i32,
    biClrUsed: u32, biClrImportant: u32)

  datatype RgbQuad = RgbQuad(rgbBlue: Canvas.byte, rgbGreen: Canvas.byte, rgbRed: Canvas.byte, rgbReserved: Canvas.byte)

  datatype BitmapInfo = BitmapInfo(bmiHeader: BitmapInfoHeader, bmiColors: seq<RgbQuad>)

  /** The scalar arguments of `SetDIBitsToDevice` after the device context. */
  datatype Transfer = Transfer(
    xDest: i32, yDest: i32, width: u32, height: u32, xSrc: i32, ySrc: i32,
    startScan: u32, scanLines: u32, colorUse: u32)

  // What a header means to a reader of device-independent bitmaps.

  /** A negative height marks rows stored from the top down. */
  predicate TopDown(h: BitmapInfoHeader)
  {
    h.biHeight < 0
  }

  function Rows(h: BitmapInfoHeader): nat
  {
    if h.biHeight < 0 then -(h.biHeight as int) else h.biHeight
  }

  /** Bytes per stored row: the bits of one row rounded up to whole 32-bit words. */
  function Stride(h: BitmapInfoHeader): int
  {
    ((h.biWidth as int) * h.biBitCount + 31) / 32 * 4
  }

  /** Where a reader of the header looks for byte `c` of pixel (x, y), y
      counted from the top of the picture. */
  function PixelByte(h: BitmapInfoHeader, x: nat, y: nat, c: nat): int
    requires y < Rows(h)
  {
    var row := if TopDown(h) then y else Rows(h) - 1 - y;
    row * Stride(h) + x * (h.biBitCount / 8) + c
  }

  /** An uncompressed, palette-free, single-plane 32-bit picture of the given size. */
  predicate Describes(h: BitmapInfoHeader, width: nat, height: nat)
  {
    && h.biSize == HeaderSize && h.biPlanes == 1 && h.biBitCount == 32
    && h.biCompression == BiRgb && h.biClrUsed == 0 && h.biClrImportant == 0
    && h.biWidth == width && Rows(h) == height
  }

  /** The `BITMAPINFO` literal built from `img.width()` and `img.height()`:
      `biWidth` is the width cast to `i32` and `biHeight` the negated cast
      height, so a picture of positive size is read from the top down. */
  function BitmapInfoFor(width: u32, height: u32): (bmi: BitmapInfo)
    ensures var h := bmi.bmiHeader;
      && h.biSize == HeaderSize && h.biPlanes == 1 && h.biBitCount == 32
      && h.biCompression == BiRgb && h.biClrUsed == 0 && h.biClrImportant == 0
    ensures (width < TwoTo31 && height < TwoTo31) ==> Describes(bmi.bmiHeader, width, height)
    ensures 0 < height < TwoTo31 ==> TopDown(bmi.bmiHeader)
    ensures (bmi.bmiHeader.biWidth - width) % TwoTo32 == 0
    ensures (bmi.bmiHeader.biHeight + height) % TwoTo32 == 0
    ensures bmi.bmiHeader.biSizeImage == 0
    ensures bmi.bmiHeader.biXPelsPerMeter == 0 && bmi.bmiHeader.biYPelsPerMeter == 0
    ensures bmi.bmiColors == [RgbQuad(0, 0, 0, 0)]
  {
    BitmapInfo(
      BitmapInfoHeader(
        biSize := HeaderSize,
        biWidth := AsI32(width),
        biHeight := WrappingNeg(AsI32(height)),
        biPlanes := 1,
        biBitCount := 32,
        biCompression := BiRgb,
        biSizeImage := 0,
        biXPelsPerMeter := 0,
        biYPelsPerMeter := 0,
        biClrUsed := 0,
        biClrImportant := 0),
      [RgbQuad(0, 0, 0, 0)])
  }

  /** A 32-bit row needs no padding: its stride is four bytes per pixel. */
  lemma StrideOf32Bit(h: BitmapInfoHeader)
    requires h.biBitCount == 32 && h.biWidth >= 0
    ensures Stride(h) == h.biWidth * Canvas.Channels
  {
  }

  /** For widths and heights below 2^31, which the casts keep, the header
      reads the image's packed buffer exactly as the image lays it out:
      `height` rows of `4 * width` bytes, and every channel of every pixel at
      the same byte. */
  lemma HeaderReadsBuffer(width: u32, height: u32)
    requires width < TwoTo31 && height < TwoTo31
    ensures var h := BitmapInfoFor(width, height).bmiHeader;
      && Stride(h) * Rows(h) == width * height * Canvas.Channels
      && forall x: nat, y: nat, c: nat :: x < width && y < height && c < Canvas.Channels ==>
           PixelByte(h, x, y, c) == Canvas.Offset(width, x, y, c)
  {
  }

  /** The colour a reader of the header takes pixel (x, y) of `bits` to have:
      a 32-bit `BI_RGB` pixel is stored as blue, green, red and an unused byte. */
  function DeviceColour(h: BitmapInfoHeader, bits: seq<Canvas.byte>, x: nat, y: nat): RgbQuad
    requires y < Rows(h) && 0 <= PixelByte(h, x, y, 0) && PixelByte(h, x, y, 0) + 3 < |bits|
  {
    var i := PixelByte(h, x, y, 0);
    RgbQuad(rgbBlue := bits[i], rgbGreen := bits[i + 1], rgbRed := bits[i + 2], rgbReserved := bits[i + 3])
  }

  /** What the printer makes of `img.as_raw()` under the header built for the
      image: every pixel of the image is found, at its own row and column, and
      its four bytes are taken as blue, green, red and unused. The image stores
      red, green, blue and alpha, so red and blue trade places; a grey pixel,
      black or white among them, is seen as it is. */
  lemma PrinterReadsImage(img: Canvas.Image)
    requires img.Valid() && img.width < TwoTo31 && img.height < TwoTo31
    ensures var h := BitmapInfoFor(img.width, img.height).bmiHeader;
      forall x: nat, y: nat :: x < img.width && y < img.height ==>
        && y < Rows(h) && 0 <= PixelByte(h, x, y, 0) && PixelByte(h, x, y, 0) + 3 < |img.Raw()|
        && var p := img.Pixel(x, y);
           DeviceColour(h, img.Raw(), x, y)
             == RgbQuad(rgbBlue := p.r, rgbGreen := p.g, rgbRed := p.b, rgbReserved := p.a)
  {
    var h := BitmapInfoFor(img.width, img.height).bmiHeader;
    forall x: nat, y: nat | x < img.width && y < img.height
      ensures && y < Rows(h) && 0 <= PixelByte(h, x, y, 0) && PixelByte(h, x, y, 0) + 3 < |img.Raw()|
              && var p := img.Pixel(x, y);
                 DeviceColour(h, img.Raw(), x, y)
                   == RgbQuad(rgbBlue := p.r, rgbGreen := p.g, rgbRed := p.b, rgbReserved := p.a)
    {
      HeaderReadsBuffer(img.width, img.height);
      Canvas.OffsetInBounds(img.width, img.height, x, y, 3);
      assert PixelByte(h, x, y, 0) + 3 == Canvas.Offset(img.width, x, y, 3);
    }
  }

  // What the transfer arguments mean.

  /** Pixel (x, y) of the source picture is among those transferred. */
  predicate InSource(t: Transfer, x: int, y: int)
  {
    t.xSrc <= x < t.xSrc + t.width && t.ySrc <= y < t.ySrc + t.height
  }

  /** Scan line `y` is among those supplied in the buffer. */
  predicate InScans(t: Transfer, y: int)
  {
    t.startScan <= y < t.startScan + t.scanLines
  }

  /** Where source pixel (x, y) lands on the device. */
  function Destination(t: Transfer, x: int, y: int): (int, int)
  {
    (t.xDest + (x - t.xSrc), t.yDest + (y - t.ySrc))
  }

  /** `SetDIBitsToDevice(hdc, 0, 0, w, h, 0, 0, 0, h, bits, &bmi, DIB_RGB_COLORS)`:
      the whole picture and nothing else is transferred, every scan line of
      it is supplied, and each pixel lands at its own coordinates on the page. */
  function TransferFor(width: u32, height: u32): (t: Transfer)
    ensures forall x, y :: InSource(t, x, y) <==> 0 <= x < width && 0 <= y < height
    ensures forall y :: InScans(t, y) <==> 0 <= y < height
    ensures forall x, y :: InSource(t, x, y) ==> Destination(t, x, y) == (x, y)
    ensures t.colorUse == DibRgbColors
    ensures && t.xDest == 0 && t.yDest == 0 && t.xSrc == 0 && t.ySrc == 0
            && t.width == width && t.height == height
            && t.startScan == 0 && t.scanLines == height
  {
    Transfer(
      xDest := 0, yDest := 0, width := width, height := height,
      xSrc := 0, ySrc := 0, startScan := 0, scanLines := height,
      colorUse := DibRgbColors)
  }
}
