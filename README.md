# Kitchen receipt printer, modelled in Dafny

The program, `src/main.rs`, renders a kitchen ticket onto an 800 by 600 RGBA
image and sends it to a Windows printer named `Receipt`. It happens in three
stages:

1. **Canvas.** `ImageBuffer::new(800, 600)` allocates a zeroed buffer of
   `800 * 600 * 4` bytes. `img.fill(255)` then whitens it.
2. **Layout.** The `add_text` closure draws one line and moves a vertical
   cursor `y_offset`, which starts at 10:
   - the text is drawn in opaque black at x = 10 and the current y;
   - the closure picks the bold or regular face;
   - the scale it uses is the requested size;
   - then `*y += line_height` (20).
   `main` calls it sixteen times, with four bare `y_offset += 20/20/20/40`
   gaps in between.
3. **Printing.** A `BITMAPINFOHEADER` describes the buffer: width `w`,
   height `-h` (rows from the top), `biSize` 40, one plane, 32 bits per
   pixel, `BI_RGB`, and every other field zero. `SetDIBitsToDevice` transfers the whole image
   from (0, 0) to (0, 0), with all `h` scan lines.

The Dafny project has four modules:

- `Ints` (`ints.dfy`): the Rust integer widths, the `u32 as i32` cast, and
  `i32` negation as a release build computes it.
- `Canvas` (`canvas.dfy`): the image as a class.
  - A `const` byte array, filled in place by a loop.
  - The packed row-major layout of pixels and channels.
  - The sequence of text draws the image has received. A draw is recorded,
    not rasterised.
- `Dib` (`dib.dfy`): the `BITMAPINFO` and the transfer arguments as values.
  It also gives what a reader of such a header makes of a buffer: which row
  is read, the stride, where each pixel's bytes are, and which channel is
  which.
- `Receipt` (`receipt.dfy`):
  - `add_text` as a method that takes and returns the cursor, as the closure
    does through `&mut i32`.
  - A reference semantics, `Run`, for any sequence of lines and gaps, with
    lemmas about where lines land.
  - `main`'s own sequence of statements, carried out on the image block by
    block. It is proved equal to `Run` of the ticket's directives.
  - The layout facts about this ticket: the 16 lines and the y at which
    each is drawn, the final cursor 430, and everything on the canvas.

A 32-bit `BI_RGB` pixel is read as blue, green, red, unused. The buffer
stores red, green, blue, alpha, so a printer sees red and blue exchanged.
`Dib.PrinterReadsImage` states this as the program has it. A pixel whose
red equals its blue, grey and so black and white among them, is therefore
read as the colour it is stored as.

## Model

| member | source | states |
|---|---|---|
| Ints.AsI32 | src/main.rs:96 | `as i32` keeps the value modulo 2^32 and gives a non-negative result exactly when the `u32` is below 2^31 |
| Ints.AsI32Unique | src/main.rs:96 | any `i32` congruent to the `u32` modulo 2^32 is the cast's result, so the contract of the cast determines it |
| Ints.WrappingNeg | src/main.rs:97 | `-x` is the additive inverse modulo 2^32, and the exact negation for every `i32` except `i32::MIN` |
| Canvas.OffsetInBounds | src/main.rs:14 | every channel of every pixel of a `w` by `h` buffer lies below `w * h * 4` |
| Canvas.OffsetInjective | src/main.rs:14 | two channel positions at the same byte are the same channel of the same pixel |
| Canvas.Image.constructor | src/main.rs:14 | `ImageBuffer::new(w, h)`: the given size, `w * h * 4` bytes all zero, a fresh buffer, nothing drawn |
| Canvas.Image.Fill | src/main.rs:15 | after `fill(v)` every byte of the buffer is `v` |
| Canvas.Image.UniformBytesUniformPixels | src/main.rs:15 | a buffer whose bytes are all `v` shows `(v, v, v, v)` at every pixel, so 255 everywhere is opaque white |
| Canvas.Image.Raw | src/main.rs:120 | `as_raw()` is the whole buffer, `w * h * 4` bytes |
| Canvas.Image.DrawText | src/main.rs:29-37 | one draw is appended to those already made, with exactly the colour, position, size, face and text given; the buffer may change, and nothing is promised about its bytes |
| Receipt.FontFor | src/main.rs:28 | the bold face is chosen exactly when `is_bold` holds |
| Receipt.Step | src/main.rs:29-38 | one `add_text` call adds exactly its draw, at the cursor, and moves the cursor 20 down; one `y_offset += n` (lines 43, 46, 53, 67) draws nothing and moves the cursor by `n` |
| Receipt.AddText | src/main.rs:26-39 | one draw of the text in black at (10, old y) in the face `is_bold` selects, and the cursor moved down by 20, whatever the size or face |
| Receipt.Placements | src/main.rs:26-39 | the y of each line of a run, in order, is the cursor after the statements before it; there is one position per line |
| Receipt.RunYs | src/main.rs:26-39 | a run keeps the y of the earlier draws and gives its own draws exactly the y values `Placements` lists |
| Receipt.RunPlacesLine | src/main.rs:26-39 | the line at index i of a run is drawn at the cursor the statements before it leave: start + 20 per earlier line + the earlier gaps |
| Receipt.PlacementsAppend | src/main.rs:42-68 | placing two runs in turn is placing the first and then the second from where the first leaves the cursor |
| Receipt.OnlyLinesPlacements | src/main.rs:55-65 | consecutive `add_text` calls put their lines one line height apart |
| Receipt.RunAppend | src/main.rs:42-68 | carrying out two runs of statements one after the other is carrying out their concatenation |
| Receipt.RunCursor | src/main.rs:26-39 | a run makes one draw per line and none per gap, and moves the cursor 20 per line plus the sum of the gaps |
| Receipt.RunDraws | src/main.rs:26-39 | a run keeps the earlier draws, and its k-th new draw is the k-th line's text in black at x = 10 with that line's size and face |
| Receipt.RunEndsWithLine | src/main.rs:38 | when a run ends with a line, the last draw sits exactly one line height above the final cursor |
| Receipt.PlacementIgnoresStyle | src/main.rs:26-39 | the final cursor and all vertical positions depend only on the pattern of lines and gaps, never on text, size or weight |
| Receipt.RunOrdered | src/main.rs:26-39 | without backward gaps, draws go strictly downwards, each lies wholly above the final cursor, and new ones start at or below the starting cursor |
| Receipt.LinesAppend | src/main.rs:42-68 | the lines of a concatenation are the lines of its parts, in order |
| Receipt.GapTotalAppend | src/main.rs:42-68 | the gaps of a concatenation add up to the sum of its parts' gaps |
| Receipt.NoBackwardGapsAppend | src/main.rs:42-68 | concatenating runs without backward gaps gives a run without backward gaps |
| Receipt.OnlyLines | src/main.rs:55-65 | a run of bare `add_text` calls draws one line per call and moves the cursor by lines alone |
| Receipt.Heading | src/main.rs:42-53 | the heading's statements in order: "Kitchen #1" at size 16 bold, a gap of 20, "TABLE M1" and "ORDER #1-1" at size 14 bold, a gap of 20, the invoice line at size 12, a gap of 20 |
| Receipt.Items | src/main.rs:55-65 | the item block: the first items followed by the last items |
| Receipt.FirstItems | src/main.rs:55-59 | the five item lines of lines 55-59, in order, each at size 12 and not bold |
| Receipt.LastItems | src/main.rs:60-65 | the six item lines of lines 60-65, in order, each at size 12 and not bold |
| Receipt.Footer | src/main.rs:67-68 | a gap of 40, then "Printed 6:37 PM" at size 12 and not bold |
| Receipt.ReceiptDocument | src/main.rs:42-68 | the whole ticket: heading, items, footer |
| Receipt.HeadingShape | src/main.rs:42-53 | the heading has 4 lines and gaps of 60 in all, none backward |
| Receipt.ItemsAllLines | src/main.rs:55-65 | the item block is 11 `add_text` calls and nothing else |
| Receipt.ItemsShape | src/main.rs:55-65 | the item block draws 11 lines and has no gaps |
| Receipt.FooterShape | src/main.rs:67-68 | the footer is a gap of 40 followed by one line |
| Receipt.LayOutHeading | src/main.rs:42-53 | the heading's statements leave the cursor and draws where `Run` of the heading puts them, 140 lower |
| Receipt.LayOutItems | src/main.rs:55-65 | the item block's statements leave the cursor and draws where `Run` of the items puts them, 220 lower |
| Receipt.LayOutFirstItems | src/main.rs:55-59 | the first five item lines agree with `Run`, 100 lower |
| Receipt.LayOutLastItems | src/main.rs:60-65 | the last six item lines agree with `Run`, 120 lower |
| Receipt.LayOutFooter | src/main.rs:67-68 | the footer's statements agree with `Run`, 60 lower |
| Receipt.NewWhiteCanvas | src/main.rs:14-15 | a fresh 800 by 600 image, nothing drawn yet, every byte 255 and so every pixel opaque white |
| Receipt.RenderReceipt | src/main.rs:14-68 | a fresh 800 by 600 image whose cursor and draws equal `Run` of the whole ticket from y = 10 |
| Receipt.FitsWhenShaped | src/main.rs:23-68 | any ticket of 16 lines with 100 of forward gaps that ends with a line is laid out as `TicketLaidOut` says |
| Receipt.ThreeBlocksFit | src/main.rs:42-68 | a heading, body and footer with the ticket's counts of lines and gaps make a ticket laid out as `TicketLaidOut` says |
| Receipt.HeadingPlacements | src/main.rs:42-53 | the heading's lines land at y = 10, 50, 70 and 110 |
| Receipt.FooterPlacements | src/main.rs:67-68 | from the cursor 370 the items leave, the footer's line lands at y = 410 |
| Receipt.HeadingThenItemsPlace | src/main.rs:42-65 | after a heading with 4 lines and 60 of gaps, eleven bare lines land one line height apart from y = 150 |
| Receipt.ThreeBlocksPlace | src/main.rs:42-68 | blocks placed and counted as the ticket's are draw at y = 10, 50, 70, 110, 150, 170, …, 350, 410 |
| Receipt.ReceiptLineYs | src/main.rs:42-68 | the ticket's sixteen lines are drawn at y = 10, 50, 70, 110, 150, 170, 190, 210, 230, 250, 270, 290, 310, 330, 350, 410 |
| Receipt.ReceiptFits | src/main.rs:23-68 | this ticket: 16 draws, final cursor 430, last line at 410, strictly downwards, every line at x = 10 and between y = 10 and 430 − 20, inside the 800 by 600 canvas |
| Dib.BitmapInfoFor | src/main.rs:93-108 | for every size: biSize 40, one plane, 32 bits, `BI_RGB`, and zero colour counts; for sizes below 2^31 the header describes a picture of the image's width and height, top-down for positive heights; it keeps width and negated height modulo 2^32 for all sizes; the unused fields are zero and there is one zero colour entry |
| Dib.StrideOf32Bit | src/main.rs:99 | a 32-bit row needs no padding: its stride is 4 bytes per pixel |
| Dib.HeaderReadsBuffer | src/main.rs:93-108 | for sizes below 2^31, rows of the stated stride cover the buffer exactly, and every channel of every pixel is read at the byte where the image stores it |
| Dib.PrinterReadsImage | src/main.rs:110-123 | under the header, every pixel of the image is found at its own row and column, and its bytes are read as blue, green, red, unused |
| Dib.TransferFor | src/main.rs:110-123 | exactly the pixels of the image are transferred, every scan line is supplied, each pixel lands at its own coordinates, and colours are RGB values; the arguments are 0, 0, w, h, 0, 0, 0, h |
| Receipt.ReceiptPrintArguments | src/main.rs:93-123 | for 800 by 600: biWidth 800, biHeight −600, top-down, 3200-byte rows covering the buffer, and a transfer of exactly the canvas |

## Left out

- Font loading (`src/main.rs:18-20`) and its `unwrap` panics: the two faces are the values `Regular` and `Bold`.
- Glyph rasterisation by `draw_text_mut` is not modelled. Each call is recorded as a draw command and may change any byte of the buffer. So the model says nothing about the pixels after the first draw; the canvas is white only up to then.
- The `f32` scale: sizes are carried as whole numbers, because the program passes only 16.0, 14.0 and 12.0 and the size never affects the cursor.
- The printer session (`src/main.rs:72-90` and `125-129`) is not modelled: `CreateDCW`, `DOCINFOW`, `StartDocW`, `StartPage`, `EndPage`, `EndDoc`, `DeleteDC`, and their ignored return values. These calls are I/O on a device. The model keeps only the arguments the image transfer is given.
- `SetDIBitsToDevice` itself is not modelled; only its arguments are.
- Receipt.AddText: requires that `y + 20` fits in `i32`. The program's `*y += line_height` would panic in a debug build and wrap in a release build. The ticket's cursor never exceeds 430.
- Receipt.LayOutHeading: requires that the cursor plus 140 fits in `i32`, for the same reason.
- Receipt.LayOutItems: requires that the cursor plus 220 fits in `i32`, for the same reason.
- Receipt.LayOutFirstItems: requires that the cursor plus 100 fits in `i32`, for the same reason.
- Receipt.LayOutLastItems: requires that the cursor plus 120 fits in `i32`, for the same reason.
- Receipt.LayOutFooter: requires that the cursor plus 60 fits in `i32`, for the same reason.
- `main`'s single sequence of statements is split into methods: one per block, and the item block in two. The statements, their order and their arguments are unchanged, apart from the sizes, carried as whole numbers (see the `f32` line).
- Ints.WrappingNeg: models the release-build result. A debug build panics when negating `i32::MIN`, which `-(h as i32)` reaches only for `h = 2^31`.
