# Mandelbrot canvas engine — a Dafny model

This project models the drawing core of `engine.js`, a single-file browser
program. The program draws the Mandelbrot set into an HTML5 canvas and zooms
on mouse clicks. The model has five modules:

- `Escape` (`escape.dfy`) is the escape-time loop of `drawMandel`. It iterates
  z := z² + c from z = 0 on separate real and imaginary parts. It stops when
  |z|² reaches 2·2 or the count reaches the cap `maxIterations = 255`.
  `EscapeCount` is the loop written as a function. `EscapeTime` is the loop
  itself, proved equal to that function. `Orbit` is an independent reference
  definition of the orbit. The lemmas prove that the count is the index of the
  first escaping orbit element.
- `Mapping` (`mapping.dfy`) is the `mandelMap` object. The class `MandelMap`
  has the four plane bounds `mx0, mx1, my0, my1` and the grid size `lx, ly`.
  It has the getters `X`/`Y` and the in-place `Zoom`. `Viewport` is the same
  state as a value. `Zoomed` is the pure specification of a zoom.
- `FrameBuffer` (`framebuffer.dfy`) is the ImageData buffer and `blit`, with
  the index arithmetic `(x + y*width)*4`.
- `Render` (`render.dfy`) is the nested row/column scan of `drawMandel`. It
  is specified by the predicate `Rendered`: every pixel of the frame holds the
  grey shade of its escape count.
- `Click` (`click.dfy`) is the page state (the mapping, the canvas size and
  the displayed pixels) and `canvasClick`'s decision rule: only `mouseup`
  acts; button 0 zooms in by 0.5, button 2 zooms out by 2, any other button
  re-centres with factor 1; the zoom is followed by a redraw.

Doubles are modelled as exact Dafny `real`s, so the affine and zoom algebra
holds exactly. The model captures none of the rounding of the original.

The model keeps these behaviours of the code, which a reader might not expect:

- The code zooms with factor 1 on a button other than 0 or 2, and then
  redraws. It does not ignore the click.
- `zoom` accepts any factor, including non-positive ones. It does not reject
  them. The model proves that well-ordering is kept only for positive factors.
  The click handler only ever passes positive factors.
- `blit` does not check the pixel's range. The typed array drops writes to
  slots that do not exist, and `Blit` models exactly that. An `x` at or past
  the width lands in the next row. The scan never produces such an `x`.
- `mapping = undefined` at the end of `drawMandel` only rebinds a parameter.
  `DrawMandel` does not modify the mapping.

## Model

| member | source | states |
|---|---|---|
| `Escape.Iterate` | engine.js:108-115 | the loop started at count `itn` always stops, with a final count between `itn` and the cap |
| `Escape.EscapeCount` | engine.js:95-115 | the escape count of c never exceeds the cap, and is at least 1 when the cap is positive (the first test on z = 0 always passes) |
| `Escape.IterateFollowsOrbit` | engine.js:108-115 | run from the k-th orbit element, the loop stops at the first orbit element at or after k with \|z\|² ≥ 4, or at the cap |
| `Escape.EscapeCountIsFirstEscape` | engine.js:104-115 | n equals the escape count exactly when every orbit element before n stays inside the radius-2 disc, and element n escapes unless n is the cap |
| `Escape.FirstEscapeUnique` | engine.js:104-115 | an orbit has at most one first-escape index, so the count the loop returns is the only one consistent with the orbit |
| `Escape.OriginNeverEscapes` | engine.js:104-115 | c = (0, 0) never escapes: its count equals the cap |
| `Escape.FarPointEscapesAtOnce` | engine.js:104-115 | a c with x0² + y0² ≥ 4, such as (2, 2), has count exactly 1 when the cap is positive |
| `Escape.EscapeTime` | engine.js:95-115 | the `while` loop over `x`, `y`, `temp`, `itn` returns the escape count of (x0, y0) |
| `Mapping.Zoomed` | engine.js:65-80 | after a zoom about (x, y) by s, both extents equal the old extents times s, and the new centre is the anchor's old plane point; the grid size is unchanged; for s > 0, `mx0 < mx1` and `my0 < my1` are preserved |
| `Mapping.PlaneX` | engine.js:57-59 | the getter `x` on a viewport value, mx0 + px·(mx1 − mx0)/lx: column 0 gives mx0, column lx gives mx1, and every column from 0 to lx lands inside a well-ordered rectangle |
| `Mapping.PlaneY` | engine.js:60-62 | the getter `y` on a viewport value, my0 + py·(my1 − my0)/ly: row 0 gives my0, row ly gives my1, and every row from 0 to ly lands inside a well-ordered rectangle |
| `Mapping.MandelMap.X` | engine.js:57-59 | the getter `x` on the object's fields; same edge and in-rectangle guarantees as `PlaneX`; its further properties are `PlaneAffine` and `PlaneIncreasing` |
| `Mapping.MandelMap.Y` | engine.js:60-62 | the getter `y` on the object's fields; same edge and in-rectangle guarantees as `PlaneY`; its further properties are `PlaneAffine` and `PlaneIncreasing` |
| `Mapping.PlaneAffine` | engine.js:57-62 | the getters are affine: the plane distance between pixels p and q is (q − p) times the plane width of one pixel |
| `Mapping.PlaneIncreasing` | engine.js:57-62 | on a rectangle with `mx0 < mx1`, `x` is strictly increasing in the pixel column; likewise for `y` |
| `Mapping.ZoomByOneRecentres` | engine.js:72-79 | a zoom by factor 1 keeps both extents and only moves the centre to the anchor's plane point |
| `Mapping.ZoomCompose` | engine.js:65-80 | a zoom by s1 and then by s2, anchored at pixels that show the same plane point, equals one zoom by s1·s2 |
| `Mapping.MandelMap.constructor` | engine.js:44-54 | a new map covers x ∈ [−2.5, 1], y ∈ [−1, 1] over the given grid |
| `Mapping.MandelMap.Zoom` | engine.js:65-80 | the fields after `zoom(x, y, s)` are exactly `Zoomed` of the fields before |
| `FrameBuffer.PixelIndex` | engine.js:34 | the first slot (x + y·width)·4 of pixel (x, y) is a multiple of 4, and for 0 ≤ x < width, 0 ≤ y the pixel is recovered from it: slot/4 mod width = x, slot/4 div width = y |
| `FrameBuffer.RowAndColumn` | engine.js:32-34 | dividing x + y·width by the width gives back row y (quotient) and column x (remainder) for 0 ≤ x < width, 0 ≤ y |
| `FrameBuffer.PixelInBounds` | engine.js:34 | for 0 ≤ x < width and 0 ≤ y < height, the slots index..index+3 lie inside a buffer of 4·width·height slots |
| `FrameBuffer.PixelsDisjoint` | engine.js:34 | distinct in-range pixels write disjoint groups of four slots |
| `FrameBuffer.SlotOwner` | engine.js:34 | every slot of the buffer belongs to an in-range pixel, computed back from the slot number, so the layout covers the buffer |
| `FrameBuffer.WritePixel` | engine.js:34-38 | writing the four slots of pixel (x, y) makes that pixel read (r, g, b, a) and leaves every other pixel as it was |
| `FrameBuffer.ImageData.constructor` | engine.js:87 | a new ImageData has 4·width·height slots, all 0 |
| `FrameBuffer.Blit` | engine.js:30-39 | `data[i..i+3]` become r, g, b, a with i = (x + y·width)·4; every other slot is unchanged; slots outside the array are not written |
| `Render.RenderedIsUnique` | engine.js:89-119 | two complete frames of the same viewport and size are identical slot for slot, so an identical re-render reproduces the buffer |
| `Render.RenderedIsBytes` | engine.js:108-117 | every slot of a complete frame lies in 0..255 |
| `Render.FirstFrameSamples` | engine.js:89-117 | in the first 700×400 frame, pixel (0, 0) shows (−2.5, −1) with count 1, and pixel (500, 200) shows the origin with count 255 |
| `Render.DrawMandel` | engine.js:84-126 | after the scan, every pixel (i, j) with i < iMax and j < jMax holds (n, n, n, 255), where n is the escape count of (x(i), y(j)); the mapping is not modified |
| `Click.ZoomScale` | engine.js:160-168 | the factor is positive; it is below 1 exactly for button 0 (0.5) and above 1 exactly for button 2 (2); every other button gives 1 |
| `Click.ZoomInThenOutRestoresExtent` | engine.js:160-171 | a left click followed by a right click, anchored anywhere, restores both extents |
| `Click.Session.constructor` | engine.js:178-193 | page start-up: the mapping covers the initial rectangle over the canvas grid, and the canvas shows its complete frame |
| `Click.Session.CanvasClick` | engine.js:156-173 | a `mouseup` zooms the mapping about the clicked pixel by the button's factor and redraws the complete frame of the new rectangle; any other event changes nothing; the rectangle stays well ordered |

## Left out

- DOM and canvas plumbing is browser I/O with no logic: `append`, `initCanvas`, `getContext`, `createImageData` and `putImageData`. Creating the buffer is the `ImageData` constructor. Presenting it is the assignment of `Session.displayed`.
- Translating a mouse event to a canvas pixel depends on the browser: `pageX`/`clientX`, scroll offsets, `offsetLeft`/`offsetTop`. `CanvasClick` takes the pixel (x, y), the event type and the button as inputs.
- `CanvasClick`, `MandelMap.Zoom`, `MandelMap.X`, `MandelMap.Y`, `Zoomed`, `PlaneX` and `PlaneY` take whole-pixel `int` anchors. In the original, `pageX - offsetLeft` and the getters accept any double. Click coordinates that are not whole pixels are not modelled.
- `preventDefault`, `stopPropagation`, the `oncontextmenu` handler and the `addEventListener` calls have no checkable logic.
- IEEE-754 behaviour is not modelled: rounding, precision loss at deep zoom, and NaN/Infinity in the escape loop. All arithmetic is over exact reals.
- A grid of width or height 0 is not modelled. The getters divide by it, which in the original gives Infinity or NaN. `MandelMap.X`, `MandelMap.Y`, `MandelMap.Zoom` and `DrawMandel` require a positive grid. The `Session` constructor requires a positive canvas size.
- The 8-bit clamping of the `Uint8ClampedArray` store is not modelled; the buffer holds `int`s. `RenderedIsBytes` shows that clamping never changes a value that `drawMandel` writes.
- The page's global variables (`canvas`, `context`, `mapping`, `iMax`, `jMax`) become the fields of `Session` and the parameters of `DrawMandel`.
- `DrawMandel` returns the filled buffer and the caller stores it. In the original, `drawMandel` itself calls `putImageData`.
- Blit: the per-pixel readback and "other pixels unchanged" clauses hold only for an in-range pixel of a well-formed buffer. The exact slot-level clause holds for every input.
