# Mandelbrot fractal explorer: a verified model of its core

The explorer draws the Mandelbrot set into a 900×900 image. For each pixel it
does three things:
- it maps the pixel to a point `c` of the complex plane through the current view (zoom factor and top-left corner);
- it iterates `z := z*z + c` from `z = 0` until the squared modulus passes 4, stopping at a cap of 600 iterations;
- it turns the iteration count into a posterised 32-bit colour by OR-ing a shifted bit mask onto a base pattern.

The W, A, S and D keys pan the view by one sixth of the frame. A mouse click zooms in
or out around the clicked point. Each of these actions re-renders the whole
image.

This model covers the computational core of `MandelBrot` in `Mandelbrot.java`:
- `makeColor`, with exact Java `int` semantics;
- `computeIterations`, as a loop over reals;
- `getXPos` and `getYPos`;
- the four pans;
- `Canvas.adjustZoom` and the zoom dispatch in `Canvas.mousePressed`;
- `updateFractal`, as nested loops over a 2-D buffer.

Modules:
- `Config` (config.dfy): `WIDTH`, `HEIGHT`, `MAX_ITER`, the `DEFAULT_*` view and the AWT button codes.
- `Quantizer` (quantizer.dfy): `makeColor`. Colours are `bv32`, the bit pattern of the Java `int`. Java's truncating `/` and its `<<`, which uses only the low five bits of the shift count, are written out and specified bit by bit.
- `Evaluator` (evaluator.dfy): `computeIterations` as a `while` loop. It is proved against the orbit `Orbit(c, k)` and the specification function `EscapeTime`. `EscapeTime` is characterised as the first escape index, capped at `MAX_ITER`.
- `Viewport` (viewport.dfy): the view as a value `View(zoomFactor, topLeftX, topLeftY)`. It holds the pixel-to-plane mappings and their inverses, and pure functions for each pan and for the zoom. These functions state what each action does to the picture.
- `Explorer` (explorer.dfy): the class `MandelBrot`. Its fields `zoomFactor`, `topLeftX` and `topLeftY` are updated in place, and its frame buffer `fractalImage` is an `array2<bv32>`. Each action's `modifies` clause names exactly the fields it changes. Each action's postcondition ties the new view to the pure function of the old one, and says the image is re-rendered.

Three points of the loop and the colour are easy to misread:
- `computeIterations` never returns 0. The first loop test sees `z = 0`, which is bounded, so the counter is incremented at least once. The result lies in `[1, MAX_ITER]`. For `c = (2, 0)` the result is 2, because `|2|² = 4` still passes the `<= 4.0` test.
- The loop can perform `MAX_ITER + 1` recurrence steps, not `MAX_ITER`. The step is taken before the cap is checked.
- The colour for a point inside the set is `Color.BLACK.getRGB()`, which is `0xFF000000` with the alpha bits set, not `0x000000`.

## Model

| member | source | states |
|---|---|---|
| `Quantizer.JavaDiv` | Mandelbrot.java:160 | the quotient is truncated toward zero: for `n >= 0`, `q*d <= n < q*d + d`; for `n < 0`, `q*d - d < n <= q*d <= 0` |
| `Quantizer.JavaShl` | Mandelbrot.java:166 | bit `i` of `x << n` is bit `i - (n mod 32)` of `x` when `i >= n mod 32`, and 0 below that; bits moved past bit 31 are lost |
| `Quantizer.MakeColor` | Mandelbrot.java:156-167 | the colour is black (`0xFF000000`) if and only if `iterCount == MAX_ITER`; otherwise it contains every bit of the base pattern |
| `Quantizer.ColorConstantOnBlocks` | Mandelbrot.java:160-166 | two counts other than `MAX_ITER` with the same `iterCount / 13` get the same colour |
| `Quantizer.ColorRepeatsEvery32Blocks` | Mandelbrot.java:160-166 | counts whose shift magnitudes agree modulo 32 get the same colour, because Java wraps the shift count |
| `Quantizer.FirstBlockColor` | Mandelbrot.java:158-166 | counts 0..12 give the base pattern OR the unshifted mask, `0x6E1D7F` |
| `Quantizer.ColorWrapsAt416` | Mandelbrot.java:158-166 | counts 416..428 have shift magnitude 32, which Java reduces to 0, so they get the colour of count 0 |
| `Evaluator.StepIsSquarePlusC` | Mandelbrot.java:176-184 | the expanded real and imaginary updates compute `z*z + c` in complex arithmetic |
| `Evaluator.OrbitNext` | Mandelbrot.java:198-201 | each orbit point is one recurrence step after the previous one |
| `Evaluator.EscapeFrom` | Mandelbrot.java:196-214 | from a test with `k` steps done, the answer lies in `[k, MAX_ITER]`; it equals `k` exactly when `z` is already outside the radius or `k` is the cap |
| `Evaluator.EscapeTime` | Mandelbrot.java:188-214 | the count for a point is always in `[1, MAX_ITER]` |
| `Evaluator.EscapeFromIsEscapeCount` | Mandelbrot.java:196-214 | once `k` orbit points have stayed bounded, the count computed from step `k` is the first escape index, capped at `MAX_ITER` |
| `Evaluator.EscapeTimeIsEscapeCount` | Mandelbrot.java:188-214 | the count is the first `n` whose orbit point leaves the radius, or `MAX_ITER` if none does first; all earlier orbit points are bounded |
| `Evaluator.EscapeCountUnique` | Mandelbrot.java:196-214 | at most one count fits that characterisation |
| `Evaluator.OriginOrbitIsOrigin` | Mandelbrot.java:188-201 | for `c = 0` the orbit stays at 0 |
| `Evaluator.OriginIsInside` | Mandelbrot.java:188-207 | the origin gets `MAX_ITER` |
| `Evaluator.TwoEscapesAfterTwoSteps` | Mandelbrot.java:188-214 | `c = (2, 0)` gets 2: `z` goes 0, 2, 6, and 6 is the first value outside the radius |
| `Evaluator.CornerEscapesAfterOneStep` | Mandelbrot.java:188-214 | `c = (-2, -1.5)` gets 1 |
| `Evaluator.BoundedThroughCap` | Mandelbrot.java:196-207 | a point whose first `MAX_ITER + 1` orbit points are bounded gets `MAX_ITER` |
| `Evaluator.FirstEscapeAt` | Mandelbrot.java:196-214 | a point whose orbit first leaves the radius at `k <= MAX_ITER` gets `k` |
| `Evaluator.ComputeIterations` | Mandelbrot.java:171-216 | the loop, which saves `z_r` before the update, returns `EscapeTime(c)`, a value in `[1, MAX_ITER]`; it takes at most `MAX_ITER + 1` steps, and exactly `n` steps when it returns a count `n` below the cap |
| `Viewport.XPos` | Mandelbrot.java:122-125 | `getXPos` is inverted by `PixelX`: the pixel column of the real part it returns is `x` |
| `Viewport.YPos` | Mandelbrot.java:128-131 | `getYPos` is inverted by `PixelY`: the pixel row of the imaginary part it returns is `y` |
| `Viewport.XPosOfPixelX` | Mandelbrot.java:122-125 | every real part is shown by some column: `XPos(PixelX(re)) == re` |
| `Viewport.YPosOfPixelY` | Mandelbrot.java:128-131 | every imaginary part is shown by some row: `YPos(PixelY(im)) == im` |
| `Viewport.PanUp` | Mandelbrot.java:221-226 | zoom and `topLeftX` are unchanged; row `y` now shows what row `y - HEIGHT/6` showed |
| `Viewport.PanDown` | Mandelbrot.java:228-233 | zoom and `topLeftX` are unchanged; row `y` now shows what row `y + HEIGHT/6` showed |
| `Viewport.PanLeft` | Mandelbrot.java:237-242 | zoom and `topLeftY` are unchanged; column `x` now shows what column `x - WIDTH/6` showed |
| `Viewport.PanRight` | Mandelbrot.java:246-251 | zoom and `topLeftY` are unchanged; column `x` now shows what column `x + WIDTH/6` showed |
| `Viewport.ZoomAt` | Mandelbrot.java:354-360 | the zoom factor becomes the new one, and the point that was under the clicked pixel is now under the centre pixel (450, 450) |
| `Viewport.PanUpThenDown` | Mandelbrot.java:221-233 | over the reals, moving down undoes moving up |
| `Viewport.PanRightThenLeft` | Mandelbrot.java:237-251 | over the reals, moving left undoes moving right |
| `Viewport.ZoomInThenOut` | Mandelbrot.java:354-398 | a left click then a right click at `(x, y)` restores the zoom but moves the corner by `(1.5x - 675)/zoom` and `-(1.5y - 675)/zoom`; the view is restored if and only if both clicks hit (450, 450) |
| `Viewport.ZoomInThenOutX` | Mandelbrot.java:354-360 | the `topLeftX` part of that result |
| `Viewport.ZoomInThenOutY` | Mandelbrot.java:354-360 | the `topLeftY` part of that result |
| `Explorer.Pixel` | Mandelbrot.java:139-143 | a pixel's colour is black if and only if its point is counted as inside the set |
| `Explorer.DefaultCornerPixel` | Mandelbrot.java:36-43 | with the default corner (-2, 1.5), at any zoom, pixel (0, 0) shows (-2, -1.5) and gets colour `0x6E1D7F` |
| `Explorer.OriginPixelIsBlack` | Mandelbrot.java:139-143 | in any view, a pixel whose point is the origin is black |
| `Explorer.DefaultOriginPixelIsBlack` | Mandelbrot.java:36-43 | in the start-up view (zoom 300, corner (-2, 1.5)), pixel (600, 450) shows the origin and is black |
| `Explorer.PanUpShiftsRows` | Mandelbrot.java:221-226 | after a pan up, each rendered row repeats the row 150 pixels above it in the old image |
| `Explorer.PanDownShiftsRows` | Mandelbrot.java:228-233 | after a pan down, each rendered row repeats the row 150 pixels below it |
| `Explorer.PanLeftShiftsColumns` | Mandelbrot.java:237-242 | after a pan left, each rendered column repeats the column 150 pixels to its left |
| `Explorer.PanRightShiftsColumns` | Mandelbrot.java:246-251 | after a pan right, each rendered column repeats the column 150 pixels to its right |
| `Explorer.MandelBrot.constructor` | Mandelbrot.java:63-73 | starts with the default view and a `WIDTH`×`HEIGHT` image that is fully rendered |
| `Explorer.MandelBrot.UpdateFractal` | Mandelbrot.java:133-149 | every pixel `(x, y)` with `0 <= x < WIDTH` and `0 <= y < HEIGHT` ends up holding `makeColor(computeIterations(getXPos(x), getYPos(y)))`; the view fields are unchanged |
| `Explorer.MandelBrot.MoveUp` | Mandelbrot.java:221-226 | changes only `topLeftY`, to the view `PanUp` gives, then re-renders |
| `Explorer.MandelBrot.MoveDown` | Mandelbrot.java:228-233 | changes only `topLeftY`, to the view `PanDown` gives, then re-renders |
| `Explorer.MandelBrot.MoveLeft` | Mandelbrot.java:237-242 | changes only `topLeftX`, to the view `PanLeft` gives, then re-renders |
| `Explorer.MandelBrot.MoveRight` | Mandelbrot.java:246-251 | changes only `topLeftX`, to the view `PanRight` gives, then re-renders |
| `Explorer.MandelBrot.AdjustZoom` | Mandelbrot.java:354-362 | applies the four offset updates in order around the change of zoom factor, giving the view `ZoomAt` gives, then re-renders |
| `Explorer.MandelBrot.MousePressed` | Mandelbrot.java:384-403 | button 1 zooms at the click with factor `zoomFactor*2`; button 3 zooms with `zoomFactor/2`; any other button changes nothing |

## Left out

- Swing and AWT plumbing is not modelled, because it is event handling and display I/O. This covers the `JFrame` setup (`setInitialGUIProperties`), the `Canvas` panel (`addCanvas`, `getPreferredSize`, `paintComponent`), `canvas.repaint()`, the key bindings in `addKeyStrokeEvents`, and the empty mouse callbacks. The key bindings connect W, A, S and D to `MoveUp`, `MoveLeft`, `MoveDown` and `MoveRight`. `addCanvas` allocating a `WIDTH`×`HEIGHT` image is modelled in the constructor.
- The full-screen path `doIt` (Mandelbrot.java:255-346) is not modelled. It depends on `GraphicsDevice` and `Frame`, and it re-renders into a freshly allocated image of the window's size. Because of that, `fractalImage` is a `const` here.
- IEEE-754 doubles are modelled as reals. No claim is made about rounding. The pan round trips (`PanUpThenDown`, `PanRightThenLeft`) hold over reals only. Overflow of `zoomFactor` after many zoom-ins, underflow after many zoom-outs, and NaN or infinite coordinates are not modelled.
- `zoomFactor` has the positive-real type `PosReal`. The source never checks it, but it divides by it everywhere, and its callers only double or halve it. `AdjustZoom` takes its new factor as a `PosReal` for the same reason.
- `BufferedImage.setRGB` is not modelled, because it is a library call. The image is a plain `array2<bv32>` holding the Java `int` that `makeColor` returns, so the alpha bits that a `TYPE_INT_RGB` image drops are kept.
