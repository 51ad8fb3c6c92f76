# Mandelbrot explorer model

A Dafny model of the Mandelbrot explorer in `src/mandelbrot.c`, a small game module for
the camera firmware. The explorer keeps one global record, `gState`. It has two modes:

- **Render mode.** The host calls `gui_mandelbrot_draw` once per frame. Each call paints
  up to `speed` blocks of 20 x 20 pixels, in row-major order. SET pauses and resumes.
- **Select mode.** When the last block is done, the explorer switches to select mode and
  shows a blue cursor block. The arrows move the cursor one block at a time. SET zooms
  into the cursor block. ERASE and DISPLAY return to the initial view. All three start
  rendering again.

Every pixel is coloured by the escape-time test. Iterate z <- z^2 + c from z = 0. A pixel
is black if |z|^2 never exceeds 4 within `max_iterations` steps. Otherwise it takes the
palette entry for the iteration that escaped.

The model is organised in these modules:

- `Kernel`: the escape loop (`EscapeTime`) and the classification it computes.
- `Palette`: the colour index. The source's index expression groups as
  `(iterations % 28) / 4`, not `iterations % 7`. The colour therefore changes every
  four iterations and cycles through the seven entries.
- `Render`: the map from pixel offsets to points of the plane. It also defines the
  drawing calls a block produces, in order.
- `Blocks`: the block grid the renderer walks, and why that walk is the row-major
  enumeration of the block origins inside the render area.
- `ExplorerState`: the record `gState` as a value, with its invariant. Its view changes
  and the key handler are pure functions (`AfterKey`), and the lemmas about them live
  here.
- `Host`: the display surface. It records the drawing calls it receives.
- `Explorer`: class `Mandelbrot`, whose methods update `gState` in place and draw on
  the screen as the C functions do.

## Model

| member | source | states |
|---|---|---|
| Kernel.EscapeTime | src/mandelbrot.c:117-130 | the loop reports "in the set" exactly when the classification says so; otherwise it reports the escaping iteration, and in the set the counter ends at the budget |
| Kernel.ClassifyEscaped | src/mandelbrot.c:117-130 | the escape count is n iff n is within the budget, the exit test fires at iteration n and at no earlier iteration |
| Kernel.ClassifyInSet | src/mandelbrot.c:117-130 | a point is in the set iff no iteration within the budget fires the exit test |
| Kernel.OriginInSet | src/mandelbrot.c:117-130 | c = 0 is in the set for every budget |
| Kernel.FarPointEscapesAtOnce | src/mandelbrot.c:117-130 | a point with \|c\|^2 > 4 escapes in iteration 0 when the budget is at least 1 |
| Kernel.ThreeThreeEscapesAtOnce | src/mandelbrot.c:117-130 | c = 3 + 3i escapes in iteration 0 |
| Kernel.MoreIterations | src/mandelbrot.c:117-130 | a larger budget keeps every escape count and never moves a point into the set |
| Palette.Index | src/mandelbrot.c:135 | the palette index is always below 7 |
| Palette.IndexBands | src/mandelbrot.c:135 | `(n % (7*s)) / s` equals `(n / s) % 7`: one colour per band of s iterations, cycling through the 7 entries |
| Palette.IndexPeriodic | src/mandelbrot.c:135 | the index repeats every 7*s iterations (28 on the 32-bit target) |
| Palette.IndexConstantOnBand | src/mandelbrot.c:135 | all iterations of one band of s (4 on the target) share an index |
| Palette.IndexIsNotModSize | src/mandelbrot.c:135 | iterations 0 and 1 share a colour, so the index is not `iterations % 7` |
| Render.MapperRoundTrip | src/mandelbrot.c:111-115 | mapping a pixel offset to the plane and back recovers the offset |
| Render.AreaPlotAt | src/mandelbrot.c:141-149 | a block is cursor_w * cursor_h plots, and plot j*cursor_w + i is pixel (x+i, y+j) |
| Blocks.CellOf | src/mandelbrot.c:206-222 | block i of the walk is at column a, row b of the grid, with i = b * columns + a |
| Blocks.IndexOfBlock | src/mandelbrot.c:206-222 | every block of the walk is a block origin inside the render area, and its row-major number is its position in the walk |
| Blocks.BlockOfIndex | src/mandelbrot.c:206-222 | every block origin inside the area is reached by the walk, at its row-major number |
| Blocks.NextBlock | src/mandelbrot.c:210-219 | one step of the progress is the next block; it passes the bottom edge exactly after the last block |
| Blocks.RowMajor | src/mandelbrot.c:206-222 | blocks with lower numbers come strictly earlier in row-major order |
| Blocks.FullRun | src/mandelbrot.c:206-222 | a render from (0, 0) visits ceil(w/cw) * ceil(h/ch) blocks: each block origin of the area once, in row-major order, and nothing else |
| ExplorerState.ZoomIterations | src/mandelbrot.c:100 | the budget `(m*10)/8` is exactly m + m/4 (32 becomes 40), never decreases, and strictly grows for m >= 4 |
| ExplorerState.MoveAxis | src/mandelbrot.c:155-161 | a cursor coordinate takes the target iff the target is inside the area, and otherwise keeps its current value whatever that is; a coordinate inside the area never leaves it |
| ExplorerState.ZoomCorners | src/mandelbrot.c:86-96 | the zoomed view's corners are the points under the cursor block's top-left pixel and just past its bottom-right pixel |
| ExplorerState.ZoomKeepsValid | src/mandelbrot.c:86-103 | a zoom scales each step by cursor size / render size, raises the budget, restarts at block (0, 0) and keeps the invariant |
| ExplorerState.ResetKeepsValid | src/mandelbrot.c:71-84 | a reset sets the initial view, restarts at block (0, 0) and keeps the invariant |
| ExplorerState.CursorKeepsValid | src/mandelbrot.c:152-161 | moving the cursor keeps the invariant |
| ExplorerState.AdvanceKeepsValid | src/mandelbrot.c:208-213 | in render mode, any block of the image is a valid next block |
| ExplorerState.CompletionKeepsValid | src/mandelbrot.c:214-217 | finishing a render into select mode with the cursor at the origin keeps the invariant |
| ExplorerState.KeyKeepsValid | src/mandelbrot.c:166-198 | every key keeps the invariant |
| ExplorerState.RenderModeKeys | src/mandelbrot.c:191-196 | in render mode a key changes the state iff it is SET; it changes only `paused`, and pressing SET twice restores the state |
| ExplorerState.ArrowMovesOnlyCursor | src/mandelbrot.c:169-180 | an arrow in select mode changes only the cursor: UP and DOWN move it one block up or down, LEFT and RIGHT one block left or right, each only when the target lies inside the render area |
| ExplorerState.SelectModeRestarts | src/mandelbrot.c:181-189 | SET, ERASE and DISPLAY in select mode start an unpaused render from block (0, 0) and keep the cursor; SET uses the zoomed view with a larger budget, the others the initial view |
| Explorer.Mandelbrot.constructor | src/mandelbrot.c:227-244 | initialisation fills the palette, sets up the interface and the initial view in render mode, and logs one yellow fill of the screen |
| Explorer.Mandelbrot.ResetInterface | src/mandelbrot.c:54-63 | the render area becomes the whole screen, the cursor a 20 x 20 block at the origin, and paused becomes false; nothing else changes |
| Explorer.Mandelbrot.Recompute | src/mandelbrot.c:65-69 | the steps become extent / render size and the progress goes to (0, 0); nothing else changes |
| Explorer.Mandelbrot.ResetParameters | src/mandelbrot.c:71-84 | the state becomes render mode with the initial view [-2, 1] x [-1.5, 1.5], 32 iterations and speed 4 |
| Explorer.Mandelbrot.ZoomInHere | src/mandelbrot.c:86-103 | the view becomes the cursor block's image (ZoomTarget) with budget `(m*10)/8` |
| Explorer.Mandelbrot.MandelPixel | src/mandelbrot.c:105-139 | one plot at the pixel's screen position: black if the point is in the set, else the palette entry of its escape count |
| Explorer.Mandelbrot.MandelArea | src/mandelbrot.c:141-149 | appends exactly the block's plots, row by row |
| Explorer.Mandelbrot.MoveCursor | src/mandelbrot.c:152-164 | repaints the old cursor block, moves each axis independently (MoveAxis), draws the blue cursor box, and changes nothing else |
| Explorer.Mandelbrot.Keyboard | src/mandelbrot.c:166-198 | the new state is `AfterKey(key)`; only an arrow in select mode draws (the old block and the new cursor box); the invariant is kept |
| Explorer.Mandelbrot.RenderBlock | src/mandelbrot.c:206-220 | one loop pass renders block i and advances to block i+1; after the last block, it switches to select mode with the cursor at the origin |
| Explorer.Mandelbrot.Draw | src/mandelbrot.c:200-225 | does nothing in select mode or when paused; otherwise renders the next min(speed, remaining) blocks in order, and on finishing the image switches to select mode, unpaused, with a 20 x 20 cursor at (0, 0) |

## Left out

- Floating point: the source computes the kernel in `float` and the view in `double`. The model computes exactly over `real`, so rounding and the loss of detail at deep zoom are not modelled.
- Key polling: `kbd_get_autoclicked_key` is replaced by the `key` parameter of `Keyboard`. Keys other than the seven handled ones are `Other`. The constant return value 0 of `gui_mandelbrot_keyboard` is not modelled.
- Host: `camera_screen` becomes the screen's fixed positive `width` and `height`. `draw_pixel` and `draw_filled_rect` append to a log of drawing calls; pixels on the display are not modelled.
- Host wiring: `gui_set_mode`, `basic_module_init` and the included `simple_game.c` are not part of this model.
- Colour values: the `COLOR_*` constants are opaque parameters (`Host.Colours`). Their numeric values belong to the host.
- Explorer.Mandelbrot.ZoomInHere: does not model the 32-bit overflow of `max_iterations * 10`; the budget must be at most `0x7fff_ffff / 10`.
- Explorer.Mandelbrot.Keyboard: inherits the same bound when SET is pressed in select mode.
- Partial blocks: when the screen size is not a multiple of 20, the last column and row of blocks overhang the render area. The model plots those pixels just as the source does; clipping is the host's concern and is not modelled.
- `mandle_palette` is a value (`palette`) fixed by the constructor, since only initialisation writes it; aliasing of the array is not modelled.
- The body of the `for` loop in `gui_mandelbrot_draw` is the method `RenderBlock`, which `Draw` calls once per pass.
- The invariant fixes `speed` at 4 and the render area at the whole screen: no operation of the source changes them after initialisation.
