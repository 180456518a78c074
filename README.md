# GRX core drawing pieces, modelled in Dafny

This project models three pieces of the GRX 2D graphics library and proves what
they promise.

- `grx_draw_box` (`src/draw/box.c`) draws the outline of a rectangle on the
  current context. It does four things:
  - it sorts each axis of the two corners;
  - it clips the box to the context's clip window;
  - it hides the pointer overlay over the visible part (`mouse_block`);
  - it sends at most two horizontal and two vertical runs to the frame driver,
    then shows the overlay again (`mouse_unblock`).
- `grx_user_draw_polygon_with_pixmap` (`src/user/uppolyg.c`) copies a polygon
  into scratch storage, mapping it from user to context coordinates, hands the
  copy to the pixmap polygon filler, and frees it.
- `grx_color_get_black` / `grx_color_get_white` (`src/setup/colorbw.c`) compute
  the black and white colour values on first use and keep them in the colour
  record.

Files:

- `colors.dfy` (module `Colors`): the 32-bit colour type and `GRX_COLOR_NONE`.
- `box.dfy` (module `Box`): the box rasterizer and its pixel-level meaning.
  - `DrawBox` and `DrawRuns` follow the C code statement by statement and
    return the log of calls the C code makes: `Block`, `HLine`, `VLine`,
    `Unblock`.
  - `BoxCalls` is a separate reference definition of that log. It is written
    with named edge tests (`TopDrawn`, `BottomDrawn`, `LeftDrawn`,
    `RightDrawn`, `RunFirst`, `RunLast`) instead of the C arithmetic.
  - `Hits(calls, px, py)` counts how many runs of a log write the frame pixel
    `(px, py)`.
  - `BoxExactOutline` proves that a pixel is written once exactly when it lies
    on the outline of the sorted box and inside the clip window, and never
    otherwise.
- `box_laws.dfy` (module `BoxLaws`): the other properties of the call log:
  corner order, the overlay bracket, edge selection, well-formed runs, the
  one-pixel box, and framing a whole context.
- `uppolyg.dfy` (module `UserPolygon`): the user-coordinate polygon wrapper.
  Its collaborators are parameters:
  - `U2SX`/`U2SY` are the functions `u2sx`/`u2sy`;
  - the outcome of `ALLOC` is the flag `allocOk`;
  - the filler call and the allocator calls are events in a returned log.
- `colorbw.dfy` (module `ColorBW`): the colour record is a class with the two
  fields `black` and `white`. `grx_color_get` is a `ColorSource` object that
  records each request, so "no call on a cache hit" can be stated.

Coordinates and colours: clip bounds are inclusive. Runs are in frame
coordinates, which are context coordinates plus `x_offset`/`y_offset`. The
`mouse_block` box is the clipped box in context coordinates.

Two behaviours of the code worth knowing:

- box.c line 53 shortens the vertical runs at the bottom whenever the bottom
  row survived clipping. That includes the one-row case, where that row is not
  drawn a second time; the run is then empty, so the painted pixels are the
  same (`BoxEdgeSelection`).
- A fully clipped box makes no overlay call at all, because `clip_ordbox`
  returns before `mouse_block`. A box that contains the whole clip window, with
  no side inside it, still calls `mouse_block` and `mouse_unblock` but draws no
  run (`BoxBracketing`, `BoxEdgeSelection`).

## Model

| member | source | states |
|---|---|---|
| `Box.Order` | src/draw/box.c:37-38 | `isort`: the pair comes back in ascending order and holds the same two values |
| `Box.ClipOrdBoxMeaning` | src/draw/box.c:39 | characterises `ClipOrdBox`, the model of the `clip_ordbox` macro: it gives up exactly when the sorted box and the clip window share no pixel; otherwise it keeps a non-empty box whose pixels are exactly the shared ones |
| `Box.DrawRuns` | src/draw/box.c:41-65 | the in-place arithmetic (`oy1 -= y1`, `oy2 -= y2`, `++y1`, the new `y2` as run length, `ox1 -= x1`) emits exactly the runs of the reference definition's edge tests |
| `Box.DrawBox` | src/draw/box.c:34-68 | the whole function emits the reference log `BoxCalls`. Every frame pixel is written exactly once if it is on the outline of the sorted box and in the clip window, and zero times otherwise |
| `Box.WrappedDifferenceZero` | src/draw/box.c:41-54 | the differences `oy1 -= y1`, `oy2 -= y2`, `ox1 -= x1` wrapped to 32 bits are zero exactly when the exact differences are, so the edge tests decide the same with wrap-around |
| `Box.BoxExactOutline` | src/draw/box.c:41-65 | painted pixels, translated back by the offsets, are the outline of [min x..max x]×[min y..max y] intersected with the clip window. Each is painted once, and no interior or clipped pixel is painted |
| `Box.SidesPartitionOutline` | src/draw/box.c:47-65 | the four edge tests split the visible outline with no overlap. The horizontal runs own the corners, the vertical runs start below a drawn top and stop above an unclipped bottom, and the bottom/right sides are dropped when they coincide with a drawn top/left side |
| `BoxLaws.BoxCornerOrder` | src/draw/box.c:37-38 | swapping x1↔x2, y1↔y2 or both gives the identical sequence of calls |
| `BoxLaws.BoxBracketing` | src/draw/box.c:39-67 | the log is empty (no draw, no `mouse_block`/`mouse_unblock`) iff the sorted box misses the clip window. Otherwise it is one `mouse_block` over exactly the visible part, then runs only, then one `mouse_unblock` |
| `BoxLaws.BoxRunsWellFormed` | src/draw/box.c:41-65 | every run carries the box's colour and starts and ends inside both the sorted box and the clip window, shifted by the offsets. Horizontal widths are ≥ 1 and vertical lengths are ≥ 1 |
| `BoxLaws.BoxEdgeSelection` | src/draw/box.c:41-65 | the exact log for a visible box in caller terms: top iff the top row is unclipped; bottom iff unclipped and not the row of a drawn top; vertical runs from one row below an unclipped top (else the window top) to one row above an unclipped bottom (else the window bottom); left/right by the same rule on x, and only when that span is non-empty |
| `BoxLaws.BoxSinglePixel` | src/draw/box.c:41-65 | an unclipped 1×1 box is `mouse_block`, one `drawhline(x+x_offset, y+y_offset, 1, c)`, and `mouse_unblock` |
| `BoxLaws.BoxFramesContext` | test/memtest.c:47 | `grx_draw_box(0,0,w-1,h-1,c)` on a w×h context draws the top row, the bottom row if h > 1, and the two side columns between them if h > 2 (one column if w = 1) |
| `BoxLaws.ClipOrdBoxIdempotent` | src/draw/box.c:39 | clipping the visible part of a box again changes nothing |
| `UserPolygon.ToScreen` | src/user/uppolyg.c:48-51 | the copy has the same length, and point i is point i of the input with x mapped by `U2SX` and y by `U2SY` |
| `UserPolygon.ToScreenKeepsClosure` | src/user/uppolyg.c:36-37 | a polygon whose last point repeats its first is still closed after the mapping. With injective mappings it is closed after iff closed before, so the filler sees the closing edge the caller gave |
| `UserPolygon.UserDrawPolygonWithPixmap` | src/user/uppolyg.c:39-57 | if `ALLOC` succeeds, the filler is called once with `numpts` (no closing point added), the mapped copy, and the same `o` and `p`; then the copy is freed and `reset_ALLOC` runs. If `ALLOC` fails, the filler is never called and `reset_ALLOC` still runs. The caller's array is unchanged |
| `ColorBW.ColorSource.Get` | src/setup/colorbw.c:37 | a call to `grx_color_get` answers the lookup for (r, g, b) and is recorded |
| `ColorBW.ColorInfo.GetBlack` | src/setup/colorbw.c:34-39 | on a miss (field = `GRX_COLOR_NONE`) it asks for (0,0,0) once, stores the answer and returns it. On a hit it returns the field and asks nothing. White is unchanged, and coherence of the record is kept |
| `ColorBW.ColorInfo.GetWhite` | src/setup/colorbw.c:53-58 | the same for (255,255,255) and the white field. Black is unchanged |
| `ColorBW.GetBlackTwice` | src/setup/colorbw.c:37-38 | two consecutive black lookups return the same value and make at most one request in total, provided `grx_color_get(0,0,0)` is not `GRX_COLOR_NONE` |
| `ColorBW.CachedIdempotent` | src/setup/colorbw.c:37-57 | once a slot has been filled with a value other than `GRX_COLOR_NONE`, later lookups return that value whatever the source would answer |
| `ColorBW.BlackIsZero` | src/setup/colorbw.c:27 | the black value is 0, assuming `grx_color_get(0,0,0)` is 0 and the slot is empty or already holds that answer |

## Left out

- Box.DrawBox: coordinates are unbounded integers, and no C `int` overflow is modelled. Two kinds of arithmetic can overflow. First, `oy1 -= y1`, `oy2 -= y2` (box.c:41, 47) and `ox1 -= x1` (box.c:54) subtract a clipped bound from the caller's unclipped coordinate: `grx_draw_box(0, INT_MIN, 10, 10)` with a clip window whose top row is 5 computes `INT_MIN - 5`, which C leaves undefined. The model uses the exact difference, which gives the same result as wrap-around for the only thing the code asks of it, whether it is zero (`WrappedDifferenceZero`). Second, `x2 - x1 + 1`, the vertical run length and the offset additions work on clipped values; these stay inside the context, whose size is far below the `int` range.
- `isort`, `clip_ordbox`, `mouse_block` and `mouse_unblock` are macros from headers that are not part of this model. The first two are modelled from how box.c uses them: swap when out of order; clamp to the window, then return if empty.
- The overlay itself is not modelled: its save/restore of pixels and its block counter. Only the calls to block and unblock are recorded.
- The frame driver's pixel packing and write modes (XOR, OR, AND) are not modelled. A run is recorded with its colour and the pixels it covers.
- `GRX_COLOR_NONE` is defined in a header that is not part of this model. It is taken as the XOR write mode with value 0 (`0x01000000`). No proof depends on that value, except that it differs from 0.
- `GRX_ENTER`/`GRX_RETURN` are debugging hooks and are not modelled. How the colour record is first filled with `GRX_COLOR_NONE` is not part of this model; the `ColorInfo` constructor starts from that state.
- ColorBW.ColorSource.Get: `grx_color_get` is a fixed function of (r, g, b). Its palette allocation, and any answer that changes over time, are not modelled.
- UserPolygon.UserDrawPolygonWithPixmap: `numpts` is a natural number. A negative count, which C would turn into a huge `ALLOC` request, is not modelled. `U2SX`/`U2SY` are any functions of one coordinate; their scaling formula and their dependence on the current context are not modelled.
- The pixmap polygon filler is recorded as a call, not run. Closing the polygon is its job.
- `src/pattern/pfcirc.c` (a one-line delegation to the ellipse filler, whose code is not part of this model), `src/user/uhline.c` (calls to the coordinate macros, then `GrHLine`) and the test programs are not modelled. The test programs' framing call is covered by `BoxFramesContext`.
