# bdsim block editor geometry and Scope configuration, in Dafny

This project models two pieces of the bdsim block-diagram tools.

**The block editor's graphics items** (`bdsim/bdedit/block_graphics_block.py`).
An ordinary block (`GraphicsBlock`) and a connector, the pass-through routing point
(`GraphicsSocketBlock`), are one class `BlockGraphics.Block`, told apart by `kind`.
A block keeps its position, width, height, default height, colour mode, palette,
selection flag and title layout. The pure rules live in module `Geometry`:
- snapping to the 20-unit grid with Python's round-half-to-even `round`;
- the four ordered clamps against the scene rectangle, with 20 units of padding;
- the even title width and the title position;
- the height the sockets need;
- the two interaction rectangles.

`BlockGraphics.Scene` holds the scene rectangle and the blocks. For each block it keeps
a count of the `updateConnectedEdges` calls it has received. `Scene.Drag` performs the
mouse-move handler: snap, clamp left, top, right and bottom, then refresh the wires of
every selected block.

**The Scope display block's argument checks** (`bdsim/blocks/displays.py`).
`Displays.Init` follows `Scope.__init__` step by step. It is proved equal to the function
`Displays.Resolve`. `Resolve` turns `(nin, vector, styles, labels)` into a configuration
or the exception raised. Around it sit `listify`, the legend's `fix_underscore`, the
signal-count check of `Scope.step` and the two-index check of `ScopeXY1`.

Coordinates are exact reals. Python values are the datatype `Displays.Value`. Exceptions
are `Displays.Exception` inside `Displays.Outcome`.

Two behaviours a reader might expect do not hold in the code, and the model follows the code:
- An unsupported colour mode is not reported as an error; it is ignored.
  `Block.UpdateMode` returns `accepted = false` and changes nothing.
- A move is not idempotent in general. It is idempotent when all four clamp limits
  lie on the grid (`Geometry.DragIdempotentOnAlignedScene`). Otherwise a position clamped
  to an off-grid limit can snap elsewhere on the next move event.

## Model

| member | source | states |
|---|---|---|
| `Geometry.RoundHalfEven` | bdsim/bdedit/block_graphics_block.py:358-359 | the result is within one half of its argument, and a tie goes to the even integer (Python's `round`) |
| `Geometry.RoundHalfEvenUnique` | bdsim/bdedit/block_graphics_block.py:358-359 | exactly one integer meets that description, so the rounding is fully determined |
| `Geometry.RoundHalfEvenMonotone` | bdsim/bdedit/block_graphics_block.py:358-359 | rounding preserves order |
| `Geometry.Snap` | bdsim/bdedit/block_graphics_block.py:358-362 | `round(c/20)*20` is a multiple of 20 at most 10 away from `c` |
| `Geometry.SnapFixesGrid` | bdsim/bdedit/block_graphics_block.py:358-362 | a coordinate already on the grid is left where it is |
| `Geometry.SnapMonotone` | bdsim/bdedit/block_graphics_block.py:358-362 | snapping preserves order |
| `Geometry.SnapTiesToEven` | bdsim/bdedit/block_graphics_block.py:358-359 | 10 snaps to 0, 30 to 40, 50 to 40 and -10 to 0 |
| `Geometry.DragTarget` | bdsim/bdedit/block_graphics_block.py:358-382 | a snapped coordinate within its axis's limits is kept; each coordinate of the drag result is the snapped pointer coordinate or one of that axis's two limits, and never beyond the right or bottom limit; a snapped coordinate below the left (top) limit goes to that limit when the scene has room, and one beyond the right (bottom) limit goes to the right (bottom) limit |
| `Geometry.ClampAxis` | bdsim/bdedit/block_graphics_block.py:367-382 | raise-then-lower lands inside a non-empty interval, keeps a value already inside, sends a value below a non-empty interval to `lo` and a value above it to `hi`, and returns the upper limit when the interval is empty |
| `Geometry.DragStaysInScene` | bdsim/bdedit/block_graphics_block.py:367-382 | in a scene with room for the item, the dragged position lies between the left/top limits (scene origin + 20) and the right/bottom limits (scene far edge − size − 20, minus the title band at the bottom) |
| `Geometry.DragTooSmallSceneRightBottomWin` | bdsim/bdedit/block_graphics_block.py:376-382 | in a scene too small for the item, the right and bottom clamps decide the position |
| `Geometry.DragUnclampedIsOnGrid` | bdsim/bdedit/block_graphics_block.py:358-382 | when no clamp fires, the position is exactly the snapped pointer position: a multiple of 20 in both axes and within 10 of the pointer |
| `Geometry.DragMonotone` | bdsim/bdedit/block_graphics_block.py:358-382 | dragging further right or down never ends further left or up |
| `Geometry.DragIdempotentOnAlignedScene` | bdsim/bdedit/block_graphics_block.py:358-382 | when all four limits are on the grid, dragging to a drag's result changes nothing |
| `Geometry.DragScenario` | bdsim/bdedit/block_graphics_block.py:358-382 | a 100×80 block dragged to (997, 3) in a 1000×600 scene ends at (880, 20) |
| `Geometry.TitleLength` | bdsim/bdedit/block_graphics_block.py:105-112 | the title width is even, no less than the measured width, and at most one pixel more |
| `Geometry.TitlePosition` | bdsim/bdedit/block_graphics_block.py:139 | the title's centre is at `(width − padding)/2` for the title length it is given, and its top is `padding` below the block |
| `Geometry.TitleShift` | bdsim/bdedit/block_graphics_block.py:139 | rounding the title length up to even moves the title at most half a pixel left of where the measured width would centre it |
| `Geometry.TitleOnWholePixel` | bdsim/bdedit/block_graphics_block.py:107-112 | when `width − padding` is an even number of pixels, the title's left edge is on a whole pixel; a plain block (padding 5) of even width never meets this, see `Geometry.TitleHalfPixel` |
| `Geometry.TitleHalfPixel` | bdsim/bdedit/block_graphics_block.py:139 | as written, a plain block of even width `2m` places its title's left edge at `m − 3 − t/2 + 0.5`, never on a whole pixel |
| `Geometry.AlignedTitleLength` | bdsim/bdedit/block_graphics_block.py:107-112 | the corrected title length: the measured width or one more, of the same parity as `width − padding`, and equal to the even length when that span is even |
| `Geometry.AlignedTitleOnWholePixel` | bdsim/bdedit/block_graphics_block.py:139 | with the corrected length, the title's left edge is on a whole pixel for every whole-pixel span `width − padding` |
| `Geometry.RequiredHeight` | bdsim/bdedit/block_graphics_block.py:193-222 | the height is the least value that is at least the default height and at least each last socket's y plus the spacer; a side with no sockets counts as y = 0 |
| `Geometry.RequiredHeightMonotone` | bdsim/bdedit/block_graphics_block.py:193-222 | lower sockets never need less height |
| `Geometry.RequiredHeightScenario` | bdsim/bdedit/block_graphics_block.py:193-222 | default 80, spacer 5+10+25 = 40 and a last input at 200 give height 240 |
| `Geometry.Normalized` | bdsim/bdedit/block_graphics_block.py:467-472 | `normalized()` gives a rectangle of non-negative width and height |
| `Geometry.NormalizedSpansSameArea` | bdsim/bdedit/block_graphics_block.py:467-472 | the normalized rectangle contains exactly the points between the original corners |
| `Geometry.BlockRect` | bdsim/bdedit/block_graphics_block.py:241-246 | a block's hit area is exactly the points of [0, width] × [0, height] |
| `Geometry.ConnectorRect` | bdsim/bdedit/block_graphics_block.py:465-472 | the connector's normalized area has non-negative size and, for item width W ≥ 0, is wider and taller than W |
| `Geometry.ConnectorRectExact` | bdsim/bdedit/block_graphics_block.py:465-472 | for item width W ≥ 0 the area is exactly (1−W−P, 1−W−P, 3W+P, 2W+P) with P = 2.5; normalizing changes nothing |
| `Geometry.ConnectorRectCoversWidthSquare` | bdsim/bdedit/block_graphics_block.py:465-472 | for item width W ≥ 0 the area covers the W×W square at the item's origin; the item's height plays no part |
| `BlockGraphics.PaletteFor` | bdsim/bdedit/block_graphics_block.py:152-160 | only "Dark" selects the dark palette; every other mode selects the light one |
| `BlockGraphics.OffLooksLight` | bdsim/bdedit/block_graphics_block.py:152-160 | "Off" and "Light" give the same palette, different from "Dark" |
| `BlockGraphics.Block.Plain` | bdsim/bdedit/block_graphics_block.py:24-72 | a new block item has spacings 10/25/5, its default height equal to its height, the palette of its mode, is unselected, and its title is still to be laid out |
| `BlockGraphics.Block.Connector` | bdsim/bdedit/block_graphics_block.py:409-449 | a new connector item has zero corner size, zero title band and zero padding, and it starts selected |
| `BlockGraphics.Block.SetTitle` | bdsim/bdedit/block_graphics_block.py:126-142 | after laying out the title: the title is no longer pending, its text is the block's title, and it sits at ((width − 5 − titleLength)/2, height + 5) |
| `BlockGraphics.Block.UpdateMode` | bdsim/bdedit/block_graphics_block.py:165-179 | the mode and palette change exactly when the value is "Light", "Dark" or "Off"; any other value leaves both unchanged |
| `BlockGraphics.Block.Resize` | bdsim/bdedit/block_graphics_block.py:182-226 | the new height is `RequiredHeight`; it is at least the default, leaves 40 below both last sockets, and the item and block heights agree |
| `BlockGraphics.Block.BoundingRect` | bdsim/bdedit/block_graphics_block.py:229-246 | a block's area is [0, width] × [0, height]; a connector's has non-negative size and covers the width×width square at its origin |
| `BlockGraphics.Block.Press` | bdsim/bdedit/block_graphics_block.py:303-330 | a press always raises focus; it toggles the parameter window exactly on a right press of an already-selected ordinary block, so a connector press only raises focus |
| `BlockGraphics.Scene.RefreshSelected` | bdsim/bdedit/block_graphics_block.py:384-387 | each selected block gets exactly one more wire refresh, and every other block gets none |
| `BlockGraphics.Scene.Drag` | bdsim/bdedit/block_graphics_block.py:333-387 | the new position is `DragTarget` of the pointer's position; the bottom limit subtracts the title band for a block and nothing for a connector; then the wires of exactly the selected blocks are refreshed |
| `Displays.Listify` | bdsim/blocks/displays.py:137-143 | a string becomes a one-entry list, a list or tuple is returned unchanged, and anything else raises ValueError |
| `Displays.ListifyStyles` | bdsim/blocks/displays.py:114-117 | the corrected listify for `styles`: a string or a dict of line options is one style, a list or tuple is kept as listify keeps it, and nothing else is accepted |
| `Displays.CountingsDifferOnlyOnStrings` | bdsim/blocks/displays.py:152-164 | `len` of a string argument is its character count, while listify makes one entry of it; lists and tuples count the same either way |
| `Displays.VectorWidth` | bdsim/blocks/displays.py:177-182 | a vector argument has a width only if it is an int (a bool counts as one) or a list; a tuple or anything else has none |
| `Displays.Resolve` | bdsim/blocks/displays.py:147-201 | the resolution raises only the six exceptions of the code (listify's ValueError, the two assertions, the three vector ValueErrors); on success `line` has `nplots` slots, a vector scope has one input and `nplots` equal to the vector's width, and any other scope has `nin = nplots`; its lemmas below give the exact success condition, the stored values and which exception each failure raises |
| `Displays.Finish` | bdsim/blocks/displays.py:201-214 | the stored configuration keeps `nin` and `nplots`; `styles` is the listified styles, or one None per line when none are given; `labels` is the listified labels or None; `line` has `nplots` slots (none when `nplots` is negative) |
| `Displays.ResolveListifyErrors` | bdsim/blocks/displays.py:143-160 | a `styles` argument listify refuses raises listify's ValueError; so does such a `labels` argument once the styles check has passed; and that ValueError is raised for no other reason |
| `Displays.ResolveAssertionErrors` | bdsim/blocks/displays.py:152-164 | a styles count that differs from `nin`, or a labels count that differs from the count already known, fails the matching assertion; without a vector, every failure of well-formed arguments is one of these two assertions |
| `Displays.ResolveVectorErrors` | bdsim/blocks/displays.py:168-188 | once styles and labels have passed, a vector fails only with a ValueError: `nin` other than 1 first, then a type that is neither int nor list, then a width that differs from the count already known |
| `Displays.ResolveSucceedsIffConsistent` | bdsim/blocks/displays.py:147-199 | the arguments are accepted exactly when styles and labels are listable, the vector is an int or list, `nin` is absent or 1 when a vector is given, and every given count is the same |
| `Displays.ResolveAgreesWithArguments` | bdsim/blocks/displays.py:190-214 | on success: every given count equals `nplots`, with 1 when none is given; `nin` is 1 with a vector and `nplots` otherwise; the styles default to `nplots` Nones; `line` has `nplots` slots (none for a negative `nplots`, as `[None] * n` gives); no labels given means `labels` is None, and given labels are stored listified |
| `Displays.Init` | bdsim/blocks/displays.py:147-214 | the step-by-step resolution returns exactly `Resolve` with raw `len`, and it succeeds exactly when the arguments are consistent |
| `Displays.LineStyles` | bdsim/blocks/displays.py:245-248 | looking up one style per line succeeds exactly when there are at least as many styles as lines |
| `Displays.StyleStringMiscount` | bdsim/blocks/displays.py:152-157 | as written, `styles='k--'` gives 3 lines and 1 style, so the style lookup fails; `nin=1, styles='k--'` fails the assertion; counting entries gives 1 line |
| `Displays.EntryCountOneStylePerLine` | bdsim/blocks/displays.py:152-164 | when entries are counted, an accepted configuration has one style per line and one label per line, so the style lookup never fails |
| `Displays.CountingsAgreeWithoutStrings` | bdsim/blocks/displays.py:152-164 | when neither styles nor labels is a string, both countings resolve alike |
| `Displays.FixUnderscore` | bdsim/blocks/displays.py:288-292 | a label starting with "_" becomes "-" followed by the rest of the label; any other non-empty label is unchanged; an empty label raises IndexError |
| `Displays.FixUnderscoreIdempotent` | bdsim/blocks/displays.py:288-292 | fixing a label twice gives the same result as fixing it once |
| `Displays.Legend` | bdsim/blocks/displays.py:287-293 | the legend is each label fixed, in order; it fails exactly when some label is empty, and then with IndexError |
| `Displays.CheckStep` | bdsim/blocks/displays.py:305-318 | a step raises RuntimeError exactly when the scope is enabled, has no vector, and the number of inputs differs from `nplots` |
| `Displays.DictStyleRefused` | bdsim/blocks/displays.py:137-153 | as written, a bare dict of line options as `styles` raises listify's ValueError, while the same dict inside a list gives one line with that style; `ListifyStyles` reads the bare dict as one style |
| `Displays.StepAcceptsResolvedInputs` | bdsim/blocks/displays.py:312-318 | a scope without a vector, fed one signal per resolved input, always passes the step check, enabled or not |
| `Displays.Truncate` | bdsim/blocks/displays.py:546 | `int()` of a number truncates toward zero |
| `Displays.XY1Indices` | bdsim/blocks/displays.py:544-546 | the indices are accepted exactly when there are two of them, each converted with `int()`; otherwise ValueError |

## Findings

| source | as written | input that shows it | evidently intended | confidence | as-written member | corrected member |
|---|---|---|---|---|---|---|
| bdsim/blocks/displays.py:152-164 | the line count is `len(styles)` / `len(labels)` of the argument as passed, so a single string counts its characters | `SCOPE(styles='k--')` gives 3 lines and 1 style, and `start` then indexes `self.styles[1]`; `SCOPE(nin=1, styles='k--')` fails the "one style per input" assertion | count the listified entries, so a single string counts as one line, as in the documented example `SCOPE(styles='k--')` | not executed; high | `Displays.StyleStringMiscount` | `Displays.EntryCountOneStylePerLine` |
| bdsim/blocks/displays.py:114-117 | `listify` accepts only a string, list or tuple, so a single dict of line options as `styles` raises ValueError | `SCOPE(styles={'color': 'r'})` raises "unknown argument to listify" | a single dict is one line's style, as the parameter's documented type "str or dict" and lines 57-60 say | not executed; medium | `Displays.DictStyleRefused` | `Displays.ListifyStyles` |
| bdsim/bdedit/block_graphics_block.py:107-112 | the title length is rounded up to even so that it centres on a whole pixel, but line 139 centres it in `width − padding`, which is odd for a plain block of even width (padding 5) | a plain block of width 100 with a 40-pixel title puts the title at x = 27.5 | the title's left edge on a whole pixel, as the comment says | not executed; low | `Geometry.TitleHalfPixel` | `Geometry.AlignedTitleOnWholePixel` |

`Displays.Resolve` takes the counting as a parameter. `RawLen` is the code as written;
`Displays.Init` uses it. `EntryCount` is the correction. Likewise `Displays.Resolve` uses `Listify` as
written and `Block.SetTitle` uses the even `TitleLength` as written; `ListifyStyles` and
`AlignedTitleLength` are the corrections, stated beside them.

## Left out

- Painting (`paint` of both classes, pens, brushes, pixmaps), `initTitle` and the `update()` repaint requests are rendering through PyQt5. Only the palette values the painting reads are kept.
- `QFontMetrics(...).width` is not modelled. The measured title width is a parameter of `Block.SetTitle`.
- `Socket.getSocketPosition` is not modelled. The y of the last input and output socket are parameters of `Block.Resize`.
- `Block.updateConnectedEdges` is a foreign call. Only a per-block call count is kept (`Scene.refreshes`).
- `setFocusOfBlocks` and `toggleParamWindow` are foreign calls. `Block.Press` returns which of them it makes.
- Qt's own handlers, called through `super()`, are not modelled. The default move handler moves the item and every other selected item by the same pointer displacement. Only the item that received the event is then snapped and clamped; the other selected items stay unsnapped and unclamped. The model keeps no position for those other items. The item's position after the default handler is the `raw` parameter of `Scene.Drag`. The default move handler also selects every item it moves, so in the program the dragged item is always among the blocks whose wires are refreshed; `Scene.Drag` takes the `selected` flags as it finds them and refreshes the dragged block only if it is already selected. The default press handler selects or deselects.
- Floating-point arithmetic is replaced by exact reals, so `x / 20` is not rounded before `round`.
- `print("Block mode not supported.")` is console output. `Block.UpdateMode` reports it through its `accepted` result.
- `getTitle` only returns the block's title and is not modelled.
- Connectors have no mode, palette or title layout. The `mode`, `palette` and title fields of a connector item are placeholders that no operation reads.
- `Scope.start` and `step` plotting, `ScopeXY.start` and `_step`, and the numpy data buffers are matplotlib/numpy work. Only the style lookup, the legend labels and the length checks are kept.
- `Displays.LineStyles` and `Displays.Legend` model `start` past its `if not self._enabled: return` at displays.py:227-228. A disabled scope returns before the style lookup and the legend and raises neither error.
- Displays.Legend: labels are taken as strings. A non-string label (possible when `labels` is a list of other values) is not modelled.
- Displays.XY1Indices: indices are taken as numbers. `int()` of other values (strings, for instance) is not modelled.
- Keyword arguments other than `nin`, `vector`, `styles` and `labels` (`stairs`, `scale`, `grid`, `watch`, `title`, `loc`, block options) are stored without checks and are not modelled. `Block.__init__` of the simulator, called with the resolved `nin`, is not part of this model.
- `bdsim/blocks/IO/Firmata.py` (hardware I/O over pyfirmata, a reader thread, sleeps) and `examples/rt_step.py` (an example script) are not part of this model.
