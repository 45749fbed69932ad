# JamBoardClone: page navigation and stroke rendering, modelled in Dafny

JamBoardClone is a JavaFX whiteboard. Its window holds a list of drawing
pages (canvases), a page label, "previous" and "next" buttons, a
colour picker, brush and eraser size sliders, an eraser toggle, and a
"save PDF" button. This project models the two small state machines
inside its event handlers and proves their properties:

- **Pages** (`HelloApplication.kt`, class `JamboardClone`): the list of
  canvases and the current page index, `start`, the previous/next
  handlers, `updateCanvas`, and the per-canvas loop of `exportToPDF`
  together with its fit-and-centre arithmetic (module `Placement`).
- **Drawing** (`handler/DrawHandler.kt`, class `DrawHandler`): the stroke
  session (`isDrawing`, `lastX`, `lastY`), the press/drag/release handlers
  with midpoint smoothing, the pen/eraser choice, and the two slider
  listeners.

Files:

- `wrappers.dfy`: `Option`, standing for Kotlin's nullable values and `?:`.
- `decimal.dfy`: how the label writes a number, with a parser that inverts it.
- `placement.dfy`: where an image lands on an 800 x 400 PDF page.
- `pages.dfy`: the page board as a datatype, transition functions, their
  lemmas, and the imperative class `JamboardClone`.
- `drawing.dfy`: the pen state as a datatype, transition functions, lemmas
  over whole press–drag–release sequences, and the imperative classes
  `GraphicsContext` and `DrawHandler`.

Each class has a `State()` function that reads its fields into a datatype
value. Each handler method changes its fields step by step, as the Kotlin
does. Its `ensures` says the new `State()` equals the matching transition
function applied to `old(State())`. The lemmas prove the properties about
those functions, including properties of whole event sequences (`Navigate`,
`Run`).

Abstractions:

- A canvas is its identity and its `(width, height)`. The identity is the
  order in which the canvas was created, and it stands for the distinct
  `Canvas` object. The invariant says that page `i` of the list is the
  canvas created `i`-th, so which page is shown and the order of the export
  are both visible in the contracts.
- The graphics context is a log of path commands (`PathOp`) plus its line
  width and stroke colour. A `Stroke` entry records the width and colour
  in effect when it was issued. As JavaFX's `stroke()` does, it repaints the
  whole current path: every command after the last `beginPath` before it
  (`Repainted`).
- The widgets' current values reach the handlers as a `Tools` record,
  passed in with each event. Every widget may be missing.
- The screen size is a constructor argument.
- The save dialog's answer and the I/O failures are arguments of `ExportToPdf`.
- Coordinates, sizes and scales are `real`.

Behaviour of the code worth knowing:

- The eraser paints `Color.BLACK`. The drawing area's black background
  makes that colour the background colour.
- With no eraser toggle, neither slider listener changes the line width.
  A drag still uses the brush settings.
- "Next" gives a new page the size passed to `setupPageNavigation`. That is
  the same expression (80% of the screen) as the first page's size, and
  `NavigateKeepsValid` proves that all pages share it.
- Every drag calls `stroke()` on the open path. A tool change in the middle
  of a stroke therefore repaints that stroke's earlier curves in the new
  paint. Strokes finished before the press are never repainted
  (`StrokesRepaintOnlyTheirSession`).
- `start` never writes the page label. Until the first press that changes
  the page, the label keeps the text that the window layout gives it (`labelText == None`).

## Model

| member | source | states |
|---|---|---|
| `Pages.StartState` | src/main/kotlin/org/chubby/github/jamboardclone/HelloApplication.kt:72-75 | after `start` there is exactly one page, `currentPage == 0`, that page is on screen, and the page invariant holds for 80% of the screen size |
| `Pages.JamboardClone.Start` | src/main/kotlin/org/chubby/github/jamboardclone/HelloApplication.kt:72-82 | the constructed object satisfies the invariant, has the start board, and captures 80% of the screen as the size of every later page |
| `Pages.UpdateCanvasShowsCurrent` | src/main/kotlin/org/chubby/github/jamboardclone/HelloApplication.kt:241-244 | after `updateCanvas` the shown canvas is `canvases[currentPage]`, the label reads `Page <currentPage+1> / <size>`, and the number in it reads back as `currentPage+1`; list and index are unchanged |
| `Pages.JamboardClone.UpdateCanvas` | src/main/kotlin/org/chubby/github/jamboardclone/HelloApplication.kt:241-244 | changes only the shown canvas and the label, to what the board function gives |
| `Pages.PreviousSpec` | src/main/kotlin/org/chubby/github/jamboardclone/HelloApplication.kt:218-223 | "previous" at index 0 changes nothing; otherwise it decrements the index by one, keeps the page list and shows the new current page |
| `Pages.JamboardClone.Previous` | src/main/kotlin/org/chubby/github/jamboardclone/HelloApplication.kt:218-223 | the handler keeps the object invariant and produces exactly the board `PreviousPage` gives |
| `Pages.NextBeforeLast` | src/main/kotlin/org/chubby/github/jamboardclone/HelloApplication.kt:226-228 | "next" before the last page increments the index by one and creates no page |
| `Pages.NextAtLast` | src/main/kotlin/org/chubby/github/jamboardclone/HelloApplication.kt:229-234 | "next" at the last page appends exactly one new canvas (the next identity, of the navigation size) at the end, keeps the earlier pages, and makes the new canvas current and shown |
| `Pages.JamboardClone.Next` | src/main/kotlin/org/chubby/github/jamboardclone/HelloApplication.kt:225-235 | the handler keeps the object invariant and produces exactly the board `NextPage` gives |
| `Pages.NavigationKeepsValid` | src/main/kotlin/org/chubby/github/jamboardclone/HelloApplication.kt:218-235 | each button keeps `1 <= size`, `0 <= currentPage < size`, page `i` being the `i`-th canvas created, the shared page size, shown == current page and a truthful label; the page count never decreases and earlier pages are kept in place |
| `Pages.NavigateKeepsValid` | src/main/kotlin/org/chubby/github/jamboardclone/HelloApplication.kt:214-235 | over any sequence of button presses the invariant holds, and the pages present before remain, unchanged and in place |
| `Pages.NextFromLast` | src/main/kotlin/org/chubby/github/jamboardclone/HelloApplication.kt:229-244 | `k` presses of "next" from the last page add exactly `k` pages, end on the last page and label it `Page n / n` |
| `Pages.ThreeNextsFromStart` | src/main/kotlin/org/chubby/github/jamboardclone/HelloApplication.kt:225-244 | from the start board, three "next" presses give 4 pages, index 3 and the label "Page 4 / 4" |
| `Pages.JamboardClone.ExportToPdf` | src/main/kotlin/org/chubby/github/jamboardclone/HelloApplication.kt:108-157 | no file chosen: nothing happens; first I/O failure at canvas k: the export stops there; otherwise exactly one 800 x 400 page per canvas, in list order (page `i` holds `canvases[i]`), each showing that canvas fitted and centred; saved unless writing the file fails |
| `Placement.Scale` | src/main/kotlin/org/chubby/github/jamboardclone/HelloApplication.kt:132-134 | the scale is positive, the scaled image fits both page dimensions, and it fills at least one of them, so it is the largest scale that fits |
| `Placement.Place` | src/main/kotlin/org/chubby/github/jamboardclone/HelloApplication.kt:137-143 | the image is scaled by `Scale` in both directions and drawn with equal margins left and right and top and bottom |
| `Placement.PlaceFitsAndCentres` | src/main/kotlin/org/chubby/github/jamboardclone/HelloApplication.kt:125-143 | for positive image size the scale is `min(800/w, 400/h)`; the drawn image keeps the aspect ratio, fits in the box, touches it on at least one axis, and has non-negative, equal margins on both sides of each axis |
| `Decimal.NatToString` | src/main/kotlin/org/chubby/github/jamboardclone/HelloApplication.kt:243 | a page number is written as a non-empty string of digits with no leading zero except for 0, one digit exactly below 10 |
| `Decimal.ParseNatToString` | src/main/kotlin/org/chubby/github/jamboardclone/HelloApplication.kt:243 | the numeral in the label reads back as the number written |
| `Decimal.NatToStringInjective` | src/main/kotlin/org/chubby/github/jamboardclone/HelloApplication.kt:243 | distinct page numbers give distinct numerals |
| `Drawing.Initial` | src/main/kotlin/org/chubby/github/jamboardclone/handler/DrawHandler.kt:17-23 | after `init` the line width is 5.0, the stroke colour is the picker's value or black without a picker, nothing is drawn, no stroke is in progress and the last point is the origin |
| `Drawing.DrawHandler.Init` | src/main/kotlin/org/chubby/github/jamboardclone/handler/DrawHandler.kt:17-23 | the constructed handler draws on the given context and has the `init` state; the context's log is untouched |
| `Drawing.ToolColor` | src/main/kotlin/org/chubby/github/jamboardclone/handler/DrawHandler.kt:34-39 | eraser selected: black; otherwise the picker's colour, or black without a picker |
| `Drawing.ToolWidth` | src/main/kotlin/org/chubby/github/jamboardclone/handler/DrawHandler.kt:41-46 | eraser selected: the eraser slider's value, or 5.0 without that slider; otherwise the brush slider's value, or 5.0 without it |
| `Drawing.MissingToggle` | src/main/kotlin/org/chubby/github/jamboardclone/handler/DrawHandler.kt:35-46 | a missing toggle counts as "not eraser": a drag paints with the picker colour (or black) at the brush size (or 5.0), and neither slider listener is enabled |
| `Drawing.Midpoint` | src/main/kotlin/org/chubby/github/jamboardclone/handler/DrawHandler.kt:49-50 | the computed point is equidistant from both ends on each axis |
| `Drawing.PressSpec` | src/main/kotlin/org/chubby/github/jamboardclone/handler/DrawHandler.kt:58-63 | press emits `beginPath`, `moveTo(press point)`, sets the last point to the press point and `isDrawing`; width and colour unchanged |
| `Drawing.DrawHandler.MousePressed` | src/main/kotlin/org/chubby/github/jamboardclone/handler/DrawHandler.kt:58-63 | the handler's new state is exactly `Pressed` of its old state |
| `Drawing.DragWhileDrawing` | src/main/kotlin/org/chubby/github/jamboardclone/handler/DrawHandler.kt:34-55 | a drag while drawing emits `quadraticCurveTo(last, midpoint(last, current))` and one stroke in the selected paint, sets width and colour to the tool choice, and moves the last point to the current point |
| `Drawing.DragWhenIdle` | src/main/kotlin/org/chubby/github/jamboardclone/handler/DrawHandler.kt:26-51 | a drag while not drawing first begins a path at the event point and sets `isDrawing`; its curve is degenerate (control and end both the event point) |
| `Drawing.DrawHandler.MouseDragged` | src/main/kotlin/org/chubby/github/jamboardclone/handler/DrawHandler.kt:25-56 | the handler's new state is exactly `Dragged` of its old state, the event point and the tool readings |
| `Drawing.ReleaseSpec` | src/main/kotlin/org/chubby/github/jamboardclone/handler/DrawHandler.kt:67-71 | release clears `isDrawing`, emits a single stroke in the current paint, and leaves the last point, width and colour unchanged |
| `Drawing.DrawHandler.MouseReleased` | src/main/kotlin/org/chubby/github/jamboardclone/handler/DrawHandler.kt:67-71 | the handler's new state is exactly `Released` of its old state |
| `Drawing.SliderListeners` | src/main/kotlin/org/chubby/github/jamboardclone/handler/DrawHandler.kt:78-90 | a brush-slider change sets the line width only when the toggle exists and is unselected, an eraser-slider change only when it is selected; in every other case, and always for everything else, nothing changes |
| `Drawing.DrawHandler.BrushSizeChanged` | src/main/kotlin/org/chubby/github/jamboardclone/handler/DrawHandler.kt:79-83 | the listener's new state is exactly `BrushSliderMoved` of the old one |
| `Drawing.DrawHandler.EraserSizeChanged` | src/main/kotlin/org/chubby/github/jamboardclone/handler/DrawHandler.kt:86-90 | the listener's new state is exactly `EraserSliderMoved` of the old one |
| `Drawing.RunOnlyAppends` | src/main/kotlin/org/chubby/github/jamboardclone/handler/DrawHandler.kt:25-90 | any event sequence only appends to the command log: no command already issued is changed or removed |
| `Drawing.DragsWhileDrawing` | src/main/kotlin/org/chubby/github/jamboardclone/handler/DrawHandler.kt:48-55 | drags while a path is open keep it open, emit exactly the reference command sequence `CurveOps`, and end with the last drag's point as last point and the last drag's tool paint as width and colour |
| `Drawing.CurveOpsAt` | src/main/kotlin/org/chubby/github/jamboardclone/handler/DrawHandler.kt:48-55 | drag `i` contributes exactly a curve controlled by the previous point and ending at the midpoint, then a stroke in that drag's paint; two commands per drag |
| `Drawing.CurveEndsAreMidpoints` | src/main/kotlin/org/chubby/github/jamboardclone/handler/DrawHandler.kt:48-55 | the curve end points of a drag sequence are exactly the midpoints of consecutive points, one each, in input order |
| `Drawing.StrokeSession` | src/main/kotlin/org/chubby/github/jamboardclone/handler/DrawHandler.kt:25-71 | press, drags, release append exactly `beginPath`, `moveTo(p0)`, the drags' commands and one final stroke in the last drag's paint (the earlier paint without drags); afterwards `isDrawing` is false and the last point is the last drag's |
| `Drawing.StrokeTouchesEveryMidpoint` | src/main/kotlin/org/chubby/github/jamboardclone/handler/DrawHandler.kt:48-63 | for press at `p0` and drags `p1..pn`, the curves the stroke adds end exactly at `mid(p(i-1), p(i))` for i = 1..n, one each, in order, among `2n + 3` new commands |
| `Drawing.LastBegin` | src/main/kotlin/org/chubby/github/jamboardclone/handler/DrawHandler.kt:30 | the position found is a `beginPath` (or -1 when none exists) and no later command is a `beginPath`, which is where JavaFX's current path starts |
| `Drawing.StrokesRepaintOnlyTheirSession` | src/main/kotlin/org/chubby/github/jamboardclone/handler/DrawHandler.kt:52-69 | every stroke of a press–drag–release session repaints exactly the session's path so far, from `moveTo(p0)` on; the closing stroke repaints the whole session, and nothing drawn before the press is repainted |

## Left out

- Window setup: FXML loading, widget lookup, scene and stage (`HelloApplication.kt:60-71`, `84-92`). These are UI plumbing; the screen size is an argument of `JamboardClone.Start`.
- The custom dot cursor and the cursor changes on press and release (`HelloApplication.kt:164-185`, `DrawHandler.kt:64`, `70`). They are UI only and hold no state the model needs.
- The save dialog, snapshots, PNG and PDF writing, the temporary file and its deletion, and the alerts and logging (`HelloApplication.kt:100-112`, `116-123`, `130`, `136`, `147-157`). These are I/O and foreign library calls. They are reduced to the arguments `fileChosen`, `firstFailure` and `saveFails` of `ExportToPdf` and to its outcome.
- Pages.JamboardClone.ExportToPdf: the snapshot's pixel size is taken to be the canvas's size. The integer rounding of a rasterised snapshot is not modelled.
- Pixel rendering by `GraphicsContext`: it is only a command log. The path each stroke repaints is derived from the log (`Repainted`); only the pixels produced are left out.
- Registering the handlers and listeners on the canvas and sliders (`DrawHandler.kt:74-76`, `79`, `86`). The handlers are plain methods, and a slider's change event is a method call.
- The setter listeners that write a slider's new value back into the same slider (`DrawHandler.kt:99-103`, `108-113`). They have no effect once a slider is its value. The setters themselves (`DrawHandler.kt:93-118`) only attach widgets; the widgets' readings arrive as the `Tools` argument.
- IEEE-754 rounding in the midpoint, scale and offset computations. Kotlin `Double` and `Float` are modelled as `real`.
- Pixel content of a page, and the link from a page to its own `DrawHandler` (`HelloApplication.kt:194-206`). A page is its identity and size; a drawing context is modelled separately by `DrawHandler.Init` on a new `GraphicsContext`.
