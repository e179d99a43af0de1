# Bézier tool: a verified model of its interaction core

The Bézier tool is a small canvas application. The user clicks three points
inside the canvas: the first two are the end points of a quadratic Bézier
curve and the third is its control point. Finished curves are kept in a list
owned by the application and drawn together through a render cache. A
"Clear" message empties the list and replaces the canvas state.

The model has three modules:

- `Bezier` (`bezier.dfy`): the canvas program. `Step` is the update of the
  pending state `Option<Pending>` (`None`, then `One{from}`, then
  `Two{from,to}`, then back to `None`, publishing a `Curve`). The class
  `ProgramState` holds that state and its method `Update` overwrites it in
  place, proved equal to `Step`. `MouseInteraction` picks the cursor icon.
  The class `State` holds the render cache. It offers `RequestRedraw`, which
  clears the cache, and `DrawContent`, which reuses cached geometry for an
  unchanged size or draws the curves again and caches them.
- `BezierTrace` (`trace.dfy`): `Run` feeds a sequence of events to `Step`.
  The main theorem, `RunGroupsClicks`, says what any run publishes. Take
  the pending points followed by the in-bounds left presses. The run
  publishes these points grouped three by three, in order (`Triples`). The
  leftover points stay pending (`Remainder`). Every other event plays no part.
- `Tool` (`tool.dfy`): the application. The class `Example` holds the canvas
  state and the list of curves. Its invariant `Valid` says that cached
  geometry was drawn from the current curves. `Update` handles `AddCurve`
  and `Clear` and keeps that invariant. The invariant holds after
  `AddCurve` only because the cache is invalidated. `Dispatch` is the wiring
  of `main.rs` line 45: a curve published by the canvas becomes an
  `AddCurve` message.

Inputs that come from the framework are parameters:

- The cursor position inside the bounds (`cursor.position_in(bounds)`) is an
  `Option<Point>`. It is `None` when the cursor is outside the bounds or
  unavailable.
- `cursor.is_over(bounds)` is taken to hold exactly when that position exists,
  which is how the framework defines it.
- Points are pairs of reals that are only copied, never computed on.
- Cached geometry is represented by the curves it was tessellated from.

## Model

| member | source | states |
|---|---|---|
| `Bezier.Step` | examples/bezier_tool/src/main.rs:114-166 | Outside the bounds every event gives `(Ignored, None)` with the state unchanged. An event is `Captured` exactly when it is a mouse event inside the bounds. An `Ignored` result never carries a curve or changes the state. Only an in-bounds left press changes anything. A curve is published exactly when an in-bounds left press meets `Two{from,to}`; that curve is `Curve{from,to,control = cursor}` and the state returns to `None`. |
| `Bezier.LeftPressTransitions` | examples/bezier_tool/src/main.rs:129-157 | The three left-press transitions: `None` becomes `One{from = cursor}`, `One{from}` becomes `Two{from, to = cursor}`, both without a curve. `Two{from,to}` becomes `None` and publishes `Curve{from,to,cursor}`. |
| `Bezier.ProgramState.constructor` | examples/bezier_tool/src/main.rs:112 | The program state starts as `None`, with no point pending. |
| `Bezier.ProgramState.Update` | examples/bezier_tool/src/main.rs:114-166 | Overwriting the state in place gives exactly the new state, status and curve of `Step`. A curve comes only with `Captured` and leaves the state `None`. |
| `Bezier.MouseInteraction` | examples/bezier_tool/src/main.rs:202-214 | The icon is the crosshair exactly when the cursor is over the bounds, and the default icon otherwise; the pending state plays no part. |
| `Bezier.CrosshairWhereCaptured` | examples/bezier_tool/src/main.rs:209-213 | The crosshair is shown exactly for the cursor positions at which some event would be captured by the canvas update. |
| `Bezier.State.constructor` | examples/bezier_tool/src/main.rs:83-86 | The default canvas state has an empty cache. |
| `Bezier.State.RequestRedraw` | examples/bezier_tool/src/main.rs:101-103 | The cache is cleared, so the next draw tessellates again. |
| `Bezier.State.DrawContent` | examples/bezier_tool/src/main.rs:177-186 | Geometry cached for the same size is returned as it is. Otherwise the given curves are drawn. Either way the cache then holds what was returned, for this size. |
| `BezierTrace.FromPoints` | examples/bezier_tool/src/main.rs:253-257 | Zero, one or two points are held by exactly one pending state (`None`, `One`, `Two`), which gives them back in order. |
| `BezierTrace.PointsRoundTrip` | examples/bezier_tool/src/main.rs:253-257 | Every pending state is rebuilt from the points it holds. |
| `BezierTrace.Run` | examples/bezier_tool/src/main.rs:114-166 | Over any sequence of events, three times the number of published curves plus the points pending at the end equals the points pending at the start plus the number of in-bounds left presses. Each curve consumes three clicks. |
| `BezierTrace.ClickRegroups` | examples/bezier_tool/src/main.rs:129-157 | One in-bounds left press moves its point into the pending state, or it closes the triple that the update publishes. The grouping of all points into curves is unchanged. |
| `BezierTrace.RunGroupsClicks` | examples/bezier_tool/src/main.rs:121-164 | For any events from any state, the published curves are the pending points followed by the in-bounds left presses, grouped three by three in order. The final state holds the points left over. |
| `BezierTrace.CurveCount` | examples/bezier_tool/src/main.rs:129-157 | From an empty canvas, n in-bounds left presses publish n / 3 curves and leave n mod 3 points pending. |
| `BezierTrace.ThreeClicks` | examples/bezier_tool/src/main.rs:129-157 | From `None`, three in-bounds left presses at p1, p2, p3 publish nothing on the first two presses. The run publishes exactly `Curve{p1,p2,p3}` and ends in `None`. |
| `BezierTrace.NoClicksNoChange` | examples/bezier_tool/src/main.rs:121-164 | A run with no in-bounds left press leaves the state unchanged and publishes nothing. This covers presses outside the bounds, other mouse events and non-mouse events. |
| `Tool.Example.constructor` | examples/bezier_tool/src/main.rs:13-17 | The default application has no curves and an empty cache. |
| `Tool.Example.Update` | examples/bezier_tool/src/main.rs:26-39 | `AddCurve(c)` makes the list the old list followed by `c` and keeps the same canvas state with its cache cleared. `Clear` empties the list and installs a fresh default canvas state. Both keep the cached geometry consistent with the list. |
| `Tool.Example.DrawContent` | examples/bezier_tool/src/main.rs:177-186 | Because of the invariant `Update` keeps, drawing through the cache always yields exactly the current curves, whether the cache is reused or refilled. |
| `Tool.Dispatch` | examples/bezier_tool/src/main.rs:45 | A canvas event updates the pending state as `Step` does. The application keeps the same canvas state object. A published curve is appended to the application's list as an `AddCurve` message and clears that state's cache. Otherwise the list and the cache are unchanged. |

## Left out

- Rendering is not modelled: `Bezier::draw` apart from its use of the cache, `Curve::draw_all`, `Pending::draw`, frames, paths, strokes and the canvas border. These are calls into the framework's renderer.
- `main`, theming, anti-aliasing and `Example::view` are not modelled. This includes the layout and the rule that the Clear button is shown only when there are curves. They build the widget tree.
- The geometry inside `cursor.position_in` and `cursor.is_over` is not modelled. Their results are inputs.
- The `f32` values inside points and sizes are not modelled; they are reals here. No arithmetic is done on them. Sizes are compared with `==` when the cache decides whether to reuse its geometry, and float equality differs from real equality on NaN (a NaN size never matches the cached one, so the cache would redraw).
- The framework's event loop is not modelled. `Dispatch` covers one event, and `Run` covers a sequence for the canvas alone.
- Touch and keyboard event payloads, and the wheel delta, are not modelled. The canvas ignores or captures these events without reading them.
- Bezier.MouseInteraction: the framework's default cursor icon is one opaque constructor, `DefaultInteraction`. Its name among the framework's icons is not modelled.
- Tool.Example.Update: `Clear` replaces the application's canvas state (its cache) as the source does. The pending points live in the canvas widget's program state, which `Clear` does not touch, so they survive a `Clear`.
