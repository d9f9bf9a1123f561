# ZoomPanTracker, modelled in Dafny

D12Canvas shows a large diagram canvas inside a smaller container element and
lets the user zoom and pan it. The logic for this is in `ZoomPanTracker`, a small
synchronous state machine. It holds:

- a zoom scale, which ZoomIn and ZoomOut keep within 0.6–6.0;
- a pan offset (panX, panY);
- integer container and canvas sizes, with the canvas 3000×3000 by default.

Every operation that could move the pan out of range re-clamps each pan
coordinate into `[container − canvas·scale, 0]`. Changes are reported through a
`Changed` event whose payload, `ZoomPanChangedEventArgs`, holds the scale and the
two pan coordinates.

The project has four modules:

- `ZoomPanEvents` (`zoom_pan_changed_event_args.dfy`): the notification payload,
  as an immutable datatype.
- `ZoomPanTracking` (`zoom_pan_tracker.dfy`): the tracker.
  - The pure part gives one step function per operation. Each takes a `Viewport`
    (all of the tracker's state, as a value) and returns a `Step`: the new state,
    what the call returned or threw, and the notifications it raised, in order.
  - The class `ZoomPanTracker` keeps the source's fields and overwrites them in
    place. A ghost field `changes` logs every notification. Each method is proved
    to do exactly what its step function says.
- `ZoomPanProperties` (`zoom_pan_properties.dfy`): properties of call sequences,
  such as the pan invariant, the scale range, repeated zooming and the edge cases.
- `ZoomPanTrackerTests` (`zoom_pan_tracker_tests.dfy`): the scenarios of the unit
  tests, written as client code of the class. Each postcondition implies what its test
  asserts.

Exceptions are returned as values, `Throw(ArgumentException)`. The fields are
left exactly as they were when the exception was raised. Note that
`ApplyPanPositionConstaints` can throw after the caller has already stored a new
size, scale or pan.

Where the code and a natural reading of its purpose differ, the model follows the
code:

- **Pan and SetPanPosition results.** They return whether the *clamp corrected*
  the position, not whether the position changed.
  - A pan that stays in bounds moves the position but returns false and raises
    nothing (`PanWithinBoundsIsSilent`).
  - A pan pushed against an edge returns true and raises a notification, even
    though the position does not move (`PanAgainstEdgeReportsCorrection`).
- **Container resize.** It raises a notification only when it forces a pan
  correction. The payload never carries container or canvas dimensions
  (`ContainerResizeWithinBoundsIsSilent`, `SetContainerSizeStep`).
- **Scaled canvas smaller than the container.** Here the clamp's lower bound is
  positive, which .NET `Math.Clamp` rejects with an `ArgumentException`. The code
  does not swap the bounds or cap them at 0.
  - Zooming out to 0.6 in a container more than 1800 pixels wide therefore throws
    (`ZoomOutBelowContainerWidthThrows`).
  - The new scale is already stored when it throws, and every later clamping call
    throws as well until the sizes or the scale change.
- **A scale change raises up to two notifications.** The clamp's notification
  comes first, then the scale notification. Both are built after the clamp, so
  they carry the same values (`SetScaleStep`).

## Model

| member | source | states |
|---|---|---|
| `ZoomPanEvents.ConstructorStoresValuesAsGiven` | D12Canvas/ZoomPanChangedEventArgs.cs:9-14 | the payload's accessors return exactly the scale and pan it was built from, for any values, with no validation |
| `ZoomPanEvents.PayloadIsItsThreeValues` | D12Canvas/ZoomPanChangedEventArgs.cs:5-7 | a payload is nothing but its scale, panX and panY: two payloads agreeing on them are equal (no container or canvas size inside) |
| `ZoomPanTracking.Clamp` | D12Canvas/ZoomPanTracker.cs:96-97 | Math.Clamp: throws exactly when min > max; otherwise the result lies in [min, max], equals the value iff the value is in range, and is the violated bound otherwise |
| `ZoomPanTracking.ApplyConstraints` | D12Canvas/ZoomPanTracker.cs:91-108 | throws iff an axis has maxPan > 0, changing nothing, with Math.Clamp's exception for X if X is inverted and for Y otherwise; otherwise the pan is snapped into [maxPan, 0] per axis, scale and sizes unchanged; returns true iff the pan was out of bounds; exactly one notification, of the new state, iff true |
| `ZoomPanTracking.PanStep` | D12Canvas/ZoomPanTracker.cs:53-58 | adds the deltas then clamps: on success each coordinate of the moved position is kept if within [maxPan, 0] and set to the nearer bound otherwise, scale and sizes unchanged; true iff the moved position was out of bounds; an in-bounds pan moves, returns false and raises nothing; on a throw (iff the bounds are inverted) the unclamped sum stays and the clamp's exception for the moved position is reported |
| `ZoomPanTracking.SetPanPositionStep` | D12Canvas/ZoomPanTracker.cs:60-70 | the current position is a no-op returning false; another position is stored then clamped (each coordinate kept if in range, else set to the nearer bound), true iff it was out of bounds; throws iff it differs and the bounds are inverted, leaving the requested position stored and reporting the clamp's exception |
| `ZoomPanTracking.SetScaleStep` | D12Canvas/ZoomPanTracker.cs:78-89 | an equal scale is a no-op returning false; a different one is always stored; it throws iff the rescaled bounds are inverted, keeping the new scale, raising nothing and reporting the clamp's exception for the rescaled state; on success each pan coordinate is kept if it fits the new scale and set to the nearer bound otherwise, sizes unchanged, and one or two identical notifications of the final state are raised, two iff the clamp corrected the pan |
| `ZoomPanTracking.ZoomInTarget` | D12Canvas/ZoomPanTracker.cs:74 | min(6.0, scale + 0.1): never above 6.0, equal to the scale iff the scale is 6.0, strictly up by at most 0.1 below the cap, never below 0.6 from a scale ≥ 0.6 |
| `ZoomPanTracking.ZoomOutTarget` | D12Canvas/ZoomPanTracker.cs:76 | max(0.6, scale − 0.1): never below 0.6, equal to the scale iff the scale is 0.6, strictly down by at most 0.1 above the floor, never above 6.0 from a scale ≤ 6.0 |
| `ZoomPanTracking.ZoomInStep` | D12Canvas/ZoomPanTracker.cs:74 | the new scale is ZoomInTarget of the old; returns false iff the scale was already 6.0, and then nothing changes; a scale in [0.6, 6.0] stays there; on success the sizes are unchanged, each pan coordinate is kept if it fits the new scale and set to the nearer bound otherwise, and one notification of the final state is raised, two iff the pan was corrected; it throws iff the scale was below 6.0 and the rescaled bounds are inverted, and a throw keeps the new scale, raises nothing and reports the clamp's exception |
| `ZoomPanTracking.ZoomOutStep` | D12Canvas/ZoomPanTracker.cs:76 | the new scale is ZoomOutTarget of the old; returns false iff the scale was already 0.6, and then nothing changes; a scale in [0.6, 6.0] stays there; on success the sizes are unchanged, each pan coordinate is kept if it fits the new scale and set to the nearer bound otherwise, and one notification of the final state is raised, two iff the pan was corrected; it throws iff the scale was above 0.6 and the rescaled bounds are inverted, and a throw keeps the new scale, raises nothing and reports the clamp's exception |
| `ZoomPanTracking.ZoomStep` | D12Canvas/ZoomPanTracker.cs:72 | Zoom(zoomIn): the new scale is ZoomInTarget or ZoomOutTarget of the old, by the flag; false iff the scale was already at that direction's bound, and then nothing changes; a scale in [0.6, 6.0] stays there; it throws iff the scale changes and the rescaled bounds are inverted, keeping the new scale, raising nothing and reporting the clamp's exception; on success the pan is kept or snapped as for ZoomIn/ZoomOut, and one notification is raised, two iff the pan was corrected; every notification reports the final state |
| `ZoomPanTracking.SetContainerSizeStep` | D12Canvas/ZoomPanTracker.cs:31-40 | a negative width, else a negative height, throws with nothing changed or raised; otherwise both sizes are stored, a throw iff the resized bounds are inverted, reporting the clamp's exception for the resized state; on success each pan coordinate is kept if it fits the new size and set to the nearer bound otherwise, and a notification (without sizes) is raised iff the pan had to be corrected |
| `ZoomPanTracking.SetCanvasSizeStep` | D12Canvas/ZoomPanTracker.cs:42-51 | the same checks, order and clamp as SetContainerSize, for the canvas dimensions |
| `ZoomPanTracking.ZoomPanTracker.constructor` | D12Canvas/ZoomPanTracker.cs:8-14 | a new tracker has scale 1.0, pan (0, 0), container 0×0, canvas 3000×3000, no notifications, and its pan in bounds |
| `ZoomPanTracking.ZoomPanTracker.SetContainerSize` | D12Canvas/ZoomPanTracker.cs:31-40 | fields, outcome and notification log change exactly as SetContainerSizeStep says |
| `ZoomPanTracking.ZoomPanTracker.SetCanvasSize` | D12Canvas/ZoomPanTracker.cs:42-51 | fields, outcome and notification log change exactly as SetCanvasSizeStep says |
| `ZoomPanTracking.ZoomPanTracker.Pan` | D12Canvas/ZoomPanTracker.cs:53-58 | fields, result and log change exactly as PanStep says; success leaves the pan in bounds |
| `ZoomPanTracking.ZoomPanTracker.SetPanPosition` | D12Canvas/ZoomPanTracker.cs:60-70 | fields, result and log change exactly as SetPanPositionStep says |
| `ZoomPanTracking.ZoomPanTracker.Zoom` | D12Canvas/ZoomPanTracker.cs:72 | dispatches to ZoomIn or ZoomOut by its flag; the scale stays in [0.6, 6.0] if it started there |
| `ZoomPanTracking.ZoomPanTracker.ZoomIn` | D12Canvas/ZoomPanTracker.cs:74 | fields, result and log change exactly as ZoomInStep says |
| `ZoomPanTracking.ZoomPanTracker.ZoomOut` | D12Canvas/ZoomPanTracker.cs:76 | fields, result and log change exactly as ZoomOutStep says |
| `ZoomPanTracking.ZoomPanTracker.SetScale` | D12Canvas/ZoomPanTracker.cs:18-22 | the Scale setter: fields, result and log change exactly as SetScaleStep says; a true result means the scale is the new one and the pan is in bounds |
| `ZoomPanTracking.ZoomPanTracker.ApplyPanPositionConstraints` | D12Canvas/ZoomPanTracker.cs:91-108 | fields, result and log change exactly as ApplyConstraints says |
| `ZoomPanTracking.ZoomPanTracker.OnChanged` | D12Canvas/ZoomPanTracker.cs:110-113 | appends one payload holding the current scale and pan to the notification log, changing nothing else |
| `ZoomPanProperties.Perform` | D12Canvas/ZoomPanTracker.cs:31-89 | any public call raises notifications only when it does not throw and leaves the pan in bounds, and every one it raises reports the state it leaves |
| `ZoomPanProperties.InitialStateIsInBounds` | D12Canvas/ZoomPanTracker.cs:8-14 | the initial state has scale 1.0, pan (0, 0), container 0×0, canvas 3000×3000, its pan in bounds and its scale in [0.6, 6.0] |
| `ZoomPanProperties.OperationKeepsPanInBounds` | D12Canvas/ZoomPanTracker.cs:91-108 | from a state with its pan in bounds, every public call that does not throw leaves the pan in bounds |
| `ZoomPanProperties.ClampingOperationsRestorePanBounds` | D12Canvas/ZoomPanTracker.cs:31-58 | resizes and pans that do not throw leave the pan in bounds from any state, even one an earlier exception left out of bounds |
| `ZoomPanProperties.RunKeepsPanInBounds` | D12Canvas/ZoomPanTracker.cs:91-108 | along any sequence of calls none of which throws, a state with its pan in bounds leads to one with its pan in bounds |
| `ZoomPanProperties.NotificationsNeverReportPositivePan` | D12Canvas/ZoomPanTracker.cs:110-113 | along any sequence of calls, from any state and across exceptions, every notification reports panX ≤ 0 and panY ≤ 0 |
| `ZoomPanProperties.OperationKeepsScaleInRange` | D12Canvas/ZoomPanTracker.cs:72-76 | one call, thrown or not, leaves a scale in [0.6, 6.0] there unless it is the Scale setter given a value outside it |
| `ZoomPanProperties.RunKeepsScaleInRange` | D12Canvas/ZoomPanTracker.cs:72-76 | a scale in [0.6, 6.0] stays there along any sequence of calls, exceptions included, unless the Scale setter is given a value outside it |
| `ZoomPanProperties.ReachableStatesAreInBounds` | D12Canvas/ZoomPanTracker.cs:8-14 | every state a new tracker reaches without an exception, whatever the calls and setter arguments, has its pan in bounds; its scale stays in [0.6, 6.0] whenever the Scale setter is only given values in that range |
| `ZoomPanProperties.ZoomInTimesValue` | D12Canvas/ZoomPanTracker.cs:74 | from a scale ≤ 6.0, n zoom-ins give min(6.0, scale + 0.1·n) |
| `ZoomPanProperties.ZoomOutTimesValue` | D12Canvas/ZoomPanTracker.cs:76 | from a scale ≥ 0.6, n zoom-outs give max(0.6, scale − 0.1·n) |
| `ZoomPanProperties.ZoomCallsLeaveTheirTarget` | D12Canvas/ZoomPanTracker.cs:74-76 | a single ZoomIn leaves the scale at ZoomInTarget of the old one and a single ZoomOut at ZoomOutTarget, even when the clamp then throws |
| `ZoomPanProperties.RepeatedZoomInScale` | D12Canvas/ZoomPanTracker.cs:74 | n calls of ZoomIn on the tracker leave exactly the scale of n zoom-in steps, whether or not a call threw |
| `ZoomPanProperties.RepeatedZoomOutScale` | D12Canvas/ZoomPanTracker.cs:76 | n calls of ZoomOut on the tracker leave exactly the scale of n zoom-out steps |
| `ZoomPanProperties.RepeatedZoomFromOneReachesTheBounds` | D12Canvas.Tests/ZoomPanTrackerTests.cs:45-91 | from scale 1.0, n zoom-ins give min(6.0, 1 + 0.1·n) and reach 6.0 from 50 calls on; n zoom-outs give max(0.6, 1 − 0.1·n) and reach 0.6 from 4 calls on |
| `ZoomPanProperties.ZoomStepsCancel` | D12Canvas/ZoomPanTracker.cs:74-76 | away from the bounds, a zoom-in followed by a zoom-out (or the reverse) restores the scale |
| `ZoomPanProperties.PanWithinBoundsIsSilent` | D12Canvas/ZoomPanTracker.cs:53-58 | from a new tracker, Pan(−10, −10) moves to (−10, −10), returns false and raises nothing |
| `ZoomPanProperties.PanAgainstEdgeReportsCorrection` | D12Canvas/ZoomPanTracker.cs:99-107 | from a new tracker, Pan(100, 0) leaves the position at (0, 0) yet returns true and raises one notification |
| `ZoomPanProperties.ContainerResizeWithinBoundsIsSilent` | D12Canvas/ZoomPanTracker.cs:31-40 | resizing the container from 800×600 to 1200×800 with the pan still in bounds stores the size and raises nothing |
| `ZoomPanProperties.ZoomOutBelowContainerWidthThrows` | D12Canvas/ZoomPanTracker.cs:93-97 | with a 2000-wide container, zooming out from 0.7 to 0.6 throws MinGreaterThanMax(200, 0), keeps the new scale, and a later pan throws too |
| `ZoomPanTrackerTests.NewFixture` | D12Canvas.Tests/ZoomPanTrackerTests.cs:10-14 | a new tracker sized to a 100×100 container has the initial state with that container |
| `ZoomPanTrackerTests.InitialScaleIsOne` | D12Canvas.Tests/ZoomPanTrackerTests.cs:16-20 | the fixture's scale is 1.0 |
| `ZoomPanTrackerTests.InitialPanPositionIsZero` | D12Canvas.Tests/ZoomPanTrackerTests.cs:22-27 | the fixture's pan is (0, 0) |
| `ZoomPanTrackerTests.CanZoomIn` | D12Canvas.Tests/ZoomPanTrackerTests.cs:29-35 | Zoom(true) on the fixture returns true and gives scale 1.1 |
| `ZoomPanTrackerTests.CanZoomOut` | D12Canvas.Tests/ZoomPanTrackerTests.cs:37-43 | Zoom(false) on the fixture returns true and gives scale 0.9 |
| `ZoomPanTrackerTests.ZoomInRespectsMaxScale` | D12Canvas.Tests/ZoomPanTrackerTests.cs:45-67 | the test's loop reaches a scale within 0.2 of 6.0 inside 50 iterations, and the next Zoom(true) returns true with scale exactly 6.0 |
| `ZoomPanTrackerTests.ZoomOutRespectsMinScale` | D12Canvas.Tests/ZoomPanTrackerTests.cs:69-91 | the test's loop reaches a scale within 0.2 of 0.6 inside 50 iterations, and the next Zoom(false) returns true with scale exactly 0.6 |
| `ZoomPanTrackerTests.PanRespectsContainerBoundaries` | D12Canvas.Tests/ZoomPanTrackerTests.cs:93-115 | container 100, canvas 1000, scale 1: the four pans leave 0, −900, 0, −900 |
| `ZoomPanTrackerTests.PanRespectsScale` | D12Canvas.Tests/ZoomPanTrackerTests.cs:117-139 | the same at scale 1.1: the four pans leave 0, −1000, 0, −1000 |
| `ZoomPanTrackerTests.SetContainerSizePreventsNegativeValues` | D12Canvas.Tests/ZoomPanTrackerTests.cs:141-146 | a negative width throws InvalidWidth, a negative height InvalidHeight, and the tracker is unchanged |
| `ZoomPanTrackerTests.SetCanvasSizePreventsNegativeValues` | D12Canvas.Tests/ZoomPanTrackerTests.cs:148-153 | the same for the canvas size |

## Left out

- IEEE-754 doubles: scale and pan are exact `real`s, so 1.0 + 0.1 is exactly 1.1 and the zoom steps cancel exactly. The source compares boundary scales with a 0.01 tolerance. NaN and infinities are not modelled.
- RepeatedZoomFromOneReachesTheBounds: its call counts hold in exact arithmetic only. In doubles, 50 additions of 0.1 to 1.0 give 5.999999999999996 and 4 subtractions give 0.6000000000000001, so the bounds are reached after 51 and 5 calls. The loops of ZoomInRespectsMaxScale and ZoomOutRespectsMinScale still take their final branch at the same iteration.
- The integer width of the sizes: they are unbounded naturals. The source's 32-bit `int` only ever enters the arithmetic after conversion to double.
- Event subscription (`Changed += / -=`, no listener attached): each notification is recorded in the ghost log `changes` instead of being delivered. A listener that calls back into the tracker during a notification is not modelled.
- The read-only accessors (`Scale` getter, `PanX`, `PanY`, `CanvasWidth`, `CanvasHeight`, `ContainerWidth`, `ContainerHeight`): these are the class's fields, read directly. The source returns the sizes as doubles.
- The exception messages: an `ArgumentException` is identified by its cause (`InvalidWidth`, `InvalidHeight`, `MinGreaterThanMax(min, max)`) rather than by its message text.
- D12Canvas/DiagramCanvas.razor.cs is not part of this model. It is Blazor plumbing: JS interop, rendering, disposal, and mouse, wheel and keyboard handlers that only forward deltas or ±50 to `Pan` and the zoom calls.
- D12Canvas/wwwroot/js/DiagramCanvasInterop.js is not part of this model. It covers DOM measurement and resize observation, which are browser I/O.
- D12Canvas.Tests/DiagramCanvasTests.cs and ComponentTestBase.cs are not part of this model. They are a component test harness whose only test is skipped.
