/** The zoom and pan state machine of the diagram canvas (D12Canvas/ZoomPanTracker.cs).

    The pure part states, operation by operation, what one call does to the
    tracker's observable state: the new state, what the call returns or throws,
    and the Changed notifications it raises in order. The class ZoomPanTracker is
    the imperative tracker itself; each of its methods is proved to behave as the
    matching step function says. */
module ZoomPanTracking {
  import opened ZoomPanEvents

  const MIN_SCALE: real := 0.6
  const MAX_SCALE: real := 6.0
  /** The amount one ZoomIn adds to, or one ZoomOut takes from, the scale. */
  const ZOOM_STEP: real := 0.1
  const DEFAULT_CANVAS_SIZE: nat := 3000

  /** The ArgumentExceptions the tracker lets escape: the two raised by the size
      setters, and the one Math.Clamp raises when its lower bound exceeds its
      upper bound. */
  datatype ArgumentException =
    | InvalidWidth
    | InvalidHeight
    | MinGreaterThanMax(min: real, max: real)

  /** The outcome of a call: it returned a value, or it threw. */
  datatype Result<+T> = Ok(value: T) | Throw(error: ArgumentException)
  {
    /** The same outcome for a call that returns nothing. */
    function Discard(): (r: Result<()>)
      ensures r.Ok? <==> Ok?
      ensures Throw? ==> r.error == error
    {
      match this
      case Ok(_) => Ok(())
      case Throw(e) => Throw(e)
    }
  }

  /** Everything the tracker holds, as a value. Sizes are natural numbers: the
      size setters never store a negative one. */
  datatype Viewport = Viewport(
    scale: real, panX: real, panY: real,
    containerWidth: nat, containerHeight: nat,
    canvasWidth: nat, canvasHeight: nat)

  /** The state of a newly constructed tracker. */
  const Initial: Viewport :=
    Viewport(1.0, 0.0, 0.0, 0, 0, DEFAULT_CANVAS_SIZE, DEFAULT_CANVAS_SIZE)

  function Min(a: real, b: real): real { if a <= b then a else b }

  function Max(a: real, b: real): real { if a >= b then a else b }

  /** The most negative pan on one axis that keeps the scaled canvas covering the
      container; it is the lower bound handed to the clamp. */
  function MaxPan(container: nat, canvas: nat, scale: real): real {
    container as real - canvas as real * scale
  }

  function MaxPanX(v: Viewport): real { MaxPan(v.containerWidth, v.canvasWidth, v.scale) }

  function MaxPanY(v: Viewport): real { MaxPan(v.containerHeight, v.canvasHeight, v.scale) }

  /** The clamp's bounds are in order on both axes: the scaled canvas is at
      least as large as the container. */
  predicate BoundsOrdered(v: Viewport) {
    MaxPanX(v) <= 0.0 && MaxPanY(v) <= 0.0
  }

  /** The tracker's invariant: each pan coordinate lies in [maxPan, 0]. */
  predicate PanInBounds(v: Viewport) {
    MaxPanX(v) <= v.panX <= 0.0 && MaxPanY(v) <= v.panY <= 0.0
  }

  /** Scale and all four sizes agree: the two states differ at most in their pan. */
  predicate SameFrame(a: Viewport, b: Viewport) {
    a.scale == b.scale &&
    a.containerWidth == b.containerWidth && a.containerHeight == b.containerHeight &&
    a.canvasWidth == b.canvasWidth && a.canvasHeight == b.canvasHeight
  }

  /** On one axis, `after` is `before` snapped into [lower, 0]: kept when inside,
      moved to the nearer bound when outside. */
  predicate Snapped(before: real, after: real, lower: real) {
    (lower <= before <= 0.0 ==> after == before) &&
    (before < lower ==> after == lower) &&
    (0.0 < before ==> after == 0.0)
  }

  /** `post` is what clamping the pan of `pre` gives: the same scale and sizes,
      and on each axis the pan of `pre` snapped into [maxPan, 0]. */
  predicate ClampedFrom(pre: Viewport, post: Viewport) {
    SameFrame(post, pre) &&
    Snapped(pre.panX, post.panX, MaxPanX(pre)) && Snapped(pre.panY, post.panY, MaxPanY(pre))
  }

  /** The payload OnChanged builds from a state. */
  function SnapshotOf(v: Viewport): ZoomPanChangedEventArgs {
    ZoomPanChangedEventArgs(v.scale, v.panX, v.panY)
  }

  /** .NET Math.Clamp on doubles: throws when min > max, otherwise the value
      snapped into [min, max]. */
  function Clamp(value: real, min: real, max: real): (r: Result<real>)
    ensures r.Ok? <==> min <= max
    ensures r.Throw? ==> r.error == MinGreaterThanMax(min, max)
    ensures r.Ok? ==> min <= r.value <= max
    ensures r.Ok? ==> (r.value == value <==> min <= value <= max)
    ensures r.Ok? && value < min ==> r.value == min
    ensures r.Ok? && max < value ==> r.value == max
  {
    if min > max then Throw(MinGreaterThanMax(min, max))
    else if value < min then Ok(min)
    else if value > max then Ok(max)
    else Ok(value)
  }

  /** The exception the clamp of `v` raises when its bounds are out of order:
      Math.Clamp on the X axis is called first, so an inverted X bound is the one
      reported. */
  function ClampError(v: Viewport): ArgumentException {
    if MaxPanX(v) > 0.0 then MinGreaterThanMax(MaxPanX(v), 0.0)
    else MinGreaterThanMax(MaxPanY(v), 0.0)
  }

  /** What one call did: the state it left, what it returned or threw, and the
      Changed notifications it raised, in order. */
  datatype Step<T> = Step(view: Viewport, result: Result<T>, emitted: seq<ZoomPanChangedEventArgs>)

  /** ApplyPanPositionConstaints: clamp panX, then panY, into [maxPan, 0]; when
      either moved, store both and notify. Math.Clamp throws before anything is
      stored when an axis has its bounds out of order, X being checked first. */
  function ApplyConstraints(v: Viewport): (s: Step<bool>)
    ensures s.result.Throw? <==> !BoundsOrdered(v)
    ensures s.result.Throw? ==> s.view == v && s.emitted == []
    ensures s.result.Throw? ==> s.result.error == ClampError(v)
    ensures s.result.Ok? ==> ClampedFrom(v, s.view) && PanInBounds(s.view)
    ensures s.result == Ok(true) <==> BoundsOrdered(v) && !PanInBounds(v)
    ensures s.result == Ok(false) ==> s.view == v
    ensures s.emitted == if s.result == Ok(true) then [SnapshotOf(s.view)] else []
  {
    var clampedX := Clamp(v.panX, MaxPanX(v), 0.0);
    var clampedY := Clamp(v.panY, MaxPanY(v), 0.0);
    if clampedX.Throw? then Step(v, Throw(clampedX.error), [])
    else if clampedY.Throw? then Step(v, Throw(clampedY.error), [])
    else if clampedX.value != v.panX || clampedY.value != v.panY then
      var corrected := v.(panX := clampedX.value, panY := clampedY.value);
      Step(corrected, Ok(true), [SnapshotOf(corrected)])
    else Step(v, Ok(false), [])
  }

  /** Pan(deltaX, deltaY): add the deltas, then clamp. The result says whether the
      clamp corrected the moved position, not whether the position moved; when the
      clamp throws, the unclamped sum has already been stored. */
  function PanStep(v: Viewport, deltaX: real, deltaY: real): (s: Step<bool>)
    ensures var moved := v.(panX := v.panX + deltaX, panY := v.panY + deltaY);
      && (s.result.Throw? <==> !BoundsOrdered(v))
      && (s.result.Throw? ==> s.view == moved && s.emitted == [] && s.result.error == ClampError(moved))
      && (s.result.Ok? ==> ClampedFrom(moved, s.view) && PanInBounds(s.view))
      && (s.result == Ok(true) <==> BoundsOrdered(v) && !PanInBounds(moved))
      && (PanInBounds(moved) ==> s == Step(moved, Ok(false), []))
    ensures s.emitted == if s.result == Ok(true) then [SnapshotOf(s.view)] else []
  {
    ApplyConstraints(v.(panX := v.panX + deltaX, panY := v.panY + deltaY))
  }

  /** SetPanPosition(panX, panY): the current position is a no-op returning false;
      any other position is stored and then clamped, and the result says whether
      the clamp corrected it. */
  function SetPanPositionStep(v: Viewport, panX: real, panY: real): (s: Step<bool>)
    ensures panX == v.panX && panY == v.panY ==> s == Step(v, Ok(false), [])
    ensures var requested := v.(panX := panX, panY := panY);
      && (s.result.Throw? <==> requested != v && !BoundsOrdered(v))
      && (s.result.Throw? ==> s.view == requested && s.emitted == [] && s.result.error == ClampError(requested))
      && (s.result.Ok? ==> SameFrame(s.view, v))
      && (s.result.Ok? && requested != v ==> ClampedFrom(requested, s.view) && PanInBounds(s.view))
      && (s.result == Ok(true) <==> requested != v && BoundsOrdered(v) && !PanInBounds(requested))
      && (requested != v && PanInBounds(requested) ==> s == Step(requested, Ok(false), []))
    ensures s.emitted == if s.result == Ok(true) then [SnapshotOf(s.view)] else []
  {
    if panX != v.panX || panY != v.panY then
      ApplyConstraints(v.(panX := panX, panY := panY))
    else
      Step(v, Ok(false), [])
  }

  /** SetScale, behind the Scale setter: an equal scale is a no-op returning false.
      A different one is stored first, then the pan is clamped (a notification if
      that corrected it), then a scale notification follows; when the clamp
      throws, the new scale stays and nothing is raised. */
  function SetScaleStep(v: Viewport, newScale: real): (s: Step<bool>)
    ensures newScale == v.scale ==> s == Step(v, Ok(false), [])
    ensures newScale != v.scale ==> s.view.scale == newScale && s.result != Ok(false)
    ensures var rescaled := v.(scale := newScale);
      && (s.result.Throw? <==> newScale != v.scale && !BoundsOrdered(rescaled))
      && (s.result.Throw? ==> s.view == rescaled && s.emitted == [] && s.result.error == ClampError(rescaled))
      && (s.result == Ok(true) ==> ClampedFrom(rescaled, s.view) && PanInBounds(s.view))
      && (s.result == Ok(true) ==> |s.emitted| == if PanInBounds(rescaled) then 1 else 2)
    ensures forall e | e in s.emitted :: e == SnapshotOf(s.view)
  {
    if newScale != v.scale then
      var clamped := ApplyConstraints(v.(scale := newScale));
      if clamped.result.Throw? then
        Step(clamped.view, Throw(clamped.result.error), [])
      else
        Step(clamped.view, Ok(true), clamped.emitted + [SnapshotOf(clamped.view)])
    else
      Step(v, Ok(false), [])
  }

  /** The scale ZoomIn asks for: Math.Min(MAX_SCALE, scale + 0.1). */
  function ZoomInTarget(scale: real): (r: real)
    ensures r <= MAX_SCALE
    ensures r == scale <==> scale == MAX_SCALE
    ensures scale < MAX_SCALE ==> scale < r <= scale + ZOOM_STEP
    ensures MIN_SCALE <= scale ==> MIN_SCALE <= r
  {
    Min(MAX_SCALE, scale + ZOOM_STEP)
  }

  /** The scale ZoomOut asks for: Math.Max(MIN_SCALE, scale - 0.1). */
  function ZoomOutTarget(scale: real): (r: real)
    ensures MIN_SCALE <= r
    ensures r == scale <==> scale == MIN_SCALE
    ensures MIN_SCALE < scale ==> scale - ZOOM_STEP <= r < scale
    ensures scale <= MAX_SCALE ==> r <= MAX_SCALE
  {
    Max(MIN_SCALE, scale - ZOOM_STEP)
  }

  /** ZoomIn: one step up, capped at MAX_SCALE; false and no change exactly at
      the cap. */
  function ZoomInStep(v: Viewport): (s: Step<bool>)
    ensures s.view.scale == ZoomInTarget(v.scale)
    ensures s.result == Ok(false) <==> v.scale == MAX_SCALE
    ensures v.scale == MAX_SCALE ==> s == Step(v, Ok(false), [])
    ensures MIN_SCALE <= v.scale <= MAX_SCALE ==> MIN_SCALE <= s.view.scale <= MAX_SCALE
    ensures var rescaled := v.(scale := ZoomInTarget(v.scale));
      && (s.result.Throw? <==> v.scale != MAX_SCALE && !BoundsOrdered(rescaled))
      && (s.result.Throw? ==> s.view == rescaled && s.emitted == [] && s.result.error == ClampError(rescaled))
      && (s.result == Ok(true) ==> ClampedFrom(rescaled, s.view) && PanInBounds(s.view))
      && (s.result == Ok(true) ==> |s.emitted| == if PanInBounds(rescaled) then 1 else 2)
    ensures forall e | e in s.emitted :: e == SnapshotOf(s.view)
  {
    SetScaleStep(v, ZoomInTarget(v.scale))
  }

  /** ZoomOut: one step down, floored at MIN_SCALE; false and no change exactly
      at the floor. */
  function ZoomOutStep(v: Viewport): (s: Step<bool>)
    ensures s.view.scale == ZoomOutTarget(v.scale)
    ensures s.result == Ok(false) <==> v.scale == MIN_SCALE
    ensures v.scale == MIN_SCALE ==> s == Step(v, Ok(false), [])
    ensures MIN_SCALE <= v.scale <= MAX_SCALE ==> MIN_SCALE <= s.view.scale <= MAX_SCALE
    ensures var rescaled := v.(scale := ZoomOutTarget(v.scale));
      && (s.result.Throw? <==> v.scale != MIN_SCALE && !BoundsOrdered(rescaled))
      && (s.result.Throw? ==> s.view == rescaled && s.emitted == [] && s.result.error == ClampError(rescaled))
      && (s.result == Ok(true) ==> ClampedFrom(rescaled, s.view) && PanInBounds(s.view))
      && (s.result == Ok(true) ==> |s.emitted| == if PanInBounds(rescaled) then 1 else 2)
    ensures forall e | e in s.emitted :: e == SnapshotOf(s.view)
  {
    SetScaleStep(v, ZoomOutTarget(v.scale))
  }

  /** Zoom(zoomIn): ZoomIn when asked to zoom in, ZoomOut otherwise. */
  function ZoomStep(v: Viewport, zoomIn: bool): (s: Step<bool>)
    ensures var target := if zoomIn then ZoomInTarget(v.scale) else ZoomOutTarget(v.scale);
      && s.view.scale == target
      && (s.result == Ok(false) <==> target == v.scale)
      && (target == v.scale ==> s == Step(v, Ok(false), []))
      && (s.result.Throw? <==> target != v.scale && !BoundsOrdered(v.(scale := target)))
      && (s.result.Throw? ==> s.view == v.(scale := target) && s.emitted == [])
      && (s.result.Throw? ==> s.result.error == ClampError(v.(scale := target)))
      && (s.result == Ok(true) ==> ClampedFrom(v.(scale := target), s.view) && PanInBounds(s.view))
      && (s.result == Ok(true) ==> |s.emitted| == if PanInBounds(v.(scale := target)) then 1 else 2)
    ensures s.result == Ok(false) <==> v.scale == (if zoomIn then MAX_SCALE else MIN_SCALE)
    ensures MIN_SCALE <= v.scale <= MAX_SCALE ==> MIN_SCALE <= s.view.scale <= MAX_SCALE
    ensures forall e | e in s.emitted :: e == SnapshotOf(s.view)
  {
    if zoomIn then ZoomInStep(v) else ZoomOutStep(v)
  }

  /** SetContainerSize(width, height): a negative width, then a negative height,
      throws before anything is stored. Otherwise both sizes are stored and the
      pan is clamped; the only notification is the clamp's, and it carries no
      container size. */
  function SetContainerSizeStep(v: Viewport, width: int, height: int): (s: Step<()>)
    ensures width < 0 ==> s == Step(v, Throw(InvalidWidth), [])
    ensures 0 <= width && height < 0 ==> s == Step(v, Throw(InvalidHeight), [])
    ensures 0 <= width && 0 <= height ==>
      var resized := v.(containerWidth := width, containerHeight := height);
      && SameFrame(s.view, resized)
      && (s.result.Ok? ==> ClampedFrom(resized, s.view))
      && (s.result.Throw? <==> !BoundsOrdered(resized))
      && (s.result.Throw? ==> s.view == resized && s.result.error == ClampError(resized))
      && (s.emitted == [] <==> !BoundsOrdered(resized) || PanInBounds(resized))
    ensures s.result.Ok? ==> PanInBounds(s.view)
    ensures s.emitted == [] || (s.result.Ok? && s.emitted == [SnapshotOf(s.view)])
  {
    if width < 0 then Step(v, Throw(InvalidWidth), [])
    else if height < 0 then Step(v, Throw(InvalidHeight), [])
    else
      var clamped := ApplyConstraints(v.(containerWidth := width, containerHeight := height));
      Step(clamped.view, clamped.result.Discard(), clamped.emitted)
  }

  /** SetCanvasSize(width, height): the same checks and the same clamp as
      SetContainerSize, for the canvas. */
  function SetCanvasSizeStep(v: Viewport, width: int, height: int): (s: Step<()>)
    ensures width < 0 ==> s == Step(v, Throw(InvalidWidth), [])
    ensures 0 <= width && height < 0 ==> s == Step(v, Throw(InvalidHeight), [])
    ensures 0 <= width && 0 <= height ==>
      var resized := v.(canvasWidth := width, canvasHeight := height);
      && SameFrame(s.view, resized)
      && (s.result.Ok? ==> ClampedFrom(resized, s.view))
      && (s.result.Throw? <==> !BoundsOrdered(resized))
      && (s.result.Throw? ==> s.view == resized && s.result.error == ClampError(resized))
      && (s.emitted == [] <==> !BoundsOrdered(resized) || PanInBounds(resized))
    ensures s.result.Ok? ==> PanInBounds(s.view)
    ensures s.emitted == [] || (s.result.Ok? && s.emitted == [SnapshotOf(s.view)])
  {
    if width < 0 then Step(v, Throw(InvalidWidth), [])
    else if height < 0 then Step(v, Throw(InvalidHeight), [])
    else
      var clamped := ApplyConstraints(v.(canvasWidth := width, canvasHeight := height));
      Step(clamped.view, clamped.result.Discard(), clamped.emitted)
  }

  /** The tracker. Its fields are overwritten in place by every operation; the
      ghost field `changes` records, in order, every Changed notification raised
      so far. A thrown ArgumentException is returned as Throw(...), with the
      fields left as they were when the exception was raised. */
  class ZoomPanTracker {
    var scale: real
    var panX: real
    var panY: real
    var containerWidth: nat
    var containerHeight: nat
    var canvasWidth: nat
    var canvasHeight: nat
    ghost var changes: seq<ZoomPanChangedEventArgs>

    /** The tracker's state as a value. */
    function View(): Viewport
      reads this
    {
      Viewport(scale, panX, panY, containerWidth, containerHeight, canvasWidth, canvasHeight)
    }

    constructor ()
      ensures View() == Initial && changes == []
      ensures PanInBounds(View())
    {
      scale := 1.0;
      panX, panY := 0.0, 0.0;
      containerWidth, containerHeight := 0, 0;
      canvasWidth, canvasHeight := DEFAULT_CANVAS_SIZE, DEFAULT_CANVAS_SIZE;
      changes := [];
    }

    method SetContainerSize(width: int, height: int) returns (r: Result<()>)
      modifies this
      ensures var s := SetContainerSizeStep(old(View()), width, height);
        View() == s.view && r == s.result && changes == old(changes) + s.emitted
      ensures r.Ok? ==> PanInBounds(View())
    {
      if width < 0 {
        return Throw(InvalidWidth);
      }
      if height < 0 {
        return Throw(InvalidHeight);
      }
      containerWidth := width;
      containerHeight := height;
      var clamped := ApplyPanPositionConstraints();
      r := clamped.Discard();
    }

    method SetCanvasSize(width: int, height: int) returns (r: Result<()>)
      modifies this
      ensures var s := SetCanvasSizeStep(old(View()), width, height);
        View() == s.view && r == s.result && changes == old(changes) + s.emitted
      ensures r.Ok? ==> PanInBounds(View())
    {
      if width < 0 {
        return Throw(InvalidWidth);
      }
      if height < 0 {
        return Throw(InvalidHeight);
      }
      canvasWidth := width;
      canvasHeight := height;
      var clamped := ApplyPanPositionConstraints();
      r := clamped.Discard();
    }

    method Pan(deltaX: real, deltaY: real) returns (r: Result<bool>)
      modifies this
      ensures var s := PanStep(old(View()), deltaX, deltaY);
        View() == s.view && r == s.result && changes == old(changes) + s.emitted
      ensures r.Ok? ==> PanInBounds(View())
    {
      panX := panX + deltaX;
      panY := panY + deltaY;
      r := ApplyPanPositionConstraints();
    }

    method SetPanPosition(x: real, y: real) returns (r: Result<bool>)
      modifies this
      ensures var s := SetPanPositionStep(old(View()), x, y);
        View() == s.view && r == s.result && changes == old(changes) + s.emitted
      ensures r.Ok? && old(PanInBounds(View())) ==> PanInBounds(View())
    {
      if x != panX || y != panY {
        panX := x;
        panY := y;
        r := ApplyPanPositionConstraints();
        return;
      }
      return Ok(false);
    }

    method Zoom(zoomIn: bool) returns (r: Result<bool>)
      modifies this
      ensures var s := ZoomStep(old(View()), zoomIn);
        View() == s.view && r == s.result && changes == old(changes) + s.emitted
      ensures MIN_SCALE <= old(scale) <= MAX_SCALE ==> MIN_SCALE <= scale <= MAX_SCALE
    {
      if zoomIn {
        r := ZoomIn();
      } else {
        r := ZoomOut();
      }
    }

    method ZoomIn() returns (r: Result<bool>)
      modifies this
      ensures var s := ZoomInStep(old(View()));
        View() == s.view && r == s.result && changes == old(changes) + s.emitted
      ensures MIN_SCALE <= old(scale) <= MAX_SCALE ==> MIN_SCALE <= scale <= MAX_SCALE
    {
      r := SetScale(Min(MAX_SCALE, scale + ZOOM_STEP));
    }

    method ZoomOut() returns (r: Result<bool>)
      modifies this
      ensures var s := ZoomOutStep(old(View()));
        View() == s.view && r == s.result && changes == old(changes) + s.emitted
      ensures MIN_SCALE <= old(scale) <= MAX_SCALE ==> MIN_SCALE <= scale <= MAX_SCALE
    {
      r := SetScale(Max(MIN_SCALE, scale - ZOOM_STEP));
    }

    /** The Scale setter: any value, unchecked. */
    method SetScale(newScale: real) returns (r: Result<bool>)
      modifies this
      ensures var s := SetScaleStep(old(View()), newScale);
        View() == s.view && r == s.result && changes == old(changes) + s.emitted
      ensures r == Ok(true) ==> scale == newScale && PanInBounds(View())
    {
      if newScale != scale {
        scale := newScale;
        var clamped := ApplyPanPositionConstraints();
        if clamped.Throw? {
          return Throw(clamped.error);
        }
        OnChanged();
        return Ok(true);
      }
      return Ok(false);
    }

    method ApplyPanPositionConstraints() returns (r: Result<bool>)
      modifies this
      ensures var s := ApplyConstraints(old(View()));
        View() == s.view && r == s.result && changes == old(changes) + s.emitted
      ensures r.Ok? ==> PanInBounds(View())
    {
      var maxPanX := containerWidth as real - canvasWidth as real * scale;
      var maxPanY := containerHeight as real - canvasHeight as real * scale;
      var newPanX := Clamp(panX, maxPanX, 0.0);
      if newPanX.Throw? {
        return Throw(newPanX.error);
      }
      var newPanY := Clamp(panY, maxPanY, 0.0);
      if newPanY.Throw? {
        return Throw(newPanY.error);
      }
      if newPanX.value != panX || newPanY.value != panY {
        panX := newPanX.value;
        panY := newPanY.value;
        OnChanged();
        return Ok(true);
      }
      return Ok(false);
    }

    /** Raise Changed with the current scale and pan. */
    method OnChanged()
      modifies this`changes
      ensures changes == old(changes) + [SnapshotOf(View())]
    {
      changes := changes + [ZoomPanChangedEventArgs(scale, panX, panY)];
    }
  }
}
