/** Properties of the tracker that span several calls: the pan invariant along
    any sequence of calls, the scale range, repeated zooming, and the edge cases
    where the tracker's behaviour is easy to misread. */
module ZoomPanProperties {
  import opened ZoomPanEvents
  import opened ZoomPanTracking

  /** One public call on the tracker; SetScale is the Scale setter. */
  datatype Operation =
    | SetContainerSize(width: int, height: int)
    | SetCanvasSize(width: int, height: int)
    | Pan(deltaX: real, deltaY: real)
    | SetPanPosition(x: real, y: real)
    | Zoom(zoomIn: bool)
    | ZoomIn
    | ZoomOut
    | SetScale(newScale: real)

  /** What a call, or a sequence of calls, did: the state left, whether an
      ArgumentException escaped, and the notifications raised. */
  datatype Effect = Effect(view: Viewport, threw: bool, emitted: seq<ZoomPanChangedEventArgs>)

  function EffectOf<T>(s: Step<T>): Effect {
    Effect(s.view, s.result.Throw?, s.emitted)
  }

  /** One call. Every notification it raises reports the state it leaves, and it
      raises one only when that state has its pan in bounds. */
  function Perform(v: Viewport, op: Operation): (e: Effect)
    ensures e.threw ==> e.emitted == []
    ensures e.emitted != [] ==> PanInBounds(e.view)
    ensures forall x | x in e.emitted :: x == SnapshotOf(e.view)
  {
    match op
    case SetContainerSize(w, h) => EffectOf(SetContainerSizeStep(v, w, h))
    case SetCanvasSize(w, h) => EffectOf(SetCanvasSizeStep(v, w, h))
    case Pan(dx, dy) => EffectOf(PanStep(v, dx, dy))
    case SetPanPosition(x, y) => EffectOf(SetPanPositionStep(v, x, y))
    case Zoom(zoomIn) => EffectOf(ZoomStep(v, zoomIn))
    case ZoomIn => EffectOf(ZoomInStep(v))
    case ZoomOut => EffectOf(ZoomOutStep(v))
    case SetScale(s) => EffectOf(SetScaleStep(v, s))
  }

  /** A caller's calls one after the other; a caller that catches an exception
      goes on from the state the exception left. */
  function Run(v: Viewport, ops: seq<Operation>): Effect
    decreases |ops|
  {
    if ops == [] then Effect(v, false, [])
    else
      var first := Perform(v, ops[0]);
      var rest := Run(first.view, ops[1..]);
      Effect(rest.view, first.threw || rest.threw, first.emitted + rest.emitted)
  }

  /** `n` copies of one call. */
  function Repeat(op: Operation, n: nat): (ops: seq<Operation>)
    ensures |ops| == n && forall i | 0 <= i < n :: ops[i] == op
  {
    if n == 0 then [] else [op] + Repeat(op, n - 1)
  }

  /** The invariant of a new tracker. */
  lemma InitialStateIsInBounds()
    ensures PanInBounds(Initial) && MIN_SCALE <= Initial.scale <= MAX_SCALE
    ensures Initial.scale == 1.0 && Initial.panX == 0.0 && Initial.panY == 0.0
    ensures Initial.containerWidth == 0 && Initial.containerHeight == 0
    ensures Initial.canvasWidth == 3000 && Initial.canvasHeight == 3000
  {
  }

  /** A call that does not throw keeps each pan coordinate in [maxPan, 0]. */
  lemma OperationKeepsPanInBounds(v: Viewport, op: Operation)
    requires PanInBounds(v)
    ensures !Perform(v, op).threw ==> PanInBounds(Perform(v, op).view)
  {
  }

  /** Resizing and panning re-establish the invariant from any state, as long as
      they do not throw. */
  lemma ClampingOperationsRestorePanBounds(v: Viewport, op: Operation)
    requires op.SetContainerSize? || op.SetCanvasSize? || op.Pan?
    ensures !Perform(v, op).threw ==> PanInBounds(Perform(v, op).view)
  {
  }

  /** Along any sequence of calls none of which throws, the invariant holds in
      every state reached. */
  lemma {:induction false} RunKeepsPanInBounds(v: Viewport, ops: seq<Operation>)
    requires PanInBounds(v)
    ensures !Run(v, ops).threw ==> PanInBounds(Run(v, ops).view)
    decreases |ops|
  {
    if ops != [] {
      var first := Perform(v, ops[0]);
      OperationKeepsPanInBounds(v, ops[0]);
      if !first.threw {
        RunKeepsPanInBounds(first.view, ops[1..]);
      }
    }
  }

  /** Every notification ever raised, whatever the calls and even after an
      exception, reports a pan that is not positive on either axis. */
  lemma {:induction false} NotificationsNeverReportPositivePan(v: Viewport, ops: seq<Operation>)
    ensures forall x | x in Run(v, ops).emitted :: x.panX <= 0.0 && x.panY <= 0.0
    decreases |ops|
  {
    if ops != [] {
      var first := Perform(v, ops[0]);
      NotificationsNeverReportPositivePan(first.view, ops[1..]);
    }
  }

  /** One call keeps the scale in [0.6, 6.0], thrown or not, unless it is the
      Scale setter given a value outside that range. */
  lemma OperationKeepsScaleInRange(v: Viewport, op: Operation)
    requires MIN_SCALE <= v.scale <= MAX_SCALE
    requires op.SetScale? ==> MIN_SCALE <= op.newScale <= MAX_SCALE
    ensures MIN_SCALE <= Perform(v, op).view.scale <= MAX_SCALE
  {
  }

  /** The zoom steps never take the scale out of [0.6, 6.0]: only the unchecked
      Scale setter can. This holds even across exceptions, since a throwing zoom
      has already stored its in-range scale. */
  lemma {:induction false} RunKeepsScaleInRange(v: Viewport, ops: seq<Operation>)
    requires MIN_SCALE <= v.scale <= MAX_SCALE
    requires forall i | 0 <= i < |ops| :: ops[i].SetScale? ==> MIN_SCALE <= ops[i].newScale <= MAX_SCALE
    ensures MIN_SCALE <= Run(v, ops).view.scale <= MAX_SCALE
    decreases |ops|
  {
    if ops != [] {
      OperationKeepsScaleInRange(v, ops[0]);
      RunKeepsScaleInRange(Perform(v, ops[0]).view, ops[1..]);
    }
  }

  /** Every state a new tracker reaches without an exception has its pan in
      bounds, whatever the calls; its scale is in range as long as the Scale
      setter is only given values in range. */
  lemma ReachableStatesAreInBounds(ops: seq<Operation>)
    ensures !Run(Initial, ops).threw ==> PanInBounds(Run(Initial, ops).view)
    ensures (forall i | 0 <= i < |ops| :: ops[i].SetScale? ==> MIN_SCALE <= ops[i].newScale <= MAX_SCALE) ==>
      MIN_SCALE <= Run(Initial, ops).view.scale <= MAX_SCALE
  {
    RunKeepsPanInBounds(Initial, ops);
    if forall i | 0 <= i < |ops| :: ops[i].SetScale? ==> MIN_SCALE <= ops[i].newScale <= MAX_SCALE {
      RunKeepsScaleInRange(Initial, ops);
    }
  }

  /** The scale after `n` zoom-ins. */
  function ZoomInTimes(scale: real, n: nat): real
    decreases n
  {
    if n == 0 then scale else ZoomInTimes(ZoomInTarget(scale), n - 1)
  }

  /** The scale after `n` zoom-outs. */
  function ZoomOutTimes(scale: real, n: nat): real
    decreases n
  {
    if n == 0 then scale else ZoomOutTimes(ZoomOutTarget(scale), n - 1)
  }

  /** From a scale at most 6.0, n zoom-ins add n steps of 0.1, capped at 6.0. */
  lemma {:induction false} ZoomInTimesValue(scale: real, n: nat)
    requires scale <= MAX_SCALE
    ensures ZoomInTimes(scale, n) == Min(MAX_SCALE, scale + n as real * ZOOM_STEP)
    decreases n
  {
    if n > 0 {
      ZoomInTimesValue(ZoomInTarget(scale), n - 1);
    }
  }

  /** From a scale at least 0.6, n zoom-outs take off n steps of 0.1, floored
      at 0.6. */
  lemma {:induction false} ZoomOutTimesValue(scale: real, n: nat)
    requires MIN_SCALE <= scale
    ensures ZoomOutTimes(scale, n) == Max(MIN_SCALE, scale - n as real * ZOOM_STEP)
    decreases n
  {
    if n > 0 {
      ZoomOutTimesValue(ZoomOutTarget(scale), n - 1);
    }
  }

  /** One ZoomIn or ZoomOut call leaves its target scale, whether or not it threw. */
  lemma ZoomCallsLeaveTheirTarget(v: Viewport)
    ensures Perform(v, ZoomIn).view.scale == ZoomInTarget(v.scale)
    ensures Perform(v, ZoomOut).view.scale == ZoomOutTarget(v.scale)
  {
  }

  /** Calling ZoomIn n times leaves the scale ZoomInTimes gives, whether or not
      a call threw. */
  lemma {:induction false} RepeatedZoomInScale(v: Viewport, n: nat)
    ensures Run(v, Repeat(ZoomIn, n)).view.scale == ZoomInTimes(v.scale, n)
    decreases n
  {
    if n > 0 {
      var ops := Repeat(ZoomIn, n);
      assert ops[1..] == Repeat(ZoomIn, n - 1);
      ZoomCallsLeaveTheirTarget(v);
      RepeatedZoomInScale(Perform(v, ZoomIn).view, n - 1);
    }
  }

  /** Calling ZoomOut n times leaves the scale ZoomOutTimes gives. */
  lemma {:induction false} RepeatedZoomOutScale(v: Viewport, n: nat)
    ensures Run(v, Repeat(ZoomOut, n)).view.scale == ZoomOutTimes(v.scale, n)
    decreases n
  {
    if n > 0 {
      var ops := Repeat(ZoomOut, n);
      assert ops[1..] == Repeat(ZoomOut, n - 1);
      ZoomCallsLeaveTheirTarget(v);
      RepeatedZoomOutScale(Perform(v, ZoomOut).view, n - 1);
    }
  }

  /** From scale 1.0, repeated zoom-ins reach 6.0 after 50 calls and never pass
      it; repeated zoom-outs reach 0.6 after 4 calls and never pass it. */
  lemma RepeatedZoomFromOneReachesTheBounds(v: Viewport, n: nat)
    requires v.scale == 1.0
    ensures Run(v, Repeat(ZoomIn, n)).view.scale == Min(MAX_SCALE, 1.0 + n as real * ZOOM_STEP)
    ensures Run(v, Repeat(ZoomOut, n)).view.scale == Max(MIN_SCALE, 1.0 - n as real * ZOOM_STEP)
    ensures n >= 50 ==> Run(v, Repeat(ZoomIn, n)).view.scale == MAX_SCALE
    ensures n >= 4 ==> Run(v, Repeat(ZoomOut, n)).view.scale == MIN_SCALE
  {
    RepeatedZoomInScale(v, n);
    ZoomInTimesValue(v.scale, n);
    RepeatedZoomOutScale(v, n);
    ZoomOutTimesValue(v.scale, n);
  }

  /** Away from the bounds, one step in and one step out cancel. */
  lemma ZoomStepsCancel(scale: real)
    requires MIN_SCALE <= scale <= MAX_SCALE
    ensures scale + ZOOM_STEP <= MAX_SCALE ==> ZoomOutTarget(ZoomInTarget(scale)) == scale
    ensures MIN_SCALE <= scale - ZOOM_STEP ==> ZoomInTarget(ZoomOutTarget(scale)) == scale
  {
  }

  /** A pan that stays in bounds moves the position, yet returns false and raises
      nothing: from a new tracker, Pan(-10, -10). */
  lemma PanWithinBoundsIsSilent()
    ensures PanStep(Initial, -10.0, -10.0) ==
      Step(Initial.(panX := -10.0, panY := -10.0), Ok(false), [])
  {
  }

  /** A pan pushed against the edge returns true and raises a notification
      although the position ends where it started. */
  lemma PanAgainstEdgeReportsCorrection()
    ensures PanStep(Initial, 100.0, 0.0) == Step(Initial, Ok(true), [SnapshotOf(Initial)])
  {
  }

  /** Growing the container raises nothing while the pan still fits. */
  lemma ContainerResizeWithinBoundsIsSilent()
    ensures var v := Initial.(containerWidth := 800, containerHeight := 600);
      SetContainerSizeStep(v, 1200, 800) ==
        Step(Initial.(containerWidth := 1200, containerHeight := 800), Ok(()), [])
  {
  }

  /** When the scaled canvas is narrower than the container the clamp's bounds
      are out of order and Math.Clamp throws: zooming out to 0.6 in a container
      2000 wide (the canvas is then 1800 wide) throws, the new scale stays, and
      from then on every pan throws as well. */
  lemma ZoomOutBelowContainerWidthThrows()
    ensures var v := Initial.(scale := 0.7, containerWidth := 2000, containerHeight := 1000);
      && ZoomOutStep(v) == Step(v.(scale := 0.6), Throw(MinGreaterThanMax(200.0, 0.0)), [])
      && PanStep(v.(scale := 0.6), -10.0, 0.0).result == Throw(MinGreaterThanMax(200.0, 0.0))
  {
  }
}
