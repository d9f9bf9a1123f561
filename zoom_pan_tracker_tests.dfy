/** The scenarios of D12Canvas.Tests/ZoomPanTrackerTests.cs, as client code of
    the ZoomPanTracker class: each returns what the test observes, and its
    postcondition implies what the test asserts (sometimes more: the exact
    exception, an unchanged state, an exact scale where the test allows 0.01).
    They follow from the contracts of the tracker's methods alone. */
module ZoomPanTrackerTests {
  import opened ZoomPanTracking

  function Abs(x: real): real { if x < 0.0 then -x else x }

  /** The fixture every test starts from: a new tracker sized to a 100×100
      container. */
  method NewFixture() returns (t: ZoomPanTracker)
    ensures fresh(t)
    ensures t.View() == Initial.(containerWidth := 100, containerHeight := 100)
  {
    t := new ZoomPanTracker();
    var _ := t.SetContainerSize(100, 100);
  }

  method InitialScaleIsOne() returns (scale: real)
    ensures scale == 1.0
  {
    var t := NewFixture();
    scale := t.scale;
  }

  method InitialPanPositionIsZero() returns (panX: real, panY: real)
    ensures panX == 0.0 && panY == 0.0
  {
    var t := NewFixture();
    panX, panY := t.panX, t.panY;
  }

  method CanZoomIn() returns (result: Result<bool>, scale: real)
    ensures result == Ok(true) && scale == 1.1
  {
    var t := NewFixture();
    result := t.Zoom(true);
    scale := t.scale;
  }

  method CanZoomOut() returns (result: Result<bool>, scale: real)
    ensures result == Ok(true) && scale == 0.9
  {
    var t := NewFixture();
    result := t.Zoom(false);
    scale := t.scale;
  }

  /** Zoom in until within 0.2 of the maximum, then once more: that last call
      reports a change and lands exactly on 6.0, well inside 50 calls. */
  method ZoomInRespectsMaxScale() returns (result: Result<bool>, scale: real)
    ensures result == Ok(true) && scale == MAX_SCALE
  {
    var t := NewFixture();
    for i := 0 to 50
      invariant i <= 49
      invariant t.View() == Initial.(scale := 1.0 + i as real * ZOOM_STEP,
                                     containerWidth := 100, containerHeight := 100)
    {
      if Abs(t.scale - MAX_SCALE) < 0.2 {
        result := t.Zoom(true);
        scale := t.scale;
        return;
      }
      var _ := t.Zoom(true);
    }
    assert false;
  }

  /** Zoom out until within 0.2 of the minimum, then once more: that last call
      reports a change and lands exactly on 0.6. */
  method ZoomOutRespectsMinScale() returns (result: Result<bool>, scale: real)
    ensures result == Ok(true) && scale == MIN_SCALE
  {
    var t := NewFixture();
    for i := 0 to 50
      invariant i <= 3
      invariant t.View() == Initial.(scale := 1.0 - i as real * ZOOM_STEP,
                                     containerWidth := 100, containerHeight := 100)
    {
      if Abs(t.scale - MIN_SCALE) < 0.2 {
        result := t.Zoom(false);
        scale := t.scale;
        return;
      }
      var _ := t.Zoom(false);
    }
    assert false;
  }

  /** Container 100, canvas 1000, scale 1: each pan is clamped into [-900, 0]. */
  method PanRespectsContainerBoundaries() returns (observed: seq<real>)
    ensures observed == [0.0, -900.0, 0.0, -900.0]
  {
    var t := NewFixture();
    var _ := t.SetContainerSize(100, 100);
    var _ := t.SetCanvasSize(1000, 1000);
    var _ := t.Pan(100.0, 0.0);
    observed := [t.panX];
    var _ := t.Pan(-1000.0, 0.0);
    observed := observed + [t.panX];
    var _ := t.Pan(0.0, 100.0);
    observed := observed + [t.panY];
    var _ := t.Pan(0.0, -1000.0);
    observed := observed + [t.panY];
  }

  /** The same after one zoom-in to 1.1: the bound becomes 100 - 1000 * 1.1. */
  method PanRespectsScale() returns (observed: seq<real>)
    ensures observed == [0.0, -1000.0, 0.0, -1000.0]
  {
    var t := NewFixture();
    var _ := t.SetContainerSize(100, 100);
    var _ := t.SetCanvasSize(1000, 1000);
    var _ := t.Zoom(true);
    var _ := t.Pan(100.0, 0.0);
    observed := [t.panX];
    var _ := t.Pan(-1000.0, 0.0);
    observed := observed + [t.panX];
    var _ := t.Pan(0.0, 100.0);
    observed := observed + [t.panY];
    var _ := t.Pan(0.0, -1000.0);
    observed := observed + [t.panY];
  }

  /** A negative width, and a negative height, are each rejected, and the
      tracker is left as it was. */
  method SetContainerSizePreventsNegativeValues() returns (first: Result<()>, second: Result<()>, unchangedAfter: bool)
    ensures first == Throw(InvalidWidth) && second == Throw(InvalidHeight) && unchangedAfter
  {
    var t := NewFixture();
    var before := t.View();
    first := t.SetContainerSize(-100, 100);
    second := t.SetContainerSize(100, -100);
    unchangedAfter := t.View() == before;
  }

  method SetCanvasSizePreventsNegativeValues() returns (first: Result<()>, second: Result<()>, unchangedAfter: bool)
    ensures first == Throw(InvalidWidth) && second == Throw(InvalidHeight) && unchangedAfter
  {
    var t := NewFixture();
    var before := t.View();
    first := t.SetCanvasSize(-100, 100);
    second := t.SetCanvasSize(100, -100);
    unchangedAfter := t.View() == before;
  }
}
