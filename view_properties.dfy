/**
  Properties of the touch machine and the geometry, stated over the
  functions of module ViewModel (and so, through the method contracts of
  module Widget, over the object itself).
 */
module ViewProperties {
  import opened Wrappers
  import opened Geometry
  import opened DragState
  import opened ViewModel

  // ---------------------------------------------------------------------
  // Touch-down
  // ---------------------------------------------------------------------

  /** Inside the open left hit interval (L - w*f, L + w + w*f). */
  predicate InLeftHit(s: ViewState, x: real) {
    var l := s.rangeValueRect.left;
    var w := s.cfg.toggleWidth;
    var f := s.cfg.touchSizeFactor;
    l - w * f < x < l + w + w * f
  }

  /** Inside the open right hit interval (R - w - w*f, R + w*f). */
  predicate InRightHit(s: ViewState, x: real) {
    var r := s.rangeValueRect.right;
    var w := s.cfg.toggleWidth;
    var f := s.cfg.touchSizeFactor;
    r - w - w * f < x < r + w * f
  }

  /** A touch-down classifies x by the two hit intervals, records x, changes nothing else and reports the new state. */
  lemma TouchDownClassification(s: ViewState, x: real)
    ensures var t := OnTouchEvent(s, Down, x);
            && (t.dragging.state == DraggingConflict <==> InLeftHit(s, x) && InRightHit(s, x))
            && (t.dragging.state == DraggingLeft <==> InLeftHit(s, x) && !InRightHit(s, x))
            && (t.dragging.state == DraggingRight <==> !InLeftHit(s, x) && InRightHit(s, x))
            && (t.dragging.state == Idle <==> !InLeftHit(s, x) && !InRightHit(s, x))
            && (t.dragging.state != Idle ==> t.dragging.motionX == x)
            && t == s.(dragging := t.dragging, log := s.log + [DraggingStateChanged(t.dragging.state)])
  {
  }

  // ---------------------------------------------------------------------
  // Moves
  // ---------------------------------------------------------------------

  /** In conflict, a move closer than the slop is swallowed: no state change and no notification. */
  lemma ConflictWithinSlop(s: ViewState, x: real)
    requires s.dragging.state == DraggingConflict
    requires Abs(s.dragging.motionX - x) < SlopDiff
    ensures TouchDefined(s, Move) ==> OnTouchEvent(s, Move, x) == s
  {
  }

  /** In conflict, a move at least the slop away picks a handle by direction, moves it without any exceed check and records x. */
  lemma ConflictResolution(s: ViewState, x: real)
    requires s.dragging.state == DraggingConflict
    requires Abs(s.dragging.motionX - x) >= SlopDiff
    requires s.totalValueRect.Width() != 0.0
    ensures var t := OnTouchEvent(s, Move, x);
            && SameFrame(s, t)
            && (x > s.dragging.motionX ==>
                  && t.dragging == RightData(x)
                  && t.rangeValueRect == s.rangeValueRect.(right := x)
                  && t.log == s.log + [RightTogglePositionChanged(x, RightValue(s.totalValueRect, t.rangeValueRect, s.maxValue)),
                                       RangeChanged(s.maxValue, s.minValue, t.currentLeftValue.value, t.currentRightValue.value),
                                       DraggingStateChanged(DraggingRight)])
            && (x <= s.dragging.motionX ==>
                  && t.dragging == LeftData(x)
                  && t.rangeValueRect == s.rangeValueRect.(left := x)
                  && t.log == s.log + [LeftTogglePositionChanged(x, LeftValue(s.totalValueRect, t.rangeValueRect, s.maxValue)),
                                       RangeChanged(s.maxValue, s.minValue, t.currentLeftValue.value, t.currentRightValue.value),
                                       DraggingStateChanged(DraggingLeft)])
  {
  }

  /** Dragging the left handle: a move off the track or past the right edge is swallowed; any other move sets the left edge to x. */
  lemma LeftMove(s: ViewState, x: real)
    requires s.dragging.state == DraggingLeft
    requires s.totalValueRect.Width() != 0.0
    ensures var t := OnTouchEvent(s, Move, x);
            && ((x < s.totalValueRect.left || x > s.rangeValueRect.right) ==> t == s)
            && (s.totalValueRect.left <= x <= s.rangeValueRect.right ==>
                  && SameFrame(s, t) && t.dragging == s.dragging
                  && t.rangeValueRect == s.rangeValueRect.(left := x)
                  && t.log == s.log + [LeftTogglePositionChanged(x, LeftValue(s.totalValueRect, t.rangeValueRect, s.maxValue)),
                                       RangeChanged(s.maxValue, s.minValue, t.currentLeftValue.value, t.currentRightValue.value),
                                       DraggingStateChanged(DraggingLeft)])
  {
  }

  /** Dragging the right handle: a move before the left edge or off the track is swallowed; any other move sets the right edge to x. */
  lemma RightMove(s: ViewState, x: real)
    requires s.dragging.state == DraggingRight
    requires s.totalValueRect.Width() != 0.0
    ensures var t := OnTouchEvent(s, Move, x);
            && ((x < s.rangeValueRect.left || x > s.totalValueRect.right) ==> t == s)
            && (s.rangeValueRect.left <= x <= s.totalValueRect.right ==>
                  && SameFrame(s, t) && t.dragging == s.dragging
                  && t.rangeValueRect == s.rangeValueRect.(right := x)
                  && t.log == s.log + [RightTogglePositionChanged(x, RightValue(s.totalValueRect, t.rangeValueRect, s.maxValue)),
                                       RangeChanged(s.maxValue, s.minValue, t.currentLeftValue.value, t.currentRightValue.value),
                                       DraggingStateChanged(DraggingRight)])
  {
  }

  /** Without an active handle a move only reports the unchanged state. */
  lemma IdleMove(s: ViewState, x: real)
    requires !IsDragging(s.dragging.state)
    ensures OnTouchEvent(s, Move, x) == s.(log := s.log + [DraggingStateChanged(s.dragging.state)])
  {
  }

  // ---------------------------------------------------------------------
  // Touch-up and other actions
  // ---------------------------------------------------------------------

  /** Touch-up, whatever the state, reports the drag end and then Idle, and leaves the machine Idle. */
  lemma TouchUp(s: ViewState, x: real)
    ensures OnTouchEvent(s, Up, x)
            == s.(dragging := IdleData(), log := s.log + [DraggingStateChanged(DraggingEnd), DraggingStateChanged(Idle)])
  {
  }

  /** Any other action only reports the current state. */
  lemma OtherAction(s: ViewState, x: real)
    ensures OnTouchEvent(s, Other, x) == s.(log := s.log + [DraggingStateChanged(s.dragging.state)])
  {
  }

  // ---------------------------------------------------------------------
  // Edge updates and normalisation
  // ---------------------------------------------------------------------

  /** After an edge update the current values are the raw left and right values in order, and they are what was reported. */
  lemma EdgeUpdateNormalises(s: ViewState, x: real, moveLeft: bool)
    requires s.totalValueRect.Width() != 0.0
    ensures var t := if moveLeft then DragLeftToggle(s, x) else DragRightToggle(s, x);
            var first := LeftValue(t.totalValueRect, t.rangeValueRect, t.maxValue);
            var second := RightValue(t.totalValueRect, t.rangeValueRect, t.maxValue);
            && t.currentLeftValue == Some(Min(first, second))
            && t.currentRightValue == Some(Max(first, second))
            && t.currentLeftValue.value <= t.currentRightValue.value
            && t.log[|t.log| - 1] == RangeChanged(s.maxValue, s.minValue, Min(first, second), Max(first, second))
  {
  }

  // ---------------------------------------------------------------------
  // An invariant of every touch sequence
  // ---------------------------------------------------------------------

  /** Every range reported so far had its left value at most its right value. */
  predicate RangeReportsOrdered(log: seq<Notification>) {
    forall i :: 0 <= i < |log| && log[i].RangeChanged? ==> log[i].currentLeftValue <= log[i].currentRightValue
  }

  /** What layout establishes and every touch event keeps. */
  predicate Inv(s: ViewState) {
    && s.rangeStrokeRect == StrokeRect(s.rangeValueRect, s.cfg.strokeWidth)
    && s.rangeValueRect.top == s.totalValueRect.top
    && s.rangeValueRect.bottom == s.totalValueRect.bottom
    && s.dragging.state != DraggingEnd
    && RangeReportsOrdered(s.log)
  }

  /** A layout pass establishes the invariant from any state that never stored the drag-end tag and reported ordered ranges. */
  lemma MeasureEstablishesInv(s: ViewState, width: int, height: int)
    requires MeasureDefined(s)
    requires s.dragging.state != DraggingEnd
    requires RangeReportsOrdered(s.log)
    ensures Inv(OnMeasure(s, width, height))
  {
  }

  /** One touch event keeps the invariant. */
  lemma TouchPreservesInv(s: ViewState, action: Action, x: real)
    requires Inv(s)
    requires TouchDefined(s, action)
    ensures Inv(OnTouchEvent(s, action, x))
  {
  }

  /** The event sequence a gesture feeds to the widget, one (action, x) pair per MotionEvent. */
  function Run(s: ViewState, events: seq<(Action, real)>): (t: ViewState)
    requires s.totalValueRect.Width() != 0.0
    ensures SameFrame(s, t) && s.log <= t.log
    decreases |events|
  {
    if events == [] then s
    else Run(OnTouchEvent(s, events[0].0, events[0].1), events[1..])
  }

  /** Any sequence of touch events keeps the invariant: in particular every reported range is ordered. */
  lemma {:induction false} RunPreservesInv(s: ViewState, events: seq<(Action, real)>)
    requires Inv(s)
    requires s.totalValueRect.Width() != 0.0
    ensures Inv(Run(s, events))
    ensures RangeReportsOrdered(Run(s, events).log)
    decreases |events|
  {
    if events != [] {
      TouchPreservesInv(s, events[0].0, events[0].1);
      RunPreservesInv(OnTouchEvent(s, events[0].0, events[0].1), events[1..]);
    }
  }

  // ---------------------------------------------------------------------
  // Staying on the track
  // ---------------------------------------------------------------------

  /** Both edges on the track and in order. */
  predicate WithinTrack(s: ViewState) {
    s.totalValueRect.left <= s.rangeValueRect.left <= s.rangeValueRect.right <= s.totalValueRect.right
  }

  /** The exceed guards keep a plain one-handle drag on the track and uncrossed. */
  lemma PlainDragStaysWithinTrack(s: ViewState, x: real)
    requires s.dragging.state == DraggingLeft || s.dragging.state == DraggingRight
    requires s.totalValueRect.Width() != 0.0
    requires WithinTrack(s)
    ensures WithinTrack(OnTouchEvent(s, Move, x))
  {
  }

  /** A two-handle state with a 300px track at margin 0 and both edges at 100..110. */
  function ConflictExample(): ViewState {
    var track := Rect(0.0, 0.0, 300.0, 50.0);
    var range := Rect(100.0, 0.0, 110.0, 50.0);
    ViewState(0.0, 100.0, None, None, Config(2.0, 10.0, 0.0, 2.0), ConflictData(105.0),
              track, range, StrokeRect(range, 2.0), [])
  }

  /** Conflict resolution has no exceed check: a fast move lands the right edge, and the reported value, past the track's end. */
  lemma ConflictResolutionCanLeaveTrack()
    ensures WithinTrack(ConflictExample())
    ensures var t := OnTouchEvent(ConflictExample(), Move, 400.0);
            && !WithinTrack(t)
            && t.rangeValueRect.right == 400.0
            && t.currentRightValue.Some? && t.currentRightValue.value > t.maxValue
  {
  }

  /** Wide handles (20px, factor 2) with both edges at 100, in conflict at motionX 139. */
  function CrossingExample(): ViewState {
    var track := Rect(0.0, 0.0, 300.0, 50.0);
    var range := Rect(100.0, 0.0, 100.0, 50.0);
    ViewState(0.0, 100.0, None, None, Config(2.0, 20.0, 0.0, 2.0), ConflictData(139.0),
              track, range, StrokeRect(range, 2.0), [])
  }

  /** Conflict resolution can also cross the handles; the min/max sort still reports an ordered pair. */
  lemma ConflictResolutionCanCross()
    ensures InLeftHit(CrossingExample(), 139.0) && InRightHit(CrossingExample(), 139.0)
    ensures var t := OnTouchEvent(CrossingExample(), Move, 119.0);
            && t.dragging == LeftData(119.0)
            && t.rangeValueRect.left > t.rangeValueRect.right
            && t.currentLeftValue.Some? && t.currentRightValue.Some?
            && t.currentLeftValue.value <= t.currentRightValue.value
  {
  }

  // ---------------------------------------------------------------------
  // Value <-> pixel geometry
  // ---------------------------------------------------------------------

  /** Out of bounds, the pixel is 0; in bounds it is the pixel whose left value is the given value. */
  lemma LeftValueOfXPosition(track: Rect, range: Rect, margin: real, minValue: real, maxValue: real, value: real)
    requires track.left == margin && track.Width() != 0.0 && maxValue != 0.0
    ensures value < minValue || value > maxValue ==> XPositionOfValue(track, margin, minValue, maxValue, value) == 0.0
    ensures minValue <= value <= maxValue ==>
              LeftValue(track, range.(left := XPositionOfValue(track, margin, minValue, maxValue, value)), maxValue) == value
              && RightValue(track, range.(right := XPositionOfValue(track, margin, minValue, maxValue, value)), maxValue) == value
  {
  }

  /** The other direction: an edge whose value is in bounds is where that value's pixel lies. */
  lemma XPositionOfLeftValue(track: Rect, range: Rect, margin: real, minValue: real, maxValue: real)
    requires track.left == margin && track.Width() != 0.0 && maxValue != 0.0
    ensures var v := LeftValue(track, range, maxValue);
            minValue <= v <= maxValue ==> XPositionOfValue(track, margin, minValue, maxValue, v) == range.left
    ensures var v := RightValue(track, range, maxValue);
            minValue <= v <= maxValue ==> XPositionOfValue(track, margin, minValue, maxValue, v) == range.right
  {
    XPositionOfOffsetValue(track, margin, minValue, maxValue, range.left - track.left, LeftValue(track, range, maxValue));
    XPositionOfOffsetValue(track, margin, minValue, maxValue, range.right - track.left, RightValue(track, range, maxValue));
  }

  /** The value v at pixel offset d past the track's left end, when in bounds, maps back to that pixel. */
  lemma XPositionOfOffsetValue(track: Rect, margin: real, minValue: real, maxValue: real, d: real, v: real)
    requires track.left == margin && track.Width() != 0.0 && maxValue != 0.0
    requires v == maxValue * d / track.Width()
    ensures minValue <= v <= maxValue ==> XPositionOfValue(track, margin, minValue, maxValue, v) == track.left + d
  {
    if minValue <= v <= maxValue {
      XPositionInBounds(track, margin, minValue, maxValue, v);
      ScaleCancels(track.Width(), maxValue, d, v);
    }
  }

  /** An in-bounds value's pixel is its scaled offset from the margin. */
  lemma XPositionInBounds(track: Rect, margin: real, minValue: real, maxValue: real, value: real)
    requires minValue <= value <= maxValue && maxValue != 0.0
    ensures XPositionOfValue(track, margin, minValue, maxValue, value) == track.Width() * value / maxValue + margin
  {
  }

  /** Scaling a pixel offset d into a value v by m/w and back by w/m gives d again. */
  lemma ScaleCancels(w: real, m: real, d: real, v: real)
    requires w != 0.0 && m != 0.0
    requires v == m * d / w
    ensures w * v / m == d
  {
    assert v * w == m * d;
    assert w * v == m * d;
    assert (m * d) / m == d;
  }

  /** With a non-negative lower bound, an in-bounds value maps onto the track. */
  lemma XPositionWithinTrack(track: Rect, margin: real, minValue: real, maxValue: real, value: real)
    requires track.left == margin && track.Width() >= 0.0
    requires 0.0 <= minValue <= value <= maxValue && maxValue != 0.0
    ensures track.left <= XPositionOfValue(track, margin, minValue, maxValue, value) <= track.right
  {
  }

  /** In bounds, the pixel grows with the value on a track of non-negative width. */
  lemma XPositionMonotonic(track: Rect, margin: real, minValue: real, maxValue: real, v1: real, v2: real)
    requires track.Width() >= 0.0 && maxValue > 0.0
    requires minValue <= v1 <= v2 <= maxValue
    ensures XPositionOfValue(track, margin, minValue, maxValue, v1) <= XPositionOfValue(track, margin, minValue, maxValue, v2)
  {
    var w := track.Width();
    XPositionInBounds(track, margin, minValue, maxValue, v1);
    XPositionInBounds(track, margin, minValue, maxValue, v2);
    ScaleMonotonic(w, maxValue, v1, v2);
  }

  /** Multiplying by a non-negative w and dividing by a positive m keeps the order. */
  lemma ScaleMonotonic(w: real, m: real, a: real, b: real)
    requires w >= 0.0 && m > 0.0 && a <= b
    ensures w * a / m <= w * b / m
  {
    var gap := b - a;
    assert w * b == w * a + w * gap;
    assert w * gap >= 0.0;
    assert w * b / m == w * a / m + w * gap / m;
    assert w * gap / m >= 0.0;
  }

  /** Layout places both edges so that reading them back gives the current values (no bounds check is made). */
  lemma MeasureRecoversCurrentValues(s: ViewState, width: int, height: int)
    requires s.currentLeftValue.Some? && s.currentRightValue.Some?
    requires s.maxValue != 0.0
    requires width as real - 2.0 * s.cfg.horizontalMargin != 0.0
    ensures var t := OnMeasure(s, width, height);
            && LeftValue(t.totalValueRect, t.rangeValueRect, t.maxValue) == s.currentLeftValue.value
            && RightValue(t.totalValueRect, t.rangeValueRect, t.maxValue) == s.currentRightValue.value
  {
  }

  // ---------------------------------------------------------------------
  // Worked scenarios
  // ---------------------------------------------------------------------

  /** maxValue 100, minValue 0, a 300px track at margin 0. */
  function ScenarioState(): ViewState {
    var track := Rect(0.0, 0.0, 300.0, 40.0);
    ViewState(0.0, 100.0, None, None, Config(2.0, 10.0, 0.0, 2.0), LeftData(10.0),
              track, track, StrokeRect(track, 2.0), [])
  }

  /** 50 lies at pixel 150; dragging the left handle to 200 gives the value 200/3 and an ordered report. */
  lemma ScenarioDragLeft()
    ensures XPositionOfValue(ScenarioState().totalValueRect, 0.0, 0.0, 100.0, 50.0) == 150.0
    ensures var t := OnTouchEvent(ScenarioState(), Move, 200.0);
            && LeftValue(t.totalValueRect, t.rangeValueRect, t.maxValue) == 200.0 / 3.0
            && t.currentLeftValue == Some(200.0 / 3.0) && t.currentRightValue == Some(100.0)
  {
  }

  /** Adjacent handles: a touch between them conflicts, and 25px to the right resolves to the right handle at the new x. */
  lemma ScenarioConflictResolvesRight()
    ensures var range := ConflictExample().rangeValueRect;
            var s := ConflictExample().(dragging := IdleData());
            var down := OnTouchEvent(s, Down, 105.0);
            var moved := OnTouchEvent(down, Move, 130.0);
            && down.dragging == ConflictData(105.0)
            && moved.dragging == RightData(130.0)
            && moved.rangeValueRect == range.(right := 130.0)
  {
  }
}
