/**
  The widget's state as a value and each of its state-changing operations as
  a function from the old state to the new one. The class in module Widget
  is proved to change its fields exactly as these functions say.
 */
module ViewModel {
  import opened Wrappers
  import opened Geometry
  import opened DragState

  /** `SLOP_DIFF`: how far a conflicting touch must travel before it picks a handle. */
  const SlopDiff: real := 20.0

  /** `touchSizeFactor`'s initial value. */
  const DefaultTouchSizeFactor: real := 2.0

  /** `MotionEvent` actions; every other action (cancel, outside, ...) is `Other`. */
  datatype Action = Down | Move | Up | Other

  /** Dimensions fixed when the widget is inflated. */
  datatype Config = Config(strokeWidth: real, toggleWidth: real, horizontalMargin: real, touchSizeFactor: real)

  /** Everything the touch machine and the layout read or write, with the listener calls made so far. */
  datatype ViewState = ViewState(
    minValue: real,
    maxValue: real,
    currentLeftValue: Option<real>,
    currentRightValue: Option<real>,
    cfg: Config,
    dragging: DraggingStateData,
    totalValueRect: Rect,
    rangeValueRect: Rect,
    rangeStrokeRect: Rect,
    log: seq<Notification>)

  function Abs(r: real): real { if r < 0.0 then -r else r }

  function Min(a: real, b: real): real { if a <= b then a else b }

  function Max(a: real, b: real): real { if a >= b then a else b }

  /** The state of a freshly constructed widget. */
  function Initial(cfg: Config, minValue: real, maxValue: real): ViewState {
    ViewState(minValue, maxValue, None, None, cfg, IdleData(), EmptyRect, EmptyRect, EmptyRect, [])
  }

  /** Everything except the range and stroke rectangles, the current values and the log is as before. */
  predicate SameFrame(s: ViewState, t: ViewState) {
    t.minValue == s.minValue && t.maxValue == s.maxValue && t.cfg == s.cfg && t.totalValueRect == s.totalValueRect
  }

  /** `notifyRangeChanged`: the raw left and right values, sorted, become the current values and are reported. */
  function NotifyRangeChanged(s: ViewState): (t: ViewState)
    requires s.totalValueRect.Width() != 0.0
    ensures SameFrame(s, t) && t.dragging == s.dragging
    ensures t.rangeValueRect == s.rangeValueRect && t.rangeStrokeRect == s.rangeStrokeRect
    ensures t.currentLeftValue.Some? && t.currentRightValue.Some?
    ensures t.currentLeftValue.value <= t.currentRightValue.value
    ensures var first := LeftValue(s.totalValueRect, s.rangeValueRect, s.maxValue);
            var second := RightValue(s.totalValueRect, s.rangeValueRect, s.maxValue);
            (t.currentLeftValue.value, t.currentRightValue.value) in {(first, second), (second, first)}
    ensures t.log == s.log + [RangeChanged(s.maxValue, s.minValue, t.currentLeftValue.value, t.currentRightValue.value)]
  {
    var firstValue := LeftValue(s.totalValueRect, s.rangeValueRect, s.maxValue);
    var secondValue := RightValue(s.totalValueRect, s.rangeValueRect, s.maxValue);
    var leftValue := Min(firstValue, secondValue);
    var rightValue := Max(firstValue, secondValue);
    s.(currentLeftValue := Some(leftValue), currentRightValue := Some(rightValue),
       log := s.log + [RangeChanged(s.maxValue, s.minValue, leftValue, rightValue)])
  }

  /** `draggingLeftToggle`: move the left edge to x, report its position and value, then the range. */
  function DragLeftToggle(s: ViewState, x: real): (t: ViewState)
    requires s.totalValueRect.Width() != 0.0
    ensures SameFrame(s, t) && t.dragging == s.dragging
    ensures t.rangeValueRect == s.rangeValueRect.(left := x)
    ensures t.rangeStrokeRect == StrokeRect(t.rangeValueRect, s.cfg.strokeWidth)
    ensures t.currentLeftValue.Some? && t.currentRightValue.Some?
    ensures t.log == s.log + [LeftTogglePositionChanged(x, LeftValue(s.totalValueRect, t.rangeValueRect, s.maxValue)),
                              RangeChanged(s.maxValue, s.minValue, t.currentLeftValue.value, t.currentRightValue.value)]
  {
    var range := s.rangeValueRect.(left := x);
    var s1 := s.(rangeValueRect := range, rangeStrokeRect := StrokeRect(range, s.cfg.strokeWidth));
    var s2 := s1.(log := s1.log + [LeftTogglePositionChanged(range.left, LeftValue(s1.totalValueRect, range, s1.maxValue))]);
    NotifyRangeChanged(s2)
  }

  /** `draggingRightToggle`: move the right edge to x, report its position and value, then the range. */
  function DragRightToggle(s: ViewState, x: real): (t: ViewState)
    requires s.totalValueRect.Width() != 0.0
    ensures SameFrame(s, t) && t.dragging == s.dragging
    ensures t.rangeValueRect == s.rangeValueRect.(right := x)
    ensures t.rangeStrokeRect == StrokeRect(t.rangeValueRect, s.cfg.strokeWidth)
    ensures t.currentLeftValue.Some? && t.currentRightValue.Some?
    ensures t.log == s.log + [RightTogglePositionChanged(x, RightValue(s.totalValueRect, t.rangeValueRect, s.maxValue)),
                              RangeChanged(s.maxValue, s.minValue, t.currentLeftValue.value, t.currentRightValue.value)]
  {
    var range := s.rangeValueRect.(right := x);
    var s1 := s.(rangeValueRect := range, rangeStrokeRect := StrokeRect(range, s.cfg.strokeWidth));
    var s2 := s1.(log := s1.log + [RightTogglePositionChanged(range.right, RightValue(s1.totalValueRect, range, s1.maxValue))]);
    NotifyRangeChanged(s2)
  }

  /** The state a touch-down at x creates. */
  function TouchDownData(s: ViewState, x: real): DraggingStateData {
    var onLeft := IsTouchOnLeftToggle(s.rangeValueRect, s.cfg.toggleWidth, s.cfg.touchSizeFactor, x);
    var onRight := IsTouchOnRightToggle(s.rangeValueRect, s.cfg.toggleWidth, s.cfg.touchSizeFactor, x);
    if onLeft && onRight then ConflictData(x)
    else if onLeft then LeftData(x)
    else if onRight then RightData(x)
    else IdleData()
  }

  /** The drag-state notification every handled event ends with. */
  function NotifyDraggingState(s: ViewState): ViewState {
    s.(log := s.log + [DraggingStateChanged(s.dragging.state)])
  }

  /** A state in which a move may update an edge. */
  predicate IsDragging(st: DraggingState) {
    st == DraggingLeft || st == DraggingRight || st == DraggingConflict
  }

  /** What `onTouchEvent` demands: an edge update divides by the track width. */
  predicate TouchDefined(s: ViewState, action: Action) {
    action == Move && IsDragging(s.dragging.state) ==> s.totalValueRect.Width() != 0.0
  }

  /** `onTouchEvent` for an event with this action at this x (y is never read); the event is always consumed. */
  function OnTouchEvent(s: ViewState, action: Action, x: real): (t: ViewState)
    requires TouchDefined(s, action)
    ensures SameFrame(s, t)
    ensures s.log <= t.log
  {
    match action
    case Down => NotifyDraggingState(s.(dragging := TouchDownData(s, x)))
    case Move =>
      (match s.dragging.state
       case DraggingConflict =>
         if Abs(s.dragging.motionX - x) < SlopDiff then s
         else
           (match ResolveMovingWay(x, s.dragging)
            case Left => NotifyDraggingState(DragLeftToggle(s, x).(dragging := LeftData(x)))
            case Right => NotifyDraggingState(DragRightToggle(s, x).(dragging := RightData(x))))
       case DraggingRight =>
         if IsRightToggleExceed(s.totalValueRect, s.rangeValueRect, x) then s
         else NotifyDraggingState(DragRightToggle(s, x))
       case DraggingLeft =>
         if IsLeftToggleExceed(s.totalValueRect, s.rangeValueRect, x) then s
         else NotifyDraggingState(DragLeftToggle(s, x))
       case _ => NotifyDraggingState(s))
    case Up =>
      var ended := s.(log := s.log + [DraggingStateChanged(DraggingEnd)]);
      NotifyDraggingState(ended.(dragging := IdleData()))
    case Other => NotifyDraggingState(s)
  }

  /** What `onMeasure` demands: laying out both current values divides by `maxValue`. */
  predicate MeasureDefined(s: ViewState) {
    LayoutDefined(s.maxValue, s.currentLeftValue, s.currentRightValue)
  }

  /** `onMeasure` (the rectangle layout only) for the measured width and height. */
  function OnMeasure(s: ViewState, width: int, height: int): (t: ViewState)
    requires MeasureDefined(s)
    ensures t.totalValueRect.left == s.cfg.horizontalMargin
    ensures t.totalValueRect.Width() == width as real - 2.0 * s.cfg.horizontalMargin
    ensures t.rangeValueRect.top == t.totalValueRect.top && t.rangeValueRect.bottom == t.totalValueRect.bottom
    ensures t.rangeStrokeRect == StrokeRect(t.rangeValueRect, s.cfg.strokeWidth)
    ensures s.currentLeftValue.None? || s.currentRightValue.None? ==> t.rangeValueRect == t.totalValueRect
    ensures t == s.(totalValueRect := t.totalValueRect, rangeValueRect := t.rangeValueRect, rangeStrokeRect := t.rangeStrokeRect)
  {
    var track := TrackRect(width, height, s.cfg.horizontalMargin);
    var range := LayoutRange(track, s.cfg.horizontalMargin, s.maxValue, s.currentLeftValue, s.currentRightValue);
    s.(totalValueRect := track, rangeValueRect := range, rangeStrokeRect := StrokeRect(range, s.cfg.strokeWidth))
  }

  /** `setCurrentValues`: stored as given, not sorted; they take effect at the next layout. */
  function SetCurrentValues(s: ViewState, leftValue: real, rightValue: real): ViewState {
    s.(currentLeftValue := Some(leftValue), currentRightValue := Some(rightValue))
  }

  /** `setMinValue` */
  function SetMinValue(s: ViewState, minValue: real): ViewState {
    s.(minValue := minValue)
  }

  /** `setMaxValue` */
  function SetMaxValue(s: ViewState, maxValue: real): ViewState {
    s.(maxValue := maxValue)
  }
}
