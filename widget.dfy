/**
  The `RangeView` object: its fields are updated in place by the touch
  handler, the layout pass and the public setters. Every method is proved to
  leave the object in exactly the state the matching function of module
  ViewModel describes, so the lemmas of module ViewProperties apply to it.
 */
module Widget {
  import opened Wrappers
  import opened Geometry
  import opened DragState
  import opened ViewModel

  class RangeView {
    var maxValue: real
    var minValue: real
    var currentLeftValue: Option<real>
    var currentRightValue: Option<real>
    const strokeWidth: real
    const toggleWidth: real
    const horizontalMargin: real
    const touchSizeFactor: real
    var draggingStateData: DraggingStateData
    var totalValueRect: Rect
    var rangeValueRectF: Rect
    var rangeStrokeRectF: Rect
    /** The listener calls made so far, oldest first. */
    var log: seq<Notification>

    /** The object's fields as a `ViewState`. */
    ghost function Model(): ViewState
      reads this
    {
      ViewState(minValue, maxValue, currentLeftValue, currentRightValue,
                Config(strokeWidth, toggleWidth, horizontalMargin, touchSizeFactor),
                draggingStateData, totalValueRect, rangeValueRectF, rangeStrokeRectF, log)
    }

    /** The dimensions and bounds come from the inflated attributes. */
    constructor (strokeWidth: real, toggleWidth: real, horizontalMargin: real, minValue: real, maxValue: real)
      ensures Model() == Initial(Config(strokeWidth, toggleWidth, horizontalMargin, DefaultTouchSizeFactor), minValue, maxValue)
    {
      this.maxValue := maxValue;
      this.minValue := minValue;
      currentLeftValue := None;
      currentRightValue := None;
      this.strokeWidth := strokeWidth;
      this.toggleWidth := toggleWidth;
      this.horizontalMargin := horizontalMargin;
      touchSizeFactor := DefaultTouchSizeFactor;
      draggingStateData := IdleData();
      totalValueRect := EmptyRect;
      rangeValueRectF := EmptyRect;
      rangeStrokeRectF := EmptyRect;
      log := [];
    }

    method OnMeasure(measuredWidth: int, measuredHeight: int)
      requires MeasureDefined(Model())
      modifies this
      ensures Model() == ViewModel.OnMeasure(old(Model()), measuredWidth, measuredHeight)
    {
      totalValueRect := Rect(0.0 + horizontalMargin, 0.0, measuredWidth as real - horizontalMargin, measuredHeight as real);
      if currentLeftValue.None? || currentRightValue.None? {
        rangeValueRectF := Rect(totalValueRect.left, totalValueRect.top, totalValueRect.right, totalValueRect.bottom);
      } else {
        var leftRangePosition := (totalValueRect.Width() * currentLeftValue.value) / maxValue;
        var rightRangePosition := (totalValueRect.Width() * currentRightValue.value) / maxValue;
        rangeValueRectF := Rect(leftRangePosition + horizontalMargin, totalValueRect.top,
                                rightRangePosition + horizontalMargin, totalValueRect.bottom);
      }
      rangeStrokeRectF := Rect(rangeValueRectF.left, rangeValueRectF.top + strokeWidth / 2.0,
                               rangeValueRectF.right, rangeValueRectF.bottom - strokeWidth / 2.0);
    }

    method OnTouchEvent(action: Action, x: real) returns (handled: bool)
      requires TouchDefined(Model(), action)
      modifies this
      ensures handled
      ensures Model() == ViewModel.OnTouchEvent(old(Model()), action, x)
    {
      match action {
        case Down =>
          var onLeft := IsTouchOnLeftToggle(rangeValueRectF, toggleWidth, touchSizeFactor, x);
          var onRight := IsTouchOnRightToggle(rangeValueRectF, toggleWidth, touchSizeFactor, x);
          if onLeft && onRight {
            draggingStateData := ConflictData(x);
          } else if onLeft {
            draggingStateData := LeftData(x);
          } else if onRight {
            draggingStateData := RightData(x);
          } else {
            draggingStateData := IdleData();
          }
        case Move =>
          match draggingStateData.state {
            case DraggingConflict =>
              if Abs(draggingStateData.motionX - x) < SlopDiff {
                return true;
              }
              var direction := ResolveMovingWay(x, draggingStateData);
              match direction {
                case Left =>
                  DraggingLeftToggle(x);
                  draggingStateData := LeftData(x);
                case Right =>
                  DraggingRightToggle(x);
                  draggingStateData := RightData(x);
              }
            case DraggingRight =>
              if IsRightToggleExceed(totalValueRect, rangeValueRectF, x) {
                return true;
              } else {
                DraggingRightToggle(x);
              }
            case DraggingLeft =>
              if IsLeftToggleExceed(totalValueRect, rangeValueRectF, x) {
                return true;
              } else {
                DraggingLeftToggle(x);
              }
            case _ =>
          }
        case Up =>
          log := log + [DraggingStateChanged(DraggingEnd)];
          draggingStateData := IdleData();
        case Other =>
      }
      log := log + [DraggingStateChanged(draggingStateData.state)];
      return true;
    }

    method DraggingLeftToggle(x: real)
      requires totalValueRect.Width() != 0.0
      modifies this
      ensures Model() == DragLeftToggle(old(Model()), x)
    {
      rangeValueRectF := Rect(x, rangeValueRectF.top, rangeValueRectF.right, rangeValueRectF.bottom);
      rangeStrokeRectF := Rect(rangeValueRectF.left, rangeValueRectF.top + strokeWidth / 2.0,
                               rangeValueRectF.right, rangeValueRectF.bottom - strokeWidth / 2.0);
      log := log + [LeftTogglePositionChanged(rangeValueRectF.left, LeftValue(totalValueRect, rangeValueRectF, maxValue))];
      NotifyRangeChanged();
    }

    method DraggingRightToggle(x: real)
      requires totalValueRect.Width() != 0.0
      modifies this
      ensures Model() == DragRightToggle(old(Model()), x)
    {
      rangeValueRectF := Rect(rangeValueRectF.left, rangeValueRectF.top, x, rangeValueRectF.bottom);
      rangeStrokeRectF := Rect(rangeValueRectF.left, rangeValueRectF.top + strokeWidth / 2.0,
                               rangeValueRectF.right, rangeValueRectF.bottom - strokeWidth / 2.0);
      log := log + [RightTogglePositionChanged(rangeValueRectF.right, RightValue(totalValueRect, rangeValueRectF, maxValue))];
      NotifyRangeChanged();
    }

    method NotifyRangeChanged()
      requires totalValueRect.Width() != 0.0
      modifies this
      ensures Model() == ViewModel.NotifyRangeChanged(old(Model()))
    {
      var firstValue := LeftValue(totalValueRect, rangeValueRectF, maxValue);
      var secondValue := RightValue(totalValueRect, rangeValueRectF, maxValue);
      var leftValue := Min(firstValue, secondValue);
      var rightValue := Max(firstValue, secondValue);
      currentLeftValue := Some(leftValue);
      currentRightValue := Some(rightValue);
      log := log + [RangeChanged(maxValue, minValue, leftValue, rightValue)];
    }

    method SetMaxValue(maxValue: real)
      modifies this
      ensures Model() == ViewModel.SetMaxValue(old(Model()), maxValue)
    {
      this.maxValue := maxValue;
    }

    method SetMinValue(minValue: real)
      modifies this
      ensures Model() == ViewModel.SetMinValue(old(Model()), minValue)
    {
      this.minValue := minValue;
    }

    method SetCurrentValues(leftValue: real, rightValue: real)
      modifies this
      ensures Model() == ViewModel.SetCurrentValues(old(Model()), leftValue, rightValue)
    {
      currentLeftValue := Some(leftValue);
      currentRightValue := Some(rightValue);
    }

    /** `getXPositionOfValue`, a query that changes nothing. */
    method GetXPositionOfValue(value: real) returns (x: real)
      requires XPositionDefined(minValue, maxValue, value)
      ensures x == XPositionOfValue(totalValueRect, horizontalMargin, minValue, maxValue, value)
    {
      if value < minValue || value > maxValue {
        return 0.0;
      }
      return ((totalValueRect.Width() * value) / maxValue) + horizontalMargin;
    }
  }
}
