/**
  The dragging state of the widget and what it reports to its listeners.
  `DraggingState`, `DraggingStateData` and `Direction` are declared in files
  that are not part of this model; they are reconstructed from their use in
  RangeView.kt.
 */
module DragState {

  /** `DraggingState`; `DraggingEnd` is only ever sent to the listener, never stored. */
  datatype DraggingState = Idle | DraggingLeft | DraggingRight | DraggingConflict | DraggingEnd

  /** A state tag with the x coordinate of the touch that created it. */
  datatype DraggingStateData = DraggingStateData(state: DraggingState, motionX: real)

  /** `DraggingStateData.idle()`: takes no event, so its motionX is the default 0 (and is never read). */
  function IdleData(): DraggingStateData { DraggingStateData(Idle, 0.0) }

  /** `DraggingStateData.left(e)` */
  function LeftData(x: real): DraggingStateData { DraggingStateData(DraggingLeft, x) }

  /** `DraggingStateData.right(e)` */
  function RightData(x: real): DraggingStateData { DraggingStateData(DraggingRight, x) }

  /** `DraggingStateData.createConflict(e)` */
  function ConflictData(x: real): DraggingStateData { DraggingStateData(DraggingConflict, x) }

  datatype Direction = Left | Right

  /** `resolveMovingWay`: strictly to the right of the recorded touch is Right, anything else Left. */
  function ResolveMovingWay(x: real, stateData: DraggingStateData): (d: Direction)
    ensures d == Right <==> x > stateData.motionX
  {
    if x > stateData.motionX then Right else Left
  }

  /** One call on one of the three listener interfaces, in the order the widget makes them. */
  datatype Notification =
    | DraggingStateChanged(draggingState: DraggingState)
    | LeftTogglePositionChanged(leftX: real, leftValue: real)
    | RightTogglePositionChanged(rightX: real, rightValue: real)
    | RangeChanged(maxValue: real, minValue: real, currentLeftValue: real, currentRightValue: real)
}
