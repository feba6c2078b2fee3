# RangeView touch machine and geometry, in Dafny

This project models the core of `RangeView`, an Android widget with two draggable handles that select a sub-range of `[minValue, maxValue]`. The core has two parts:

- The **geometry**: the track rectangle (`totalValueRect`), the selected-range rectangle (`rangeValueRectF`) and the stroke rectangle derived from it. It also covers the hit tests of the two handles, the "exceed" guards, and the linear maps between values and pixels.
- The **drag state machine**: touch-down classifies the touch as Idle, DraggingLeft, DraggingRight or DraggingConflict. Touch-move updates one edge, swallows the move, or resolves a conflict once 20px of travel is reached. Touch-up returns to Idle. Every listener call is recorded.

Modules, in dependency order:

- `Wrappers`: the `Option` type that stands for Kotlin's nullable `Float?`.
- `Geometry`: the rectangles and the pure queries `getXPositionOfValue`, `getLeftValue`, `getRightValue`, `isTouchOnLeftToggle`, `isTouchOnRightToggle`, `isLeftToggleExceed` and `isRightToggleExceed`, as functions.
- `DragState`: `DraggingState`, `DraggingStateData` and its four factory functions, `Direction` with `resolveMovingWay`, and `Notification`, one value per listener call.
- `ViewModel`: the widget's fields as a value, `ViewState`, plus one function from the old state to the new state for each state-changing operation.
- `Widget`: the class `RangeView`. Its fields are updated in place by `OnTouchEvent`, `OnMeasure`, the two toggle-drag methods, `NotifyRangeChanged` and the setters. Each method's postcondition says that its new state `Model()` is the matching `ViewModel` function applied to the old state.
- `ViewProperties`: the lemmas. They cover touch-down classification, the slop, conflict resolution, blocked moves, touch-up notifications, range normalisation, an invariant kept by every sequence of touch events, and the value/pixel round trips.

Kotlin `Float` is modelled by Dafny `real`, so rounding is not modelled.

A touch event is reduced to its action (`Down`, `Move`, `Up`, or `Other` for every other action) plus its x coordinate. y is never read.

Listener calls are appended to the field `log` in the order the widget makes them. This lets the lemmas state the order of notifications and when they are suppressed.

`DraggingStateData`, `DraggingState` and `Direction` come from files that are not part of this model; they are reconstructed from how `RangeView.kt` uses them. `idle()` takes no event, so the model gives it the default `motionX` of 0. That value is never read. The other three factories record the event's x.

Facts about the code worth noting:

- The hit regions are open intervals (RangeView.kt:363-369). `TouchDownClassification` states this.
- A move swallowed by the 20px slop or by an exceed guard returns before line 290, so nothing is reported. `ConflictWithinSlop`, `LeftMove` and `RightMove` state this.
- The exceed guards keep a one-handle drag on the track and uncrossed (`PlainDragStaysWithinTrack`).
- Conflict resolution applies no exceed guard. One move can put an edge, and its value, beyond the track (`ConflictResolutionCanLeaveTrack`). With wide handles it can also cross the two edges (`ConflictResolutionCanCross`).
- In either case the reported pair is still ordered, because `notifyRangeChanged` sorts it with min/max (`RunPreservesInv`).

## Model

| member | source | states |
|---|---|---|
| `Geometry.TrackRect` | library/src/main/java/com/iammert/rangeview/library/RangeView.kt:144 | the track starts at the horizontal margin, at the top, and spans the measured width minus both margins and the full measured height |
| `Geometry.LayoutRange` | library/src/main/java/com/iammert/rangeview/library/RangeView.kt:146-160 | the laid-out range shares the track's top and bottom, and equals the track when either current value is null |
| `DragState.ResolveMovingWay` | library/src/main/java/com/iammert/rangeview/library/RangeView.kt:319-321 | the direction is Right exactly when x is strictly greater than the recorded motionX |
| `ViewModel.NotifyRangeChanged` | library/src/main/java/com/iammert/rangeview/library/RangeView.kt:383-394 | both current values become set and ordered; they are the raw left and right values in some order; exactly one range report with that pair is appended; nothing else changes |
| `ViewModel.DragLeftToggle` | library/src/main/java/com/iammert/rangeview/library/RangeView.kt:339-345 | only the range's left edge moves, to x; the stroke rect is the range inset by half the stroke width; the log gains the left-position report and then the range report |
| `ViewModel.DragRightToggle` | library/src/main/java/com/iammert/rangeview/library/RangeView.kt:347-353 | only the range's right edge moves, to x; the stroke rect follows; the log gains the right-position report and then the range report |
| `ViewModel.OnTouchEvent` | library/src/main/java/com/iammert/rangeview/library/RangeView.kt:231-293 | a touch event never changes the bounds, the configuration or the track, and only appends to the log |
| `ViewModel.OnMeasure` | library/src/main/java/com/iammert/rangeview/library/RangeView.kt:141-165 | the track starts at the margin and is the width minus both margins; the range shares the track's top and bottom, and equals the track when a current value is null; the stroke rect is derived from the range; nothing else changes |
| `ViewProperties.Run` | library/src/main/java/com/iammert/rangeview/library/RangeView.kt:231-293 | a sequence of touch events keeps the bounds, the configuration and the track, and only extends the log |
| `ViewProperties.TouchDownClassification` | library/src/main/java/com/iammert/rangeview/library/RangeView.kt:233-239 | with the open hit intervals of lines 363-369, the new state is Conflict iff x is in both intervals, Left iff only in the left one, Right iff only in the right one, Idle iff in neither; a non-Idle state records motionX = x; only the state and one state report change |
| `ViewProperties.ConflictWithinSlop` | library/src/main/java/com/iammert/rangeview/library/RangeView.kt:244-247 | in Conflict, a move less than 20px from motionX leaves the whole state unchanged and reports nothing |
| `ViewProperties.ConflictResolution` | library/src/main/java/com/iammert/rangeview/library/RangeView.kt:249-260 | in Conflict, a move at least 20px away sets the right edge and goes DraggingRight if x > motionX, otherwise sets the left edge and goes DraggingLeft; there is no exceed check; the new motionX is x; the reports are position, then range, then the new state |
| `ViewProperties.RightMove` | library/src/main/java/com/iammert/rangeview/library/RangeView.kt:263-269 | while DraggingRight, x < range.left or x > track.right changes nothing and reports nothing; otherwise only the right edge moves to x, followed by the position, range and state reports |
| `ViewProperties.LeftMove` | library/src/main/java/com/iammert/rangeview/library/RangeView.kt:271-277 | while DraggingLeft, x < track.left or x > range.right changes nothing and reports nothing; otherwise only the left edge moves to x, followed by the position, range and state reports |
| `ViewProperties.IdleMove` | library/src/main/java/com/iammert/rangeview/library/RangeView.kt:279-290 | a move with no active handle only reports the unchanged state |
| `ViewProperties.TouchUp` | library/src/main/java/com/iammert/rangeview/library/RangeView.kt:284-292 | whatever the prior state, touch-up reports DraggingEnd and then Idle, and leaves the state Idle with nothing else changed |
| `ViewProperties.OtherAction` | library/src/main/java/com/iammert/rangeview/library/RangeView.kt:288-292 | any other action only reports the current state |
| `ViewProperties.EdgeUpdateNormalises` | library/src/main/java/com/iammert/rangeview/library/RangeView.kt:383-394 | after either edge update, currentLeftValue is the min and currentRightValue the max of the raw values, so left <= right, and the last report carries exactly that pair |
| `ViewProperties.MeasureEstablishesInv` | library/src/main/java/com/iammert/rangeview/library/RangeView.kt:141-165 | layout makes the stroke rect equal to the range inset by half the stroke width, and aligns the range's top and bottom with the track's |
| `ViewProperties.TouchPreservesInv` | library/src/main/java/com/iammert/rangeview/library/RangeView.kt:231-293 | every touch event keeps the invariant: stroke derived from range, range aligned with track, DraggingEnd never stored, every reported range ordered |
| `ViewProperties.RunPreservesInv` | library/src/main/java/com/iammert/rangeview/library/RangeView.kt:231-293 | any sequence of touch events keeps that invariant; in particular, no range report ever has left > right |
| `ViewProperties.PlainDragStaysWithinTrack` | library/src/main/java/com/iammert/rangeview/library/RangeView.kt:355-361 | the exceed guards keep a one-handle drag on the track with left <= right |
| `ViewProperties.ConflictResolutionCanLeaveTrack` | library/src/main/java/com/iammert/rangeview/library/RangeView.kt:249-260 | a conflict resolved by a move to 400px on a 300px track moves the right edge off the track, and the current right value above maxValue |
| `ViewProperties.LeftValueOfXPosition` | library/src/main/java/com/iammert/rangeview/library/RangeView.kt:312-317 | an out-of-bounds value maps to pixel 0; with track.left = margin, an in-bounds value's pixel, used as the left or right edge, reads back as that value |
| `ViewProperties.XPositionOfLeftValue` | library/src/main/java/com/iammert/rangeview/library/RangeView.kt:371-381 | conversely, an edge whose value is in bounds lies at that value's pixel |
| `ViewProperties.XPositionWithinTrack` | library/src/main/java/com/iammert/rangeview/library/RangeView.kt:312-317 | with 0 <= minValue, an in-bounds value maps into [track.left, track.right] |
| `ViewProperties.XPositionMonotonic` | library/src/main/java/com/iammert/rangeview/library/RangeView.kt:312-317 | in bounds, the pixel does not decrease as the value grows |
| `ViewProperties.MeasureRecoversCurrentValues` | library/src/main/java/com/iammert/rangeview/library/RangeView.kt:153-159 | when both values are set, reading the laid-out edges back gives the current values, unclamped |
| `ViewProperties.ScenarioDragLeft` | library/src/main/java/com/iammert/rangeview/library/RangeView.kt:339-345 | with maxValue 100 on a 300px track, 50 lies at pixel 150; dragging the left handle to 200 gives the value 200/3 and the current pair (200/3, 100) |
| `ViewProperties.ScenarioConflictResolvesRight` | library/src/main/java/com/iammert/rangeview/library/RangeView.kt:233-260 | a touch between adjacent handles is a conflict; a move 25px to the right resolves to DraggingRight with the right edge at the new x |
| `Geometry.StrokeRect` | library/src/main/java/com/iammert/rangeview/library/RangeView.kt:161-164 | the range rect inset vertically by half the stroke width; kept by `DragLeftToggle`, `DragRightToggle`, `OnMeasure` and the invariant of `TouchPreservesInv` |
| `Geometry.XPositionOfValue` | library/src/main/java/com/iammert/rangeview/library/RangeView.kt:312-317 | 0 outside [minValue, maxValue], otherwise the pixel scaled by maxValue alone; read back by `LeftValueOfXPosition` and `XPositionOfLeftValue`, kept on the track by `XPositionWithinTrack`, ordered by `XPositionMonotonic` |
| `Geometry.LeftValue` | library/src/main/java/com/iammert/rangeview/library/RangeView.kt:371-375 | the value under the left edge; read back by `LeftValueOfXPosition` and `XPositionOfLeftValue`, and by `MeasureRecoversCurrentValues` after layout |
| `Geometry.RightValue` | library/src/main/java/com/iammert/rangeview/library/RangeView.kt:377-381 | the value under the right edge; read back by `LeftValueOfXPosition` and `XPositionOfLeftValue`, and by `MeasureRecoversCurrentValues` after layout |
| `Geometry.IsTouchOnLeftToggle` | library/src/main/java/com/iammert/rangeview/library/RangeView.kt:363-365 | x strictly inside (L - w*f, L + w + w*f); stated as the left interval of `TouchDownClassification` |
| `Geometry.IsTouchOnRightToggle` | library/src/main/java/com/iammert/rangeview/library/RangeView.kt:367-369 | x strictly inside (R - w - w*f, R + w*f); stated as the right interval of `TouchDownClassification` |
| `Geometry.IsLeftToggleExceed` | library/src/main/java/com/iammert/rangeview/library/RangeView.kt:355-357 | x < track.left or x > range.right; its effect is stated by `LeftMove` and `PlainDragStaysWithinTrack` |
| `Geometry.IsRightToggleExceed` | library/src/main/java/com/iammert/rangeview/library/RangeView.kt:359-361 | x < range.left or x > track.right; its effect is stated by `RightMove` and `PlainDragStaysWithinTrack` |
| `DragState.IdleData` | library/src/main/java/com/iammert/rangeview/library/RangeView.kt:238 | the Idle state; its motionX is never read; `TouchDownClassification` and `TouchUp` state when it is chosen |
| `DragState.LeftData` | library/src/main/java/com/iammert/rangeview/library/RangeView.kt:236 | DraggingLeft with motionX = x; `TouchDownClassification` and `ConflictResolution` state when it is chosen |
| `DragState.RightData` | library/src/main/java/com/iammert/rangeview/library/RangeView.kt:237 | DraggingRight with motionX = x; `TouchDownClassification` and `ConflictResolution` state when it is chosen |
| `DragState.ConflictData` | library/src/main/java/com/iammert/rangeview/library/RangeView.kt:235 | DraggingConflict with motionX = x; `TouchDownClassification` states when it is chosen |
| `ViewModel.TouchDownData` | library/src/main/java/com/iammert/rangeview/library/RangeView.kt:233-239 | the state a touch-down creates; classified by `TouchDownClassification` |
| `ViewModel.Initial` | library/src/main/java/com/iammert/rangeview/library/RangeView.kt:113-119 | a new widget: Idle, empty rectangles, no current values, no notifications; the constructor is proved to produce it |
| `ViewModel.SetCurrentValues` | library/src/main/java/com/iammert/rangeview/library/RangeView.kt:305-310 | both current values set to the arguments, unsorted; `Widget.RangeView.SetCurrentValues` is proved to change the fields this way |
| `ViewModel.SetMinValue` | library/src/main/java/com/iammert/rangeview/library/RangeView.kt:300-303 | only minValue changes; `Widget.RangeView.SetMinValue` is proved to change the fields this way |
| `ViewModel.SetMaxValue` | library/src/main/java/com/iammert/rangeview/library/RangeView.kt:295-298 | only maxValue changes; `Widget.RangeView.SetMaxValue` is proved to change the fields this way |
| `ViewProperties.ConflictResolutionCanCross` | library/src/main/java/com/iammert/rangeview/library/RangeView.kt:249-260 | with 20px handles, factor 2, both edges at 100 and a conflict at 139, a move to 119 resolves Left and puts the left edge past the right one, while the current pair stays ordered |
| `Widget.RangeView.constructor` | library/src/main/java/com/iammert/rangeview/library/RangeView.kt:113-119 | the fields start as `ViewModel.Initial`: Idle, empty rectangles, no current values |
| `Widget.RangeView.OnMeasure` | library/src/main/java/com/iammert/rangeview/library/RangeView.kt:141-165 | the fields change exactly as `ViewModel.OnMeasure` says |
| `Widget.RangeView.OnTouchEvent` | library/src/main/java/com/iammert/rangeview/library/RangeView.kt:231-293 | the event is consumed (returns true), and the fields change exactly as `ViewModel.OnTouchEvent` says |
| `Widget.RangeView.DraggingLeftToggle` | library/src/main/java/com/iammert/rangeview/library/RangeView.kt:339-345 | the fields change exactly as `ViewModel.DragLeftToggle` says |
| `Widget.RangeView.DraggingRightToggle` | library/src/main/java/com/iammert/rangeview/library/RangeView.kt:347-353 | the fields change exactly as `ViewModel.DragRightToggle` says |
| `Widget.RangeView.NotifyRangeChanged` | library/src/main/java/com/iammert/rangeview/library/RangeView.kt:383-394 | the fields change exactly as `ViewModel.NotifyRangeChanged` says |
| `Widget.RangeView.SetMaxValue` | library/src/main/java/com/iammert/rangeview/library/RangeView.kt:295-298 | only maxValue changes |
| `Widget.RangeView.SetMinValue` | library/src/main/java/com/iammert/rangeview/library/RangeView.kt:300-303 | only minValue changes |
| `Widget.RangeView.SetCurrentValues` | library/src/main/java/com/iammert/rangeview/library/RangeView.kt:305-310 | both current values are set to exactly the arguments, unsorted; nothing is laid out until the next `OnMeasure` |
| `Widget.RangeView.GetXPositionOfValue` | library/src/main/java/com/iammert/rangeview/library/RangeView.kt:312-317 | returns `Geometry.XPositionOfValue` of the current track and bounds, without changing anything |

## Left out

- `onDraw` and `initializeBitmap` (RangeView.kt:167-229, 323-337): canvas and bitmap rendering, which is platform graphics.
- The `init` block, the colours and the paint objects (RangeView.kt:47-139): attribute and resource parsing through Android APIs. The constructor takes the parsed dimensions and bounds as parameters instead. `touchSizeFactor` is fixed at its initial 2.
- `postInvalidate`, `requestLayout` and the `super` calls: platform side effects with no effect on the modelled state. `SetCurrentValues` therefore does not lay out again; layout happens when the platform calls `OnMeasure`.
- Listener presence: each listener is treated as attached. A null listener drops its entries from `log` and changes nothing else.
- `MotionEvent`: only the action and x are modelled. y and the other fields are never read.
- Float rounding and non-finite results: values are `real`. The divisions by zero that a zero-width track or `maxValue = 0` would cause in Kotlin (producing Infinity or NaN) are excluded by preconditions. `TouchDefined` asks for a non-zero track width on any move in a dragging state, including a move that the slop or a guard would swallow.
- Multi-touch and gesture history beyond one `DraggingStateData`: not part of this widget.
