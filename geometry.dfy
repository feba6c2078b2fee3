/**
  Pixel/value geometry of the range widget: the track, range and stroke
  rectangles, the hit tests of the two toggles, the "exceed" guards that
  block a move, and the linear maps between domain values and pixels.
  Kotlin `Float` is modelled by `real`; rounding is not modelled.
 */
module Geometry {
  import opened Wrappers

  /** An `android.graphics.RectF`; the widget only ever replaces all four coordinates at once. */
  datatype Rect = Rect(left: real, top: real, right: real, bottom: real) {
    /** `RectF.width()` */
    function Width(): real { right - left }
  }

  /** A freshly allocated `RectF()`. */
  const EmptyRect: Rect := Rect(0.0, 0.0, 0.0, 0.0)

  /** The stroke rectangle: the range rectangle inset vertically by half the stroke width. */
  function StrokeRect(range: Rect, strokeWidth: real): Rect {
    Rect(range.left, range.top + strokeWidth / 2.0, range.right, range.bottom - strokeWidth / 2.0)
  }

  /** The track rectangle laid out for a measured width and height. */
  function TrackRect(width: int, height: int, margin: real): (r: Rect)
    ensures r.left == margin && r.top == 0.0
    ensures r.Width() == width as real - 2.0 * margin
    ensures r.bottom == height as real
  {
    Rect(0.0 + margin, 0.0, width as real - margin, height as real)
  }

  /** Whether the range layout can be computed: it divides by `maxValue` only when both current values are set. */
  predicate LayoutDefined(maxValue: real, leftValue: Option<real>, rightValue: Option<real>) {
    leftValue.None? || rightValue.None? || maxValue != 0.0
  }

  /** The range rectangle laid out from the current values, or the whole track when either is unset. */
  function LayoutRange(track: Rect, margin: real, maxValue: real, leftValue: Option<real>, rightValue: Option<real>): (r: Rect)
    requires LayoutDefined(maxValue, leftValue, rightValue)
    ensures r.top == track.top && r.bottom == track.bottom
    ensures leftValue.None? || rightValue.None? ==> r == track
  {
    if leftValue.None? || rightValue.None? then
      Rect(track.left, track.top, track.right, track.bottom)
    else
      var leftRangePosition := (track.Width() * leftValue.value) / maxValue;
      var rightRangePosition := (track.Width() * rightValue.value) / maxValue;
      Rect(leftRangePosition + margin, track.top, rightRangePosition + margin, track.bottom)
  }

  /** Whether `XPositionOfValue` is defined: an in-bounds value is divided by `maxValue`. */
  predicate XPositionDefined(minValue: real, maxValue: real, value: real) {
    value < minValue || value > maxValue || maxValue != 0.0
  }

  /** `getXPositionOfValue`: 0 for a value outside [minValue, maxValue], otherwise a pixel scaled by `maxValue` alone. */
  function XPositionOfValue(track: Rect, margin: real, minValue: real, maxValue: real, value: real): real
    requires XPositionDefined(minValue, maxValue, value)
  {
    if value < minValue || value > maxValue then 0.0
    else ((track.Width() * value) / maxValue) + margin
  }

  /** `getLeftValue`: the value under the left edge of the range. */
  function LeftValue(track: Rect, range: Rect, maxValue: real): real
    requires track.Width() != 0.0
  {
    var totalDiffInPx := track.right - track.left;
    var firstValueInPx := range.left - track.left;
    maxValue * firstValueInPx / totalDiffInPx
  }

  /** `getRightValue`: the value under the right edge of the range. */
  function RightValue(track: Rect, range: Rect, maxValue: real): real
    requires track.Width() != 0.0
  {
    var totalDiffInPx := track.right - track.left;
    var secondValueInPx := range.right - track.left;
    maxValue * secondValueInPx / totalDiffInPx
  }

  /** `isTouchOnLeftToggle`: x strictly inside the padded left handle. */
  predicate IsTouchOnLeftToggle(range: Rect, toggleWidth: real, touchSizeFactor: real, x: real) {
    x > range.left - (toggleWidth * touchSizeFactor) && x < range.left + toggleWidth + (toggleWidth * touchSizeFactor)
  }

  /** `isTouchOnRightToggle`: x strictly inside the padded right handle. */
  predicate IsTouchOnRightToggle(range: Rect, toggleWidth: real, touchSizeFactor: real, x: real) {
    x > range.right - toggleWidth - (toggleWidth * touchSizeFactor) && x < range.right + (toggleWidth * touchSizeFactor)
  }

  /** `isLeftToggleExceed`: the left handle may not leave the track nor pass the right edge. */
  predicate IsLeftToggleExceed(track: Rect, range: Rect, x: real) {
    x < track.left || x > range.right
  }

  /** `isRightToggleExceed`: the right handle may not pass the left edge nor leave the track. */
  predicate IsRightToggleExceed(track: Rect, range: Rect, x: real) {
    x < range.left || x > track.right
  }
}
