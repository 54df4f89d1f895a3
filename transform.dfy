/**
 * The values the detail overlay derives from its gesture state
 * (`distance`, `detailViewBackgroundOpacity`, `detailViewScaleEffect`,
 * `isDragging` and `combinedScaleEffect`). They are pure functions of the
 * offset, the two zoom fields and whether an image is being presented.
 *
 * Doubles are modelled as `real`. `distance` is a square root, which the
 * model does not compute: every function that needs it takes the distance
 * as an argument together with the fact `IsDistance(offset, distance)`.
 */
module Transform {

  /** A `CGSize`: a drag translation or an offset, in points. */
  datatype Size = Size(width: real, height: real)

  const Zero := Size(0.0, 0.0)

  /** A `UnitPoint`: a point in the unit square of a view, used as the pivot of scaling. */
  datatype UnitPoint = UnitPoint(x: real, y: real)

  const Center := UnitPoint(0.5, 0.5)

  /** The drag distance over which the black background fades out. */
  const FadeDistance: real := 200.0
  /** The drag distance over which the image would shrink to nothing, were it not for the floor. */
  const ShrinkDistance: real := 1000.0
  /** The image never shrinks below this scale while dragged. */
  const ShrinkFloor: real := 0.8
  /** A drag released with the background opacity below this value dismisses the detail view. */
  const DismissOpacity: real := 0.8

  function Max(a: real, b: real): real { if a < b then b else a }

  function SquaredLength(s: Size): real {
    s.width * s.width + s.height * s.height
  }

  /**
   * `d` is the Euclidean length of `s`: it is not negative, it is zero
   * exactly at the origin, and its square is the squared length of `s`.
   * The middle fact follows from the other two but is stated, not proved:
   * the solver does not reliably derive that a non-zero real has a
   * positive square. Through it, `IsDragging(d)` holds exactly when the
   * offset is not zero.
   */
  predicate IsDistance(s: Size, d: real) {
    0.0 <= d && (d == 0.0 <==> s == Zero) && d * d == SquaredLength(s)
  }

  /** The opacity of the black background behind the detail view. */
  function BackgroundOpacity(presenting: bool, distance: real): (r: real)
    requires 0.0 <= distance
    ensures 0.0 <= r <= 1.0
    ensures !presenting ==> r == 0.0
    ensures presenting && distance == 0.0 ==> r == 1.0
    ensures presenting && distance <= FadeDistance ==> r * FadeDistance == FadeDistance - distance
    ensures presenting && FadeDistance <= distance ==> r == 0.0
  {
    if presenting then Max(0.0, FadeDistance - distance) / FadeDistance else 0.0
  }

  /** The scale by which a dragged detail image shrinks. */
  function ShrinkScale(presenting: bool, distance: real): (r: real)
    requires 0.0 <= distance
    ensures ShrinkFloor <= r <= 1.0
    ensures !presenting ==> r == 1.0
    ensures presenting && distance <= FadeDistance ==> r * ShrinkDistance == ShrinkDistance - distance
    ensures presenting && FadeDistance <= distance ==> r == ShrinkFloor
  {
    if presenting then Max(Max(0.0, ShrinkDistance - distance) / ShrinkDistance, ShrinkFloor) else 1.0
  }

  predicate IsDragging(distance: real) {
    distance > 0.0
  }

  /** The scale the detail image is drawn with: the drag shrink while displaced, the pinch zoom otherwise. */
  function CombinedScale(presenting: bool, distance: real, zoomScale: real, currentZoomScale: real): (r: real)
    requires 0.0 <= distance
    ensures IsDragging(distance) ==> ShrinkFloor <= r <= 1.0 && r == ShrinkScale(presenting, distance)
    ensures !IsDragging(distance) ==> r == zoomScale + currentZoomScale
  {
    if IsDragging(distance) then ShrinkScale(presenting, distance) else zoomScale + currentZoomScale
  }

  /**
   * Releasing a drag dismisses when the opacity has fallen below 0.8, which
   * is when the offset is longer than 40 points, which is when its squared
   * length exceeds 1600.
   */
  lemma DismissThreshold(o: Size, d: real)
    requires IsDistance(o, d)
    ensures BackgroundOpacity(true, d) < DismissOpacity <==> d > 40.0
    ensures d > 40.0 <==> SquaredLength(o) > 1600.0
  {
    if d > 40.0 {
      assert d * d > 40.0 * d;
    } else {
      assert d * d <= 40.0 * d;
    }
  }

  /** Dragging further never brightens the background nor enlarges the image. */
  lemma FadesWithDistance(presenting: bool, d1: real, d2: real)
    requires 0.0 <= d1 <= d2
    ensures BackgroundOpacity(presenting, d2) <= BackgroundOpacity(presenting, d1)
    ensures ShrinkScale(presenting, d2) <= ShrinkScale(presenting, d1)
  {
  }
}
