/**
 * The duration heuristic of `UIView.optimizedDuration`: the apparent on-screen
 * movement of a view (displacement of its transformed position plus change of
 * its transformed size) is clamped to [0, 500] points and mapped linearly onto a
 * duration in seconds.
 *
 * The geometry the heuristic relies on (applying a 3D transform to a point or a
 * size, Euclidean distance) is defined outside this file and works on
 * floating-point numbers; here it is a parameter `Geometry<T>` over an abstract
 * transform type `T`, and the only facts assumed of the distance are that it is
 * zero from a point to itself and never negative (`IsDistance`). All arithmetic
 * is on `real`.
 */
module Duration {
  import opened Wrappers

  datatype Point = Point(x: real, y: real)
  datatype Size = Size(width: real, height: real)

  /** `CGPoint + CGPoint`. */
  function Add(p: Point, q: Point): (r: Point)
  {
    Point(p.x + q.x, p.y + q.y)
  }

  /** `CGSize.point`: a size read as the 2-vector (width, height). */
  function AsPoint(s: Size): (r: Point)
  {
    Point(s.width, s.height)
  }

  const Origin := Point(0.0, 0.0)

  /** The geometric primitives the heuristic calls: `CGPoint.transform(_:)`,
      `CGSize.transform(_:)` and `CGPoint.distance(_:)`. */
  datatype Geometry<!T> = Geometry(
    transformPoint: (Point, T) -> Point,
    transformSize: (Size, T) -> Size,
    distance: (Point, Point) -> real)

  /** The two facts about the distance that the movement's contract relies on. */
  ghost predicate IsDistance(distance: (Point, Point) -> real)
  {
    && (forall p :: distance(p, p) == 0.0)
    && (forall p, q :: distance(p, q) >= 0.0)
  }

  /** What the view's layer reports: its presentation layer while an animation is
      in flight, its model layer otherwise. */
  datatype LayerState<T> = LayerState(size: Size, transform: T)

  /** Duration for no movement at all, in seconds. */
  const BaseDuration: real := 0.208
  /** Movement, in points, at and beyond which the duration stops growing. */
  const MovementCap: real := 500.0
  /** Points of movement per extra second. */
  const PointsPerSecond: real := 3000.0
  /** The longest duration the heuristic produces: 0.208 + 1/6 seconds. */
  const LongestDuration: real := BaseDuration + MovementCap / PointsPerSecond

  /** `x.clamp(lo, hi)`. */
  function Clamp(x: real, lo: real, hi: real): (r: real)
    ensures lo <= hi ==> lo <= r <= hi
    ensures x < lo ==> r == lo
    ensures lo <= x <= hi ==> r == x
    ensures lo <= hi <= x ==> r == hi
  {
    if x < lo then lo else if x > hi then hi else x
  }

  /** Total apparent movement: the distance between the transformed "from" and
      "to" positions plus the distance between the transformed "from" and "to"
      sizes. A missing target position, size or transform defaults to the
      corresponding "from" value. */
  function Movement<T>(g: Geometry<T>, layer: LayerState<T>, fromPosition: Point,
                       toPosition: Option<Point>, size: Option<Size>, transform: Option<T>): (r: real)
    ensures IsDistance(g.distance) ==> r >= 0.0
    ensures IsDistance(g.distance) && toPosition.GetOr(fromPosition) == fromPosition
            && size.GetOr(layer.size) == layer.size && transform.GetOr(layer.transform) == layer.transform
            ==> r == 0.0
  {
    var fromPos := fromPosition;
    var toPos := toPosition.GetOr(fromPos);
    var fromSize := layer.size;
    var toSize := size.GetOr(fromSize);
    var fromTransform := layer.transform;
    var toTransform := transform.GetOr(fromTransform);

    var realFromPos := Add(g.transformPoint(Origin, fromTransform), fromPos);
    var realToPos := Add(g.transformPoint(Origin, toTransform), toPos);
    var realFromSize := g.transformSize(fromSize, fromTransform);
    var realToSize := g.transformSize(toSize, toTransform);

    g.distance(realFromPos, realToPos) + g.distance(AsPoint(realFromSize), AsPoint(realToSize))
  }

  /** Maps a movement onto a duration: constant below 0 and above the cap, linear in between. */
  function DurationFor(movement: real): (d: real)
    ensures BaseDuration <= d <= LongestDuration
    ensures movement <= 0.0 ==> d == BaseDuration
    ensures movement >= MovementCap ==> d == LongestDuration
  {
    BaseDuration + Clamp(movement, 0.0, MovementCap) / PointsPerSecond
  }

  /** `UIView.optimizedDuration(fromPosition:toPosition:size:transform:)`. */
  function OptimizedDuration<T>(g: Geometry<T>, layer: LayerState<T>, fromPosition: Point,
                                toPosition: Option<Point>, size: Option<Size>, transform: Option<T>): (d: real)
    ensures BaseDuration <= d <= LongestDuration
  {
    DurationFor(Movement(g, layer, fromPosition, toPosition, size, transform))
  }

  /** The band's end points as the code computes them: exactly 0.208 s for no
      movement and 0.208 + 1/6 s (just under 0.375 s) at the cap. */
  lemma BandEndPoints()
    ensures DurationFor(0.0) == 0.208
    ensures DurationFor(500.0) == 0.208 + 1.0 / 6.0
    ensures DurationFor(500.0) < 0.375
  {
  }

  /** Inside the band the duration is linear in the movement with slope 1/3000. */
  lemma DurationLinear(m1: real, m2: real)
    requires 0.0 <= m1 <= MovementCap && 0.0 <= m2 <= MovementCap
    ensures DurationFor(m2) - DurationFor(m1) == (m2 - m1) / PointsPerSecond
  {
  }

  /** Strictly increasing inside the band. */
  lemma DurationStrictlyIncreasing(m1: real, m2: real)
    requires 0.0 <= m1 < m2 <= MovementCap
    ensures DurationFor(m1) < DurationFor(m2)
  {
    DurationLinear(m1, m2);
  }

  /** Never decreasing anywhere, and constant outside the band. */
  lemma DurationMonotonic(m1: real, m2: real)
    requires m1 <= m2
    ensures DurationFor(m1) <= DurationFor(m2)
    ensures m2 <= 0.0 ==> DurationFor(m1) == DurationFor(m2)
    ensures MovementCap <= m1 ==> DurationFor(m1) == DurationFor(m2)
  {
  }

  /** When the target position, size and transform are absent (or equal to the
      current values) nothing moves and the duration is exactly the base 0.208 s. */
  lemma NoChangeGivesBaseDuration<T>(g: Geometry<T>, layer: LayerState<T>, fromPosition: Point,
                                     toPosition: Option<Point>, size: Option<Size>, transform: Option<T>)
    requires IsDistance(g.distance)
    requires toPosition.GetOr(fromPosition) == fromPosition
    requires size.GetOr(layer.size) == layer.size
    requires transform.GetOr(layer.transform) == layer.transform
    ensures Movement(g, layer, fromPosition, toPosition, size, transform) == 0.0
    ensures OptimizedDuration(g, layer, fromPosition, toPosition, size, transform) == BaseDuration
  {
  }
}
