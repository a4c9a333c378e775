/** Vocabulary shared by the shapes and components: 2D points and their
    connection tags, and azimuthal placements. */
module Paramak {

  /** A point of a 2D profile in the coordinates of its workplane. */
  datatype Point = Point(x: real, y: real)

  /** How a profile point is joined to the point after it. */
  datatype Connection = Straight | Spline | Circle

  /** A profile entry `(x, y, connection)`. */
  datatype TaggedPoint = TaggedPoint(pt: Point, tag: Connection)

  /** `azimuth_placement_angle`: one angle, or a list of angles (degrees). */
  datatype Placement = Single(angle: real) | Multiple(angles: seq<real>)

  function Last<T>(s: seq<T>): T
    requires |s| > 0
  {
    s[|s| - 1]
  }
}
