/** Points and line segments handed to the 3D scene, and the ground-plane
    "footprint" and "drop line" that anchor the target point to the grid. */
module Geometry {

  /** A three-component point `[x, y, z]`. */
  datatype Point3 = Point3(x: real, y: real, z: real)

  /** A line segment, as the two-point `points` list of a drawn line. */
  datatype Segment = Segment(from: Point3, to: Point3)

  const Origin := Point3(0.0, 0.0, 0.0)

  /** The projection of `p` onto the z = 0 plane. */
  function Ground(p: Point3): Point3
  {
    Point3(p.x, p.y, 0.0)
  }

  /** A segment that runs parallel to the x axis or to the y axis and stays on its z level. */
  predicate AxisParallel(s: Segment)
  {
    s.from.z == s.to.z &&
    ((s.from.y == s.to.y) || (s.from.x == s.to.x))
  }

  /** A segment that runs parallel to the z axis. */
  predicate Vertical(s: Segment)
  {
    s.from.x == s.to.x && s.from.y == s.to.y
  }

  /** The four segments of the rectangle drawn on the ground plane between the
      origin and the ground projection of the target. */
  function Footprint(target: Point3): (loop: seq<Segment>)
    ensures |loop| == 4
    // its corners, in order: (0,0,0), (x,0,0), (x,y,0), (0,y,0)
    ensures loop[0].from == Origin
    ensures loop[1].from == Point3(target.x, 0.0, 0.0)
    ensures loop[2].from == Ground(target)
    ensures loop[3].from == Point3(0.0, target.y, 0.0)
    // a closed path: each segment begins where the previous one ended
    ensures forall i :: 0 < i < 4 ==> loop[i].from == loop[i - 1].to
    ensures loop[3].to == loop[0].from
    // every corner is on the ground, with x in {0, target.x} and y in {0, target.y}
    ensures forall i :: 0 <= i < 4 ==>
      loop[i].from.z == 0.0 &&
      (loop[i].from.x == 0.0 || loop[i].from.x == target.x) &&
      (loop[i].from.y == 0.0 || loop[i].from.y == target.y)
    ensures forall i :: 0 <= i < 4 ==> AxisParallel(loop[i])
  {
    var corner := Ground(target);
    [ Segment(Origin, Point3(target.x, 0.0, 0.0)),
      Segment(Point3(target.x, 0.0, 0.0), corner),
      Segment(corner, Point3(0.0, target.y, 0.0)),
      Segment(Point3(0.0, target.y, 0.0), Origin) ]
  }

  /** The vertical line from the footprint's far corner up (or down) to the target. */
  function DropLine(target: Point3): (s: Segment)
    ensures s.to == target
    ensures Vertical(s) && s.from.z == 0.0
    ensures s.from == Footprint(target)[1].to
  {
    Segment(Ground(target), target)
  }
}
