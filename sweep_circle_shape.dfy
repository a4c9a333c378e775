/** The circle sweep shape: a circle of given radius swept along a spline
    path. The model keeps its attributes, the setters that refuse a profile
    and validate the path workplane, the fingerprint of its attributes, which
    includes the radius, and the cache that rebuilds the solid only when the
    fingerprint differs from the one recorded by the last build. */
module SweepCircle {
  import opened Wrappers
  import opened Paramak
  import opened Sweeps
  import SweepMixed

  /** The recipe of the swept solid: a circle of `radius` at each end of the
      path, `distance` apart, and the placement and cut applied to it. */
  datatype CircleSweep = CircleSweep(
    pathWorkplane: string,
    pathPoints: seq<Point>,
    workplane: string,
    radius: real,
    distance: real,
    placement: Placement,
    cut: Option<CutTarget>)

  const UnusedPointsMessage: string := "points is an unused variable in this parametric shape"

  /** The recipe `create_solid` builds; an empty path raises IndexError at
      its ends. */
  function CircleSweepOf(pathPoints: seq<Point>, pathWorkplane: string, workplane: string, radius: real,
                         placement: Placement, cut: Option<CutTarget>): (r: Result<CircleSweep>)
    ensures r.Err? <==> |pathPoints| == 0
    ensures r.Err? ==> r.error == IndexError
    ensures r.Ok? ==> SweepDistance(pathPoints, workplane) == Ok(r.value.distance)
    ensures r.Ok? ==> r.value.pathPoints == pathPoints && r.value.radius == radius
    ensures r.Ok? ==> r.value.pathWorkplane == pathWorkplane && r.value.workplane == workplane
    ensures r.Ok? ==> r.value.placement == placement && r.value.cut == cut
  {
    match SweepDistance(pathPoints, workplane)
    case Err(e) => Err(e)
    case Ok(distance) => Ok(CircleSweep(pathWorkplane, pathPoints, workplane, radius, distance, placement, cut))
  }

  /** The circle sweep shape's attributes, the recorded fingerprint and the
      cached solid. Its `points` stays `None`. */
  class SweepCircleShape {
    const render: Renderer
    var points: Option<seq<TaggedPoint>>
    var radius: real
    var pathPoints: seq<Point>
    var pathWorkplane: string
    var workplane: string
    var name: Option<string>
    var color: Option<seq<real>>
    var materialTag: Option<string>
    var stpFilename: Option<string>
    var azimuthPlacementAngle: Placement
    var cut: Option<CutTarget>
    var hashValue: Option<string>
    var solid: Option<CircleSweep>

    /** The attribute assignments of `__init__` other than the two checked
        ones, `points` and the path workplane, which their setters store
        afterwards. No solid is cached yet. */
    constructor (render: Renderer, radius: real, pathPoints: seq<Point>, workplane: string,
                 stpFilename: Option<string>, color: Option<seq<real>>, azimuthPlacementAngle: Placement,
                 cut: Option<CutTarget>, materialTag: Option<string>, name: Option<string>,
                 hashValue: Option<string>)
      ensures this.render == render && this.radius == radius && this.pathPoints == pathPoints
      ensures this.workplane == workplane && this.stpFilename == stpFilename && this.color == color
      ensures this.azimuthPlacementAngle == azimuthPlacementAngle && this.cut == cut
      ensures this.materialTag == materialTag && this.name == name && this.hashValue == hashValue
      ensures points == None && pathWorkplane == [] && solid == None
    {
      this.render := render;
      this.radius := radius;
      this.pathPoints := pathPoints;
      this.workplane := workplane;
      this.stpFilename := stpFilename;
      this.color := color;
      this.azimuthPlacementAngle := azimuthPlacementAngle;
      this.cut := cut;
      this.materialTag := materialTag;
      this.name := name;
      this.hashValue := hashValue;
      points := None;
      pathWorkplane := [];
      solid := None;
    }

    /** The string `get_hash` digests: the textual forms of points, radius,
        path points, path workplane, workplane, name, color, material tag,
        STEP file name, placement and cut, in that order. */
    function Fingerprint(): string
      reads this`points, this`radius, this`pathPoints, this`pathWorkplane, this`workplane, this`name
      reads this`color, this`materialTag, this`stpFilename, this`azimuthPlacementAngle, this`cut
    {
      RenderOrNone(render.points, points) + render.radius(radius)
        + PathAndStyleText(render, pathPoints, pathWorkplane, workplane, name, color, materialTag,
                           stpFilename, azimuthPlacementAngle, cut)
    }

    /** `get_hash`: the digest of the fingerprint. */
    function GetHash(): string
      reads this`points, this`radius, this`pathPoints, this`pathWorkplane, this`workplane, this`name
      reads this`color, this`materialTag, this`stpFilename, this`azimuthPlacementAngle, this`cut
    {
      render.digest(Fingerprint())
    }

    /** The `points` setter: only `None` is stored; anything else raises
        ValueError and leaves `points` as it was. */
    method SetPoints(values: Option<seq<TaggedPoint>>) returns (o: Outcome)
      modifies this`points
      ensures values.None? <==> o == Pass
      ensures values.Some? ==> o == Fail(ValueError(UnusedPointsMessage))
      ensures points == if values.None? then None else old(points)
    {
      if values != None {
        return Fail(ValueError(UnusedPointsMessage));
      }
      points := values;
      o := Pass;
    }

    /** The `path_workplane` setter: the value is stored only when it
        starts with the workplane's letter and is not the workplane. */
    method SetPathWorkplane(value: string) returns (o: Outcome)
      modifies this`pathWorkplane
      ensures o == CheckPathWorkplane(value, workplane)
      ensures pathWorkplane == if o.Pass? then value else old(pathWorkplane)
    {
      if |value| == 0 || |workplane| == 0 {
        return Fail(IndexError);
      }
      if value[0] != workplane[0] {
        return Fail(ValueError(SameLetterMessage));
      } else if value == workplane {
        return Fail(ValueError(DifferentMessage));
      }
      pathWorkplane := value;
      o := Pass;
    }

    /** `create_solid`: it records the fingerprint's digest first, then
        builds the recipe and caches it; when the path is empty the new
        digest stays recorded and the old solid stays cached. */
    method CreateSolid() returns (r: Result<CircleSweep>)
      modifies this`hashValue, this`solid
      ensures hashValue == Some(GetHash())
      ensures r == CircleSweepOf(pathPoints, pathWorkplane, workplane, radius, azimuthPlacementAngle, cut)
      ensures solid == if r.Ok? then Some(r.value) else old(solid)
    {
      hashValue := Some(GetHash());
      var distance := SweepDistance(pathPoints, workplane);
      if distance.Err? {
        return Err(distance.error);
      }
      r := Ok(CircleSweep(pathWorkplane, pathPoints, workplane, radius, distance.value, azimuthPlacementAngle, cut));
      solid := Some(r.value);
    }

    /** The `solid` getter: it rebuilds exactly when the current digest
        differs from the recorded one and otherwise returns the cached
        solid untouched. */
    method Solid() returns (r: Result<Option<CircleSweep>>)
      modifies this`hashValue, this`solid
      ensures hashValue == Some(GetHash())
      ensures old(hashValue) == Some(GetHash()) ==> r == Ok(old(solid)) && solid == old(solid)
      ensures old(hashValue) != Some(GetHash()) ==>
        var built := CircleSweepOf(pathPoints, pathWorkplane, workplane, radius, azimuthPlacementAngle, cut);
        && solid == (if built.Ok? then Some(built.value) else old(solid))
        && r == (if built.Ok? then Ok(Some(built.value)) else Err(built.error))
    {
      if Some(GetHash()) != hashValue {
        var built := CreateSolid();
        if built.Err? {
          return Err(built.error);
        }
      }
      r := Ok(solid);
    }

    /** The `radius` setter. */
    method SetRadius(value: real)
      modifies this`radius
      ensures radius == value
    {
      radius := value;
    }
  }

  /** `SweepCircleShape(...)`: the attributes, then the checking `points`
      and `path_workplane` setters in that order, whose ValueError or
      IndexError propagates. */
  method NewSweepCircleShape(render: Renderer, radius: real, pathPoints: seq<Point>,
                             points: Option<seq<TaggedPoint>>, pathWorkplane: string, workplane: string,
                             stpFilename: Option<string>, color: Option<seq<real>>,
                             azimuthPlacementAngle: Placement, cut: Option<CutTarget>,
                             materialTag: Option<string>, name: Option<string>, hashValue: Option<string>)
    returns (r: Result<SweepCircleShape>)
    ensures points.Some? ==> r == Err(ValueError(UnusedPointsMessage))
    ensures points.None? ==> (r.Err? <==> CheckPathWorkplane(pathWorkplane, workplane).Fail?)
    ensures points.None? && r.Err? ==> r.error == CheckPathWorkplane(pathWorkplane, workplane).error
    ensures r.Ok? ==> fresh(r.value) && r.value.points == None && r.value.radius == radius && r.value.render == render
    ensures r.Ok? ==> r.value.pathWorkplane == pathWorkplane && r.value.workplane == workplane
    ensures r.Ok? ==> r.value.pathPoints == pathPoints && r.value.hashValue == hashValue && r.value.solid == None
  {
    var shape := new SweepCircleShape(render, radius, pathPoints, workplane, stpFilename, color,
                                      azimuthPlacementAngle, cut, materialTag, name, hashValue);
    var o := shape.SetPoints(points);
    if o.Fail? {
      return Err(o.error);
    }
    o := shape.SetPathWorkplane(pathWorkplane);
    if o.Fail? {
      return Err(o.error);
    }
    r := Ok(shape);
  }

  /** The circle shape's fingerprint is the mixed shape's with the radius
      inserted after the profile: a mixed shape with the same path, planes,
      style and placement leaves the same text after its profile. */
  lemma FingerprintAddsRadius(c: SweepCircleShape, m: SweepMixed.SweepMixedShape)
    requires c.render == m.render && c.pathPoints == m.pathPoints && c.pathWorkplane == m.pathWorkplane
    requires c.workplane == m.workplane && c.name == m.name && c.color == m.color
    requires c.materialTag == m.materialTag && c.stpFilename == m.stpFilename
    requires c.azimuthPlacementAngle == m.azimuthPlacementAngle && c.cut == m.cut
    ensures var profile := m.render.points(m.points);
      && |profile| <= |m.Fingerprint()|
      && c.Fingerprint() == RenderOrNone(c.render.points, c.points) + c.render.radius(c.radius)
                             + m.Fingerprint()[|profile|..]
  {
    var profile := m.render.points(m.points);
    var rest := PathAndStyleText(m.render, m.pathPoints, m.pathWorkplane, m.workplane, m.name, m.color,
                                 m.materialTag, m.stpFilename, m.azimuthPlacementAngle, m.cut);
    assert m.Fingerprint() == profile + rest;
    assert m.Fingerprint()[|profile|..] == rest;
  }

  /** The digest depends on the eleven listed attributes only, the radius
      among them: two shapes that agree on them have the same hash. */
  lemma HashDependsOnAttributes(a: SweepCircleShape, b: SweepCircleShape)
    requires a.render == b.render && a.points == b.points && a.radius == b.radius
    requires a.pathPoints == b.pathPoints && a.pathWorkplane == b.pathWorkplane
    requires a.workplane == b.workplane && a.name == b.name && a.color == b.color
    requires a.materialTag == b.materialTag && a.stpFilename == b.stpFilename
    requires a.azimuthPlacementAngle == b.azimuthPlacementAngle && a.cut == b.cut
    ensures a.GetHash() == b.GetHash()
  {
  }

  /** Changing the radius after a build: the next read rebuilds exactly
      when the new digest differs from the recorded one, and a digest that
      tells the two fingerprints apart makes it rebuild with the new radius. */
  method ResizeAfterCreate(shape: SweepCircleShape, value: real) returns (read: Result<Option<CircleSweep>>)
    requires |shape.pathPoints| > 0
    modifies shape`hashValue, shape`solid, shape`radius
    ensures shape.radius == value
    ensures old(shape.GetHash()) == shape.GetHash() ==> read.Ok? && read.value == shape.solid
    ensures old(shape.GetHash()) != shape.GetHash() ==>
      read.Ok? && read.value.Some? && read.value.value.radius == value
  {
    var built := shape.CreateSolid();
    shape.SetRadius(value);
    read := shape.Solid();
  }
}
