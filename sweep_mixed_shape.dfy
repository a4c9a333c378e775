/** The mixed sweep shape: a profile of straight, spline and circle
    connections swept along a spline path. The model keeps its attributes,
    the path-workplane rule its setter enforces, the fingerprint of its
    attributes, and the cache that rebuilds the solid only when that
    fingerprint differs from the one recorded by the last build. The solid
    itself is the kernel-independent recipe `create_solid` hands to the CAD
    kernel. */
module SweepMixed {
  import opened Wrappers
  import opened Paramak
  import opened Connections
  import opened Sweeps

  /** One drawing call on the face workplane. */
  datatype DrawOp =
    | SplineThrough(pts: seq<Point>)
    | PolylineThrough(pts: seq<Point>)
    | ArcThrough(start: Point, mid: Point, end: Point)

  /** The recipe of the swept solid: the path, the two faces drawn
      `distance` apart at the path's two ends, and the placement and cut
      applied to the result. */
  datatype MixedSweep = MixedSweep(
    pathWorkplane: string,
    pathPoints: seq<Point>,
    workplane: string,
    runs: seq<Run>,
    face: seq<DrawOp>,
    distance: real,
    placement: Placement,
    cut: Option<CutTarget>)

  /** How one run is drawn: a spline or a polyline through its points, or,
      for a circle run, a three-point arc from its first point through its
      second to its third; a circle run of fewer than three points raises
      IndexError. */
  function DrawRun(run: Run): (r: Result<DrawOp>)
    ensures r.Err? <==> run.tag == Circle && |run.pts| < 3
    ensures r.Err? ==> r.error == IndexError
    ensures r.Ok? && run.tag == Circle ==>
      r.value.ArcThrough? && [r.value.start, r.value.mid, r.value.end] == run.pts[..3]
    ensures r.Ok? && run.tag != Circle ==> !r.value.ArcThrough? && r.value.pts == run.pts
    ensures r.Ok? ==> (r.value.SplineThrough? <==> run.tag == Spline)
  {
    match run.tag
    case Spline => Ok(SplineThrough(run.pts))
    case Straight => Ok(PolylineThrough(run.pts))
    case Circle => if |run.pts| < 3 then Err(IndexError) else Ok(ArcThrough(run.pts[0], run.pts[1], run.pts[2]))
  }

  /** The face drawing of all runs in order, failing at the first run that
      cannot be drawn. */
  function DrawRuns(runs: seq<Run>): (r: Result<seq<DrawOp>>)
    ensures r.Err? <==> exists k :: 0 <= k < |runs| && DrawRun(runs[k]).Err?
    ensures r.Err? ==> r.error == IndexError
    ensures r.Ok? ==> |r.value| == |runs| && forall k :: 0 <= k < |runs| ==> Ok(r.value[k]) == DrawRun(runs[k])
  {
    if |runs| == 0 then Ok([])
    else
      match DrawRuns(runs[..|runs| - 1])
      case Err(e) => Err(e)
      case Ok(ops) =>
        match DrawRun(Last(runs))
        case Err(e) => Err(e)
        case Ok(op) => Ok(ops + [op])
  }

  /** A circle run past its third point draws no arc through the points
      after it: they do not reach the kernel. */
  lemma ArcUsesThreePoints(tag: Connection, pts: seq<Point>, extra: seq<Point>)
    requires tag == Circle && |pts| == 3
    ensures DrawRun(Run(tag, pts + extra)) == DrawRun(Run(tag, pts))
  {
  }

  /** The recipe `create_solid` builds from the attributes, failing as it
      fails: an empty path at its ends, a profile of fewer than two entries
      at `connections[0]`, a short circle run when it is drawn. */
  function SweepOf(points: seq<TaggedPoint>, pathPoints: seq<Point>, pathWorkplane: string,
                   workplane: string, placement: Placement, cut: Option<CutTarget>): (r: Result<MixedSweep>)
    ensures |pathPoints| == 0 ==> r == Err(IndexError)
    ensures |pathPoints| > 0 && |points| < 2 ==> r == Err(IndexError)
    ensures r.Ok? <==>
      && |pathPoints| > 0 && |points| >= 2
      && DrawRuns(Close(Group(points[..|points| - 1]), points[0].pt)).Ok?
    ensures r.Err? ==> r.error == IndexError
    ensures r.Ok? ==>
      && r.value.runs == Close(Group(points[..|points| - 1]), points[0].pt)
      && DrawRuns(r.value.runs) == Ok(r.value.face)
      && SweepDistance(pathPoints, workplane) == Ok(r.value.distance)
      && r.value.pathPoints == pathPoints && r.value.pathWorkplane == pathWorkplane
      && r.value.workplane == workplane && r.value.placement == placement && r.value.cut == cut
  {
    match SweepDistance(pathPoints, workplane)
    case Err(e) => Err(e)
    case Ok(distance) =>
      if |points| < 2 then Err(IndexError)
      else
        var runs := Close(Group(points[..|points| - 1]), points[0].pt);
        match DrawRuns(runs)
        case Err(e) => Err(e)
        case Ok(face) => Ok(MixedSweep(pathWorkplane, pathPoints, workplane, runs, face, distance, placement, cut))
  }

  /** The face of a built sweep is drawn from alternating, chained runs that
      start and end at the profile's first point and read back as the
      profile without its last entry (and without the last-but-one when that
      already sits at the first point). */
  lemma SweepFace(points: seq<TaggedPoint>, pathPoints: seq<Point>, pathWorkplane: string,
                  workplane: string, placement: Placement, cut: Option<CutTarget>)
    requires SweepOf(points, pathPoints, pathWorkplane, workplane, placement, cut).Ok?
    ensures var s := SweepOf(points, pathPoints, pathWorkplane, workplane, placement, cut).value;
      var ps := points[..|points| - 1];
      && Alternating(s.runs) && Chained(s.runs) && |s.face| == |s.runs| == 1 + TagChanges(ps)
      && s.runs[0].pts[0] == points[0].pt && Last(Last(s.runs).pts) == points[0].pt
      && Ungroup(s.runs) == if Last(ps).pt == points[0].pt then ps[..|ps| - 1] else ps
  {
    GroupedProfile(points);
  }

  /** The mixed sweep shape's attributes, the recorded fingerprint and the
      cached solid. */
  class SweepMixedShape {
    const render: Renderer
    var points: seq<TaggedPoint>
    var pathPoints: seq<Point>
    var pathWorkplane: string
    var workplane: string
    var name: Option<string>
    var color: Option<seq<real>>
    var materialTag: Option<string>
    var stpFilename: Option<string>
    var azimuthPlacementAngle: Placement
    var cut: Option<CutTarget>
    var hashValue: Option<string>
    var solid: Option<MixedSweep>

    /** The attribute assignments of `__init__` other than the path
        workplane, which its checking setter stores afterwards. No solid is
        cached yet. */
    constructor (render: Renderer, points: seq<TaggedPoint>, pathPoints: seq<Point>, workplane: string,
                 stpFilename: Option<string>, color: Option<seq<real>>, azimuthPlacementAngle: Placement,
                 cut: Option<CutTarget>, materialTag: Option<string>, name: Option<string>,
                 hashValue: Option<string>)
      ensures this.render == render && this.points == points && this.pathPoints == pathPoints
      ensures this.workplane == workplane && this.stpFilename == stpFilename && this.color == color
      ensures this.azimuthPlacementAngle == azimuthPlacementAngle && this.cut == cut
      ensures this.materialTag == materialTag && this.name == name && this.hashValue == hashValue
      ensures pathWorkplane == [] && solid == None
    {
      this.render := render;
      this.points := points;
      this.pathPoints := pathPoints;
      this.workplane := workplane;
      this.stpFilename := stpFilename;
      this.color := color;
      this.azimuthPlacementAngle := azimuthPlacementAngle;
      this.cut := cut;
      this.materialTag := materialTag;
      this.name := name;
      this.hashValue := hashValue;
      pathWorkplane := [];
      solid := None;
    }

    /** The string `get_hash` digests: the textual forms of points, path
        points, path workplane, workplane, name, color, material tag, STEP
        file name, placement and cut, in that order. */
    function Fingerprint(): string
      reads this`points, this`pathPoints, this`pathWorkplane, this`workplane, this`name
      reads this`color, this`materialTag, this`stpFilename, this`azimuthPlacementAngle, this`cut
    {
      render.points(points)
        + PathAndStyleText(render, pathPoints, pathWorkplane, workplane, name, color, materialTag,
                           stpFilename, azimuthPlacementAngle, cut)
    }

    /** `get_hash`: the digest of the fingerprint. */
    function GetHash(): string
      reads this`points, this`pathPoints, this`pathWorkplane, this`workplane, this`name
      reads this`color, this`materialTag, this`stpFilename, this`azimuthPlacementAngle, this`cut
    {
      render.digest(Fingerprint())
    }

    /** The `path_workplane` setter: the value is stored only when it
        starts with the workplane's letter and is not the workplane. */
    method SetPathWorkplane(value: string) returns (o: Outcome)
      modifies this`pathWorkplane
      ensures o == CheckPathWorkplane(value, workplane)
      ensures pathWorkplane == if o.Pass? then value else old(pathWorkplane)
    {
      if |value| == 0 || |workplane| == 0 {
        return Fail(IndexError);
      }
      if value[0] != workplane[0] {
        return Fail(ValueError(SameLetterMessage));
      } else if value == workplane {
        return Fail(ValueError(DifferentMessage));
      }
      pathWorkplane := value;
      o := Pass;
    }

    /** The face drawing loop of `create_solid`, one kernel call per run. */
    static method DrawFace(runs: seq<Run>) returns (r: Result<seq<DrawOp>>)
      ensures r == DrawRuns(runs)
    {
      var face: seq<DrawOp> := [];
      var k := 0;
      while k < |runs|
        invariant 0 <= k <= |runs|
        invariant DrawRuns(runs[..k]) == Ok(face)
      {
        assert runs[..k + 1][..k] == runs[..k];
        var op := DrawRun(runs[k]);
        if op.Err? {
          assert DrawRuns(runs[..k + 1]).Err?;
          DrawRunsFailsOnPrefix(runs, k + 1);
          return Err(op.error);
        }
        face := face + [op.value];
        k := k + 1;
      }
      assert runs[..k] == runs;
      r := Ok(face);
    }

    /** `create_solid`: it records the fingerprint's digest first, then
        builds the recipe and caches it; when building raises, the new
        digest stays recorded and the old solid stays cached. */
    method CreateSolid() returns (r: Result<MixedSweep>)
      modifies this`hashValue, this`solid
      ensures hashValue == Some(GetHash())
      ensures r == SweepOf(points, pathPoints, pathWorkplane, workplane, azimuthPlacementAngle, cut)
      ensures solid == if r.Ok? then Some(r.value) else old(solid)
    {
      hashValue := Some(GetHash());
      var distance := SweepDistance(pathPoints, workplane);
      if distance.Err? {
        return Err(distance.error);
      }
      var runs := GroupConnections(points);
      if runs.Err? {
        return Err(runs.error);
      }
      var face := DrawFace(runs.value);
      if face.Err? {
        return Err(face.error);
      }
      r := Ok(MixedSweep(pathWorkplane, pathPoints, workplane, runs.value, face.value, distance.value,
                         azimuthPlacementAngle, cut));
      solid := Some(r.value);
    }

    /** The `solid` getter: it rebuilds exactly when the current digest
        differs from the recorded one and otherwise returns the cached
        solid untouched. */
    method Solid() returns (r: Result<Option<MixedSweep>>)
      modifies this`hashValue, this`solid
      ensures hashValue == Some(GetHash())
      ensures old(hashValue) == Some(GetHash()) ==> r == Ok(old(solid)) && solid == old(solid)
      ensures old(hashValue) != Some(GetHash()) ==>
        var built := SweepOf(points, pathPoints, pathWorkplane, workplane, azimuthPlacementAngle, cut);
        && solid == (if built.Ok? then Some(built.value) else old(solid))
        && r == (if built.Ok? then Ok(Some(built.value)) else Err(built.error))
    {
      if Some(GetHash()) != hashValue {
        var built := CreateSolid();
        if built.Err? {
          return Err(built.error);
        }
      }
      r := Ok(solid);
    }
  }

  /** The digest depends on the ten listed attributes only: two shapes
      that agree on them have the same hash, whatever their recorded hash
      and cached solid. */
  lemma HashDependsOnAttributes(a: SweepMixedShape, b: SweepMixedShape)
    requires a.render == b.render && a.points == b.points && a.pathPoints == b.pathPoints
    requires a.pathWorkplane == b.pathWorkplane && a.workplane == b.workplane && a.name == b.name
    requires a.color == b.color && a.materialTag == b.materialTag && a.stpFilename == b.stpFilename
    requires a.azimuthPlacementAngle == b.azimuthPlacementAngle && a.cut == b.cut
    ensures a.GetHash() == b.GetHash()
  {
  }

  /** Once a prefix of the runs fails to draw, so do all the runs. */
  lemma DrawRunsFailsOnPrefix(runs: seq<Run>, k: nat)
    requires k <= |runs| && DrawRuns(runs[..k]).Err?
    ensures DrawRuns(runs).Err?
  {
    var j :| 0 <= j < k && DrawRun(runs[..k][j]).Err?;
    assert runs[..k][j] == runs[j];
  }

  /** `SweepMixedShape(...)`: the attributes, then the checking
      `path_workplane` setter, whose ValueError or IndexError propagates. */
  method NewSweepMixedShape(render: Renderer, points: seq<TaggedPoint>, pathPoints: seq<Point>,
                            pathWorkplane: string, workplane: string, stpFilename: Option<string>,
                            color: Option<seq<real>>, azimuthPlacementAngle: Placement,
                            cut: Option<CutTarget>, materialTag: Option<string>, name: Option<string>,
                            hashValue: Option<string>)
    returns (r: Result<SweepMixedShape>)
    ensures r.Err? <==> CheckPathWorkplane(pathWorkplane, workplane).Fail?
    ensures r.Err? ==> r.error == CheckPathWorkplane(pathWorkplane, workplane).error
    ensures r.Ok? ==> fresh(r.value) && r.value.pathWorkplane == pathWorkplane && r.value.workplane == workplane
    ensures r.Ok? ==> r.value.points == points && r.value.pathPoints == pathPoints && r.value.render == render
    ensures r.Ok? ==> r.value.hashValue == hashValue && r.value.solid == None
  {
    var shape := new SweepMixedShape(render, points, pathPoints, workplane, stpFilename, color,
                                     azimuthPlacementAngle, cut, materialTag, name, hashValue);
    var o := shape.SetPathWorkplane(pathWorkplane);
    if o.Fail? {
      return Err(o.error);
    }
    r := Ok(shape);
  }

  /** Reading the solid right after `create_solid`, and reading it again,
      rebuilds nothing: both reads return what the build cached, which is
      the old solid when the build raised. */
  method ReadAfterCreate(shape: SweepMixedShape) returns (built: Result<MixedSweep>, first: Result<Option<MixedSweep>>, second: Result<Option<MixedSweep>>)
    modifies shape`hashValue, shape`solid
    ensures built.Ok? ==> first == Ok(Some(built.value))
    ensures built.Err? ==> first == Ok(old(shape.solid))
    ensures second == first
    ensures shape.hashValue == Some(shape.GetHash())
  {
    built := shape.CreateSolid();
    first := shape.Solid();
    second := shape.Solid();
  }
}
