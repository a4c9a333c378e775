/** What the two sweep shapes share: the rule relating the path's workplane
    to the profile's, the signed sweep distance between the end faces, and
    the pieces the attribute fingerprint is made of. The CAD kernel that
    sweeps the faces is not modelled. */
module Sweeps {
  import opened Wrappers
  import opened Paramak

  /** Another shape this one is cut by, known only by identity. */
  datatype CutTarget = CutTarget(id: nat)

  /** The textual forms `get_hash` concatenates, for the attributes whose
      `str` is not the attribute itself, and the digest of the result. The
      blake2b digest and Python's `str` of lists, tuples, numbers and CAD
      objects are not modelled: they are given functions. */
  datatype Renderer = Renderer(
    points: seq<TaggedPoint> -> string,
    pathPoints: seq<Point> -> string,
    radius: real -> string,
    color: seq<real> -> string,
    placement: Placement -> string,
    cut: CutTarget -> string,
    digest: string -> string)

  /** `str` of an optional string: `"None"` or the string itself. */
  function StrOrNone(s: Option<string>): (r: string)
    ensures s.Some? ==> r == s.value
    ensures s.None? ==> r == "None"
  {
    match s
    case None => "None"
    case Some(v) => v
  }

  /** `str` of an optional value rendered by `render`. */
  function RenderOrNone<T>(render: T -> string, v: Option<T>): string
  {
    match v
    case None => "None"
    case Some(x) => render(x)
  }

  /** The part of the fingerprint both sweep shapes share, after the
      profile: the textual forms of path points, path workplane, workplane,
      name, color, material tag, STEP file name, placement and cut, in that
      order. */
  function PathAndStyleText(render: Renderer, pathPoints: seq<Point>, pathWorkplane: string, workplane: string,
                            name: Option<string>, color: Option<seq<real>>, materialTag: Option<string>,
                            stpFilename: Option<string>, placement: Placement, cut: Option<CutTarget>): string
  {
    render.pathPoints(pathPoints) + pathWorkplane + workplane + StrOrNone(name)
      + RenderOrNone(render.color, color) + StrOrNone(materialTag) + StrOrNone(stpFilename)
      + render.placement(placement) + RenderOrNone(render.cut, cut)
  }

  const SameLetterMessage: string := "workplane and path_workplane must start with the same letter"
  const DifferentMessage: string := "workplane and path_workplane must be different"

  /** The `path_workplane` setter's test of `value` against `workplane`:
      indexing an empty name raises IndexError; a different first letter,
      or the very same plane, raises ValueError; anything else is stored. */
  function CheckPathWorkplane(value: string, workplane: string): (o: Outcome)
    ensures o == Pass <==> |value| > 0 && |workplane| > 0 && value[0] == workplane[0] && value != workplane
    ensures o == Fail(IndexError) <==> |value| == 0 || |workplane| == 0
    ensures o == Fail(ValueError(SameLetterMessage)) <==> |value| > 0 && |workplane| > 0 && value[0] != workplane[0]
    ensures o == Fail(ValueError(DifferentMessage)) <==> |value| > 0 && value == workplane
  {
    if |value| == 0 || |workplane| == 0 then Fail(IndexError)
    else if value[0] != workplane[0] then Fail(ValueError(SameLetterMessage))
    else if value == workplane then Fail(ValueError(DifferentMessage))
    else Pass
  }

  /** A path plane equal to the profile plane is refused, as in the
      SweepStraightShape test that asks for XY along XY. */
  lemma SamePlaneRefused()
    ensures CheckPathWorkplane("XY", "XY") == Fail(ValueError(DifferentMessage))
  {
  }

  /** The six workplane names. */
  predicate IsPlane(w: string)
  {
    w in {"XY", "XZ", "YX", "YZ", "ZX", "ZY"}
  }

  /** Between two workplane names, a path plane is accepted exactly when it
      shares the profile plane's first axis and not its second: each plane
      admits exactly one path plane. */
  lemma AcceptedPathPlanes(value: string, workplane: string)
    requires IsPlane(value) && IsPlane(workplane)
    ensures CheckPathWorkplane(value, workplane) == Pass <==> value[0] == workplane[0] && value[1] != workplane[1]
    ensures CheckPathWorkplane(value, workplane) == Pass <==> value == [workplane[0], Other(workplane[0], workplane[1])]
  {
  }

  /** The axis that is neither `a` nor `b`. */
  function Other(a: char, b: char): char
  {
    if a != 'X' && b != 'X' then 'X' else if a != 'Y' && b != 'Y' then 'Y' else 'Z'
  }

  /** The profile planes whose normal points against the offset direction. */
  predicate Flipped(workplane: string)
  {
    workplane == "XZ" || workplane == "YX" || workplane == "ZY"
  }

  /** The signed distance between the two end faces: how far the path's last
      point lies beyond its first in the path plane's second coordinate,
      negated for the flipped profile planes. An empty path raises
      IndexError. */
  function SweepDistance(pathPoints: seq<Point>, workplane: string): (r: Result<real>)
    ensures r.Err? <==> |pathPoints| == 0
    ensures r.Err? ==> r.error == IndexError
    ensures r.Ok? && !Flipped(workplane) ==> r.value == Last(pathPoints).y - pathPoints[0].y
    ensures r.Ok? && Flipped(workplane) ==> r.value == pathPoints[0].y - Last(pathPoints).y
  {
    if |pathPoints| == 0 then Err(IndexError)
    else
      var distance := Last(pathPoints).y - pathPoints[0].y;
      Ok(if Flipped(workplane) then -distance else distance)
  }

  /** A path with its points in reverse order. */
  function ReversePath(ps: seq<Point>): (r: seq<Point>)
    ensures |r| == |ps|
    ensures forall i :: 0 <= i < |ps| ==> r[i] == ps[|ps| - 1 - i]
  {
    if |ps| == 0 then [] else [Last(ps)] + ReversePath(ps[..|ps| - 1])
  }

  /** A path moved by `(dx, dy)`. */
  function Translate(ps: seq<Point>, dx: real, dy: real): (r: seq<Point>)
    ensures |r| == |ps|
  {
    seq(|ps|, i requires 0 <= i < |ps| => Point(ps[i].x + dx, ps[i].y + dy))
  }

  /** Sweeping along the reversed path covers the same distance the other
      way. */
  lemma ReversedPathDistance(ps: seq<Point>, workplane: string)
    requires |ps| > 0
    ensures SweepDistance(ReversePath(ps), workplane).value == -SweepDistance(ps, workplane).value
  {
    var r := ReversePath(ps);
    assert r[0] == Last(ps) && Last(r) == ps[0];
  }

  /** A path moved by any offset sweeps the same distance. */
  lemma TranslatedPathDistance(ps: seq<Point>, workplane: string, dx: real, dy: real)
    requires |ps| > 0
    ensures SweepDistance(Translate(ps, dx, dy), workplane) == SweepDistance(ps, workplane)
  {
    var t := Translate(ps, dx, dy);
    assert t[0].y == ps[0].y + dy;
    assert Last(t).y == Last(ps).y + dy;
  }

  /** The distance depends only on the path's two ends. */
  lemma EndsDecideDistance(ps: seq<Point>, workplane: string)
    requires |ps| > 0
    ensures SweepDistance(ps, workplane) == SweepDistance([ps[0], Last(ps)], workplane)
  {
  }

  /** A path whose last point lies higher than its first sweeps a negative
      distance exactly in the flipped profile planes. */
  lemma RisingPathSign(ps: seq<Point>, workplane: string)
    requires |ps| > 0 && Last(ps).y > ps[0].y
    ensures SweepDistance(ps, workplane).value < 0.0 <==> Flipped(workplane)
  {
  }
}
