/** The Princeton-D toroidal field coil: the closed inner curve assembled
    from two integrated segments, the outer curve offset from it by the
    magnet thickness, the tagged profile and the four inner-leg points, the
    azimuthal placement of the coils and the drawing instructions of
    `create_solid`. The integration and minimisation that produce the two
    segments are not modelled: the segments are inputs. */
module PrincetonD {
  import opened Wrappers
  import opened Paramak
  import opened Connections
  import opened Azimuth

  /** One integrated segment `(R, Z, dZ/dR)`, sampled from `R0` outwards. */
  datatype Segment = Segment(r: seq<real>, z: seq<real>, dzdr: seq<real>)

  /** The inner curve `(R, Z, dz_dr)` of `compute_inner_points`. */
  datatype Curve = Curve(r: seq<real>, z: seq<real>, dzdr: seq<real>)

  /** The outer curve `(new_R, new_Z)` of `compute_outer_points`. */
  datatype Outline = Outline(r: seq<real>, z: seq<real>)

  /** What `find_points` stores: the tagged profile and the inner-leg points. */
  datatype ProfilePoints = ProfilePoints(points: seq<TaggedPoint>, innerLeg: seq<Point>)

  /** The drawing `create_solid` hands to the CAD kernel: the profile drawn
      from its first point as runs of splines and polylines, extruded by
      `depth` both ways, the optional inner-leg polyline, and one copy of the
      coil per placement angle. */
  datatype CoilSketch = CoilSketch(
    workplane: string,
    start: Point,
    runs: seq<Run>,
    depth: real,
    innerLeg: Option<seq<Point>>,
    angles: seq<real>)

  /** `numpy.flip`. */
  function Reverse(s: seq<real>): (r: seq<real>)
    ensures |r| == |s|
  {
    seq(|s|, i requires 0 <= i < |s| => s[|s| - 1 - i])
  }

  /** The numpy slice `a[1:]`, empty when `a` is. */
  function Tail(s: seq<real>): (r: seq<real>)
    ensures |r| == if |s| == 0 then 0 else |s| - 1
  {
    if |s| == 0 then [] else s[1..]
  }

  /** Element-wise negation `-a`. */
  function Negate(s: seq<real>): (r: seq<real>)
    ensures |r| == |s|
  {
    seq(|s|, i requires 0 <= i < |s| => -s[i])
  }

  /** The reflection of a point in the midplane `Z = 0`. */
  function Mirror(p: Point): Point
  {
    Point(p.x, -p.y)
  }

  /** The assembly step of `compute_inner_points`: segment 1 from its far end
      back to `R0`, segment 2 out to its far end, then both again reflected in
      the midplane, each after the first without its shared start sample. */
  function AssembleInner(s1: Segment, s2: Segment): Curve
  {
    Curve(
      Reverse(s1.r) + Tail(s2.r) + Tail(Reverse(s2.r)) + Tail(s1.r),
      Reverse(s1.z) + Tail(s2.z) + Negate(Tail(Reverse(s2.z))) + Negate(Tail(s1.z)),
      Reverse(s1.dzdr) + s2.dzdr)
  }

  /** Both segments hold `n` samples of each quantity. */
  ghost predicate Sampled(s1: Segment, s2: Segment, n: nat)
  {
    |s1.r| == n && |s1.z| == n && |s1.dzdr| == n && |s2.r| == n && |s2.z| == n && |s2.dzdr| == n
  }

  /** Two segments of `n >= 1` samples give `4n - 3` curve points and `2n`
      slopes. */
  lemma CurveLengths(s1: Segment, s2: Segment, n: nat)
    requires n >= 1 && Sampled(s1, s2, n)
    ensures |AssembleInner(s1, s2).r| == 4 * n - 3
    ensures |AssembleInner(s1, s2).z| == 4 * n - 3
    ensures |AssembleInner(s1, s2).dzdr| == 2 * n
  {
  }

  /** Where each curve point comes from: the four blocks are segment 1
      reversed, segment 2, segment 2 reversed and reflected, and segment 1
      reflected. */
  lemma CurveBlocks(s1: Segment, s2: Segment, n: nat)
    requires n >= 1 && Sampled(s1, s2, n)
    ensures var c := AssembleInner(s1, s2);
      |c.r| == 4 * n - 3 && |c.z| == 4 * n - 3 &&
      (forall k :: 0 <= k < n ==> c.r[k] == s1.r[n - 1 - k] && c.z[k] == s1.z[n - 1 - k]) &&
      (forall k :: n <= k < 2 * n - 1 ==> c.r[k] == s2.r[k - n + 1] && c.z[k] == s2.z[k - n + 1]) &&
      (forall k :: 2 * n - 1 <= k < 3 * n - 2 ==> c.r[k] == s2.r[3 * n - 3 - k] && c.z[k] == -s2.z[3 * n - 3 - k]) &&
      (forall k :: 3 * n - 2 <= k < 4 * n - 3 ==> c.r[k] == s1.r[k - 3 * n + 3] && c.z[k] == -s1.z[k - 3 * n + 3])
  {
    var c := AssembleInner(s1, s2);
    var a, b, d, e := Reverse(s1.r), Tail(s2.r), Tail(Reverse(s2.r)), Tail(s1.r);
    assert c.r == a + b + d + e;
    var az, bz, dz, ez := Reverse(s1.z), Tail(s2.z), Negate(Tail(Reverse(s2.z))), Negate(Tail(s1.z));
    assert c.z == az + bz + dz + ez;
    forall k | 2 * n - 1 <= k < 3 * n - 2
      ensures c.r[k] == s2.r[3 * n - 3 - k] && c.z[k] == -s2.z[3 * n - 3 - k]
    {
      assert c.r[k] == d[k - (2 * n - 1)];
      assert c.z[k] == dz[k - (2 * n - 1)];
    }
    forall k | 3 * n - 2 <= k < 4 * n - 3
      ensures c.r[k] == s1.r[k - 3 * n + 3] && c.z[k] == -s1.z[k - 3 * n + 3]
    {
      assert c.r[k] == e[k - (3 * n - 2)];
      assert c.z[k] == ez[k - (3 * n - 2)];
    }
  }

  /** When both segments start at the same `(R0, Z0)`, the curve is symmetric
      about its far point `2n - 2`: the lower half retraces the upper half
      reflected in the midplane, and in particular it ends where it starts,
      reflected. */
  lemma CurveMirror(s1: Segment, s2: Segment, n: nat)
    requires n >= 1 && Sampled(s1, s2, n)
    requires s1.r[0] == s2.r[0] && s1.z[0] == s2.z[0]
    ensures var c := AssembleInner(s1, s2);
      |c.r| == 4 * n - 3 && |c.z| == 4 * n - 3 &&
      forall k :: 2 * n - 1 <= k < 4 * n - 3 ==> c.r[k] == c.r[4 * n - 4 - k] && c.z[k] == -c.z[4 * n - 4 - k]
  {
    CurveBlocks(s1, s2, n);
    var c := AssembleInner(s1, s2);
    forall k | 2 * n - 1 <= k < 4 * n - 3
      ensures c.r[k] == c.r[4 * n - 4 - k] && c.z[k] == -c.z[4 * n - 4 - k]
    {
      if k < 3 * n - 3 {
        assert n <= 4 * n - 4 - k < 2 * n - 1;
      } else if k == 3 * n - 3 {
        assert c.r[3 * n - 3] == s2.r[0] && c.r[n - 1] == s1.r[0];
        assert c.z[3 * n - 3] == -s2.z[0] && c.z[n - 1] == s1.z[0];
      } else {
        assert 0 <= 4 * n - 4 - k < n;
      }
    }
  }

  /** The slopes: segment 1's reversed, then segment 2's. */
  lemma SlopeBlocks(s1: Segment, s2: Segment, n: nat)
    requires Sampled(s1, s2, n)
    ensures var c := AssembleInner(s1, s2);
      |c.dzdr| == 2 * n &&
      (forall k :: 0 <= k < n ==> c.dzdr[k] == s1.dzdr[n - 1 - k]) &&
      (forall k :: n <= k < 2 * n ==> c.dzdr[k] == s2.dzdr[k - n])
  {
  }

  /** `norms[i]` is the length `sqrt(d_i^2 + 1)` of the normal `(-d_i, 1)`. */
  ghost predicate NormsFor(derivative: seq<real>, norms: seq<real>)
  {
    |norms| == |derivative| &&
    forall i :: 0 <= i < |norms| ==> norms[i] > 0.0 && norms[i] * norms[i] == derivative[i] * derivative[i] + 1.0
  }

  /** The outer point beside `(r, z)`: a step of `t` along the unit normal
      `(-d, 1) / norm`. */
  function OuterPoint(r: real, z: real, t: real, d: real, norm: real): Point
    requires norm != 0.0
  {
    Point(r + t * (-d / norm), z + t * (1.0 / norm))
  }

  /** The offset has length `t`, is perpendicular to the tangent `(1, d)` and
      points upwards for `t > 0`; thickness 0 gives the inner point itself,
      and a flat tangent an offset straight up by `t`. */
  lemma OuterPointOffset(r: real, z: real, t: real, d: real, norm: real)
    requires norm > 0.0 && norm * norm == d * d + 1.0
    ensures var p := OuterPoint(r, z, t, d, norm);
      && (p.x - r) * (p.x - r) + (p.y - z) * (p.y - z) == t * t
      && (p.x - r) + (p.y - z) * d == 0.0
      && (t > 0.0 ==> p.y > z)
      && (t == 0.0 ==> p == Point(r, z))
      && (d == 0.0 ==> p == Point(r, z + t))
  {
    var p := OuterPoint(r, z, t, d, norm);
    var u := 1.0 / norm;
    assert u * norm == 1.0;
    assert p.x - r == -(t * d) * u;
    assert p.y - z == t * u;
    assert (p.x - r) * (p.x - r) == (t * t) * (u * u) * (d * d);
    assert (p.y - z) * (p.y - z) == (t * t) * (u * u);
    assert (p.x - r) * (p.x - r) + (p.y - z) * (p.y - z) == (t * t) * (u * u) * (d * d + 1.0);
    assert (u * u) * (norm * norm) == (u * norm) * (u * norm) == 1.0;
    if d == 0.0 {
      assert (norm - 1.0) * (norm + 1.0) == 0.0;
    }
  }

  /** The outer curve for the first `|derivative|` inner points, followed by
      its reflection traversed backwards. */
  function Offset(r: seq<real>, z: seq<real>, t: real, derivative: seq<real>, norms: seq<real>): Outline
    requires |derivative| <= |r| && |derivative| <= |z| && NormsFor(derivative, norms)
  {
    var m := |derivative|;
    var hr := seq(m, i requires 0 <= i < m => OuterPoint(r[i], z[i], t, derivative[i], norms[i]).x);
    var hz := seq(m, i requires 0 <= i < m => OuterPoint(r[i], z[i], t, derivative[i], norms[i]).y);
    Outline(hr + Reverse(hr), hz + Reverse(Negate(hz)))
  }

  /** The outer curve has `2m` points: the first `m` are the offsets of the
      inner points, and the second half mirrors the first in the midplane. */
  lemma OffsetShape(r: seq<real>, z: seq<real>, t: real, derivative: seq<real>, norms: seq<real>)
    requires |derivative| <= |r| && |derivative| <= |z| && NormsFor(derivative, norms)
    ensures var o := Offset(r, z, t, derivative, norms); var m := |derivative|;
      && |o.r| == 2 * m && |o.z| == 2 * m
      && (forall i :: 0 <= i < m ==> Point(o.r[i], o.z[i]) == OuterPoint(r[i], z[i], t, derivative[i], norms[i]))
      && (forall k :: m <= k < 2 * m ==> o.r[k] == o.r[2 * m - 1 - k] && o.z[k] == -o.z[2 * m - 1 - k])
  {
  }

  /** `compute_outer_points`. Indexing `R[i]` or `Z[i]` past their end raises
      IndexError; otherwise the result is `Offset`. */
  method ComputeOuterPoints(r: seq<real>, z: seq<real>, thickness: real, derivative: seq<real>, norms: seq<real>)
    returns (res: Result<Outline>)
    requires NormsFor(derivative, norms)
    ensures res.Err? <==> |derivative| > |r| || |derivative| > |z|
    ensures res.Err? ==> res.error == IndexError
    ensures res.Ok? ==> res.value == Offset(r, z, thickness, derivative, norms)
  {
    var newR: seq<real> := [];
    var newZ: seq<real> := [];
    var i := 0;
    while i < |derivative|
      invariant 0 <= i <= |derivative| && i <= |r| && i <= |z|
      invariant |newR| == i && |newZ| == i
      invariant forall k :: 0 <= k < i ==> Point(newR[k], newZ[k]) == OuterPoint(r[k], z[k], thickness, derivative[k], norms[k])
    {
      if i >= |r| || i >= |z| {
        return Err(IndexError);
      }
      var nx := -derivative[i];
      var ny := 1.0;
      var normalVectorNorm := norms[i];
      nx := nx / normalVectorNorm;
      ny := ny / normalVectorNorm;
      var valROuter := r[i] + thickness * nx;
      var valZOuter := z[i] + thickness * ny;
      newR := newR + [valROuter];
      newZ := newZ + [valZOuter];
      i := i + 1;
    }
    ghost var o := Offset(r, z, thickness, derivative, norms);
    assert newR + Reverse(newR) == o.r;
    assert newZ + Reverse(Negate(newZ)) == o.z;
    newR := newR + Reverse(newR);
    newZ := newZ + Reverse(Negate(newZ));
    res := Ok(Outline(newR, newZ));
  }

  /** The `zip` loops of `find_points`: every point tagged `spline`, then the
      last retagged `straight`; `inner_points[-1]` raises IndexError when the
      zip is empty. */
  function Tagging(xs: seq<real>, ys: seq<real>): (r: Result<seq<TaggedPoint>>)
    ensures r.Err? <==> |xs| == 0 || |ys| == 0
    ensures r.Err? ==> r.error == IndexError
    ensures r.Ok? ==> |r.value| == (if |xs| < |ys| then |xs| else |ys|)
    ensures r.Ok? ==> forall i :: 0 <= i < |r.value| ==>
      && r.value[i].pt == Point(xs[i], ys[i])
      && r.value[i].tag != Circle
      && (r.value[i].tag == Straight <==> i == |r.value| - 1)
  {
    var n := if |xs| < |ys| then |xs| else |ys|;
    if n == 0 then Err(IndexError)
    else Ok(seq(n, i requires 0 <= i < n => TaggedPoint(Point(xs[i], ys[i]), if i == n - 1 then Straight else Spline)))
  }

  /** One `zip` loop of `find_points`, with the retagging of its last entry. */
  method TagProfile(xs: seq<real>, ys: seq<real>) returns (r: Result<seq<TaggedPoint>>)
    ensures r == Tagging(xs, ys)
  {
    var pts: seq<TaggedPoint> := [];
    var i := 0;
    while i < |xs| && i < |ys|
      invariant 0 <= i <= |xs| && i <= |ys|
      invariant |pts| == i
      invariant forall k :: 0 <= k < i ==> pts[k] == TaggedPoint(Point(xs[k], ys[k]), Spline)
    {
      pts := pts + [TaggedPoint(Point(xs[i], ys[i]), Spline)];
      i := i + 1;
    }
    if |pts| == 0 {
      return Err(IndexError);
    }
    pts := pts[|pts| - 1 := TaggedPoint(Last(pts).pt, Straight)];
    r := Ok(pts);
    assert r.value == Tagging(xs, ys).value;
  }

  /** What `find_points` computes from the two segments: the inner points
      followed by the outer points taken backwards, and the first and last
      point of each half as the inner-leg corners. */
  function CoilProfile(s1: Segment, s2: Segment, thickness: real, norms: seq<real>): Result<ProfilePoints>
    requires NormsFor(AssembleInner(s1, s2).dzdr, norms)
  {
    var c := AssembleInner(s1, s2);
    if |c.dzdr| > |c.r| || |c.dzdr| > |c.z| then Err(IndexError)
    else
      var o := Offset(c.r, c.z, thickness, c.dzdr, norms);
      var inner := Tagging(c.r, c.z);
      var outer := Tagging(Reverse(o.r), Reverse(o.z));
      if inner.Err? || outer.Err? then Err(IndexError)
      else Ok(ProfilePoints(
        inner.value + outer.value,
        [inner.value[0].pt, Last(inner.value).pt, outer.value[0].pt, Last(outer.value).pt]))
  }

  /** Segments of fewer than two samples make `find_points` raise IndexError:
      with one sample the curve has one point but two slopes, with none the
      profile is empty. */
  lemma ShortSegmentsFail(s1: Segment, s2: Segment, thickness: real, norms: seq<real>, n: nat)
    requires n < 2 && Sampled(s1, s2, n) && NormsFor(AssembleInner(s1, s2).dzdr, norms)
    ensures CoilProfile(s1, s2, thickness, norms) == Err(IndexError)
  {
  }

  /** The curve starts at segment 1's far sample, with that sample's slope,
      and ends at its reflection. */
  lemma CurveEnds(s1: Segment, s2: Segment, n: nat)
    requires n >= 2 && Sampled(s1, s2, n)
    ensures var c := AssembleInner(s1, s2);
      && |c.r| == 4 * n - 3 && |c.z| == 4 * n - 3 && |c.dzdr| == 2 * n
      && c.r[0] == s1.r[n - 1] && c.z[0] == s1.z[n - 1] && c.dzdr[0] == s1.dzdr[n - 1]
      && c.r[4 * n - 4] == s1.r[n - 1] && c.z[4 * n - 4] == -s1.z[n - 1]
  {
    var c := AssembleInner(s1, s2);
    var e, ez := Tail(s1.r), Negate(Tail(s1.z));
    assert c.r == (Reverse(s1.r) + Tail(s2.r) + Tail(Reverse(s2.r))) + e;
    assert c.z == (Reverse(s1.z) + Tail(s2.z) + Negate(Tail(Reverse(s2.z)))) + ez;
    assert c.r[4 * n - 4] == e[n - 2];
    assert c.z[4 * n - 4] == ez[n - 2];
  }

  /** The outer curve starts at the offset of the first inner point and ends
      at its reflection. */
  lemma OffsetEnds(r: seq<real>, z: seq<real>, t: real, derivative: seq<real>, norms: seq<real>)
    requires 0 < |derivative| <= |r| && |derivative| <= |z| && NormsFor(derivative, norms)
    ensures var o := Offset(r, z, t, derivative, norms); var m := |derivative|;
      && |o.r| == 2 * m && |o.z| == 2 * m
      && Point(o.r[0], o.z[0]) == OuterPoint(r[0], z[0], t, derivative[0], norms[0])
      && Point(o.r[2 * m - 1], o.z[2 * m - 1]) == Mirror(OuterPoint(r[0], z[0], t, derivative[0], norms[0]))
  {
    OffsetShape(r, z, t, derivative, norms);
  }

  /** The profile, once the curve is long enough for its slopes: inner and
      outer tagged points, and the ends of each. */
  lemma CoilProfileOk(s1: Segment, s2: Segment, thickness: real, norms: seq<real>, n: nat)
    requires n >= 2 && Sampled(s1, s2, n) && NormsFor(AssembleInner(s1, s2).dzdr, norms)
    ensures var c := AssembleInner(s1, s2);
      var o := Offset(c.r, c.z, thickness, c.dzdr, norms);
      var inner := Tagging(c.r, c.z);
      var outer := Tagging(Reverse(o.r), Reverse(o.z));
      && inner.Ok? && outer.Ok? && |inner.value| == 4 * n - 3 && |outer.value| == 4 * n
      && CoilProfile(s1, s2, thickness, norms) == Ok(ProfilePoints(
        inner.value + outer.value,
        [inner.value[0].pt, Last(inner.value).pt, outer.value[0].pt, Last(outer.value).pt]))
  {
    var c := AssembleInner(s1, s2);
    CurveLengths(s1, s2, n);
    OffsetShape(c.r, c.z, thickness, c.dzdr, norms);
  }

  /** Two tagged halves side by side: straight exactly at the end of each. */
  lemma TaggedHalves(inner: seq<TaggedPoint>, outer: seq<TaggedPoint>)
    requires forall i :: 0 <= i < |inner| ==> inner[i].tag != Circle && (inner[i].tag == Straight <==> i == |inner| - 1)
    requires forall i :: 0 <= i < |outer| ==> outer[i].tag != Circle && (outer[i].tag == Straight <==> i == |outer| - 1)
    ensures var p := inner + outer;
      forall i :: 0 <= i < |p| ==> p[i].tag != Circle && (p[i].tag == Straight <==> i == |inner| - 1 || i == |p| - 1)
  {
    var p := inner + outer;
    forall i | 0 <= i < |p|
      ensures p[i].tag != Circle && (p[i].tag == Straight <==> i == |inner| - 1 || i == |p| - 1)
    {
      if i < |inner| {
        assert p[i] == inner[i];
      } else {
        assert p[i] == outer[i - |inner|];
      }
    }
  }

  /** With segments of `n >= 2` samples the profile has `4n - 3` inner and
      `4n` outer points; every point is a spline point except the last of
      each half, which is joined by a straight line. */
  lemma ProfileShape(s1: Segment, s2: Segment, thickness: real, norms: seq<real>, n: nat)
    requires n >= 2 && Sampled(s1, s2, n) && NormsFor(AssembleInner(s1, s2).dzdr, norms)
    ensures CoilProfile(s1, s2, thickness, norms).Ok?
    ensures var p := CoilProfile(s1, s2, thickness, norms).value.points;
      && |p| == 8 * n - 3
      && (forall i :: 0 <= i < |p| ==> p[i].tag != Circle)
      && (forall i :: 0 <= i < |p| ==> (p[i].tag == Straight <==> i == 4 * n - 4 || i == 8 * n - 4))
  {
    CoilProfileOk(s1, s2, thickness, norms, n);
    var c := AssembleInner(s1, s2);
    var o := Offset(c.r, c.z, thickness, c.dzdr, norms);
    TaggedHalves(Tagging(c.r, c.z).value, Tagging(Reverse(o.r), Reverse(o.z)).value);
  }

  /** The inner leg is symmetric about the midplane: its corners are the
      start `P` of the inner curve, `P` reflected, then the outer curve's end
      `Q` reflected, and `Q`, where `P` is segment 1's far sample and `Q` its
      offset. */
  lemma InnerLegSymmetric(s1: Segment, s2: Segment, thickness: real, norms: seq<real>, n: nat)
    requires n >= 2 && Sampled(s1, s2, n) && NormsFor(AssembleInner(s1, s2).dzdr, norms)
    ensures CoilProfile(s1, s2, thickness, norms).Ok?
    ensures var v := CoilProfile(s1, s2, thickness, norms).value;
      var p := Point(s1.r[n - 1], s1.z[n - 1]);
      var q := OuterPoint(s1.r[n - 1], s1.z[n - 1], thickness, s1.dzdr[n - 1], norms[0]);
      && v.innerLeg == [p, Mirror(p), Mirror(q), q]
      && |v.points| == 8 * n - 3
      && v.innerLeg[0] == v.points[0].pt && v.innerLeg[1] == v.points[4 * n - 4].pt
      && v.innerLeg[2] == v.points[4 * n - 3].pt && v.innerLeg[3] == Last(v.points).pt
  {
    CoilProfileOk(s1, s2, thickness, norms, n);
    var c := AssembleInner(s1, s2);
    CurveEnds(s1, s2, n);
    OffsetEnds(c.r, c.z, thickness, c.dzdr, norms);
    var o := Offset(c.r, c.z, thickness, c.dzdr, norms);
    var inner := Tagging(c.r, c.z).value;
    var outer := Tagging(Reverse(o.r), Reverse(o.z)).value;
    assert outer[0].pt == Point(o.r[4 * n - 1], o.z[4 * n - 1]);
    assert Last(outer).pt == Point(o.r[0], o.z[0]);
    var pts := inner + outer;
    assert pts[0] == inner[0] && pts[4 * n - 4] == Last(inner);
    assert pts[4 * n - 3] == outer[0] && Last(pts) == Last(outer);
  }

  /** The computation of `find_points` from the two segments: the outer
      curve, the two tagging loops and the inner-leg corners. */
  method ComputeProfile(seg1: Segment, seg2: Segment, thickness: real, norms: seq<real>)
    returns (p: Result<ProfilePoints>)
    requires NormsFor(AssembleInner(seg1, seg2).dzdr, norms)
    ensures p == CoilProfile(seg1, seg2, thickness, norms)
  {
    var c := AssembleInner(seg1, seg2);
    var outer := ComputeOuterPoints(c.r, c.z, thickness, c.dzdr, norms);
    if outer.Err? {
      return Err(outer.error);
    }
    var innerPoints := TagProfile(c.r, c.z);
    if innerPoints.Err? {
      return Err(innerPoints.error);
    }
    var outerPoints := TagProfile(Reverse(outer.value.r), Reverse(outer.value.z));
    if outerPoints.Err? {
      return Err(outerPoints.error);
    }
    var ins, outs := innerPoints.value, outerPoints.value;
    p := Ok(ProfilePoints(ins + outs, [ins[0].pt, Last(ins).pt, outs[0].pt, Last(outs).pt]));
  }
}
