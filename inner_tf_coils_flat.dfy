/** The flat inner toroidal-field coils: identical wedge-shaped coils around
    the centre column, with straight sides and a gap between neighbours,
    extruded through the coils' height. The model keeps the
    rule that settles the azimuthal angles and the coil count from whichever
    of the two was given, the four-point profile of one coil, and the
    extrusion distance. Sine, cosine and arcsine are given functions. */
module InnerTfCoils {
  import opened Wrappers
  import opened Paramak
  import opened Azimuth

  /** `math.sin`, `math.cos` and `math.asin`, which the model does not
      compute. */
  datatype Trig = Trig(sin: real -> real, cos: real -> real, asin: real -> real)

  /** `math.pi` as a double. */
  const Pi: real := 3.141592653589793

  const NeitherMessage: string := "azimuth_placement_angle or number_of_coils must be specified"
  const MismatchMessage: string := "number of azimuthal placement angles should equal number of coils"
  /** What `math.asin` raises outside `[-1, 1]`. */
  const DomainMessage: string := "math domain error"

  /** `find_azimuth_placement_angle` on the given angles and coil count:
      either one settles the other, and when both are given they must agree.
      On success the result is the placement and the coil count to store;
      then the placement is always a list with one angle per coil. `len` of
      a single angle raises TypeError. */
  function PlacementFor(angles: Option<Placement>, count: Option<int>): (r: Result<(Placement, int)>)
    ensures angles.None? && count.None? ==> r == Err(ValueError(NeitherMessage))
    ensures angles.None? && count.Some? ==>
      r == match EvenlySpacedAngles(count.value)
           case Ok(a) => Ok((Multiple(a), count.value))
           case Err(e) => Err(e)
    ensures angles.Some? && angles.value.Single? ==> r == Err(TypeError)
    ensures angles.Some? && angles.value.Multiple? && count.None? ==>
      r == Ok((angles.value, |angles.value.angles|))
    ensures angles.Some? && angles.value.Multiple? && count.Some? ==>
      r == if count.value == |angles.value.angles| then Ok((angles.value, count.value))
           else Err(ValueError(MismatchMessage))
    ensures r.Ok? ==> r.value.0.Multiple? && |r.value.0.angles| == r.value.1
  {
    match angles
    case None =>
      if count.None? then Err(ValueError(NeitherMessage))
      else
        (match EvenlySpacedAngles(count.value)
         case Ok(a) => Ok((Multiple(a), count.value))
         case Err(e) => Err(e))
    case Some(Single(_)) => Err(TypeError)
    case Some(Multiple(a)) =>
      if count.None? then Ok((Multiple(a), |a|))
      else if count.value != |a| then Err(ValueError(MismatchMessage))
      else Ok((Multiple(a), count.value))
  }

  /** Once settled, the placement and the count settle to themselves again:
      running the rule a second time keeps both as they are. */
  lemma PlacementSettled(angles: Option<Placement>, count: Option<int>)
    requires PlacementFor(angles, count).Ok?
    ensures var r := PlacementFor(angles, count);
      PlacementFor(Some(r.value.0), Some(r.value.1)) == r
  {
  }

  /** A given count of `n >= 0` coils and no angles give the coils `360 i / n`
      degrees apart; a negative count is refused. */
  lemma CountOnly(n: int)
    ensures PlacementFor(None, Some(n)).Ok? <==> n >= 0
    ensures n > 0 ==> forall i :: 0 <= i < n ==>
      PlacementFor(None, Some(n)).value.0.angles[i] == 360.0 * i as real / n as real
  {
    if n > 0 {
      AnglesEvenlySpaced(n);
    }
  }

  /** Six coils given by count sit at 0, 60, 120, 180, 240 and 300 degrees. */
  lemma SixFlatCoils()
    ensures PlacementFor(None, Some(6)) == Ok((Multiple([0.0, 60.0, 120.0, 180.0, 240.0, 300.0]), 6))
  {
    SixCoils();
  }

  /** A list of angles alone is kept and fixes the count. */
  lemma AnglesOnly(a: seq<real>)
    ensures PlacementFor(Some(Multiple(a)), None) == Ok((Multiple(a), |a|))
  {
  }

  /** The angular width of one coil at `radius`: the circumference left over
      by `n` gaps of `gap`, shared by `n` coils, as an angle. */
  function SectorAngle(radius: real, gap: real, n: int): real
    requires radius * n as real != 0.0
  {
    (2.0 * Pi * radius - gap * n as real) / (radius * n as real)
  }

  /** The `n` coil arcs and the `n` gaps together go once around the circle
      of `radius`. */
  lemma {:induction false} ArcsFillCircumference(radius: real, gap: real, n: int)
    requires radius * n as real != 0.0
    ensures n as real * (radius * SectorAngle(radius, gap, n) + gap) == 2.0 * Pi * radius
  {
    var d := radius * n as real;
    var c := 2.0 * Pi * radius - gap * n as real;
    assert SectorAngle(radius, gap, n) * d == c;
    calc {
      n as real * (radius * SectorAngle(radius, gap, n) + gap);
      SectorAngle(radius, gap, n) * d + gap * n as real;
      c + gap * n as real;
    }
  }

  /** The argument `math.asin` is applied to: half the gap over the radius. */
  function HalfGapSine(radius: real, gap: real): real
    requires radius != 0.0
  {
    gap / (2.0 * radius)
  }

  predicate InAsinDomain(t: real)
  {
    -1.0 <= t <= 1.0
  }

  /** The coil's corner on the circle of `radius` at angle `-omega`, the side
      of the coil that faces the previous coil. */
  function EdgeStart(trig: Trig, radius: real, omega: real): Point
  {
    Point(radius * trig.cos(-omega), -radius * trig.sin(-omega))
  }

  /** `p` turned about the origin by the angle whose cosine is `c` and whose
      sine is `s`. */
  function Rotate(p: Point, c: real, s: real): Point
  {
    Point(p.x * c - p.y * s, p.x * s + p.y * c)
  }

  /** The profile of one coil as `find_points` computes it, coordinate by
      coordinate. Its corners are an inner corner, the same corner turned by
      the inner sector angle, the outer corner turned by the outer sector
      angle, and the outer corner, in that order. Dividing by a zero radius or coil
      count raises ZeroDivisionError, and a gap wider than the diameter puts
      the arcsine's argument out of its domain; the inner circle is
      computed, and can fail, before the outer one. */
  function FlatProfile(trig: Trig, innerRadius: real, outerRadius: real, gap: real, n: int): (r: Result<seq<Point>>)
    ensures r == Err(ZeroDivisionError) <==>
      innerRadius * n as real == 0.0
      || (InAsinDomain(HalfGapSine(innerRadius, gap)) && outerRadius * n as real == 0.0)
    ensures r == Err(ValueError(DomainMessage)) <==>
      innerRadius * n as real != 0.0
      && (!InAsinDomain(HalfGapSine(innerRadius, gap))
          || (outerRadius * n as real != 0.0 && !InAsinDomain(HalfGapSine(outerRadius, gap))))
    ensures r.Ok? <==>
      && innerRadius * n as real != 0.0 && InAsinDomain(HalfGapSine(innerRadius, gap))
      && outerRadius * n as real != 0.0 && InAsinDomain(HalfGapSine(outerRadius, gap))
    ensures r.Ok? ==> |r.value| == 4
    ensures r.Ok? ==>
      && r.value[0] == EdgeStart(trig, innerRadius, trig.asin(HalfGapSine(innerRadius, gap)))
      && r.value[3] == EdgeStart(trig, outerRadius, trig.asin(HalfGapSine(outerRadius, gap)))
    ensures r.Ok? ==>
      var thetaInner := SectorAngle(innerRadius, gap, n);
      var thetaOuter := SectorAngle(outerRadius, gap, n);
      && r.value[1] == Rotate(r.value[0], trig.cos(thetaInner), trig.sin(thetaInner))
      && r.value[2] == Rotate(r.value[3], trig.cos(thetaOuter), trig.sin(thetaOuter))
  {
    if innerRadius * n as real == 0.0 then Err(ZeroDivisionError)
    else if !InAsinDomain(HalfGapSine(innerRadius, gap)) then Err(ValueError(DomainMessage))
    else if outerRadius * n as real == 0.0 then Err(ZeroDivisionError)
    else if !InAsinDomain(HalfGapSine(outerRadius, gap)) then Err(ValueError(DomainMessage))
    else
      var thetaInner := SectorAngle(innerRadius, gap, n);
      var omegaInner := trig.asin(HalfGapSine(innerRadius, gap));
      var thetaOuter := SectorAngle(outerRadius, gap, n);
      var omegaOuter := trig.asin(HalfGapSine(outerRadius, gap));
      var point1 := Point(innerRadius * trig.cos(-omegaInner), -innerRadius * trig.sin(-omegaInner));
      var point3 := Point(
        innerRadius * trig.cos(thetaInner) * trig.cos(-omegaInner)
          + innerRadius * trig.sin(thetaInner) * trig.sin(-omegaInner),
        -innerRadius * trig.cos(thetaInner) * trig.sin(-omegaInner)
          + innerRadius * trig.sin(thetaInner) * trig.cos(-omegaInner));
      var point4 := Point(outerRadius * trig.cos(-omegaOuter), -outerRadius * trig.sin(-omegaOuter));
      var point6 := Point(
        outerRadius * trig.cos(thetaOuter) * trig.cos(-omegaOuter)
          + outerRadius * trig.sin(thetaOuter) * trig.sin(-omegaOuter),
        -outerRadius * trig.cos(thetaOuter) * trig.sin(-omegaOuter)
          + outerRadius * trig.sin(thetaOuter) * trig.cos(-omegaOuter));
      TurnedCorner(trig, innerRadius, thetaInner, omegaInner);
      TurnedCorner(trig, outerRadius, thetaOuter, omegaOuter);
      Ok([point1, point3, point6, point4])
  }

  /** The sine of the negated arcsine is the negated argument. */
  ghost predicate SineOfNegatedArcsine(trig: Trig)
  {
    forall t {:trigger trig.asin(t)} :: InAsinDomain(t) ==> trig.sin(-trig.asin(t)) == -t
  }

  /** Sine and cosine of one angle square to one. */
  ghost predicate Pythagorean(trig: Trig)
  {
    forall a {:trigger trig.sin(a)} :: trig.sin(a) * trig.sin(a) + trig.cos(a) * trig.cos(a) == 1.0
  }

  /** The first side of the coil is level: both its corners sit half a gap
      off the mid-plane of the gap before the coil. */
  lemma {:induction false} StartSideLevel(trig: Trig, innerRadius: real, outerRadius: real, gap: real, n: int)
    requires SineOfNegatedArcsine(trig)
    requires FlatProfile(trig, innerRadius, outerRadius, gap, n).Ok?
    ensures FlatProfile(trig, innerRadius, outerRadius, gap, n).value[0].y == gap / 2.0
    ensures FlatProfile(trig, innerRadius, outerRadius, gap, n).value[3].y == gap / 2.0
  {
    var r := FlatProfile(trig, innerRadius, outerRadius, gap, n);
    EdgeHeight(trig, innerRadius, gap);
    EdgeHeight(trig, outerRadius, gap);
    assert r.value[0] == EdgeStart(trig, innerRadius, trig.asin(HalfGapSine(innerRadius, gap)));
    assert r.value[3] == EdgeStart(trig, outerRadius, trig.asin(HalfGapSine(outerRadius, gap)));
  }

  /** A corner lies half a gap off the mid-plane. */
  lemma {:induction false} EdgeHeight(trig: Trig, radius: real, gap: real)
    requires SineOfNegatedArcsine(trig)
    requires radius != 0.0 && InAsinDomain(HalfGapSine(radius, gap))
    ensures EdgeStart(trig, radius, trig.asin(HalfGapSine(radius, gap))).y == gap / 2.0
  {
    var t := HalfGapSine(radius, gap);
    assert trig.sin(-trig.asin(t)) == -t;
    calc {
      EdgeStart(trig, radius, trig.asin(t)).y;
      -radius * trig.sin(-trig.asin(t));
      radius * t;
      { assert t * (2.0 * radius) == gap; }
      gap / 2.0;
    }
  }

  /** All four corners lie on the coil's circles: the first two on the
      inner radius, the last two on the outer radius. */
  lemma {:induction false} CornersOnCircles(trig: Trig, innerRadius: real, outerRadius: real, gap: real, n: int)
    requires Pythagorean(trig)
    requires FlatProfile(trig, innerRadius, outerRadius, gap, n).Ok?
    ensures var p := FlatProfile(trig, innerRadius, outerRadius, gap, n).value;
      && SquaredNorm(p[0]) == innerRadius * innerRadius
      && SquaredNorm(p[1]) == innerRadius * innerRadius
      && SquaredNorm(p[2]) == outerRadius * outerRadius
      && SquaredNorm(p[3]) == outerRadius * outerRadius
  {
    var p := FlatProfile(trig, innerRadius, outerRadius, gap, n).value;
    var thetaInner := SectorAngle(innerRadius, gap, n);
    var thetaOuter := SectorAngle(outerRadius, gap, n);
    EdgeOnCircle(trig, innerRadius, trig.asin(HalfGapSine(innerRadius, gap)));
    EdgeOnCircle(trig, outerRadius, trig.asin(HalfGapSine(outerRadius, gap)));
    RotationKeepsNorm(p[0], trig.cos(thetaInner), trig.sin(thetaInner));
    RotationKeepsNorm(p[3], trig.cos(thetaOuter), trig.sin(thetaOuter));
  }

  function SquaredNorm(p: Point): real
  {
    p.x * p.x + p.y * p.y
  }

  lemma {:induction false} EdgeOnCircle(trig: Trig, radius: real, omega: real)
    requires Pythagorean(trig)
    ensures SquaredNorm(EdgeStart(trig, radius, omega)) == radius * radius
  {
    var c := trig.cos(-omega);
    var s := trig.sin(-omega);
    assert s * s + c * c == 1.0;
    calc {
      SquaredNorm(EdgeStart(trig, radius, omega));
      (radius * c) * (radius * c) + (-radius * s) * (-radius * s);
      radius * radius * (c * c + s * s);
    }
  }

  /** A turn keeps the distance from the origin. */
  lemma {:induction false} RotationKeepsNorm(p: Point, c: real, s: real)
    requires c * c + s * s == 1.0
    ensures SquaredNorm(Rotate(p, c, s)) == SquaredNorm(p)
  {
    calc {
      SquaredNorm(Rotate(p, c, s));
      (p.x * c - p.y * s) * (p.x * c - p.y * s) + (p.x * s + p.y * c) * (p.x * s + p.y * c);
      p.x * p.x * (c * c + s * s) + p.y * p.y * (c * c + s * s);
    }
  }

  /** The turned corner in the form `find_points` writes it out. */
  lemma {:induction false} TurnedCorner(trig: Trig, radius: real, theta: real, omega: real)
    ensures Rotate(EdgeStart(trig, radius, omega), trig.cos(theta), trig.sin(theta))
      == Point(radius * trig.cos(theta) * trig.cos(-omega) + radius * trig.sin(theta) * trig.sin(-omega),
               -radius * trig.cos(theta) * trig.sin(-omega) + radius * trig.sin(theta) * trig.cos(-omega))
  {
    var c, s, cw, sw := trig.cos(theta), trig.sin(theta), trig.cos(-omega), trig.sin(-omega);
    assert (radius * cw) * c - (-radius * sw) * s == radius * c * cw + radius * s * sw;
    assert (radius * cw) * s + (-radius * sw) * c == -radius * c * sw + radius * s * cw;
  }

  /** The flat inner coils' attributes. The count and the angles may be
      missing until `find_azimuth_placement_angle` settles them; the points
      exist once `find_points` has run. */
  class InnerTfCoilsFlat {
    var height: real
    var innerRadius: real
    var outerRadius: real
    var gapSize: real
    var distance: real
    var numberOfCoils: Option<int>
    var azimuthPlacementAngle: Option<Placement>
    var points: Option<seq<Point>>

    /** The attribute assignments of `__init__`: the `distance` argument is
        handed on and then replaced by the height, so the coils are always
        extruded through their full height. */
    constructor (height: real, innerRadius: real, outerRadius: real, gapSize: real, distance: Option<real>,
                 azimuthPlacementAngle: Option<Placement>, numberOfCoils: Option<int>)
      ensures this.height == height && this.innerRadius == innerRadius && this.outerRadius == outerRadius
      ensures this.gapSize == gapSize && this.numberOfCoils == numberOfCoils
      ensures this.azimuthPlacementAngle == azimuthPlacementAngle
      ensures this.distance == height && points == None
    {
      this.height := height;
      this.innerRadius := innerRadius;
      this.outerRadius := outerRadius;
      this.gapSize := gapSize;
      this.numberOfCoils := numberOfCoils;
      this.azimuthPlacementAngle := azimuthPlacementAngle;
      this.distance := height;
      points := None;
    }

    /** `find_azimuth_placement_angle`: stores the settled angles and count,
        or raises and leaves both as they were. */
    method FindAzimuthPlacementAngle() returns (o: Outcome)
      modifies this`azimuthPlacementAngle, this`numberOfCoils
      ensures var r := PlacementFor(old(azimuthPlacementAngle), old(numberOfCoils));
        && (o.Pass? <==> r.Ok?)
        && (r.Err? ==> o.error == r.error)
        && azimuthPlacementAngle == (if r.Ok? then Some(r.value.0) else old(azimuthPlacementAngle))
        && numberOfCoils == (if r.Ok? then Some(r.value.1) else old(numberOfCoils))
    {
      if azimuthPlacementAngle.None? {
        if numberOfCoils.None? {
          return Fail(ValueError(NeitherMessage));
        }
        var angles := EvenlySpacedAngles(numberOfCoils.value);
        if angles.Err? {
          return Fail(angles.error);
        }
        azimuthPlacementAngle := Some(Multiple(angles.value));
      } else {
        if azimuthPlacementAngle.value.Single? {
          return Fail(TypeError);
        }
        if numberOfCoils.None? {
          numberOfCoils := Some(|azimuthPlacementAngle.value.angles|);
        } else if numberOfCoils.value != |azimuthPlacementAngle.value.angles| {
          return Fail(ValueError(MismatchMessage));
        }
      }
      o := Pass;
    }

    /** `find_points`: stores the four corners of the coil's profile, or
        raises and keeps the old points; the arithmetic on a missing count
        raises TypeError. */
    method FindPoints(trig: Trig) returns (o: Outcome)
      modifies this`points
      ensures numberOfCoils.None? ==> o == Fail(TypeError) && points == old(points)
      ensures numberOfCoils.Some? ==>
        var r := FlatProfile(trig, innerRadius, outerRadius, gapSize, numberOfCoils.value);
        && o == (if r.Ok? then Pass else Fail(r.error))
        && points == (if r.Ok? then Some(r.value) else old(points))
    {
      if numberOfCoils.None? {
        return Fail(TypeError);
      }
      var profile := FlatProfile(trig, innerRadius, outerRadius, gapSize, numberOfCoils.value);
      if profile.Err? {
        return Fail(profile.error);
      }
      points := Some(profile.value);
      o := Pass;
    }
  }

  /** `InnerTfCoilsFlat(...)`: the attributes, then the angles and count are
      settled, then the profile is found; an exception from either step
      propagates. */
  method NewInnerTfCoilsFlat(trig: Trig, height: real, innerRadius: real, outerRadius: real, gapSize: real,
                             distance: Option<real>, azimuthPlacementAngle: Option<Placement>,
                             numberOfCoils: Option<int>)
    returns (r: Result<InnerTfCoilsFlat>)
    ensures var placed := PlacementFor(azimuthPlacementAngle, numberOfCoils);
      && (placed.Err? ==> r == Err(placed.error))
      && (placed.Ok? ==>
            var profile := FlatProfile(trig, innerRadius, outerRadius, gapSize, placed.value.1);
            && (r.Err? <==> profile.Err?)
            && (r.Err? ==> r.error == profile.error)
            && (r.Ok? ==>
                  && fresh(r.value)
                  && r.value.azimuthPlacementAngle == Some(placed.value.0)
                  && r.value.numberOfCoils == Some(placed.value.1)
                  && r.value.points == Some(profile.value)
                  && r.value.distance == height && r.value.height == height))
  {
    var coils := new InnerTfCoilsFlat(height, innerRadius, outerRadius, gapSize, distance,
                                      azimuthPlacementAngle, numberOfCoils);
    var o := coils.FindAzimuthPlacementAngle();
    if o.Fail? {
      return Err(o.error);
    }
    o := coils.FindPoints(trig);
    if o.Fail? {
      return Err(o.error);
    }
    r := Ok(coils);
  }
}
