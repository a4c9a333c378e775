/** The Princeton-D toroidal field coil component: the profile its
    `find_points` stores, the placement angles its getter recomputes, and the
    drawing its `create_solid` builds. */
module PrincetonDCoil {
  import opened Wrappers
  import opened Paramak
  import opened Connections
  import opened Azimuth
  import opened PrincetonD

  /** The coil component: its dimensions, the profile `find_points` stores,
      and the placement angles. */
  class ToroidalFieldCoilPrincetonD {
    var R1: real
    var R2: real
    var thickness: real
    var distance: real
    var numberOfCoils: int
    var withInnerLeg: bool
    var workplane: string
    var points: Option<seq<TaggedPoint>>
    var innerLegConnectionPoints: seq<Point>
    var azimuthPlacementAngle: Placement

    /** `__init__`: the profile is not computed yet, the workplane defaults
        to "XZ" and the placement to the single angle 0. */
    constructor (R1: real, R2: real, thickness: real, distance: real, numberOfCoils: int, withInnerLeg: bool)
      ensures this.R1 == R1 && this.R2 == R2 && this.thickness == thickness && this.distance == distance
      ensures this.numberOfCoils == numberOfCoils && this.withInnerLeg == withInnerLeg
      ensures workplane == "XZ" && points == None && innerLegConnectionPoints == []
      ensures azimuthPlacementAngle == Single(0.0)
    {
      this.R1 := R1;
      this.R2 := R2;
      this.thickness := thickness;
      this.distance := distance;
      this.numberOfCoils := numberOfCoils;
      this.withInnerLeg := withInnerLeg;
      workplane := "XZ";
      points := None;
      innerLegConnectionPoints := [];
      azimuthPlacementAngle := Single(0.0);
    }

    /** `find_points`, given the two segments `compute_inner_points` would
        integrate from `R1` and `R2` and the normal lengths: on success it
        stores the profile and the inner-leg points; on IndexError it stores
        nothing. */
    method FindPoints(seg1: Segment, seg2: Segment, norms: seq<real>) returns (o: Outcome)
      requires NormsFor(AssembleInner(seg1, seg2).dzdr, norms)
      modifies this`points, this`innerLegConnectionPoints
      ensures var p := CoilProfile(seg1, seg2, thickness, norms);
        && (p.Ok? ==> o == Pass && points == Some(p.value.points) && innerLegConnectionPoints == p.value.innerLeg)
        && (p.Err? ==> o == Fail(p.error) && points == old(points) && innerLegConnectionPoints == old(innerLegConnectionPoints))
    {
      var p := ComputeProfile(seg1, seg2, thickness, norms);
      if p.Err? {
        return Fail(p.error);
      }
      points := Some(p.value.points);
      innerLegConnectionPoints := p.value.innerLeg;
      o := Pass;
    }

    /** The `azimuth_placement_angle` getter, which runs
        `find_azimuth_placement_angle`: `number_of_coils` angles evenly spread
        from 0, stored and returned; a negative count raises ValueError and
        stores nothing. */
    method AzimuthPlacementAngle() returns (r: Result<seq<real>>)
      modifies this`azimuthPlacementAngle
      ensures r == EvenlySpacedAngles(numberOfCoils)
      ensures r.Ok? ==> azimuthPlacementAngle == Multiple(r.value)
      ensures r.Err? ==> azimuthPlacementAngle == old(azimuthPlacementAngle)
    {
      r := EvenlySpacedAngles(numberOfCoils);
      if r.Ok? {
        azimuthPlacementAngle := Multiple(r.value);
      }
    }

    /** The part of `create_solid` in front of the CAD kernel: group the
        profile into runs closed at its first point, attach the inner leg
        when it is wanted, and place one copy per angle. A missing profile
        fails as iterating `None` does, a profile of fewer than two points
        with IndexError, a negative coil count with ValueError. */
    method CreateSolid() returns (r: Result<CoilSketch>)
      modifies this`azimuthPlacementAngle
      ensures points.None? ==> r == Err(TypeError)
      ensures points.Some? && |points.value| < 2 ==> r == Err(IndexError)
      ensures points.Some? && |points.value| >= 2 ==>
        var ps := points.value;
        r == match EvenlySpacedAngles(numberOfCoils)
          case Err(e) => Err(e)
          case Ok(angles) => Ok(CoilSketch(
            workplane, ps[0].pt, Close(Group(ps[..|ps| - 1]), ps[0].pt), -distance / 2.0,
            if withInnerLeg then Some(innerLegConnectionPoints) else None, angles))
      ensures r.Ok? ==> azimuthPlacementAngle == Multiple(r.value.angles)
      ensures r.Err? ==> azimuthPlacementAngle == old(azimuthPlacementAngle)
    {
      if points.None? {
        return Err(TypeError);
      }
      var ps := points.value;
      var grouped := GroupConnections(ps);
      if grouped.Err? {
        return Err(grouped.error);
      }
      var leg: Option<seq<Point>> := None;
      if withInnerLeg {
        leg := Some(innerLegConnectionPoints);
      }
      var angles := AzimuthPlacementAngle();
      if angles.Err? {
        return Err(angles.error);
      }
      r := Ok(CoilSketch(workplane, ps[0].pt, grouped.value, -distance / 2.0, leg, angles.value));
    }
  }
}
