/** The ball reactor's build sequence: the major and minor radius of the
    plasma follow from the inboard thicknesses, the radial build lays the
    components out as contiguous intervals from the machine axis, and the
    vertical build stacks the outboard layers above the plasma and places the
    poloidal field coils at evenly spaced heights behind them. The plasma and
    every CAD component built from these numbers are not modelled; the
    plasma's high point is an input. */
module BallReactorBuild {
  import opened Wrappers
  import opened Paramak

  /** A radial or vertical extent `[start, end]` of one component. */
  datatype Interval = Interval(start: real, end: real)

  /** The ten radial thicknesses the reactor is built from. */
  datatype RadialThicknesses = RadialThicknesses(
    innerBore: real,
    inboardTfLeg: real,
    centerColumnShield: real,
    divertor: real,
    innerPlasmaGap: real,
    plasma: real,
    outerPlasmaGap: real,
    firstwall: real,
    blanket: real,
    blanketRearWall: real)

  /** The optional poloidal and outboard toroidal field coil inputs. */
  datatype PfCoilInputs = PfCoilInputs(
    toRearBlanketRadialGap: Option<real>,
    radialThicknesses: Option<seq<real>>,
    verticalThicknesses: Option<seq<real>>,
    toTfCoilRadialGap: Option<real>,
    outboardTfCoilRadialThickness: Option<real>,
    outboardTfCoilPoloidalThickness: Option<real>)

  /** The radial build: where each component starts and ends. */
  datatype RadialBuild = RadialBuild(
    innerBore: Interval,
    inboardTfCoils: Interval,
    centerColumnShield: Interval,
    divertor: Interval,
    firstwall: Interval,
    blanket: Interval,
    blanketRearWall: Interval)

  /** The vertical build above the plasma, and the heights derived from it. */
  datatype VerticalBuild = VerticalBuild(
    firstwall: Interval,
    blanket: Interval,
    blanketRearWall: Interval,
    tfCoilHeight: real,
    centerColumnShieldHeight: real)

  /** The innermost radius the plasma reaches. */
  function InnerEquatorialPoint(t: RadialThicknesses): real
  {
    t.innerBore + t.inboardTfLeg + t.centerColumnShield + t.innerPlasmaGap
  }

  /** The major radius as `__init__` computes it: the midpoint of the inner
      and outer equatorial points, which is the innermost radius plus half
      the plasma's radial thickness. */
  function MajorRadius(t: RadialThicknesses): (r: real)
    ensures r == InnerEquatorialPoint(t) + t.plasma / 2.0
  {
    (InnerEquatorialPoint(t) + t.plasma + InnerEquatorialPoint(t)) / 2.0
  }

  /** The minor radius as `__init__` computes it: half the plasma's radial
      thickness, whatever the inboard build. */
  function MinorRadius(t: RadialThicknesses): (r: real)
    ensures r == t.plasma / 2.0
  {
    var inner := InnerEquatorialPoint(t);
    var outer := inner + t.plasma;
    (outer + inner) / 2.0 - inner
  }

  /** `make_radial_build`: from the axis outwards, bore, inboard TF leg and
      center column shield each start where the one before ends; the
      divertor and the plasma gap both start at the shield; the firstwall
      starts beyond both plasma gaps and the plasma, and blanket and rear wall
      follow it. */
  function RadialBuildOf(t: RadialThicknesses): (b: RadialBuild)
    ensures b.innerBore.start == 0.0
    ensures b.inboardTfCoils.start == b.innerBore.end
    ensures b.centerColumnShield.start == b.inboardTfCoils.end
    ensures b.divertor.start == b.centerColumnShield.end
    ensures b.firstwall.start == b.centerColumnShield.end + t.innerPlasmaGap + t.plasma + t.outerPlasmaGap
    ensures b.blanket.start == b.firstwall.end
    ensures b.blanketRearWall.start == b.blanket.end
    ensures b.innerBore.end - b.innerBore.start == t.innerBore
    ensures b.inboardTfCoils.end - b.inboardTfCoils.start == t.inboardTfLeg
    ensures b.centerColumnShield.end - b.centerColumnShield.start == t.centerColumnShield
    ensures b.divertor.end - b.divertor.start == t.divertor
    ensures b.firstwall.end - b.firstwall.start == t.firstwall
    ensures b.blanket.end - b.blanket.start == t.blanket
    ensures b.blanketRearWall.end - b.blanketRearWall.start == t.blanketRearWall
  {
    var bore := Interval(0.0, 0.0 + t.innerBore);
    var tf := Interval(bore.end, bore.end + t.inboardTfLeg);
    var ccs := Interval(tf.end, tf.end + t.centerColumnShield);
    var divertor := Interval(ccs.end, ccs.end + t.divertor);
    var fwStart := ccs.end + t.innerPlasmaGap + t.plasma + t.outerPlasmaGap;
    var fw := Interval(fwStart, fwStart + t.firstwall);
    var blanket := Interval(fw.end, fw.end + t.blanket);
    var rear := Interval(blanket.end, blanket.end + t.blanketRearWall);
    RadialBuild(bore, tf, ccs, divertor, fw, blanket, rear)
  }

  /** The boundaries of the radial build in the order it computes them,
      leaving out the divertor's end, which is not ordered against the
      firstwall. */
  function RadialBoundaries(b: RadialBuild): seq<real>
  {
    [b.innerBore.start, b.innerBore.end, b.inboardTfCoils.start, b.inboardTfCoils.end,
     b.centerColumnShield.start, b.centerColumnShield.end, b.divertor.start,
     b.firstwall.start, b.firstwall.end, b.blanket.start, b.blanket.end,
     b.blanketRearWall.start, b.blanketRearWall.end]
  }

  ghost predicate NonNegative(t: RadialThicknesses)
  {
    && t.innerBore >= 0.0 && t.inboardTfLeg >= 0.0 && t.centerColumnShield >= 0.0
    && t.divertor >= 0.0 && t.innerPlasmaGap >= 0.0 && t.plasma >= 0.0
    && t.outerPlasmaGap >= 0.0 && t.firstwall >= 0.0 && t.blanket >= 0.0
    && t.blanketRearWall >= 0.0
  }

  /** With no negative thickness, every boundary of the radial build lies at
      or beyond the one before it, and the divertor does not end before it
      starts. */
  lemma RadialBuildMonotone(t: RadialThicknesses)
    requires NonNegative(t)
    ensures var bs := RadialBoundaries(RadialBuildOf(t));
      forall i :: 0 < i < |bs| ==> bs[i - 1] <= bs[i]
    ensures RadialBuildOf(t).divertor.start <= RadialBuildOf(t).divertor.end
  {
    var b := RadialBuildOf(t);
    var bs := RadialBoundaries(b);
    assert bs[6] == b.centerColumnShield.end;
    assert bs[7] >= bs[6];
  }

  /** The divertor hangs off the shield beside the plasma gap: its thickness
      moves nothing else in the radial build. */
  lemma DivertorIndependent(t: RadialThicknesses, d: real)
    ensures var b, b' := RadialBuildOf(t), RadialBuildOf(t.(divertor := d));
      && b'.innerBore == b.innerBore && b'.inboardTfCoils == b.inboardTfCoils
      && b'.centerColumnShield == b.centerColumnShield && b'.divertor.start == b.divertor.start
      && b'.firstwall == b.firstwall && b'.blanket == b.blanket && b'.blanketRearWall == b.blanketRearWall
  {
  }

  /** The plasma fills the radial space between the shield and the firstwall
      less the two gaps: it reaches from the major radius minus the minor
      radius to the major radius plus the minor radius. */
  lemma PlasmaFitsRadialBuild(t: RadialThicknesses)
    ensures MajorRadius(t) - MinorRadius(t) == RadialBuildOf(t).centerColumnShield.end + t.innerPlasmaGap
    ensures MajorRadius(t) + MinorRadius(t) == RadialBuildOf(t).firstwall.start - t.outerPlasmaGap
  {
  }

  /** The layered part of `make_vertical_build`: the firstwall starts one
      outer plasma gap above the plasma's high point, and firstwall, blanket
      and rear wall are stacked with their radial thicknesses; the TF coil
      is as high as the rear wall's top and the shield twice that. */
  function VerticalBuildOf(t: RadialThicknesses, highPointY: real): (v: VerticalBuild)
    ensures v.firstwall.start == highPointY + t.outerPlasmaGap
    ensures v.blanket.start == v.firstwall.end && v.blanketRearWall.start == v.blanket.end
    ensures v.firstwall.end - v.firstwall.start == t.firstwall
    ensures v.blanket.end - v.blanket.start == t.blanket
    ensures v.blanketRearWall.end - v.blanketRearWall.start == t.blanketRearWall
    ensures v.tfCoilHeight == v.blanketRearWall.end
    ensures v.centerColumnShieldHeight == 2.0 * v.tfCoilHeight
  {
    var fwStart := highPointY + t.outerPlasmaGap;
    var fw := Interval(fwStart, fwStart + t.firstwall);
    var blanket := Interval(fw.end, fw.end + t.blanket);
    var rear := Interval(blanket.end, blanket.end + t.blanketRearWall);
    VerticalBuild(fw, blanket, rear, rear.end, rear.end * 2.0)
  }

  /** The outboard layers are equally thick in the radial and the vertical
      build. */
  lemma OutboardLayersMatch(t: RadialThicknesses, highPointY: real)
    ensures var b, v := RadialBuildOf(t), VerticalBuildOf(t, highPointY);
      && v.firstwall.end - v.firstwall.start == b.firstwall.end - b.firstwall.start
      && v.blanket.end - v.blanket.start == b.blanket.end - b.blanket.start
      && v.blanketRearWall.end - v.blanketRearWall.start == b.blanketRearWall.end - b.blanketRearWall.start
  {
  }

  /** The three inputs whose presence switches the poloidal field coils on. */
  predicate PfCoilsGiven(pf: PfCoilInputs)
  {
    pf.verticalThicknesses.Some? && pf.radialThicknesses.Some? && pf.toRearBlanketRadialGap.Some?
  }

  /** The vertical distance between neighbouring coils: `n` coils split
      `[-top, top]` into `n + 1` equal parts. */
  function PfCoilStep(top: real, n: nat): real
  {
    2.0 * top / (n + 1) as real
  }

  /** The height of coil `i`: `i + 1` steps below `top`. */
  function PfCoilHeight(top: real, n: nat, i: nat): real
  {
    top - PfCoilStep(top, n) * (i + 1) as real
  }

  /** The first `k` coil centres the placement loop appends: coil `i` sits
      half its radial thickness beyond `xBase`, `i + 1` steps below `top`. */
  function PfCoilCentres(xBase: real, top: real, radial: seq<real>, n: nat, k: nat): (xy: seq<Point>)
    requires k <= |radial|
    ensures |xy| == k
    ensures forall i :: 0 <= i < k ==>
      xy[i] == Point(xBase + 0.5 * radial[i], PfCoilHeight(top, n, i))
    decreases k
  {
    if k == 0 then []
    else
      PfCoilCentres(xBase, top, radial, n, k - 1)
        + [Point(xBase + 0.5 * radial[k - 1], PfCoilHeight(top, n, k - 1))]
  }

  /** Neighbouring coils lie exactly one step apart in height. */
  lemma PfCoilSpacing(xBase: real, top: real, radial: seq<real>, n: nat)
    requires n <= |radial|
    ensures var xy := PfCoilCentres(xBase, top, radial, n, n);
      forall i :: 0 < i < n ==> xy[i - 1].y - xy[i].y == PfCoilStep(top, n)
  {
    var xy := PfCoilCentres(xBase, top, radial, n, n);
    var s := PfCoilStep(top, n);
    forall i | 0 < i < n
      ensures xy[i - 1].y - xy[i].y == s
    {
      assert s * (i + 1) as real == s * i as real + s;
    }
  }

  /** The coils are placed symmetrically about the midplane: coil `i` is as
      far below it as coil `n - 1 - i` is above it. */
  lemma PfCoilSymmetry(xBase: real, top: real, radial: seq<real>, n: nat)
    requires n <= |radial|
    ensures var xy := PfCoilCentres(xBase, top, radial, n, n);
      forall i :: 0 <= i < n ==> xy[i].y == -xy[n - 1 - i].y
  {
    var xy := PfCoilCentres(xBase, top, radial, n, n);
    var s := PfCoilStep(top, n);
    assert s * (n + 1) as real == 2.0 * top;
    forall i | 0 <= i < n
      ensures xy[i].y == -xy[n - 1 - i].y
    {
      assert s * (i + 1) as real + s * (n - i) as real == s * (n + 1) as real;
    }
  }

  /** Above a positive top height every coil lies strictly between `-top`
      and `top`. */
  lemma PfCoilsInside(xBase: real, top: real, radial: seq<real>, n: nat)
    requires n <= |radial| && top > 0.0
    ensures var xy := PfCoilCentres(xBase, top, radial, n, n);
      forall i :: 0 <= i < n ==> -top < xy[i].y < top
  {
    var xy := PfCoilCentres(xBase, top, radial, n, n);
    var s := PfCoilStep(top, n);
    assert s > 0.0;
    assert s * (n + 1) as real == 2.0 * top;
    forall i | 0 <= i < n
      ensures -top < xy[i].y < top
    {
      assert s * (i + 1) as real <= s * n as real;
      assert s * n as real < s * (n + 1) as real;
    }
  }

  /** Python's `max` of a non-empty list: an element no element exceeds. */
  function Max(s: seq<real>): (m: real)
    requires |s| > 0
    ensures m in s
    ensures forall i :: 0 <= i < |s| ==> s[i] <= m
  {
    if |s| == 1 then s[0]
    else
      var m' := Max(s[..|s| - 1]);
      assert forall i :: 0 <= i < |s| - 1 ==> s[..|s| - 1][i] == s[i];
      if Last(s) > m' then Last(s) else m'
  }

  /** The outboard TF coil's radial extent, present only when its gap and
      thickness are both given. As written it starts one PF-to-rear-blanket
      gap beyond the PF coils, not one PF-to-TF gap. */
  function TfCoilRadius(pfCoilEndRadius: real, pf: PfCoilInputs): (r: Option<Interval>)
    requires pf.toRearBlanketRadialGap.Some?
    ensures r.Some? <==> pf.toTfCoilRadialGap.Some? && pf.outboardTfCoilRadialThickness.Some?
    ensures r.Some? ==> r.value.start == pfCoilEndRadius + pf.toRearBlanketRadialGap.value
    ensures r.Some? ==> r.value.end - r.value.start == pf.outboardTfCoilRadialThickness.value
  {
    if pf.toTfCoilRadialGap.Some? && pf.outboardTfCoilRadialThickness.Some? then
      var start := pfCoilEndRadius + pf.toRearBlanketRadialGap.value;
      Some(Interval(start, start + pf.outboardTfCoilRadialThickness.value))
    else None
  }

  /** The PF-to-TF gap only switches the outboard TF coil on: its value
      moves nothing. */
  lemma TfCoilIgnoresTfGap(pfCoilEndRadius: real, pf: PfCoilInputs, gap: real)
    requires pf.toRearBlanketRadialGap.Some? && pf.toTfCoilRadialGap.Some?
    ensures TfCoilRadius(pfCoilEndRadius, pf.(toTfCoilRadialGap := Some(gap))) == TfCoilRadius(pfCoilEndRadius, pf)
  {
  }

  /** The message of the ValueError `max` raises on an empty list. */
  const MaxOfEmpty: string := "max() arg is an empty sequence"

  /** The PF-coil attributes `make_vertical_build` sets: the coil count,
      the coil centres, the PF radii and the outboard TF coil's radii. */
  datatype PfCoilLayout = PfCoilLayout(
    count: Option<nat>,
    centres: Option<seq<Point>>,
    startRadius: Option<real>,
    endRadius: Option<real>,
    tfCoilRadius: Option<Interval>)

  /** The coil loop: it stores the count, then appends one centre per coil,
      `xBase` beyond the axis and below `top`; `radial[i]` raises IndexError
      once the radial list runs out, with the centres before it stored. */
  function PlacedPfCoils(pf: PfCoilInputs, xBase: real, top: real, s: PfCoilLayout): (r: (Outcome, PfCoilLayout))
    requires PfCoilsGiven(pf)
  {
    var n, radial := |pf.verticalThicknesses.value|, pf.radialThicknesses.value;
    if n > |radial| then (Fail(IndexError), s.(count := Some(n), centres := Some(PfCoilCentres(xBase, top, radial, n, |radial|))))
    else (Pass, s.(count := Some(n), centres := Some(PfCoilCentres(xBase, top, radial, n, n))))
  }

  /** The radii after the loop: the PF coils start at `xBase` and reach out by
      the thickest coil, and the outboard TF coil follows when it is given;
      `max` of an empty radial list raises ValueError with the start radius
      stored. */
  function PfCoilRadii(pf: PfCoilInputs, xBase: real, s: PfCoilLayout): (r: (Outcome, PfCoilLayout))
    requires PfCoilsGiven(pf)
  {
    var radial := pf.radialThicknesses.value;
    if |radial| == 0 then (Fail(ValueError(MaxOfEmpty)), s.(startRadius := Some(xBase)))
    else
      var endRadius := xBase + Max(radial);
      var tf := if pf.toTfCoilRadialGap.Some? && pf.outboardTfCoilRadialThickness.Some?
                then TfCoilRadius(endRadius, pf) else s.tfCoilRadius;
      (Pass, s.(startRadius := Some(xBase), endRadius := Some(endRadius), tfCoilRadius := tf))
  }

  /** The PF-coil part of `make_vertical_build` behind a rear wall ending at
      radius `rearWallRadius` and height `rearWallHeight`: nothing happens
      unless the three PF inputs are given; then `N` coils are placed one
      PF-to-rear-blanket gap beyond and spread over the gap-widened height,
      IndexError when fewer than `N` radial thicknesses are given, ValueError
      when none are. */
  function PfCoilsOf(pf: PfCoilInputs, rearWallRadius: real, rearWallHeight: real, s: PfCoilLayout): (r: (Outcome, PfCoilLayout))
    ensures !PfCoilsGiven(pf) ==> r == (Pass, s)
    ensures PfCoilsGiven(pf) ==>
      var n, radial, gap := |pf.verticalThicknesses.value|, pf.radialThicknesses.value, pf.toRearBlanketRadialGap.value;
      && r.1.count == Some(n)
      && (r.0 == Fail(IndexError) <==> n > |radial|)
      && (r.0 == Fail(ValueError(MaxOfEmpty)) <==> n <= |radial| == 0)
      && (r.0 != Pass <==> n > |radial| || |radial| == 0)
      && (r.0 == Pass ==>
            && r.1.centres == Some(PfCoilCentres(rearWallRadius + gap, rearWallHeight + gap, radial, n, n))
            && r.1.startRadius == Some(rearWallRadius + gap)
            && r.1.endRadius == Some(rearWallRadius + gap + Max(radial))
            && r.1.tfCoilRadius ==
                 if pf.toTfCoilRadialGap.Some? && pf.outboardTfCoilRadialThickness.Some?
                 then TfCoilRadius(rearWallRadius + gap + Max(radial), pf) else s.tfCoilRadius)
      && (r.0 == Fail(IndexError) ==>
            && r.1.centres == Some(PfCoilCentres(rearWallRadius + gap, rearWallHeight + gap, radial, n, |radial|))
            && r.1.startRadius == s.startRadius && r.1.endRadius == s.endRadius
            && r.1.tfCoilRadius == s.tfCoilRadius)
      && (r.0 == Fail(ValueError(MaxOfEmpty)) ==>
            && r.1.centres == Some([])
            && r.1.startRadius == Some(rearWallRadius + gap)
            && r.1.endRadius == s.endRadius && r.1.tfCoilRadius == s.tfCoilRadius)
  {
    if !PfCoilsGiven(pf) then (Pass, s)
    else
      var gap := pf.toRearBlanketRadialGap.value;
      var placed := PlacedPfCoils(pf, rearWallRadius + gap, rearWallHeight + gap, s);
      if placed.0.Fail? then placed
      else PfCoilRadii(pf, rearWallRadius + gap, placed.1)
  }

  /** The reactor's build state. The constructor arguments are fixed; the
      build methods set the boundaries, the PF-coil entries only when the
      PF inputs are given. */
  class BallReactor {
    const thicknesses: RadialThicknesses
    const elongation: real
    const triangularity: real
    const numberOfTfCoils: int
    const pf: PfCoilInputs
    const rotationAngle: real
    var majorRadius: real
    var minorRadius: real

    var innerBore: Interval
    var inboardTfCoils: Interval
    var centerColumnShield: Interval
    var divertor: Interval
    var firstwall: Interval
    var blanket: Interval
    var blanketRearWall: Interval

    var plasmaGapVerticalThickness: real
    var firstwallHeight: Interval
    var blanketHeight: Interval
    var blanketRearWallHeight: Interval
    var tfCoilHeight: real
    var centerColumnShieldHeight: real

    var numberOfPfCoils: Option<nat>
    var pfCoilsXyValues: Option<seq<Point>>
    var pfCoilStartRadius: Option<real>
    var pfCoilEndRadius: Option<real>
    var tfCoilRadius: Option<Interval>

    /** The attribute assignments of `__init__` and its major and minor
        radius; nothing is built yet. */
    constructor (thicknesses: RadialThicknesses, elongation: real, triangularity: real,
                 numberOfTfCoils: int, pf: PfCoilInputs, rotationAngle: real)
      ensures this.thicknesses == thicknesses && this.elongation == elongation
      ensures this.triangularity == triangularity && this.numberOfTfCoils == numberOfTfCoils
      ensures this.pf == pf && this.rotationAngle == rotationAngle
      ensures majorRadius == MajorRadius(thicknesses) && minorRadius == MinorRadius(thicknesses)
      ensures numberOfPfCoils == None && pfCoilsXyValues == None
      ensures pfCoilStartRadius == None && pfCoilEndRadius == None && tfCoilRadius == None
    {
      this.thicknesses := thicknesses;
      this.elongation := elongation;
      this.triangularity := triangularity;
      this.numberOfTfCoils := numberOfTfCoils;
      this.pf := pf;
      this.rotationAngle := rotationAngle;
      var inner := thicknesses.innerBore + thicknesses.inboardTfLeg
        + thicknesses.centerColumnShield + thicknesses.innerPlasmaGap;
      var outer := inner + thicknesses.plasma;
      majorRadius := (inner + thicknesses.plasma + inner) / 2.0;
      minorRadius := (outer + inner) / 2.0 - inner;
      numberOfPfCoils := None;
      pfCoilsXyValues := None;
      pfCoilStartRadius := None;
      pfCoilEndRadius := None;
      tfCoilRadius := None;
    }

    /** The radial build as it stands in the fields. */
    function Radial(): RadialBuild
      reads this`innerBore, this`inboardTfCoils, this`centerColumnShield, this`divertor
      reads this`firstwall, this`blanket, this`blanketRearWall
    {
      RadialBuild(innerBore, inboardTfCoils, centerColumnShield, divertor, firstwall, blanket, blanketRearWall)
    }

    /** The vertical build as it stands in the fields. */
    function Vertical(): VerticalBuild
      reads this`firstwallHeight, this`blanketHeight, this`blanketRearWallHeight
      reads this`tfCoilHeight, this`centerColumnShieldHeight
    {
      VerticalBuild(firstwallHeight, blanketHeight, blanketRearWallHeight, tfCoilHeight, centerColumnShieldHeight)
    }

    /** The PF-coil attributes as they stand in the fields. */
    function PfCoils(): PfCoilLayout
      reads this`numberOfPfCoils, this`pfCoilsXyValues, this`pfCoilStartRadius
      reads this`pfCoilEndRadius, this`tfCoilRadius
    {
      PfCoilLayout(numberOfPfCoils, pfCoilsXyValues, pfCoilStartRadius, pfCoilEndRadius, tfCoilRadius)
    }

    /** `make_radial_build`: each boundary computed from the one before. */
    method MakeRadialBuild()
      modifies this`innerBore, this`inboardTfCoils, this`centerColumnShield, this`divertor
      modifies this`firstwall, this`blanket, this`blanketRearWall
      ensures Radial() == RadialBuildOf(thicknesses)
    {
      var t := thicknesses;
      innerBore := Interval(0.0, 0.0 + t.innerBore);
      inboardTfCoils := Interval(innerBore.end, innerBore.end + t.inboardTfLeg);
      centerColumnShield := Interval(inboardTfCoils.end, inboardTfCoils.end + t.centerColumnShield);
      divertor := Interval(centerColumnShield.end, centerColumnShield.end + t.divertor);
      var fwStart := centerColumnShield.end + t.innerPlasmaGap + t.plasma + t.outerPlasmaGap;
      firstwall := Interval(fwStart, fwStart + t.firstwall);
      blanket := Interval(firstwall.end, firstwall.end + t.blanket);
      blanketRearWall := Interval(blanket.end, blanket.end + t.blanketRearWall);
    }

    /** The PF-coil loop of `make_vertical_build`, reached when the three PF
        inputs are given: the count, then one centre appended per coil.
        `radial[i]` raises IndexError when the radial list is shorter than
        the vertical one, after the centres before it were appended. */
    method PlacePfCoils() returns (o: Outcome)
      requires PfCoilsGiven(pf)
      modifies this`numberOfPfCoils, this`pfCoilsXyValues
      ensures var gap := pf.toRearBlanketRadialGap.value;
        (o, PfCoils()) == PlacedPfCoils(pf, blanketRearWall.end + gap, blanketRearWallHeight.end + gap, old(PfCoils()))
    {
      var n := |pf.verticalThicknesses.value|;
      var radial := pf.radialThicknesses.value;
      var gap := pf.toRearBlanketRadialGap.value;
      numberOfPfCoils := Some(n);
      var step := 2.0 * (blanketRearWallHeight.end + gap) / (n + 1) as real;
      ghost var xBase, top := blanketRearWall.end + gap, blanketRearWallHeight.end + gap;
      assert step == PfCoilStep(top, n);
      pfCoilsXyValues := Some([]);
      var i := 0;
      while i < n
        invariant 0 <= i <= n && i <= |radial|
        invariant pfCoilsXyValues == Some(PfCoilCentres(xBase, top, radial, n, i))
        invariant numberOfPfCoils == Some(n)
      {
        if i >= |radial| {
          assert i == |radial| && xBase == blanketRearWall.end + gap && top == blanketRearWallHeight.end + gap;
          return Fail(IndexError);
        }
        var yValue := blanketRearWallHeight.end + gap - step * (i + 1) as real;
        var xValue := blanketRearWall.end + gap + 0.5 * radial[i];
        assert yValue == PfCoilHeight(top, n, i);
        pfCoilsXyValues := Some(pfCoilsXyValues.value + [Point(xValue, yValue)]);
        i := i + 1;
      }
      o := Pass;
    }

    /** The PF radii and the outboard TF coil of `make_vertical_build`, after
        the coil loop: the start radius lies one PF-to-rear-blanket gap beyond
        the rear wall and the end radius the thickest coil beyond that; `max`
        of an empty radial list raises ValueError after the start radius was
        stored. */
    method SetPfCoilRadii() returns (o: Outcome)
      requires PfCoilsGiven(pf)
      modifies this`pfCoilStartRadius, this`pfCoilEndRadius, this`tfCoilRadius
      ensures (o, PfCoils()) == PfCoilRadii(pf, blanketRearWall.end + pf.toRearBlanketRadialGap.value, old(PfCoils()))
    {
      var radial := pf.radialThicknesses.value;
      var gap := pf.toRearBlanketRadialGap.value;
      pfCoilStartRadius := Some(blanketRearWall.end + gap);
      if |radial| == 0 {
        return Fail(ValueError(MaxOfEmpty));
      }
      var endRadius := pfCoilStartRadius.value + Max(radial);
      pfCoilEndRadius := Some(endRadius);
      if pf.toTfCoilRadialGap.Some? && pf.outboardTfCoilRadialThickness.Some? {
        var start := endRadius + gap;
        tfCoilRadius := Some(Interval(start, start + pf.outboardTfCoilRadialThickness.value));
      }
      o := Pass;
    }

    /** The PF-coil part of `make_vertical_build`, once the rear wall's
        height is known: skipped unless the three PF inputs are given, then
        the coil loop and, when it completes, the radii. */
    method BuildPfCoils() returns (o: Outcome)
      modifies this`numberOfPfCoils, this`pfCoilsXyValues, this`pfCoilStartRadius
      modifies this`pfCoilEndRadius, this`tfCoilRadius
      ensures (o, PfCoils()) == PfCoilsOf(pf, blanketRearWall.end, blanketRearWallHeight.end, old(PfCoils()))
    {
      o := Pass;
      if PfCoilsGiven(pf) {
        o := PlacePfCoils();
        if o.Pass? {
          o := SetPfCoilRadii();
        }
      }
    }

    /** `make_vertical_build` above a plasma whose highest point has height
        `highPointY`: the stacked layers, then the PF coils when their three
        inputs are given. */
    method MakeVerticalBuild(highPointY: real) returns (o: Outcome)
      modifies this`plasmaGapVerticalThickness, this`firstwallHeight, this`blanketHeight
      modifies this`blanketRearWallHeight, this`tfCoilHeight, this`centerColumnShieldHeight
      modifies this`numberOfPfCoils, this`pfCoilsXyValues, this`pfCoilStartRadius
      modifies this`pfCoilEndRadius, this`tfCoilRadius
      ensures plasmaGapVerticalThickness == thicknesses.outerPlasmaGap
      ensures Vertical() == VerticalBuildOf(thicknesses, highPointY)
      ensures (o, PfCoils()) == PfCoilsOf(pf, blanketRearWall.end, blanketRearWallHeight.end, old(PfCoils()))
    {
      plasmaGapVerticalThickness := thicknesses.outerPlasmaGap;
      var fwStart := highPointY + plasmaGapVerticalThickness;
      firstwallHeight := Interval(fwStart, fwStart + thicknesses.firstwall);
      blanketHeight := Interval(firstwallHeight.end, firstwallHeight.end + thicknesses.blanket);
      blanketRearWallHeight := Interval(blanketHeight.end, blanketHeight.end + thicknesses.blanketRearWall);
      tfCoilHeight := blanketRearWallHeight.end;
      centerColumnShieldHeight := blanketRearWallHeight.end * 2.0;
      o := BuildPfCoils();
    }
  }

  /** `BallReactor(...)` up to the CAD components: the attributes, the
      radial build, then the vertical build above a plasma reaching height
      `highPointY`; an exception of the vertical build propagates. */
  method NewBallReactor(thicknesses: RadialThicknesses, elongation: real, triangularity: real,
                        numberOfTfCoils: int, pf: PfCoilInputs, rotationAngle: real, highPointY: real)
    returns (r: Result<BallReactor>)
    ensures var b, v := RadialBuildOf(thicknesses), VerticalBuildOf(thicknesses, highPointY);
      var built := PfCoilsOf(pf, b.blanketRearWall.end, v.blanketRearWall.end, PfCoilLayout(None, None, None, None, None));
      && (r.Err? <==> built.0.Fail?)
      && (r.Err? ==> r.error == built.0.error)
      && (r.Ok? ==> r.value.PfCoils() == built.1)
    ensures r.Ok? ==> fresh(r.value) && r.value.thicknesses == thicknesses && r.value.pf == pf
    ensures r.Ok? ==> r.value.majorRadius == MajorRadius(thicknesses) && r.value.minorRadius == MinorRadius(thicknesses)
    ensures r.Ok? ==> r.value.Radial() == RadialBuildOf(thicknesses)
    ensures r.Ok? ==> r.value.Vertical() == VerticalBuildOf(thicknesses, highPointY)
  {
    var reactor := new BallReactor(thicknesses, elongation, triangularity, numberOfTfCoils, pf, rotationAngle);
    reactor.MakeRadialBuild();
    var o := reactor.MakeVerticalBuild(highPointY);
    if o.Fail? {
      return Err(o.error);
    }
    r := Ok(reactor);
  }
}
